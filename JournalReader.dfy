/** A reader for the generated `Journal` unit: it recovers the field
    descriptors from the text, so it serves as the inverse of the rendering. */
module JournalReader {
  import opened TextLines
  import opened Matcher
  import opened Synthesizer

  datatype Option<T> = None | Some(value: T)

  /** The middle of `line` when it starts with `prefix` and ends with `suffix`. */
  function StripAffixes(line: string, prefix: string, suffix: string): (r: Option<string>)
    ensures r.Some? ==> line == prefix + r.value + suffix
  {
    if |prefix| + |suffix| <= |line| && line[..|prefix|] == prefix && line[|line| - |suffix|..] == suffix then
      Some(line[|prefix|..|line| - |suffix|])
    else None
  }

  lemma StripAffixesOf(prefix: string, middle: string, suffix: string)
    ensures StripAffixes(prefix + middle + suffix, prefix, suffix) == Some(middle)
  {
    var line := prefix + middle + suffix;
    assert line[..|prefix|] == prefix;
    assert line[|line| - |suffix|..] == suffix;
    assert line[|prefix|..|line| - |suffix|] == middle;
  }

  /** The descriptor an accessor block of seven lines was rendered from: the
      name is read off the `add` line, checked against the `remove` line, and
      then the type argument is what stands between the fixed prefix and
      `> name` on the declaration line. */
  function ParseBlock(b: seq<string>): Option<FieldDescriptor>
    requires |b| == 7
  {
    if b[0] != "" || b[2] != OpenBrace || b[5] != CloseBrace || b[6] != "" then None
    else
      match StripAffixes(b[3], AddPrefix, AddSuffix)
      case None => None
      case Some(name) =>
        if b[4] != RemoveLine(name) then None
        else
          match StripAffixes(b[1], EventPrefix, "> " + name)
          case None => None
          case Some(typeArgument) => Some(FieldDescriptor(name, typeArgument))
  }

  function ParseBlocks(ls: seq<string>): Option<seq<FieldDescriptor>>
    decreases |ls|
  {
    if ls == [] then Some([])
    else if |ls| < 7 then None
    else
      match ParseBlock(ls[..7])
      case None => None
      case Some(d) =>
        match ParseBlocks(ls[7..])
        case None => None
        case Some(ds) => Some([d] + ds)
  }

  /** The descriptors of a generated unit, or `None` when the text is not one. */
  function ParseUnit(text: string): Option<seq<FieldDescriptor>> {
    var ls := SplitLines(text);
    if |ls| >= 3 && ls[..2] == HeaderLines && ls[|ls| - 1] == FooterLine then
      ParseBlocks(ls[2..|ls| - 1])
    else None
  }

  lemma ParseBlockOf(d: FieldDescriptor)
    ensures ParseBlock(BlockLines(d)) == Some(d)
  {
    var b := BlockLines(d);
    assert b[0] == "" && b[2] == OpenBrace && b[5] == CloseBrace && b[6] == "";
    assert StripAffixes(b[3], AddPrefix, AddSuffix) == Some(d.name) by {
      StripAffixesOf(AddPrefix, d.name, AddSuffix);
    }
    assert b[4] == RemoveLine(d.name);
    assert StripAffixes(b[1], EventPrefix, "> " + d.name) == Some(d.typeArgument) by {
      StripAffixesOf(EventPrefix, d.typeArgument, "> " + d.name);
      assert b[1] == EventPrefix + d.typeArgument + ("> " + d.name);
    }
  }

  lemma {:induction false} ParseBlocksOf(ds: seq<FieldDescriptor>)
    ensures ParseBlocks(AllBlockLines(ds)) == Some(ds)
  {
    if ds != [] {
      var ls := AllBlockLines(ds);
      assert ls == BlockLines(ds[0]) + AllBlockLines(ds[1..]);
      assert ls[..7] == BlockLines(ds[0]);
      assert ls[7..] == AllBlockLines(ds[1..]);
      ParseBlockOf(ds[0]);
      ParseBlocksOf(ds[1..]);
      assert [ds[0]] + ds[1..] == ds;
    }
  }

  /** Round trip: when no field name or type argument holds a line break,
      reading the generated text gives back exactly the descriptors, with
      their number and order. */
  lemma RenderRoundTrip(ds: seq<FieldDescriptor>)
    requires forall k :: 0 <= k < |ds| ==> Printable(ds[k])
    ensures ParseUnit(Render(ds)) == Some(ds)
  {
    var body := AllBlockLines(ds);
    var ls := HeaderLines + body + [FooterLine];
    RenderLines(ds);
    AllBlockLinesPrintable(ds);
    forall i | 0 <= i < |ls| ensures NoLineBreak(ls[i]) {
      if 2 <= i < |ls| - 1 {
        assert ls[i] == body[i - 2];
      }
    }
    SplitUnlines(ls);
    assert ls[..2] == HeaderLines;
    assert ls[2..|ls| - 1] == body;
    ParseBlocksOf(ds);
  }

  /** Distinct descriptor sequences give distinct texts. */
  lemma RenderInjective(ds: seq<FieldDescriptor>, es: seq<FieldDescriptor>)
    requires forall k :: 0 <= k < |ds| ==> Printable(ds[k])
    requires forall k :: 0 <= k < |es| ==> Printable(es[k])
    requires Render(ds) == Render(es)
    ensures ds == es
  {
    RenderRoundTrip(ds);
    RenderRoundTrip(es);
  }
}
