/** The text the generator emits: a `partial class Journal` holding one event
    accessor block per matched field. */
module Synthesizer {
  import opened Sequences
  import opened TextLines
  import opened Matcher

  /** The name under which the generated unit is added. */
  const UnitLabel := "Journal.cs"

  const HeaderLines := ["partial class Journal", "{"]
  const FooterLine := "}"

  /** The fixed pieces of the accessor template around the substituted texts. */
  const EventPrefix := "    public event EventHandler<"
  const OpenBrace := "    {"
  const CloseBrace := "    }"
  const AddPrefix := "        add => EventHandlers."
  const AddSuffix := ".Updated += value;"
  const RemovePrefix := "        remove => EventHandlers."
  const RemoveSuffix := ".Updated -= value;"

  function DeclarationLine(fieldName: string, typeArgument: string): string {
    EventPrefix + typeArgument + "> " + fieldName
  }

  function AddLine(fieldName: string): string {
    AddPrefix + fieldName + AddSuffix
  }

  function RemoveLine(fieldName: string): string {
    RemovePrefix + fieldName + RemoveSuffix
  }

  /** The verbatim interpolated template: it opens with a line break, and
      each of its five lines ends with one. Nothing is escaped. */
  function GenerateSourceCodeForField(fieldName: string, typeArgument: string): string {
    NewLine
    + DeclarationLine(fieldName, typeArgument) + NewLine
    + OpenBrace + NewLine
    + AddLine(fieldName) + NewLine
    + RemoveLine(fieldName) + NewLine
    + CloseBrace + NewLine
  }

  /** One block as appended with `AppendLine`. */
  function Block(d: FieldDescriptor): string {
    GenerateSourceCodeForField(d.name, d.typeArgument) + NewLine
  }

  /** All blocks, in descriptor order. */
  function Body(ds: seq<FieldDescriptor>): string {
    if ds == [] then "" else Block(ds[0]) + Body(ds[1..])
  }

  /** The whole generated text. */
  function Render(ds: seq<FieldDescriptor>): string {
    Unlines(HeaderLines) + Body(ds) + Unlines([FooterLine])
  }

  /** The text always opens with the header lines and closes with the brace
      line; without descriptors it is exactly those three lines. */
  lemma RenderFrame(ds: seq<FieldDescriptor>)
    ensures |Render(ds)| >= |Unlines(HeaderLines)| + |Unlines([FooterLine])|
    ensures Render(ds)[..|Unlines(HeaderLines)|] == "partial class Journal\n{\n"
    ensures Render(ds)[|Render(ds)| - |Unlines([FooterLine])|..] == "}\n"
    ensures ds == [] ==> Render(ds) == "partial class Journal\n{\n}\n"
  {
    HeaderText();
    FooterText();
    var h, b, f := Unlines(HeaderLines), Body(ds), Unlines([FooterLine]);
    assert (h + b + f)[..|h|] == h;
    assert (h + b + f)[|h + b + f| - |f|..] == f;
  }

  /** The header lines as text, and as the builder's two appends write it. */
  lemma HeaderText()
    ensures Unlines(HeaderLines) == "partial class Journal\n{\n"
    ensures "" + "partial class Journal" + NewLine + "{" + NewLine == Unlines(HeaderLines)
  {
    assert HeaderLines[1..][1..] == [];
  }

  /** The closing line as text, and as the builder's last append writes it. */
  lemma FooterText()
    ensures Unlines([FooterLine]) == "}\n"
    ensures "}" + NewLine == Unlines([FooterLine])
  {
    assert [FooterLine][1..] == [];
  }

  /** The seven lines of one appended block. */
  function BlockLines(d: FieldDescriptor): seq<string> {
    ["", DeclarationLine(d.name, d.typeArgument), OpenBrace, AddLine(d.name), RemoveLine(d.name), CloseBrace, ""]
  }

  function AllBlockLines(ds: seq<FieldDescriptor>): seq<string> {
    if ds == [] then [] else BlockLines(ds[0]) + AllBlockLines(ds[1..])
  }

  predicate Printable(d: FieldDescriptor) {
    NoLineBreak(d.name) && NoLineBreak(d.typeArgument)
  }

  /** The body grows by one block per appended descriptor. */
  lemma {:induction false} BodyAppend(a: seq<FieldDescriptor>, b: seq<FieldDescriptor>)
    ensures Body(a + b) == Body(a) + Body(b)
  {
    if a == [] {
      assert a + b == b;
    } else {
      assert (a + b)[0] == a[0];
      assert (a + b)[1..] == a[1..] + b;
      BodyAppend(a[1..], b);
      Regroup(Block(a[0]), Body(a[1..]), Body(b));
    }
  }

  lemma BodySingle(d: FieldDescriptor)
    ensures Body([d]) == Block(d)
  {
    assert [d][1..] == [];
  }

  /** Block shape: an appended block is exactly seven lines, the first and
      last empty; the field name ends the declaration line and sits in the
      `add` and `remove` lines; when the substituted texts hold no line break,
      the lines are recovered by splitting. */
  lemma BlockShape(d: FieldDescriptor)
    ensures Block(d) == Unlines(BlockLines(d))
    ensures Printable(d) ==> SplitLines(Block(d)) == BlockLines(d)
  {
    BlockUnlines(DeclarationLine(d.name, d.typeArgument), OpenBrace, AddLine(d.name), RemoveLine(d.name), CloseBrace);
    if Printable(d) {
      BlockLinesPrintable(d);
      SplitUnlines(BlockLines(d));
    }
  }

  /** No fixed piece of the template holds a line break. The pieces are
      checked in three groups so that each proof goal stays small: one goal
      over all eight literals is costly for the solver. */
  lemma TemplatePrintable()
    ensures NoLineBreak(EventPrefix) && NoLineBreak("> ")
    ensures NoLineBreak(OpenBrace) && NoLineBreak(CloseBrace)
    ensures NoLineBreak(AddPrefix) && NoLineBreak(AddSuffix)
    ensures NoLineBreak(RemovePrefix) && NoLineBreak(RemoveSuffix)
  {
    DeclarationPiecesPrintable();
    AddPiecesPrintable();
    RemovePiecesPrintable();
  }

  lemma DeclarationPiecesPrintable()
    ensures NoLineBreak(EventPrefix) && NoLineBreak("> ") && NoLineBreak(OpenBrace) && NoLineBreak(CloseBrace)
  {
  }

  lemma AddPiecesPrintable()
    ensures NoLineBreak(AddPrefix) && NoLineBreak(AddSuffix)
  {
  }

  lemma RemovePiecesPrintable()
    ensures NoLineBreak(RemovePrefix) && NoLineBreak(RemoveSuffix)
  {
  }

  lemma BlockLinesPrintable(d: FieldDescriptor)
    requires Printable(d)
    ensures forall i :: 0 <= i < |BlockLines(d)| ==> NoLineBreak(BlockLines(d)[i])
  {
    TemplatePrintable();
    assert NoLineBreak(DeclarationLine(d.name, d.typeArgument));
    assert NoLineBreak(AddLine(d.name));
    assert NoLineBreak(RemoveLine(d.name));
  }

  /** Seven lines, the first and last empty, joined. */
  lemma BlockUnlines(l1: string, l2: string, l3: string, l4: string, l5: string)
    ensures Unlines(["", l1, l2, l3, l4, l5, ""])
      == NewLine + l1 + NewLine + l2 + NewLine + l3 + NewLine + l4 + NewLine + l5 + NewLine + NewLine
  {
    assert [""][1..] == [];
    assert Unlines([""]) == NewLine by {
      assert Unlines([""]) == "" + NewLine + "";
    }
    UnlinesSnoc([""], l1);
    assert [""] + [l1] == ["", l1];
    UnlinesSnoc(["", l1], l2);
    assert ["", l1] + [l2] == ["", l1, l2];
    UnlinesSnoc(["", l1, l2], l3);
    assert ["", l1, l2] + [l3] == ["", l1, l2, l3];
    UnlinesSnoc(["", l1, l2, l3], l4);
    assert ["", l1, l2, l3] + [l4] == ["", l1, l2, l3, l4];
    UnlinesSnoc(["", l1, l2, l3, l4], l5);
    assert ["", l1, l2, l3, l4] + [l5] == ["", l1, l2, l3, l4, l5];
    UnlinesSnoc(["", l1, l2, l3, l4, l5], "");
    assert ["", l1, l2, l3, l4, l5] + [""] == ["", l1, l2, l3, l4, l5, ""];
    var x := Unlines(["", l1, l2, l3, l4, l5]);
    assert x + "" + NewLine == x + NewLine;
  }

  lemma {:induction false} BodyLines(ds: seq<FieldDescriptor>)
    ensures Body(ds) == Unlines(AllBlockLines(ds))
  {
    if ds != [] {
      BlockShape(ds[0]);
      BodyLines(ds[1..]);
      UnlinesAppend(BlockLines(ds[0]), AllBlockLines(ds[1..]));
    }
  }

  lemma {:induction false} AllBlockLinesPrintable(ds: seq<FieldDescriptor>)
    requires forall k :: 0 <= k < |ds| ==> Printable(ds[k])
    ensures |AllBlockLines(ds)| == 7 * |ds|
    ensures forall i :: 0 <= i < |AllBlockLines(ds)| ==> NoLineBreak(AllBlockLines(ds)[i])
  {
    if ds != [] {
      AllBlockLinesPrintable(ds[1..]);
      var first, rest := BlockLines(ds[0]), AllBlockLines(ds[1..]);
      BlockLinesPrintable(ds[0]);
      assert AllBlockLines(ds) == first + rest;
      forall i | 0 <= i < |first + rest| ensures NoLineBreak((first + rest)[i]) {
        if i < |first| {
          assert (first + rest)[i] == first[i];
        } else {
          assert (first + rest)[i] == rest[i - |first|];
        }
      }
    }
  }

  /** The generated text as lines: the two header lines, seven lines per
      descriptor in order, and the closing brace. */
  lemma RenderLines(ds: seq<FieldDescriptor>)
    ensures Render(ds) == Unlines(HeaderLines + AllBlockLines(ds) + [FooterLine])
  {
    BodyLines(ds);
    UnlinesAppend(HeaderLines, AllBlockLines(ds));
    UnlinesAppend(HeaderLines + AllBlockLines(ds), [FooterLine]);
  }
}
