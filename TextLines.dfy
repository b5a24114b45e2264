/** Text as a sequence of newline-terminated lines. */
module TextLines {
  import opened Sequences

  /** The one line terminator of the model (the platform's `Environment.NewLine`
      is fixed to a line feed). */
  const NewLine := "\n"

  predicate NoLineBreak(s: string) {
    '\n' !in s
  }

  /** Each line followed by a terminator, as repeated `AppendLine` calls write them. */
  function Unlines(ls: seq<string>): string {
    if ls == [] then "" else ls[0] + NewLine + Unlines(ls[1..])
  }

  /** The length of the first line of `s`: the position of its first line
      feed, or `|s|` when there is none. */
  function LineLength(s: string): (k: nat)
    ensures k <= |s|
    ensures k < |s| ==> s[k] == '\n'
    ensures forall j :: 0 <= j < k ==> s[j] != '\n'
  {
    if s == [] || s[0] == '\n' then 0 else 1 + LineLength(s[1..])
  }

  /** Splits a text at its line feeds; a last line without terminator is kept. */
  function SplitLines(s: string): seq<string>
    decreases |s|
  {
    if s == [] then []
    else
      var k := LineLength(s);
      if k == |s| then [s] else [s[..k]] + SplitLines(s[k + 1..])
  }

  lemma {:induction false} UnlinesAppend(a: seq<string>, b: seq<string>)
    ensures Unlines(a + b) == Unlines(a) + Unlines(b)
  {
    if a == [] {
      assert a + b == b;
    } else {
      assert (a + b)[0] == a[0];
      assert (a + b)[1..] == a[1..] + b;
      UnlinesAppend(a[1..], b);
      Regroup(a[0] + NewLine, Unlines(a[1..]), Unlines(b));
    }
  }

  lemma UnlinesSnoc(ls: seq<string>, l: string)
    ensures Unlines(ls + [l]) == Unlines(ls) + l + NewLine
  {
    UnlinesAppend(ls, [l]);
    assert [l][1..] == [];
    assert Unlines([l]) == l + NewLine + "";
    assert l + NewLine + "" == l + NewLine;
    assert Unlines(ls) + (l + NewLine) == Unlines(ls) + l + NewLine;
  }

  /** The first line of a text that starts with a line without line feeds. */
  lemma {:induction false} LineLengthOf(l: string, rest: string)
    requires NoLineBreak(l)
    ensures LineLength(l + NewLine + rest) == |l|
  {
    var s := l + NewLine + rest;
    if l == [] {
      assert s[0] == '\n';
    } else {
      assert s[0] == l[0];
      assert s[1..] == l[1..] + NewLine + rest;
      LineLengthOf(l[1..], rest);
    }
  }

  /** Splitting a text whose first line holds no line feed yields that line
      first. */
  lemma SplitFirst(l: string, rest: string)
    requires NoLineBreak(l)
    ensures SplitLines(l + NewLine + rest) == [l] + SplitLines(rest)
  {
    var s := l + NewLine + rest;
    LineLengthOf(l, rest);
    assert |l| < |s|;
    assert s[..|l|] == l;
    assert s[|l| + 1..] == rest;
  }

  /** Splitting undoes joining, for lines without line feeds. */
  lemma {:induction false} SplitUnlines(ls: seq<string>)
    requires forall i :: 0 <= i < |ls| ==> NoLineBreak(ls[i])
    ensures SplitLines(Unlines(ls)) == ls
  {
    if ls != [] {
      SplitFirst(ls[0], Unlines(ls[1..]));
      assert forall i :: 0 <= i < |ls[1..]| ==> NoLineBreak(ls[1..][i]) by {
        forall i | 0 <= i < |ls[1..]|
          ensures NoLineBreak(ls[1..][i])
        {
          assert ls[1..][i] == ls[i + 1];
        }
      }
      SplitUnlines(ls[1..]);
      assert [ls[0]] + ls[1..] == ls;
    }
  }
}
