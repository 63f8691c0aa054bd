/**
 * Newline-terminated text: the shape of both renderings of a recipe, where
 * every line, the last one included, is followed by a single '\n'.
 */
module Lineas {

  predicate NoNewline(l: string) {
    '\n' !in l
  }

  predicate AllNoNewline(ls: seq<string>) {
    forall i :: 0 <= i < |ls| ==> NoNewline(ls[i])
  }

  /** Each line of ls followed by "\n", in order. */
  function JoinLines(ls: seq<string>): string {
    if ls == [] then "" else JoinLines(ls[..|ls| - 1]) + ls[|ls| - 1] + "\n"
  }

  /** Joining two blocks of lines is joining each and concatenating. */
  lemma {:induction false} JoinLinesAppend(a: seq<string>, b: seq<string>)
    ensures JoinLines(a + b) == JoinLines(a) + JoinLines(b)
  {
    if b == [] {
      assert a + b == a;
    } else {
      var b' := b[..|b| - 1];
      assert (a + b)[..|a + b| - 1] == a + b';
      JoinLinesAppend(a, b');
    }
  }

  /** Joining one more line appends it and its newline. */
  lemma JoinLinesSnoc(ls: seq<string>, l: string)
    ensures JoinLines(ls + [l]) == JoinLines(ls) + l + "\n"
  {
  }

  lemma JoinLinesCons(l: string, ls: seq<string>)
    ensures JoinLines([l] + ls) == l + "\n" + JoinLines(ls)
  {
    JoinLinesAppend([l], ls);
    assert [l][..0] == [];
  }

  /** Index of the first '\n' in s, or |s| when there is none. */
  function FirstNewline(s: string): (k: nat)
    ensures k <= |s|
    ensures k < |s| ==> s[k] == '\n'
    ensures forall j :: 0 <= j < k ==> s[j] != '\n'
  {
    if s == [] || s[0] == '\n' then 0 else 1 + FirstNewline(s[1..])
  }

  /**
   * The lines of s, cut at every '\n'; a last piece without a terminating
   * '\n' still counts as a line.
   */
  function SplitLines(s: string): seq<string>
    decreases |s|
  {
    if s == [] then []
    else
      var k := FirstNewline(s);
      if k == |s| then [s] else [s[..k]] + SplitLines(s[k + 1..])
  }

  lemma FirstNewlineOfLine(l: string, rest: string)
    requires NoNewline(l)
    ensures FirstNewline(l + "\n" + rest) == |l|
  {
    var s := l + "\n" + rest;
    assert s[|l|] == '\n';
    assert forall j :: 0 <= j < |l| ==> s[j] == l[j];
  }

  /** Cutting joined lines at their newlines gives the lines back. */
  lemma {:induction false} SplitJoinLines(ls: seq<string>)
    requires AllNoNewline(ls)
    ensures SplitLines(JoinLines(ls)) == ls
  {
    if ls != [] {
      var l, rest := ls[0], ls[1..];
      assert ls == [l] + rest;
      JoinLinesCons(l, rest);
      var s := l + "\n" + JoinLines(rest);
      FirstNewlineOfLine(l, JoinLines(rest));
      assert s[..|l|] == l;
      assert s[|l| + 1..] == JoinLines(rest);
      SplitJoinLines(rest);
    }
  }
}
