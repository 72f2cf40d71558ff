/** JavaScript strings as sequences of 16-bit code units, with the few string
    operations the terminal code relies on. */
module Utf16 {
  newtype CodeUnit = c: int | 0 <= c <= 0xFFFF
  type Text = seq<CodeUnit>

  const ESC: CodeUnit := 0x1b

  predicate StartsWith(s: Text, p: Text) {
    p <= s
  }

  predicate EndsWith(s: Text, p: Text) {
    |p| <= |s| && s[|s| - |p|..] == p
  }

  predicate OccursAt(s: Text, p: Text, i: int) {
    0 <= i && i + |p| <= |s| && s[i..i + |p|] == p
  }

  ghost predicate Contains(s: Text, p: Text) {
    exists i :: OccursAt(s, p, i)
  }

  /** JavaScript `indexOf`: the first occurrence at or after `from`, or -1. */
  function IndexOf(s: Text, p: Text, from: nat): (r: int)
    ensures r == -1 || (from <= r && OccursAt(s, p, r))
    ensures r == -1 ==> forall i | from <= i :: !OccursAt(s, p, i)
    ensures r != -1 ==> forall i | from <= i < r :: !OccursAt(s, p, i)
    decreases |s| - from
  {
    if from + |p| > |s| then -1
    else if OccursAt(s, p, from) then from
    else IndexOf(s, p, from + 1)
  }

  function Concat(ss: seq<Text>): Text {
    if ss == [] then [] else ss[0] + Concat(ss[1..])
  }

  /** Occurrences survive on either side of a longer text. */
  lemma OccursAtShift(a: Text, s: Text, b: Text, p: Text, i: int)
    requires OccursAt(s, p, i)
    ensures OccursAt(a + s + b, p, |a| + i)
  {
    assert (a + s + b)[|a| + i..|a| + i + |p|] == s[i..i + |p|];
  }
}
