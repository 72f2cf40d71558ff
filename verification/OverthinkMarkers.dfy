/** Counting self-reversal markers in a stream. The counter sees one delta at a time and keeps a
    tail of 32 characters; it is compared with a scan of the whole text. */
module OverthinkMarkers {
  import opened Utf16

  const MARKER_TAIL_LEN: nat := 32

  datatype Marker = Wait | Actually | OnSecondThought | LetMeReconsider | HmmBut | ScratchThat | HoldOn | LetMeRethink

  function Spell(m: Marker): (s: string)
    ensures 4 <= |s| <= 17
  {
    match m
    case Wait => "wait"
    case Actually => "actually"
    case OnSecondThought => "on second thought"
    case LetMeReconsider => "let me reconsider"
    case HmmBut => "hmm, but"
    case ScratchThat => "scratch that"
    case HoldOn => "hold on"
    case LetMeRethink => "let me rethink"
  }

  predicate IsWord(c: int) {
    0x30 <= c <= 0x39 || 0x41 <= c <= 0x5a || c == 0x5f || 0x61 <= c <= 0x7a
  }

  function Lower(c: CodeUnit): int {
    if 0x41 <= c <= 0x5a then c as int + 32 else c as int
  }

  predicate WordAt(text: Text, i: int) {
    0 <= i < |text| && IsWord(text[i] as int)
  }

  predicate Boundary(text: Text, i: int) {
    WordAt(text, i - 1) != WordAt(text, i)
  }

  predicate Spelled(text: Text, i: int, m: Marker) {
    0 <= i && i + |Spell(m)| <= |text| &&
    forall k | 0 <= k < |Spell(m)| :: Lower(text[i + k]) == Spell(m)[k] as int
  }

  /** The pattern matches at `i`: a marker between word boundaries. */
  predicate Raw(text: Text, i: int, m: Marker) {
    Spelled(text, i, m) && Boundary(text, i) && Boundary(text, i + |Spell(m)|)
  }

  // ---------------------------------------------------------------------------
  // Which markers can overlap

  /** Positions inside a marker where a word starts. */
  predicate InnerWord(m: Marker, d: int) {
    0 < d < |Spell(m)| && !IsWord(Spell(m)[d - 1] as int) && IsWord(Spell(m)[d] as int)
  }

  lemma InnerWords(m: Marker, d: int)
    requires InnerWord(m, d)
    ensures
      || (m == OnSecondThought && (d == 3 || d == 10))
      || (m == LetMeReconsider && (d == 4 || d == 7))
      || (m == HmmBut && d == 5)
      || (m == ScratchThat && d == 8)
      || (m == HoldOn && d == 5)
      || (m == LetMeRethink && (d == 4 || d == 7))
  {
    match m
    case Wait =>
    case Actually =>
    case OnSecondThought =>
    case LetMeReconsider =>
    case HmmBut =>
    case ScratchThat =>
    case HoldOn =>
    case LetMeRethink =>
  }

  lemma SpelledAt(text: Text, i: int, m: Marker, k: int)
    requires Spelled(text, i, m) && 0 <= k < |Spell(m)|
    ensures Lower(text[i + k]) == Spell(m)[k] as int && WordAt(text, i + k) == IsWord(Spell(m)[k] as int)
  {
  }

  lemma StartsInside(text: Text, p: int, a: Marker, q: int, b: Marker)
    requires Raw(text, p, a) && Raw(text, q, b) && p < q < p + |Spell(a)|
    ensures InnerWord(a, q - p) && Spell(a)[q - p] == Spell(b)[0]
    ensures q - p + 1 < |Spell(a)| ==> Spell(a)[q - p + 1] == Spell(b)[1]
  {
    hide Spelled, Spell, Lower, WordAt, IsWord;
    FirstIsLetter(b);
    SpelledAt(text, p, a, q - p - 1);
    SpelledAt(text, p, a, q - p);
    SpelledAt(text, q, b, 0);
    if q - p + 1 < |Spell(a)| {
      SpelledAt(text, p, a, q - p + 1);
      SpelledAt(text, q, b, 1);
    }
  }

  lemma FirstIsLetter(m: Marker)
    ensures IsWord(Spell(m)[0] as int)
  {
  }

  lemma InsideByLetters(a: Marker, d: int, b: Marker)
    requires InnerWord(a, d) && Spell(a)[d] == Spell(b)[0] && (d + 1 < |Spell(a)| ==> Spell(a)[d + 1] == Spell(b)[1])
    ensures a == HoldOn && b == OnSecondThought && d == 5
  {
    InnerWords(a, d);
  }

  /** Of all markers, only "on second thought" can start inside another, the end of "hold on". */
  lemma OnlyHoldOnOverlaps(text: Text, p: int, a: Marker, q: int, b: Marker)
    requires Raw(text, p, a) && Raw(text, q, b) && p < q < p + |Spell(a)|
    ensures a == HoldOn && b == OnSecondThought && q == p + 5
  {
    hide Raw, Spell, InnerWord;
    StartsInside(text, p, a, q, b);
    InsideByLetters(a, q - p, b);
  }

  predicate LetMe(m: Marker) {
    m == LetMeReconsider || m == LetMeRethink
  }

  /** No marker starts another. */
  lemma OneMarkerEach(text: Text, p: int, a: Marker, b: Marker)
    requires Raw(text, p, a) && Raw(text, p, b)
    ensures a == b
  {
    SameLetter(text, p, a, b, 0);
    SameLetter(text, p, a, b, 1);
    LongEnough(a);
    LongEnough(b);
    if LetMe(a) && LetMe(b) {
      SameLetter(text, p, a, b, 9);
    }
    hide Raw, Spell;
    EqualByLetters(a, b);
  }

  lemma LongEnough(m: Marker)
    ensures LetMe(m) ==> |Spell(m)| > 9
  {
  }

  lemma SameLetter(text: Text, p: int, a: Marker, b: Marker, k: int)
    requires Spelled(text, p, a) && Spelled(text, p, b) && 0 <= k < |Spell(a)| && k < |Spell(b)|
    ensures Spell(a)[k] == Spell(b)[k]
  {
    SpelledAt(text, p, a, k);
    SpelledAt(text, p, b, k);
  }

  lemma EqualByLetters(a: Marker, b: Marker)
    requires Spell(a)[0] == Spell(b)[0] && Spell(a)[1] == Spell(b)[1]
    requires LetMe(a) && LetMe(b) ==> |Spell(a)| > 9 && |Spell(b)| > 9 && Spell(a)[9] == Spell(b)[9]
    ensures a == b
  {
  }

  // ---------------------------------------------------------------------------
  // The scan of a text, and its local meaning

  predicate Matches(text: Text, i: int) {
    exists m: Marker :: Raw(text, i, m)
  }

  lemma SomeMarker(text: Text, i: int)
    requires Matches(text, i)
    ensures Raw(text, i, Wait) || Raw(text, i, Actually) || Raw(text, i, OnSecondThought) || Raw(text, i, LetMeReconsider)
      || Raw(text, i, HmmBut) || Raw(text, i, ScratchThat) || Raw(text, i, HoldOn) || Raw(text, i, LetMeRethink)
  {
    hide Raw;
    var m: Marker :| Raw(text, i, m);
    assert m.Wait? || m.Actually? || m.OnSecondThought? || m.LetMeReconsider? || m.HmmBut? || m.ScratchThat? || m.HoldOn? || m.LetMeRethink?;
  }

  function MarkerAt(text: Text, i: int): (m: Marker)
    requires Matches(text, i)
    ensures Raw(text, i, m)
  {
    SomeMarker(text, i);
    hide Raw;
    if Raw(text, i, Wait) then Wait
    else if Raw(text, i, Actually) then Actually
    else if Raw(text, i, OnSecondThought) then OnSecondThought
    else if Raw(text, i, LetMeReconsider) then LetMeReconsider
    else if Raw(text, i, HmmBut) then HmmBut
    else if Raw(text, i, ScratchThat) then ScratchThat
    else if Raw(text, i, HoldOn) then HoldOn
    else LetMeRethink
  }

  /** Where the matches of a global search end: leftmost first, each search starting where the last match ended. */
  function Scan(text: Text, i: nat): seq<nat>
    decreases |text| - i
  {
    if i >= |text| then []
    else if Matches(text, i) then
      var end := i + |Spell(MarkerAt(text, i))|;
      [end] + Scan(text, end)
    else Scan(text, i + 1)
  }

  /** The simple count: matches of the whole text. */
  function WholeCount(text: Text): nat {
    |Scan(text, 0)|
  }

  /** A match that no earlier match takes a part of, among matches from `from` on. */
  predicate FreeFrom(text: Text, from: int, i: int, m: Marker) {
    from <= i && Raw(text, i, m) && !(m == OnSecondThought && from <= i - 5 && Raw(text, i - 5, HoldOn))
  }

  /** Locally: a match ends at `e`. */
  predicate EndsAt(text: Text, from: int, e: int) {
    exists m: Marker :: FreeFrom(text, from, e - |Spell(m)|, m)
  }

  lemma LengthOf()
    ensures |Spell(HoldOn)| == 7 && |Spell(OnSecondThought)| == 17
  {
  }

  /** Before a match, and up to its end, nothing else is free. */
  lemma FreeAfterMatch(text: Text, i: nat, m: Marker, e: int)
    requires Raw(text, i, m)
    ensures EndsAt(text, i, e) <==> e == i + |Spell(m)| || EndsAt(text, i + |Spell(m)|, e)
  {
    hide Raw, Spell;
    LengthOf();
    var next := i + |Spell(m)|;
    if b: Marker :| FreeFrom(text, i, e - |Spell(b)|, b) {
      var s := e - |Spell(b)|;
      if s == i {
        OneMarkerEach(text, i, m, b);
      } else if s < next {
        OnlyHoldOnOverlaps(text, i, m, s, b);
      } else {
        assert FreeFrom(text, next, s, b);
      }
    }
    if e == next {
      assert FreeFrom(text, i, e - |Spell(m)|, m);
    }
    if b: Marker :| FreeFrom(text, next, e - |Spell(b)|, b) {
      var s := e - |Spell(b)|;
      if b == OnSecondThought && i <= s - 5 && Raw(text, s - 5, HoldOn) {
        HoldOnAfterMatch(text, i, m, s);
      }
      assert FreeFrom(text, i, s, b);
    }
  }

  lemma HoldOnAfterMatch(text: Text, i: int, m: Marker, s: int)
    requires Raw(text, i, m) && i <= s - 5 && Raw(text, s - 5, HoldOn) && i + |Spell(m)| <= s
    ensures i + |Spell(m)| <= s - 5
  {
    hide Raw, Spell;
    LengthOf();
    if s - 5 == i {
      OneMarkerEach(text, i, m, HoldOn);
    } else if s - 5 < i + |Spell(m)| {
      OnlyHoldOnOverlaps(text, i, m, s - 5, HoldOn);
    }
  }

  lemma FreeAfterNone(text: Text, i: nat, e: int)
    requires !Matches(text, i)
    ensures EndsAt(text, i, e) <==> EndsAt(text, i + 1, e)
  {
    hide Raw, Spell;
    if b: Marker :| FreeFrom(text, i, e - |Spell(b)|, b) {
      assert FreeFrom(text, i + 1, e - |Spell(b)|, b);
    }
    if b: Marker :| FreeFrom(text, i + 1, e - |Spell(b)|, b) {
      assert FreeFrom(text, i, e - |Spell(b)|, b);
    }
  }

  predicate Increasing(s: seq<nat>) {
    forall i, j | 0 <= i < j < |s| :: s[i] < s[j]
  }

  /** The scan finds exactly the local matches, each once, from left to right. */
  lemma {:induction false} ScanIsLocal(text: Text, i: nat)
    ensures Increasing(Scan(text, i))
    ensures forall e | e in Scan(text, i) :: i < e <= |text|
    ensures forall e: nat :: e in Scan(text, i) <==> EndsAt(text, i, e)
    decreases |text| - i
  {
    hide Raw, Spell, EndsAt;
    if i >= |text| {
      forall e: nat
        ensures !EndsAt(text, i, e)
      {
        NoneLeft(text, i, e);
      }
    } else if Matches(text, i) {
      var m := MarkerAt(text, i);
      InText(text, i, m);
      var rest := Scan(text, i + |Spell(m)|);
      ScanIsLocal(text, i + |Spell(m)|);
      assert Scan(text, i) == [i + |Spell(m)|] + rest;
      InOrder(i + |Spell(m)|, rest);
      forall e: nat
        ensures EndsAt(text, i, e) <==> e == i + |Spell(m)| || EndsAt(text, i + |Spell(m)|, e)
      {
        FreeAfterMatch(text, i, m, e);
      }
    } else {
      ScanIsLocal(text, i + 1);
      forall e: nat
        ensures EndsAt(text, i, e) <==> EndsAt(text, i + 1, e)
      {
        FreeAfterNone(text, i, e);
      }
    }
  }

  lemma InOrder(end: nat, rest: seq<nat>)
    requires Increasing(rest) && forall e | e in rest :: end < e
    ensures Increasing([end] + rest)
  {
    var s := [end] + rest;
    forall i, j | 0 <= i < j < |s|
      ensures s[i] < s[j]
    {
      assert s[j] == rest[j - 1] && rest[j - 1] in rest;
      assert i > 0 ==> s[i] == rest[i - 1];
    }
  }

  lemma NoneLeft(text: Text, i: nat, e: int)
    requires i >= |text|
    ensures !EndsAt(text, i, e)
  {
  }

  lemma InText(text: Text, i: int, m: Marker)
    requires Raw(text, i, m)
    ensures 0 <= i < i + |Spell(m)| <= |text|
  {
  }

  // ---------------------------------------------------------------------------
  // Counting by where matches end

  function CountBeyond(ends: seq<nat>, lo: nat): nat {
    if ends == [] then 0 else (if ends[0] > lo then 1 else 0) + CountBeyond(ends[1..], lo)
  }

  /** How many positions from `lo + 1` to `hi` end a match. */
  function Hits(text: Text, lo: nat, hi: nat): nat
    decreases hi - lo
  {
    if lo >= hi then 0 else (if EndsAt(text, 0, lo + 1) then 1 else 0) + Hits(text, lo + 1, hi)
  }

  lemma Rest(ends: seq<nat>)
    requires Increasing(ends) && ends != []
    ensures Increasing(ends[1..]) && forall e | e in ends[1..] :: e > ends[0]
    ensures ends[0] in ends && forall e :: e in ends <==> e == ends[0] || e in ends[1..]
  {
    var rest := ends[1..];
    assert ends == [ends[0]] + rest;
    assert forall i | 0 <= i < |rest| :: rest[i] == ends[i + 1];
  }

  lemma {:induction false} BeyondIsHits(text: Text, ends: seq<nat>, lo: nat, hi: nat)
    requires Increasing(ends) && forall e | e in ends :: e <= hi
    requires forall e: nat | lo < e <= hi :: e in ends <==> EndsAt(text, 0, e)
    ensures CountBeyond(ends, lo) == Hits(text, lo, hi)
    decreases hi - lo, |ends|
  {
    hide EndsAt, Increasing;
    if lo >= hi {
      NoneBeyond(ends, lo);
    } else if ends == [] {
      BeyondIsHits(text, ends, lo + 1, hi);
    } else {
      Rest(ends);
      if ends[0] <= lo {
        BeyondIsHits(text, ends[1..], lo, hi);
      } else if ends[0] == lo + 1 {
        BeyondIsHits(text, ends[1..], lo + 1, hi);
        AllBeyond(ends, lo);
        AllBeyond(ends[1..], lo + 1);
      } else {
        BeyondIsHits(text, ends, lo + 1, hi);
        AllBeyond(ends, lo);
        AllBeyond(ends, lo + 1);
      }
    }
  }

  lemma {:induction false} NoneBeyond(ends: seq<nat>, lo: nat)
    requires Increasing(ends) && forall e | e in ends :: e <= lo
    ensures CountBeyond(ends, lo) == 0
  {
    if ends != [] {
      Rest(ends);
      NoneBeyond(ends[1..], lo);
    }
  }

  lemma {:induction false} AllBeyond(ends: seq<nat>, lo: nat)
    requires Increasing(ends) && forall e | e in ends :: e > lo
    ensures CountBeyond(ends, lo) == |ends|
  {
    if ends != [] {
      Rest(ends);
      AllBeyond(ends[1..], lo);
    }
  }

  lemma ScanHits(text: Text, lo: nat)
    ensures CountBeyond(Scan(text, 0), lo) == Hits(text, lo, |text|)
    ensures WholeCount(text) == Hits(text, 0, |text|)
  {
    hide EndsAt;
    ScanIsLocal(text, 0);
    BeyondIsHits(text, Scan(text, 0), lo, |text|);
    BeyondIsHits(text, Scan(text, 0), 0, |text|);
    AllBeyond(Scan(text, 0), 0);
  }

  lemma {:induction false} HitsSplit(text: Text, lo: nat, mid: nat, hi: nat)
    requires lo <= mid <= hi
    ensures Hits(text, lo, hi) == Hits(text, lo, mid) + Hits(text, mid, hi)
    decreases mid - lo
  {
    hide EndsAt;
    if lo < mid {
      HitsSplit(text, lo + 1, mid, hi);
    }
  }

  lemma {:induction false} HitsShift(a: Text, b: Text, lo: nat, hi: nat, k: nat)
    requires forall e: nat | lo < e <= hi :: EndsAt(a, 0, e) <==> EndsAt(b, 0, e + k)
    ensures Hits(a, lo, hi) == Hits(b, lo + k, hi + k)
    decreases hi - lo
  {
    hide EndsAt;
    if lo < hi {
      HitsShift(a, b, lo + 1, hi, k);
      assert EndsAt(a, 0, lo + 1) <==> EndsAt(b, 0, lo + 1 + k);
    }
  }

  // ---------------------------------------------------------------------------
  // Windows and prefixes of a text

  lemma RawInWindow(text: Text, k: nat, i: int, m: Marker)
    requires k <= |text| && (k == 0 || i >= 1)
    ensures Raw(text[k..], i, m) <==> Raw(text, i + k, m)
  {
    hide Spell;
    var w := text[k..];
    forall j: int | 0 <= j || k == 0
      ensures WordAt(w, j) == WordAt(text, j + k)
    {
    }
    if Spelled(text, i + k, m) && i >= 0 {
      forall j | 0 <= j < |Spell(m)|
        ensures Lower(w[i + j]) == Spell(m)[j] as int
      {
        assert w[i + j] == text[i + k + j];
      }
    }
    if Spelled(w, i, m) {
      forall j | 0 <= j < |Spell(m)|
        ensures Lower(text[i + k + j]) == Spell(m)[j] as int
      {
        assert w[i + j] == text[i + k + j];
      }
    }
  }

  /** A window that reaches 32 characters back decides where matches end. */
  lemma EndsInWindow(text: Text, k: nat, e: nat)
    requires k <= |text| && (k == 0 || e > MARKER_TAIL_LEN)
    ensures EndsAt(text[k..], 0, e) <==> EndsAt(text, 0, e + k)
  {
    hide Raw, Spell, FreeFrom;
    forall m: Marker
      ensures FreeFrom(text[k..], 0, e - |Spell(m)|, m) <==> FreeFrom(text, 0, e + k - |Spell(m)|, m)
    {
      FreeInWindow(text, k, e - |Spell(m)|, m);
    }
    if m: Marker :| FreeFrom(text[k..], 0, e - |Spell(m)|, m) {
      assert FreeFrom(text, 0, e + k - |Spell(m)|, m);
    }
    if m: Marker :| FreeFrom(text, 0, e + k - |Spell(m)|, m) {
      assert FreeFrom(text[k..], 0, e - |Spell(m)|, m);
    }
  }

  lemma FreeInWindow(text: Text, k: nat, i: int, m: Marker)
    requires k <= |text| && (k == 0 || i >= 6)
    ensures FreeFrom(text[k..], 0, i, m) <==> FreeFrom(text, 0, i + k, m)
  {
    hide Raw;
    RawInWindow(text, k, i, m);
    RawInWindow(text, k, i - 5, HoldOn);
  }

  /** Inside a prefix matches end as in the whole text. At its very end, the prefix also has a
      match when the text goes on with a word character. */
  lemma EndsInPrefix(p: Text, d: Text, e: nat)
    requires e <= |p|
    ensures EndsAt(p + d, 0, e) <==> EndsAt(p, 0, e) && !GoesOn(p, d, e)
  {
    hide Raw, Spell, FreeFrom, GoesOn;
    forall m: Marker
      ensures FreeFrom(p + d, 0, e - |Spell(m)|, m) <==> FreeFrom(p, 0, e - |Spell(m)|, m) && !GoesOn(p, d, e)
    {
      FreeInPrefix(p, d, e - |Spell(m)|, m);
    }
    if m: Marker :| FreeFrom(p, 0, e - |Spell(m)|, m) {
      assert !GoesOn(p, d, e) ==> FreeFrom(p + d, 0, e - |Spell(m)|, m);
    }
    if m: Marker :| FreeFrom(p + d, 0, e - |Spell(m)|, m) {
      assert FreeFrom(p, 0, e - |Spell(m)|, m);
    }
  }

  /** `e` is the end of the prefix and the text goes on with a word character. */
  predicate GoesOn(p: Text, d: Text, e: int): (r: bool)
    ensures r ==> e == |p|
  {
    e == |p| && d != [] && IsWord(d[0] as int)
  }

  lemma FreeInPrefix(p: Text, d: Text, i: int, m: Marker)
    requires i + |Spell(m)| <= |p|
    ensures FreeFrom(p + d, 0, i, m) <==> FreeFrom(p, 0, i, m) && !GoesOn(p, d, i + |Spell(m)|)
  {
    RawInPrefix(p, d, i, m);
    LengthOf();
    if m == OnSecondThought {
      RawInPrefix(p, d, i - 5, HoldOn);
    }
    hide Raw, Spell;
  }

  lemma RawInPrefix(p: Text, d: Text, i: int, m: Marker)
    requires i + |Spell(m)| <= |p|
    ensures Raw(p + d, i, m) <==> Raw(p, i, m) && !GoesOn(p, d, i + |Spell(m)|)
  {
    hide Spell, Spelled, Boundary, GoesOn, WordAt, IsWord;
    SameSpelling(p, d, i, m);
    if Spelled(p, i, m) {
      SpelledAt(p, i, m, |Spell(m)| - 1);
      LastIsLetter(m);
      BoundaryInPrefix(p, d, i);
      BoundaryInPrefix(p, d, i + |Spell(m)|);
    }
  }

  lemma BoundaryInPrefix(p: Text, d: Text, j: int)
    ensures j < |p| ==> Boundary(p + d, j) == Boundary(p, j)
    ensures j == |p| && WordAt(p, j - 1) ==> Boundary(p, j) && Boundary(p + d, j) == !GoesOn(p, d, j)
  {
    SameWords(p, d, j - 1);
    SameWords(p, d, j);
    hide GoesOn, WordAt;
  }

  lemma SameWords(p: Text, d: Text, j: int)
    ensures j < |p| ==> WordAt(p + d, j) == WordAt(p, j)
    ensures j == |p| ==> !WordAt(p, j) && WordAt(p + d, j) == GoesOn(p, d, j)
  {
  }

  lemma SameSpelling(p: Text, d: Text, i: int, m: Marker)
    requires i + |Spell(m)| <= |p|
    ensures Spelled(p + d, i, m) <==> Spelled(p, i, m)
  {
    hide Spell;
    assert forall j | 0 <= j < |p| :: (p + d)[j] == p[j];
  }

  lemma LastIsLetter(m: Marker)
    ensures IsWord(Spell(m)[|Spell(m)| - 1] as int)
  {
  }
}
