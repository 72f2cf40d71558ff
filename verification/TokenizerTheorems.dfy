/** What the tokenizer guarantees: nothing is lost, the remainder is bounded, and the
    result does not depend on how the input was cut, except at one kind of cut. */
module TokenizerTheorems {
  import opened Integers
  import opened Utf16
  import opened EscapeSequences

  // ---------------------------------------------------------------------------
  // Lossless and bounded

  predicate Irreducible(s: Text) {
    Extract(s) == Extraction([], s)
  }

  /** Nothing of `s` is lost in `r`, and what is left over is short. */
  ghost predicate Covers(r: Extraction, s: Text) {
    && Concat(r.sequences) + r.remainder == s
    && (forall q | q in r.sequences :: q != [])
    && |r.remainder| <= MAX_INCOMPLETE_ESC
  }

  lemma {:induction false} ExtractLossless(s: Text)
    ensures Covers(Extract(s), s)
    ensures Irreducible(Extract(s).remainder)
    decreases |s|
  {
    if s != [] && Front(s).Emit? {
      var n := Front(s).len;
      ExtractLossless(s[n..]);
      CoversOneMore(s, n, Extract(s[n..]));
    }
  }

  lemma CoversOneMore(s: Text, n: nat, r: Extraction)
    requires 0 < n <= |s| && Covers(r, s[n..])
    ensures Covers(Prepend([s[..n]], r), s)
  {
    assert ([s[..n]] + r.sequences)[1..] == r.sequences;
    assert s == s[..n] + s[n..];
  }

  /** What an emitted sequence can look like. */
  ghost predicate IncompleteBelow(q: Text, n: nat)
    requires n <= |q| + 1
  {
    forall k | 1 <= k < n :: IsCompleteSequence(q[..k]) == Incomplete
  }

  ghost predicate WellShaped(q: Text) {
    q != [] &&
    if q[0] == ESC then
      || q == [ESC]
      || (IsCompleteSequence(q) == Complete && IncompleteBelow(q, |q|) && |q| <= MAX_INCOMPLETE_ESC)
      || (|q| == MAX_INCOMPLETE_ESC && IncompleteBelow(q, |q| + 1))
    else
      || |q| == 1
      || (|q| == 2 && IsHighSurrogate(q[0]) && IsLowSurrogate(q[1]))
  }

  lemma {:induction false} ScanEndLeast(s: Text, k: nat, limit: nat)
    requires limit <= |s| && k <= limit + 1
    ensures var e := ScanEnd(s, k, limit);
      && (forall j | k <= j < e :: IsCompleteSequence(s[..j]) == Incomplete)
      && (e <= limit ==> IsCompleteSequence(s[..e]) != Incomplete)
    decreases limit + 1 - k
  {
    if k <= limit {
      ScanEndLeast(s, k + 1, limit);
    }
  }

  lemma FrontShape(s: Text)
    requires s != [] && Front(s).Emit?
    ensures WellShaped(s[..Front(s).len])
  {
    hide IsCompleteSequence;
    var n := Front(s).len;
    var q := s[..n];
    if s[0] == ESC {
      var limit := Min(|s|, MAX_INCOMPLETE_ESC);
      ScanEndLeast(s, 1, limit);
      assert forall k | 1 <= k < n :: q[..k] == s[..k];
      if n == ScanEnd(s, 1, limit) {
        assert IsCompleteSequence(q) != Incomplete;
      } else if q != [ESC] {
        assert n == MAX_INCOMPLETE_ESC && q[..n] == s[..n];
      }
    }
  }

  lemma {:induction false} ExtractShapes(s: Text)
    ensures forall q | q in Extract(s).sequences :: WellShaped(q)
    decreases |s|
  {
    if s != [] && Front(s).Emit? {
      FrontShape(s);
      ExtractShapes(s[Front(s).len..]);
    }
  }

  /** No plain sequence is the first half of a surrogate pair whose second half follows it. */
  ghost predicate PairsWhole(r: Extraction) {
    forall j | 0 <= j < |r.sequences| && |r.sequences[j]| == 1 && 0xd800 <= r.sequences[j][0] <= 0xdbff ::
      var rest := Concat(r.sequences[j + 1..]) + r.remainder;
      rest != [] && !(0xdc00 <= rest[0] <= 0xdfff)
  }

  lemma PairsOneMore(q: Text, r: Extraction)
    requires PairsWhole(r)
    requires |q| == 1 && 0xd800 <= q[0] <= 0xdbff ==>
      var rest := Concat(r.sequences) + r.remainder; rest != [] && !(0xdc00 <= rest[0] <= 0xdfff)
    ensures PairsWhole(Prepend([q], r))
  {
    hide Concat;
    var sequences := [q] + r.sequences;
    forall j | 0 <= j < |sequences| && |sequences[j]| == 1 && 0xd800 <= sequences[j][0] <= 0xdbff
      ensures var rest := Concat(sequences[j + 1..]) + r.remainder; rest != [] && !(0xdc00 <= rest[0] <= 0xdfff)
    {
      if j == 0 {
        assert sequences[1..] == r.sequences;
      } else {
        assert sequences[j] == r.sequences[j - 1] && sequences[j + 1..] == r.sequences[j..];
      }
    }
  }

  /** Surrogate pairs stay whole, and a first half at the very end waits for the second. */
  lemma {:induction false} PairsStayWhole(s: Text)
    ensures PairsWhole(Extract(s))
    decreases |s|
  {
    if s != [] && Front(s).Emit? {
      var n := Front(s).len;
      assert n == 1 && 0xd800 <= s[0] <= 0xdbff ==> |s| > 1 && !(0xdc00 <= s[1] <= 0xdfff);
      hide Front, Extract, PairsWhole;
      PairsStayWhole(s[n..]);
      ExtractLossless(s[n..]);
      ExtractUnfold(s, n);
      PairsOneMore(s[..n], Extract(s[n..]));
    }
  }

  /** But an escape in front of a pair takes its first half with it, as a meta key. */
  lemma EscapeSplitsPair(high: CodeUnit, low: CodeUnit)
    requires 0xd800 <= high <= 0xdbff && 0xdc00 <= low <= 0xdfff
    ensures Extract([ESC, high, low]) == Extraction([[ESC, high], [low]], [])
  {
    var s: Text := [ESC, high, low];
    assert s[..1] == [ESC] && s[..2] == [ESC, high] && s[2..] == [low];
    OneOrTwo(s[..1]);
    OneOrTwo(s[..2]);
    TwoIsNotNone(s[..2]);
    assert s[..2][..2] == s[..2];
    hide IsCompleteSequence;
    assert ScanEnd(s, 1, 3) == ScanEnd(s, 2, 3) == 2;
    assert Front(s) == Emit(2);
    ExtractUnfold(s, 2);
    assert [low][..1] == [low] && [low][1..] == [] && Front([low]) == Emit(1);
    ExtractUnfold([low], 1);
    hide Extract;
    ExtractHeld([]);
    assert [[low]] + [] == [[low]];
  }

  // ---------------------------------------------------------------------------
  // Chunk invariance

  /** The tokenizer's answer when `b` arrives after `a` was tokenized. */
  function ExtractInTwo(a: Text, b: Text): Extraction {
    Prepend(Extract(a).sequences, Extract(Extract(a).remainder + b))
  }

  predicate EndsOnEscEsc(r: Extraction) {
    r.remainder == [] && r.sequences != [] && r.sequences[|r.sequences| - 1] == [ESC, ESC]
  }

  /** The one kind of cut that matters: right after an ESC ESC that looked like a
      complete meta key, before a character that opens a longer sequence. */
  predicate CutsEscEsc(a: Text, b: Text) {
    EndsOnEscEsc(Extract(a)) && Opens(b)
  }

  lemma {:induction false} ScanLonger(a: Text, b: Text, k: nat, la: nat, lb: nat)
    requires la <= |a| && la <= lb <= |a + b| && k <= la + 1
    ensures ScanEnd(a, k, la) <= la ==> ScanEnd(a + b, k, lb) == ScanEnd(a, k, la)
    ensures ScanEnd(a, k, la) > la && la == lb ==> ScanEnd(a + b, k, lb) > lb
    decreases la + 1 - k
  {
    if k <= la {
      assert (a + b)[..k] == a[..k];
      ScanLonger(a, b, k + 1, la, lb);
    }
  }

  /** A token at the front of `a` is also the token at the front of `a + b`. */
  lemma FrontStable(a: Text, b: Text)
    requires a != [] && Front(a).Emit?
    requires !(a == [ESC, ESC] && b != [] && IsIntroducer(b[0]))
    ensures Front(a + b) == Front(a)
  {
    if a[0] == ESC {
      var la := Min(|a|, MAX_INCOMPLETE_ESC);
      var lb := Min(|a + b|, MAX_INCOMPLETE_ESC);
      ScanLonger(a, b, 1, la, lb);
      var e := ScanEnd(a, 1, la);
      if e <= la {
        assert (a + b)[..e] == a[..e];
        assert a[..e] == [ESC, ESC] && e == |a| ==> a == [ESC, ESC];
        assert e < |a| ==> (a + b)[e] == a[e];
        assert e == |a| && b != [] ==> (a + b)[e] == b[0];
      }
    }
  }

  lemma FrontEscEsc(b: Text)
    ensures Front([ESC, ESC]) == Emit(2)
    ensures b != [] && IsIntroducer(b[0]) ==> Front([ESC, ESC] + b) == Emit(1)
  {
    var s := [ESC, ESC] + b;
    assert [ESC, ESC][..1] == [ESC] && [ESC, ESC][..2] == [ESC, ESC];
    assert IsCompleteSequence([ESC]) == Incomplete;
    assert IsCompleteSequence([ESC, ESC]) == Complete;
    assert ScanEnd([ESC, ESC], 1, 2) == ScanEnd([ESC, ESC], 2, 2) == 2;
    assert s[..1] == [ESC] && s[..2] == [ESC, ESC];
    var limit := Min(|s|, MAX_INCOMPLETE_ESC);
    assert ScanEnd(s, 1, limit) == ScanEnd(s, 2, limit) == 2;
  }

  lemma ExtractEscEsc()
    ensures Extract([ESC, ESC]) == Extraction([[ESC, ESC]], [])
  {
    var a: Text := [ESC, ESC];
    FrontEscEsc([]);
    assert a[..2] == a && a[2..] == [];
  }

  /** `first` then `second` is what a cut yields, `whole` what the uncut input yields, and
      `restarted` what follows once ESC ESC is split; `opens` says a longer sequence opens. */
  ghost predicate CutBehaves(whole: Extraction, first: Extraction, second: Extraction, restarted: Extraction, opens: bool) {
    var broken := EndsOnEscEsc(first) && opens;
    && (whole == Prepend(first.sequences, second) <==> !broken)
    && (broken ==> whole == Prepend(first.sequences[..|first.sequences| - 1] + [[ESC]], restarted))
  }

  predicate Opens(b: Text) {
    b != [] && IsIntroducer(b[0])
  }

  /** Cutting the input never changes the result, except at a cut through ESC ESC, where
      the lone ESC key press is not separated from the sequence that follows it. */
  lemma ChunkInvariance(a: Text, b: Text)
    ensures Extract(a + b) == ExtractInTwo(a, b) <==> !CutsEscEsc(a, b)
    ensures CutsEscEsc(a, b) ==>
      var before := Extract(a).sequences[..|Extract(a).sequences| - 1];
      Extract(a + b) == Prepend(before + [[ESC]], Extract([ESC] + b))
  {
    AnyCutBehaves(a, b);
    hide Extract;
  }

  lemma {:induction false} AnyCutBehaves(a: Text, b: Text)
    ensures CutBehaves(Extract(a + b), Extract(a), Extract(Extract(a).remainder + b), Extract([ESC] + b), Opens(b))
    decreases |a|
  {
    hide Front;
    if a == [] {
      assert a + b == b;
    } else if Front(a).Hold? {
      ExtractHeld(a);
    } else if a == [ESC, ESC] && Opens(b) {
      CutAtEscEsc(b);
    } else {
      var n := Front(a).len;
      FrontStable(a, b);
      assert (a + b)[..n] == a[..n];
      assert (a + b)[n..] == a[n..] + b;
      AnyCutBehaves(a[n..], b);
      ExtractUnfold(a, n);
      ExtractUnfold(a + b, n);
      hide Extract, CutBehaves;
      var rest := Extract(a[n..]);
      if rest == Extraction([], []) {
        NothingLeft(a[n..]);
        assert a == a[..n];
      }
      CutBehavesUnderPrepend(a[..n], Extract(a[n..] + b), rest, Extract(rest.remainder + b), Extract([ESC] + b), Opens(b));
    }
  }

  lemma CutBehavesUnderPrepend(q: Text, whole: Extraction, first: Extraction, second: Extraction, restarted: Extraction, opens: bool)
    requires CutBehaves(whole, first, second, restarted, opens)
    requires !(first == Extraction([], []) && q == [ESC, ESC] && opens)
    ensures CutBehaves(Prepend([q], whole), Prepend([q], first), second, restarted, opens)
  {
    PrependTwice([q], first.sequences, second);
    PrependCompare(q, whole, Prepend(first.sequences, second));
    EndsAfterPrepend(q, first);
    if EndsOnEscEsc(first) {
      var before := first.sequences[..|first.sequences| - 1];
      PrependTwice([q], before + [[ESC]], restarted);
      assert [q] + (before + [[ESC]]) == ([q] + before) + [[ESC]];
    }
  }

  lemma CutAtEscEsc(b: Text)
    requires Opens(b)
    ensures var a: Text := [ESC, ESC];
      CutBehaves(Extract(a + b), Extract(a), Extract(Extract(a).remainder + b), Extract([ESC] + b), true)
  {
    var a: Text := [ESC, ESC];
    ExtractEscEsc();
    FrontEscEsc(b);
    ExtractUnfold(a + b, 1);
    assert (a + b)[..1] == [ESC];
    assert (a + b)[1..] == [ESC] + b;
    hide Front, Extract;
    SplitEscEsc(Extract(a + b), Extract(Extract(a).remainder + b), Extract([ESC] + b));
  }

  lemma SplitEscEsc(whole: Extraction, second: Extraction, restarted: Extraction)
    requires whole == Prepend([[ESC]], restarted)
    ensures CutBehaves(whole, Extraction([[ESC, ESC]], []), second, restarted, true)
  {
    assert whole.sequences[0] == [ESC];
    assert Prepend([[ESC, ESC]], second).sequences[0] == [ESC, ESC];
  }

  lemma PrependCompare(q: Text, x: Extraction, y: Extraction)
    ensures Prepend([q], x) == Prepend([q], y) <==> x == y
  {
    assert ([q] + x.sequences)[1..] == x.sequences;
    assert ([q] + y.sequences)[1..] == y.sequences;
  }

  lemma EndsAfterPrepend(q: Text, r: Extraction)
    ensures EndsOnEscEsc(Prepend([q], r)) <==>
      if r.sequences == [] then r.remainder == [] && q == [ESC, ESC] else EndsOnEscEsc(r)
    ensures r.sequences != [] ==>
      var s := Prepend([q], r).sequences;
      s[..|s| - 1] == [q] + r.sequences[..|r.sequences| - 1]
  {
  }

  lemma NothingLeft(s: Text)
    requires Extract(s) == Extraction([], [])
    ensures s == []
  {
    ExtractLossless(s);
  }

  /** Any number of cuts: tokenizing chunk by chunk, carrying the remainder. */
  function ExtractChunks(carried: Text, chunks: seq<Text>): Extraction
    decreases |chunks|
  {
    if chunks == [] then Extraction([], carried)
    else
      var r := Extract(carried + chunks[0]);
      Prepend(r.sequences, ExtractChunks(r.remainder, chunks[1..]))
  }

  /** No cut of the run falls through an ESC ESC. */
  ghost predicate HarmlessCuts(carried: Text, chunks: seq<Text>)
    decreases |chunks|
  {
    chunks == [] ||
    (&& !CutsEscEsc(carried + chunks[0], Concat(chunks[1..]))
     && HarmlessCuts(Extract(carried + chunks[0]).remainder, chunks[1..]))
  }

  /** Carrying the remainder from chunk to chunk changes nothing, exactly when every cut is
      harmless: a harmful one is never made up for by a later one. */
  lemma {:induction false} ChunksInvariance(carried: Text, chunks: seq<Text>)
    requires Irreducible(carried)
    ensures ExtractChunks(carried, chunks) == Extract(carried + Concat(chunks)) <==> HarmlessCuts(carried, chunks)
    decreases |chunks|
  {
    hide Front, Extract, CutsEscEsc, ExtractInTwo;
    if chunks == [] {
      assert carried + Concat(chunks) == carried;
    } else {
      var joined, rest := carried + chunks[0], chunks[1..];
      var r := Extract(joined);
      ExtractLossless(joined);
      ChunksInvariance(r.remainder, rest);
      assert carried + Concat(chunks) == joined + Concat(rest);
      if CutsEscEsc(joined, Concat(rest)) {
        CutStaysBroken(joined, Concat(rest), ExtractChunks(r.remainder, rest));
      } else {
        CutIsHarmless(joined, Concat(rest));
        PrependSame(r.sequences, ExtractChunks(r.remainder, rest), Extract(r.remainder + Concat(rest)));
      }
    }
  }

  lemma CutIsHarmless(a: Text, b: Text)
    requires !CutsEscEsc(a, b)
    ensures Extract(a + b) == Prepend(Extract(a).sequences, Extract(Extract(a).remainder + b))
  {
    ChunkInvariance(a, b);
    hide Extract;
  }

  /** Whatever follows it, an ESC ESC that was emitted stays where the whole input has an ESC. */
  lemma CutStaysBroken(a: Text, b: Text, later: Extraction)
    requires CutsEscEsc(a, b)
    ensures Prepend(Extract(a).sequences, later) != Extract(a + b)
  {
    ChunkInvariance(a, b);
    hide Extract;
    var first := Extract(a).sequences;
    var n := |first| - 1;
    assert Extract(a + b).sequences[n] == [ESC];
    assert Prepend(first, later).sequences[n] == [ESC, ESC];
  }

  lemma PrependSame(sequences: seq<Text>, x: Extraction, y: Extraction)
    ensures Prepend(sequences, x) == Prepend(sequences, y) <==> x == y
  {
    assert (sequences + x.sequences)[|sequences|..] == x.sequences;
    assert (sequences + y.sequences)[|sequences|..] == y.sequences;
  }

  // ---------------------------------------------------------------------------
  // The second test for SGR mouse reports never changes the answer of the first

  lemma {:induction false} DigitsEndAt(s: Text, i: nat, j: nat)
    requires i <= j < |s| && !IsDigit(s[j])
    requires forall k | i <= k < j :: IsDigit(s[k])
    ensures DigitsEnd(s, i) == j
    decreases j - i
  {
    if i < j {
      DigitsEndAt(s, i + 1, j);
    }
  }

  lemma RunThen(a: Text, p: Text, c: CodeUnit, b: Text)
    requires AllDigits(p) && !IsDigit(c)
    ensures var s := a + p + [c] + b;
      DigitsEnd(s, |a|) == |a| + |p| && s[|a| + |p|] == c
  {
    var s := a + p + [c] + b;
    hide DigitsEnd, IsDigit;
    forall k | |a| <= k < |a| + |p|
      ensures IsDigit(s[k])
    {
      assert s[k] == p[k - |a|];
    }
    assert s[|a| + |p|] == c;
    DigitsEndAt(s, |a|, |a| + |p|);
  }

  lemma SplitFirst(s: Text, sep: CodeUnit)
    ensures var parts := Split(s, sep);
      if |parts| == 1 then parts == [s]
      else exists rest :: s == parts[0] + [sep] + rest && parts[1..] == Split(rest, sep)
  {
    var i := IndexOf(s, [sep], 0);
    if i != -1 {
      assert s[i..i + 1] == [sep];
      var rest := s[i + 1..];
      assert s == s[..i] + [sep] + rest;
    }
  }

  /** Three digit runs between semicolons, then M or m: the regular expression matches too. */
  lemma SgrFallbackAddsNothing(payload: Text)
    requires 2 <= |payload| && payload[0] == LESS_THAN
    requires payload[|payload| - 1] == UPPER_M || payload[|payload| - 1] == LOWER_M
    requires var parts := Split(payload[1..|payload| - 1], SEMICOLON);
      |parts| == 3 && forall p | p in parts :: AllDigits(p)
    ensures MatchesSgrMouse(payload)
  {
    var inner := payload[1..|payload| - 1];
    var final := payload[|payload| - 1];
    var parts := Split(inner, SEMICOLON);
    hide Split, AllDigits, MatchesSgrMouse;
    SplitInThree(inner, SEMICOLON);
    ThreeRuns(parts[0], parts[1], parts[2], final);
    Enclosed(payload, inner, LESS_THAN, final);
  }

  lemma Enclosed(s: Text, inner: Text, first: CodeUnit, last: CodeUnit)
    requires 2 <= |s| && s[0] == first && s[|s| - 1] == last && inner == s[1..|s| - 1]
    ensures s == [first] + inner + [last]
  {
  }

  lemma SplitInThree(s: Text, sep: CodeUnit)
    requires |Split(s, sep)| == 3
    ensures var parts := Split(s, sep);
      s == parts[0] + [sep] + parts[1] + [sep] + parts[2]
  {
    var parts := Split(s, sep);
    hide Split;
    SplitFirst(s, sep);
    var rest :| s == parts[0] + [sep] + rest && parts[1..] == Split(rest, sep);
    SplitFirst(rest, sep);
    var last :| rest == parts[1] + [sep] + last && parts[1..][1..] == Split(last, sep);
    SplitFirst(last, sep);
    assert parts[0] + [sep] + (parts[1] + [sep] + last) == parts[0] + [sep] + parts[1] + [sep] + last;
  }

  lemma ThreeRuns(p0: Text, p1: Text, p2: Text, final: CodeUnit)
    requires final == UPPER_M || final == LOWER_M
    requires AllDigits(p0) && AllDigits(p1) && AllDigits(p2)
    ensures MatchesSgrMouse([LESS_THAN] + (p0 + [SEMICOLON] + p1 + [SEMICOLON] + p2) + [final])
  {
    var payload := [LESS_THAN] + (p0 + [SEMICOLON] + p1 + [SEMICOLON] + p2) + [final];
    var a0: Text := [LESS_THAN];
    var sep: Text := [SEMICOLON];
    var a1 := a0 + p0 + sep;
    var a2 := a1 + p1 + sep;
    Regroup(a0, p0, sep, p1, p2, [final]);
    assert p0 != [] && p1 != [] && p2 != [];
    RunThen(a0, p0, SEMICOLON, p1 + sep + p2 + [final]);
    RunThen(a1, p1, SEMICOLON, p2 + [final]);
    RunThen(a2, p2, final, []);
    hide AllDigits;
  }

  /** The other way round: a payload that matches is three digit runs between semicolons, then M or m. */
  lemma SgrIsThreeRuns(payload: Text) returns (p0: Text, p1: Text, p2: Text, final: CodeUnit)
    requires MatchesSgrMouse(payload)
    ensures AllDigits(p0) && AllDigits(p1) && AllDigits(p2) && (final == UPPER_M || final == LOWER_M)
    ensures payload == [LESS_THAN] + (p0 + [SEMICOLON] + p1 + [SEMICOLON] + p2) + [final]
  {
    var e1 := DigitsEnd(payload, 1);
    var e2 := DigitsEnd(payload, e1 + 1);
    var e3 := DigitsEnd(payload, e2 + 1);
    p0, p1, p2, final := payload[1..e1], payload[e1 + 1..e2], payload[e2 + 1..e3], payload[e3];
    hide DigitsEnd, MatchesSgrMouse;
    InSixParts(payload, e1, e2, e3);
  }

  lemma InSixParts(s: Text, e1: nat, e2: nat, e3: nat)
    requires 1 <= e1 < e2 < e3 && e3 + 1 == |s|
    ensures s == [s[0]] + (s[1..e1] + [s[e1]] + s[e1 + 1..e2] + [s[e2]] + s[e2 + 1..e3]) + [s[e3]]
  {
    assert s[1..e2] == s[1..e1] + [s[e1]] + s[e1 + 1..e2];
    assert s[1..e3] == s[1..e2] + [s[e2]] + s[e2 + 1..e3];
  }

  lemma Regroup(a: Text, p: Text, sep: Text, q: Text, r: Text, end: Text)
    ensures var s := a + (p + sep + q + sep + r) + end;
      && s == a + p + sep + (q + sep + r + end)
      && s == (a + p + sep) + q + sep + (r + end)
      && s == (a + p + sep + q + sep) + r + end + []
  {
  }

  // ---------------------------------------------------------------------------
  // The forms of escape sequences

  predicate IsFinal(c: CodeUnit) {
    0x40 <= c <= 0x7e
  }

  /** A control string: it ends with its terminator, which does not occur before. */
  predicate IsControlString(q: Text, bel: bool) {
    && |q| >= 3
    && EndsString(q, |q| - 1, bel)
    && forall i | 2 <= i < |q| - 1 :: !EndsString(q, i, bel)
  }

  predicate EndsString(q: Text, i: int, bel: bool) {
    2 <= i < |q| && ((bel && q[i] == BEL) || (i >= 3 && q[i - 1] == ESC && q[i] == BACKSLASH))
  }

  /** The forms of complete sequences: mouse reports, control sequences with exactly one final
      character, control strings, three-character SS3 keys, and meta keys. */
  predicate HasForm(q: Text) {
    && |q| >= 2 && q[0] == ESC
    && if q[1] == LBRACKET then
         |q| >= 3 &&
         if q[2] == UPPER_M then |q| == 6
         else if q[2] == LESS_THAN then MatchesSgrMouse(q[2..])
         else IsFinal(q[|q| - 1]) && forall i | 2 <= i < |q| - 1 :: !IsFinal(q[i])
       else if q[1] == RBRACKET then IsControlString(q, true)
       else if q[1] == UPPER_P || q[1] == UNDERSCORE then IsControlString(q, false)
       else if q[1] == UPPER_O then |q| == 3
       else |q| == 2
  }

  lemma SgrCharacters(payload: Text)
    requires MatchesSgrMouse(payload)
    ensures |payload| >= 2 && IsFinal(payload[|payload| - 1])
    ensures forall i | 0 <= i < |payload| - 1 :: !IsFinal(payload[i])
  {
  }

  /** When a control sequence that is no mouse report is complete. */
  lemma CsiAnswer(q: Text)
    requires |q| >= 3 && q[0] == ESC && q[1] == LBRACKET && q[2] != UPPER_M
    ensures q[2] != LESS_THAN ==> (IsCompleteSequence(q) == Complete <==> IsFinal(q[|q| - 1]))
    ensures q[2] == LESS_THAN ==> (IsCompleteSequence(q) == Complete <==> MatchesSgrMouse(q[2..]))
    ensures IsCompleteSequence(q) != NotEscape
  {
    hide MatchesSgrMouse, Split, AllDigits;
    var payload := q[2..];
    assert q[1..][..1] == [LBRACKET];
    assert q[..2] == [ESC, LBRACKET];
    var last := payload[|payload| - 1];
    if q[2] == LESS_THAN {
      assert payload[..1] == [LESS_THAN];
      if IsFinal(last) {
        SgrIsAccepted(payload);
      } else if MatchesSgrMouse(payload) {
        SgrCharacters(payload);
      }
    }
  }

  lemma SgrIsAccepted(payload: Text)
    requires payload != [] && payload[0] == LESS_THAN
    ensures (payload[|payload| - 1] == UPPER_M || payload[|payload| - 1] == LOWER_M) &&
      (var parts := Split(payload[1..Max(1, |payload| - 1)], SEMICOLON); |parts| == 3 && forall p | p in parts :: AllDigits(p))
      ==> MatchesSgrMouse(payload)
  {
    if |payload| >= 2 && (payload[|payload| - 1] == UPPER_M || payload[|payload| - 1] == LOWER_M) {
      var parts := Split(payload[1..|payload| - 1], SEMICOLON);
      if |parts| == 3 && forall p | p in parts :: AllDigits(p) {
        SgrFallbackAddsNothing(payload);
      }
    }
  }

  ghost predicate Minimal(q: Text) {
    IsCompleteSequence(q) == Complete && IncompleteBelow(q, |q|)
  }

  lemma OneOrTwo(q: Text)
    requires q != [] && q[0] == ESC
    ensures |q| == 1 ==> IsCompleteSequence(q) == Incomplete
    ensures |q| == 2 ==> (IsCompleteSequence(q) == Complete <==> !IsIntroducer(q[1]))
  {
    if |q| == 2 {
      assert q[1..] == [q[1]];
      assert q == [ESC, q[1]];
    }
  }

  lemma StringAnswer(q: Text)
    requires |q| >= 3 && q[0] == ESC
    ensures q[1] == RBRACKET ==> (IsCompleteSequence(q) == Complete <==> EndsString(q, |q| - 1, true))
    ensures q[1] == UPPER_P || q[1] == UNDERSCORE ==> (IsCompleteSequence(q) == Complete <==> EndsString(q, |q| - 1, false))
  {
    assert q[1..][..1] == [q[1]];
    assert q[..2] == [ESC, q[1]];
    var n := |q|;
    assert q[n - 1..] == [q[n - 1]];
    assert q[n - 2..] == [q[n - 2], q[n - 1]];
  }

  lemma OtherAnswer(q: Text)
    requires |q| >= 2 && q[0] == ESC
    ensures !IsIntroducer(q[1]) || (q[1] == UPPER_O && |q| >= 3) ==> IsCompleteSequence(q) == Complete
    ensures q[1] == LBRACKET && |q| >= 3 && q[2] == UPPER_M ==> (IsCompleteSequence(q) == Complete <==> |q| >= 6)
  {
    assert q[1..][..1] == [q[1]];
    if |q| >= 3 {
      assert q[1..][..2] == [q[1], q[2]];
    }
  }

  /** The recognizer accepts a sequence first at its end if and only if it has one of the forms:
      no complete sequence stops early, and none runs on. */
  lemma MinimalIsForm(q: Text)
    requires q != [] && q[0] == ESC
    ensures Minimal(q) <==> HasForm(q)
  {
    hide IsCompleteSequence, MatchesSgrMouse;
    OneOrTwo(q);
    if |q| >= 2 {
      OneOrTwo(q[..1]);
      OneOrTwo(q[..2]);
      if !IsIntroducer(q[1]) {
        EarlyStop(q, 2);
      } else if |q| >= 3 {
        if q[1] == LBRACKET {
          CsiIsForm(q);
        } else if q[1] == UPPER_O {
          Ss3IsForm(q);
        } else {
          StringIsForm(q, q[1] == RBRACKET);
        }
      }
    }
  }

  /** What the tokenizer emits: a key of the forms above, or one of the few exceptions to them. */
  lemma EmittedForms(s: Text)
    ensures forall q | q in Extract(s).sequences && q != [] && q[0] == ESC :: q == [ESC] || HasForm(q) || |q| == MAX_INCOMPLETE_ESC
  {
    ExtractLossless(s);
    ExtractShapes(s);
    hide Extract, IsCompleteSequence, HasForm;
    forall q | q in Extract(s).sequences && q != [] && q[0] == ESC
      ensures q == [ESC] || HasForm(q) || |q| == MAX_INCOMPLETE_ESC
    {
      assert WellShaped(q);
      MinimalIsForm(q);
    }
  }

  /** A sequence with a complete proper prefix is not minimal. */
  lemma EarlyStop(q: Text, k: nat)
    requires 1 <= k <= |q| && IsCompleteSequence(q[..k]) == Complete
    ensures Minimal(q) <==> k == |q| && IncompleteBelow(q, k)
  {
    assert q[..|q|] == q;
  }

  lemma BelowFromThree(q: Text, n: nat)
    requires |q| >= 3 && q[0] == ESC && IsIntroducer(q[1]) && n <= |q|
    ensures IncompleteBelow(q, n) <==> forall k | 3 <= k < n :: IsCompleteSequence(q[..k]) == Incomplete
  {
    hide IsCompleteSequence;
    OneOrTwo(q[..1]);
    OneOrTwo(q[..2]);
    TwoIsNotNone(q);
  }

  lemma TwoIsNotNone(q: Text)
    requires |q| >= 2 && q[0] == ESC
    ensures forall k | 1 <= k <= |q| :: IsCompleteSequence(q[..k]) != NotEscape
  {
  }

  lemma Ss3IsForm(q: Text)
    requires |q| >= 3 && q[0] == ESC && q[1] == UPPER_O
    ensures Minimal(q) <==> HasForm(q)
  {
    OtherAnswer(q[..3]);
    hide IsCompleteSequence;
    EarlyStop(q, 3);
    BelowFromThree(q, 3);
  }

  lemma StringIsForm(q: Text, bel: bool)
    requires |q| >= 3 && q[0] == ESC
    requires if bel then q[1] == RBRACKET else q[1] == UPPER_P || q[1] == UNDERSCORE
    ensures Minimal(q) <==> HasForm(q)
  {
    StringAnswer(q);
    BelowFromThree(q, |q|);
    TwoIsNotNone(q);
    assert q[..|q|] == q;
    forall k | 3 <= k < |q|
      ensures IsCompleteSequence(q[..k]) == Complete <==> EndsString(q, k - 1, bel)
    {
      StringAnswer(q[..k]);
    }
    hide IsCompleteSequence, IncompleteBelow;
    assert forall i | 2 <= i < |q| - 1 :: q[..i + 1][i] == q[i];
  }

  lemma CsiIsForm(q: Text)
    requires |q| >= 3 && q[0] == ESC && q[1] == LBRACKET
    ensures Minimal(q) <==> HasForm(q)
  {
    BelowFromThree(q, |q|);
    TwoIsNotNone(q);
    assert q[..|q|] == q;
    if q[2] == UPPER_M {
      forall k | 3 <= k <= |q|
        ensures IsCompleteSequence(q[..k]) == Complete <==> k >= 6
      {
        OtherAnswer(q[..k]);
      }
      hide IsCompleteSequence;
      if |q| >= 6 {
        EarlyStop(q, 6);
      }
    } else {
      forall k | 3 <= k <= |q|
        ensures q[2] != LESS_THAN ==> (IsCompleteSequence(q[..k]) == Complete <==> IsFinal(q[k - 1]))
        ensures q[2] == LESS_THAN ==> (IsCompleteSequence(q[..k]) == Complete <==> MatchesSgrMouse(q[..k][2..]))
      {
        CsiAnswer(q[..k]);
      }
      hide IsCompleteSequence, MatchesSgrMouse;
      assert q[2] != LESS_THAN ==> forall i | 2 <= i < |q| - 1 :: q[..i + 1][i] == q[i] && (IsCompleteSequence(q[..i + 1]) == Complete <==> IsFinal(q[i]));
      if q[2] == LESS_THAN && MatchesSgrMouse(q[2..]) {
        SgrCharacters(q[2..]);
        forall k | 3 <= k < |q|
          ensures !MatchesSgrMouse(q[..k][2..])
        {
          SgrEndsFinal(q[..k][2..]);
          assert q[..k][2..][k - 3] == q[2..][k - 3];
        }
      }
    }
  }

  lemma SgrEndsFinal(payload: Text)
    ensures MatchesSgrMouse(payload) ==> payload != [] && IsFinal(payload[|payload| - 1])
  {
  }
}
