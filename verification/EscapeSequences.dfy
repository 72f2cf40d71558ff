/** The escape-sequence recognizer and tokenizer of the terminal input path. */
module EscapeSequences {
  import opened Integers
  import opened Utf16

  const BEL: CodeUnit := 0x07
  const LBRACKET: CodeUnit := 0x5b
  const RBRACKET: CodeUnit := 0x5d
  const UNDERSCORE: CodeUnit := 0x5f
  const BACKSLASH: CodeUnit := 0x5c
  const UPPER_M: CodeUnit := 0x4d
  const LOWER_M: CodeUnit := 0x6d
  const UPPER_O: CodeUnit := 0x4f
  const UPPER_P: CodeUnit := 0x50
  const LOWER_U: CodeUnit := 0x75
  const LESS_THAN: CodeUnit := 0x3c
  const SEMICOLON: CodeUnit := 0x3b
  const COLON: CodeUnit := 0x3a

  const STRING_TERMINATOR: Text := [ESC, BACKSLASH]
  const MAX_INCOMPLETE_ESC: nat := 4096

  datatype Status = Complete | Incomplete | NotEscape

  predicate IsDigit(c: CodeUnit) {
    0x30 <= c <= 0x39
  }

  predicate AllDigits(s: Text) {
    s != [] && forall i | 0 <= i < |s| :: IsDigit(s[i])
  }

  /** End of the run of digits that starts at `from`. */
  function DigitsEnd(s: Text, from: nat): (e: nat)
    requires from <= |s|
    ensures from <= e <= |s|
    ensures forall i | from <= i < e :: IsDigit(s[i])
    ensures e < |s| ==> !IsDigit(s[e])
    decreases |s| - from
  {
    if from < |s| && IsDigit(s[from]) then DigitsEnd(s, from + 1) else from
  }

  /** The regular expression for an SGR mouse payload: less-than, three digit runs
      separated by semicolons, then M or m at the very end. */
  predicate MatchesSgrMouse(payload: Text) {
    payload != [] && payload[0] == LESS_THAN &&
    var e1 := DigitsEnd(payload, 1);
    1 < e1 < |payload| && payload[e1] == SEMICOLON &&
    var e2 := DigitsEnd(payload, e1 + 1);
    e1 + 1 < e2 < |payload| && payload[e2] == SEMICOLON &&
    var e3 := DigitsEnd(payload, e2 + 1);
    e2 + 1 < e3 && e3 + 1 == |payload| && (payload[e3] == UPPER_M || payload[e3] == LOWER_M)
  }

  function Split(s: Text, sep: CodeUnit): (parts: seq<Text>)
    ensures parts != []
  {
    var i := IndexOf(s, [sep], 0);
    if i == -1 then [s] else [s[..i]] + Split(s[i + 1..], sep)
  }

  function IsCompleteCsi(data: Text): (r: Status)
    ensures r != NotEscape
  {
    if !StartsWith(data, [ESC, LBRACKET]) then Complete
    else if |data| < 3 then Incomplete
    else
      var payload := data[2..];
      var last := payload[|payload| - 1];
      if 0x40 <= last <= 0x7e then
        if StartsWith(payload, [LESS_THAN]) then
          if MatchesSgrMouse(payload) then Complete
          else if last == UPPER_M || last == LOWER_M then
            var parts := Split(payload[1..|payload| - 1], SEMICOLON);
            if |parts| == 3 && forall p | p in parts :: AllDigits(p) then Complete else Incomplete
          else Incomplete
        else Complete
      else Incomplete
  }

  function IsCompleteOsc(data: Text): (r: Status)
    ensures r != NotEscape
  {
    if !StartsWith(data, [ESC, RBRACKET]) then Complete
    else if EndsWith(data, STRING_TERMINATOR) || EndsWith(data, [BEL]) then Complete
    else Incomplete
  }

  function IsCompleteDcs(data: Text): (r: Status)
    ensures r != NotEscape
  {
    if !StartsWith(data, [ESC, UPPER_P]) then Complete
    else if EndsWith(data, STRING_TERMINATOR) then Complete
    else Incomplete
  }

  function IsCompleteApc(data: Text): (r: Status)
    ensures r != NotEscape
  {
    if !StartsWith(data, [ESC, UNDERSCORE]) then Complete
    else if EndsWith(data, STRING_TERMINATOR) then Complete
    else Incomplete
  }

  function IsCompleteSequence(data: Text): (r: Status)
    ensures r == NotEscape <==> data == [] || data[0] != ESC
  {
    if !StartsWith(data, [ESC]) then NotEscape
    else if |data| == 1 then Incomplete
    else
      var afterEsc := data[1..];
      if StartsWith(afterEsc, [LBRACKET]) then
        if StartsWith(afterEsc, [LBRACKET, UPPER_M]) then
          if |data| >= 6 then Complete else Incomplete
        else IsCompleteCsi(data)
      else if StartsWith(afterEsc, [RBRACKET]) then IsCompleteOsc(data)
      else if StartsWith(afterEsc, [UPPER_P]) then IsCompleteDcs(data)
      else if StartsWith(afterEsc, [UNDERSCORE]) then IsCompleteApc(data)
      else if StartsWith(afterEsc, [UPPER_O]) then
        if |afterEsc| >= 2 then Complete else Incomplete
      else Complete
  }

  // ---------------------------------------------------------------------------
  // The tokenizer's meaning: what one step does at the front of a text.

  datatype Token = Emit(len: nat) | Hold

  /** The shortest prefix length in k..limit that is not an incomplete sequence, or limit + 1. */
  function ScanEnd(s: Text, k: nat, limit: nat): (e: nat)
    requires limit <= |s| && k <= limit + 1
    ensures k <= e <= limit + 1
    decreases limit + 1 - k
  {
    if k > limit then k
    else if IsCompleteSequence(s[..k]) == Incomplete then ScanEnd(s, k + 1, limit)
    else k
  }

  predicate IsHighSurrogate(c: CodeUnit) {
    0xd800 <= c <= 0xdbff
  }

  predicate IsLowSurrogate(c: CodeUnit) {
    0xdc00 <= c <= 0xdfff
  }

  /** The characters that open a longer escape sequence after ESC. */
  predicate IsIntroducer(c: CodeUnit) {
    c == LBRACKET || c == RBRACKET || c == UPPER_O || c == UPPER_P || c == UNDERSCORE
  }

  function Front(s: Text): (t: Token)
    requires s != []
    ensures t.Emit? ==> 0 < t.len <= |s|
  {
    if s[0] == ESC then
      var limit := Min(|s|, MAX_INCOMPLETE_ESC);
      var e := ScanEnd(s, 1, limit);
      if e <= limit then
        if s[..e] == [ESC, ESC] && e < |s| && IsIntroducer(s[e]) then Emit(1) else Emit(e)
      else if |s| > MAX_INCOMPLETE_ESC then Emit(MAX_INCOMPLETE_ESC)
      else Hold
    else if IsHighSurrogate(s[0]) then
      if |s| == 1 then Hold
      else if IsLowSurrogate(s[1]) then Emit(2)
      else Emit(1)
    else Emit(1)
  }

  datatype Extraction = Extraction(sequences: seq<Text>, remainder: Text)

  function Prepend(sequences: seq<Text>, r: Extraction): Extraction {
    Extraction(sequences + r.sequences, r.remainder)
  }

  function Extract(s: Text): Extraction
    decreases |s|
  {
    if s == [] then Extraction([], [])
    else match Front(s)
      case Hold => Extraction([], s)
      case Emit(n) => Prepend([s[..n]], Extract(s[n..]))
  }

  // ---------------------------------------------------------------------------
  // The tokenizer loop

  /** The completion scan: grow the candidate until it is no longer incomplete. */
  method ScanCandidates(remaining: Text, scanLimit: nat) returns (seqEnd: nat)
    requires scanLimit <= |remaining|
    ensures seqEnd == ScanEnd(remaining, 1, scanLimit)
  {
    seqEnd := 1;
    while seqEnd <= scanLimit
      invariant 1 <= seqEnd <= scanLimit + 1
      invariant ScanEnd(remaining, 1, scanLimit) == ScanEnd(remaining, seqEnd, scanLimit)
    {
      var candidate := remaining[..seqEnd];
      if IsCompleteSequence(candidate) == Incomplete {
        seqEnd := seqEnd + 1;
      } else {
        return;
      }
    }
  }

  /** What the scan of the capped window decides about the front of the text. */
  function WindowToken(remaining: Text, seqEnd: nat): Token {
    if seqEnd <= Min(|remaining|, MAX_INCOMPLETE_ESC) then
      if remaining[..seqEnd] == [ESC, ESC] && seqEnd < |remaining| && IsIntroducer(remaining[seqEnd])
      then Emit(1) else Emit(seqEnd)
    else if |remaining| > MAX_INCOMPLETE_ESC then Emit(MAX_INCOMPLETE_ESC)
    else Hold
  }

  /** The scan of the capped window decides the same as the scan of the whole tail. */
  lemma WindowFront(buffer: Text, pos: nat, remaining: Text, seqEnd: nat)
    requires pos < |buffer| && buffer[pos] == ESC
    requires remaining == buffer[pos..Min(|buffer|, pos + MAX_INCOMPLETE_ESC + 1)]
    requires seqEnd == ScanEnd(remaining, 1, Min(|remaining|, MAX_INCOMPLETE_ESC))
    ensures Front(buffer[pos..]) == WindowToken(remaining, seqEnd)
    ensures |remaining| <= MAX_INCOMPLETE_ESC ==> remaining == buffer[pos..]
  {
    hide IsCompleteSequence;
    var rest := buffer[pos..];
    var limit := Min(|remaining|, MAX_INCOMPLETE_ESC);
    assert remaining == rest[..|remaining|];
    assert remaining[..limit] == rest[..limit];
    SameScan(remaining, rest, 1, limit);
    assert seqEnd <= |remaining| ==> remaining[..seqEnd] == rest[..seqEnd];
  }

  /** The scan reads nothing past its limit. */
  lemma {:induction false} SameScan(s: Text, t: Text, k: nat, limit: nat)
    requires limit <= |s| && limit <= |t| && k <= limit + 1
    requires s[..limit] == t[..limit]
    ensures ScanEnd(s, k, limit) == ScanEnd(t, k, limit)
    decreases limit + 1 - k
  {
    if k <= limit {
      assert s[..k] == s[..limit][..k] == t[..k];
      SameScan(s, t, k + 1, limit);
    }
  }

  /** The attempt at an escape sequence starting at `pos`: how much to emit, or hold. */
  method EscapeToken(buffer: Text, pos: nat) returns (t: Token)
    requires pos < |buffer| && buffer[pos] == ESC
    ensures t == Front(buffer[pos..])
  {
    var remaining := buffer[pos..Min(|buffer|, pos + MAX_INCOMPLETE_ESC + 1)];
    var scanLimit := Min(|remaining|, MAX_INCOMPLETE_ESC);
    var seqEnd := ScanCandidates(remaining, scanLimit);
    WindowFront(buffer, pos, remaining, seqEnd);
    if seqEnd <= scanLimit {
      var candidate := remaining[..seqEnd];
      if candidate == [ESC, ESC] && seqEnd < |remaining| && IsIntroducer(remaining[seqEnd]) {
        t := Emit(1);
      } else {
        t := Emit(seqEnd);
      }
    } else if |remaining| > MAX_INCOMPLETE_ESC {
      t := Emit(MAX_INCOMPLETE_ESC);
    } else {
      t := Hold;
    }
  }

  /** The plain-text run up to `runEnd`: one sequence per character, surrogate pairs kept whole. */
  method PlainRun(buffer: Text, start: nat, runEnd: nat, before: seq<Text>)
    returns (pos: nat, sequences: seq<Text>, held: bool)
    requires start < runEnd <= |buffer|
    requires forall i | start <= i < runEnd :: buffer[i] != ESC
    requires runEnd < |buffer| ==> buffer[runEnd] == ESC
    requires Extract(buffer) == Prepend(before, Extract(buffer[start..]))
    ensures start <= pos <= |buffer|
    ensures held ==> Extraction(sequences, buffer[pos..]) == Extract(buffer)
    ensures !held ==> start < pos && Extract(buffer) == Prepend(sequences, Extract(buffer[pos..]))
  {
    hide Front, Extract;
    pos := start;
    sequences := before;
    held := false;
    while pos < runEnd
      invariant start <= pos <= runEnd
      invariant Extract(buffer) == Prepend(sequences, Extract(buffer[pos..]))
    {
      PlainFront(buffer, pos);
      if IsHighSurrogate(buffer[pos]) {
        if pos + 1 < |buffer| {
          if IsLowSurrogate(buffer[pos + 1]) {
            StepExtract(buffer, pos, sequences, 2);
            sequences := sequences + [buffer[pos..pos + 2]];
            pos := pos + 2;
            continue;
          }
        } else {
          ExtractHeld(buffer[pos..]);
          held := true;
          return;
        }
      }
      StepExtract(buffer, pos, sequences, 1);
      sequences := sequences + [[buffer[pos]]];
      pos := pos + 1;
    }
  }

  lemma PlainFront(buffer: Text, pos: nat)
    requires pos < |buffer| && buffer[pos] != ESC
    ensures Front(buffer[pos..]) ==
      if !IsHighSurrogate(buffer[pos]) then Emit(1)
      else if pos + 1 == |buffer| then Hold
      else if IsLowSurrogate(buffer[pos + 1]) then Emit(2)
      else Emit(1)
  {
  }

  /** The loop over `pos`, alternating escape attempts and plain-text runs. */
  method ExtractCompleteSequences(buffer: Text) returns (sequences: seq<Text>, remainder: Text)
    ensures Extraction(sequences, remainder) == Extract(buffer)
  {
    hide Front, Extract;
    sequences := [];
    var pos := 0;
    assert buffer[0..] == buffer;
    while pos < |buffer|
      invariant 0 <= pos <= |buffer|
      invariant Extract(buffer) == Prepend(sequences, Extract(buffer[pos..]))
      decreases |buffer| - pos
    {
      if buffer[pos] == ESC {
        var t := EscapeToken(buffer, pos);
        match t {
          case Hold =>
            ExtractHeld(buffer[pos..]);
            assert sequences + [] == sequences;
            return sequences, buffer[pos..];
          case Emit(n) =>
            StepExtract(buffer, pos, sequences, n);
            sequences := sequences + [buffer[pos..pos + n]];
            pos := pos + n;
        }
      } else {
        var nextEsc := IndexOf(buffer, [ESC], pos);
        var runEnd := if nextEsc == -1 then |buffer| else nextEsc;
        NoEscBefore(buffer, pos, nextEsc, runEnd);
        var held;
        pos, sequences, held := PlainRun(buffer, pos, runEnd, sequences);
        if held {
          return sequences, buffer[pos..];
        }
      }
    }
    remainder := [];
    ExtractHeld(remainder);
    assert buffer[pos..] == [] && sequences + [] == sequences;
  }

  lemma ExtractHeld(s: Text)
    requires s == [] || Front(s) == Hold
    ensures Extract(s) == Extraction([], s)
  {
  }

  lemma NoEscBefore(buffer: Text, pos: nat, nextEsc: int, runEnd: nat)
    requires pos < |buffer| && buffer[pos] != ESC
    requires nextEsc == IndexOf(buffer, [ESC], pos)
    requires runEnd == if nextEsc == -1 then |buffer| else nextEsc
    ensures pos < runEnd <= |buffer|
    ensures forall i | pos <= i < runEnd :: buffer[i] != ESC
    ensures runEnd < |buffer| ==> buffer[runEnd] == ESC
  {
    hide OccursAt;
    forall i | pos <= i < |buffer|
      ensures OccursAt(buffer, [ESC], i) <==> buffer[i] == ESC
    {
      OccursOne(buffer, ESC, i);
    }
    if nextEsc != -1 {
      OccursFits(buffer, [ESC], nextEsc);
    }
  }

  lemma OccursOne(s: Text, c: CodeUnit, i: nat)
    requires i < |s|
    ensures OccursAt(s, [c], i) <==> s[i] == c
  {
    assert s[i..i + 1] == [s[i]];
  }

  lemma OccursFits(s: Text, p: Text, i: int)
    requires OccursAt(s, p, i)
    ensures 0 <= i && i + |p| <= |s|
  {
  }

  /** One emission moves the tokenizer's meaning along by one sequence. */
  lemma StepExtract(buffer: Text, pos: nat, sequences: seq<Text>, n: nat)
    requires pos < |buffer| && Front(buffer[pos..]) == Emit(n)
    requires Extract(buffer) == Prepend(sequences, Extract(buffer[pos..]))
    ensures pos + n <= |buffer|
    ensures Extract(buffer) == Prepend(sequences + [buffer[pos..pos + n]], Extract(buffer[pos + n..]))
    ensures n == 1 ==> buffer[pos..pos + n] == [buffer[pos]]
  {
    ExtractUnfold(buffer[pos..], n);
    hide Front, Extract;
    SliceTwice(buffer, pos, n);
    PrependTwice(sequences, [buffer[pos..pos + n]], Extract(buffer[pos + n..]));
  }

  lemma SliceTwice(s: Text, i: nat, n: nat)
    requires i + n <= |s|
    ensures s[i..][..n] == s[i..i + n]
    ensures s[i..][n..] == s[i + n..]
  {
  }

  lemma ExtractUnfold(s: Text, n: nat)
    requires s != [] && Front(s) == Emit(n)
    ensures n <= |s| && Extract(s) == Prepend([s[..n]], Extract(s[n..]))
  {
    hide Front;
  }

  lemma PrependTwice(s: seq<Text>, t: seq<Text>, r: Extraction)
    ensures Prepend(s, Prepend(t, r)) == Prepend(s + t, r)
  {
    assert s + (t + r.sequences) == s + t + r.sequences;
  }
}
