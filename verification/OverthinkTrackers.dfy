/** The tracker of one turn's reasoning: per block its size and its self-reversal markers,
    counted delta by delta, and the decision to interrupt. */
module OverthinkTrackers {
  import opened Options
  import opened Utf16
  import opened OverthinkMarkers

  const CHARS_PER_TOKEN: nat := 4
  const RUMINATION_MARKER_THRESHOLD: nat := 4
  const RUMINATION_MIN_TOKENS: nat := 400

  // ---------------------------------------------------------------------------
  // What a way of cutting a block into deltas counts

  function Joined(deltas: seq<Text>): Text {
    if deltas == [] then [] else Joined(deltas[..|deltas| - 1]) + deltas[|deltas| - 1]
  }

  /** The last characters of a text. */
  function Tail(text: Text): (tail: Text)
    ensures |tail| == if |text| > MARKER_TAIL_LEN then MARKER_TAIL_LEN else |text|
  {
    if |text| > MARKER_TAIL_LEN then text[|text| - MARKER_TAIL_LEN..] else text
  }

  /** Matches of the window that reach into the delta. */
  function Added(tail: Text, delta: Text): nat {
    if delta == [] then 0 else CountBeyond(Scan(tail + delta, 0), |tail|)
  }

  function Total(deltas: seq<Text>): nat {
    if deltas == [] then 0
    else
      var last := |deltas| - 1;
      Total(deltas[..last]) + Added(Tail(Joined(deltas[..last])), deltas[last])
  }

  /** A cut directly after what would be a marker and before a word character. */
  predicate FalseCut(text: Text, delta: Text) {
    EndsAt(text, 0, |text|) && GoesOn(text, delta, |text|)
  }

  function FalseCuts(deltas: seq<Text>): nat {
    if deltas == [] then 0
    else
      var last := |deltas| - 1;
      FalseCuts(deltas[..last]) + if FalseCut(Joined(deltas[..last]), deltas[last]) then 1 else 0
  }

  lemma TailOfMore(text: Text, delta: Text)
    ensures Tail(Tail(text) + delta) == Tail(text + delta)
  {
    var k := if |text| > MARKER_TAIL_LEN then |text| - MARKER_TAIL_LEN else 0;
    assert Tail(text) + delta == (text + delta)[k..];
  }

  /** The window sees every match that ends in the delta, and no other. */
  lemma AddedIsHits(text: Text, delta: Text)
    ensures Added(Tail(text), delta) == Hits(text + delta, |text|, |text + delta|)
  {
    hide Scan, EndsAt, CountBeyond;
    var tail := Tail(text);
    var k: nat := |text| - |tail|;
    var whole := text + delta;
    assert tail + delta == whole[k..];
    if delta != [] {
      ScanHits(tail + delta, |tail|);
      forall e: nat | |tail| < e <= |tail + delta|
        ensures EndsAt(tail + delta, 0, e) <==> EndsAt(whole, 0, e + k)
      {
        EndsInWindow(whole, k, e);
      }
      HitsShift(tail + delta, whole, |tail|, |tail + delta|, k);
    }
  }

  /** Appending a delta can undo the match at the very end of the text, and no other. */
  lemma HitsOfPrefix(text: Text, delta: Text)
    ensures Hits(text, 0, |text|) == Hits(text + delta, 0, |text|) + if FalseCut(text, delta) then 1 else 0
  {
    hide EndsAt;
    var whole := text + delta;
    forall e: nat | e <= |text|
      ensures EndsAt(whole, 0, e) <==> EndsAt(text, 0, e) && !GoesOn(text, delta, e)
    {
      EndsInPrefix(text, delta, e);
    }
    if text == [] {
      NothingEnds();
    } else {
      var last: nat := |text| - 1;
      HitsShift(text, whole, 0, last, 0);
      HitsSplit(text, 0, last, |text|);
      HitsSplit(whole, 0, last, |text|);
      LastHit(text, last);
      LastHit(whole, last);
    }
  }

  lemma NothingEnds()
    ensures !EndsAt([], 0, 0)
  {
  }

  lemma NoCutAtStart(delta: Text)
    ensures !FalseCut([], delta) && Joined([]) == []
  {
    NothingEnds();
  }

  lemma LastHit(text: Text, last: nat)
    ensures Hits(text, last, last + 1) == if EndsAt(text, 0, last + 1) then 1 else 0
  {
  }

  lemma NothingCounted()
    ensures WholeCount([]) == 0
  {
  }

  /** However a block is cut into deltas, the running total is the count of the whole text plus
      one for every cut directly between a marker and a following word character. */
  lemma {:induction false} TotalIsWholePlusFalseCuts(deltas: seq<Text>)
    ensures Total(deltas) == WholeCount(Joined(deltas)) + FalseCuts(deltas)
  {
    hide Added, EndsAt, Hits, WholeCount, Tail;
    if deltas == [] {
      NothingCounted();
    } else {
      var text, delta := Joined(deltas[..|deltas| - 1]), deltas[|deltas| - 1];
      TotalIsWholePlusFalseCuts(deltas[..|deltas| - 1]);
      AddedIsHits(text, delta);
      HitsOfPrefix(text, delta);
      HitsSplit(text + delta, 0, |text|, |text + delta|);
      ScanHits(text, 0);
      ScanHits(text + delta, 0);
    }
  }

  /** The count never misses a marker, and is exact when and only when no cut is false. */
  lemma NeverUndercounts(deltas: seq<Text>)
    ensures Total(deltas) >= WholeCount(Joined(deltas))
    ensures Total(deltas) == WholeCount(Joined(deltas)) <==> FalseCuts(deltas) == 0
  {
    hide Total, WholeCount, FalseCuts;
    TotalIsWholePlusFalseCuts(deltas);
  }

  /** "wait" followed by "ing" in the next delta counts a marker that "waiting" does not hold. */
  lemma WaitingCutIsFalse(wait: Text, ing: Text)
    requires wait == [0x77, 0x61, 0x69, 0x74] && ing == [0x69, 0x6e, 0x67]
    ensures Total([wait, ing]) == WholeCount(wait + ing) + 1
  {
    WaitEnds(wait, ing);
    NoCutAtStart(wait);
    TotalIsWholePlusFalseCuts([wait, ing]);
    hide FalseCut, WholeCount, Total;
    assert [wait, ing][..1] == [wait] && [wait][..0] == [];
    assert Joined([wait]) == wait && Joined([wait, ing]) == wait + ing by {
      assert Joined([]) == [] && [] + wait == wait;
    }
    hide Joined;
    assert FalseCuts([wait]) == 0;
  }

  lemma WaitEnds(wait: Text, ing: Text)
    requires wait == [0x77, 0x61, 0x69, 0x74] && ing == [0x69, 0x6e, 0x67]
    ensures FalseCut(wait, ing)
  {
    assert Raw(wait, 0, Wait);
    assert FreeFrom(wait, 0, 4 - |Spell(Wait)|, Wait);
    hide FreeFrom, Raw, Spell;
  }

  // ---------------------------------------------------------------------------
  // The tracker

  function EstimatedTokens(chars: nat): (tokens: nat)
    ensures tokens * CHARS_PER_TOKEN >= chars && (tokens > 0 ==> (tokens - 1) * CHARS_PER_TOKEN < chars)
  {
    (chars + CHARS_PER_TOKEN - 1) / CHARS_PER_TOKEN
  }

  datatype Reason = Volume | Rumination(markerCount: nat)
  datatype InterruptInfo = InterruptInfo(estimatedTokens: nat, threshold: int, reason: Reason)

  function Get<T>(m: map<int, T>, k: int, default: T): T {
    if k in m then m[k] else default
  }

  /** What is kept of a block describes the deltas it was given. */
  ghost predicate Tracks(chars: nat, markers: nat, tail: Text, deltas: seq<Text>) {
    chars == |Joined(deltas)| && markers == Total(deltas) && tail == Tail(Joined(deltas))
  }

  lemma TracksNothing()
    ensures Tracks(0, 0, [], [])
  {
  }

  lemma TracksLength(chars: nat, markers: nat, tail: Text, deltas: seq<Text>)
    requires Tracks(chars, markers, tail, deltas)
    ensures chars == |Joined(deltas)|
  {
  }

  lemma TracksMore(chars: nat, markers: nat, tail: Text, deltas: seq<Text>, delta: Text)
    requires Tracks(chars, markers, tail, deltas)
    ensures Tracks(chars + |delta|, markers + Added(tail, delta), if delta == [] then tail else Tail(tail + delta), deltas + [delta])
    ensures Joined(deltas + [delta]) == Joined(deltas) + delta
  {
    assert (deltas + [delta])[..|deltas|] == deltas;
    TailOfMore(Joined(deltas), delta);
  }

  lemma TailText(scan: Text)
    ensures Tail(scan) == if |scan| > MARKER_TAIL_LEN then scan[|scan| - MARKER_TAIL_LEN..] else scan
  {
  }

  /** The search loop: every match of the text, counting those that end beyond `from`. */
  method CountEndsBeyond(scan: Text, from: nat) returns (added: nat)
    ensures added == CountBeyond(Scan(scan, 0), from)
  {
    hide Raw, Spell, Matches;
    added := 0;
    var i := 0;
    while i < |scan|
      invariant added + CountBeyond(Scan(scan, i), from) == CountBeyond(Scan(scan, 0), from)
      decreases |scan| - i
    {
      if Matches(scan, i) {
        var end := i + |Spell(MarkerAt(scan, i))|;
        assert Scan(scan, i) == [end] + Scan(scan, end);
        if end > from {
          added := added + 1;
        }
        i := end;
      } else {
        i := i + 1;
      }
    }
  }

  class OverthinkTracker {
    var blockChars: map<int, nat>
    var markerCounts: map<int, nat>
    var blockTails: map<int, Text>
    var toolCallStarted: bool
    var seenThinkingDelta: bool
    const watchTextDelta: bool
    /** The deltas counted for each block since it started. */
    ghost var blocks: map<int, seq<Text>>

    ghost function Deltas(c: int): seq<Text>
      reads this`blocks
    {
      Get(blocks, c, [])
    }

    /** The text of a block that the tracker has watched. */
    ghost function Watched(c: int): Text
      reads this`blocks
    {
      Joined(Deltas(c))
    }

    ghost predicate Valid()
      reads this
    {
      forall c :: Tracks(Get(blockChars, c, 0), Get(markerCounts, c, 0), Get(blockTails, c, []), Get(blocks, c, []))
    }

    constructor (watchTextDelta: bool)
      ensures Valid() && blocks == map[] && !toolCallStarted && !seenThinkingDelta && this.watchTextDelta == watchTextDelta
    {
      this.watchTextDelta := watchTextDelta;
      blockChars, markerCounts, blockTails, blocks := map[], map[], map[], map[];
      toolCallStarted, seenThinkingDelta := false, false;
    }

    method OnBlockStart(contentIndex: int)
      requires Valid()
      modifies this`blockChars, this`markerCounts, this`blockTails, this`blocks
      ensures Valid() && blocks == old(blocks)[contentIndex := []]
    {
      hide Tracks;
      TracksNothing();
      blockChars := blockChars[contentIndex := 0];
      markerCounts := markerCounts[contentIndex := 0];
      blockTails := blockTails[contentIndex := []];
      blocks := blocks[contentIndex := []];
    }

    /** Plain text counts as reasoning only if asked for, and only until real reasoning arrives. */
    method OnTextStart(contentIndex: int)
      requires Valid()
      modifies this`blockChars, this`markerCounts, this`blockTails, this`blocks
      ensures Valid()
      ensures blocks == if watchTextDelta && !seenThinkingDelta then old(blocks)[contentIndex := []] else old(blocks)
    {
      if watchTextDelta && !seenThinkingDelta {
        OnBlockStart(contentIndex);
      }
    }

    method OnThinkingDelta(contentIndex: int, delta: Text) returns (tokens: nat)
      requires Valid()
      modifies this`blockChars, this`markerCounts, this`blockTails, this`blocks, this`seenThinkingDelta
      ensures Valid() && seenThinkingDelta && Watched(contentIndex) == old(Watched(contentIndex)) + delta
      ensures blocks == old(blocks)[contentIndex := old(Deltas(contentIndex)) + [delta]]
      ensures tokens == EstimatedTokens(|Watched(contentIndex)|)
    {
      seenThinkingDelta := true;
      tokens := Accumulate(contentIndex, delta);
    }

    method OnTextDelta(contentIndex: int, delta: Text) returns (tokens: nat)
      requires Valid()
      modifies this`blockChars, this`markerCounts, this`blockTails, this`blocks
      ensures Valid() && tokens == EstimatedTokens(|Watched(contentIndex)|)
      ensures blocks == if watchTextDelta && !seenThinkingDelta then old(blocks)[contentIndex := old(Deltas(contentIndex)) + [delta]] else old(blocks)
    {
      if !watchTextDelta || seenThinkingDelta {
        return EstimatedTokens(Get(blockChars, contentIndex, 0));
      }
      tokens := Accumulate(contentIndex, delta);
    }

    method OnToolCallStart()
      requires Valid()
      modifies this`toolCallStarted
      ensures Valid() && toolCallStarted
    {
      toolCallStarted := true;
    }

    method Reset()
      requires Valid()
      modifies this
      ensures Valid() && blocks == map[] && !toolCallStarted && !seenThinkingDelta
    {
      blockChars, markerCounts, blockTails, blocks := map[], map[], map[], map[];
      toolCallStarted, seenThinkingDelta := false, false;
    }

    method Accumulate(contentIndex: int, delta: Text) returns (tokens: nat)
      requires Valid()
      modifies this`blockChars, this`markerCounts, this`blockTails, this`blocks
      ensures Valid() && blocks == old(blocks)[contentIndex := old(Deltas(contentIndex)) + [delta]]
      ensures Watched(contentIndex) == old(Watched(contentIndex)) + delta
      ensures tokens == EstimatedTokens(|Watched(contentIndex)|)
    {
      hide Tracks, Joined, Tail, Added;
      var next := Get(blockChars, contentIndex, 0) + |delta|;
      TracksLength(next - |delta|, Get(markerCounts, contentIndex, 0), Get(blockTails, contentIndex, []), Deltas(contentIndex));
      blockChars := blockChars[contentIndex := next];
      CountMarkers(contentIndex, delta);
      ghost var before := Deltas(contentIndex);
      TracksMore(old(Get(blockChars, contentIndex, 0)), old(Get(markerCounts, contentIndex, 0)), old(Get(blockTails, contentIndex, [])), before, delta);
      blocks := blocks[contentIndex := before + [delta]];
      tokens := EstimatedTokens(next);
    }

    /** Scan the tail and the delta; count the matches that end beyond the tail. */
    method CountMarkers(contentIndex: int, delta: Text)
      modifies this`markerCounts, this`blockTails
      ensures var tail := old(Get(blockTails, contentIndex, []));
        && (forall c :: Get(markerCounts, c, 0) == old(Get(markerCounts, c, 0)) + if c == contentIndex then Added(tail, delta) else 0)
        && (forall c :: Get(blockTails, c, []) == if c == contentIndex && delta != [] then Tail(tail + delta) else old(Get(blockTails, c, [])))
    {
      hide Tail, CountBeyond, Scan;
      if |delta| == 0 {
        return;
      }
      var tail := Get(blockTails, contentIndex, []);
      var scan := tail + delta;
      var added := CountEndsBeyond(scan, |tail|);
      if added > 0 {
        markerCounts := markerCounts[contentIndex := Get(markerCounts, contentIndex, 0) + added];
      }
      blockTails := blockTails[contentIndex := if |scan| > MARKER_TAIL_LEN then scan[|scan| - MARKER_TAIL_LEN..] else scan];
      TailText(scan);
    }

    /** No interrupt once a tool call has started. Otherwise a block with four markers and more
        than 399 tokens is always reported as rumination, however it was cut; it is reported
        without four markers only if some cut was false. */
    method GetInterruptInfo(contentIndex: int, threshold: int) returns (info: Option<InterruptInfo>)
      requires Valid()
      ensures toolCallStarted ==> info == None
      ensures info.Some? ==> info.value.estimatedTokens == EstimatedTokens(|Watched(contentIndex)|) && info.value.threshold == threshold
      ensures !toolCallStarted && WholeCount(Watched(contentIndex)) >= RUMINATION_MARKER_THRESHOLD && |Watched(contentIndex)| > 1596 ==>
        info.Some? && info.value.reason.Rumination?
      ensures info.Some? && info.value.reason.Rumination? ==>
        |Watched(contentIndex)| > 1596 &&
        info.value.reason.markerCount == WholeCount(Watched(contentIndex)) + FalseCuts(Deltas(contentIndex)) &&
        WholeCount(Watched(contentIndex)) + FalseCuts(Deltas(contentIndex)) >= RUMINATION_MARKER_THRESHOLD
      ensures !toolCallStarted && EstimatedTokens(|Watched(contentIndex)|) >= threshold ==> info.Some?
      ensures info.Some? && info.value.reason.Volume? ==> EstimatedTokens(|Watched(contentIndex)|) >= threshold
    {
      if toolCallStarted {
        return None;
      }
      hide WholeCount, Total, FalseCuts, Joined;
      TotalIsWholePlusFalseCuts(Deltas(contentIndex));
      var estimatedTokens := EstimatedTokens(Get(blockChars, contentIndex, 0));
      var markerCount := Get(markerCounts, contentIndex, 0);
      if markerCount >= RUMINATION_MARKER_THRESHOLD && estimatedTokens >= RUMINATION_MIN_TOKENS {
        return Some(InterruptInfo(estimatedTokens, threshold, Rumination(markerCount)));
      }
      if estimatedTokens >= threshold {
        return Some(InterruptInfo(estimatedTokens, threshold, Volume));
      }
      return None;
    }
  }
}
