/** The stdin buffer: escape sequences split over chunks, bracketed paste, and the
    suppression of the raw key that follows its Kitty report. */
module StdinBuffers {
  import opened Options
  import opened Utf16
  import opened EscapeSequences
  import opened TokenizerTheorems

  const PASTE_START: Text := [0x1b, 0x5b, 0x32, 0x30, 0x30, 0x7e]
  const PASTE_END: Text := [0x1b, 0x5b, 0x32, 0x30, 0x31, 0x7e]
  const MAX_PASTE: nat := 10 * 1024 * 1024
  const MAX_BUFFER: nat := 64 * 1024

  datatype Event = Data(sequence: Text) | Paste(content: Text)

  // ---------------------------------------------------------------------------
  // Kitty reports

  function DigitsValue(s: Text): nat
    requires forall i | 0 <= i < |s| :: IsDigit(s[i])
  {
    if s == [] then 0
    else
      assert IsDigit(s[|s| - 1]);
      DigitsValue(s[..|s| - 1]) * 10 + (s[|s| - 1] as int - 0x30)
  }

  /** The tail of the report after its code point: two optional colon fields, then u. */
  predicate IsKittyTail(s: Text, from: nat)
    requires from <= |s|
  {
    from < |s| &&
    if s[from] == LOWER_U then from + 1 == |s|
    else
      && s[from] == COLON
      && var e := DigitsEnd(s, from + 1);
      e < |s| &&
      if s[e] == LOWER_U then e + 1 == |s|
      else
        && s[e] == COLON
        && var f := DigitsEnd(s, e + 1);
        e + 1 < f && f + 1 == |s| && s[f] == LOWER_U
  }

  function ParseKittyPrintable(sequence: Text): Option<nat> {
    if !StartsWith(sequence, [ESC, LBRACKET]) then None
    else
      var e := DigitsEnd(sequence, 2);
      if e == 2 || !IsKittyTail(sequence, e) then None
      else
        var codepoint := DigitsValue(sequence[2..e]);
        if codepoint >= 32 then Some(codepoint) else None
  }

  // ---------------------------------------------------------------------------
  // Meaning of the operations, with every search made from the start

  datatype State = State(buffer: Text, pasteMode: bool, pasteBuffer: Text, pending: Option<nat>)

  datatype Outcome = Outcome(state: State, events: seq<Event>)

  const Initial := State([], false, [], None)

  function Then(events: seq<Event>, r: Outcome): Outcome {
    Outcome(r.state, events + r.events)
  }

  predicate IsRepeatOf(sequence: Text, pending: Option<nat>) {
    |sequence| == 1 && pending == Some(sequence[0] as int)
  }

  datatype Emission = Emission(events: seq<Event>, pending: Option<nat>)

  function EmitOne(pending: Option<nat>, sequence: Text): Emission {
    if IsRepeatOf(sequence, pending) then Emission([], None)
    else Emission([Data(sequence)], ParseKittyPrintable(sequence))
  }

  function EmitAll(pending: Option<nat>, sequences: seq<Text>): Emission
    decreases |sequences|
  {
    if sequences == [] then Emission([], pending)
    else
      var first := EmitOne(pending, sequences[0]);
      var rest := EmitAll(first.pending, sequences[1..]);
      Emission(first.events + rest.events, rest.pending)
  }

  /** One turn: what is delivered, the state after, and whether that state is fed again. */
  datatype Turn = Turn(events: seq<Event>, after: State, again: bool)

  function Size(st: State): nat {
    |st.buffer| + |st.pasteBuffer|
  }

  /** `all` is the paste so far; the cap is checked only when the paste was already open. */
  function PasteTurn(all: Text, pending: Option<nat>, capped: bool): (t: Turn)
    ensures t.again ==> Size(t.after) < |all|
  {
    var e := IndexOf(all, PASTE_END, 0);
    if e != -1 then
      var rest := all[e + |PASTE_END|..];
      Turn([Paste(all[..e])], State(rest, false, [], None), rest != [])
    else if capped && |all| > MAX_PASTE then Turn([Paste(all[..MAX_PASTE])], Initial, false)
    else Turn([], State([], true, all, pending), false)
  }

  function FeedTurn(st: State): (t: Turn)
    ensures t.again ==> Size(t.after) < Size(st)
  {
    if st.pasteMode then PasteTurn(st.pasteBuffer + st.buffer, st.pending, true)
    else
      var i := IndexOf(st.buffer, PASTE_START, 0);
      if i != -1 then
        var before := EmitAll(st.pending, Extract(st.buffer[..i]).sequences);
        var t := PasteTurn(st.buffer[i + |PASTE_START|..], None, false);
        t.(events := before.events + t.events)
      else
        var r := Extract(st.buffer);
        var out := EmitAll(st.pending, r.sequences);
        Turn(out.events, State(r.remainder, false, st.pasteBuffer, out.pending), false)
  }

  function Feed(st: State): Outcome
    decreases Size(st)
  {
    var t := FeedTurn(st);
    if t.again then Then(t.events, Feed(t.after)) else Outcome(t.after, t.events)
  }

  function ProcessChunk(st: State, chunk: Text): Outcome {
    if chunk == [] && st.buffer == [] then
      var out := EmitOne(st.pending, []);
      Outcome(st.(pending := out.pending), out.events)
    else Feed(st.(buffer := st.buffer + chunk))
  }

  /** The flush timer firing. */
  function FireTimer(st: State): Outcome {
    if st.buffer == [] then Outcome(st, [])
    else
      var out := EmitOne(None, st.buffer);
      Outcome(st.(buffer := [], pending := out.pending), out.events)
  }

  /** What waits is handed to the caller instead of the listeners. */
  function Flushed(st: State): State {
    if st.buffer == [] then st else st.(buffer := [], pending := None)
  }

  // ---------------------------------------------------------------------------
  // What holds between calls

  ghost predicate ValidState(st: State) {
    if st.pasteMode then st.buffer == [] && !Contains(st.pasteBuffer, PASTE_END)
    else
      && st.pasteBuffer == []
      && Irreducible(st.buffer)
      && |st.buffer| <= MAX_INCOMPLETE_ESC
      && !Contains(st.buffer, PASTE_START)
  }

  lemma OccursWithin(s: Text, i: int, j: int, p: Text, k: int)
    requires 0 <= i <= j <= |s|
    ensures OccursAt(s[i..j], p, k) ==> OccursAt(s, p, i + k)
  {
    if OccursAt(s[i..j], p, k) {
      OccursAtShift(s[..i], s[i..j], s[j..], p, k);
      assert s == s[..i] + s[i..j] + s[j..];
    }
  }

  lemma PartLacks(s: Text, i: nat, j: nat, p: Text)
    requires i <= j <= |s| && !Contains(s, p)
    ensures !Contains(s[i..j], p)
  {
    forall k
      ensures !OccursAt(s[i..j], p, k)
    {
      OccursWithin(s, i, j, p, k);
    }
  }

  lemma NotFound(s: Text, p: Text)
    ensures IndexOf(s, p, 0) == -1 <==> !Contains(s, p)
  {
    forall i | OccursAt(s, p, i)
      ensures 0 <= i
    {
    }
  }

  lemma RemainderIsValid(s: Text, pending: Option<nat>)
    requires !Contains(s, PASTE_START)
    ensures ValidState(State(Extract(s).remainder, false, [], pending))
  {
    ExtractLossless(s);
    hide Extract;
    var r := Extract(s);
    var n := |s| - |r.remainder|;
    assert s == Concat(r.sequences) + r.remainder;
    assert r.remainder == s[n..|s|];
    PartLacks(s, n, |s|, PASTE_START);
  }

  /** What holds between turns. */
  ghost predicate Sound(st: State) {
    if st.pasteMode then !Contains(st.pasteBuffer, PASTE_END) else st.pasteBuffer == []
  }

  lemma TurnIsValid(st: State)
    requires Sound(st)
    ensures var t := FeedTurn(st);
      && Sound(t.after)
      && (!t.again ==> ValidState(t.after))
  {
    RemainderIsValid([], None);
    if !st.pasteMode {
      NotFound(st.buffer, PASTE_START);
      var i := IndexOf(st.buffer, PASTE_START, 0);
      if i == -1 {
        RemainderIsValid(st.buffer, EmitAll(st.pending, Extract(st.buffer).sequences).pending);
      } else {
        NotFound(st.buffer[i + |PASTE_START|..], PASTE_END);
      }
    } else {
      NotFound(st.pasteBuffer + st.buffer, PASTE_END);
    }
  }

  // ---------------------------------------------------------------------------
  // The class

  /** A search that starts near the old tail misses nothing. */
  lemma WindowedSearch(before: Text, chunk: Text, p: Text, from: nat)
    requires !Contains(before, p) && p != []
    requires from == 0 || from <= |before| - (|p| - 1)
    ensures IndexOf(before + chunk, p, from) == IndexOf(before + chunk, p, 0)
  {
    var all := before + chunk;
    forall i | 0 <= i < from
      ensures OccursAt(all, p, i) ==> OccursAt(before, p, i)
    {
      assert i + |p| <= |before| ==> all[i..i + |p|] == before[i..i + |p|];
    }
  }

  lemma ThenNothing(r: Outcome)
    ensures Then([], r) == r
  {
  }

  lemma AfterTurn(delivered: seq<Event>, st: State)
    ensures var t := FeedTurn(st);
      Then(delivered, Feed(st)) ==
        if t.again then Then(delivered + t.events, Feed(t.after)) else Outcome(t.after, delivered + t.events)
  {
    hide FeedTurn;
    var t := FeedTurn(st);
    assert delivered + (t.events + Feed(t.after).events) == delivered + t.events + Feed(t.after).events;
  }

  class StdinBuffer {
    var buffer: Text
    var pasteMode: bool
    var pasteBuffer: Text
    var pendingKittyPrintableCodepoint: Option<nat>
    var timerArmed: bool
    /** Everything the listeners have received, in order. */
    var emitted: seq<Event>

    function Abstract(): State
      reads this
    {
      State(buffer, pasteMode, pasteBuffer, pendingKittyPrintableCodepoint)
    }

    ghost predicate Valid()
      reads this
    {
      ValidState(Abstract()) && (timerArmed <==> buffer != [])
    }

    constructor ()
      ensures Valid() && Abstract() == Initial && emitted == []
    {
      buffer, pasteMode, pasteBuffer := [], false, [];
      pendingKittyPrintableCodepoint, timerArmed, emitted := None, false, [];
      RemainderIsValid([], None);
    }

    method EmitDataSequence(sequence: Text)
      modifies this`emitted, this`pendingKittyPrintableCodepoint
      ensures var out := EmitOne(old(pendingKittyPrintableCodepoint), sequence);
        emitted == old(emitted) + out.events && pendingKittyPrintableCodepoint == out.pending
    {
      if |sequence| == 1 && pendingKittyPrintableCodepoint == Some(sequence[0] as int) {
        pendingKittyPrintableCodepoint := None;
        return;
      }
      pendingKittyPrintableCodepoint := ParseKittyPrintable(sequence);
      emitted := emitted + [Data(sequence)];
    }

    method EmitSequences(sequences: seq<Text>)
      modifies this`emitted, this`pendingKittyPrintableCodepoint
      ensures var out := EmitAll(old(pendingKittyPrintableCodepoint), sequences);
        emitted == old(emitted) + out.events && pendingKittyPrintableCodepoint == out.pending
    {
      var i := 0;
      assert sequences[0..] == sequences;
      while i < |sequences|
        invariant 0 <= i <= |sequences|
        invariant old(emitted) + EmitAll(old(pendingKittyPrintableCodepoint), sequences).events ==
          emitted + EmitAll(pendingKittyPrintableCodepoint, sequences[i..]).events
        invariant EmitAll(old(pendingKittyPrintableCodepoint), sequences).pending ==
          EmitAll(pendingKittyPrintableCodepoint, sequences[i..]).pending
      {
        assert sequences[i..][1..] == sequences[i + 1..];
        EmitDataSequence(sequences[i]);
        i := i + 1;
      }
    }

    /** One input chunk. */
    method Process(chunk: Text)
      requires Valid()
      modifies this
      ensures Valid()
      ensures Abstract() == ProcessChunk(old(Abstract()), chunk).state
      ensures emitted == old(emitted) + ProcessChunk(old(Abstract()), chunk).events
    {
      timerArmed := false;
      if |chunk| == 0 && |buffer| == 0 {
        EmitDataSequence([]);
        return;
      }
      buffer := buffer + chunk;
      assert Sound(Abstract());
      hide Feed, ValidState, Sound;
      Refeed();
    }

    /** The loop: each turn handles the buffer up to the end of one paste. */
    method Refeed()
      requires !timerArmed && Sound(Abstract())
      modifies this
      ensures Valid()
      ensures Abstract() == Feed(old(Abstract())).state
      ensures emitted == old(emitted) + Feed(old(Abstract())).events
    {
      hide FeedTurn, Feed, Then, ValidState, Sound;
      var again := true;
      ghost var delivered := [];
      ghost var target := Feed(Abstract());
      ThenNothing(target);
      while again
        invariant emitted == old(emitted) + delivered
        invariant target == if again then Then(delivered, Feed(Abstract())) else Outcome(Abstract(), delivered)
        invariant Sound(Abstract()) && (!again ==> ValidState(Abstract()))
        invariant timerArmed <==> !again && buffer != []
        decreases again, |buffer| + |pasteBuffer|
      {
        ghost var st := Abstract();
        TurnIsValid(st);
        again := TakeTurn();
        AfterTurn(delivered, st);
        delivered := delivered + FeedTurn(st).events;
      }
    }

    /** The body of the re-feed loop. */
    method TakeTurn() returns (again: bool)
      requires !timerArmed && Sound(Abstract())
      modifies this
      ensures var t := FeedTurn(old(Abstract()));
        emitted == old(emitted) + t.events && Abstract() == t.after && again == t.again
      ensures timerArmed <==> !again && buffer != []
    {
      hide FeedTurn;
      if pasteMode {
        again := ContinuePaste();
      } else if IndexOf(buffer, PASTE_START, 0) != -1 {
        again := OpenPaste();
      } else {
        TakeSequences();
        again := false;
      }
    }

    /** More of an open paste arrived. */
    method ContinuePaste() returns (again: bool)
      requires pasteMode && !timerArmed && Sound(Abstract())
      modifies this
      ensures var t := FeedTurn(old(Abstract()));
        emitted == old(emitted) + t.events && Abstract() == t.after && again == t.again
      ensures timerArmed <==> !again && buffer != []
    {
      var prevLen := |pasteBuffer|;
      var searchFrom := if prevLen <= |PASTE_END| - 1 then 0 else prevLen - (|PASTE_END| - 1);
      WindowedSearch(pasteBuffer, buffer, PASTE_END, searchFrom);
      pasteBuffer := pasteBuffer + buffer;
      buffer := [];
      var endIndex := IndexOf(pasteBuffer, PASTE_END, searchFrom);
      if endIndex != -1 {
        var remaining := ClosePaste(endIndex);
        buffer := remaining;
        return |remaining| > 0;
      }
      if |pasteBuffer| > MAX_PASTE {
        var pastedContent := pasteBuffer[..MAX_PASTE];
        pasteMode := false;
        pasteBuffer := [];
        pendingKittyPrintableCodepoint := None;
        emitted := emitted + [Paste(pastedContent)];
      }
      again := false;
    }

    /** A start marker is in the buffer. */
    method OpenPaste() returns (again: bool)
      requires !pasteMode && !timerArmed && Sound(Abstract())
      requires IndexOf(buffer, PASTE_START, 0) != -1
      modifies this
      ensures var t := FeedTurn(old(Abstract()));
        emitted == old(emitted) + t.events && Abstract() == t.after && again == t.again
      ensures timerArmed <==> !again && buffer != []
    {
      var startIndex := IndexOf(buffer, PASTE_START, 0);
      hide Extract, EmitAll, PasteTurn;
      ghost var before := EmitAll(pendingKittyPrintableCodepoint, Extract(buffer[..startIndex]).sequences).events;
      EmitBefore(startIndex);
      pendingKittyPrintableCodepoint := None;
      buffer := buffer[startIndex + |PASTE_START|..];
      pasteMode := true;
      pasteBuffer := buffer;
      buffer := [];
      ghost var t := PasteTurn(pasteBuffer, None, false);
      again := EndOpenedPaste();
      assert old(emitted) + before + t.events == old(emitted) + (before + t.events);
    }

    /** The end marker may have come in the same chunk as the start marker. */
    method EndOpenedPaste() returns (again: bool)
      requires pasteMode && buffer == [] && pendingKittyPrintableCodepoint == None
      modifies this`buffer, this`pasteMode, this`pasteBuffer, this`pendingKittyPrintableCodepoint, this`emitted
      ensures var t := PasteTurn(old(pasteBuffer), None, false);
        emitted == old(emitted) + t.events && Abstract() == t.after && again == t.again
      ensures again || buffer == []
    {
      var endIndex := IndexOf(pasteBuffer, PASTE_END, 0);
      if endIndex != -1 {
        var remaining := ClosePaste(endIndex);
        buffer := remaining;
        return |remaining| > 0;
      }
      again := false;
    }

    /** What precedes the start marker is tokenized; an incomplete tail of it is dropped. */
    method EmitBefore(startIndex: nat)
      requires startIndex <= |buffer|
      modifies this`emitted, this`pendingKittyPrintableCodepoint
      ensures var out := EmitAll(old(pendingKittyPrintableCodepoint), Extract(buffer[..startIndex]).sequences);
        emitted == old(emitted) + out.events && pendingKittyPrintableCodepoint == out.pending
    {
      if startIndex > 0 {
        var sequences, _ := ExtractCompleteSequences(buffer[..startIndex]);
        EmitSequences(sequences);
      }
    }

    /** No paste marker anywhere: tokenize, keep the remainder and arm the flush timer for it. */
    method TakeSequences()
      requires !pasteMode && !timerArmed && Sound(Abstract())
      requires IndexOf(buffer, PASTE_START, 0) == -1
      modifies this
      ensures var t := FeedTurn(old(Abstract()));
        emitted == old(emitted) + t.events && Abstract() == t.after && !t.again
      ensures timerArmed <==> buffer != []
    {
      ExtractLossless(buffer);
      var sequences, remainder := ExtractCompleteSequences(buffer);
      hide Extract, EmitAll;
      buffer := remainder;
      EmitSequences(sequences);
      // The remainder is far below the cap, so the forced flush of an overlong
      // buffer never happens.
      assert |buffer| <= MAX_INCOMPLETE_ESC < MAX_BUFFER;
      if |buffer| > 0 {
        timerArmed := true;
      }
    }

    /** The end marker was found at `endIndex`: deliver the paste and leave paste mode. */
    method ClosePaste(endIndex: nat) returns (remaining: Text)
      requires endIndex + |PASTE_END| <= |pasteBuffer|
      modifies this`pasteMode, this`pasteBuffer, this`pendingKittyPrintableCodepoint, this`emitted
      ensures remaining == old(pasteBuffer)[endIndex + |PASTE_END|..]
      ensures !pasteMode && pasteBuffer == [] && pendingKittyPrintableCodepoint == None
      ensures emitted == old(emitted) + [Paste(old(pasteBuffer)[..endIndex])]
    {
      var pastedContent := pasteBuffer[..endIndex];
      remaining := pasteBuffer[endIndex + |PASTE_END|..];
      pasteMode := false;
      pasteBuffer := [];
      pendingKittyPrintableCodepoint := None;
      emitted := emitted + [Paste(pastedContent)];
    }

    method Flush() returns (sequences: seq<Text>)
      requires Valid()
      modifies this
      ensures Valid() && buffer == [] && emitted == old(emitted)
      ensures Abstract() == Flushed(old(Abstract())) && sequences == if old(buffer) == [] then [] else [old(buffer)]
    {
      timerArmed := false;
      if |buffer| == 0 {
        return [];
      }
      sequences := [buffer];
      buffer := [];
      pendingKittyPrintableCodepoint := None;
      RemainderIsValid([], None);
    }

    /** The flush timer fires. */
    method OnTimeout()
      requires Valid()
      modifies this
      ensures Valid() && !timerArmed
      ensures Abstract() == FireTimer(old(Abstract())).state
      ensures emitted == old(emitted) + FireTimer(old(Abstract())).events
    {
      var flushed := Flush();
      EmitSequences(flushed);
    }

    method Clear()
      modifies this
      ensures Valid() && Abstract() == Initial && emitted == old(emitted)
    {
      timerArmed := false;
      buffer := [];
      pasteMode := false;
      pasteBuffer := [];
      pendingKittyPrintableCodepoint := None;
      RemainderIsValid([], None);
    }
  }
}
