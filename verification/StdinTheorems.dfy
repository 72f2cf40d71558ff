/** Guarantees of the stdin buffer over whole runs. */
module StdinTheorems {
  import opened Integers
  import opened Options
  import opened Utf16
  import opened EscapeSequences
  import opened TokenizerTheorems
  import opened StdinBuffers

  // ---------------------------------------------------------------------------
  // Every reachable state is valid, and memory is bounded

  datatype Input = Chunk(text: Text) | Timeout | Flush | Clear

  function Step(st: State, input: Input): Outcome {
    match input
    case Chunk(text) => ProcessChunk(st, text)
    case Timeout => FireTimer(st)
    case Flush => Outcome(Flushed(st), [])
    case Clear => Outcome(Initial, [])
  }

  function Run(st: State, inputs: seq<Input>): Outcome
    decreases |inputs|
  {
    if inputs == [] then Outcome(st, [])
    else
      var first := Step(st, inputs[0]);
      Then(first.events, Run(first.state, inputs[1..]))
  }

  lemma {:induction false} FeedIsValid(st: State)
    requires Sound(st)
    ensures ValidState(Feed(st).state)
    decreases Size(st)
  {
    TurnIsValid(st);
    hide FeedTurn;
    var t := FeedTurn(st);
    if t.again {
      FeedIsValid(t.after);
    }
  }

  lemma StepIsValid(st: State, input: Input)
    requires ValidState(st)
    ensures ValidState(Step(st, input).state)
  {
    RemainderIsValid([], None);
    if input.Chunk? && !(input.text == [] && st.buffer == []) {
      FeedIsValid(st.(buffer := st.buffer + input.text));
    }
    hide Feed;
  }

  /** A marker that the first `held` characters do not contain ends beyond them. So only the
      chunk that opens a paste can exceed the cap, and the marker's last character is in it. */
  lemma {:induction false} FeedPasteBound(st: State, held: nat)
    requires Sound(st) && held <= |st.buffer| && (if st.pasteMode then held == 0 else !Contains(st.buffer[..held], PASTE_START))
    ensures |Feed(st).state.pasteBuffer| <= Max(MAX_PASTE, |st.buffer| - held - 1)
    decreases Size(st)
  {
    TurnIsValid(st);
    TurnPasteBound(st, held);
    hide FeedTurn, Sound, ValidState;
    var t := FeedTurn(st);
    if t.again {
      EmptyLacks(t.after.buffer[..0], PASTE_START);
      FeedPasteBound(t.after, 0);
    }
  }

  lemma EmptyLacks(s: Text, p: Text)
    requires s == [] && p != []
    ensures !Contains(s, p)
  {
  }

  lemma OccursInPrefix(s: Text, more: Text, p: Text, e: int)
    ensures OccursAt(s + more, p, e) && e + |p| <= |s| ==> OccursAt(s, p, e)
  {
    if 0 <= e && e + |p| <= |s| {
      assert (s + more)[e..e + |p|] == s[e..e + |p|];
    }
  }

  lemma TurnPasteBound(st: State, held: nat)
    requires Sound(st) && held <= |st.buffer| && (if st.pasteMode then held == 0 else !Contains(st.buffer[..held], PASTE_START))
    ensures var t := FeedTurn(st);
      if t.again then !t.after.pasteMode && |t.after.buffer| <= |st.buffer| - held
      else |t.after.pasteBuffer| <= Max(MAX_PASTE, |st.buffer| - held - 1)
  {
    hide Extract, EmitAll;
    if st.pasteMode {
      var all := st.pasteBuffer + st.buffer;
      var e := IndexOf(all, PASTE_END, 0);
      OccursInPrefix(st.pasteBuffer, st.buffer, PASTE_END, e);
      assert e != -1 ==> e + |PASTE_END| > |st.pasteBuffer|;
    } else {
      var i := IndexOf(st.buffer, PASTE_START, 0);
      assert st.buffer[..held] + st.buffer[held..] == st.buffer;
      OccursInPrefix(st.buffer[..held], st.buffer[held..], PASTE_START, i);
      assert i != -1 ==> i + |PASTE_START| > held;
    }
  }

  ghost predicate Bounded(st: State, longest: nat) {
    && ValidState(st)
    && |st.buffer| <= MAX_INCOMPLETE_ESC
    && |st.pasteBuffer| <= Max(MAX_PASTE, longest - 1)
  }

  lemma StepIsBounded(st: State, input: Input, longest: nat)
    requires Bounded(st, longest) && (input.Chunk? ==> |input.text| <= longest)
    ensures Bounded(Step(st, input).state, longest)
  {
    StepIsValid(st, input);
    if input.Chunk? {
      var fed := st.(buffer := st.buffer + input.text);
      assert fed.buffer[..|st.buffer|] == st.buffer;
      FeedPasteBound(fed, |st.buffer|);
    }
    hide Feed, Extract;
    assert Step(st, input).state.pasteMode || Step(st, input).state.pasteBuffer == [];
  }

  /** No run ever holds more than an escape window and one paste: the forced flush of the
      general buffer has nothing to do, and the paste cap can be passed only by one chunk. */
  lemma {:induction false} ReachableIsBounded(st: State, inputs: seq<Input>, longest: nat)
    requires Bounded(st, longest) && ChunksWithin(inputs, longest)
    ensures Bounded(Run(st, inputs).state, longest)
    ensures |Run(st, inputs).state.buffer| <= MAX_BUFFER
    decreases |inputs|
  {
    if inputs != [] {
      StepIsBounded(st, inputs[0], longest);
      ReachableIsBounded(Step(st, inputs[0]).state, inputs[1..], longest);
    }
  }

  ghost predicate ChunksWithin(inputs: seq<Input>, longest: nat) {
    forall i | 0 <= i < |inputs| && inputs[i].Chunk? :: |inputs[i].text| <= longest
  }

  lemma InitialIsBounded()
    ensures Bounded(Initial, 0)
  {
    RemainderIsValid([], None);
  }

  /** After some run a paste holds more than the cap. */
  ghost predicate PassesCap(inputs: seq<Input>) {
    |Run(Initial, inputs).state.pasteBuffer| > MAX_PASTE
  }

  /** The cap can be passed exactly when a chunk may be at least two characters longer. */
  lemma CapIsPassed(longest: nat)
    ensures (exists inputs :: ChunksWithin(inputs, longest) && PassesCap(inputs)) <==> longest > MAX_PASTE + 1
  {
    hide Bounded, Run, Contains;
    InitialIsBounded();
    forall inputs | ChunksWithin(inputs, longest)
      ensures PassesCap(inputs) ==> longest > MAX_PASTE + 1
    {
      InitialFits(longest);
      ReachableIsBounded(Initial, inputs, longest);
      FitsInPaste(Run(Initial, inputs).state, longest);
    }
    if longest > MAX_PASTE + 1 {
      var body: Text := seq(MAX_PASTE + 1, _ => 0x61);
      NoEscNoEnd(body);
      OpensOverCap(body);
      var inputs := [Chunk(PASTE_START[..5]), Chunk(PASTE_START[5..] + body)];
      assert ChunksWithin(inputs, longest) && PassesCap(inputs);
    }
  }

  lemma InitialFits(longest: nat)
    ensures Bounded(Initial, longest)
  {
    InitialIsBounded();
  }

  lemma FitsInPaste(st: State, longest: nat)
    requires Bounded(st, longest)
    ensures |st.pasteBuffer| <= Max(MAX_PASTE, longest - 1)
  {
  }

  lemma NoEscNoEnd(body: Text)
    requires forall i | 0 <= i < |body| :: body[i] != ESC
    ensures !Contains(body, PASTE_END)
  {
    forall i
      ensures !OccursAt(body, PASTE_END, i)
    {
      OccursChar(body, PASTE_END, i, 0);
      assert PASTE_END[0] == ESC;
    }
  }

  lemma StaysOpen(body: Text)
    requires !Contains(body, PASTE_END)
    ensures PasteTurn(body, None, false) == Turn([], State([], true, body, None), false)
  {
    NotFound(body, PASTE_END);
  }

  /** A start marker whose last character comes with the whole body: no cap is applied to it. */
  lemma OpensOverCap(body: Text)
    requires !Contains(body, PASTE_END)
    ensures Run(Initial, [Chunk(PASTE_START[..5]), Chunk(PASTE_START[5..] + body)]) == Outcome(State([], true, body, None), [])
  {
    hide FeedTurn, PasteTurn, IndexOf, OccursAt;
    var last := Chunk(PASTE_START[5..] + body);
    var waiting := Initial.(buffer := PASTE_START[..5]);
    StartGathers(5);
    StartOpens(body);
    StaysOpen(body);
    assert PASTE_START[..5] + (PASTE_START[5..] + body) == PASTE_START + body;
    assert Step(Initial, Chunk(PASTE_START[..5])) == Outcome(waiting, []) by {
      assert [] + PASTE_START[..5] == PASTE_START[..5];
    }
    assert Step(waiting, last) == Outcome(State([], true, body, None), []);
    hide Step;
    assert [Chunk(PASTE_START[..5]), last][1..] == [last] && [last][1..] == [];
    assert Run(waiting, [last]) == Outcome(State([], true, body, None), []);
  }

  // ---------------------------------------------------------------------------
  // Paste delivery

  function RunChunks(st: State, chunks: seq<Text>): Outcome
    decreases |chunks|
  {
    if chunks == [] then Outcome(st, [])
    else
      var first := ProcessChunk(st, chunks[0]);
      Then(first.events, RunChunks(first.state, chunks[1..]))
  }

  ghost predicate NoEmptyChunk(chunks: seq<Text>) {
    forall i | 0 <= i < |chunks| :: chunks[i] != []
  }

  lemma FirstIsUnique(s: Text, p: Text, i: int)
    requires OccursAt(s, p, i) && forall j | 0 <= j < i :: !OccursAt(s, p, j)
    ensures IndexOf(s, p, 0) == i
  {
  }

  /** The first occurrence does not move when the text grows on the right. */
  lemma IndexOfGrows(s: Text, more: Text, p: Text)
    requires IndexOf(s, p, 0) != -1
    ensures IndexOf(s + more, p, 0) == IndexOf(s, p, 0)
  {
    var e := IndexOf(s, p, 0);
    OccursAtShift([], s, more, p, e);
    assert [] + s + more == s + more;
    forall j | 0 <= j < e
      ensures !OccursAt(s + more, p, j)
    {
      assert j + |p| <= |s|;
      assert (s + more)[j..j + |p|] == s[j..j + |p|];
      assert !OccursAt(s, p, j);
    }
    FirstIsUnique(s + more, p, e);
  }

  /** An occurrence that only the whole text has ends beyond the part already there. */
  lemma FirstEndsLater(s: Text, more: Text, p: Text)
    requires IndexOf(s, p, 0) == -1 && IndexOf(s + more, p, 0) != -1
    ensures IndexOf(s + more, p, 0) + |p| > |s|
  {
    OccursInPrefix(s, more, p, IndexOf(s + more, p, 0));
  }

  /** What is left of the chunks behind their first `n` characters. */
  function DropUnits(chunks: seq<Text>, n: nat): seq<Text>
    decreases |chunks|
  {
    if chunks == [] then []
    else if n >= |chunks[0]| then DropUnits(chunks[1..], n - |chunks[0]|)
    else [chunks[0][n..]] + chunks[1..]
  }

  lemma {:induction false} DropNone(chunks: seq<Text>)
    requires NoEmptyChunk(chunks)
    ensures DropUnits(chunks, 0) == chunks
  {
    if chunks != [] {
      assert chunks[0][0..] == chunks[0] && chunks == [chunks[0]] + chunks[1..];
    }
  }

  /** Nothing but the first `n` characters is dropped. */
  lemma {:induction false} DropIsRest(chunks: seq<Text>, n: nat)
    requires n <= |Concat(chunks)| && NoEmptyChunk(chunks)
    ensures Concat(DropUnits(chunks, n)) == Concat(chunks)[n..] && NoEmptyChunk(DropUnits(chunks, n))
    decreases |chunks|
  {
    if chunks != [] {
      var c, rest := chunks[0], chunks[1..];
      if n >= |c| {
        DropIsRest(rest, n - |c|);
      } else {
        assert ([c[n..]] + rest)[1..] == rest;
      }
    }
  }

  /** However a paste is cut, what is delivered is the text before the first end marker of
      the whole input, as soon as that marker is complete; before that, nothing is. What follows
      the marker is handled as if it came to an idle buffer. */
  lemma {:induction false} PasteIsTextBeforeFirstEnd(st: State, chunks: seq<Text>)
    requires st.pasteMode && ValidState(st) && NoEmptyChunk(chunks)
    ensures var all := st.pasteBuffer + Concat(chunks);
      var e := IndexOf(all, PASTE_END, 0);
      if e != -1 then
        e + |PASTE_END| - 1 <= MAX_PASTE ==>
          && e + |PASTE_END| >= |st.pasteBuffer|
          && RunChunks(st, chunks) == Then([Paste(all[..e])], RunChunks(Initial, DropUnits(chunks, e + |PASTE_END| - |st.pasteBuffer|)))
      else
        |all| <= MAX_PASTE ==> RunChunks(st, chunks) == Outcome(st.(pasteBuffer := all), [])
    decreases |chunks|
  {
    hide IndexOf, OccursAt, ProcessChunk, Contains;
    var all := st.pasteBuffer + Concat(chunks);
    if chunks == [] {
      assert all == st.pasteBuffer;
      NotFound(all, PASTE_END);
    } else {
      var c, more := chunks[0], Concat(chunks[1..]);
      var sofar := st.pasteBuffer + c;
      assert all == sofar + more;
      NotFound(st.pasteBuffer, PASTE_END);
      var e := IndexOf(sofar, PASTE_END, 0);
      if e != -1 {
        IndexOfGrows(sofar, more, PASTE_END);
        FirstEndsLater(st.pasteBuffer, c, PASTE_END);
        OccursFits(sofar, PASTE_END, e);
        assert all[..e] == sofar[..e];
        PasteEnds(st, chunks, e);
      } else {
        if IndexOf(all, PASTE_END, 0) != -1 {
          FirstEndsLater(sofar, more, PASTE_END);
        }
        if |sofar| <= MAX_PASTE {
          PasteGoesOn(st, c);
          PasteIsTextBeforeFirstEnd(st.(pasteBuffer := sofar), chunks[1..]);
        }
      }
    }
  }

  lemma PasteGoesOn(st: State, c: Text)
    requires st.pasteMode && ValidState(st) && c != []
    requires IndexOf(st.pasteBuffer + c, PASTE_END, 0) == -1 && |st.pasteBuffer + c| <= MAX_PASTE
    ensures var next := st.(pasteBuffer := st.pasteBuffer + c);
      ProcessChunk(st, c) == Outcome(next, []) && ValidState(next)
  {
    assert st.buffer + c == c;
    NotFound(st.pasteBuffer + c, PASTE_END);
  }

  /** The chunk that takes an open paste past the cap ends it: what is delivered is the paste up to the cap,
      and the rest of the chunk is dropped. */
  lemma PasteOverCap(st: State, c: Text)
    requires st.pasteMode && ValidState(st) && c != [] && |st.pasteBuffer + c| > MAX_PASTE && !Contains(st.pasteBuffer + c, PASTE_END)
    ensures Step(st, Chunk(c)) == Outcome(Initial, [Paste((st.pasteBuffer + c)[..MAX_PASTE])])
  {
    assert st.buffer + c == c;
    NotFound(st.pasteBuffer + c, PASTE_END);
    hide Contains;
  }

  /** The chunk that completes the end marker: the paste is delivered, and the rest of the chunk goes to
      an idle buffer. */
  lemma PasteEnds(st: State, chunks: seq<Text>, e: nat)
    requires st.pasteMode && ValidState(st) && NoEmptyChunk(chunks) && chunks != []
    requires e == IndexOf(st.pasteBuffer + chunks[0], PASTE_END, 0) && |st.pasteBuffer| < e + |PASTE_END| <= |st.pasteBuffer + chunks[0]|
    ensures RunChunks(st, chunks) ==
      Then([Paste((st.pasteBuffer + chunks[0])[..e])], RunChunks(Initial, DropUnits(chunks, e + |PASTE_END| - |st.pasteBuffer|)))
  {
    hide IndexOf, Contains, RunChunks;
    var c, more := chunks[0], chunks[1..];
    var sofar := st.pasteBuffer + c;
    var n := e + |PASTE_END| - |st.pasteBuffer|;
    var rest := c[n..];
    assert st.buffer + c == c && sofar[e + |PASTE_END|..] == rest;
    var events := [Paste(sofar[..e])];
    assert FeedTurn(st.(buffer := c)) == Turn(events, Initial.(buffer := rest), rest != []);
    hide FeedTurn;
    FirstOfRun(st, chunks);
    if rest == [] {
      DropNone(more);
      assert ProcessChunk(st, c) == Outcome(Initial, events);
    } else {
      assert [] + rest == rest;
      assert ProcessChunk(st, c) == Then(events, ProcessChunk(Initial, rest));
      hide ProcessChunk;
      assert ([rest] + more)[0] == rest && ([rest] + more)[1..] == more;
      FirstOfRun(Initial, [rest] + more);
      ThenThen(events, ProcessChunk(Initial, rest).events, RunChunks(ProcessChunk(Initial, rest).state, more));
    }
  }

  lemma FirstOfRun(st: State, chunks: seq<Text>)
    requires chunks != []
    ensures var first := ProcessChunk(st, chunks[0]);
      RunChunks(st, chunks) == Then(first.events, RunChunks(first.state, chunks[1..]))
  {
  }

  lemma ThenThen(a: seq<Event>, b: seq<Event>, r: Outcome)
    ensures Then(a + b, r) == Then(a, Then(b, r))
  {
    assert a + b + r.events == a + (b + r.events);
  }

  /** A prefix of the start marker is an incomplete sequence: it waits in the buffer. */
  lemma StartPrefixWaits(k: nat)
    requires k < |PASTE_START|
    ensures Irreducible(PASTE_START[..k])
  {
    var s := PASTE_START[..k];
    if k > 0 {
      forall j | 1 <= j <= k
        ensures IsCompleteSequence(s[..j]) == Incomplete
      {
        assert s[..j] == PASTE_START[..j];
        StartPrefixIncomplete(j);
      }
      NoneComplete(s, 1, k);
      ExtractHeld(s);
    }
  }

  lemma StartPrefixIncomplete(j: nat)
    requires 1 <= j < |PASTE_START|
    ensures IsCompleteSequence(PASTE_START[..j]) == Incomplete
  {
    var data := PASTE_START[..j];
    if j > 1 {
      assert data[1..][0] == LBRACKET;
      if j > 2 {
        var payload := data[2..];
        assert payload[|payload| - 1] == PASTE_START[j - 1];
        assert 0x30 <= PASTE_START[j - 1] <= 0x32;
      }
    }
  }

  lemma {:induction false} NoneComplete(s: Text, k: nat, limit: nat)
    requires limit <= |s| && k <= limit + 1
    requires forall j | k <= j <= limit :: IsCompleteSequence(s[..j]) == Incomplete
    ensures ScanEnd(s, k, limit) == limit + 1
    decreases limit + 1 - k
  {
    hide IsCompleteSequence;
    if k <= limit {
      NoneComplete(s, k + 1, limit);
    }
  }

  lemma ShortLacks(s: Text, p: Text)
    requires |s| < |p|
    ensures IndexOf(s, p, 0) == -1
  {
  }

  /** ESC occurs only at the front of the end marker, so the marker after a body that does
      not contain it is found exactly where the body ends. */
  lemma EndAfterBody(body: Text)
    requires !Contains(body, PASTE_END)
    ensures IndexOf(body + PASTE_END, PASTE_END, 0) == |body|
  {
    var all := body + PASTE_END;
    OccursAppended(body, PASTE_END);
    hide OccursAt;
    forall j | 0 <= j < |body|
      ensures !OccursAt(all, PASTE_END, j)
    {
      NoEarlyEnd(body, j);
    }
    FirstIsUnique(all, PASTE_END, |body|);
  }

  lemma OccursAppended(s: Text, p: Text)
    ensures OccursAt(s + p, p, |s|)
  {
    assert (s + p)[|s|..|s| + |p|] == p;
  }

  lemma OccursChar(s: Text, p: Text, i: int, k: nat)
    requires k < |p|
    ensures OccursAt(s, p, i) ==> s[i + k] == p[k]
  {
    if OccursAt(s, p, i) {
      assert s[i..i + |p|][k] == s[i + k];
    }
  }

  lemma NoEarlyEnd(body: Text, j: nat)
    requires j < |body| && !Contains(body, PASTE_END)
    ensures !OccursAt(body + PASTE_END, PASTE_END, j)
  {
    OccursInPrefix(body, PASTE_END, PASTE_END, j);
    assert !OccursAt(body, PASTE_END, j);
    if j + |PASTE_END| > |body| {
      OccursChar(body + PASTE_END, PASTE_END, j, |body| - j);
      assert PASTE_END[|body| - j] != ESC;
      assert (body + PASTE_END)[|body|] == ESC;
    }
  }

  lemma StartGathers(k: nat)
    requires k < |PASTE_START|
    ensures var fed := Initial.(buffer := PASTE_START[..k]);
      FeedTurn(fed) == Turn([], fed, false)
  {
    ShortLacks(PASTE_START[..k], PASTE_START);
    StartPrefixWaits(k);
    hide Extract;
  }

  lemma StartOpens(inside: Text)
    ensures FeedTurn(Initial.(buffer := PASTE_START + inside)) == PasteTurn(inside, None, false)
  {
    var text := PASTE_START + inside;
    assert text[0..|PASTE_START|] == PASTE_START;
    FirstIsUnique(text, PASTE_START, 0);
    assert text[..0] == [] && text[|PASTE_START|..] == inside;
    assert Extract([]) == Extraction([], []);
    hide Extract, PasteTurn;
    var t := PasteTurn(inside, None, false);
    assert [] + t.events == t.events;
  }

  // ---------------------------------------------------------------------------
  // What is lost, and what comes from nothing

  /** What precedes a paste is delivered up to its incomplete end, which is lost: nothing is lost
      exactly when no sequence is left incomplete right before the marker. */
  lemma LostBeforePaste(st: State, prefix: Text, inside: Text)
    requires !st.pasteMode && st.buffer == prefix + PASTE_START + inside
    requires IndexOf(st.buffer, PASTE_START, 0) == |prefix|
    ensures var r := Extract(prefix);
      var t := PasteTurn(inside, None, false);
      && FeedTurn(st) == t.(events := EmitAll(st.pending, r.sequences).events + t.events)
      && prefix == Concat(r.sequences) + r.remainder
      && (Concat(r.sequences) == prefix <==> r.remainder == [])
      && (r.remainder != [] ==> Front(r.remainder) == Hold)
  {
    ExtractLossless(prefix);
    HeldRemainder(prefix);
    assert st.buffer[..|prefix|] == prefix && st.buffer[|prefix| + |PASTE_START|..] == inside;
    hide Extract, EmitAll, PasteTurn, Front;
  }

  lemma HeldRemainder(s: Text)
    ensures Extract(s).remainder != [] ==> Front(Extract(s).remainder) == Hold
  {
    ExtractLossless(s);
    hide Front;
  }

  /** ESC `[` right before a paste: the paste arrives, and nothing of these two characters does. */
  lemma EscapeBeforePasteIsLost(body: Text)
    requires !Contains(body, PASTE_END)
    ensures Step(Initial, Chunk([ESC, LBRACKET] + PASTE_START + (body + PASTE_END))) == Outcome(Initial, [Paste(body)])
  {
    hide Extract, FeedTurn, PasteTurn, OccursAt, IndexOf, Front;
    var prefix: Text := [ESC, LBRACKET];
    var inside := body + PASTE_END;
    var st := Initial.(buffer := prefix + PASTE_START + inside);
    assert Initial.buffer + st.buffer == st.buffer;
    StartAfterEscape(inside);
    LostBeforePaste(st, prefix, inside);
    assert prefix == PASTE_START[..2];
    StartPrefixWaits(2);
    WholePasteTurn(body);
    assert EmitAll(None, []) == Emission([], None);
    hide EmitAll;
    assert [] + [Paste(body)] == [Paste(body)];
    assert FeedTurn(st) == Turn([Paste(body)], Initial, false);
  }

  lemma StartAfterEscape(inside: Text)
    ensures IndexOf([ESC, LBRACKET] + PASTE_START + inside, PASTE_START, 0) == 2
  {
    var prefix: Text := [ESC, LBRACKET];
    var s := prefix + PASTE_START + inside;
    assert s[2..2 + |PASTE_START|] == PASTE_START;
    assert s[0] != s[1] && s[2] != PASTE_START[2] && s[1] != PASTE_START[0];
    OccursChar(s, PASTE_START, 0, 2);
    OccursChar(s, PASTE_START, 1, 0);
    hide OccursAt;
    FirstIsUnique(s, PASTE_START, 2) by {
      assert OccursAt(s, PASTE_START, 2);
    }
  }

  lemma WholePasteTurn(body: Text)
    requires !Contains(body, PASTE_END)
    ensures PasteTurn(body + PASTE_END, None, false) == Turn([Paste(body)], Initial, false)
  {
    var inside := body + PASTE_END;
    EndAfterBody(body);
    assert inside[..|body|] == body && inside[|body| + |PASTE_END|..] == [];
  }

  /** An empty key event comes from an empty chunk on an empty buffer, and from nothing else. */
  lemma EmptyKeyEvent(st: State, input: Input)
    ensures Data([]) in Step(st, input).events <==> input == Chunk([]) && st.buffer == []
  {
    if input.Chunk? && !(input.text == [] && st.buffer == []) {
      FeedHasNoEmptyKey(st.(buffer := st.buffer + input.text));
    }
    hide Feed;
  }

  lemma {:induction false} FeedHasNoEmptyKey(st: State)
    ensures Data([]) !in Feed(st).events
    decreases Size(st)
  {
    TurnHasNoEmptyKey(st);
    hide FeedTurn;
    var t := FeedTurn(st);
    if t.again {
      FeedHasNoEmptyKey(t.after);
    }
  }

  lemma TurnHasNoEmptyKey(st: State)
    ensures Data([]) !in FeedTurn(st).events
  {
    hide Extract, EmitAll, PasteTurn, OccursAt;
    var i := IndexOf(st.buffer, PASTE_START, 0);
    PastesAreNotKeys(st.pasteBuffer + st.buffer, st.pending, true);
    if i != -1 {
      OccursFits(st.buffer, PASTE_START, i);
      PastesAreNotKeys(st.buffer[i + |PASTE_START|..], None, false);
      NoEmptyKey(st.pending, st.buffer[..i]);
    }
    NoEmptyKey(st.pending, st.buffer);
  }

  lemma PastesAreNotKeys(all: Text, pending: Option<nat>, capped: bool)
    ensures Data([]) !in PasteTurn(all, pending, capped).events
  {
  }

  lemma NoEmptyKey(pending: Option<nat>, text: Text)
    ensures Data([]) !in EmitAll(pending, Extract(text).sequences).events
  {
    ExtractLossless(text);
    hide Extract;
    NoEmptyData(pending, Extract(text).sequences);
  }

  lemma {:induction false} NoEmptyData(pending: Option<nat>, sequences: seq<Text>)
    requires [] !in sequences
    ensures Data([]) !in EmitAll(pending, sequences).events
    decreases |sequences|
  {
    if sequences != [] {
      NoEmptyData(EmitOne(pending, sequences[0]).pending, sequences[1..]);
    }
  }

  /** When the timer fires, whatever waits is delivered as one key, never taken for a repeat, and
      nothing waits any more. */
  lemma TimerDelivers(st: State)
    requires ValidState(st)
    ensures st.buffer == [] ==> Step(st, Timeout) == Outcome(st, [])
    ensures st.buffer != [] ==> Step(st, Timeout) == Outcome(State([], false, [], ParseKittyPrintable(st.buffer)), [Data(st.buffer)])
  {
    hide Extract, ParseKittyPrintable, Contains;
  }

  /** The Escape key alone: it waits, since it may begin a sequence, and comes out when the timer fires. */
  lemma LoneEscape()
    ensures Run(Initial, [Chunk([ESC])]) == Outcome(Initial.(buffer := [ESC]), [])
    ensures Run(Initial, [Chunk([ESC]), Timeout]) == Outcome(Initial, [Data([ESC])])
  {
    hide FeedTurn, ParseKittyPrintable;
    var chunk := Chunk([ESC]);
    var waiting := Initial.(buffer := [ESC]);
    assert PASTE_START[..1] == [ESC] && [] + chunk.text == chunk.text;
    StartGathers(1);
    assert Step(Initial, chunk) == Outcome(waiting, []);
    StartPrefixWaits(1);
    assert !Contains([ESC], PASTE_START) by {
      ShortLacks([ESC], PASTE_START);
      NotFound([ESC], PASTE_START);
    }
    TimerDelivers(waiting);
    OneUnitReportsNothing([ESC]);
    hide Step;
    assert [chunk][1..] == [] && [chunk, Timeout][1..] == [Timeout] && [Timeout][1..] == [];
    assert Run(waiting, [Timeout]) == Outcome(Initial, [Data([ESC])] + []);
  }

  // ---------------------------------------------------------------------------
  // Keys: chunk invariance up to the suppressed repeats

  lemma {:induction false} EmitAllAppend(pending: Option<nat>, a: seq<Text>, b: seq<Text>)
    ensures var first := EmitAll(pending, a);
      var second := EmitAll(first.pending, b);
      EmitAll(pending, a + b) == Emission(first.events + second.events, second.pending)
    decreases |a|
  {
    hide EmitOne;
    if a == [] {
      assert a + b == b;
    } else {
      assert (a + b)[1..] == a[1..] + b;
      var one := EmitOne(pending, a[0]);
      EmitAllAppend(one.pending, a[1..], b);
      var first := EmitAll(one.pending, a[1..]);
      var second := EmitAll(first.pending, b);
      assert one.events + (first.events + second.events) == one.events + first.events + second.events;
    }
  }

  /** A sequence is swallowed exactly when it is one unit that repeats the code point
      reported by the sequence right before it. */
  predicate IsSwallowed(sequences: seq<Text>, i: nat)
    requires i < |sequences|
  {
    i > 0 && |sequences[i]| == 1 && ParseKittyPrintable(sequences[i - 1]) == Some(sequences[i][0] as int)
  }

  function Delivered(sequences: seq<Text>, n: nat): seq<Event>
    requires n <= |sequences|
  {
    if n == 0 then []
    else Delivered(sequences, n - 1) + if IsSwallowed(sequences, n - 1) then [] else [Data(sequences[n - 1])]
  }

  lemma OneUnitReportsNothing(sequence: Text)
    requires |sequence| <= 1
    ensures ParseKittyPrintable(sequence) == None
  {
  }

  /** After a quiet state, the pending code point is always the last sequence's report. */
  lemma {:induction false} DeliveredIsEmitted(sequences: seq<Text>, n: nat)
    requires n <= |sequences|
    ensures EmitAll(None, sequences[..n]) ==
      Emission(Delivered(sequences, n), if n == 0 then None else ParseKittyPrintable(sequences[n - 1]))
  {
    hide ParseKittyPrintable;
    if n > 0 {
      DeliveredIsEmitted(sequences, n - 1);
      var q := sequences[n - 1];
      assert sequences[..n] == sequences[..n - 1] + [q];
      var pending := EmitAll(None, sequences[..n - 1]).pending;
      EmitAllAppend(None, sequences[..n - 1], [q]);
      assert EmitAll(pending, [q]) == EmitOne(pending, q) by {
        assert [q][1..] == [];
      }
      if |q| <= 1 {
        OneUnitReportsNothing(q);
      }
    }
  }

  /** Outside a paste, the key events of any run of chunks are those of the whole input
      tokenized at once, unless a chunk ends right after ESC ESC. */
  lemma {:induction false} KeysDoNotDependOnChunks(st: State, chunks: seq<Text>)
    requires ValidState(st) && !st.pasteMode && NoEmptyChunk(chunks)
    requires HarmlessCuts(st.buffer, chunks)
    requires !Contains(st.buffer + Concat(chunks), PASTE_START)
    ensures var r := Extract(st.buffer + Concat(chunks));
      var out := EmitAll(st.pending, r.sequences);
      RunChunks(st, chunks) == Outcome(State(r.remainder, false, [], out.pending), out.events)
  {
    KeysChunkByChunk(st, chunks);
    ChunksInvariance(st.buffer, chunks);
  }

  lemma {:induction false} KeysChunkByChunk(st: State, chunks: seq<Text>)
    requires ValidState(st) && !st.pasteMode && NoEmptyChunk(chunks)
    requires !Contains(st.buffer + Concat(chunks), PASTE_START)
    ensures var r := ExtractChunks(st.buffer, chunks);
      var out := EmitAll(st.pending, r.sequences);
      RunChunks(st, chunks) == Outcome(State(r.remainder, false, [], out.pending), out.events)
    decreases |chunks|
  {
    if chunks != [] {
      var joined := st.buffer + chunks[0];
      var rest := Concat(chunks[1..]);
      assert st.buffer + Concat(chunks) == joined + rest;
      var r := Extract(joined);
      OneChunkOfKeys(st, chunks[0], rest);
      var next := ProcessChunk(st, chunks[0]).state;
      KeysChunkByChunk(next, chunks[1..]);
      hide Extract, EmitAll, ProcessChunk;
      EmitAllAppend(st.pending, r.sequences, ExtractChunks(r.remainder, chunks[1..]).sequences);
    }
  }

  lemma OneChunkOfKeys(st: State, chunk: Text, rest: Text)
    requires ValidState(st) && !st.pasteMode && chunk != []
    requires !Contains(st.buffer + chunk + rest, PASTE_START)
    ensures var r := Extract(st.buffer + chunk);
      var out := EmitAll(st.pending, r.sequences);
      var next := State(r.remainder, false, [], out.pending);
      && ProcessChunk(st, chunk) == Outcome(next, out.events)
      && ValidState(next)
      && !Contains(r.remainder + rest, PASTE_START)
  {
    var joined := st.buffer + chunk;
    var r := Extract(joined);
    ExtractLossless(joined);
    StepIsValid(st, Chunk(chunk));
    SuffixLacks(joined, rest, Concat(r.sequences), r.remainder);
    NotFound(joined, PASTE_START);
    hide Extract, EmitAll;
  }

  lemma SuffixLacks(joined: Text, rest: Text, emitted: Text, remainder: Text)
    requires !Contains(joined + rest, PASTE_START) && joined == emitted + remainder
    ensures !Contains(joined, PASTE_START) && !Contains(remainder + rest, PASTE_START)
  {
    var all := joined + rest;
    assert all[0..|joined|] == joined;
    PartLacks(all, 0, |joined|, PASTE_START);
    assert all[|emitted|..|all|] == remainder + rest;
    PartLacks(all, |emitted|, |all|, PASTE_START);
  }

  // ---------------------------------------------------------------------------
  // Kitty reports

  function Decimal(n: nat): (s: Text)
    ensures AllDigits(s)
  {
    if n < 10 then [(0x30 + n) as CodeUnit] else Decimal(n / 10) + [(0x30 + n % 10) as CodeUnit]
  }

  lemma {:induction false} DecimalValue(n: nat)
    ensures DigitsValue(Decimal(n)) == n
    decreases n
  {
    if n < 10 {
      assert Decimal(n)[..0] == [];
    } else {
      DecimalValue(n / 10);
      assert Decimal(n)[..|Decimal(n)| - 1] == Decimal(n / 10);
    }
  }

  /** The fields between the code point and the final u: none, or one that may be empty, or one more. */
  datatype Fields = NoField | OneField(first: Text) | TwoFields(first: Text, second: Text)

  predicate AreFields(fields: Fields) {
    match fields
    case NoField => true
    case OneField(first) => first == [] || AllDigits(first)
    case TwoFields(first, second) => (first == [] || AllDigits(first)) && AllDigits(second)
  }

  function FieldsText(fields: Fields): Text {
    match fields
    case NoField => [LOWER_U]
    case OneField(first) => [COLON] + first + [LOWER_U]
    case TwoFields(first, second) => [COLON] + first + [COLON] + second + [LOWER_U]
  }

  lemma RunsTo(a: Text, p: Text, c: CodeUnit, b: Text)
    requires (p == [] || AllDigits(p)) && !IsDigit(c)
    ensures var s := a + p + [c] + b;
      DigitsEnd(s, |a|) == |a| + |p| && s[|a| + |p|] == c
  {
    if p == [] {
      var s := a + p + [c] + b;
      assert s[|a|] == c;
    } else {
      RunThen(a, p, c, b);
    }
  }

  lemma TailIsRead(a: Text, fields: Fields)
    requires AreFields(fields)
    ensures IsKittyTail(a + FieldsText(fields), |a|)
  {
    match fields
    case NoField =>
    case OneField(first) =>
      OneFieldIsRead(a, first);
    case TwoFields(first, second) =>
      TwoFieldsAreRead(a, first, second);
  }

  lemma OneFieldIsRead(a: Text, first: Text)
    requires first == [] || AllDigits(first)
    ensures IsKittyTail(a + ([COLON] + first + [LOWER_U]), |a|)
  {
    hide AllDigits, DigitsEnd;
    var s := a + ([COLON] + first + [LOWER_U]);
    RunsTo(a + [COLON], first, LOWER_U, []);
    assert s == a + [COLON] + first + [LOWER_U] + [];
  }

  lemma TwoFieldsAreRead(a: Text, first: Text, second: Text)
    requires (first == [] || AllDigits(first)) && AllDigits(second)
    ensures IsKittyTail(a + ([COLON] + first + [COLON] + second + [LOWER_U]), |a|)
  {
    assert |second| > 0;
    hide AllDigits, DigitsEnd;
    var s := a + ([COLON] + first + [COLON] + second + [LOWER_U]);
    RunsTo(a + [COLON], first, COLON, second + [LOWER_U]);
    RunsTo(a + [COLON] + first + [COLON], second, LOWER_U, []);
    assert s == a + [COLON] + first + [COLON] + (second + [LOWER_U]);
    assert s == a + [COLON] + first + [COLON] + second + [LOWER_U] + [];
  }

  lemma SameParts(intro: Text, digits: Text, tail: Text)
    requires tail != []
    ensures var s := intro + digits + tail;
      s[|intro|..|intro| + |digits|] == digits && s == intro + digits + [tail[0]] + tail[1..] && StartsWith(s, intro)
  {
    var s := intro + digits + tail;
    assert tail == [tail[0]] + tail[1..];
    assert s[..|intro|] == intro;
  }

  lemma TailStarts(fields: Fields)
    ensures FieldsText(fields) != [] && !IsDigit(FieldsText(fields)[0])
  {
  }

  /** Every report in the form of the terminal is read, with its code point if that is printable. */
  lemma ReportIsRead(digits: Text, fields: Fields)
    requires AllDigits(digits) && AreFields(fields)
    ensures var n := DigitsValue(digits);
      ParseKittyPrintable([ESC, LBRACKET] + digits + FieldsText(fields)) == if n >= 32 then Some(n) else None
  {
    var intro: Text := [ESC, LBRACKET];
    var tail := FieldsText(fields);
    assert |digits| > 0;
    hide IsKittyTail, DigitsValue, DigitsEnd, FieldsText, AllDigits, IsDigit, AreFields, StartsWith;
    TailStarts(fields);
    TailIsRead(intro + digits, fields);
    SameParts(intro, digits, tail);
    RunThen(intro, digits, tail[0], tail[1..]);
  }

  lemma InThree(s: Text, i: nat, j: nat)
    requires i <= j <= |s|
    ensures s == s[..i] + s[i..j] + s[j..]
  {
  }

  /** And nothing else is read as one. */
  lemma ReadIsReport(s: Text, n: nat) returns (digits: Text, fields: Fields)
    requires ParseKittyPrintable(s) == Some(n)
    ensures AllDigits(digits) && AreFields(fields) && s == [ESC, LBRACKET] + digits + FieldsText(fields)
    ensures n == DigitsValue(digits) && n >= 32
  {
    var e := DigitsEnd(s, 2);
    assert s[..2] == [ESC, LBRACKET];
    digits := s[2..e];
    hide IsKittyTail, DigitsValue, AreFields, FieldsText, DigitsEnd;
    fields := TailIsReport(s, e);
    InThree(s, 2, e);
  }

  lemma TailIsReport(s: Text, e: nat) returns (fields: Fields)
    requires e <= |s| && IsKittyTail(s, e)
    ensures AreFields(fields) && s[e..] == FieldsText(fields)
  {
    if s[e] == LOWER_U {
      return NoField;
    }
    var f := DigitsEnd(s, e + 1);
    if s[f] == LOWER_U {
      assert s[e..] == [s[e]] + s[e + 1..f] + [s[f]];
      return OneField(s[e + 1..f]);
    }
    var g := DigitsEnd(s, f + 1);
    assert s[e..] == [s[e]] + s[e + 1..f] + [s[f]] + s[f + 1..g] + [s[g]];
    fields := TwoFields(s[e + 1..f], s[f + 1..g]);
  }

  /** The unmodified report of a code point is read back exactly when the code point is printable. */
  lemma KittyRoundTrip(n: nat)
    ensures ParseKittyPrintable([ESC, LBRACKET] + Decimal(n) + [LOWER_U]) == if n >= 32 then Some(n) else None
  {
    var intro: Text := [ESC, LBRACKET];
    var s := intro + Decimal(n) + [LOWER_U];
    assert s == intro + Decimal(n) + [LOWER_U] + [];
    RunThen(intro, Decimal(n), LOWER_U, []);
    assert s[2..2 + |Decimal(n)|] == Decimal(n);
    DecimalValue(n);
  }
}
