/** Streams of keys and pastes: everything is delivered in order, what follows a paste as well, and
    which cuts of the input change what is delivered. */
module PasteTheorems {
  import opened Integers
  import opened Options
  import opened Utf16
  import opened EscapeSequences
  import opened TokenizerTheorems
  import opened StdinBuffers
  import opened StdinTheorems

  /** Keys, then the start marker of a paste that ends and fits. `inner` is all that follows the marker. */
  ghost predicate KeysAndPaste(all: Text, prefix: Text, inner: Text) {
    && all == prefix + PASTE_START + inner && IndexOf(all, PASTE_START, 0) == |prefix|
    && 0 <= IndexOf(inner, PASTE_END, 0) <= MAX_PASTE - |PASTE_END| + 1
  }

  /** The text up to the first end marker. */
  function BodyOf(inner: Text): Text {
    var e := IndexOf(inner, PASTE_END, 0);
    if e == -1 then inner else inner[..e]
  }

  /** How far the paste goes, its end marker included. */
  function PasteLength(inner: Text): nat {
    Max(IndexOf(inner, PASTE_END, 0), 0) + |PASTE_END|
  }

  function Expected(pending: Option<nat>, prefix: Text, body: Text): seq<Event> {
    EmitAll(pending, Extract(prefix).sequences).events + [Paste(body)]
  }

  /** Of the cuts up to the end of the start marker, those before it are harmless to the keys, and at
      those inside it the marker's part waits and adds no key. `carried` waits in the buffer before the
      chunks; `prefix` is what precedes the marker, `carried` included. */
  ghost predicate CutsKeepKeys(pending: Option<nat>, carried: Text, chunks: seq<Text>, prefix: Text)
    decreases |chunks|
  {
    chunks == [] ||
    var text := carried + chunks[0];
    var r := Extract(text);
    var out := EmitAll(pending, r.sequences);
    if |text| <= |prefix| then
      !CutsEscEsc(text, prefix[|text|..]) && CutsKeepKeys(out.pending, r.remainder, chunks[1..], r.remainder + prefix[|text|..])
    else
      || |text| >= |prefix| + |PASTE_START|
      || (AddsNoKey(pending, text, prefix) && CutsKeepKeys(out.pending, r.remainder, chunks[1..], BeforeMarker(text, prefix)))
  }

  /** The marker's part at the end of `text` waits in the buffer, and the keys are those before it. */
  predicate AddsNoKey(pending: Option<nat>, text: Text, prefix: Text)
    requires |prefix| <= |text|
  {
    && |Extract(text).remainder| >= |text| - |prefix|
    && EmitAll(pending, Extract(text).sequences).events == EmitAll(pending, Extract(prefix).sequences).events
  }

  /** What waits in the buffer before the marker's part. */
  function BeforeMarker(text: Text, prefix: Text): Text
    requires |prefix| <= |text| && |Extract(text).remainder| >= |text| - |prefix|
  {
    var waiting := Extract(text).remainder;
    waiting[..|waiting| - (|text| - |prefix|)]
  }

  /** No report says ESC, so a lone ESC is never taken for the repeat of one. */
  predicate Printable(pending: Option<nat>) {
    pending.Some? ==> pending.value >= 32
  }

  /** If the cuts keep the keys, the keys and the paste are delivered and what follows is handled as if it
      came to an idle buffer; otherwise something else is delivered. */
  ghost predicate Delivers(st: State, chunks: seq<Text>, prefix: Text, inner: Text) {
    var expected := Expected(st.pending, prefix, BodyOf(inner));
    && |st.buffer| < |prefix| + |PASTE_START|
    && if CutsKeepKeys(st.pending, st.buffer, chunks, prefix) then
         var n := |prefix| + |PASTE_START| + PasteLength(inner) - |st.buffer|;
         RunChunks(st, chunks) == Then(expected, RunChunks(Initial, DropUnits(chunks, n)))
       else !(expected <= RunChunks(st, chunks).events)
  }

  /** Keys and then a paste, cut into any chunks. */
  lemma {:induction false} KeysCutUp(st: State, chunks: seq<Text>, prefix: Text, inner: Text)
    requires ValidState(st) && !st.pasteMode && Printable(st.pending) && NoEmptyChunk(chunks)
    requires KeysAndPaste(st.buffer + Concat(chunks), prefix, inner)
    ensures Delivers(st, chunks, prefix, inner)
    decreases |chunks|
  {
    MarkerIsToCome(st, chunks, prefix, inner);
    hide Extract, EmitAll, ProcessChunk, ValidState, KeysAndPaste, AddsNoKey, BeforeMarker, Delivers, RunChunks, NoEmptyChunk;
    var text, rest := st.buffer + chunks[0], chunks[1..];
    TakeFirst(st.buffer, chunks);
    if |text| >= |prefix| + |PASTE_START| {
      MarkerDelivers(st, chunks, prefix, inner);
    } else {
      MarkerNotComplete(st, chunks[0], Concat(rest), prefix, inner);
      var r := Extract(text);
      var next := State(r.remainder, false, [], EmitAll(st.pending, r.sequences).pending);
      if |text| <= |prefix| {
        var more := prefix[|text|..];
        assert prefix == text + more;
        CutInKeys(text, more, Concat(rest), inner);
        KeysCutUp(next, rest, r.remainder + more, inner);
        OneCutInKeys(st, chunks, prefix, inner, next);
      } else {
        if AddsNoKey(st.pending, text, prefix) {
          CutInMarker(text, Concat(rest), prefix, inner);
          KeysCutUp(next, rest, BeforeMarker(text, prefix), inner);
        }
        OneCutInMarker(st, chunks, prefix, inner, next);
      }
    }
  }

  lemma TakeFirst(buffer: Text, chunks: seq<Text>)
    requires chunks != [] && NoEmptyChunk(chunks)
    ensures chunks[0] != [] && NoEmptyChunk(chunks[1..]) && buffer + Concat(chunks) == buffer + chunks[0] + Concat(chunks[1..])
  {
    JoinFirst(buffer, chunks);
  }

  lemma MarkerDelivers(st: State, chunks: seq<Text>, prefix: Text, inner: Text)
    requires ValidState(st) && !st.pasteMode && NoEmptyChunk(chunks) && chunks != []
    requires KeysAndPaste(st.buffer + Concat(chunks), prefix, inner)
    requires |st.buffer| < |prefix| + |PASTE_START| <= |st.buffer + chunks[0]|
    ensures Delivers(st, chunks, prefix, inner)
  {
    hide Extract, EmitAll, ProcessChunk, ValidState, KeysAndPaste, Expected, BodyOf, PasteLength, RunChunks, Then, DropUnits, CutsKeepKeys;
    MarkerComes(st, chunks, prefix, inner);
    CutsKeepAt(st.pending, st.buffer, chunks, prefix);
  }

  lemma CutsKeepAt(pending: Option<nat>, carried: Text, chunks: seq<Text>, prefix: Text)
    requires chunks != []
    ensures var text := carried + chunks[0];
      var r := Extract(text);
      var out := EmitAll(pending, r.sequences);
      CutsKeepKeys(pending, carried, chunks, prefix) <==>
        if |text| <= |prefix| then
          !CutsEscEsc(text, prefix[|text|..]) && CutsKeepKeys(out.pending, r.remainder, chunks[1..], r.remainder + prefix[|text|..])
        else
          || |text| >= |prefix| + |PASTE_START|
          || (AddsNoKey(pending, text, prefix) && CutsKeepKeys(out.pending, r.remainder, chunks[1..], BeforeMarker(text, prefix)))
  {
    hide Extract, EmitAll, CutsEscEsc, AddsNoKey, BeforeMarker;
  }

  lemma OneCutInKeys(st: State, chunks: seq<Text>, prefix: Text, inner: Text, next: State)
    requires chunks != [] && Printable(st.pending) && |st.buffer + chunks[0]| <= |prefix|
    requires prefix == st.buffer + chunks[0] + prefix[|st.buffer + chunks[0]|..]
    requires var r := Extract(st.buffer + chunks[0]);
      var out := EmitAll(st.pending, r.sequences);
      && next == State(r.remainder, false, [], out.pending) && ProcessChunk(st, chunks[0]) == Outcome(next, out.events)
      && Delivers(next, chunks[1..], r.remainder + prefix[|st.buffer + chunks[0]|..], inner)
    ensures Delivers(st, chunks, prefix, inner)
  {
    hide Extract, EmitAll, ProcessChunk, CutsEscEsc, Expected, BodyOf, PasteLength, RunChunks, CutsKeepKeys;
    FirstOfRun(st, chunks);
    CutsKeepAt(st.pending, st.buffer, chunks, prefix);
    var text := st.buffer + chunks[0];
    CutInKeysChanges(st.pending, text, prefix[|text|..], BodyOf(inner), RunChunks(next, chunks[1..]));
  }

  lemma WaitingLength(pending: Option<nat>, text: Text, prefix: Text)
    requires |prefix| <= |text|
    ensures AddsNoKey(pending, text, prefix) ==> |BeforeMarker(text, prefix)| == |Extract(text).remainder| - (|text| - |prefix|)
  {
    hide Extract, EmitAll;
  }

  lemma OneCutInMarker(st: State, chunks: seq<Text>, prefix: Text, inner: Text, next: State)
    requires chunks != [] && |prefix| < |st.buffer + chunks[0]| < |prefix| + |PASTE_START|
    requires KeysAndPaste(st.buffer + chunks[0] + Concat(chunks[1..]), prefix, inner)
    requires var r := Extract(st.buffer + chunks[0]);
      var out := EmitAll(st.pending, r.sequences);
      && next == State(r.remainder, false, [], out.pending) && ProcessChunk(st, chunks[0]) == Outcome(next, out.events)
      && (AddsNoKey(st.pending, st.buffer + chunks[0], prefix) ==>
           Delivers(next, chunks[1..], BeforeMarker(st.buffer + chunks[0], prefix), inner))
    ensures Delivers(st, chunks, prefix, inner)
  {
    hide Extract, EmitAll, ProcessChunk, Expected, BodyOf, PasteLength, RunChunks, KeysAndPaste, AddsNoKey, BeforeMarker, CutsKeepKeys;
    FirstOfRun(st, chunks);
    var text := st.buffer + chunks[0];
    WaitingLength(st.pending, text, prefix);
    CutsKeepAt(st.pending, st.buffer, chunks, prefix);
    CutInMarkerChanges(st.pending, text, Concat(chunks[1..]), prefix, inner, RunChunks(next, chunks[1..]));
  }

  lemma MarkerIsToCome(st: State, chunks: seq<Text>, prefix: Text, inner: Text)
    requires ValidState(st) && !st.pasteMode && KeysAndPaste(st.buffer + Concat(chunks), prefix, inner)
    ensures |st.buffer| < |prefix| + |PASTE_START| && chunks != []
  {
    hide Extract;
    NotFound(st.buffer, PASTE_START);
    FirstEndsLater(st.buffer, Concat(chunks), PASTE_START);
    if chunks == [] {
      EmptyIsBuffer(st.buffer, chunks);
      assert false;
    }
  }

  lemma EmptyIsBuffer(buffer: Text, chunks: seq<Text>)
    requires chunks == []
    ensures buffer + Concat(chunks) == buffer
  {
  }

  // ---------------------------------------------------------------------------
  // The chunk that completes the marker, and those before it

  /** A paste was opened and nothing of it has arrived. */
  const Open := State([], true, [], None)

  /** The chunks with `first` before them, if it is not empty. */
  function Glue(first: Text, chunks: seq<Text>): seq<Text> {
    if first == [] then chunks else [first] + chunks
  }

  lemma DropGlued(a: Text, b: Text, chunks: seq<Text>, k: nat)
    requires NoEmptyChunk(chunks)
    ensures DropUnits(Glue(a + b, chunks), |a| + k) == DropUnits(Glue(b, chunks), k)
  {
    GluedDrop(a + b, chunks, |a| + k);
    GluedDrop(b, chunks, k);
    hide DropUnits, Glue;
    if k < |b| {
      assert (a + b)[|a| + k..] == b[k..];
    }
  }

  lemma GluedDrop(first: Text, chunks: seq<Text>, n: nat)
    requires NoEmptyChunk(chunks)
    ensures DropUnits(Glue(first, chunks), n) == if n < |first| then [first[n..]] + chunks else DropUnits(chunks, n - |first|)
  {
    assert ([first] + chunks)[1..] == chunks;
  }

  /** The chunk that completes the marker: the keys before it are delivered, and the rest of the chunk
      opens the paste. */
  lemma MarkerComes(st: State, chunks: seq<Text>, prefix: Text, inner: Text)
    requires ValidState(st) && !st.pasteMode && NoEmptyChunk(chunks) && chunks != []
    requires KeysAndPaste(st.buffer + Concat(chunks), prefix, inner)
    requires |st.buffer| < |prefix| + |PASTE_START| <= |st.buffer + chunks[0]|
    ensures var n := |prefix| + |PASTE_START| + PasteLength(inner) - |st.buffer|;
      RunChunks(st, chunks) == Then(Expected(st.pending, prefix, BodyOf(inner)), RunChunks(Initial, DropUnits(chunks, n)))
  {
    hide Extract, EmitAll, Contains, OccursAt, IndexOf, Feed, RunChunks;
    var c, rest := chunks[0], chunks[1..];
    var text := st.buffer + c;
    assert st.buffer + Concat(chunks) == text + Concat(rest);
    MarkerFound(text, Concat(rest), prefix, inner);
    var m := |prefix| + |PASTE_START|;
    var inside := text[m..];
    var keys := EmitAll(st.pending, Extract(prefix).sequences).events;
    FirstOfRun(st, chunks);
    assert ProcessChunk(st, c) == Feed(st.(buffer := text));
    FirstEndFits(inside, Concat(rest), inner);
    MarkerOpens(st.(buffer := text), prefix);
    OpenRun(inside, rest);
    var after := RunChunks(Open, Glue(inside, rest));
    assert RunChunks(st, chunks) == Then(keys, after) by {
      ThenThen(keys, OpenedWith(inside).events, RunChunks(OpenedWith(inside).state, rest));
    }
    PasteFollows(inside, rest, inner);
    var a := c[..m - |st.buffer|];
    assert c == a + inside && Glue(c, rest) == chunks;
    DropGlued(a, inside, rest, PasteLength(inner));
    ThenThen(keys, [Paste(BodyOf(inner))], RunChunks(Initial, DropUnits(Glue(inside, rest), PasteLength(inner))));
  }

  /** What the part of a chunk behind the start marker comes to. */
  function OpenedWith(inside: Text): Outcome {
    if inside == [] then Outcome(Open, []) else ProcessChunk(Open, inside)
  }

  lemma OpenRun(inside: Text, rest: seq<Text>)
    ensures RunChunks(Open, Glue(inside, rest)) == Then(OpenedWith(inside).events, RunChunks(OpenedWith(inside).state, rest))
  {
    hide ProcessChunk;
    if inside == [] {
      ThenNothing(RunChunks(Open, rest));
    } else {
      assert ([inside] + rest)[1..] == rest;
      FirstOfRun(Open, [inside] + rest);
    }
  }

  lemma MarkerOpens(st: State, prefix: Text)
    requires !st.pasteMode && IndexOf(st.buffer, PASTE_START, 0) == |prefix| && |prefix| <= |st.buffer| && st.buffer[..|prefix|] == prefix
    requires |st.buffer| >= |prefix| + |PASTE_START|
    requires var inside := st.buffer[|prefix| + |PASTE_START|..];
      IndexOf(inside, PASTE_END, 0) != -1 || |inside| <= MAX_PASTE
    ensures var r := OpenedWith(st.buffer[|prefix| + |PASTE_START|..]);
      Feed(st) == Then(EmitAll(st.pending, Extract(prefix).sequences).events, r)
  {
    hide Extract, EmitAll, OccursAt, IndexOf, FeedTurn;
    var keys := EmitAll(st.pending, Extract(prefix).sequences).events;
    var inside := st.buffer[|prefix| + |PASTE_START|..];
    MarkerTurn(st, prefix);
    assert [] + inside == inside;
    if inside == [] {
      ShortLacks(inside, PASTE_END);
      assert keys + [] == keys;
    } else {
      var fed := Open.(buffer := inside);
      OpenTurn(inside);
      hide PasteTurn;
      var t := FeedTurn(fed);
      assert keys + (t.events + Feed(t.after).events) == keys + t.events + Feed(t.after).events;
    }
  }

  lemma OpenTurn(inside: Text)
    requires IndexOf(inside, PASTE_END, 0) != -1 || |inside| <= MAX_PASTE
    ensures FeedTurn(Open.(buffer := inside)) == PasteTurn(inside, None, false)
  {
    hide IndexOf, OccursAt, Extract, EmitAll;
    assert [] + inside == inside;
  }

  lemma FirstEndFits(inside: Text, more: Text, inner: Text)
    requires inside + more == inner && 0 <= IndexOf(inner, PASTE_END, 0) <= MAX_PASTE - |PASTE_END| + 1
    ensures IndexOf(inside, PASTE_END, 0) != -1 || |inside| <= MAX_PASTE
  {
    if IndexOf(inside, PASTE_END, 0) == -1 {
      FirstEndsLater(inside, more, PASTE_END);
    }
  }

  lemma PasteFollows(inside: Text, rest: seq<Text>, inner: Text)
    requires NoEmptyChunk(rest) && inside + Concat(rest) == inner && 0 <= IndexOf(inner, PASTE_END, 0) <= MAX_PASTE - |PASTE_END| + 1
    ensures var chunks := Glue(inside, rest);
      RunChunks(Open, chunks) == Then([Paste(BodyOf(inner))], RunChunks(Initial, DropUnits(chunks, PasteLength(inner))))
  {
    var chunks := Glue(inside, rest);
    assert Concat(chunks) == inner by {
      if inside != [] {
        assert ([inside] + rest)[1..] == rest;
      }
    }
    EmptyLacks([], PASTE_END);
    hide IndexOf, RunChunks, Contains;
    assert [] + inner == inner;
    PasteIsTextBeforeFirstEnd(Open, chunks);
  }

  lemma MarkerTurn(st: State, prefix: Text)
    requires !st.pasteMode && IndexOf(st.buffer, PASTE_START, 0) == |prefix| && |prefix| <= |st.buffer| && st.buffer[..|prefix|] == prefix
    ensures |st.buffer| >= |prefix| + |PASTE_START|
    ensures var t := PasteTurn(st.buffer[|prefix| + |PASTE_START|..], None, false);
      FeedTurn(st) == t.(events := EmitAll(st.pending, Extract(prefix).sequences).events + t.events)
  {
    hide Extract, EmitAll, PasteTurn;
  }

  lemma MarkerFound(text: Text, more: Text, prefix: Text, inner: Text)
    requires KeysAndPaste(text + more, prefix, inner) && |text| >= |prefix| + |PASTE_START|
    ensures IndexOf(text, PASTE_START, 0) == |prefix| && text[..|prefix|] == prefix
    ensures text[|prefix| + |PASTE_START|..] + more == inner
    ensures 0 <= IndexOf(inner, PASTE_END, 0) <= MAX_PASTE - |PASTE_END| + 1
  {
    var all := text + more;
    if IndexOf(text, PASTE_START, 0) == -1 {
      FirstEndsLater(text, more, PASTE_START);
    } else {
      IndexOfGrows(text, more, PASTE_START);
    }
    hide OccursAt, IndexOf;
    assert text[..|prefix|] == all[..|prefix|];
    assert text[|prefix| + |PASTE_START|..] + more == all[|prefix| + |PASTE_START|..];
  }

  /** Before that, a chunk is tokenized, and the marker is still to come. */
  lemma MarkerNotComplete(st: State, chunk: Text, rest: Text, prefix: Text, inner: Text)
    requires ValidState(st) && !st.pasteMode && Printable(st.pending) && chunk != []
    requires KeysAndPaste(st.buffer + chunk + rest, prefix, inner) && |st.buffer + chunk| < |prefix| + |PASTE_START|
    ensures var r := Extract(st.buffer + chunk);
      var out := EmitAll(st.pending, r.sequences);
      var next := State(r.remainder, false, [], out.pending);
      && ProcessChunk(st, chunk) == Outcome(next, out.events) && ValidState(next) && Printable(out.pending)
  {
    var text := st.buffer + chunk;
    if IndexOf(text, PASTE_START, 0) != -1 {
      IndexOfGrows(text, rest, PASTE_START);
      OccursFits(text, PASTE_START, |prefix|);
      assert false;
    }
    NotFound(text, PASTE_START);
    StepIsValid(st, Chunk(chunk));
    StaysPrintable(st.pending, Extract(text).sequences);
    hide Extract, EmitAll;
  }

  lemma {:induction false} StaysPrintable(pending: Option<nat>, sequences: seq<Text>)
    requires Printable(pending)
    ensures Printable(EmitAll(pending, sequences).pending)
    decreases |sequences|
  {
    if sequences != [] {
      StaysPrintable(EmitOne(pending, sequences[0]).pending, sequences[1..]);
    }
  }

  /** The paste that is still to come, seen from what waits in the buffer. */
  lemma StillToCome(emitted: Text, waiting: Text, more: Text, prefix: Text, inner: Text)
    requires KeysAndPaste(emitted + waiting + more, prefix, inner) && |emitted| <= |prefix|
    ensures KeysAndPaste(waiting + more, prefix[|emitted|..], inner)
  {
    hide IndexOf;
    var all, tail := emitted + waiting + more, waiting + more;
    assert emitted + tail == all;
    FirstInTail(emitted, tail, PASTE_START, |prefix| - |emitted|);
    assert tail == all[|emitted|..];
    assert (prefix + PASTE_START + inner)[|emitted|..] == prefix[|emitted|..] + PASTE_START + inner;
  }

  lemma FirstInTail(a: Text, s: Text, p: Text, n: nat)
    requires IndexOf(a + s, p, 0) == |a| + n
    ensures IndexOf(s, p, 0) == n
  {
    var all := a + s;
    assert s[n..n + |p|] == all[|a| + n..|a| + n + |p|];
    forall j | 0 <= j < n
      ensures !OccursAt(s, p, j)
    {
      OccursLater(a, s, p, j);
    }
    FirstIsUnique(s, p, n);
  }

  lemma OccursLater(a: Text, s: Text, p: Text, i: int)
    ensures OccursAt(s, p, i) ==> OccursAt(a + s, p, |a| + i)
  {
    if OccursAt(s, p, i) {
      OccursAtShift(a, s, [], p, i);
      assert a + s + [] == a + s;
    }
  }

  // ---------------------------------------------------------------------------
  // A cut among the keys

  lemma CutInKeys(text: Text, more: Text, rest: Text, inner: Text)
    requires KeysAndPaste(text + rest, text + more, inner)
    ensures var r := Extract(text); KeysAndPaste(r.remainder + rest, r.remainder + more, inner)
  {
    var r := Extract(text);
    ExtractLossless(text);
    hide Extract, KeysAndPaste;
    var emitted := Concat(r.sequences);
    assert text == emitted + r.remainder;
    assert emitted + r.remainder + rest == text + rest;
    StillToCome(emitted, r.remainder, rest, text + more, inner);
    assert (text + more)[|emitted|..] == r.remainder + more;
  }

  /** A harmless cut splits what is expected; a harmful one delivers something else. */
  lemma CutInKeysChanges(pending: Option<nat>, text: Text, more: Text, body: Text, later: Outcome)
    requires Printable(pending)
    ensures var r := Extract(text);
      var out := EmitAll(pending, r.sequences);
      var expected := Expected(pending, text + more, body);
      if CutsEscEsc(text, more) then !(expected <= out.events + later.events)
      else
        var remains := Expected(out.pending, r.remainder + more, body);
        && (expected <= out.events + later.events <==> remains <= later.events)
        && forall o :: later == Then(remains, o) ==> Then(out.events, later) == Then(expected, o)
  {
    var r := Extract(text);
    var out := EmitAll(pending, r.sequences);
    if CutsEscEsc(text, more) {
      EscEscIsSeen(pending, text, more, later.events, [Paste(body)]);
    } else {
      CutIsHarmless(text, more);
      var second := Extract(r.remainder + more);
      hide Extract, EmitAll, CutsEscEsc;
      EmitAllAppend(pending, r.sequences, second.sequences);
      var keys := EmitAll(out.pending, second.sequences).events;
      assert out.events + keys + [Paste(body)] == out.events + (keys + [Paste(body)]);
      SplitExpected(out.events, keys + [Paste(body)], later);
    }
  }

  lemma SplitExpected(events: seq<Event>, remains: seq<Event>, later: Outcome)
    ensures events + remains <= events + later.events <==> remains <= later.events
    ensures forall o :: later == Then(remains, o) ==> Then(events, later) == Then(events + remains, o)
  {
    var whole := events + later.events;
    if events + remains <= whole {
      assert remains == (events + remains)[|events|..] == whole[|events|..|events + remains|] == later.events[..|remains|];
    }
    if remains <= later.events {
      assert later.events == remains + later.events[|remains|..];
      assert whole == events + remains + later.events[|remains|..];
    }
    forall o | later == Then(remains, o)
      ensures Then(events, later) == Then(events + remains, o)
    {
      ThenThen(events, remains, o);
    }
  }

  /** The ESC ESC that was delivered is where the whole input has an ESC. */
  lemma EscEscIsSeen(pending: Option<nat>, text: Text, more: Text, later: seq<Event>, tail: seq<Event>)
    requires Printable(pending) && CutsEscEsc(text, more)
    ensures var n := |EmitAll(pending, Extract(text).sequences[..|Extract(text).sequences| - 1]).events|;
      var events, whole := EmitAll(pending, Extract(text).sequences).events + later, EmitAll(pending, Extract(text + more).sequences).events + tail;
      n < |events| && n < |whole| && events[n] == Data([ESC, ESC]) && whole[n] == Data([ESC])
  {
    ChunkInvariance(text, more);
    var first, whole := Extract(text).sequences, Extract(text + more).sequences;
    var before := first[..|first| - 1];
    assert first == before + [[ESC, ESC]];
    var after := Extract([ESC] + more).sequences;
    hide Extract;
    assert whole == before + [[ESC]] + after;
    StaysPrintable(pending, before);
    KeyIsSeen(pending, before, [ESC, ESC], []);
    KeyIsSeen(pending, before, [ESC], after);
    assert before + [[ESC, ESC]] + [] == first;
  }

  /** A key that does not repeat a report is delivered right after the keys before it. */
  lemma KeyIsSeen(pending: Option<nat>, before: seq<Text>, key: Text, after: seq<Text>)
    requires !IsRepeatOf(key, EmitAll(pending, before).pending)
    ensures var events := EmitAll(pending, before + [key] + after).events;
      var n := |EmitAll(pending, before).events|;
      n < |events| && events[n] == Data(key)
  {
    EmitAllAppend(pending, before, [key] + after);
    assert before + [key] + after == before + ([key] + after);
    assert ([key] + after)[1..] == after;
  }

  // ---------------------------------------------------------------------------
  // A cut inside the marker

  /** What the part of the marker does to what waits before it: nothing, or it shows that a surrogate
      has no partner, or a key takes characters of it. */
  lemma MarkerPart(waiting: Text, k: nat)
    requires Irreducible(waiting) && 0 < k < |PASTE_START|
    ensures var part := PASTE_START[..k];
      var x := Extract(waiting + part);
      || x == Extraction([], waiting + part)
      || (x == Extraction([waiting], part) && |waiting| == 1)
      || (x.sequences != [] && |x.sequences[0]| > 1)
  {
    var part := PASTE_START[..k];
    var text := waiting + part;
    StartPrefixWaits(k);
    if waiting == [] {
      assert waiting + part == part;
    } else {
      assert Front(waiting) == Hold;
      if |waiting| > 1 {
        LongerWaits(waiting, part);
      } else if Front(text) == Emit(1) {
        LoneUnit(waiting, part);
      }
    }
  }

  lemma LoneUnit(waiting: Text, part: Text)
    requires |waiting| == 1 && Irreducible(part) && part != [] && Front(waiting + part) == Emit(1)
    ensures Extract(waiting + part) == Extraction([waiting], part)
  {
    var text := waiting + part;
    ExtractUnfold(text, 1);
    assert text[..1] == waiting && text[1..] == part;
    hide Extract;
    assert [waiting] + [] == [waiting];
  }

  lemma HeldIsNotEscEsc(waiting: Text)
    requires |waiting| > 1 && Front(waiting) == Hold
    ensures waiting[..2] != [ESC, ESC]
  {
    ScanEndLeast(waiting, 1, Min(|waiting|, MAX_INCOMPLETE_ESC));
    assert IsCompleteSequence([ESC, ESC]) == Complete;
  }

  /** A unit that waited is given up for a key of its own only if nothing else waited. */
  lemma LongerWaits(waiting: Text, part: Text)
    requires |waiting| > 1 && Front(waiting) == Hold
    ensures Front(waiting + part) != Emit(1)
  {
    HeldIsNotEscEsc(waiting);
    assert (waiting + part)[..1] == [ESC] && (waiting + part)[..2] == waiting[..2];
  }

  lemma MarkerCut(text: Text, rest: Text, prefix: Text, inner: Text)
    requires KeysAndPaste(text + rest, prefix, inner) && |prefix| < |text| < |prefix| + |PASTE_START|
    ensures var p := Extract(prefix);
      var part := PASTE_START[..|text| - |prefix|];
      text == prefix + part && Irreducible(p.remainder) && Extract(text) == Prepend(p.sequences, Extract(p.remainder + part))
  {
    var all, k := text + rest, |text| - |prefix|;
    var part := PASTE_START[..k];
    assert text == all[..|text|] == prefix + part;
    assert part[0] == ESC && !Opens(part);
    CutIsHarmless(prefix, part);
    ExtractLossless(prefix);
  }

  lemma CutInMarker(text: Text, rest: Text, prefix: Text, inner: Text)
    requires KeysAndPaste(text + rest, prefix, inner) && |prefix| < |text| < |prefix| + |PASTE_START|
    requires |Extract(text).remainder| >= |text| - |prefix|
    ensures KeysAndPaste(Extract(text).remainder + rest, BeforeMarker(text, prefix), inner)
  {
    hide Extract, KeysAndPaste, Irreducible;
    var r, k := Extract(text), |text| - |prefix|;
    MarkerCut(text, rest, prefix, inner);
    ExtractLossless(text);
    hide Concat;
    var emitted := Concat(r.sequences);
    assert emitted + r.remainder + rest == text + rest;
    StillToCome(emitted, r.remainder, rest, prefix, inner);
    assert prefix[|emitted|..] == r.remainder[..|r.remainder| - k] by {
      assert text == emitted + r.remainder;
      assert prefix == text[..|prefix|];
    }
  }

  lemma CutInMarkerChanges(pending: Option<nat>, text: Text, rest: Text, prefix: Text, inner: Text, later: Outcome)
    requires KeysAndPaste(text + rest, prefix, inner) && |prefix| < |text| < |prefix| + |PASTE_START|
    ensures var out := EmitAll(pending, Extract(text).sequences);
      var expected := Expected(pending, prefix, BodyOf(inner));
      if !AddsNoKey(pending, text, prefix) then !(expected <= out.events + later.events)
      else
        var remains := Expected(out.pending, BeforeMarker(text, prefix), BodyOf(inner));
        && (expected <= out.events + later.events <==> remains <= later.events)
        && forall o :: later == Then(remains, o) ==> Then(out.events, later) == Then(expected, o)
  {
    hide Extract, KeysAndPaste, EmitAll, BodyOf;
    MarkerCut(text, rest, prefix, inner);
    var r, p, k := Extract(text), Extract(prefix), |text| - |prefix|;
    var part := PASTE_START[..k];
    var x := Extract(p.remainder + part);
    MarkerPart(p.remainder, k);
    var keys := EmitAll(pending, p.sequences);
    var out := EmitAll(pending, r.sequences);
    if x.sequences != [] && !IsRepeatOf(x.sequences[0], keys.pending) {
      KeyIsSeen(pending, p.sequences, x.sequences[0], x.sequences[1..]);
      assert p.sequences + [x.sequences[0]] + x.sequences[1..] == r.sequences;
      assert (out.events + later.events)[|keys.events|] == Data(x.sequences[0]);
      assert Expected(pending, prefix, BodyOf(inner))[|keys.events|] == Paste(BodyOf(inner));
    } else {
      NothingAdded(pending, p, x, r, part);
      NothingWaits();
      WaitingBefore(p.remainder, part, x);
      NoKeys(out.pending, BeforeMarker(text, prefix), BodyOf(inner));
      SplitExpected(out.events, [Paste(BodyOf(inner))], later);
    }
  }

  lemma NothingWaits()
    ensures Irreducible([])
  {
  }

  lemma WaitingBefore(waiting: Text, part: Text, x: Extraction)
    requires x.remainder == if x.sequences == [] then waiting + part else part
    ensures x.remainder[..|x.remainder| - |part|] == if x.sequences == [] then waiting else []
  {
  }

  lemma NothingAdded(pending: Option<nat>, p: Extraction, x: Extraction, r: Extraction, part: Text)
    requires x == Extraction([], p.remainder + part) ||
      (x == Extraction([p.remainder], part) && IsRepeatOf(p.remainder, EmitAll(pending, p.sequences).pending))
    requires r == Prepend(p.sequences, x)
    ensures EmitAll(pending, r.sequences).events == EmitAll(pending, p.sequences).events
  {
    if x.sequences == [] {
      assert p.sequences + [] == p.sequences;
    } else {
      var keys := EmitAll(pending, p.sequences);
      EmitAllAppend(pending, p.sequences, [p.remainder]);
      assert [p.remainder][1..] == [];
      assert keys.events + [] == keys.events;
    }
  }

  lemma NoKeys(pending: Option<nat>, waiting: Text, body: Text)
    requires Irreducible(waiting)
    ensures Expected(pending, waiting, body) == [Paste(body)]
  {
    hide Extract;
    assert [] + [Paste(body)] == [Paste(body)];
  }

  // ---------------------------------------------------------------------------
  // What follows a paste, and whole streams

  /** Whatever follows a paste in the same chunk is handled as if it came to an idle buffer: keys and
      further pastes alike, and whatever the size of the body. */
  lemma RestAfterPaste(body: Text, rest: Text)
    requires !Contains(body, PASTE_END) && rest != []
    ensures ProcessChunk(Initial, PASTE_START + (body + PASTE_END + rest)) == Then([Paste(body)], ProcessChunk(Initial, rest))
  {
    hide Contains, OccursAt, IndexOf, Extract, EmitAll;
    var inner := body + PASTE_END + rest;
    var st := Initial.(buffer := PASTE_START + inner);
    assert [] + st.buffer == st.buffer && [] + rest == rest;
    StartOpens(inner);
    EndAfterBody(body);
    IndexOfGrows(body + PASTE_END, rest, PASTE_END);
    assert inner[..|body|] == body && inner[|body| + |PASTE_END|..] == rest;
    assert FeedTurn(st) == Turn([Paste(body)], Initial.(buffer := rest), true);
  }

  /** The same for an open paste that holds the start of the body. */
  lemma RestAfterOpenPaste(st: State, more: Text, rest: Text)
    requires st.pasteMode && ValidState(st) && !Contains(st.pasteBuffer + more, PASTE_END) && rest != []
    ensures ProcessChunk(st, more + PASTE_END + rest) == Then([Paste(st.pasteBuffer + more)], ProcessChunk(Initial, rest))
  {
    hide Contains, OccursAt, IndexOf, Extract, EmitAll;
    var body, chunk := st.pasteBuffer + more, more + PASTE_END + rest;
    var all := st.pasteBuffer + chunk;
    assert [] + chunk == chunk && [] + rest == rest && all == body + PASTE_END + rest;
    EndAfterBody(body);
    IndexOfGrows(body + PASTE_END, rest, PASTE_END);
    assert all[..|body|] == body && all[|body| + |PASTE_END|..] == rest;
    assert FeedTurn(st.(buffer := chunk)) == Turn([Paste(body)], Initial.(buffer := rest), true);
  }

  /** Keys and then a paste. */
  datatype Segment = Segment(keys: Text, body: Text)

  function InnerText(segment: Segment, following: Text): Text {
    segment.body + PASTE_END + following
  }

  /** Segments one after the other, and the keys after the last. */
  function StreamText(segments: seq<Segment>, last: Text): Text {
    if segments == [] then last
    else segments[0].keys + PASTE_START + InnerText(segments[0], StreamText(segments[1..], last))
  }

  /** The segments are what they look like: the first start marker of each follows its keys, no body
      contains an end marker, and each fits. */
  ghost predicate IsStream(segments: seq<Segment>, last: Text) {
    if segments == [] then !Contains(last, PASTE_START)
    else
      && IndexOf(StreamText(segments, last), PASTE_START, 0) == |segments[0].keys|
      && !Contains(segments[0].body, PASTE_END) && |segments[0].body| + |PASTE_END| - 1 <= MAX_PASTE
      && IsStream(segments[1..], last)
  }

  /** The simple form: the keys of each segment as far as they are complete, its body as one paste, and
      so on; the end of the last keys waits. */
  function StreamOutcome(segments: seq<Segment>, last: Text): Outcome {
    if segments == [] then
      var out := EmitAll(None, Extract(last).sequences);
      Outcome(State(Extract(last).remainder, false, [], out.pending), out.events)
    else Then(Expected(None, segments[0].keys, segments[0].body), StreamOutcome(segments[1..], last))
  }

  /** In each segment the cuts keep the keys, and in the last keys they are harmless. */
  ghost predicate CutsKeepStream(chunks: seq<Text>, segments: seq<Segment>, last: Text)
    decreases |segments|
  {
    if segments == [] then HarmlessCuts([], chunks)
    else
      && CutsKeepKeys(None, [], chunks, segments[0].keys)
      && CutsKeepStream(DropUnits(chunks, SegmentLength(segments[0])), segments[1..], last)
  }

  function SegmentLength(segment: Segment): nat {
    |segment.keys| + |PASTE_START| + |segment.body| + |PASTE_END|
  }

  /** A stream of keys and pastes, cut into any chunks: everything is delivered, in order, and nothing
      else, if and only if the cuts keep the stream; then the state is the same too. */
  lemma {:induction false} StreamCutUp(chunks: seq<Text>, segments: seq<Segment>, last: Text)
    requires NoEmptyChunk(chunks) && Concat(chunks) == StreamText(segments, last) && IsStream(segments, last)
    ensures RunChunks(Initial, chunks).events == StreamOutcome(segments, last).events <==> CutsKeepStream(chunks, segments, last)
    ensures CutsKeepStream(chunks, segments, last) ==> RunChunks(Initial, chunks) == StreamOutcome(segments, last)
    decreases |segments|
  {
    hide Extract, EmitAll, ValidState, RunChunks, Contains, IndexOf, CutsKeepKeys, HarmlessCuts, Expected, InnerText, SegmentLength, DropUnits,
      NoEmptyChunk, Concat, Then;
    if segments == [] {
      LastKeys(chunks, last);
    } else {
      var following := StreamText(segments[1..], last);
      RestOfStream(chunks, segments[0], following);
      StreamCutUp(DropUnits(chunks, SegmentLength(segments[0])), segments[1..], last);
      SegmentCutUp(chunks, segments[0], following, StreamOutcome(segments[1..], last));
    }
  }

  lemma LastKeys(chunks: seq<Text>, last: Text)
    requires NoEmptyChunk(chunks) && Concat(chunks) == last && !Contains(last, PASTE_START)
    ensures RunChunks(Initial, chunks).events == StreamOutcome([], last).events <==> HarmlessCuts([], chunks)
    ensures HarmlessCuts([], chunks) ==> RunChunks(Initial, chunks) == StreamOutcome([], last)
  {
    RemainderIsValid([], None);
    assert [] + Concat(chunks) == Concat(chunks);
    hide Extract, EmitAll, ValidState, RunChunks, Contains, HarmlessCuts;
    KeysIffHarmless(Initial, chunks);
  }

  /** The first segment of a stream, whatever is expected after it. */
  lemma SegmentCutUp(chunks: seq<Text>, s: Segment, following: Text, later: Outcome)
    requires NoEmptyChunk(chunks) && Concat(chunks) == s.keys + PASTE_START + InnerText(s, following)
    requires IndexOf(Concat(chunks), PASTE_START, 0) == |s.keys|
    requires !Contains(s.body, PASTE_END) && |s.body| + |PASTE_END| - 1 <= MAX_PASTE
    ensures var run, expected := RunChunks(Initial, chunks), Expected(None, s.keys, s.body);
      if CutsKeepKeys(None, [], chunks, s.keys) then
        var rest := RunChunks(Initial, DropUnits(chunks, SegmentLength(s)));
        (run.events == Then(expected, later).events <==> rest.events == later.events) && run == Then(expected, rest)
      else run.events != Then(expected, later).events
  {
    RemainderIsValid([], None);
    hide Extract, EmitAll, ValidState, RunChunks, Contains, IndexOf, CutsKeepKeys, Expected, KeysAndPaste, BodyOf, PasteLength, Delivers, Then,
      Concat, NoEmptyChunk, DropUnits, InnerText;
    assert [] + Concat(chunks) == Concat(chunks);
    SegmentIsKeysAndPaste(s, following);
    KeysCutUp(Initial, chunks, s.keys, InnerText(s, following));
    DeliveredFirst(chunks, s, InnerText(s, following), later);
  }

  lemma DeliveredFirst(chunks: seq<Text>, s: Segment, inner: Text, later: Outcome)
    requires Delivers(Initial, chunks, s.keys, inner) && BodyOf(inner) == s.body && PasteLength(inner) == |s.body| + |PASTE_END|
    ensures var run, expected := RunChunks(Initial, chunks), Expected(None, s.keys, s.body);
      if CutsKeepKeys(None, [], chunks, s.keys) then
        var rest := RunChunks(Initial, DropUnits(chunks, SegmentLength(s)));
        (run.events == Then(expected, later).events <==> rest.events == later.events) && run == Then(expected, rest)
      else run.events != Then(expected, later).events
  {
    hide RunChunks, CutsKeepKeys, Expected, BodyOf, PasteLength, DropUnits;
    var expected := Expected(None, s.keys, s.body);
    if CutsKeepKeys(None, [], chunks, s.keys) {
      SameLater(expected, RunChunks(Initial, DropUnits(chunks, SegmentLength(s))).events, later.events);
    } else {
      assert expected <= expected + later.events;
    }
  }

  lemma SegmentIsKeysAndPaste(s: Segment, following: Text)
    requires IndexOf(s.keys + PASTE_START + InnerText(s, following), PASTE_START, 0) == |s.keys|
    requires !Contains(s.body, PASTE_END) && |s.body| + |PASTE_END| - 1 <= MAX_PASTE
    ensures var inner := InnerText(s, following);
      && KeysAndPaste(s.keys + PASTE_START + inner, s.keys, inner)
      && BodyOf(inner) == s.body && PasteLength(inner) == |s.body| + |PASTE_END|
  {
    EndAfterBody(s.body);
    IndexOfGrows(s.body + PASTE_END, following, PASTE_END);
    hide IndexOf, Contains;
    assert InnerText(s, following)[..|s.body|] == s.body;
  }

  lemma RestOfStream(chunks: seq<Text>, s: Segment, following: Text)
    requires NoEmptyChunk(chunks) && Concat(chunks) == s.keys + PASTE_START + InnerText(s, following)
    ensures var rest := DropUnits(chunks, SegmentLength(s));
      NoEmptyChunk(rest) && Concat(rest) == following
  {
    var n := SegmentLength(s);
    DropIsRest(chunks, n);
    assert (s.keys + PASTE_START + InnerText(s, following))[n..] == following;
  }

  /** Without a paste: the keys are those of the whole input if and only if every cut is harmless. */
  lemma KeysIffHarmless(st: State, chunks: seq<Text>)
    requires ValidState(st) && !st.pasteMode && Printable(st.pending) && NoEmptyChunk(chunks)
    requires !Contains(st.buffer + Concat(chunks), PASTE_START)
    ensures var r := Extract(st.buffer + Concat(chunks));
      var out := EmitAll(st.pending, r.sequences);
      && (RunChunks(st, chunks).events == out.events <==> HarmlessCuts(st.buffer, chunks))
      && (HarmlessCuts(st.buffer, chunks) ==> RunChunks(st, chunks) == Outcome(State(r.remainder, false, [], out.pending), out.events))
  {
    if HarmlessCuts(st.buffer, chunks) {
      KeysDoNotDependOnChunks(st, chunks);
    } else {
      KeysChunkByChunk(st, chunks);
      HarmIsSeen(st.pending, st.buffer, chunks);
    }
  }

  lemma {:induction false} HarmIsSeen(pending: Option<nat>, carried: Text, chunks: seq<Text>)
    requires Irreducible(carried) && Printable(pending) && !HarmlessCuts(carried, chunks)
    ensures EmitAll(pending, ExtractChunks(carried, chunks).sequences).events != EmitAll(pending, Extract(carried + Concat(chunks)).sequences).events
    decreases |chunks|
  {
    hide Extract, EmitAll, CutsEscEsc, Concat, Printable;
    var joined, rest := carried + chunks[0], chunks[1..];
    var r := Extract(joined);
    var out := EmitAll(pending, r.sequences);
    JoinFirst(carried, chunks);
    ExtractLossless(joined);
    var later := ExtractChunks(r.remainder, rest).sequences;
    EmitAllAppend(pending, r.sequences, later);
    if CutsEscEsc(joined, Concat(rest)) {
      EscEscIsSeen(pending, joined, Concat(rest), EmitAll(out.pending, later).events, []);
      var whole := EmitAll(pending, Extract(joined + Concat(rest)).sequences).events;
      assert whole + [] == whole;
    } else {
      StaysPrintable(pending, r.sequences);
      HarmIsSeen(out.pending, r.remainder, rest);
      CutIsHarmless(joined, Concat(rest));
      var second := Extract(r.remainder + Concat(rest)).sequences;
      EmitAllAppend(pending, r.sequences, second);
      SameLater(out.events, EmitAll(out.pending, later).events, EmitAll(out.pending, second).events);
    }
  }

  lemma JoinFirst(carried: Text, chunks: seq<Text>)
    requires chunks != []
    ensures carried + Concat(chunks) == carried + chunks[0] + Concat(chunks[1..])
  {
    assert carried + (chunks[0] + Concat(chunks[1..])) == carried + chunks[0] + Concat(chunks[1..]);
  }

  lemma SameLater(events: seq<Event>, a: seq<Event>, b: seq<Event>)
    ensures events + a == events + b <==> a == b
  {
    assert (events + a)[|events|..] == a && (events + b)[|events|..] == b;
  }

  /** The whole stream in one chunk gives the simple form. */
  lemma StreamAtOnce(segments: seq<Segment>, last: Text)
    requires IsStream(segments, last) && StreamText(segments, last) != []
    ensures ProcessChunk(Initial, StreamText(segments, last)) == StreamOutcome(segments, last)
  {
    var all := StreamText(segments, last);
    OneChunkKeeps([all], segments, last);
    assert Concat([all]) == all + [] == all;
    StreamCutUp([all], segments, last);
    hide ProcessChunk, StreamOutcome, IsStream, StreamText;
    OneChunk(all);
  }

  lemma OneChunk(all: Text)
    ensures RunChunks(Initial, [all]) == ProcessChunk(Initial, all)
  {
    hide ProcessChunk;
    assert [all][1..] == [];
    var events := ProcessChunk(Initial, all).events;
    assert events + [] == events;
  }

  lemma {:induction false} OneChunkKeeps(chunks: seq<Text>, segments: seq<Segment>, last: Text)
    requires |chunks| <= 1 && Concat(chunks) == StreamText(segments, last) && NoEmptyChunk(chunks)
    ensures CutsKeepStream(chunks, segments, last)
    decreases |segments|
  {
    if segments == [] {
      if chunks != [] {
        assert chunks[1..] == [] && Concat(chunks[1..]) == [];
      }
    } else {
      RestOfStream(chunks, segments[0], StreamText(segments[1..], last));
      ShorterList(chunks, SegmentLength(segments[0]));
      OneChunkKeeps(DropUnits(chunks, SegmentLength(segments[0])), segments[1..], last);
      WholeKeeps(chunks, segments[0].keys);
    }
  }

  lemma WholeKeeps(chunks: seq<Text>, prefix: Text)
    requires |chunks| <= 1 && |Concat(chunks)| >= |prefix| + |PASTE_START|
    ensures CutsKeepKeys(None, [], chunks, prefix)
  {
    hide Extract, EmitAll;
    if chunks != [] {
      assert chunks[1..] == [] && Concat(chunks) == chunks[0] + [] == chunks[0];
      assert [] + chunks[0] == chunks[0];
    }
  }

  lemma ShorterList(chunks: seq<Text>, n: nat)
    requires |chunks| <= 1
    ensures |DropUnits(chunks, n)| <= 1
  {
  }

  /** A bracketed paste that arrives cut in any way at all, even inside its markers, is
      delivered as one paste event holding exactly the body, with no key event beside it. */
  lemma PasteArrivesWhole(chunks: seq<Text>, body: Text)
    requires NoEmptyChunk(chunks) && Concat(chunks) == PASTE_START + (body + PASTE_END)
    requires !Contains(body, PASTE_END) && |body| + |PASTE_END| - 1 <= MAX_PASTE
    ensures RunChunks(Initial, chunks) == Outcome(Initial, [Paste(body)])
  {
    hide IndexOf, Contains, OccursAt, RunChunks, Extract, EmitAll, CutsKeepKeys, NoEmptyChunk, Concat;
    var s := Segment([], body);
    assert InnerText(s, []) == body + PASTE_END && [] + PASTE_START == PASTE_START;
    MarkerIsFirst(body + PASTE_END);
    KeysAreNone(chunks, body + PASTE_END);
    SegmentAlone(chunks, s);
    NothingWaits();
    NoKeys(None, [], body);
  }

  lemma MarkerIsFirst(inner: Text)
    ensures IndexOf(PASTE_START + inner, PASTE_START, 0) == 0
  {
    assert (PASTE_START + inner)[0..|PASTE_START|] == PASTE_START;
    FirstIsUnique(PASTE_START + inner, PASTE_START, 0);
  }

  /** A segment with nothing behind it. */
  lemma SegmentAlone(chunks: seq<Text>, s: Segment)
    requires NoEmptyChunk(chunks) && Concat(chunks) == s.keys + PASTE_START + InnerText(s, [])
    requires IndexOf(Concat(chunks), PASTE_START, 0) == |s.keys|
    requires !Contains(s.body, PASTE_END) && |s.body| + |PASTE_END| - 1 <= MAX_PASTE
    ensures var expected := Expected(None, s.keys, s.body);
      if CutsKeepKeys(None, [], chunks, s.keys) then RunChunks(Initial, chunks) == Outcome(Initial, expected)
      else RunChunks(Initial, chunks).events != expected
  {
    hide IndexOf, Contains, RunChunks, CutsKeepKeys, Expected, InnerText, DropUnits, SegmentLength;
    var nothing := Outcome(Initial, []);
    SegmentCutUp(chunks, s, [], nothing);
    RestOfStream(chunks, s, []);
    NothingLeft(chunks, SegmentLength(s));
    NothingRuns();
    var expected := Expected(None, s.keys, s.body);
    assert expected + [] == expected;
  }

  lemma NothingLeft(chunks: seq<Text>, n: nat)
    requires var rest := DropUnits(chunks, n); NoEmptyChunk(rest) && Concat(rest) == []
    ensures DropUnits(chunks, n) == []
  {
    hide DropUnits;
    EmptyConcat(DropUnits(chunks, n));
  }

  lemma EmptyConcat(chunks: seq<Text>)
    requires NoEmptyChunk(chunks) && Concat(chunks) == []
    ensures chunks == []
  {
  }

  lemma KeysAreNone(chunks: seq<Text>, inner: Text)
    requires NoEmptyChunk(chunks) && Concat(chunks) == PASTE_START + inner
    ensures CutsKeepKeys(None, [], chunks, [])
  {
    assert PASTE_START[..0] == [];
    assert [] + Concat(chunks) == Concat(chunks);
    MarkerGathers(0, chunks, inner);
  }

  /** A marker with no keys before it survives every cut. */
  lemma {:induction false} MarkerGathers(k: nat, chunks: seq<Text>, inner: Text)
    requires k < |PASTE_START| && NoEmptyChunk(chunks) && PASTE_START[..k] + Concat(chunks) == PASTE_START + inner
    ensures CutsKeepKeys(None, PASTE_START[..k], chunks, [])
    decreases |chunks|
  {
    if chunks != [] {
      var c := chunks[0];
      var text := PASTE_START[..k] + c;
      TakeFirst(PASTE_START[..k], chunks);
      hide Extract, EmitAll, CutsKeepKeys;
      CutsKeepAt(None, PASTE_START[..k], chunks, []);
      if |text| < |PASTE_START| {
        assert text == (PASTE_START + inner)[..|text|] == PASTE_START[..|text|];
        StartPrefixWaits(|text|);
        NothingWaits();
        assert EmitAll(None, []).pending == None by {
          NoneEmitted();
        }
        MarkerGathers(|text|, chunks[1..], inner);
        assert BeforeMarker(text, []) == [];
      }
    }
  }

  lemma NoneEmitted()
    ensures EmitAll(None, []) == Emission([], None)
  {
  }

  // ---------------------------------------------------------------------------
  // When every cut of the marker is fine, and when one is not

  /** When the keys before the marker are complete, every cut inside the marker is fine. */
  lemma CompleteKeysAreSafe(pending: Option<nat>, prefix: Text, k: nat)
    requires Extract(prefix).remainder == [] && 0 < k < |PASTE_START|
    ensures AddsNoKey(pending, prefix + PASTE_START[..k], prefix)
  {
    var part := PASTE_START[..k];
    assert part[0] == ESC && !Opens(part);
    CutIsHarmless(prefix, part);
    StartPrefixWaits(k);
    hide Extract;
    assert [] + part == part && Extract(prefix).sequences + [] == Extract(prefix).sequences;
  }

  /** ESC O, then a paste: cut right after the marker's ESC, the ESC goes into a key, and the rest of the
      marker and the body arrive as keys. */
  lemma MarkerCutAfterEscapeO(body: Text)
    requires !Contains(body, PASTE_END) && |body| + |PASTE_END| - 1 <= MAX_PASTE
    ensures var prefix: Text := [ESC, UPPER_O];
      var chunks := [prefix + PASTE_START[..1], PASTE_START[1..] + (body + PASTE_END)];
      && RunChunks(Initial, [Concat(chunks)]).events == [Paste(body)]
      && RunChunks(Initial, chunks).events != [Paste(body)]
  {
    hide Contains, IndexOf, OccursAt, RunChunks, Extract, CutsKeepKeys;
    var prefix: Text := [ESC, UPPER_O];
    var s := Segment(prefix, body);
    var inner := body + PASTE_END;
    var chunks := [prefix + PASTE_START[..1], PASTE_START[1..] + inner];
    var all := Concat(chunks);
    assert InnerText(s, []) == inner;
    TwoChunks(prefix, inner, chunks);
    StartAfterEscapeO(inner);
    EscapeOExtracts();
    NoKeys(None, prefix, body);
    assert Concat([all]) == all + [] == all;
    WholeKeeps([all], prefix);
    SegmentAlone([all], s);
    CutAfterEscape(chunks, prefix);
    SegmentAlone(chunks, s);
  }

  lemma CutAfterEscape(chunks: seq<Text>, prefix: Text)
    requires prefix == [ESC, UPPER_O] && chunks != [] && chunks[0] == prefix + PASTE_START[..1]
    ensures !CutsKeepKeys(None, [], chunks, prefix)
  {
    EscapeOExtracts();
    hide Extract;
    assert [] + chunks[0] == chunks[0] == [ESC, UPPER_O, ESC];
  }

  lemma NothingRuns()
    ensures RunChunks(Initial, []) == Outcome(Initial, [])
  {
  }

  lemma TwoChunks(prefix: Text, inner: Text, chunks: seq<Text>)
    requires chunks == [prefix + PASTE_START[..1], PASTE_START[1..] + inner]
    ensures Concat(chunks) == prefix + PASTE_START + inner && NoEmptyChunk(chunks)
  {
    assert chunks[1..] == [chunks[1]] && chunks[1..][1..] == [];
    assert PASTE_START[..1] + PASTE_START[1..] == PASTE_START;
    assert Concat(chunks[1..]) == chunks[1];
  }

  lemma StartAfterEscapeO(inside: Text)
    ensures IndexOf([ESC, UPPER_O] + PASTE_START + inside, PASTE_START, 0) == 2
  {
    var s := [ESC, UPPER_O] + PASTE_START + inside;
    assert s[2..2 + |PASTE_START|] == PASTE_START;
    assert s[0] == ESC && s[1] == UPPER_O;
    OccursChar(s, PASTE_START, 0, 1);
    OccursChar(s, PASTE_START, 1, 0);
    hide OccursAt;
    FirstIsUnique(s, PASTE_START, 2) by {
      assert OccursAt(s, PASTE_START, 2);
    }
  }

  lemma EscapeOThenOne(c: CodeUnit)
    ensures IsCompleteSequence([ESC, UPPER_O, c]) == Complete
  {
    var data := [ESC, UPPER_O, c];
    assert data[..1] == [ESC];
    assert data[1..] == [UPPER_O, c] && data[1..][..1] == [UPPER_O];
    assert data[1..][0] == UPPER_O;
  }

  lemma EscapeOExtracts()
    ensures Irreducible([ESC, UPPER_O]) && Extract([ESC, UPPER_O, ESC]) == Extraction([[ESC, UPPER_O, ESC]], [])
  {
    var two, three: Text := [ESC, UPPER_O], [ESC, UPPER_O, ESC];
    assert two[..1] == [ESC] && two[..2] == two;
    assert three[..1] == [ESC] && three[..2] == two && three[..3] == three;
    assert IsCompleteSequence([ESC]) == Incomplete && IsCompleteSequence(two) == Incomplete;
    NoneComplete(two, 1, 2);
    EscapeOThenOne(ESC);
    assert ScanEnd(three, 1, 3) == ScanEnd(three, 2, 3) == ScanEnd(three, 3, 3) == 3;
    ExtractUnfold(three, 3);
    assert three[3..] == [];
    assert [three] + [] == [three];
  }
}
