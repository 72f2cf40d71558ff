/** One stream attempt: delta coalescing, guard interrupts and rollback, and publication. */
module StreamResponses {
  import opened Options
  import opened AgentEvents

  const DELTA_THROTTLE_MS := 16
  const TTSR_PENDING_FEED_CHARS := 512

  /** What the provider streams; `partial` is the message accumulated so far. */
  datatype StreamEvent =
    | Begin(partial: Message)
    | DeltaOf(kind: DeltaKind, index: nat, delta: string, partial: Message)
    | BoundaryOf(name: string, index: nat, partial: Message)
    | Finished

  datatype InterruptKind = Ttsr | Overthink

  datatype Response = Final(message: Message) | Interrupted(interrupt: InterruptKind) | Threw

  // ---------------------------------------------------------------------------
  // Reading updates as tagged characters

  datatype Mark = Char(kind: DeltaKind, index: nat, c: char) | Bound(name: string, index: nat)

  function MarksOfUpdate(u: Update): seq<Mark> {
    match u
    case Delta(kind, index, delta) => seq(|delta|, i requires 0 <= i < |delta| => Char(kind, index, delta[i]))
    case Boundary(name, index) => [Bound(name, index)]
  }

  /** Every character delivered, with its kind and content index, in order with the boundaries. */
  function Marks(trace: seq<Event>): seq<Mark> {
    if trace == [] then []
    else
      var last := trace[|trace| - 1];
      Marks(trace[..|trace| - 1]) + if last.MessageUpdate? then MarksOfUpdate(last.update) else []
  }

  function MarksOfEvent(e: StreamEvent): seq<Mark> {
    match e
    case DeltaOf(kind, index, delta, _) => MarksOfUpdate(Delta(kind, index, delta))
    case BoundaryOf(name, index, _) => MarksOfUpdate(Boundary(name, index))
    case Begin(_) => []
    case Finished => []
  }

  /** The characters the provider streamed since its first start event. */
  function Streamed(events: seq<StreamEvent>): seq<Mark> {
    if events == [] then []
    else
      var before, last := events[..|events| - 1], events[|events| - 1];
      Streamed(before) + if Begun(before) then MarksOfEvent(last) else []
  }

  predicate Begun(events: seq<StreamEvent>) {
    exists i | 0 <= i < |events| :: events[i].Begin?
  }

  /** The partial messages that start events announced. */
  function Announced(events: seq<StreamEvent>): seq<Message> {
    if events == [] then []
    else Announced(events[..|events| - 1]) + if events[|events| - 1].Begin? then [events[|events| - 1].partial] else []
  }

  /** Every announced message started, and one message ended: the final one. */
  function FinalNotices(announced: seq<Message>, message: Message): seq<Notice> {
    if announced == [] then Whole(message) else StartsOf(announced) + [Ended(message)]
  }

  /** The message as far as it was streamed: the partial message of the last event, once there was a start. */
  function LastPartial(events: seq<StreamEvent>): Option<Message> {
    if events == [] then None
    else
      var before, last := LastPartial(events[..|events| - 1]), events[|events| - 1];
      if last.Finished? || (before.None? && !last.Begin?) then before else Some(last.partial)
  }

  /** `m` says that a guard aborted `partial`, and keeps its text and calls. */
  predicate IsAbortOf(m: Message, partial: Message) {
    IsGuardAbort(m) && (partial.Assistant? ==> m.text == partial.text && m.calls == partial.calls)
  }

  /** Every announced message started, and if there was one, one ended as aborted by a guard, as far as
      it was streamed. */
  predicate IsInterrupted(notices: seq<Notice>, announced: seq<Message>, partial: Option<Message>) {
    if announced == [] then notices == []
    else notices != [] && notices[..|notices| - 1] == StartsOf(announced) &&
         notices[|notices| - 1].Ended? && partial.Some? && IsAbortOf(notices[|notices| - 1].message, partial.value)
  }

  lemma FinalNotice(notices: seq<Notice>, announced: seq<Message>, m: Message)
    requires notices == StartsOf(announced)
    ensures announced == [] ==> notices + NoticeOf(MessageStart(m)) + NoticeOf(MessageEnd(m)) == FinalNotices(announced, m)
    ensures announced != [] ==> notices + NoticeOf(MessageEnd(m)) == FinalNotices(announced, m)
  {
  }

  lemma InterruptNotice(notices: seq<Notice>, announced: seq<Message>, partial: Option<Message>)
    requires notices == StartsOf(announced) && (announced != [] ==> partial.Some?)
    ensures announced == [] ==> IsInterrupted(notices, announced, partial)
    ensures announced != [] ==>
      forall m | IsAbortOf(m, partial.value) :: IsInterrupted(notices + NoticeOf(MessageEnd(m)), announced, partial)
  {
  }

  function Begins(events: seq<StreamEvent>): nat {
    if events == [] then 0
    else Begins(events[..|events| - 1]) + if events[|events| - 1].Begin? then 1 else 0
  }

  /** The text of one kind of delta streamed since the first start. */
  function TextOf(events: seq<StreamEvent>, kind: DeltaKind): string {
    if events == [] then ""
    else
      var before, last := events[..|events| - 1], events[|events| - 1];
      TextOf(before, kind) + if Begun(before) && last.DeltaOf? && last.kind == kind then last.delta else ""
  }

  lemma {:induction false} MarksAppend(a: seq<Event>, b: seq<Event>)
    ensures Marks(a + b) == Marks(a) + Marks(b)
    decreases |b|
  {
    if b == [] {
      assert a + b == a;
    } else {
      assert (a + b)[..|a + b| - 1] == a + b[..|b| - 1];
      MarksAppend(a, b[..|b| - 1]);
    }
  }

  lemma MarksOne(e: Event)
    ensures Marks([e]) == if e.MessageUpdate? then MarksOfUpdate(e.update) else []
  {
    assert [e][..0] == [];
  }

  lemma CoalescedMarks(kind: DeltaKind, index: nat, a: string, b: string)
    ensures MarksOfUpdate(Delta(kind, index, a + b)) == MarksOfUpdate(Delta(kind, index, a)) + MarksOfUpdate(Delta(kind, index, b))
  {
  }

  lemma ReadOne(events: seq<StreamEvent>, e: StreamEvent)
    ensures Streamed(events + [e]) == Streamed(events) + if Begun(events) then MarksOfEvent(e) else []
    ensures Begins(events + [e]) == Begins(events) + if e.Begin? then 1 else 0
    ensures Begun(events + [e]) == (Begun(events) || e.Begin?)
    ensures Announced(events + [e]) == Announced(events) + if e.Begin? then [e.partial] else []
    ensures forall kind :: TextOf(events + [e], kind) == TextOf(events, kind) +
                           (if Begun(events) && e.DeltaOf? && e.kind == kind then e.delta else "")
  {
    assert (events + [e])[..|events|] == events;
    if Begun(events) {
      var i :| 0 <= i < |events| && events[i].Begin?;
      assert (events + [e])[i].Begin?;
    } else if e.Begin? {
      assert (events + [e])[|events|].Begin?;
    }
  }

  // ---------------------------------------------------------------------------
  // What an update shows

  /** The updates of a trace, in order. */
  function Updates(trace: seq<Event>): seq<Event> {
    if trace == [] then []
    else
      var before, last := Updates(trace[..|trace| - 1]), trace[|trace| - 1];
      if last.MessageUpdate? then before + [last] else before
  }

  /** The update shows the message of event `j`. A boundary update is that event. An update with text ends
      with the text of event `j`, or with the text before it. */
  predicate ShownAt(update: Event, marks: seq<Mark>, seen: seq<StreamEvent>, j: int) {
    && 0 <= j < |seen| && !seen[j].Finished? && update.MessageUpdate? && update.message == seen[j].partial
    && if update.update.Boundary? then
         seen[j] == BoundaryOf(update.update.name, update.update.index, update.message) && marks == Streamed(seen[..j + 1])
       else marks == Streamed(seen[..j + 1]) || (seen[j].DeltaOf? && marks == Streamed(seen[..j]))
  }

  /** Each update shows the message of an event no earlier than the text in it, and no later than the event
      that made it come out. */
  ghost predicate ShownInTime(updates: seq<Event>, seen: seq<StreamEvent>) {
    forall i | 0 <= i < |updates| :: IsShown(updates[i], Marks(updates[..i + 1]), seen)
  }

  ghost predicate IsShown(update: Event, marks: seq<Mark>, seen: seq<StreamEvent>) {
    exists j :: ShownAt(update, marks, seen, j)
  }

  lemma ShownMore(updates: seq<Event>, seen: seq<StreamEvent>, e: StreamEvent)
    requires ShownInTime(updates, seen)
    ensures ShownInTime(updates, seen + [e])
  {
    hide Marks, Streamed;
    forall i | 0 <= i < |updates|
      ensures IsShown(updates[i], Marks(updates[..i + 1]), seen + [e])
    {
      var j :| ShownAt(updates[i], Marks(updates[..i + 1]), seen, j);
      assert (seen + [e])[..j + 1] == seen[..j + 1] && (seen + [e])[..j] == seen[..j];
      assert ShownAt(updates[i], Marks(updates[..i + 1]), seen + [e], j);
    }
  }

  lemma OneMoreShown(updates: seq<Event>, update: Event, seen: seq<StreamEvent>, j: int)
    requires ShownInTime(updates, seen) && ShownAt(update, Marks(updates + [update]), seen, j)
    ensures ShownInTime(updates + [update], seen)
  {
    hide Marks, Streamed;
    assert IsShown(update, Marks(updates + [update]), seen);
    hide IsShown;
    var more := updates + [update];
    forall i | 0 <= i < |more|
      ensures IsShown(more[i], Marks(more[..i + 1]), seen)
    {
      if i < |updates| {
        assert more[..i + 1] == updates[..i + 1] && more[i] == updates[i];
      } else {
        assert more[..i + 1] == more;
      }
    }
  }

  lemma UpdatesOne(trace: seq<Event>, e: Event)
    ensures Updates(trace + [e]) == if e.MessageUpdate? then Updates(trace) + [e] else Updates(trace)
  {
    assert (trace + [e])[..|trace|] == trace;
  }

  lemma {:induction false} UpdatesAppend(trace: seq<Event>, updates: seq<Event>)
    requires forall i | 0 <= i < |updates| :: updates[i].MessageUpdate?
    ensures Updates(trace + updates) == Updates(trace) + updates
    decreases |updates|
  {
    if updates == [] {
      assert trace + updates == trace;
    } else {
      var n := |updates| - 1;
      assert (trace + updates)[..|trace| + n] == trace + updates[..n];
      UpdatesAppend(trace, updates[..n]);
      assert updates == updates[..n] + [updates[n]];
    }
  }

  lemma {:induction false} MarksOfUpdates(trace: seq<Event>)
    ensures Marks(Updates(trace)) == Marks(trace)
  {
    if trace != [] {
      var before, last := trace[..|trace| - 1], trace[|trace| - 1];
      MarksOfUpdates(before);
      if last.MessageUpdate? {
        MarksAppend(Updates(before), [last]);
        MarksOne(last);
      } else {
        assert Marks(before) + [] == Marks(before);
      }
    }
  }

  lemma LastPartialOne(events: seq<StreamEvent>, e: StreamEvent)
    ensures LastPartial(events + [e]) == if e.Finished? || (LastPartial(events).None? && !e.Begin?) then LastPartial(events) else Some(e.partial)
  {
    assert (events + [e])[..|events|] == events;
  }

  /** Once there was a start, the message so far is that of the last event. */
  lemma LastIsPartial(events: seq<StreamEvent>)
    requires LastPartial(events).Some? && forall i | 0 <= i < |events| :: !events[i].Finished?
    ensures events != [] && LastPartial(events) == Some(events[|events| - 1].partial)
  {
  }

  // ---------------------------------------------------------------------------
  // The state of an attempt

  datatype Attempt = Attempt(
    context: seq<Message>,
    trace: seq<Event>,
    /** Updates handed to the ordered chain and not yet emitted. */
    queue: seq<Event>,
    pending: Option<Update>,
    partial: Option<Message>,
    lastEmitTime: int,
    interrupt: Option<InterruptKind>,
    /** What the rule matcher was fed, and what waits for the next feed, per scope. */
    fedText: string,
    fedArgs: string,
    pendingText: string,
    pendingArgs: string)
  {
    ghost predicate WellFormed() {
      && (pending.Some? ==> pending.value.Delta? && partial.Some?)
      && (forall i | 0 <= i < |queue| :: queue[i].MessageUpdate?)
      && OnlyMessages(trace)
    }

    /** The updates emitted so far, and those handed to the chain. */
    function Outgoing(): seq<Event> {
      Updates(trace) + queue
    }

    /** Everything taken from the stream: emitted, queued or pending. */
    function Held(): seq<Mark> {
      Marks(trace) + Marks(queue) + (if pending.Some? then MarksOfUpdate(pending.value) else [])
    }
  }

  function NewAttempt(context: seq<Message>): Attempt {
    Attempt(context, [], [], None, None, 0, None, "", "", "", "")
  }

  /** An await: the chain of queued updates emits some of them, in order. */
  method Await(s: Attempt) returns (t: Attempt)
    requires s.WellFormed()
    ensures t.WellFormed() && t.Held() == s.Held()
    ensures t == s.(trace := t.trace, queue := t.queue)
    ensures s.queue == [] ==> t == s
    ensures Notices(t.trace) == Notices(s.trace)
    ensures s.trace <= t.trace && t.Outgoing() == s.Outgoing()
  {
    hide Marks, Notices, OnlyMessages, Updates;
    var k: int := *;
    if 0 <= k <= |s.queue| {
      var now, later := s.queue[..k], s.queue[k..];
      assert s.queue == now + later;
      Delivered(s, now, later);
      DeliveredOnce(s, now, later);
      t := s.(trace := s.trace + now, queue := later);
    } else {
      t := s;
    }
  }

  lemma Delivered(s: Attempt, now: seq<Event>, later: seq<Event>)
    requires s.queue == now + later && OnlyMessages(s.trace)
    requires forall i | 0 <= i < |s.queue| :: s.queue[i].MessageUpdate?
    ensures s.(trace := s.trace + now, queue := later).Held() == s.Held()
    ensures Notices(s.trace + now) == Notices(s.trace) && OnlyMessages(s.trace + now)
    ensures later == s.queue ==> now == []
  {
    MarksAppend(s.trace, now);
    MarksAppend(now, later);
    NoticesAppend(s.trace, now);
    hide Marks, Notices, MarksOfUpdate;
    assert forall i | 0 <= i < |now| :: now[i] == s.queue[i];
    NoEnds(now);
    assert OnlyMessages(now);
    OnlyMessagesAppend(s.trace, now);
    Regroup(Marks(s.trace), Marks(now), Marks(later));
    assert Notices(s.trace) + [] == Notices(s.trace);
    assert |later| + |now| == |s.queue|;
  }

  lemma DeliveredOnce(s: Attempt, now: seq<Event>, later: seq<Event>)
    requires s.queue == now + later && forall i | 0 <= i < |s.queue| :: s.queue[i].MessageUpdate?
    ensures s.(trace := s.trace + now, queue := later).Outgoing() == s.Outgoing()
  {
    hide Updates;
    assert forall i | 0 <= i < |now| :: now[i] == s.queue[i];
    UpdatesAppend(s.trace, now);
    Regroup(Updates(s.trace), now, later);
  }

  lemma Regroup<T>(a: seq<T>, b: seq<T>, c: seq<T>)
    ensures a + (b + c) == a + b + c
  {
  }

  lemma {:induction false} NoEnds(es: seq<Event>)
    requires forall i | 0 <= i < |es| :: es[i].MessageUpdate?
    ensures Notices(es) == []
  {
    if es != [] {
      NoEnds(es[..|es| - 1]);
    }
  }

  /** Waiting for the whole chain. */
  method Drain(s: Attempt) returns (t: Attempt)
    requires s.WellFormed()
    ensures t.WellFormed() && t.Held() == s.Held() && t.queue == []
    ensures t == s.(trace := t.trace, queue := [])
    ensures Notices(t.trace) == Notices(s.trace)
    ensures s.trace <= t.trace && t.Outgoing() == s.Outgoing()
  {
    hide Updates;
    assert s.queue == s.queue + [];
    Delivered(s, s.queue, []);
    DeliveredOnce(s, s.queue, []);
    t := s.(trace := s.trace + s.queue, queue := []);
  }

  lemma HeldWith(s: Attempt, e: Event)
    requires e.MessageUpdate? ==> s.queue == [] && s.pending.None?
    ensures s.(trace := s.trace + [e]).Held() == s.Held() + if e.MessageUpdate? then MarksOfUpdate(e.update) else []
  {
    assert Marks([]) == [];
    hide Marks, MarksOfUpdate;
    MarksAppend(s.trace, [e]);
    MarksOne(e);
    if e.MessageUpdate? {
      assert Marks(s.trace) + [] + [] + MarksOfUpdate(e.update) == Marks(s.trace) + MarksOfUpdate(e.update) + [] + [];
    } else {
      assert Marks(s.trace) + [] == Marks(s.trace) && s.Held() + [] == s.Held();
    }
  }

  /** A direct emit, awaited; its listener may throw. */
  method Emit(s: Attempt, e: Event, cfg: Config) returns (t: Attempt, ok: bool)
    requires s.WellFormed() && IsMessageEvent(e) && (e.MessageUpdate? ==> s.queue == [] && s.pending.None?)
    ensures t.WellFormed()
    ensures t.Held() == s.Held() + if e.MessageUpdate? then MarksOfUpdate(e.update) else []
    ensures t == s.(trace := t.trace, queue := t.queue) && (s.queue == [] ==> t.queue == [] && t.trace == s.trace + [e])
    ensures Notices(t.trace) == Notices(s.trace) + NoticeOf(e)
    ensures t.Outgoing() == if e.MessageUpdate? then s.Outgoing() + [e] else s.Outgoing()
    ensures !cfg.throwing ==> ok
  {
    hide Marks, Notices, MarksOfUpdate, OnlyMessages, IsMessageEvent, Attempt.Held, Updates;
    UpdatesOne(s.trace, e);
    assert e.MessageUpdate? ==> Updates(s.trace) + [e] + [] == Updates(s.trace) + [] + [e];
    HeldWith(s, e);
    NoticesOne(s.trace, e);
    OnlyMessagesOne(s.trace, e);
    t := Await(s.(trace := s.trace + [e]));
    var throws: bool := *;
    ok := !(throws && cfg.throwing);
  }

  // ---------------------------------------------------------------------------
  // What holds after reading `seen` from the stream

  /** What an attempt is given: a rule matcher, and whether it is fed in pieces; a guard against overlong
      thinking; a limit on its time; and listeners that may throw. */
  datatype Config = Config(matcher: bool, coalescedFeed: bool, overthink: bool, watchdog: bool, throwing: bool)

  /** Only a guard that is there interrupts. */
  predicate MayInterrupt(cfg: Config, interrupt: Option<InterruptKind>) {
    match interrupt
    case None => true
    case Some(Ttsr) => cfg.matcher
    case Some(Overthink) => cfg.overthink
  }

  /** The matcher has seen, per scope, the identical character stream, up to what waits. */
  ghost predicate FedFaithfully(s: Attempt, seen: seq<StreamEvent>, cfg: Config) {
    cfg.matcher && s.interrupt.None? ==>
      && s.fedText + s.pendingText == TextOf(seen, TextDelta)
      && s.fedArgs + s.pendingArgs == TextOf(seen, ToolCallDelta)
  }

  ghost predicate Grown(base: seq<Message>, context: seq<Message>, begins: nat) {
    base <= context && |context| == |base| + begins
  }

  /** While a begun attempt is open the context ends with the message of the last event read, and every
      update shows the message in time. */
  ghost predicate ShowsLast(s: Attempt, seen: seq<StreamEvent>) {
    && s.partial == LastPartial(seen) && (forall i | 0 <= i < |seen| :: !seen[i].Finished?)
    && (s.partial.Some? ==> s.context != [] && s.context[|s.context| - 1] == s.partial.value)
    && ShownInTime(s.Outgoing(), seen)
  }

  ghost predicate Good(s: Attempt, seen: seq<StreamEvent>, base: seq<Message>, cfg: Config) {
    && s.WellFormed()
    && s.Held() == Streamed(seen)
    && (s.partial.Some? <==> Begun(seen)) && ShowsLast(s, seen)
    && Grown(base, s.context, Begins(seen))
    && FedFaithfully(s, seen, cfg) && NothingWaits(s, cfg) && MayInterrupt(cfg, s.interrupt)
    && Notices(s.trace) == StartsOf(Announced(seen))
  }

  lemma {:induction false} BegunCounts(seen: seq<StreamEvent>)
    ensures Begun(seen) <==> Begins(seen) > 0
    ensures |Announced(seen)| == Begins(seen)
  {
    if seen != [] {
      var before, last := seen[..|seen| - 1], seen[|seen| - 1];
      assert seen == before + [last];
      BegunCounts(before);
      ReadOne(before, last);
    }
  }

  // ---------------------------------------------------------------------------
  // Feeding the rule matcher

  method Feed(s: Attempt, chunk: string, isText: bool, cfg: Config) returns (t: Attempt)
    ensures t == s.(fedText := t.fedText, fedArgs := t.fedArgs, interrupt := t.interrupt)
    ensures s.interrupt.Some? ==> t.interrupt == s.interrupt
    ensures MayInterrupt(cfg, s.interrupt) ==> MayInterrupt(cfg, t.interrupt)
    ensures cfg.matcher && s.interrupt.None? ==>
      && t.fedText == s.fedText + (if isText then chunk else "")
      && t.fedArgs == s.fedArgs + (if isText then "" else chunk)
  {
    t := s;
    if !cfg.matcher || s.interrupt.Some? || chunk == "" {
      return;
    }
    if isText {
      t := t.(fedText := t.fedText + chunk);
    } else {
      t := t.(fedArgs := t.fedArgs + chunk);
    }
    var hit: bool := *;
    if hit {
      t := t.(interrupt := Some(Ttsr));
    }
  }

  /** What changes when only the matcher's side of the state moves. */
  ghost predicate OnlyFed(s: Attempt, t: Attempt) {
    && t == s.(fedText := t.fedText, fedArgs := t.fedArgs, pendingText := t.pendingText, pendingArgs := t.pendingArgs,
               interrupt := t.interrupt)
    && (s.interrupt.Some? ==> t.interrupt == s.interrupt)
  }

  method FlushPendingTtsr(s: Attempt, cfg: Config) returns (t: Attempt)
    ensures OnlyFed(s, t) && t.pendingText == "" && t.pendingArgs == ""
    ensures MayInterrupt(cfg, s.interrupt) ==> MayInterrupt(cfg, t.interrupt)
    ensures cfg.matcher && t.interrupt.None? ==>
      t.fedText == s.fedText + s.pendingText && t.fedArgs == s.fedArgs + s.pendingArgs
  {
    t := s;
    if t.pendingText != "" {
      var chunk := t.pendingText;
      t := t.(pendingText := "");
      t := Feed(t, chunk, true, cfg);
    }
    if t.pendingArgs != "" {
      var chunk := t.pendingArgs;
      t := t.(pendingArgs := "");
      t := Feed(t, chunk, false, cfg);
    }
  }

  // ---------------------------------------------------------------------------
  // Flushing deltas

  method FlushPendingDelta(s: Attempt, cfg: Config) returns (t: Attempt)
    requires s.WellFormed()
    ensures t.WellFormed() && t.Held() == s.Held() && t.pending.None?
    ensures t.pendingText == "" && t.pendingArgs == ""
    ensures t.context == s.context && t.trace == s.trace && t.partial == s.partial
    ensures s.interrupt.Some? ==> t.interrupt == s.interrupt
    ensures MayInterrupt(cfg, s.interrupt) ==> MayInterrupt(cfg, t.interrupt)
    ensures cfg.matcher && t.interrupt.None? ==>
      t.fedText == s.fedText + s.pendingText && t.fedArgs == s.fedArgs + s.pendingArgs
    ensures t.Outgoing() == s.Outgoing() + if s.pending.Some? then [MessageUpdate(s.pending.value, s.partial.value)] else []
  {
    hide Marks, MarksOfUpdate, Updates;
    t := FlushPendingTtsr(s, cfg);
    if t.pending.None? || t.partial.None? {
      assert s.Outgoing() + [] == s.Outgoing();
      return;
    }
    Regroup(Updates(s.trace), s.queue, [MessageUpdate(s.pending.value, s.partial.value)]);
    var e := MessageUpdate(t.pending.value, t.partial.value);
    MarksAppend(t.queue, [e]);
    MarksOne(e);
    Regroup(Marks(t.trace), Marks(t.queue), MarksOfUpdate(t.pending.value));
    var now: int := *;
    t := t.(queue := t.queue + [e], pending := None, lastEmitTime := now);
    assert Marks(t.trace) + Marks(t.queue) + [] == Marks(t.trace) + Marks(t.queue);
  }

  method FlushAndDrain(s: Attempt, ghost seen: seq<StreamEvent>, ghost base: seq<Message>, cfg: Config) returns (t: Attempt)
    requires Good(s, seen, base, cfg)
    ensures Good(t, seen, base, cfg) && t.pending.None? && t.queue == []
    ensures t.context == s.context && t.partial == s.partial
    ensures Marks(t.trace) == Streamed(seen)
    ensures t.pendingText == "" && t.pendingArgs == ""
    ensures s.interrupt.Some? ==> t.interrupt == s.interrupt
  {
    t := FlushPendingDelta(s, cfg);
    ghost var flushed := t;
    t := Drain(t);
    assert Marks([]) == [];
    hide Marks, Streamed, Notices, TextOf, Updates, ShowsLast, LastPartial;
    FlushShows(s, flushed, seen);
    assert ShowsLast(t, seen) by {
      SameShown(flushed, t, seen);
    }
    assert Marks(t.trace) + [] + [] == Marks(t.trace);
    assert t.fedText + "" == t.fedText && t.fedArgs + "" == t.fedArgs;
  }

  lemma SameShown(s: Attempt, t: Attempt, seen: seq<StreamEvent>)
    requires ShowsLast(s, seen) && t.partial == s.partial && t.context == s.context && t.Outgoing() == s.Outgoing()
    ensures ShowsLast(t, seen)
  {
  }

  /** All that is held is in the updates, when nothing is pending. */
  lemma OutgoingMarks(s: Attempt)
    requires s.pending.None?
    ensures Marks(s.Outgoing()) == s.Held()
  {
    MarksOfUpdates(s.trace);
    MarksAppend(Updates(s.trace), s.queue);
    hide Marks, Updates;
    assert Marks(s.trace) + Marks(s.queue) + [] == Marks(s.trace) + Marks(s.queue);
  }

  /** A flush between two events shows the message of the last one. */
  lemma FlushShows(s: Attempt, t: Attempt, seen: seq<StreamEvent>)
    requires ShowsLast(s, seen) && s.Held() == Streamed(seen) && t.Held() == s.Held() && t.pending.None?
    requires t.partial == s.partial && t.context == s.context
    requires s.pending.Some? ==> s.pending.value.Delta? && s.partial.Some?
    requires t.Outgoing() == s.Outgoing() + if s.pending.Some? then [MessageUpdate(s.pending.value, s.partial.value)] else []
    ensures ShowsLast(t, seen)
  {
    OutgoingMarks(t);
    hide Marks, Streamed, Updates, Attempt.Outgoing, Attempt.Held;
    if s.pending.Some? {
      LastIsPartial(seen);
      var update := MessageUpdate(s.pending.value, s.partial.value);
      assert seen[..|seen|] == seen;
      assert ShownAt(update, Marks(s.Outgoing() + [update]), seen, |seen| - 1);
      OneMoreShown(s.Outgoing(), update, seen, |seen| - 1);
    } else {
      assert s.Outgoing() + [] == s.Outgoing();
    }
  }

  // ---------------------------------------------------------------------------
  // One stream event

  /** A start: the partial message joins the context and is announced. */
  method TakeBegin(s: Attempt, e: StreamEvent, ghost seen: seq<StreamEvent>, ghost base: seq<Message>, cfg: Config)
    returns (t: Attempt, ok: bool)
    requires Good(s, seen, base, cfg) && e.Begin?
    ensures Good(t, seen + [e], base, cfg) && t.interrupt == s.interrupt
    ensures !cfg.throwing ==> ok
  {
    ReadOne(seen, e);
    hide Marks, Streamed, Notices, TextOf, Begins, ShowsLast, Updates;
    t := s.(partial := Some(e.partial), context := s.context + [e.partial]);
    t, ok := Emit(t, MessageStart(e.partial), cfg);
    StillShows(s, t, seen, e);
    assert Streamed(seen) + [] == Streamed(seen);
    assert TextOf(seen, TextDelta) + "" == TextOf(seen, TextDelta);
    assert TextOf(seen, ToolCallDelta) + "" == TextOf(seen, ToolCallDelta);
  }

  /** The message of one more event takes the place of the one before, and no update came out. */
  lemma StillShows(s: Attempt, t: Attempt, seen: seq<StreamEvent>, e: StreamEvent)
    requires ShowsLast(s, seen) && !e.Finished? && (e.Begin? || s.partial.Some?)
    requires t.Outgoing() == s.Outgoing() && t.partial == Some(e.partial)
    requires t.context != [] && t.context[|t.context| - 1] == e.partial
    ensures ShowsLast(t, seen + [e])
  {
    LastPartialOne(seen, e);
    ShownMore(s.Outgoing(), seen, e);
    hide ShownInTime, LastPartial;
  }

  /** Without coalescing the matcher is fed at once, and otherwise no more than a piece waits. */
  predicate NothingWaits(s: Attempt, cfg: Config) {
    && (!cfg.coalescedFeed ==> s.pendingText == "" && s.pendingArgs == "")
    && |s.pendingText| < TTSR_PENDING_FEED_CHARS && |s.pendingArgs| < TTSR_PENDING_FEED_CHARS
  }

  function TextPart(e: StreamEvent, kind: DeltaKind): string
    requires e.DeltaOf?
  {
    if e.kind == kind then e.delta else ""
  }

  /** The fed and waiting characters of both scopes grow by exactly these. */
  ghost predicate FeedGrows(s: Attempt, t: Attempt, text: string, args: string, cfg: Config) {
    cfg.matcher && t.interrupt.None? ==>
      && t.fedText + t.pendingText == s.fedText + s.pendingText + text
      && t.fedArgs + t.pendingArgs == s.fedArgs + s.pendingArgs + args
  }

  /** A delta reaches the matcher at once, or waits for the next feed of its scope. */
  method FeedDelta(s: Attempt, e: StreamEvent, cfg: Config) returns (t: Attempt)
    requires e.DeltaOf? && NothingWaits(s, cfg)
    ensures OnlyFed(s, t) && NothingWaits(t, cfg)
    ensures s.interrupt.None? ==> FeedGrows(s, t, TextPart(e, TextDelta), TextPart(e, ToolCallDelta), cfg)
    ensures MayInterrupt(cfg, s.interrupt) ==> MayInterrupt(cfg, t.interrupt)
  {
    t := s;
    if !cfg.matcher || s.interrupt.Some? || e.kind == ThinkingDelta {
      return;
    }
    if !cfg.coalescedFeed {
      t := Feed(s, e.delta, e.kind == TextDelta, cfg);
    } else if e.kind == TextDelta {
      t := t.(pendingText := t.pendingText + e.delta);
      if |t.pendingText| >= TTSR_PENDING_FEED_CHARS {
        t := FlushPendingTtsr(t, cfg);
      }
    } else {
      t := t.(pendingArgs := t.pendingArgs + e.delta);
      if |t.pendingArgs| >= TTSR_PENDING_FEED_CHARS {
        t := FlushPendingTtsr(t, cfg);
      }
    }
  }

  /** What holds when an event is being handled: its text is held or not yet. */
  ghost predicate Handling(s: Attempt, held: seq<StreamEvent>, seen: seq<StreamEvent>, e: StreamEvent, cfg: Config)
    requires e.DeltaOf?
  {
    && s.WellFormed() && NothingWaits(s, cfg) && s.partial == Some(e.partial)
    && s.Held() == Streamed(held) && ShownInTime(s.Outgoing(), seen + [e])
  }

  /** What handling a delta changes: no more than the pending delta, the queue and the matcher's side. */
  ghost predicate OnlyCollected(s: Attempt, t: Attempt, cfg: Config) {
    && t.context == s.context && t.partial == s.partial && t.trace == s.trace
    && (s.interrupt.Some? ==> t.interrupt == s.interrupt) && (MayInterrupt(cfg, s.interrupt) ==> MayInterrupt(cfg, t.interrupt))
    && FeedGrows(s, t, "", "", cfg)
  }

  /** A delta joins the pending one of the same kind and index, or replaces it after a flush. */
  method Collect(s: Attempt, e: StreamEvent, ghost seen: seq<StreamEvent>, cfg: Config) returns (t: Attempt)
    requires e.DeltaOf? && Begun(seen) && Handling(s, seen, seen, e, cfg)
    ensures Handling(t, seen + [e], seen, e, cfg) && OnlyCollected(s, t, cfg)
  {
    hide Marks, MarksOfUpdate, Attempt.Held, Attempt.Outgoing, Streamed, ShownInTime, Begun, TextOf, Begins, Announced;
    ReadOne(seen, e);
    if s.pending.Some? && s.pending.value.kind == e.kind && s.pending.value.index == e.index {
      JoinedHeld(s, e);
      t := s.(pending := Some(Delta(e.kind, e.index, s.pending.value.delta + e.delta)));
      SameOutgoing(s, t.pending);
    } else {
      t := FlushPendingDelta(s, cfg);
      DeltaShows(s, t, seen, seen, e);
      StartedHeld(t, e);
      SameOutgoing(t, Some(Delta(e.kind, e.index, e.delta)));
      t := t.(pending := Some(Delta(e.kind, e.index, e.delta)));
    }
  }

  /** After that everything is flushed if the frame is over. At the time `now` of the last reading of the
      clock nothing is left pending for a whole frame. */
  method Accumulate(s: Attempt, e: StreamEvent, ghost seen: seq<StreamEvent>, cfg: Config) returns (t: Attempt, now: int)
    requires e.DeltaOf? && Begun(seen) && Handling(s, seen, seen, e, cfg)
    ensures Handling(t, seen + [e], seen, e, cfg) && OnlyCollected(s, t, cfg)
    ensures t.pending.Some? ==> now - t.lastEmitTime < DELTA_THROTTLE_MS
  {
    hide Marks, MarksOfUpdate, Attempt.Held, Attempt.Outgoing, Streamed, ShownInTime, Begun;
    t := Collect(s, e, seen, cfg);
    now := *;
    if now - t.lastEmitTime >= DELTA_THROTTLE_MS {
      ghost var before := t;
      t := FlushPendingDelta(t, cfg);
      DeltaShows(before, t, seen + [e], seen, e);
    }
  }

  lemma SameOutgoing(s: Attempt, pending: Option<Update>)
    ensures s.(pending := pending).Outgoing() == s.Outgoing()
  {
  }

  /** A flush while a delta is handled shows its message, whether its text is in or not. */
  lemma DeltaShows(s: Attempt, t: Attempt, held: seq<StreamEvent>, seen: seq<StreamEvent>, e: StreamEvent)
    requires e.DeltaOf? && s.partial == Some(e.partial) && (held == seen || held == seen + [e])
    requires ShownInTime(s.Outgoing(), seen + [e]) && t.Held() == Streamed(held) && t.pending.None?
    requires s.pending.Some? ==> s.pending.value.Delta?
    requires t.Outgoing() == s.Outgoing() + if s.pending.Some? then [MessageUpdate(s.pending.value, s.partial.value)] else []
    ensures ShownInTime(t.Outgoing(), seen + [e])
  {
    OutgoingMarks(t);
    hide Marks, Streamed, Updates, Attempt.Outgoing, Attempt.Held, ShownInTime;
    if s.pending.Some? {
      var update := MessageUpdate(s.pending.value, s.partial.value);
      var all, j := seen + [e], |seen|;
      assert all[..j] == seen && all[..j + 1] == all && all[j] == e;
      assert ShownAt(update, Marks(s.Outgoing() + [update]), all, j);
      OneMoreShown(s.Outgoing(), update, all, j);
    } else {
      assert s.Outgoing() + [] == s.Outgoing();
    }
  }

  lemma JoinedHeld(s: Attempt, e: StreamEvent)
    requires e.DeltaOf? && s.pending.Some? && s.pending.value.Delta?
    requires s.pending.value.kind == e.kind && s.pending.value.index == e.index
    ensures s.(pending := Some(Delta(e.kind, e.index, s.pending.value.delta + e.delta))).Held() == s.Held() + MarksOfEvent(e)
  {
    CoalescedMarks(e.kind, e.index, s.pending.value.delta, e.delta);
    hide Marks, MarksOfUpdate;
    Regroup(Marks(s.trace) + Marks(s.queue), MarksOfUpdate(s.pending.value), MarksOfEvent(e));
  }

  lemma StartedHeld(s: Attempt, e: StreamEvent)
    requires e.DeltaOf? && s.pending.None?
    ensures s.(pending := Some(Delta(e.kind, e.index, e.delta))).Held() == s.Held() + MarksOfEvent(e)
  {
    hide Marks, MarksOfUpdate;
    assert s.Held() == Marks(s.trace) + Marks(s.queue) + [] == Marks(s.trace) + Marks(s.queue);
  }

  lemma FedOneMore(s: Attempt, fed: Attempt, t: Attempt, seen: seq<StreamEvent>, e: StreamEvent, cfg: Config)
    requires FedFaithfully(s, seen, cfg) && Begun(seen) && e.DeltaOf?
    requires s.interrupt.None? ==> FeedGrows(s, fed, TextPart(e, TextDelta), TextPart(e, ToolCallDelta), cfg)
    requires FeedGrows(fed, t, "", "", cfg)
    requires s.interrupt.Some? ==> fed.interrupt.Some?
    requires fed.interrupt.Some? ==> t.interrupt.Some?
    ensures FedFaithfully(t, seen + [e], cfg)
  {
    ReadOne(seen, e);
    hide TextOf;
    assert TextOf(seen, TextDelta) + TextPart(e, TextDelta) + "" == TextOf(seen, TextDelta) + TextPart(e, TextDelta);
    assert TextOf(seen, ToolCallDelta) + TextPart(e, ToolCallDelta) + "" == TextOf(seen, ToolCallDelta) + TextPart(e, ToolCallDelta);
  }

  lemma Unbegun(s: Attempt, seen: seq<StreamEvent>, e: StreamEvent, base: seq<Message>, cfg: Config)
    requires Good(s, seen, base, cfg) && s.partial.None? && !e.Begin? && !e.Finished?
    ensures Good(s, seen + [e], base, cfg)
  {
    ReadOne(seen, e);
    LastPartialOne(seen, e);
    ShownMore(s.Outgoing(), seen, e);
    hide Streamed, TextOf, Marks, ShownInTime, LastPartial, Updates;
    assert Streamed(seen) + [] == Streamed(seen);
    assert TextOf(seen, TextDelta) + "" == TextOf(seen, TextDelta);
    assert TextOf(seen, ToolCallDelta) + "" == TextOf(seen, ToolCallDelta);
  }

  /** The partial message of the event replaces the one at the end of the context. */
  function WithPartial(s: Attempt, partial: Message): Attempt
    requires s.context != []
  {
    s.(partial := Some(partial), context := s.context[|s.context| - 1 := partial])
  }

  method TakeDelta(s: Attempt, e: StreamEvent, ghost seen: seq<StreamEvent>, ghost base: seq<Message>, cfg: Config)
    returns (t: Attempt)
    requires Good(s, seen, base, cfg) && e.DeltaOf?
    ensures Good(t, seen + [e], base, cfg)
    ensures s.interrupt.Some? ==> t.interrupt == s.interrupt
    ensures t.interrupt.Some? && s.interrupt.None? ==> t.partial.Some?
  {
    hide Good, Begins, OnlyMessages, Handling, FedFaithfully, FeedGrows, Attempt.Held, Attempt.Outgoing;
    if s.partial.None? {
      Unbegun(s, seen, e, base, cfg);
      return s;
    }
    SwapPartial(s, e, seen, base, cfg);
    ghost var fed;
    t, fed := Watch(WithPartial(s, e.partial), e, cfg);
    DeltaReady(s, t, e, seen, base, cfg);
    ghost var watched := t;
    var now;
    t, now := Accumulate(t, e, seen, cfg);
    DeltaRead(s, fed, watched, t, e, seen, base, cfg);
  }

  /** The guards see the delta: the rule matcher, then the guard against overlong thinking. */
  method Watch(s: Attempt, e: StreamEvent, cfg: Config) returns (t: Attempt, ghost fed: Attempt)
    requires e.DeltaOf? && NothingWaits(s, cfg)
    ensures OnlyFed(s, t) && NothingWaits(t, cfg)
    ensures s.interrupt.None? ==> FeedGrows(s, fed, TextPart(e, TextDelta), TextPart(e, ToolCallDelta), cfg)
    ensures FeedGrows(fed, t, "", "", cfg) && (s.interrupt.Some? ==> fed.interrupt.Some?) && (fed.interrupt.Some? ==> t.interrupt.Some?)
    ensures MayInterrupt(cfg, s.interrupt) ==> MayInterrupt(cfg, t.interrupt)
  {
    t := FeedDelta(s, e, cfg);
    fed := t;
    var tooLong: bool := *;
    if t.interrupt.None? && tooLong && cfg.overthink {
      t := t.(interrupt := Some(Overthink));
    }
  }

  lemma DeltaReady(s: Attempt, t: Attempt, e: StreamEvent, seen: seq<StreamEvent>, base: seq<Message>, cfg: Config)
    requires Good(s, seen, base, cfg) && s.partial.Some? && e.DeltaOf? && s.context != []
    requires OnlyFed(WithPartial(s, e.partial), t) && NothingWaits(t, cfg)
    ensures Begun(seen) && Handling(t, seen, seen, e, cfg) && MayInterrupt(cfg, s.interrupt)
  {
    hide Streamed, TextOf, Marks, MarksOfUpdate, Notices, Begins, OnlyMessages, Updates, LastPartial;
    ShownMore(s.Outgoing(), seen, e);
    assert t.Held() == s.Held() && t.Outgoing() == s.Outgoing();
  }

  lemma DeltaRead(s: Attempt, fed: Attempt, watched: Attempt, t: Attempt, e: StreamEvent, seen: seq<StreamEvent>, base: seq<Message>, cfg: Config)
    requires Good(s, seen, base, cfg) && s.partial.Some? && e.DeltaOf? && s.context != []
    requires Grown(base, WithPartial(s, e.partial).context, Begins(seen))
    requires OnlyFed(WithPartial(s, e.partial), watched) && MayInterrupt(cfg, watched.interrupt)
    requires s.interrupt.None? ==> FeedGrows(WithPartial(s, e.partial), fed, TextPart(e, TextDelta), TextPart(e, ToolCallDelta), cfg)
    requires FeedGrows(fed, watched, "", "", cfg) && (s.interrupt.Some? ==> fed.interrupt.Some?)
    requires fed.interrupt.Some? ==> watched.interrupt.Some?
    requires Handling(t, seen + [e], seen, e, cfg) && OnlyCollected(watched, t, cfg)
    ensures Good(t, seen + [e], base, cfg)
  {
    hide Streamed, TextOf, Marks, MarksOfUpdate, Notices, Begins, OnlyMessages, Updates, LastPartial, ShownInTime, Attempt.Held, Attempt.Outgoing,
      Announced, Grown;
    ReadOne(seen, e);
    LastPartialOne(seen, e);
    assert fed.fedText + fed.pendingText + "" == fed.fedText + fed.pendingText;
    assert fed.fedArgs + fed.pendingArgs + "" == fed.fedArgs + fed.pendingArgs;
    FedOneMore(s, fed, watched, seen, e, cfg);
    FedOneMore(s, fed, t, seen, e, cfg);
  }

  /** The start or end of a content block: everything before it is emitted first. */
  method TakeBoundary(s: Attempt, e: StreamEvent, ghost seen: seq<StreamEvent>, ghost base: seq<Message>, cfg: Config)
    returns (t: Attempt, ok: bool)
    requires Good(s, seen, base, cfg) && e.BoundaryOf?
    ensures if t.interrupt.Some? then Good(t, seen, base, cfg) else Good(t, seen + [e], base, cfg)
    ensures s.interrupt.Some? ==> t.interrupt == s.interrupt
    ensures !cfg.throwing ==> ok
  {
    hide Good, Streamed, TextOf, Marks, MarksOfUpdate, Notices, Begins, OnlyMessages, Updates, Attempt.Held, Attempt.Outgoing, Announced, StartsOf;
    t := FlushAndDrain(s, seen, base, cfg);
    ok := true;
    if t.interrupt.Some? {
      return;
    }
    if t.partial.None? {
      Unbegun(t, seen, e, base, cfg);
      return;
    }
    ghost var drained := t;
    SwapPartial(t, e, seen, base, cfg);
    t := WithPartial(t, e.partial);
    t, ok := Emit(t, MessageUpdate(Boundary(e.name, e.index), e.partial), cfg);
    assert Notices(drained.trace) + [] == Notices(drained.trace);
    BoundaryRead(drained, e, t, seen, base, cfg);
  }

  lemma SwapPartial(s: Attempt, e: StreamEvent, seen: seq<StreamEvent>, base: seq<Message>, cfg: Config)
    requires Good(s, seen, base, cfg) && s.partial.Some? && (e.BoundaryOf? || e.DeltaOf?)
    ensures s.context != [] && WithPartial(s, e.partial).WellFormed()
    ensures Grown(base, WithPartial(s, e.partial).context, Begins(seen))
    ensures Notices(s.trace) == StartsOf(Announced(seen)) && NothingWaits(s, cfg)
    ensures WithPartial(s, e.partial).Held() == s.Held() && WithPartial(s, e.partial).Outgoing() == s.Outgoing()
  {
    hide Announced, Notices, Marks, Updates, Streamed, TextOf;
    BegunCounts(seen);
    GrownChanges(base, s.context, Begins(seen), e.partial);
  }

  lemma BoundaryRead(s: Attempt, e: StreamEvent, t: Attempt, seen: seq<StreamEvent>, base: seq<Message>, cfg: Config)
    requires Good(s, seen, base, cfg) && s.partial.Some? && e.BoundaryOf? && s.context != []
    requires Grown(base, WithPartial(s, e.partial).context, Begins(seen))
    requires t.WellFormed() && t == WithPartial(s, e.partial).(trace := t.trace, queue := t.queue)
    requires t.Held() == s.Held() + MarksOfEvent(e) && t.pending.None?
    requires t.Outgoing() == s.Outgoing() + [MessageUpdate(Boundary(e.name, e.index), e.partial)]
    requires Notices(t.trace) == StartsOf(Announced(seen))
    ensures Good(t, seen + [e], base, cfg)
  {
    hide Streamed, TextOf, Marks, MarksOfUpdate, Notices, Begins, Grown, ShowsLast, Updates, Begun, Announced, OnlyMessages;
    ReadOne(seen, e);
    BoundaryShows(s, t, seen, e);
    assert WithPartial(s, e.partial).Held() == s.Held();
    assert TextOf(seen, TextDelta) + "" == TextOf(seen, TextDelta);
    assert TextOf(seen, ToolCallDelta) + "" == TextOf(seen, ToolCallDelta);
  }

  lemma BoundaryShows(s: Attempt, t: Attempt, seen: seq<StreamEvent>, e: StreamEvent)
    requires ShowsLast(s, seen) && Begun(seen) && s.partial.Some? && e.BoundaryOf? && s.context != []
    requires t == WithPartial(s, e.partial).(trace := t.trace, queue := t.queue) && t.pending.None?
    requires t.Held() == Streamed(seen) + MarksOfEvent(e)
    requires t.Outgoing() == s.Outgoing() + [MessageUpdate(Boundary(e.name, e.index), e.partial)]
    ensures ShowsLast(t, seen + [e])
  {
    hide Marks, Streamed, Updates, MarksOfUpdate, Attempt.Held, Attempt.Outgoing, ShownInTime, LastPartial, TextOf, Announced, Begins;
    ReadOne(seen, e);
    LastPartialOne(seen, e);
    OutgoingMarks(t);
    ShownMore(s.Outgoing(), seen, e);
    var all, j := seen + [e], |seen|;
    var update := MessageUpdate(Boundary(e.name, e.index), e.partial);
    assert all[..j + 1] == all;
    assert ShownAt(update, Marks(s.Outgoing() + [update]), all, j);
    OneMoreShown(s.Outgoing(), update, all, j);
  }

  // ---------------------------------------------------------------------------
  // Ending an attempt

  /** The partial message is taken back and closed with a guard-abort marker. */
  function MarkStreamGuardAbort(m: Message): Message {
    if m.Assistant? then m.(stop := StopReason.Aborted, errorMessage := "Stream interrupted by guard", guardAbort := true)
    else Assistant("", [], StopReason.Aborted, "Stream interrupted by guard", true)
  }

  method FinalizeInterrupt(s: Attempt, ghost seen: seq<StreamEvent>, ghost base: seq<Message>, cfg: Config)
    returns (t: Attempt, ok: bool)
    requires Good(s, seen, base, cfg) && s.interrupt.Some?
    ensures t.interrupt == s.interrupt
    ensures Marks(t.trace) == Streamed(seen) && t.queue == [] && t.pending.None?
    ensures Transcript(t.trace) == [] && OnlyMessages(t.trace) && (ok ==> IsInterrupted(Notices(t.trace), Announced(seen), LastPartial(seen)))
    ensures ShownInTime(Updates(t.trace), seen) && (!cfg.throwing ==> ok)
    ensures if Begins(seen) == 0 then t.context == base else Grown(base, t.context, Begins(seen) - 1)
  {
    hide Announced, StartsOf, NoticeOf, IsInterrupted, Good;
    hide Streamed, Notices, Transcript, Marks, MarksOfUpdate, Begins, Attempt.Held, Grown, Begun, FedFaithfully, OnlyMessages, ShownInTime, Updates;
    t := FlushAndDrain(s, seen, base, cfg);
    ok := true;
    ReadyToInterrupt(t, seen, base, cfg);
    if t.partial.Some? {
      var m := MarkStreamGuardAbort(t.partial.value);
      t := t.(context := t.context[..|t.context| - 1]);
      t, ok := EmitSilent(t, MessageEnd(m), cfg);
    }
  }

  lemma ReadyToInterrupt(t: Attempt, seen: seq<StreamEvent>, base: seq<Message>, cfg: Config)
    requires Good(t, seen, base, cfg)
    ensures t.WellFormed() && Transcript(t.trace) == [] && OnlyMessages(t.trace)
    ensures t.partial.Some? <==> Begins(seen) > 0
    ensures t.partial.None? ==> t.context == base && IsInterrupted(Notices(t.trace), Announced(seen), LastPartial(seen))
    ensures t.queue == [] ==> ShownInTime(Updates(t.trace), seen)
    ensures t.partial.Some? ==> t.context != [] && Grown(base, t.context[..|t.context| - 1], Begins(seen) - 1)
    ensures t.partial.Some? ==> LastPartial(seen) == t.partial && forall m | IsAbortOf(m, t.partial.value) ::
      IsInterrupted(Notices(t.trace) + NoticeOf(MessageEnd(m)), Announced(seen), LastPartial(seen))
  {
    assert Updates(t.trace) + [] == Updates(t.trace);
    BegunCounts(seen);
    OnlyStarted(t.trace, Announced(seen));
    GrownChanges(base, t.context, Begins(seen), ErrorTurn(STREAM_TIMED_OUT));
    InterruptNotice(Notices(t.trace), Announced(seen), LastPartial(seen));
    hide LastPartial, ShownInTime, Updates, Announced, StartsOf, NoticeOf, IsInterrupted, Begins, Begun, Streamed, Notices, Transcript, Marks, Grown, TextOf;
  }

  /** The final message takes the place of the partial one, or is announced and added. */
  method Publish(s: Attempt, message: Message, ghost seen: seq<StreamEvent>, ghost base: seq<Message>, cfg: Config)
    returns (t: Attempt, ok: bool)
    requires Good(s, seen, base, cfg) && s.queue == [] && s.pending.None? && !IsGuardAbort(message)
    ensures OnlyMessages(t.trace) && (!cfg.throwing ==> ok)
    ensures ok ==> ShownInTime(Updates(t.trace), seen)
    ensures ok ==> t.trace != [] && t.trace[|t.trace| - 1] == MessageEnd(message)
    ensures ok ==> Marks(t.trace) == Streamed(seen) && t.queue == [] && t.pending.None?
    ensures t.fedText == s.fedText && t.fedArgs == s.fedArgs
    ensures ok ==> Transcript(t.trace) == [message] && Notices(t.trace) == FinalNotices(Announced(seen), message)
    ensures ok ==> t.context != [] && t.context[|t.context| - 1] == message
    ensures ok ==> Grown(base, t.context, if Begins(seen) == 0 then 1 else Begins(seen))
  {
    hide Streamed, Notices, Transcript, Marks, MarksOfUpdate, Begins, Attempt.Held, Grown, FedFaithfully, OnlyMessages;
    hide Announced, StartsOf, NoticeOf, FinalNotices, ShownInTime, Updates;
    assert Updates(s.trace) + [] == Updates(s.trace);
    BegunCounts(seen);
    OnlyStarted(s.trace, Announced(seen));
    AllEmitted(s, seen);
    GrownChanges(base, s.context, Begins(seen), message);
    FinalNotice(Notices(s.trace), Announced(seen), message);
    hide Good, Begun;
    ok := true;
    if s.partial.Some? {
      t := s.(context := s.context[|s.context| - 1 := message]);
    } else {
      t := s.(context := s.context + [message]);
      t, ok := EmitSilent(t, MessageStart(message), cfg);
    }
    if ok {
      t, ok := EmitSilent(t, MessageEnd(message), cfg);
    }
  }

  /** The three things that happen to the end of the context. */
  lemma GrownChanges(base: seq<Message>, context: seq<Message>, begins: nat, message: Message)
    requires Grown(base, context, begins)
    ensures Grown(base, context + [message], begins + 1)
    ensures begins > 0 ==> context != []
    ensures begins > 0 ==> Grown(base, context[|context| - 1 := message], begins)
    ensures begins > 0 ==> Grown(base, context[..|context| - 1], begins - 1)
    ensures begins == 0 ==> context == base
  {
  }

  lemma AllEmitted(s: Attempt, seen: seq<StreamEvent>)
    requires s.Held() == Streamed(seen) && s.queue == [] && s.pending.None?
    ensures Marks(s.trace) == Streamed(seen)
  {
    assert Marks([]) == [];
    hide Streamed;
    assert Marks(s.trace) + [] + [] == Marks(s.trace);
  }

  /** A direct emit when nothing is queued. */
  method EmitSilent(s: Attempt, e: Event, cfg: Config) returns (t: Attempt, ok: bool)
    requires s.WellFormed() && s.queue == [] && s.pending.None?
    requires e.MessageStart? || e.MessageEnd?
    ensures t == s.(trace := s.trace + [e]) && t.WellFormed()
    ensures Marks(t.trace) == Marks(s.trace) && Updates(t.trace) == Updates(s.trace)
    ensures !cfg.throwing ==> ok
    ensures Notices(t.trace) == Notices(s.trace) + NoticeOf(e)
    ensures Transcript(t.trace) ==
      Transcript(s.trace) + if e.MessageEnd? && !IsGuardAbort(e.message) then [e.message] else []
  {
    TranscriptOne(s.trace, e);
    MarksAppend(s.trace, [e]);
    MarksOne(e);
    UpdatesOne(s.trace, e);
    hide Marks, Notices, Transcript, Updates;
    assert Marks(s.trace) + [] == Marks(s.trace);
    t, ok := Emit(s, e, cfg);
    assert Updates(t.trace) + [] == Updates(t.trace) && Updates(s.trace) + [] == Updates(s.trace);
  }

  // ---------------------------------------------------------------------------
  // The whole attempt

  const STREAM_TIMED_OUT := "Round timed out"
  const NO_TERMINAL_EVENT := "Stream ended without a terminal event"

  /** How the attempt left the context: with the final message in place of the last partial
      one, or without a trace of it. A well-behaved provider starts once. */
  ghost predicate ContextAfter(base: seq<Message>, context: seq<Message>, response: Response, begins: nat) {
    match response
    case Final(message) =>
      && Grown(base, context, if begins == 0 then 1 else begins)
      && context[|context| - 1] == message
    case Interrupted(_) => if begins == 0 then context == base else Grown(base, context, begins - 1)
    case Threw => true
  }

  /** What the trace of an attempt holds once `read` has been taken from the stream. */
  ghost predicate TraceAfter(trace: seq<Event>, response: Response, read: seq<StreamEvent>) {
    OnlyMessages(trace) && (!response.Threw? ==> ShownInTime(Updates(trace), read)) &&
    match response
    case Final(message) =>
      && Marks(trace) == Streamed(read)
      && trace != [] && trace[|trace| - 1] == MessageEnd(message)
      && Transcript(trace) == [message] && Notices(trace) == FinalNotices(Announced(read), message)
    case Interrupted(_) => Marks(trace) == Streamed(read) && Transcript(trace) == [] && IsInterrupted(Notices(trace), Announced(read), LastPartial(read))
    case Threw => true
  }

  /** `n` events were read: all of them, or those before the terminal event, unless the
      watchdog or a guard cut the attempt short. */
  ghost predicate ReadToEnd(events: seq<StreamEvent>, n: nat) {
    n == |events| || (n < |events| && events[n].Finished?)
  }

  method StreamAssistantResponse(
    context: seq<Message>, events: seq<StreamEvent>, result: Message, resultSettles: bool, cfg: Config)
    returns (s: Attempt, response: Response, ghost n: nat)
    requires !IsGuardAbort(result)
    ensures n <= |events| && forall i | 0 <= i < n :: !events[i].Finished?
    ensures TraceAfter(s.trace, response, events[..n])
    ensures !response.Threw? ==> Transcript(s.trace) == if response.Final? then [response.message] else []
    ensures ContextAfter(context, s.context, response, Begins(events[..n]))
    ensures response.Threw? ==> cfg.throwing
    ensures response.Interrupted? ==> MayInterrupt(cfg, Some(response.interrupt))
    ensures response.Final? ==>
      || (cfg.watchdog && response.message == ErrorTurn(STREAM_TIMED_OUT))
      || (n == |events| && !resultSettles && response.message == ErrorTurn(NO_TERMINAL_EVENT))
      || (ReadToEnd(events, n) && (n < |events| || resultSettles) && response.message == result)
    ensures response.Final? && (!cfg.watchdog || response.message != ErrorTurn(STREAM_TIMED_OUT)) && cfg.matcher ==>
      s.fedText == TextOf(events[..n], TextDelta) && s.fedArgs == TextOf(events[..n], ToolCallDelta)
  {
    hide Streamed, Notices, Transcript, Marks, MarksOfUpdate, Begins, TextOf, Good, TraceAfter, ContextAfter, Updates, ShownInTime, LastPartial;
    var over;
    s, n, over, response := ReadStream(context, events, cfg);
    if over {
      EndedMessages(s.trace, response, events[..n]);
      return;
    }
    ghost var read := events[..n];
    s := FlushAndDrain(s, read, context, cfg);
    if s.interrupt.Some? {
      s, response := Interrupt(s, read, context, cfg);
      EndedMessages(s.trace, response, read);
      return;
    }
    FedAll(s, read, context, cfg);
    if resultSettles || exists i :: 0 <= i < |events| && events[i].Finished? {
      s, response := Conclude(s, result, read, context, cfg);
    } else {
      s, response := Conclude(s, ErrorTurn(NO_TERMINAL_EVENT), read, context, cfg);
    }
    EndedMessages(s.trace, response, read);
  }

  lemma EndedMessages(trace: seq<Event>, response: Response, read: seq<StreamEvent>)
    requires TraceAfter(trace, response, read)
    ensures !response.Threw? ==> Transcript(trace) == if response.Final? then [response.message] else []
  {
  }

  lemma NothingRead(context: seq<Message>, cfg: Config)
    ensures Good(NewAttempt(context), [], context, cfg)
  {
  }

  /** What may cut the reading short: a throwing listener, a guard, or the time limit. */
  ghost predicate EndsEarly(response: Response, cfg: Config) {
    match response
    case Threw => cfg.throwing
    case Interrupted(kind) => MayInterrupt(cfg, Some(kind))
    case Final(message) => cfg.watchdog && message == ErrorTurn(STREAM_TIMED_OUT)
  }

  /** The loop over the stream, up to its terminal event or its end. */
  method ReadStream(context: seq<Message>, events: seq<StreamEvent>, cfg: Config)
    returns (s: Attempt, ghost n: nat, over: bool, response: Response)
    ensures n <= |events| && forall i | 0 <= i < n :: !events[i].Finished?
    ensures !over ==> Good(s, events[..n], context, cfg) && s.interrupt.None? && ReadToEnd(events, n)
    ensures over ==> EndsEarly(response, cfg)
    ensures over ==> TraceAfter(s.trace, response, events[..n])
    ensures over ==> ContextAfter(context, s.context, response, Begins(events[..n]))
  {
    hide Streamed, Notices, Transcript, Marks, MarksOfUpdate, Begins, TextOf, Good, TraceAfter, ContextAfter, Updates, ShownInTime, LastPartial;
    s, n, over, response := NewAttempt(context), 0, false, Threw;
    NothingRead(context, cfg);
    assert events[..0] == [];
    var k := 0;
    while k < |events| && !events[k].Finished?
      invariant 0 <= k <= |events| && n == k && !over
      invariant forall i | 0 <= i < n :: !events[i].Finished?
      invariant Good(s, events[..n], context, cfg) && s.interrupt.None?
    {
      var expired: bool := *;
      if expired && cfg.watchdog {
        s, response := TimeOut(s, events[..n], context, cfg);
        over := true;
        return;
      }
      var read;
      assert events[..k + 1] == events[..k] + [events[k]];
      s, over, response, read := TakeEvent(s, events[k], events[..n], context, cfg);
      k := k + 1;
      n := if read then k else k - 1;
      if over {
        return;
      }
    }
  }

  /** The body of the stream loop. The attempt is over on an interrupt or when a listener
      throws; an interrupt that a boundary brings about comes before the boundary. */
  method TakeEvent(s: Attempt, e: StreamEvent, ghost seen: seq<StreamEvent>, ghost base: seq<Message>, cfg: Config)
    returns (t: Attempt, over: bool, response: Response, read: bool)
    requires Good(s, seen, base, cfg) && s.interrupt.None? && !e.Finished?
    ensures !over ==> read && Good(t, seen + [e], base, cfg) && t.interrupt.None?
    ensures over ==> !response.Final? && EndsEarly(response, cfg)
    ensures over && read ==>
      TraceAfter(t.trace, response, seen + [e]) && ContextAfter(base, t.context, response, Begins(seen + [e]))
    ensures over && !read ==>
      TraceAfter(t.trace, response, seen) && ContextAfter(base, t.context, response, Begins(seen))
  {
    hide Streamed, Notices, Transcript, Marks, MarksOfUpdate, Begins, TextOf, Good, TraceAfter, ContextAfter, Updates, ShownInTime, LastPartial;
    var ok := true;
    read, over, response := true, false, Threw;
    if e.Begin? {
      t, ok := TakeBegin(s, e, seen, base, cfg);
    } else if e.DeltaOf? {
      t := TakeDelta(s, e, seen, base, cfg);
      if t.interrupt.Some? {
        t, response := Interrupt(t, seen + [e], base, cfg);
        over := true;
        return;
      }
    } else {
      t, ok := TakeBoundary(s, e, seen, base, cfg);
      if t.interrupt.Some? {
        t, response := Interrupt(t, seen, base, cfg);
        over, read := true, false;
        return;
      }
    }
    if !ok {
      over := true;
      GoodWithin(t, seen + [e], base, cfg);
      ThrewAnyhow(t.trace, seen + [e], base, t.context);
    }
  }

  lemma GoodWithin(s: Attempt, seen: seq<StreamEvent>, base: seq<Message>, cfg: Config)
    requires Good(s, seen, base, cfg)
    ensures OnlyMessages(s.trace)
  {
  }

  lemma ThrewAnyhow(trace: seq<Event>, read: seq<StreamEvent>, base: seq<Message>, context: seq<Message>)
    requires OnlyMessages(trace)
    ensures TraceAfter(trace, Threw, read) && ContextAfter(base, context, Threw, Begins(read))
  {
  }

  lemma FedAll(s: Attempt, seen: seq<StreamEvent>, base: seq<Message>, cfg: Config)
    requires Good(s, seen, base, cfg) && s.interrupt.None? && s.pendingText == "" && s.pendingArgs == ""
    ensures cfg.matcher ==> s.fedText == TextOf(seen, TextDelta) && s.fedArgs == TextOf(seen, ToolCallDelta)
  {
    assert s.fedText + "" == s.fedText && s.fedArgs + "" == s.fedArgs;
  }

  method Conclude(s: Attempt, message: Message, ghost seen: seq<StreamEvent>, ghost base: seq<Message>, cfg: Config)
    returns (t: Attempt, response: Response)
    requires Good(s, seen, base, cfg) && s.queue == [] && s.pending.None? && !IsGuardAbort(message)
    ensures response == Final(message) || (response == Threw && cfg.throwing)
    ensures TraceAfter(t.trace, response, seen) && ContextAfter(base, t.context, response, Begins(seen))
    ensures t.fedText == s.fedText && t.fedArgs == s.fedArgs
  {
    hide Streamed, Notices, Transcript, Marks, MarksOfUpdate, Begins, TextOf, Good, Updates, ShownInTime, LastPartial;
    var ok;
    t, ok := Publish(s, message, seen, base, cfg);
    response := if ok then Final(message) else Threw;
  }

  lemma AllowedInterrupt(s: Attempt, seen: seq<StreamEvent>, base: seq<Message>, cfg: Config)
    requires Good(s, seen, base, cfg)
    ensures MayInterrupt(cfg, s.interrupt)
  {
  }

  method Interrupt(s: Attempt, ghost seen: seq<StreamEvent>, ghost base: seq<Message>, cfg: Config)
    returns (t: Attempt, response: Response)
    requires Good(s, seen, base, cfg) && s.interrupt.Some?
    ensures response == Interrupted(s.interrupt.value) || (response == Threw && cfg.throwing)
    ensures MayInterrupt(cfg, s.interrupt)
    ensures TraceAfter(t.trace, response, seen) && ContextAfter(base, t.context, response, Begins(seen))
  {
    hide Streamed, Notices, Transcript, Marks, MarksOfUpdate, Begins, TextOf, Good, Updates, ShownInTime, LastPartial;
    var ok;
    AllowedInterrupt(s, seen, base, cfg);
    t, ok := FinalizeInterrupt(s, seen, base, cfg);
    response := if ok then Interrupted(s.interrupt.value) else Threw;
  }

  /** The round exceeded its wall clock: drain, then publish an error turn. */
  method TimeOut(s: Attempt, ghost seen: seq<StreamEvent>, ghost base: seq<Message>, cfg: Config)
    returns (t: Attempt, response: Response)
    requires Good(s, seen, base, cfg)
    ensures response == Final(ErrorTurn(STREAM_TIMED_OUT)) || (response == Threw && cfg.throwing)
    ensures TraceAfter(t.trace, response, seen) && ContextAfter(base, t.context, response, Begins(seen))
  {
    hide Streamed, Notices, Transcript, Marks, MarksOfUpdate, Begins, TextOf, Good, Updates, ShownInTime, LastPartial;
    t := FlushAndDrain(s, seen, base, cfg);
    t, response := Conclude(t, ErrorTurn(STREAM_TIMED_OUT), seen, base, cfg);
  }

  /** An attempt leaves no message started and not ended, unless the provider announced several. */
  lemma AttemptInOrder(trace: seq<Event>, response: Response, read: seq<StreamEvent>)
    requires TraceAfter(trace, response, read) && !response.Threw?
    ensures InOrder(trace)
  {
    var announced := Announced(read);
    var notices := Notices(trace);
    hide Marks, Streamed, Announced, Notices, Transcript, Orderly, Whole, StartsOf;
    match response
    case Final(m) =>
      if announced == [] {
        OrderlyWhole(m);
      } else {
        OrderlyEnd(announced, m);
      }
    case Interrupted(_) =>
      if announced == [] {
        OrderlyWhole(ErrorTurn(""));
      } else {
        var last := notices[|notices| - 1];
        OrderlyEnd(announced, last.message);
        assert notices == notices[..|notices| - 1] + [last];
      }
  }

  // ---------------------------------------------------------------------------
  // Text per kind and content index

  /** The concatenation of the emitted deltas of one kind and content index. */
  function EmittedText(trace: seq<Event>, kind: DeltaKind, index: nat): string {
    if trace == [] then ""
    else
      var last := trace[|trace| - 1];
      EmittedText(trace[..|trace| - 1], kind, index) +
      if last.MessageUpdate? && last.update.Delta? && last.update.kind == kind && last.update.index == index
      then last.update.delta else ""
  }

  /** The concatenation of the streamed deltas of one kind and content index. */
  function StreamedText(events: seq<StreamEvent>, kind: DeltaKind, index: nat): string {
    if events == [] then ""
    else
      var before, last := events[..|events| - 1], events[|events| - 1];
      StreamedText(before, kind, index) +
      if Begun(before) && last.DeltaOf? && last.kind == kind && last.index == index then last.delta else ""
  }

  function CharsOf(marks: seq<Mark>, kind: DeltaKind, index: nat): string {
    if marks == [] then ""
    else
      var last := marks[|marks| - 1];
      CharsOf(marks[..|marks| - 1], kind, index) +
      if last.Char? && last.kind == kind && last.index == index then [last.c] else ""
  }

  lemma {:induction false} CharsAppend(a: seq<Mark>, b: seq<Mark>, kind: DeltaKind, index: nat)
    ensures CharsOf(a + b, kind, index) == CharsOf(a, kind, index) + CharsOf(b, kind, index)
    decreases |b|
  {
    if b == [] {
      assert a + b == a;
    } else {
      assert (a + b)[..|a + b| - 1] == a + b[..|b| - 1];
      CharsAppend(a, b[..|b| - 1], kind, index);
    }
  }

  lemma {:induction false} CharsOfDelta(k: DeltaKind, i: nat, delta: string, kind: DeltaKind, index: nat)
    ensures CharsOf(MarksOfUpdate(Delta(k, i, delta)), kind, index) == if k == kind && i == index then delta else ""
    decreases |delta|
  {
    if delta != "" {
      var n := |delta| - 1;
      CharsOfDelta(k, i, delta[..n], kind, index);
      assert MarksOfUpdate(Delta(k, i, delta))[..n] == MarksOfUpdate(Delta(k, i, delta[..n]));
      assert delta == delta[..n] + [delta[n]];
    }
  }

  lemma {:induction false} EmittedIsMarked(trace: seq<Event>, kind: DeltaKind, index: nat)
    ensures EmittedText(trace, kind, index) == CharsOf(Marks(trace), kind, index)
  {
    if trace != [] {
      var before, last := trace[..|trace| - 1], trace[|trace| - 1];
      EmittedIsMarked(before, kind, index);
      if last.MessageUpdate? {
        CharsAppend(Marks(before), MarksOfUpdate(last.update), kind, index);
        if last.update.Delta? {
          CharsOfDelta(last.update.kind, last.update.index, last.update.delta, kind, index);
        } else {
          assert MarksOfUpdate(last.update)[..0] == [];
        }
      } else {
        assert Marks(before) + [] == Marks(before);
      }
    }
  }

  lemma {:induction false} StreamedIsMarked(events: seq<StreamEvent>, kind: DeltaKind, index: nat)
    ensures StreamedText(events, kind, index) == CharsOf(Streamed(events), kind, index)
  {
    if events != [] {
      var before, last := events[..|events| - 1], events[|events| - 1];
      StreamedIsMarked(before, kind, index);
      var marks := if Begun(before) then MarksOfEvent(last) else [];
      CharsAppend(Streamed(before), marks, kind, index);
      if last.DeltaOf? {
        CharsOfDelta(last.kind, last.index, last.delta, kind, index);
      } else {
        assert marks != [] ==> marks[..0] == [];
      }
    }
  }

  /** Throttling never changes the text delivered: per kind and content index, what the
      listeners receive is what was streamed, for every clock and however the attempt ends. */
  lemma CoalescingConservesText(trace: seq<Event>, response: Response, read: seq<StreamEvent>, kind: DeltaKind, index: nat)
    requires TraceAfter(trace, response, read) && !response.Threw?
    ensures EmittedText(trace, kind, index) == StreamedText(read, kind, index)
  {
    EmittedIsMarked(trace, kind, index);
    StreamedIsMarked(read, kind, index);
  }
}
