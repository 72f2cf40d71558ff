/** The three tool-batch executors. Every `await` of the original is a point where the
    pipelines in flight may take any number of steps, and where a listener may throw. */
module ToolBatches {
  import opened Integers
  import opened AgentEvents

  /** What one call does between its start and its end, and how it ends. */
  datatype Work = Work(notes: seq<string>, outcome: Outcome)

  const SKIPPED := Work([], OPERATION_ABORTED)

  /** The complete life of a call on the trace. */
  function Life(call: ToolCall, work: Work): (life: seq<Event>)
    ensures |life| == |work.notes| + 2
  {
    [ToolStart(call)] + seq(|work.notes|, i requires 0 <= i < |work.notes| => ToolNote(call, work.notes[i])) +
    [ToolEnd(call, work.outcome)]
  }

  /** Every tool event is of one of the calls. */
  ghost predicate NoStrays(trace: seq<Event>, calls: seq<ToolCall>) {
    forall k | 0 <= k < |trace| && IsToolEvent(trace[k]) :: trace[k].call in calls
  }

  lemma NoStraysOne(trace: seq<Event>, calls: seq<ToolCall>, e: Event)
    requires NoStrays(trace, calls) && (IsToolEvent(e) ==> e.call in calls)
    ensures NoStrays(trace + [e], calls)
  {
  }

  /** A late update of one of the calls comes after the call's start. */
  ghost predicate LatesAfterStart(trace: seq<Event>, calls: seq<ToolCall>) {
    forall k, i | 0 <= k < |trace| && 0 <= i < |calls| && trace[k].LateNote? && trace[k].call.id == calls[i].id ::
      Own(trace[..k], calls[i].id) != []
  }

  lemma LatesOne(trace: seq<Event>, calls: seq<ToolCall>, e: Event)
    requires LatesAfterStart(trace, calls)
    requires e.LateNote? ==> forall i | 0 <= i < |calls| && e.call.id == calls[i].id :: Own(trace, calls[i].id) != []
    ensures LatesAfterStart(trace + [e], calls)
  {
    hide Own;
    forall k, i | 0 <= k < |trace + [e]| && 0 <= i < |calls| && (trace + [e])[k].LateNote? && (trace + [e])[k].call.id == calls[i].id
      ensures Own((trace + [e])[..k], calls[i].id) != []
    {
      assert (trace + [e])[..k] == trace[..k];
      assert trace[..|trace|] == trace;
    }
  }

  ghost predicate DistinctIds(calls: seq<ToolCall>) {
    forall i, j | 0 <= i < j < |calls| :: calls[i].id != calls[j].id
  }

  function ResultMessages(calls: seq<ToolCall>, works: seq<Work>): (ms: seq<Message>)
    requires |calls| == |works|
    ensures |ms| == |calls|
  {
    seq(|calls|, i requires 0 <= i < |calls| => ResultMessage(calls[i], works[i].outcome))
  }

  function AbortedMessages(calls: seq<ToolCall>): (ms: seq<Message>)
    ensures |ms| == |calls|
  {
    seq(|calls|, i requires 0 <= i < |calls| => ResultMessage(calls[i], OPERATION_ABORTED))
  }

  /** Steps the pipelines still have to take. */
  function Left(calls: seq<ToolCall>, works: seq<Work>, done: seq<nat>): nat
    requires |calls| == |works| == |done|
    requires forall i | 0 <= i < |calls| :: done[i] <= |works[i].notes| + 2
  {
    if calls == [] then 0
    else
      assert done[|done| - 1] <= |works[|done| - 1].notes| + 2;
      Left(calls[..|calls| - 1], works[..|works| - 1], done[..|done| - 1]) + (|works[|works| - 1].notes| + 2 - done[|done| - 1])
  }

  lemma {:induction false} StepLeavesLess(calls: seq<ToolCall>, works: seq<Work>, done: seq<nat>, i: nat)
    requires |calls| == |works| == |done|
    requires forall j | 0 <= j < |calls| :: done[j] <= |works[j].notes| + 2
    requires i < |calls| && done[i] < |works[i].notes| + 2
    ensures Left(calls, works, done[i := done[i] + 1]) == Left(calls, works, done) - 1
    decreases |calls|
  {
    var n := |calls| - 1;
    var after := done[i := done[i] + 1];
    LeftOneMore(calls, works, done);
    LeftOneMore(calls, works, after);
    hide Left;
    if i == n {
      assert after[..n] == done[..n];
    } else {
      assert after[..n] == done[..n][i := done[i] + 1];
      StepLeavesLess(calls[..n], works[..n], done[..n], i);
    }
  }

  lemma LeftOneMore(calls: seq<ToolCall>, works: seq<Work>, done: seq<nat>)
    requires |calls| == |works| == |done| && calls != []
    requires forall j | 0 <= j < |calls| :: done[j] <= |works[j].notes| + 2
    ensures var n := |calls| - 1;
      && (forall j | 0 <= j < n :: done[..n][j] <= |works[..n][j].notes| + 2)
      && Left(calls, works, done) == Left(calls[..n], works[..n], done[..n]) + (|works[n].notes| + 2 - done[n])
  {
  }

  // ---------------------------------------------------------------------------
  // The state of a batch, and what happens to it at an await

  datatype Batch = Batch(
    calls: seq<ToolCall>,
    sequentialTools: set<string>,
    /** The run may be aborted. */
    abortable: bool,
    /** Listeners may throw. */
    throwing: bool,
    /** The work of each call; a call skipped by an abort gets the skipped work. */
    works: seq<Work>,
    trace: seq<Event>,
    /** How many of its own events each call has emitted. */
    done: seq<nat>,
    /** The pipelines in flight. */
    running: seq<bool>,
    /** A listener threw inside a pipeline, so the join rejects. */
    failed: bool,
    aborted: bool,
    /** How many events had been emitted when the run was aborted. */
    abortedAt: nat,
    emittedResultIds: set<string>)
  {
    predicate IsSequential(i: nat)
      requires i < |calls|
    {
      calls[i].name in sequentialTools
    }

    ghost predicate Valid() {
      && |works| == |done| == |running| == |calls|
      && DistinctIds(calls) && WithinTurn(trace) && NoStrays(trace, calls) && LatesAfterStart(trace, calls)
      && (aborted ==> abortable && abortedAt <= |trace|) && (failed ==> throwing)
      && (forall i | 0 <= i < |calls| :: done[i] <= |works[i].notes| + 2)
      && (forall i | 0 <= i < |calls| && running[i] :: 0 < done[i] < |works[i].notes| + 2)
      && (forall i | 0 <= i < |calls| :: Own(trace, calls[i].id) == Life(calls[i], works[i])[..done[i]])
    }

    predicate Idle() {
      forall i | 0 <= i < |running| :: !running[i]
    }

    /** The next own event of call `i`. */
    function Next(i: nat): Event
      requires i < |calls| == |works| == |done| && done[i] < |works[i].notes| + 2
    {
      Life(calls[i], works[i])[done[i]]
    }

    function Advance(i: nat): Batch
      requires i < |calls| == |works| == |done| && done[i] < |works[i].notes| + 2
    {
      this.(trace := trace + [Next(i)], done := done[i := done[i] + 1])
    }
  }

  function NewBatch(calls: seq<ToolCall>, sequentialTools: set<string>, abortable: bool, throwing: bool, works: seq<Work>, aborted: bool): Batch {
    Batch(calls, sequentialTools, abortable, throwing, works, [], seq(|calls|, _ => 0), seq(|calls|, _ => false), false, aborted, 0, {})
  }

  lemma NewBatchIsValid(calls: seq<ToolCall>, sequentialTools: set<string>, abortable: bool, throwing: bool, works: seq<Work>, aborted: bool)
    requires DistinctIds(calls) && |works| == |calls| && (aborted ==> abortable)
    ensures NewBatch(calls, sequentialTools, abortable, throwing, works, aborted).Valid()
  {
  }

  lemma AdvanceIsValid(s: Batch, i: nat)
    requires s.Valid() && i < |s.calls| && s.done[i] < |s.works[i].notes| + 2
    requires s.running[i] ==> s.done[i] + 1 < |s.works[i].notes| + 2
    ensures s.Advance(i).Valid()
    ensures Notices(s.Advance(i).trace) == Notices(s.trace)
  {
    hide Life, Own, Notices, WithinTurn, Concerns, NoStrays, DistinctIds, IsToolEvent, IsMessageEvent, IsWithinTurn, LatesAfterStart;
    var e, id, n := s.Next(i), s.calls[i].id, s.done[i];
    LifeAt(s.calls[i], s.works[i], n);
    ToolEventAdds(s.trace, e, id);
    NoStraysOne(s.trace, s.calls, e);
    LatesOne(s.trace, s.calls, e);
    OthersDiffer(s.calls, i);
    var t := s.Advance(i);
    forall j | 0 <= j < |s.calls|
      ensures Own(t.trace, s.calls[j].id) == Life(s.calls[j], s.works[j])[..t.done[j]]
    {
      if j != i {
        assert s.calls[j].id != id && t.done[j] == s.done[j];
      }
    }
  }

  lemma OthersDiffer(calls: seq<ToolCall>, i: nat)
    requires DistinctIds(calls) && i < |calls|
    ensures forall j | 0 <= j < |calls| && j != i :: calls[j].id != calls[i].id
  {
  }

  /** An own event of a call adds to what is seen of that call and of nothing else. */
  lemma ToolEventAdds(trace: seq<Event>, e: Event, id: string)
    requires WithinTurn(trace) && IsWithinTurn(e) && !IsMessageEvent(e)
    requires forall x :: Concerns(e, x) <==> x == id
    ensures WithinTurn(trace + [e]) && Notices(trace + [e]) == Notices(trace)
    ensures forall x :: Own(trace + [e], x) == if x == id then Own(trace, x) + [e] else Own(trace, x)
  {
    hide Own, Notices, WithinTurn, Concerns, NoStrays, LatesAfterStart;
    NoticesOne(trace, e);
    WithinOne(trace, e);
    assert Notices(trace) + [] == Notices(trace);
    forall x
      ensures Own(trace + [e], x) == if x == id then Own(trace, x) + [e] else Own(trace, x)
    {
      OwnOne(trace, e, x);
      assert Own(trace, x) + [] == Own(trace, x);
    }
  }

  lemma LifeAt(call: ToolCall, work: Work, k: nat)
    requires k < |work.notes| + 2
    ensures var life := Life(call, work);
      && IsToolEvent(life[k]) && life[k].call == call && !IsMessageEvent(life[k]) && IsWithinTurn(life[k])
      && (forall id :: Concerns(life[k], id) <==> id == call.id)
      && life[..k + 1] == life[..k] + [life[k]]
  {
  }

  predicate SameSetup(s: Batch, t: Batch) {
    t.calls == s.calls && t.sequentialTools == s.sequentialTools && t.abortable == s.abortable && t.throwing == s.throwing
  }

  /** An abort stays, and one that comes now comes after what was emitted before. */
  predicate AbortsLater(s: Batch, t: Batch) {
    && (s.aborted ==> t.aborted && t.abortedAt == s.abortedAt)
    && (!s.aborted && t.aborted ==> |s.trace| <= t.abortedAt)
  }

  /** The user may abort the run now. */
  function Aborting(s: Batch, now: bool): Batch {
    if now && s.abortable && !s.aborted then s.(aborted := true, abortedAt := |s.trace|) else s
  }

  /** What pipelines, the user and the passage of time may do during an await. */
  ghost predicate Interfered(s: Batch, t: Batch) {
    && SameSetup(s, t) && t.works == s.works
    && t.emittedResultIds == s.emittedResultIds
    && s.trace <= t.trace && Notices(t.trace) == Notices(s.trace)
    && |t.done| == |s.done| == |t.running| == |s.running| == |s.works|
    && AbortsLater(s, t) && (s.failed ==> t.failed)
    && (forall i | 0 <= i < |s.done| :: if s.running[i] then s.done[i] <= t.done[i] else !t.running[i] && t.done[i] == s.done[i])
    && (s.Idle() ==> t == s.(aborted := t.aborted, abortedAt := t.abortedAt, trace := t.trace))
    && (!t.failed ==> forall i | 0 <= i < |s.done| && s.running[i] && !t.running[i] :: t.done[i] == |s.works[i].notes| + 2)
  }

  lemma InterferedTrans(s: Batch, t: Batch, u: Batch)
    requires Interfered(s, t) && Interfered(t, u)
    ensures Interfered(s, u)
  {
  }

  /** One step of the pipeline of call `i`: its next own event, whose listener may throw,
      while the run may be aborted. */
  function PipelineStep(s: Batch, i: nat, throws: bool, abortNow: bool): Batch
    requires i < |s.calls| == |s.works| == |s.done| == |s.running| && s.done[i] < |s.works[i].notes| + 2
  {
    var ends := s.done[i] + 1 == |s.works[i].notes| + 2;
    var fails := throws && s.throwing;
    Aborting(s, abortNow).(running := s.running[i := !fails && !ends], failed := s.failed || fails).Advance(i)
  }

  lemma StepIsValid(s: Batch, i: nat, throws: bool, abortNow: bool)
    requires s.Valid() && i < |s.calls| && s.running[i]
    ensures PipelineStep(s, i, throws, abortNow).Valid()
    ensures Notices(PipelineStep(s, i, throws, abortNow).trace) == Notices(s.trace)
  {
    hide Life, Own, Notices, Paired, Whole, NoticeOf, NoStrays, LatesAfterStart;
    var ends := s.done[i] + 1 == |s.works[i].notes| + 2;
    var fails := throws && s.throwing;
    AdvanceIsValid(Aborting(s, abortNow).(running := s.running[i := !fails && !ends], failed := s.failed || fails), i);
  }

  lemma StepInterferes(s: Batch, i: nat, throws: bool, abortNow: bool)
    requires s.Valid() && i < |s.calls| && s.running[i]
    ensures Interfered(s, PipelineStep(s, i, throws, abortNow))
    ensures PipelineStep(s, i, throws, abortNow).done == s.done[i := s.done[i] + 1]
  {
    hide Life, Own, Notices, Paired, Whole, NoticeOf, Concerns, NoStrays, DistinctIds, WithinTurn, LatesAfterStart;
    StepIsValid(s, i, throws, abortNow);
    var t := PipelineStep(s, i, throws, abortNow);
    assert s.trace <= t.trace;
    assert !s.Idle();
    assert !t.failed ==> (!t.running[i] ==> t.done[i] == |s.works[i].notes| + 2);
  }

  /** A late update: of a call of the batch that has started, or of a tool that an earlier batch
      left running. */
  predicate MayReport(s: Batch, call: ToolCall)
    requires |s.calls| == |s.done|
  {
    forall i | 0 <= i < |s.calls| && s.calls[i].id == call.id :: s.done[i] > 0
  }

  function LateStep(s: Batch, call: ToolCall, note: string): Batch {
    s.(trace := s.trace + [LateNote(call, note)])
  }

  lemma LateStepIsValid(s: Batch, call: ToolCall, note: string)
    requires s.Valid() && MayReport(s, call)
    ensures LateStep(s, call, note).Valid() && Interfered(s, LateStep(s, call, note))
  {
    hide Life, Own, Notices, WithinTurn, NoStrays, LatesAfterStart, DistinctIds;
    var e := LateNote(call, note);
    LateNoteAdds(s.trace, e);
    WithinOne(s.trace, e);
    NoStraysOne(s.trace, s.calls, e);
    forall i | 0 <= i < |s.calls| && call.id == s.calls[i].id
      ensures Own(s.trace, s.calls[i].id) != []
    {
      assert |Life(s.calls[i], s.works[i])[..s.done[i]]| == s.done[i] > 0;
    }
    LatesOne(s.trace, s.calls, e);
  }

  /** Tools whose execution was given up, or that report after they have settled, emit updates at
      any await. */
  method LateUpdates(s: Batch) returns (t: Batch)
    requires s.Valid()
    ensures t.Valid() && Interfered(s, t) && t == s.(trace := t.trace)
  {
    hide Life, Own, Notices, Paired, Whole, NoticeOf, NoStrays, LatesAfterStart, WithinTurn, DistinctIds, LateStep;
    t := s;
    var updates: nat := *;
    while updates > 0
      invariant t.Valid() && Interfered(s, t) && t == s.(trace := t.trace)
    {
      var call: ToolCall, note: string := *, *;
      if MayReport(t, call) {
        LateStepIsValid(t, call, note);
        InterferedTrans(s, t, LateStep(t, call, note));
        OnlyTraceChanges(t, call, note);
        t := LateStep(t, call, note);
      }
      updates := updates - 1;
    }
  }

  lemma OnlyTraceChanges(s: Batch, call: ToolCall, note: string)
    ensures LateStep(s, call, note) == s.(trace := LateStep(s, call, note).trace)
  {
  }

  /** A step of one pipeline, and late updates. */
  method TakeStep(s: Batch, i: nat) returns (t: Batch)
    requires s.Valid() && i < |s.calls| && s.running[i]
    ensures t.Valid() && Interfered(s, t) && t.done == s.done[i := s.done[i] + 1]
  {
    hide Life, Own, Notices, Interfered, PipelineStep, NoStrays, LatesAfterStart, WithinTurn, DistinctIds;
    var throws: bool, abortNow: bool := *, *;
    StepIsValid(s, i, throws, abortNow);
    StepInterferes(s, i, throws, abortNow);
    t := LateUpdates(PipelineStep(s, i, throws, abortNow));
    InterferedTrans(s, PipelineStep(s, i, throws, abortNow), t);
  }

  /** An await: any number of pipeline steps and late updates, in any interleaving, and perhaps an
      abort. */
  method Await(s: Batch) returns (t: Batch)
    requires s.Valid()
    ensures t.Valid() && Interfered(s, t)
  {
    hide Life, Own, Notices, Paired, Whole, NoticeOf, PipelineStep, NoStrays, LatesAfterStart;
    t := s;
    var steps: nat := *;
    while steps > 0
      invariant t.Valid() && Interfered(s, t)
    {
      var i: nat := *;
      ghost var before := t;
      if 0 <= i < |t.running| && t.running[i] {
        t := TakeStep(t, i);
      } else {
        t := LateUpdates(t);
      }
      InterferedTrans(s, before, t);
      steps := steps - 1;
    }
    var abortNow: bool := *;
    t := Aborting(t, abortNow);
  }

  // ---------------------------------------------------------------------------
  // Emitting

  /** Everything that stays or only grows while a batch runs, whoever emits. */
  ghost predicate Grows(s: Batch, t: Batch) {
    && SameSetup(s, t) && t.works == s.works
    && s.trace <= t.trace && AbortsLater(s, t)
    && |t.done| == |s.done| == |t.running| == |s.running| == |s.works|
    && (forall i | 0 <= i < |s.done| :: if s.running[i] then s.done[i] <= t.done[i] else !t.running[i] && t.done[i] == s.done[i])
  }

  lemma GrowsTrans(s: Batch, t: Batch, u: Batch)
    requires Grows(s, t) && Grows(t, u)
    ensures Grows(s, u)
  {
  }

  /** The executor itself emits the next own event of call `i` and awaits its listeners. */
  method EmitOwn(s: Batch, i: nat) returns (t: Batch, ok: bool)
    requires s.Valid() && i < |s.calls| && !s.running[i] && s.done[i] < |s.works[i].notes| + 2
    ensures t.Valid() && Kept(s, t) && s.trace + [s.Next(i)] <= t.trace && (!s.throwing ==> ok)
    ensures !s.aborted && t.aborted ==> |s.trace| < t.abortedAt
    ensures s.Idle() ==> t.Idle() && t.failed == s.failed && t.done == s.done[i := s.done[i] + 1]
  {
    AdvanceIsValid(s, i);
    hide Batch.Valid, Notices, Kept, Interfered, Batch.Idle, AbortsLater, Batch.Advance, Life;
    t := Await(s.Advance(i));
    OwnEmitted(s, i, t);
    var throws: bool := *;
    ok := !(throws && s.throwing);
  }

  lemma OwnEmitted(s: Batch, i: nat, t: Batch)
    requires i < |s.calls| == |s.works| == |s.done| == |s.running| && s.done[i] < |s.works[i].notes| + 2
    requires Interfered(s.Advance(i), t) && Notices(s.Advance(i).trace) == Notices(s.trace)
    ensures Kept(s, t) && s.trace + [s.Next(i)] <= t.trace
    ensures !s.aborted && t.aborted ==> |s.trace| < t.abortedAt
    ensures s.Idle() ==> t.Idle() && t.failed == s.failed && t.done == s.done[i := s.done[i] + 1]
  {
    hide Notices, Life;
  }

  /** `message_start` and `message_end` of a result; these listeners are assumed not to throw. */
  method EmitResult(s: Batch, id: string, m: Message) returns (t: Batch)
    requires s.Valid() && m.ToolResult?
    ensures t.Valid() && Grows(s, t)
    ensures Notices(t.trace) == Notices(s.trace) + Whole(m)
    ensures t.emittedResultIds == s.emittedResultIds + {id}
  {
    assert (Notices(s.trace) + NoticeOf(MessageStart(m))) + NoticeOf(MessageEnd(m)) == Notices(s.trace) + Whole(m);
    hide Life, Own, Notices, Paired, NoticeOf, Whole, Concerns, Batch.Valid;
    t := EmitMessage(s, MessageStart(m));
    t := EmitMessage(t, MessageEnd(m));
    SameButIds(t, t.emittedResultIds + {id});
    t := t.(emittedResultIds := t.emittedResultIds + {id});
  }

  lemma SameButIds(s: Batch, ids: set<string>)
    requires s.Valid()
    ensures s.(emittedResultIds := ids).Valid()
  {
  }

  lemma MessageIsValid(s: Batch, e: Event)
    requires s.Valid() && (e.MessageStart? || e.MessageEnd?)
    ensures s.(trace := s.trace + [e]).Valid()
    ensures Notices(s.trace + [e]) == Notices(s.trace) + NoticeOf(e)
  {
    OwnUntouched(s.trace, e);
    NoStraysOne(s.trace, s.calls, e);
    LatesOne(s.trace, s.calls, e);
    hide Life, Own, Notices, Paired, Whole, NoticeOf, Concerns, WithinTurn, DistinctIds, NoStrays, LatesAfterStart;
  }

  /** Message events concern no call. */
  lemma OwnUntouched(trace: seq<Event>, e: Event)
    requires WithinTurn(trace) && (e.MessageStart? || e.MessageEnd?)
    ensures forall id :: Own(trace + [e], id) == Own(trace, id)
    ensures Notices(trace + [e]) == Notices(trace) + NoticeOf(e) && WithinTurn(trace + [e])
  {
    hide Own, Notices, NoticeOf, WithinTurn, NoStrays, LatesAfterStart;
    NoticesOne(trace, e);
    WithinOne(trace, e);
    forall id ensures Own(trace + [e], id) == Own(trace, id) {
      OwnOne(trace, e, id);
      assert Own(trace, id) + [] == Own(trace, id);
    }
  }

  lemma InterferedGrows(s: Batch, e: Event, t: Batch)
    requires Interfered(s.(trace := s.trace + [e]), t)
    ensures Grows(s, t) && t.emittedResultIds == s.emittedResultIds
    ensures Notices(t.trace) == Notices(s.trace + [e])
  {
    hide Notices, Paired, Whole, NoticeOf;
  }

  method EmitMessage(s: Batch, e: Event) returns (t: Batch)
    requires s.Valid() && (e.MessageStart? || e.MessageEnd?)
    ensures t.Valid() && Grows(s, t)
    ensures Notices(t.trace) == Notices(s.trace) + NoticeOf(e)
    ensures t.emittedResultIds == s.emittedResultIds
  {
    MessageIsValid(s, e);
    hide Life, Own, Notices, Paired, Whole, NoticeOf, Concerns, WithinTurn, Batch.Valid;
    t := Await(s.(trace := s.trace + [e]));
    InterferedGrows(s, e, t);
  }

  /** The ids whose result was emitted are those of the first `n` calls. */
  ghost predicate ResultsOut(s: Batch, n: nat) {
    forall i | 0 <= i < |s.calls| :: s.calls[i].id in s.emittedResultIds <==> i < n
  }

  /** The unwind: pair every call that has no result yet with an aborted one. */
  method SynthesizeMissingToolResults(s: Batch, ghost n: nat) returns (t: Batch)
    requires s.Valid() && n <= |s.calls| && ResultsOut(s, n)
    ensures t.Valid() && Grows(s, t)
    ensures Notices(t.trace) == Notices(s.trace) + Paired(AbortedMessages(s.calls)[n..])
  {
    hide Life, Own, Notices, Paired, Whole, NoticeOf, Concerns, Batch.Valid, Grows, AbortedMessages, ResultsOut, PairedUpTo;
    GrowsSelf(s);
    t := s;
    var i := 0;
    ghost var base := Notices(s.trace);
    NonePaired(base, s.calls, n);
    while i < |s.calls|
      invariant 0 <= i <= |s.calls| && t.calls == s.calls
      invariant t.Valid() && Grows(s, t)
      invariant ResultsOut(t, Max(n, i))
      invariant Notices(t.trace) == PairedUpTo(base, s.calls, n, i)
    {
      var call := t.calls[i];
      if call.id !in t.emittedResultIds {
        ghost var before := t;
        t := EmitResult(t, call.id, ResultMessage(call, OPERATION_ABORTED));
        GrowsTrans(s, before, t);
        OneMorePaired(before, t, n, i, base);
      } else {
        AlreadyPaired(t, n, i, base);
      }
      i := i + 1;
    }
  }

  /** What is noticed when the calls from `n` up to `i` have been paired. */
  ghost function PairedUpTo(base: seq<Notice>, calls: seq<ToolCall>, n: nat, i: nat): seq<Notice>
    requires n <= |calls| && i <= |calls|
  {
    base + Paired(AbortedMessages(calls)[n..Max(n, i)])
  }

  lemma NonePaired(base: seq<Notice>, calls: seq<ToolCall>, n: nat)
    requires n <= |calls|
    ensures PairedUpTo(base, calls, n, 0) == base
    ensures PairedUpTo(base, calls, n, |calls|) == base + Paired(AbortedMessages(calls)[n..])
  {
    NothingPaired();
    assert AbortedMessages(calls)[n..n] == [] && base + [] == base;
    assert AbortedMessages(calls)[n..|calls|] == AbortedMessages(calls)[n..];
  }

  lemma GrowsSelf(s: Batch)
    requires s.Valid()
    ensures Grows(s, s)
  {
  }

  lemma NothingPaired()
    ensures Paired([]) == []
  {
  }

  lemma OneMorePaired(s: Batch, t: Batch, n: nat, i: nat, base: seq<Notice>)
    requires s.Valid() && Grows(s, t) && i < |s.calls| && n <= |s.calls|
    requires ResultsOut(s, Max(n, i)) && s.calls[i].id !in s.emittedResultIds
    requires t.emittedResultIds == s.emittedResultIds + {s.calls[i].id}
    ensures t.calls == s.calls && ResultsOut(t, Max(n, i + 1))
    ensures PairedUpTo(base, s.calls, n, i + 1) == PairedUpTo(base, s.calls, n, i) + Whole(ResultMessage(s.calls[i], OPERATION_ABORTED))
  {
    hide Batch.Valid, PairedUpTo, Whole;
    StillDistinct(s, i);
    assert n <= i;
    OnePairMore(base, s.calls, n, i);
  }

  lemma OnePairMore(base: seq<Notice>, calls: seq<ToolCall>, n: nat, i: nat)
    requires n <= i < |calls|
    ensures PairedUpTo(base, calls, n, i + 1) == PairedUpTo(base, calls, n, i) + Whole(ResultMessage(calls[i], OPERATION_ABORTED))
  {
    hide Paired, Whole;
    var pairs := AbortedMessages(calls);
    assert pairs[n..i + 1] == pairs[n..i] + [pairs[i]];
    PairedAppend(pairs[n..i], [pairs[i]]);
    PairedOne(pairs[i]);
  }

  lemma AlreadyPaired(s: Batch, n: nat, i: nat, base: seq<Notice>)
    requires i < |s.calls| && n <= |s.calls| && ResultsOut(s, Max(n, i)) && s.calls[i].id in s.emittedResultIds
    ensures ResultsOut(s, Max(n, i + 1))
    ensures PairedUpTo(base, s.calls, n, i + 1) == PairedUpTo(base, s.calls, n, i)
  {
  }

  lemma StillDistinct(t: Batch, i: nat)
    requires t.Valid() && i < |t.calls|
    ensures forall j | 0 <= j < |t.calls| && j != i :: t.calls[j].id != t.calls[i].id
  {
  }

  // ---------------------------------------------------------------------------
  // Starts and ends on the trace

  /** Call `i` has lived its whole life. */
  predicate Lived(s: Batch, i: nat)
    requires i < |s.works| == |s.done|
  {
    s.done[i] == |s.works[i].notes| + 2
  }

  function Starts(trace: seq<Event>, id: string): nat {
    if trace == [] then 0
    else
      var last := trace[|trace| - 1];
      Starts(trace[..|trace| - 1], id) + if last.ToolStart? && last.call.id == id then 1 else 0
  }

  function Ends(trace: seq<Event>, id: string): nat {
    if trace == [] then 0
    else
      var last := trace[|trace| - 1];
      Ends(trace[..|trace| - 1], id) + if last.ToolEnd? && last.call.id == id then 1 else 0
  }

  lemma CountsAppendOne(trace: seq<Event>, e: Event, id: string)
    ensures Starts(trace + [e], id) == Starts(trace, id) + if e.ToolStart? && e.call.id == id then 1 else 0
    ensures Ends(trace + [e], id) == Ends(trace, id) + if e.ToolEnd? && e.call.id == id then 1 else 0
  {
    assert (trace + [e])[..|trace|] == trace;
  }

  lemma {:induction false} CountsOfOwn(trace: seq<Event>, id: string)
    ensures Starts(trace, id) == Starts(Own(trace, id), id)
    ensures Ends(trace, id) == Ends(Own(trace, id), id)
  {
    if trace != [] {
      var before, last := trace[..|trace| - 1], trace[|trace| - 1];
      CountsOfOwn(before, id);
      OneMoreCounted(before, last, id);
      hide Own, Starts, Ends, NoStrays, LatesAfterStart;
      assert trace == before + [last];
    }
  }

  lemma OneMoreCounted(before: seq<Event>, last: Event, id: string)
    requires Starts(before, id) == Starts(Own(before, id), id)
    requires Ends(before, id) == Ends(Own(before, id), id)
    ensures Starts(before + [last], id) == Starts(Own(before + [last], id), id)
    ensures Ends(before + [last], id) == Ends(Own(before + [last], id), id)
  {
    hide Own, Starts, Ends, NoStrays, LatesAfterStart;
    OwnOne(before, last, id);
    CountsAppendOne(before, last, id);
    CountsAppendOne(Own(before, id), last, id);
    assert Own(before, id) + [] == Own(before, id);
  }

  lemma {:induction false} CountsOfLife(call: ToolCall, work: Work, k: nat)
    requires k <= |work.notes| + 2
    ensures Starts(Life(call, work)[..k], call.id) == if k == 0 then 0 else 1
    ensures Ends(Life(call, work)[..k], call.id) == if k == |work.notes| + 2 then 1 else 0
  {
    if k > 0 {
      CountsOfLife(call, work, k - 1);
      var life := Life(call, work);
      assert life[..k] == life[..k - 1] + [life[k - 1]];
      CountsAppendOne(life[..k - 1], life[k - 1], call.id);
      hide Starts, Ends;
    }
  }

  /** At every moment of every run: a call has started at most once and ended at most once,
      and it has ended exactly when it has lived its whole life. */
  lemma CallsStartAndEndOnce(s: Batch, i: nat)
    requires s.Valid() && i < |s.calls|
    ensures Starts(s.trace, s.calls[i].id) == if s.done[i] == 0 then 0 else 1
    ensures Ends(s.trace, s.calls[i].id) == if Lived(s, i) then 1 else 0
  {
    CountsOfOwn(s.trace, s.calls[i].id);
    CountsOfLife(s.calls[i], s.works[i], s.done[i]);
  }

  lemma {:induction false} OwnNothing(trace: seq<Event>, id: string)
    requires Own(trace, id) == []
    ensures forall e | e in trace :: !Concerns(e, id)
  {
    if trace != [] {
      OwnNothing(trace[..|trace| - 1], id);
    }
  }

  // ---------------------------------------------------------------------------
  // Order on the trace

  /** Every own event of the first call comes before every own event of the second. */
  ghost predicate Precedes(trace: seq<Event>, first: string, second: string) {
    forall a, b | 0 <= a < |trace| && 0 <= b < |trace| && Concerns(trace[a], first) && Concerns(trace[b], second) :: a < b
  }

  /** The calls in the list live one after the other. */
  ghost predicate OneByOne(trace: seq<Event>, calls: seq<ToolCall>, indices: seq<nat>) {
    forall j, k | 0 <= j < k < |indices| && indices[j] < |calls| && indices[k] < |calls| ::
      Precedes(trace, calls[indices[j]].id, calls[indices[k]].id)
  }

  predicate IsResultOf(e: Event, id: string) {
    (e.MessageStart? || e.MessageEnd?) && e.message.ToolResult? && e.message.callId == id
  }

  ghost predicate ResultPrecedes(trace: seq<Event>, first: string, second: string) {
    forall a, b | 0 <= a < |trace| && 0 <= b < |trace| && IsResultOf(trace[a], first) && Concerns(trace[b], second) :: a < b
  }

  /** The result of each call comes before every own event of each later call. */
  ghost predicate ResultsBetween(trace: seq<Event>, calls: seq<ToolCall>) {
    forall j, k | 0 <= j < k < |calls| :: ResultPrecedes(trace, calls[j].id, calls[k].id)
  }

  predicate IsStart(e: Event, id: string) {
    e.ToolStart? && e.call.id == id
  }

  ghost predicate StartPrecedes(trace: seq<Event>, first: string, second: string, startsToo: bool) {
    forall a, b | 0 <= a < |trace| && 0 <= b < |trace| && IsStart(trace[a], first) && Concerns(trace[b], second) && (startsToo || !trace[b].ToolStart?) ::
      a < b
  }

  /** The calls in the list start in this order, before any of them does anything else. */
  ghost predicate StartsFirst(trace: seq<Event>, calls: seq<ToolCall>, indices: seq<nat>) {
    forall j, k | 0 <= j < |indices| && 0 <= k < |indices| && indices[j] < |calls| && indices[k] < |calls| ::
      StartPrecedes(trace, calls[indices[j]].id, calls[indices[k]].id, j < k)
  }

  /** Nothing of the call was added. */
  lemma NoNewOwn(a: seq<Event>, b: seq<Event>, id: string)
    requires a <= b && Own(b, id) == Own(a, id)
    ensures forall x | |a| <= x < |b| :: !Concerns(b[x], id)
  {
    var more := b[|a|..];
    assert b == a + more;
    OwnAppend(a, more, id);
    assert Own(more, id) == [];
    OwnNothing(more, id);
    hide Own, Concerns;
    forall x | |a| <= x < |b|
      ensures !Concerns(b[x], id)
    {
      assert b[x] == more[x - |a|];
    }
  }

  lemma PrecedesGrows(a: seq<Event>, b: seq<Event>, first: string, second: string)
    requires a <= b && Precedes(a, first, second) && (Own(b, first) == Own(a, first) || Own(b, second) == [])
    ensures Precedes(b, first, second)
  {
    if Own(b, second) == [] {
      OwnNothing(b, second);
    } else {
      NoNewOwn(a, b, first);
    }
    hide Own, Concerns;
    assert forall x | 0 <= x < |a| :: b[x] == a[x];
  }

  lemma ResultGrows(a: seq<Event>, b: seq<Event>, first: string, second: string)
    requires a <= b && ResultPrecedes(a, first, second)
    requires (forall x | |a| <= x < |b| :: !IsResultOf(b[x], first)) || Own(b, second) == []
    ensures ResultPrecedes(b, first, second)
  {
    if Own(b, second) == [] {
      OwnNothing(b, second);
    }
    hide Own, Concerns, IsResultOf;
    assert forall x | 0 <= x < |a| :: b[x] == a[x];
  }

  ghost predicate Tells(notices: seq<Notice>, m: Message) {
    exists y :: 0 <= y < |notices| && notices[y].message == m
  }

  lemma {:induction false} StartsAppend(a: seq<Event>, b: seq<Event>, id: string)
    ensures Starts(a + b, id) == Starts(a, id) + Starts(b, id)
    decreases |b|
  {
    if b == [] {
      assert a + b == a;
    } else {
      assert (a + b)[..|a + b| - 1] == a + b[..|b| - 1];
      StartsAppend(a, b[..|b| - 1], id);
    }
  }

  lemma {:induction false} NoStarts(trace: seq<Event>, id: string)
    requires Starts(trace, id) == 0
    ensures forall x | 0 <= x < |trace| :: !IsStart(trace[x], id)
  {
    if trace != [] {
      var before := trace[..|trace| - 1];
      NoStarts(before, id);
      assert forall x | 0 <= x < |before| :: trace[x] == before[x];
    }
  }

  lemma NoNewStarts(a: seq<Event>, b: seq<Event>, id: string)
    requires a <= b && Starts(b, id) <= Starts(a, id)
    ensures forall x | |a| <= x < |b| :: !IsStart(b[x], id)
  {
    var more := b[|a|..];
    assert b == a + more;
    StartsAppend(a, more, id);
    NoStarts(more, id);
    hide Starts, IsStart;
    forall x | |a| <= x < |b|
      ensures !IsStart(b[x], id)
    {
      assert b[x] == more[x - |a|];
    }
  }

  /** A call that had started does not start again. */
  lemma StartedOnce(s: Batch, t: Batch, i: nat)
    requires s.Valid() && t.Valid() && t.calls == s.calls && s.trace <= t.trace && i < |s.calls|
    requires s.done[i] > 0 || t.done[i] == 0
    ensures forall x | |s.trace| <= x < |t.trace| :: !IsStart(t.trace[x], s.calls[i].id)
  {
    CallsStartAndEndOnce(s, i);
    CallsStartAndEndOnce(t, i);
    hide Starts, Ends, IsStart, Own, Life, NoStrays, LatesAfterStart;
    NoNewStarts(s.trace, t.trace, s.calls[i].id);
  }

  /** A call whose start is the first event added has no other. */
  lemma StartedHere(s: Batch, t: Batch, i: nat)
    requires s.Valid() && t.Valid() && t.calls == s.calls && i < |s.calls| && s.trace + [ToolStart(s.calls[i])] <= t.trace
    ensures forall x | |s.trace| < x < |t.trace| :: !IsStart(t.trace[x], s.calls[i].id)
  {
    CallsStartAndEndOnce(t, i);
    CountsAppendOne(s.trace, ToolStart(s.calls[i]), s.calls[i].id);
    hide Starts, Ends, IsStart, Own, Life, NoStrays, LatesAfterStart;
    NoNewStarts(s.trace + [ToolStart(s.calls[i])], t.trace, s.calls[i].id);
  }

  // ---------------------------------------------------------------------------
  // Which calls an abort skips

  /** A call of the list that starts at `b` does its work, unless it is skipped: it is not the first of
      the list and the run had been aborted by then. */
  predicate WorkIsRight(work: Work, t: Batch, k: nat, i: nat, b: nat)
    requires i < |t.works|
  {
    t.works[i] == if k > 0 && t.aborted && t.abortedAt <= b then SKIPPED else work
  }

  ghost predicate SkippedRight(works: seq<Work>, t: Batch, indices: seq<nat>) {
    && |works| == |t.works| == |t.calls|
    && forall k, b | 0 <= k < |indices| && indices[k] < |t.calls| && 0 <= b < |t.trace| && IsStart(t.trace[b], t.calls[indices[k]].id) ::
      WorkIsRight(works[indices[k]], t, k, indices[k], b)
  }

  lemma SkipsStay(works: seq<Work>, s: Batch, t: Batch, indices: seq<nat>)
    requires SkippedRight(works, s, indices) && s.trace <= t.trace && t.calls == s.calls && |t.works| == |s.works| && AbortsLater(s, t)
    requires forall k, b | 0 <= k < |indices| && indices[k] < |s.calls| && 0 <= b < |s.trace| && IsStart(s.trace[b], s.calls[indices[k]].id) ::
      t.works[indices[k]] == s.works[indices[k]]
    requires forall k, x | 0 <= k < |indices| && indices[k] < |s.calls| && |s.trace| <= x < |t.trace| :: !IsStart(t.trace[x], s.calls[indices[k]].id)
    ensures SkippedRight(works, t, indices)
  {
    forall k, b | 0 <= k < |indices| && indices[k] < |t.calls| && 0 <= b < |t.trace| && IsStart(t.trace[b], t.calls[indices[k]].id)
      ensures WorkIsRight(works[indices[k]], t, k, indices[k], b)
    {
      assert b < |s.trace| && t.trace[b] == s.trace[b];
      assert WorkIsRight(works[indices[k]], s, k, indices[k], b);
    }
  }

  /** One more call of the list starts, as the first event added. */
  lemma SkipsOneMore(works: seq<Work>, s: Batch, t: Batch, indices: seq<nat>, m: nat)
    requires s.Valid() && t.Valid() && SkippedRight(works, s, indices) && t.calls == s.calls && t.works == s.works && AbortsLater(s, t)
    requires Ascending(indices, |s.calls|) && m < |indices| && s.trace + [ToolStart(s.calls[indices[m]])] <= t.trace
    requires s.works[indices[m]] == if m > 0 && s.aborted then SKIPPED else works[indices[m]]
    requires !s.aborted && t.aborted ==> |s.trace| < t.abortedAt
    requires forall j | 0 <= j < |s.calls| && j != indices[m] :: t.done[j] == s.done[j]
    ensures SkippedRight(works, t, indices)
  {
    StartedHere(s, t, indices[m]);
    forall k, b | 0 <= k < |indices| && indices[k] < |t.calls| && 0 <= b < |t.trace| && IsStart(t.trace[b], t.calls[indices[k]].id)
      ensures WorkIsRight(works[indices[k]], t, k, indices[k], b)
    {
      if b < |s.trace| {
        assert t.trace[b] == s.trace[b];
        assert WorkIsRight(works[indices[k]], s, k, indices[k], b);
      } else if k != m {
        assert indices[k] != indices[m];
        StartedOnce(s, t, indices[k]);
      }
    }
  }

  // ---------------------------------------------------------------------------
  // One more call lives

  /** After call `i` lived, the calls of the list are still one by one, if those after it have not started. */
  lemma LivesInTurn(s: Batch, t: Batch, indices: seq<nat>, i: nat)
    requires s.Valid() && t.Valid() && t.calls == s.calls && s.trace <= t.trace && Ascending(indices, |s.calls|)
    requires OneByOne(s.trace, s.calls, indices)
    requires forall k | 0 <= k < |indices| && indices[k] != i ::
      t.done[indices[k]] == s.done[indices[k]] && t.works[indices[k]] == s.works[indices[k]]
    requires forall k | 0 <= k < |indices| && indices[k] > i :: s.done[indices[k]] == 0
    ensures OneByOne(t.trace, t.calls, indices)
  {
    forall j, k | 0 <= j < k < |indices| && indices[j] < |t.calls| && indices[k] < |t.calls|
      ensures Precedes(t.trace, t.calls[indices[j]].id, t.calls[indices[k]].id)
    {
      assert indices[j] < indices[k];
      SameOwn(s, t, if indices[j] == i then indices[k] else indices[j]);
      hide Precedes, Own;
      PrecedesGrows(s.trace, t.trace, t.calls[indices[j]].id, t.calls[indices[k]].id);
    }
  }

  /** Calls that have not started are in any order, and none was skipped wrongly. */
  lemma NoneYet(works: seq<Work>, t: Batch, indices: seq<nat>)
    requires t.Valid() && |works| == |t.works| && forall k | 0 <= k < |indices| :: indices[k] < |t.calls| && t.done[indices[k]] == 0
    ensures OneByOne(t.trace, t.calls, indices) && SkippedRight(works, t, indices)
  {
    forall k | 0 <= k < |indices|
      ensures forall x | 0 <= x < |t.trace| :: !Concerns(t.trace[x], t.calls[indices[k]].id) && !IsStart(t.trace[x], t.calls[indices[k]].id)
    {
      NotYet(t, indices[k]);
    }
    hide Own, Life, Concerns, IsStart, NoStrays, LatesAfterStart, WithinTurn;
  }

  lemma NotYet(t: Batch, i: nat)
    requires t.Valid() && i < |t.calls| && t.done[i] == 0
    ensures forall x | 0 <= x < |t.trace| :: !Concerns(t.trace[x], t.calls[i].id) && !IsStart(t.trace[x], t.calls[i].id)
  {
    NothingOwn(t, i);
    hide Batch.Valid, Own, Life;
    OwnNothing(t.trace, t.calls[i].id);
    forall x | 0 <= x < |t.trace|
      ensures !Concerns(t.trace[x], t.calls[i].id) && !IsStart(t.trace[x], t.calls[i].id)
    {
      assert t.trace[x] in t.trace;
    }
  }

  lemma {:induction false} OwnHas(trace: seq<Event>, id: string)
    ensures forall x | 0 <= x < |trace| && Concerns(trace[x], id) :: trace[x] in Own(trace, id)
  {
    if trace != [] {
      var before := trace[..|trace| - 1];
      OwnHas(before, id);
      assert forall x | 0 <= x < |before| :: trace[x] == before[x];
    }
  }

  /** Calls that started one by one, and did nothing else yet. */
  lemma StartsAreFirst(t: Batch, indices: seq<nat>)
    requires t.Valid() && OneByOne(t.trace, t.calls, indices)
    requires forall k | 0 <= k < |indices| :: indices[k] < |t.calls| && t.done[indices[k]] <= 1
    ensures StartsFirst(t.trace, t.calls, indices)
  {
    forall j, k | 0 <= j < |indices| && 0 <= k < |indices| && indices[j] < |t.calls| && indices[k] < |t.calls|
      ensures StartPrecedes(t.trace, t.calls[indices[j]].id, t.calls[indices[k]].id, j < k)
    {
      if j < k {
        assert Precedes(t.trace, t.calls[indices[j]].id, t.calls[indices[k]].id);
      } else {
        OnlyStarted(t, indices[k]);
      }
    }
  }

  lemma OnlyStarted(t: Batch, i: nat)
    requires t.Valid() && i < |t.calls| && t.done[i] <= 1
    ensures forall x | 0 <= x < |t.trace| && Concerns(t.trace[x], t.calls[i].id) :: t.trace[x].ToolStart?
  {
    OwnHas(t.trace, t.calls[i].id);
    hide Own, NoStrays, LatesAfterStart, WithinTurn;
    assert Life(t.calls[i], t.works[i])[0] == ToolStart(t.calls[i]);
  }

  /** Whatever comes later, starts that are out stay first. */
  lemma StartsStay(s: Batch, t: Batch, indices: seq<nat>)
    requires s.Valid() && t.Valid() && t.calls == s.calls && s.trace <= t.trace && StartsFirst(s.trace, s.calls, indices)
    requires forall k | 0 <= k < |indices| :: indices[k] < |s.calls| && (s.done[indices[k]] > 0 || t.done[indices[k]] == 0)
    ensures StartsFirst(t.trace, t.calls, indices)
  {
    forall j, k | 0 <= j < |indices| && 0 <= k < |indices| && indices[j] < |t.calls| && indices[k] < |t.calls|
      ensures StartPrecedes(t.trace, t.calls[indices[j]].id, t.calls[indices[k]].id, j < k)
    {
      StartedOnce(s, t, indices[j]);
      hide StartPrecedes;
      StartGrows(s.trace, t.trace, t.calls[indices[j]].id, t.calls[indices[k]].id, j < k);
    }
  }

  lemma StartGrows(a: seq<Event>, b: seq<Event>, first: string, second: string, startsToo: bool)
    requires a <= b && StartPrecedes(a, first, second, startsToo)
    requires forall x | |a| <= x < |b| :: !IsStart(b[x], first)
    ensures StartPrecedes(b, first, second, startsToo)
  {
    hide Concerns, IsStart;
    assert forall x | 0 <= x < |a| :: b[x] == a[x];
  }

  lemma SameOwn(s: Batch, t: Batch, i: nat)
    requires s.Valid() && t.Valid() && t.calls == s.calls && i < |s.calls| && t.done[i] == s.done[i] && t.works[i] == s.works[i]
    ensures Own(t.trace, s.calls[i].id) == Own(s.trace, s.calls[i].id)
    ensures s.done[i] == 0 ==> Own(t.trace, s.calls[i].id) == []
  {
  }

  /** The results stay between the calls when what is added tells of no result of a call before one that
      has started. */
  lemma ResultsStayBetween(s: Batch, t: Batch, more: seq<Notice>, n: nat)
    requires s.Valid() && t.Valid() && t.calls == s.calls && s.trace <= t.trace && ResultsBetween(s.trace, s.calls)
    requires Notices(t.trace) == Notices(s.trace) + more
    requires forall y | 0 <= y < |more| :: more[y].message.ToolResult? && forall j | 0 <= j < n && j < |s.calls| :: more[y].message.callId != s.calls[j].id
    requires forall k | n < k < |s.calls| :: t.done[k] == 0
    ensures ResultsBetween(t.trace, t.calls)
  {
    NewNotices(s.trace, t.trace, more);
    forall j, k | 0 <= j < k < |t.calls|
      ensures ResultPrecedes(t.trace, t.calls[j].id, t.calls[k].id)
    {
      if j < n {
        forall x | |s.trace| <= x < |t.trace|
          ensures !IsResultOf(t.trace[x], t.calls[j].id)
        {
        }
      } else {
        NothingOwn(t, k);
      }
      hide ResultPrecedes, Own, Notices;
      ResultGrows(s.trace, t.trace, t.calls[j].id, t.calls[k].id);
    }
  }

  lemma NothingOwn(t: Batch, i: nat)
    requires t.Valid() && i < |t.calls| && t.done[i] == 0
    ensures Own(t.trace, t.calls[i].id) == []
  {
  }

  /** What is added tells only of these messages. */
  lemma NewNotices(a: seq<Event>, b: seq<Event>, more: seq<Notice>)
    requires a <= b && Notices(b) == Notices(a) + more
    ensures forall x | |a| <= x < |b| && (b[x].MessageStart? || b[x].MessageEnd?) :: Tells(more, b[x].message)
  {
    hide Notices, Tells;
    var rest := b[|a|..];
    assert b == a + rest;
    NoticesAppend(a, rest);
    SameTail(Notices(a), Notices(rest), more);
    NoticedMessages(rest);
    forall x | |a| <= x < |b| && (b[x].MessageStart? || b[x].MessageEnd?)
      ensures Tells(more, b[x].message)
    {
      assert b[x] == rest[x - |a|];
    }
  }

  lemma SameTail<T>(a: seq<T>, b: seq<T>, c: seq<T>)
    requires a + b == a + c
    ensures b == c
  {
    assert (a + b)[|a|..] == b && (a + c)[|a|..] == c;
  }

  lemma {:induction false} NoticedMessages(trace: seq<Event>)
    ensures forall x | 0 <= x < |trace| && (trace[x].MessageStart? || trace[x].MessageEnd?) :: Tells(Notices(trace), trace[x].message)
  {
    if trace != [] {
      var n := |trace| - 1;
      var before := trace[..n];
      NoticedMessages(before);
      NoticesOne(before, trace[n]);
      assert trace == before + [trace[n]];
      hide Notices, NoticeOf, Tells;
      forall x | 0 <= x < |trace| && (trace[x].MessageStart? || trace[x].MessageEnd?)
        ensures Tells(Notices(trace), trace[x].message)
      {
        if x < n {
          assert before[x] == trace[x];
          StillTold(Notices(before), NoticeOf(trace[n]), trace[x].message);
        } else {
          NewlyTold(Notices(before), trace[n]);
        }
      }
    }
  }

  lemma StillTold(before: seq<Notice>, more: seq<Notice>, m: Message)
    requires Tells(before, m)
    ensures Tells(before + more, m)
  {
    var y :| 0 <= y < |before| && before[y].message == m;
    assert (before + more)[y].message == m;
  }

  lemma NewlyTold(before: seq<Notice>, e: Event)
    requires e.MessageStart? || e.MessageEnd?
    ensures Tells(before + NoticeOf(e), e.message)
  {
    assert (before + NoticeOf(e))[|before|].message == e.message;
  }

  // ---------------------------------------------------------------------------
  // Phases shared by the executors

  /** Nothing but own events was added, and no call changed its work. */
  ghost predicate Kept(s: Batch, t: Batch) {
    && SameSetup(s, t) && t.works == s.works
    && |t.done| == |s.done|
    && s.trace <= t.trace && Notices(t.trace) == Notices(s.trace)
    && t.emittedResultIds == s.emittedResultIds && AbortsLater(s, t)
  }

  lemma KeptSelf(s: Batch)
    ensures Kept(s, s)
  {
  }

  lemma KeptLengths(s: Batch, t: Batch)
    requires Kept(s, t)
    ensures t.calls == s.calls && t.works == s.works && |t.done| == |s.done|
  {
  }

  lemma KeptTrans(s: Batch, t: Batch, u: Batch)
    requires Kept(s, t) && Kept(t, u)
    ensures Kept(s, u)
  {
  }

  /** A call run by the executor itself: start, what it does, end. */
  method RunInline(s: Batch, i: nat) returns (t: Batch, ok: bool)
    requires s.Valid() && s.Idle() && i < |s.calls| && s.done[i] == 0
    ensures t.Valid() && t.Idle()
    ensures Kept(s, t) && t.failed == s.failed && s.trace + [ToolStart(s.calls[i])] <= t.trace
    ensures (!s.aborted && t.aborted ==> |s.trace| < t.abortedAt) && (!s.throwing ==> ok)
    ensures forall j | 0 <= j < |s.done| && j != i :: t.done[j] == s.done[j]
    ensures ok ==> Lived(t, i)
  {
    assert Kept(s, s);
    assert s.Next(i) == ToolStart(s.calls[i]);
    hide Life, Own, Notices, Paired, Whole, NoticeOf, Concerns, Kept, NoStrays, LatesAfterStart;
    t := s;
    ok := true;
    while t.done[i] < |t.works[i].notes| + 2 && ok
      invariant t.Valid() && t.Idle() && (!s.throwing ==> ok)
      invariant |t.done| == |s.done| == |s.calls| && Kept(s, t) && t.failed == s.failed
      invariant if t.done[i] == 0 then t == s && ok
        else s.trace + [ToolStart(s.calls[i])] <= t.trace && (!s.aborted && t.aborted ==> |s.trace| < t.abortedAt)
      invariant forall j | 0 <= j < |s.done| && j != i :: t.done[j] == s.done[j]
      decreases |t.works[i].notes| + 2 - t.done[i]
    {
      ghost var before := t;
      t, ok := EmitOwn(t, i);
      KeptTrans(s, before, t);
      KeptGrows(s, before, t);
    }
  }

  lemma KeptGrows(s: Batch, t: Batch, u: Batch)
    requires Kept(s, t) && Kept(t, u)
    ensures t.throwing == s.throwing == u.throwing && s.trace <= t.trace <= u.trace && AbortsLater(t, u) && t.calls == s.calls && u.works == t.works == s.works
  {
  }

  ghost predicate Ascending(indices: seq<nat>, n: nat) {
    && (forall k | 0 <= k < |indices| :: indices[k] < n)
    && (forall j, k | 0 <= j < k < |indices| :: indices[j] < indices[k])
  }

  /** Of the calls in `indices`, only the first `k` may have emitted since `s`. */
  ghost predicate Touched(s: Batch, t: Batch, indices: seq<nat>, k: nat) {
    && |t.done| == |s.done| && k <= |indices|
    && (forall j | 0 <= j < |indices| :: indices[j] < |s.done|)
    && (forall i | 0 <= i < |s.done| && i !in indices :: t.done[i] == s.done[i])
    && (forall j | k <= j < |indices| :: t.done[indices[j]] == s.done[indices[j]])
  }

  lemma TouchedNone(s: Batch, indices: seq<nat>)
    requires Ascending(indices, |s.done|)
    ensures Touched(s, s, indices, 0)
    ensures forall j | 0 <= j < |indices| :: indices[j] < |s.done|
  {
  }

  lemma TouchedOneMore(s: Batch, before: Batch, t: Batch, indices: seq<nat>, k: nat)
    requires Ascending(indices, |s.done|) && Touched(s, before, indices, k) && k < |indices|
    requires |t.done| == |before.done|
    requires forall i | 0 <= i < |t.done| && i != indices[k] :: t.done[i] == before.done[i]
    ensures Touched(s, t, indices, k + 1)
    ensures forall j | 0 <= j < k :: t.done[indices[j]] == before.done[indices[j]]
  {
  }

  lemma TouchedAt(s: Batch, t: Batch, indices: seq<nat>, k: nat)
    requires Touched(s, t, indices, k) && k < |indices|
    ensures |t.done| == |s.done| && indices[k] < |s.done| && t.done[indices[k]] == s.done[indices[k]]
  {
  }

  /** The starts of a subset, serially and in order, before any pipeline runs. */
  method EmitParallelStarts(s: Batch, indices: seq<nat>) returns (t: Batch, ok: bool)
    requires s.Valid() && s.Idle() && Ascending(indices, |s.calls|)
    requires forall k | 0 <= k < |indices| :: s.done[indices[k]] == 0
    ensures t.Valid() && t.Idle()
    ensures Kept(s, t) && t.failed == s.failed && Touched(s, t, indices, |indices|)
    ensures ok ==> forall k | 0 <= k < |indices| :: t.done[indices[k]] == 1
    ensures StartsFirst(t.trace, t.calls, indices) && (!s.throwing ==> ok)
  {
    hide Life, Own, Notices, Paired, Whole, NoticeOf, Concerns, Batch.Valid, Touched, Kept, DistinctIds, WithinTurn, OneByOne, StartsFirst;
    KeptSelf(s);
    ValidLengths(s);
    TouchedNone(s, indices);
    NoneYet(s.works, s, indices);
    StartsAreFirst(s, indices);
    t := s;
    ok := true;
    var k := 0;
    while k < |indices|
      invariant 0 <= k <= |indices| && ok
      invariant t.Valid() && t.Idle()
      invariant Kept(s, t) && t.failed == s.failed && Touched(s, t, indices, k)
      invariant |t.done| == |t.works| == |t.calls| && forall j | 0 <= j < |indices| :: indices[j] < |t.done|
      invariant forall j | 0 <= j < |indices| :: t.done[indices[j]] == if j < k then 1 else 0
      invariant OneByOne(t.trace, t.calls, indices) && StartsFirst(t.trace, t.calls, indices)
    {
      ghost var before := t;
      TouchedAt(s, t, indices, k);
      ValidLengths(t);
      assert s.done[indices[k]] == 0;
      t, ok := EmitOwn(t, indices[k]);
      ValidLengths(t);
      KeptTrans(s, before, t);
      KeptLengths(s, t);
      KeptGrows(s, before, t);
      TouchedOneMore(s, before, t, indices, k);
      LivesInTurn(before, t, indices, indices[k]);
      StartsAreFirst(t, indices);
      if !ok {
        TouchedMore(s, t, indices, k + 1);
        return;
      }
      k := k + 1;
    }
  }

  lemma TouchedMore(s: Batch, t: Batch, indices: seq<nat>, k: nat)
    requires Touched(s, t, indices, k)
    ensures Touched(s, t, indices, |indices|)
  {
  }

  function Spawned(s: Batch, indices: seq<nat>): Batch {
    s.(running := seq(|s.running|, i => i in indices))
  }

  /** Waiting for all pipelines: ends when the last one has, or at the first that throws. */
  method AwaitAll(s: Batch) returns (t: Batch)
    requires s.Valid() && !s.failed
    ensures t.Valid() && Interfered(s, t)
    ensures !t.failed ==> t.Idle()
  {
    hide Life, Own, Notices, Paired, Whole, NoticeOf, Concerns, PipelineStep, Left, NoStrays, LatesAfterStart;
    t := s;
    while !t.failed && exists i :: 0 <= i < |t.running| && t.running[i]
      invariant t.Valid() && Interfered(s, t)
      decreases Left(t.calls, t.works, t.done)
    {
      var i :| 0 <= i < |t.running| && t.running[i];
      ghost var before := t;
      StepLeavesLess(t.calls, t.works, t.done, i);
      t := TakeStep(t, i);
      InterferedTrans(s, before, t);
    }
  }

  /** The concurrent part: starts, then one pipeline per call, joined. */
  method RunConcurrently(s: Batch, indices: seq<nat>) returns (t: Batch, ok: bool)
    requires s.Valid() && s.Idle() && !s.failed
    requires Ascending(indices, |s.calls|)
    requires forall k | 0 <= k < |indices| :: s.done[indices[k]] == 0
    ensures t.Valid()
    ensures Kept(s, t)
    ensures forall j | 0 <= j < |s.done| && j !in indices :: t.done[j] == s.done[j]
    ensures ok ==> t.Idle() && !t.failed && forall k | 0 <= k < |indices| :: t.done[indices[k]] == |t.works[indices[k]].notes| + 2
    ensures StartsFirst(t.trace, t.calls, indices) && (!s.throwing ==> ok)
    ensures forall j | 0 <= j < |t.running| && j !in indices :: !t.running[j]
  {
    hide Life, Own, Notices, Paired, Whole, NoticeOf, Concerns, NoStrays, LatesAfterStart, StartsFirst;
    hide Batch.Valid, Kept, Touched, Ascending;
    StillShort(s, indices);
    t, ok := EmitParallelStarts(s, indices);
    KeptLengths(s, t);
    if !ok {
      StartedOnly(s, t, indices);
      return;
    }
    ghost var started := Spawned(t, indices);
    SpawnedIsValid(s, t, indices);
    t := AwaitAll(Spawned(t, indices));
    StartsStay(started, t, indices);
    Joined(s, started, t, indices);
    ok := !t.failed;
  }

  lemma StillShort(s: Batch, indices: seq<nat>)
    requires s.Valid() && Ascending(indices, |s.calls|)
    ensures |s.done| == |s.calls| && forall k | 0 <= k < |indices| :: indices[k] < |s.done|
  {
  }

  lemma StartedOnly(s: Batch, t: Batch, indices: seq<nat>)
    requires t.Valid() && t.Idle() && Touched(s, t, indices, |indices|)
    ensures forall j | 0 <= j < |s.done| && j !in indices :: t.done[j] == s.done[j]
    ensures forall j | 0 <= j < |t.running| && j !in indices :: !t.running[j]
  {
  }

  lemma SpawnedIsValid(s: Batch, t: Batch, indices: seq<nat>)
    requires t.Valid() && Kept(s, t) && Touched(s, t, indices, |indices|) && !t.failed
    requires forall k | 0 <= k < |indices| :: indices[k] < |t.done| && t.done[indices[k]] == 1
    ensures var started := Spawned(t, indices);
      && started.Valid() && !started.failed && Kept(s, started) && Touched(s, started, indices, |indices|)
      && started.trace == t.trace && started.calls == t.calls
      && forall k | 0 <= k < |indices| :: indices[k] < |started.calls| && started.done[indices[k]] > 0
  {
    hide Own, Life, Notices, NoStrays, LatesAfterStart, WithinTurn;
  }

  lemma Joined(s: Batch, started: Batch, t: Batch, indices: seq<nat>)
    requires Kept(s, started) && Touched(s, started, indices, |indices|) && Interfered(started, t)
    requires |started.done| == |started.works| == |started.running| && started.running == seq(|started.running|, i => i in indices)
    requires t.Valid() && (!t.failed ==> t.Idle())
    ensures Kept(s, t) && (t.failed ==> s.throwing)
    ensures forall j | 0 <= j < |s.done| && j !in indices :: t.done[j] == s.done[j]
    ensures forall j | 0 <= j < |t.running| && j !in indices :: !t.running[j]
    ensures !t.failed ==> forall k | 0 <= k < |indices| :: indices[k] < |t.done| && t.done[indices[k]] == |t.works[indices[k]].notes| + 2
  {
    hide Notices;
    if !t.failed {
      forall k | 0 <= k < |indices|
        ensures t.done[indices[k]] == |t.works[indices[k]].notes| + 2
      {
        assert started.running[indices[k]];
      }
    }
  }

  // ---------------------------------------------------------------------------
  // The executors

  datatype BatchResult = Completed(messages: seq<Message>, terminate: bool) | Threw

  predicate ShouldTerminate(works: seq<Work>) {
    works != [] && forall i | 0 <= i < |works| :: works[i].outcome.terminate
  }

  predicate StaysAborted(s: Batch, t: Batch) {
    s.aborted ==> t.aborted && t.abortedAt == s.abortedAt
  }

  ghost predicate Fresh(s: Batch) {
    && s.Valid() && s.trace == [] && !s.failed && s.emittedResultIds == {}
    && (forall i | 0 <= i < |s.calls| :: s.done[i] == 0 && !s.running[i])
  }

  /** A completed batch: every call lived its whole life, and the results were emitted once
      each, in the order of the calls. */
  ghost predicate BatchDone(s: Batch, t: Batch, r: BatchResult) {
    && t.Valid() && t.Idle() && SameSetup(s, t)
    && (forall i | 0 <= i < |t.calls| :: t.done[i] == |t.works[i].notes| + 2)
    && Notices(t.trace) == Paired(ResultMessages(t.calls, t.works))
    && r == Completed(ResultMessages(t.calls, t.works), ShouldTerminate(t.works))
  }

  /** An unwound batch: the first `n` results were out when a listener threw, the unwind
      paired the other calls, and no call has more than its own events. */
  ghost predicate BatchUnwound(s: Batch, t: Batch, r: BatchResult, n: nat) {
    && t.Valid() && SameSetup(s, t) && n <= |t.calls|
    && Notices(t.trace) == Paired(ResultMessages(t.calls, t.works)[..n] + AbortedMessages(t.calls)[n..])
    && r == Threw
  }

  /** The work of the calls up to the cut stands; those listed after it were skipped. */
  ghost predicate SkippedFrom(s: Batch, t: Batch, indices: seq<nat>, cut: nat) {
    && |t.works| == |s.works| && cut <= |indices|
    && (forall k | 0 <= k < |indices| :: indices[k] < |s.works|)
    && (forall i | 0 <= i < |s.works| && i !in indices :: t.works[i] == s.works[i])
    && (forall k | 0 <= k < cut :: t.works[indices[k]] == s.works[indices[k]])
    && (forall k | cut <= k < |indices| :: t.works[indices[k]] == SKIPPED)
    && (cut < |indices| ==> 0 < cut && t.aborted)
  }

  function AllIndices(n: nat): (indices: seq<nat>)
    ensures |indices| == n && forall i | 0 <= i < n :: indices[i] == i
  {
    seq(n, i => i)
  }

  /** The replay of result messages in the order of the calls. */
  method ReplayResults(s: Batch) returns (t: Batch)
    requires s.Valid() && s.Idle() && ResultsOut(s, 0) && Notices(s.trace) == []
    ensures t.Valid() && Grows(s, t)
    ensures Notices(t.trace) == Paired(ResultMessages(s.calls, s.works))
  {
    assert Grows(s, s);
    ghost var messages := ResultMessages(s.calls, s.works);
    assert messages[..|messages|] == messages;
    NothingPaired();
    hide Life, Own, Notices, Paired, Whole, NoticeOf, Concerns, Grows, ResultMessages, Batch.Valid;
    t := s;
    var i := 0;
    while i < |s.calls|
      invariant 0 <= i <= |s.calls| && t.calls == s.calls && t.works == s.works
      invariant t.Valid() && Grows(s, t)
      invariant Notices(t.trace) == Paired(messages[..i])
    {
      ghost var before := t;
      ValidLengths(t);
      t := EmitResult(t, t.calls[i].id, ResultMessage(t.calls[i], t.works[i].outcome));
      GrowsTrans(s, before, t);
      GrowsKeeps(before, t);
      OneMoreResult(s.calls, s.works, i);
      i := i + 1;
    }
  }

  lemma OneMoreResult(calls: seq<ToolCall>, works: seq<Work>, i: nat)
    requires i < |calls| == |works|
    ensures var messages := ResultMessages(calls, works);
      Paired(messages[..i + 1]) == Paired(messages[..i]) + Whole(ResultMessage(calls[i], works[i].outcome))
  {
    var messages := ResultMessages(calls, works);
    assert messages[..i + 1] == messages[..i] + [messages[i]];
    PairedAppend(messages[..i], [messages[i]]);
    PairedOne(messages[i]);
  }

  lemma ValidLengths(t: Batch)
    requires t.Valid()
    ensures |t.works| == |t.done| == |t.running| == |t.calls|
  {
  }

  lemma GrowsKeeps(s: Batch, t: Batch)
    requires Grows(s, t)
    ensures t.calls == s.calls && t.works == s.works && SameSetup(s, t) && StaysAborted(s, t)
  {
  }

  lemma ResultAt(calls: seq<ToolCall>, works: seq<Work>, i: nat)
    requires i < |calls| == |works|
    ensures ResultMessages(calls, works)[i] == ResultMessage(calls[i], works[i].outcome)
  {
  }

  method ExecuteToolCallsParallel(s: Batch) returns (t: Batch, r: BatchResult)
    requires Fresh(s)
    ensures if r.Threw? then BatchUnwound(s, t, r, 0) && s.throwing else BatchDone(s, t, r)
    ensures t.works == s.works && StartsFirst(t.trace, t.calls, AllIndices(|t.calls|)) && StaysAborted(s, t)
  {
    hide StartsFirst, Life, Own, Notices, Paired, Whole, NoticeOf, Concerns, ResultMessages, AbortedMessages, DistinctIds, WithinTurn,
      NoStrays, LatesAfterStart;
    FreshIsQuiet(s);
    hide Batch.Valid, Interfered, Grows;
    var indices := AllIndices(|s.calls|);
    var ok;
    t, ok := RunConcurrently(s, indices);
    ResultsStillOut(s, t, 0);
    if ok {
      ghost var joined := t;
      t := ReplayResults(t);
      StillLived(joined, t);
      StartsGrow(joined, t, indices);
      AllLived(t, indices);
      r := Completed(ResultMessages(t.calls, t.works), ShouldTerminate(t.works));
    } else {
      ghost var joined := t;
      t := SynthesizeMissingToolResults(t, 0);
      GrowsKeeps(joined, t);
      StartsGrow(joined, t, indices);
      FirstNone(t.calls, t.works);
      r := Threw;
    }
  }

  lemma StartsGrow(s: Batch, t: Batch, indices: seq<nat>)
    requires s.Valid() && t.Valid() && Grows(s, t) && StartsFirst(s.trace, s.calls, indices)
    requires forall k | 0 <= k < |indices| :: indices[k] < |s.calls|
    ensures StartsFirst(t.trace, t.calls, indices)
  {
    hide Own, Life, NoStrays, LatesAfterStart, WithinTurn, StartsFirst;
    StartsStay(s, t, indices);
  }

  lemma AllLived(t: Batch, indices: seq<nat>)
    requires |t.works| == |t.done| == |t.calls| && indices == AllIndices(|t.calls|)
    requires forall k | 0 <= k < |indices| :: t.done[indices[k]] == |t.works[indices[k]].notes| + 2
    ensures forall i | 0 <= i < |t.calls| :: t.done[i] == |t.works[i].notes| + 2
  {
    forall i | 0 <= i < |t.calls|
      ensures t.done[i] == |t.works[i].notes| + 2
    {
      assert indices[i] == i;
    }
  }

  lemma SkippedTail(s: Batch, t: Batch, cut: nat)
    requires |t.works| == |s.works| && cut <= |s.works|
    requires forall i | 0 <= i < cut :: t.works[i] == s.works[i]
    requires forall i | cut <= i < |s.works| :: t.works[i] == SKIPPED
    requires cut < |s.works| ==> 0 < cut && t.aborted
    ensures SkippedFrom(s, t, AllIndices(|s.works|), cut)
  {
    var indices := AllIndices(|s.works|);
    forall i | 0 <= i < |s.works| && i !in indices
      ensures t.works[i] == s.works[i]
    {
      assert indices[i] == i;
    }
  }

  lemma FreshIsQuiet(s: Batch)
    requires Fresh(s)
    ensures s.Idle() && ResultsOut(s, 0) && Notices(s.trace) == []
    ensures |s.works| == |s.done| == |s.running| == |s.calls|
  {
  }

  lemma ResultsStillOut(s: Batch, t: Batch, n: nat)
    requires Kept(s, t) && ResultsOut(s, n)
    ensures ResultsOut(t, n) && Notices(t.trace) == Notices(s.trace)
    ensures t.calls == s.calls && t.works == s.works && SameSetup(s, t) && StaysAborted(s, t)
  {
    hide Notices, Paired, Whole, NoticeOf;
  }

  lemma StillLived(s: Batch, t: Batch)
    requires s.Valid() && s.Idle() && Grows(s, t)
    ensures t.Idle() && t.done == s.done && t.calls == s.calls && t.works == s.works
    ensures SameSetup(s, t) && |t.done| == |t.works| == |t.calls| && StaysAborted(s, t)
  {
  }

  lemma FirstNone(calls: seq<ToolCall>, works: seq<Work>)
    requires |calls| == |works|
    ensures ResultMessages(calls, works)[..0] == []
    ensures [] + AbortedMessages(calls)[0..] == AbortedMessages(calls)[0..]
    ensures [] + Paired(AbortedMessages(calls)[0..]) == Paired(AbortedMessages(calls)[0..])
  {
  }

  /** Skips call `i` after an abort: a start, then an end with the aborted outcome. */
  function Skip(s: Batch, i: nat): Batch
    requires i < |s.works|
  {
    s.(works := s.works[i := SKIPPED])
  }

  lemma SkipIsValid(s: Batch, i: nat)
    requires s.Valid() && i < |s.calls| && s.done[i] == 0 && !s.running[i]
    ensures Skip(s, i).Valid()
  {
  }

  /** The sequential executor has finished exactly the first `n` calls. */
  ghost predicate Upto(s: Batch, n: nat) {
    && n <= |s.calls| == |s.works| == |s.done| && s.Idle() && ResultsOut(s, n)
    && (forall j | 0 <= j < n :: s.done[j] == |s.works[j].notes| + 2)
    && (forall j | n <= j < |s.calls| :: s.done[j] == 0)
    && Notices(s.trace) == Paired(ResultMessages(s.calls, s.works)[..n])
  }

  lemma UptoOneMore(s: Batch, ran: Batch, t: Batch, n: nat)
    requires s.Valid() && Upto(s, n) && n < |s.calls|
    requires ran.Idle() && Kept(s, ran) && |ran.works| == |ran.done| && Lived(ran, n)
    requires forall j | 0 <= j < |s.done| && j != n :: ran.done[j] == s.done[j]
    requires ran.Valid() && Grows(ran, t)
    requires Notices(t.trace) == Notices(ran.trace) + Whole(ResultMessage(s.calls[n], s.works[n].outcome))
    requires t.emittedResultIds == ran.emittedResultIds + {s.calls[n].id}
    ensures Upto(t, n + 1)
  {
    hide Notices, Paired, Whole, NoticeOf, Life, Own, Batch.Valid;
    StillLived(ran, t);
    StillDistinct(s, n);
    var messages := ResultMessages(s.calls, s.works);
    ResultAt(s.calls, s.works, n);
    OneMoreResult(s.calls, s.works, n);
  }

  /** The calls live one after the other, each result comes before the next call, and exactly the calls
      that start after an abort are skipped, the first aside. */
  ghost predicate Serially(works: seq<Work>, t: Batch) {
    var indices := AllIndices(|t.calls|);
    SkippedRight(works, t, indices) && OneByOne(t.trace, t.calls, indices) && ResultsBetween(t.trace, t.calls)
  }

  lemma RanSerially(works: seq<Work>, s: Batch, t: Batch, n: nat)
    requires s.Valid() && t.Valid() && Upto(s, n) && n < |s.calls| && Serially(works, s) && Kept(s, t)
    requires s.works[n] == if n > 0 && s.aborted then SKIPPED else works[n]
    requires s.trace + [ToolStart(s.calls[n])] <= t.trace && (!s.aborted && t.aborted ==> |s.trace| < t.abortedAt)
    requires forall j | 0 <= j < |s.done| && j != n :: t.done[j] == s.done[j]
    ensures Serially(works, t)
  {
    hide Notices, SkippedRight, OneByOne, ResultsBetween, Batch.Valid, Upto, IsStart, DistinctIds, ResultMessages, Paired;
    var indices := AllIndices(|s.calls|);
    StillWaiting(s, t, n);
    assert Notices(s.trace) + [] == Notices(s.trace);
    SkipsOneMore(works, s, t, indices, n);
    LivesInTurn(s, t, indices, n);
    ResultsStayBetween(s, t, [], n);
  }

  lemma StillWaiting(s: Batch, t: Batch, n: nat)
    requires s.Valid() && t.Valid() && Upto(s, n) && n < |s.calls| && Kept(s, t)
    requires forall j | 0 <= j < |s.done| && j != n :: t.done[j] == s.done[j]
    ensures |s.calls| == |s.works| == |s.done| == |t.done| == |t.works| == |t.calls|
    ensures forall k | n < k < |s.calls| :: s.done[k] == 0 && t.done[k] == 0
  {
    hide Notices, Own, Life, NoStrays, LatesAfterStart, WithinTurn, ResultMessages, Paired;
  }

  lemma ReportedSerially(works: seq<Work>, s: Batch, t: Batch, n: nat, more: seq<Notice>)
    requires s.Valid() && s.Idle() && t.Valid() && Serially(works, s) && Grows(s, t) && Notices(t.trace) == Notices(s.trace) + more
    requires forall y | 0 <= y < |more| :: more[y].message.ToolResult? && forall j | 0 <= j < n && j < |s.calls| :: more[y].message.callId != s.calls[j].id
    requires forall k | n < k < |s.calls| :: s.done[k] == 0
    ensures Serially(works, t)
  {
    StillLived(s, t);
    var indices := AllIndices(|s.calls|);
    hide Notices, Paired, Own, Life, OneByOne, ResultsBetween, NoStrays, LatesAfterStart, WithinTurn, SkippedRight;
    SkipsUnchanged(works, s, t, indices);
    LivesInTurn(s, t, indices, |s.calls|);
    ResultsStayBetween(s, t, more, n);
  }

  /** No call starts. */
  lemma SkipsUnchanged(works: seq<Work>, s: Batch, t: Batch, indices: seq<nat>)
    requires s.Valid() && t.Valid() && SkippedRight(works, s, indices) && s.trace <= t.trace && AbortsLater(s, t)
    requires t.calls == s.calls && t.works == s.works
    requires forall k | 0 <= k < |indices| && indices[k] < |s.calls| :: s.done[indices[k]] > 0 || t.done[indices[k]] == 0
    ensures SkippedRight(works, t, indices)
  {
    hide Own, Life, IsStart, NoStrays, LatesAfterStart, WithinTurn;
    forall k | 0 <= k < |indices| && indices[k] < |s.calls|
      ensures forall x | |s.trace| <= x < |t.trace| :: !IsStart(t.trace[x], s.calls[indices[k]].id)
    {
      StartedOnce(s, t, indices[k]);
    }
    SkipsStay(works, s, t, indices);
  }

  /** Marking a call that has not started as skipped changes nothing of what happened. */
  lemma SkippedSerially(works: seq<Work>, s: Batch, i: nat)
    requires s.Valid() && i < |s.calls| && s.done[i] == 0 && !s.running[i] && Serially(works, s)
    ensures Serially(works, Skip(s, i))
  {
    var t := Skip(s, i);
    CallsStartAndEndOnce(s, i);
    NoStarts(s.trace, s.calls[i].id);
    hide Own, Life, Starts, Ends, OneByOne, ResultsBetween, NoStrays, LatesAfterStart, WithinTurn;
    SkipsStay(works, s, t, AllIndices(|s.calls|));
  }

  lemma WholeOfResult(m: Message, calls: seq<ToolCall>, n: nat)
    requires m.ToolResult? && n < |calls| && m.callId == calls[n].id && DistinctIds(calls)
    ensures forall y | 0 <= y < |Whole(m)| ::
      Whole(m)[y].message.ToolResult? && forall j | 0 <= j < n && j < |calls| :: Whole(m)[y].message.callId != calls[j].id
  {
  }

  lemma {:induction false} PairedMessages(ms: seq<Message>)
    ensures forall y | 0 <= y < |Paired(ms)| :: Paired(ms)[y].message in ms
  {
    if ms != [] {
      var n := |ms| - 1;
      PairedMessages(ms[..n]);
      assert ms == ms[..n] + [ms[n]];
    }
  }

  lemma PairedOfMissing(calls: seq<ToolCall>, n: nat)
    requires n <= |calls| && DistinctIds(calls)
    ensures var more := Paired(AbortedMessages(calls)[n..]);
      forall y | 0 <= y < |more| :: more[y].message.ToolResult? && forall j | 0 <= j < n && j < |calls| :: more[y].message.callId != calls[j].id
  {
    var missing := AbortedMessages(calls)[n..];
    PairedMessages(missing);
    hide Paired;
    forall y | 0 <= y < |Paired(missing)|
      ensures Paired(missing)[y].message.ToolResult? && forall j | 0 <= j < n && j < |calls| :: Paired(missing)[y].message.callId != calls[j].id
    {
      var k :| 0 <= k < |missing| && missing[k] == Paired(missing)[y].message;
      assert missing[k] == AbortedMessages(calls)[n + k];
    }
  }

  /** One whole call: run it, then emit its result. When a listener throws, unwind. */
  method RunAndReport(s: Batch, n: nat, ghost works: seq<Work>) returns (t: Batch, ok: bool)
    requires s.Valid() && Upto(s, n) && n < |s.calls| && Serially(works, s)
    requires s.works[n] == if n > 0 && s.aborted then SKIPPED else works[n]
    ensures Serially(works, t) && (!s.throwing ==> ok) && s.trace <= t.trace
    ensures t.Valid() && t.calls == s.calls && t.works == s.works && SameSetup(s, t)
    ensures AbortsLater(s, t)
    ensures ok ==> Upto(t, n + 1)
    ensures !ok ==> Notices(t.trace) == Paired(ResultMessages(t.calls, t.works)[..n] + AbortedMessages(t.calls)[n..])
  {
    hide Notices, Paired, Whole, NoticeOf, Life, Own, Batch.Valid, ResultMessages, AbortedMessages, Concerns, Serially, AbortsLater;
    t, ok := RunInline(s, n);
    RanSerially(works, s, t, n);
    ResultsStillOut(s, t, n);
    ValidIds(s);
    ghost var ran := t;
    ghost var done, missing := ResultMessages(t.calls, t.works)[..n], AbortedMessages(t.calls)[n..];
    if ok {
      ghost var m := ResultMessage(t.calls[n], t.works[n].outcome);
      t := EmitResult(t, t.calls[n].id, ResultMessage(t.calls[n], t.works[n].outcome));
      UptoOneMore(s, ran, t, n);
      WholeOfResult(m, s.calls, n);
      ReportedSerially(works, ran, t, n, Whole(m));
    } else {
      t := SynthesizeMissingToolResults(t, n);
      PairedAppend(done, missing);
      PairedOfMissing(s.calls, n);
      ReportedSerially(works, ran, t, n, Paired(missing));
    }
    GrowsKeeps(ran, t);
    AbortsTwice(s, ran, t);
  }

  lemma ValidIds(s: Batch)
    requires s.Valid()
    ensures DistinctIds(s.calls)
  {
  }

  lemma AbortsTwice(s: Batch, t: Batch, u: Batch)
    requires AbortsLater(s, t) && AbortsLater(t, u) && |s.trace| <= |t.trace|
    ensures AbortsLater(s, u)
  {
  }

  /** After an abort every remaining call gets its start, an aborted end and its result. */
  method SkipRemaining(s: Batch, from: nat, ghost works: seq<Work>) returns (t: Batch, ok: bool, ghost n: nat)
    requires s.Valid() && Upto(s, from) && from > 0 && s.aborted && Serially(works, s)
    ensures Serially(works, t) && (!s.throwing ==> ok)
    ensures t.Valid() && SameSetup(s, t) && |t.works| == |s.works|
    ensures AbortsLater(s, t)
    ensures ok ==> Upto(t, |s.calls|)
    ensures ok ==> forall j | from <= j < |s.calls| :: t.works[j] == SKIPPED
    ensures forall j | 0 <= j < from :: t.works[j] == s.works[j]
    ensures !ok ==> n <= |s.calls| && |t.works| == |t.calls|
    ensures !ok ==> Notices(t.trace) == Paired(ResultMessages(t.calls, t.works)[..n] + AbortedMessages(t.calls)[n..])
  {
    hide Notices, Paired, Whole, NoticeOf, Life, Own, ResultMessages, AbortedMessages, Concerns, Batch.Valid, Serially;
    t, ok := s, true;
    n := from;
    var i := from;
    while i < |s.calls|
      invariant from <= i <= |s.calls|
      invariant t.Valid() && Upto(t, i) && AbortsLater(s, t) && |s.trace| <= |t.trace| && Serially(works, t)
      invariant SameSetup(s, t) && |t.works| == |s.works|
      invariant forall j | from <= j < i :: t.works[j] == SKIPPED
      invariant forall j | 0 <= j < from :: t.works[j] == s.works[j]
    {
      SkipUpto(t, i);
      SkipNotRunning(t, i);
      SkippedSerially(works, t, i);
      ghost var before := t;
      t := Skip(t, i);
      n := i;
      t, ok := RunAndReport(t, i, works);
      AbortsTwice(s, before, t);
      if !ok {
        return;
      }
      i := i + 1;
    }
  }

  lemma SkipNotRunning(s: Batch, i: nat)
    requires s.Valid() && Upto(s, i) && i < |s.calls|
    ensures s.done[i] == 0 && !s.running[i]
  {
  }

  lemma SkipUpto(s: Batch, n: nat)
    requires s.Valid() && Upto(s, n) && n < |s.calls|
    ensures Skip(s, n).Valid() && Upto(Skip(s, n), n)
  {
    SkipIsValid(s, n);
    var works := Skip(s, n).works;
    hide Notices, Paired, Whole, NoticeOf, Life, Own, Batch.Valid;
    assert ResultMessages(s.calls, works)[..n] == ResultMessages(s.calls, s.works)[..n];
  }

  /** One call at a time, each result right after its call's end; after an abort the
      remaining calls are skipped. */
  method ExecuteToolCallsSequential(s: Batch) returns (t: Batch, r: BatchResult, ghost cut: nat)
    requires Fresh(s)
    ensures r.Completed? ==> BatchDone(s, t, r)
    ensures r.Threw? ==> BatchUnwound(s, t, r, cut) && s.throwing
    ensures r.Completed? ==> SkippedFrom(s, t, AllIndices(|s.calls|), cut)
    ensures Serially(s.works, t) && StaysAborted(s, t)
  {
    hide Notices, Paired, Whole, NoticeOf, Life, Own, ResultMessages, AbortedMessages, Concerns, Batch.Valid, Upto, BatchDone, BatchUnwound, Fresh,
      Serially;
    FreshIsUpto(s);
    NothingSerially(s);
    t := s;
    cut := |s.calls|;
    var i := 0;
    while i < |s.calls|
      invariant 0 <= i <= |s.calls| && t.Valid() && Upto(t, i) && cut == |s.calls| && Serially(s.works, t) && (i > 0 ==> !t.aborted)
      invariant t.calls == s.calls && t.works == s.works && SameSetup(s, t) && StaysAborted(s, t)
    {
      var ok;
      t, ok := RunAndReport(t, i, s.works);
      if !ok {
        UnwoundAt(s, t, i);
        return t, Threw, i;
      }
      i := i + 1;
      if t.aborted {
        ghost var n;
        t, ok, n := SkipRemaining(t, i, s.works);
        if !ok {
          UnwoundAt(s, t, n);
          return t, Threw, n;
        }
        cut := i;
        break;
      }
    }
    ValidLengths(t);
    SkippedTail(s, t, cut);
    r := Completed(ResultMessages(t.calls, t.works), ShouldTerminate(t.works));
    DoneUpto(s, t);
  }

  lemma NothingSerially(s: Batch)
    requires Fresh(s)
    ensures Serially(s.works, s)
  {
    hide Own, Life, Notices;
  }

  lemma FreshIsUpto(s: Batch)
    requires Fresh(s)
    ensures s.Valid() && Upto(s, 0) && |s.works| == |s.calls|
  {
    FreshIsQuiet(s);
    FirstNone(s.calls, s.works);
    NothingPaired();
  }

  lemma UnwoundAt(s: Batch, t: Batch, n: nat)
    requires t.Valid() && SameSetup(s, t) && n <= |t.calls|
    requires |t.works| == |t.calls| && Notices(t.trace) == Paired(ResultMessages(t.calls, t.works)[..n] + AbortedMessages(t.calls)[n..])
    ensures BatchUnwound(s, t, Threw, n)
  {
  }

  lemma DoneUpto(s: Batch, t: Batch)
    requires t.Valid() && Upto(t, |t.calls|) && SameSetup(s, t)
    ensures |t.works| == |t.calls| && BatchDone(s, t, Completed(ResultMessages(t.calls, t.works), ShouldTerminate(t.works)))
  {
    var messages := ResultMessages(t.calls, t.works);
    assert messages[..|t.calls|] == messages;
    hide Notices, Paired, Life, Own, Batch.Valid;
  }

  // ---------------------------------------------------------------------------
  // The mixed batch

  /** The calls to sequential tools, or those to the others, in their order. */
  function Subset(calls: seq<ToolCall>, sequentialTools: set<string>, sequential: bool): seq<nat> {
    if calls == [] then []
    else
      var n := |calls| - 1;
      Subset(calls[..n], sequentialTools, sequential) + if (calls[n].name in sequentialTools) == sequential then [n] else []
  }

  lemma SubsetOneMore(calls: seq<ToolCall>, sequentialTools: set<string>, sequential: bool, n: nat)
    requires n < |calls|
    ensures Subset(calls[..n + 1], sequentialTools, sequential) ==
      Subset(calls[..n], sequentialTools, sequential) + if (calls[n].name in sequentialTools) == sequential then [n] else []
  {
    assert calls[..n + 1][..n] == calls[..n];
  }

  lemma {:induction false} SubsetMembers(calls: seq<ToolCall>, sequentialTools: set<string>, sequential: bool)
    ensures Ascending(Subset(calls, sequentialTools, sequential), |calls|)
    ensures forall i | 0 <= i < |calls| :: i in Subset(calls, sequentialTools, sequential) <==> (calls[i].name in sequentialTools) == sequential
  {
    if calls != [] {
      var n := |calls| - 1;
      SubsetMembers(calls[..n], sequentialTools, sequential);
      SubsetOneMore(calls, sequentialTools, sequential, n);
      assert calls[..n + 1] == calls;
      OneMoreIndex(Subset(calls[..n], sequentialTools, sequential), n, (calls[n].name in sequentialTools) == sequential);
      hide Subset, Ascending;
      assert forall i | 0 <= i < n :: calls[..n][i] == calls[i];
    }
  }

  lemma OneMoreIndex(indices: seq<nat>, n: nat, more: bool)
    requires Ascending(indices, n)
    ensures var after := indices + if more then [n] else [];
      Ascending(after, n + 1) && (n in after <==> more) && forall i | 0 <= i < n :: i in after <==> i in indices
  {
    if !more {
      assert indices + [] == indices;
    }
  }

  method PartitionIndices(s: Batch) returns (parallel: seq<nat>, sequential: seq<nat>)
    ensures parallel == Subset(s.calls, s.sequentialTools, false) && sequential == Subset(s.calls, s.sequentialTools, true)
    ensures Ascending(parallel, |s.calls|) && Ascending(sequential, |s.calls|)
    ensures forall i | 0 <= i < |s.calls| :: i in sequential <==> s.IsSequential(i)
    ensures forall i | 0 <= i < |s.calls| :: i in parallel <==> !s.IsSequential(i)
  {
    SubsetMembers(s.calls, s.sequentialTools, true);
    SubsetMembers(s.calls, s.sequentialTools, false);
    parallel, sequential := [], [];
    assert s.calls[..|s.calls|] == s.calls;
    for i := 0 to |s.calls|
      invariant parallel == Subset(s.calls[..i], s.sequentialTools, false) && sequential == Subset(s.calls[..i], s.sequentialTools, true)
    {
      SubsetOneMore(s.calls, s.sequentialTools, true, i);
      SubsetOneMore(s.calls, s.sequentialTools, false, i);
      if s.IsSequential(i) {
        sequential := sequential + [i];
      } else {
        parallel := parallel + [i];
      }
    }
  }

  /** The calls of the list live one after the other, and those that start after an abort are skipped,
      the first aside. */
  ghost predicate TakenInTurn(works: seq<Work>, t: Batch, indices: seq<nat>) {
    OneByOne(t.trace, t.calls, indices) && SkippedRight(works, t, indices)
  }

  lemma NoneTaken(works: seq<Work>, t: Batch, indices: seq<nat>)
    requires t.Valid() && |works| == |t.works| && forall k | 0 <= k < |indices| :: indices[k] < |t.calls| && t.done[indices[k]] == 0
    ensures TakenInTurn(works, t, indices)
  {
    hide Batch.Valid, OneByOne, SkippedRight;
    NoneYet(works, t, indices);
  }

  /** One more call of the list takes its turn. */
  lemma TakesTurn(works: seq<Work>, s: Batch, t: Batch, indices: seq<nat>, m: nat)
    requires s.Valid() && t.Valid() && Kept(s, t) && TakenInTurn(works, s, indices)
    requires Ascending(indices, |s.calls|) && m < |indices| && s.trace + [ToolStart(s.calls[indices[m]])] <= t.trace
    requires s.works[indices[m]] == if m > 0 && s.aborted then SKIPPED else works[indices[m]]
    requires !s.aborted && t.aborted ==> |s.trace| < t.abortedAt
    requires forall j | 0 <= j < |s.done| && j != indices[m] :: t.done[j] == s.done[j]
    requires forall k | m < k < |indices| :: s.done[indices[k]] == 0
    ensures TakenInTurn(works, t, indices)
  {
    hide Notices, Own, Life, OneByOne, SkippedRight, NoStrays, LatesAfterStart, WithinTurn, DistinctIds;
    SkipsOneMore(works, s, t, indices, m);
    LivesInTurn(s, t, indices, indices[m]);
  }

  /** While others emit, the calls of the list keep their turns. */
  lemma TurnsStay(works: seq<Work>, s: Batch, t: Batch, indices: seq<nat>)
    requires s.Valid() && t.Valid() && Grows(s, t) && TakenInTurn(works, s, indices) && Ascending(indices, |s.calls|)
    requires forall k | 0 <= k < |indices| :: !s.running[indices[k]]
    ensures TakenInTurn(works, t, indices)
  {
    hide Notices, Own, Life, OneByOne, SkippedRight, NoStrays, LatesAfterStart, WithinTurn, DistinctIds;
    SkipsUnchanged(works, s, t, indices);
    LivesInTurn(s, t, indices, |s.calls|);
  }

  lemma NotTouched(s: Batch, t: Batch, indices: seq<nat>, m: nat)
    requires Touched(s, t, indices, m) && m < |indices|
    requires forall k | 0 <= k < |indices| :: indices[k] < |s.done| && s.done[indices[k]] == 0
    ensures forall k | m < k < |indices| :: t.done[indices[k]] == 0
  {
  }

  /** The sequential subset, in its original order, cut short by an abort. */
  method RunSequentialSubset(s: Batch, sequential: seq<nat>) returns (t: Batch, ok: bool, cut: nat, aborted: bool)
    requires s.Valid() && s.Idle() && Ascending(sequential, |s.calls|)
    requires forall k | 0 <= k < |sequential| :: s.done[sequential[k]] == 0
    ensures t.Valid() && Kept(s, t)
    ensures ok ==> t.Idle() && cut <= |sequential| && Touched(s, t, sequential, cut) && |t.works| == |t.done|
    ensures ok ==> forall k | 0 <= k < cut :: t.done[sequential[k]] == |t.works[sequential[k]].notes| + 2
    ensures ok && aborted ==> 0 < cut && t.aborted
    ensures ok && !aborted ==> cut == |sequential|
    ensures TakenInTurn(s.works, t, sequential) && t.Idle() && (!s.throwing ==> ok)
  {
    hide Notices, Paired, Whole, NoticeOf, Life, Own, Batch.Valid, Ascending, Touched, WithinTurn, Kept, DistinctIds, Concerns, TakenInTurn;
    KeptSelf(s);
    ValidLengths(s);
    TouchedNone(s, sequential);
    NoneTaken(s.works, s, sequential);
    t, ok, cut, aborted := s, true, 0, false;
    while cut < |sequential|
      invariant ok && !aborted && cut <= |sequential| && t.Valid() && t.Idle() && Kept(s, t)
      invariant Touched(s, t, sequential, cut)
      invariant |t.done| == |t.works| == |t.calls| == |s.calls| && t.works == s.works
      invariant forall j | 0 <= j < |sequential| :: sequential[j] < |t.done|
      invariant forall k | 0 <= k < cut :: t.done[sequential[k]] == |t.works[sequential[k]].notes| + 2
      invariant TakenInTurn(s.works, t, sequential) && t.throwing == s.throwing && (cut > 0 ==> !t.aborted)
    {
      ghost var before := t;
      TouchedAt(s, t, sequential, cut);
      assert s.done[sequential[cut]] == 0;
      NotTouched(s, t, sequential, cut);
      t, ok := RunInline(t, sequential[cut]);
      ValidLengths(t);
      KeptTrans(s, before, t);
      KeptLengths(s, t);
      KeptGrows(s, before, t);
      TakesTurn(s.works, before, t, sequential, cut);
      if !ok {
        return;
      }
      TouchedOneMore(s, before, t, sequential, cut);
      cut := cut + 1;
      if t.aborted {
        aborted := true;
        return;
      }
    }
  }

  /** The first `n` slots are filled: those that were empty hold skipped work. */
  ghost predicate Filled(s: Batch, t: Batch, n: nat) {
    && |t.works| == |t.done| == |s.works| == |s.done| && n <= |s.works|
    && (forall j | 0 <= j < n :: t.works[j] == if s.done[j] == 0 then SKIPPED else s.works[j])
    && (forall j | 0 <= j < n :: t.done[j] == |t.works[j].notes| + 2)
    && (forall j | n <= j < |s.works| :: t.done[j] == s.done[j] && t.works[j] == s.works[j])
  }

  lemma FilledOneMore(s: Batch, before: Batch, t: Batch, n: nat)
    requires Filled(s, before, n) && n < |s.works| && s.done[n] == 0
    requires t.works == before.works[n := SKIPPED] && |t.done| == |before.done|
    requires forall j | 0 <= j < |t.done| && j != n :: t.done[j] == before.done[j]
    ensures t.done[n] == |SKIPPED.notes| + 2 ==> Filled(s, t, n + 1)
    ensures forall j | 0 <= j < |s.works| && s.done[j] != 0 :: t.works[j] == s.works[j]
  {
  }

  /** Fills the slots that an abort left empty. */
  method FillAborted(s: Batch, ghost works: seq<Work>, ghost sequential: seq<nat>, ghost cut: nat) returns (t: Batch, ok: bool)
    requires s.Valid() && s.Idle() && s.aborted && TakenInTurn(works, s, sequential) && Ascending(sequential, |s.calls|) && 0 < cut
    requires forall i | 0 <= i < |s.calls| && s.done[i] == 0 :: i in sequential
    requires forall k | 0 <= k < |sequential| :: s.done[sequential[k]] == 0 <==> cut <= k
    requires forall i | 0 <= i < |s.calls| :: s.done[i] == 0 || s.done[i] == |s.works[i].notes| + 2
    ensures t.Valid() && Kept(s, t.(works := s.works)) && |t.works| == |s.works|
    ensures forall i | 0 <= i < |s.works| && i < |s.done| && s.done[i] != 0 :: t.works[i] == s.works[i]
    ensures ok ==> Filled(s, t, |s.works|)
    ensures t.Idle() && TakenInTurn(works, t, sequential) && (!s.throwing ==> ok)
  {
    hide Notices, Paired, Whole, NoticeOf, Life, Own, Batch.Valid, DistinctIds, WithinTurn, Concerns, TakenInTurn, Ascending;
    KeptSelf(s);
    ValidLengths(s);
    t, ok := s, true;
    var i := 0;
    while i < |s.calls|
      invariant ok && 0 <= i <= |s.calls| && t.Valid() && t.Idle() && TakenInTurn(works, t, sequential)
      invariant Kept(s, t.(works := s.works)) && Filled(s, t, i)
    {
      if t.done[i] == 0 {
        ValidLengths(t);
        SkipIsValid(t, i);
        ghost var before, skipped := t, Skip(t, i);
        t, ok := RunInline(Skip(t, i), i);
        ValidLengths(t);
        KeptThroughSkip(s, skipped, t);
        FilledOneMore(s, before, t, i);
        FillsInTurn(works, s, before, t, sequential, cut, i);
        if !ok {
          return;
        }
      }
      i := i + 1;
    }
  }

  /** Filling a slot, the call takes its turn among those of the list. */
  lemma FillsInTurn(works: seq<Work>, s: Batch, before: Batch, t: Batch, sequential: seq<nat>, cut: nat, i: nat)
    requires before.Valid() && t.Valid() && i < |s.calls| && before.calls == s.calls && Kept(Skip(before, i), t) && Skip(before, i).Valid()
    requires |s.done| == |s.works| == |s.calls| && TakenInTurn(works, before, sequential) && Ascending(sequential, |s.calls|) && before.aborted && 0 < cut
    requires Filled(s, before, i) && s.done[i] == 0 && i in sequential && before.trace + [ToolStart(s.calls[i])] <= t.trace
    requires forall k | 0 <= k < |sequential| :: s.done[sequential[k]] == 0 <==> cut <= k
    requires forall j | 0 <= j < |before.done| && j != i :: t.done[j] == before.done[j]
    ensures TakenInTurn(works, t, sequential)
  {
    hide Kept, Own, Life, TakenInTurn, NoStrays, LatesAfterStart, WithinTurn, DistinctIds;
    var m :| 0 <= m < |sequential| && sequential[m] == i;
    SkippedInTurn(works, before, sequential, i);
    assert forall k | m < k < |sequential| :: sequential[k] > i && before.done[sequential[k]] == 0;
    TakesTurn(works, Skip(before, i), t, sequential, m);
  }

  lemma SkippedInTurn(works: seq<Work>, s: Batch, indices: seq<nat>, i: nat)
    requires s.Valid() && i < |s.calls| && s.done[i] == 0 && TakenInTurn(works, s, indices)
    ensures TakenInTurn(works, Skip(s, i), indices)
  {
    NotYet(s, i);
    hide Own, Life, OneByOne, NoStrays, LatesAfterStart, WithinTurn, IsStart, Concerns;
    SkipsStay(works, s, Skip(s, i), indices);
  }

  lemma KeptThroughSkip(s: Batch, t: Batch, u: Batch)
    requires Kept(s, t.(works := s.works)) && Kept(t, u)
    ensures Kept(s, u.(works := s.works)) && u.works == t.works
  {
  }

  /** At length `joined` of the trace every parallel-safe call had lived its whole life, and
      no sequential call had started. */
  ghost predicate JoinedFirst(t: Batch, joined: nat)
    requires |t.works| == |t.calls| && joined <= |t.trace|
  {
    forall i | 0 <= i < |t.calls| ::
      Own(t.trace[..joined], t.calls[i].id) == if t.IsSequential(i) then [] else Life(t.calls[i], t.works[i])
  }

  lemma JoinedSoFar(s: Batch)
    requires s.Valid()
    requires forall i | 0 <= i < |s.calls| :: s.done[i] == if s.IsSequential(i) then 0 else |s.works[i].notes| + 2
    ensures JoinedFirst(s, |s.trace|)
  {
    assert s.trace[..|s.trace|] == s.trace;
    hide Own, NoStrays, LatesAfterStart;
    forall i | 0 <= i < |s.calls|
      ensures Own(s.trace, s.calls[i].id) == if s.IsSequential(i) then [] else Life(s.calls[i], s.works[i])
    {
      var life := Life(s.calls[i], s.works[i]);
      assert life[..|life|] == life;
    }
  }

  lemma StaysJoined(s: Batch, t: Batch, joined: nat)
    requires |s.works| == |s.calls| && joined <= |s.trace| && JoinedFirst(s, joined)
    requires SameSetup(s, t) && |t.works| == |s.works|
    requires s.trace <= t.trace
    requires forall i | 0 <= i < |s.calls| && !s.IsSequential(i) :: t.works[i] == s.works[i]
    ensures JoinedFirst(t, joined)
  {
    hide Own, Life, NoStrays, LatesAfterStart;
    assert t.trace[..joined] == s.trace[..joined];
  }

  /** All calls lived; no result is out yet. */
  ghost predicate AllLivedQuietly(t: Batch) {
    && t.Valid() && t.Idle() && Quiet(t)
    && |t.works| == |t.done| == |t.calls|
    && (forall i | 0 <= i < |t.calls| :: t.done[i] == |t.works[i].notes| + 2)
  }

  ghost predicate Quiet(t: Batch) {
    ResultsOut(t, 0) && Notices(t.trace) == []
  }

  /** What follows the join: the sequential subset, and the aborted ends after an abort. */
  method RunAfterJoin(s: Batch, sequential: seq<nat>) returns (t: Batch, ok: bool, cut: nat)
    requires s.Valid() && s.Idle() && Quiet(s) && Ascending(sequential, |s.calls|)
    requires forall i | 0 <= i < |s.calls| :: i in sequential <==> s.IsSequential(i)
    requires forall i | 0 <= i < |s.calls| :: s.done[i] == if s.IsSequential(i) then 0 else |s.works[i].notes| + 2
    ensures t.Valid() && Quiet(t) && SameSetup(s, t)
    ensures s.trace <= t.trace && |t.works| == |s.works|
    ensures forall i | 0 <= i < |s.calls| && !s.IsSequential(i) :: t.works[i] == s.works[i]
    ensures ok ==> AllLivedQuietly(t) && SkippedFrom(s, t, sequential, cut)
    ensures t.Idle() && TakenInTurn(s.works, t, sequential) && (!s.throwing ==> ok) && StaysAborted(s, t)
  {
    hide Life, Own, Notices, Paired, Whole, NoticeOf, Concerns, NoStrays, LatesAfterStart, TakenInTurn;
    SequentialNotDone(s, sequential);
    var aborted;
    t, ok, cut, aborted := RunSequentialSubset(s, sequential);
    ResultsStillOut(s, t, 0);
    if !ok {
      return;
    }
    ghost var atCut := t;
    assert forall k | cut <= k < |sequential| :: t.done[sequential[k]] == 0;
    SubsetDone(s, t, sequential, cut);
    hide Batch.Valid;
    if aborted {
      SubsetLeft(s, t, sequential, cut);
      t, ok := FillAborted(t, s.works, sequential, cut);
      ResultsStillOut(atCut, t.(works := atCut.works), 0);
      if !ok {
        return;
      }
    }
    ValidLengths(t);
    SubsetSkipped(s, atCut, t, sequential, cut);
  }

  lemma SubsetLeft(s: Batch, t: Batch, sequential: seq<nat>, cut: nat)
    requires |s.calls| == |s.done| == |t.done| == |t.works| == |s.works| && cut <= |sequential|
    requires forall k | 0 <= k < |sequential| :: sequential[k] < |s.calls|
    requires forall i | 0 <= i < |s.calls| && i !in sequential :: t.done[i] == s.done[i] > 0
    requires forall k | 0 <= k < cut :: t.done[sequential[k]] == |t.works[sequential[k]].notes| + 2
    requires forall k | cut <= k < |sequential| :: t.done[sequential[k]] == 0
    ensures forall i | 0 <= i < |t.done| && t.done[i] == 0 :: i in sequential
    ensures forall k | 0 <= k < |sequential| :: t.done[sequential[k]] == 0 <==> cut <= k
  {
  }

  lemma SequentialNotDone(s: Batch, sequential: seq<nat>)
    requires |s.works| == |s.done| == |s.calls| && Ascending(sequential, |s.calls|)
    requires forall i | 0 <= i < |s.calls| :: i in sequential <==> s.IsSequential(i)
    requires forall i | 0 <= i < |s.calls| :: s.done[i] == if s.IsSequential(i) then 0 else |s.works[i].notes| + 2
    ensures forall k | 0 <= k < |sequential| :: s.done[sequential[k]] == 0
  {
    forall k | 0 <= k < |sequential|
      ensures s.done[sequential[k]] == 0
    {
      assert sequential[k] in sequential;
    }
  }

  /** The two subsets, up to the replay of the results. */
  method RunMixed(s: Batch, parallel: seq<nat>, sequential: seq<nat>)
    returns (t: Batch, ok: bool, ghost joined: nat, cut: nat)
    requires Fresh(s) && Ascending(parallel, |s.calls|) && Ascending(sequential, |s.calls|)
    requires forall i | 0 <= i < |s.calls| :: i in sequential <==> s.IsSequential(i)
    requires forall i | 0 <= i < |s.calls| :: i in parallel <==> !s.IsSequential(i)
    ensures t.Valid() && Quiet(t) && SameSetup(s, t)
    ensures ok ==> AllLivedQuietly(t) && SkippedFrom(s, t, sequential, cut)
    ensures ok ==> joined <= |t.trace| && JoinedFirst(t, joined)
    ensures ParallelFirst(t, joined) && RanMixed(s.works, t, parallel, sequential) && (!s.throwing ==> ok) && StaysAborted(s, t)
    ensures |t.running| == |t.calls| && forall k | 0 <= k < |sequential| :: !t.running[sequential[k]]
  {
    FreshIsQuiet(s);
    hide Life, Own, Notices, Paired, Whole, NoticeOf, Concerns, Fresh, NoStrays, LatesAfterStart, StartsFirst, TakenInTurn;
    joined, cut := 0, 0;
    NothingDone(s, parallel);
    t, ok := RunConcurrently(s, parallel);
    ResultsStillOut(s, t, 0);
    SequentialStillWaits(s, t, parallel, sequential);
    NoneTaken(s.works, t, sequential);
    if !ok {
      return;
    }
    ParallelDone(t, parallel, sequential);
    JoinedSoFar(t);
    joined := |t.trace|;
    ghost var atJoin := t;
    hide Batch.Valid, SkippedFrom, Ascending, JoinedFirst, ParallelFirst;
    t, ok, cut := RunAfterJoin(t, sequential);
    ValidLengths(t);
    StaysJoined(atJoin, t, joined);
    ParallelStarted(atJoin, parallel);
    StartsStay(atJoin, t, parallel);
    JoinedIsParallelFirst(t, joined);
    if ok {
      SameSkipped(s, atJoin, t, sequential, cut);
    }
  }

  /** No sequential call has an event, or else every parallel-safe call had lived its whole life
      before the first such event. */
  ghost predicate ParallelFirst(t: Batch, joined: nat) {
    || (|t.done| == |t.calls| && forall i | 0 <= i < |t.calls| && t.IsSequential(i) :: t.done[i] == 0)
    || (joined <= |t.trace| && |t.works| == |t.calls| && JoinedFirst(t, joined))
  }

  lemma NothingDone(s: Batch, indices: seq<nat>)
    requires Fresh(s) && Ascending(indices, |s.calls|)
    ensures !s.failed && |s.done| == |s.calls| && forall i | 0 <= i < |s.calls| :: s.done[i] == 0
    ensures forall k | 0 <= k < |indices| :: s.done[indices[k]] == 0
  {
  }

  /** The parallel-safe calls did their work and started before any of them did anything else; the
      sequential ones took their turns. */
  ghost predicate RanMixed(works: seq<Work>, t: Batch, parallel: seq<nat>, sequential: seq<nat>) {
    && StartsFirst(t.trace, t.calls, parallel) && TakenInTurn(works, t, sequential)
    && forall i | 0 <= i < |t.calls| && i < |t.works| && i < |works| && !t.IsSequential(i) :: t.works[i] == works[i]
  }

  lemma MixedStays(works: seq<Work>, s: Batch, t: Batch, parallel: seq<nat>, sequential: seq<nat>)
    requires s.Valid() && t.Valid() && Grows(s, t) && RanMixed(works, s, parallel, sequential)
    requires Ascending(parallel, |s.calls|) && Ascending(sequential, |s.calls|) && forall k | 0 <= k < |sequential| :: !s.running[sequential[k]]
    ensures RanMixed(works, t, parallel, sequential)
  {
    hide TakenInTurn, StartsFirst, Own, Life, NoStrays, LatesAfterStart, WithinTurn, DistinctIds;
    StartsGrow(s, t, parallel);
    TurnsStay(works, s, t, sequential);
  }

  lemma ParallelStarted(t: Batch, parallel: seq<nat>)
    requires |t.done| == |t.works| == |t.calls|
    requires forall k | 0 <= k < |parallel| :: parallel[k] < |t.calls| && t.done[parallel[k]] == |t.works[parallel[k]].notes| + 2
    ensures forall k | 0 <= k < |parallel| :: parallel[k] < |t.calls| && t.done[parallel[k]] > 0
  {
  }

  lemma JoinedIsParallelFirst(t: Batch, joined: nat)
    requires joined <= |t.trace| && |t.works| == |t.calls| && JoinedFirst(t, joined)
    ensures ParallelFirst(t, joined)
  {
    hide JoinedFirst;
  }

  lemma SequentialStillWaits(s: Batch, t: Batch, parallel: seq<nat>, sequential: seq<nat>)
    requires |s.done| == |s.calls| == |t.done| && SameSetup(s, t)
    requires forall i | 0 <= i < |s.calls| :: s.done[i] == 0
    requires forall i | 0 <= i < |s.calls| :: i in parallel <==> !s.IsSequential(i)
    requires forall i | 0 <= i < |s.calls| :: i in sequential <==> s.IsSequential(i)
    requires Ascending(sequential, |s.calls|) && |t.running| == |t.calls|
    requires forall j | 0 <= j < |s.done| && j !in parallel :: t.done[j] == s.done[j]
    requires forall j | 0 <= j < |t.running| && j !in parallel :: !t.running[j]
    ensures ParallelFirst(t, 0)
    ensures forall k | 0 <= k < |sequential| :: t.done[sequential[k]] == 0 && !t.running[sequential[k]]
  {
    hide JoinedFirst;
    forall k | 0 <= k < |sequential|
      ensures t.done[sequential[k]] == 0 && !t.running[sequential[k]]
    {
      assert sequential[k] in sequential;
    }
  }

  /** Whatever the pipelines in flight still do, the order stays. */
  lemma StaysParallelFirst(t: Batch, u: Batch, joined: nat)
    requires t.Valid() && ParallelFirst(t, joined)
    requires SameSetup(t, u) && u.works == t.works && t.trace <= u.trace
    requires |u.done| == |t.done| && forall i | 0 <= i < |t.done| && !t.running[i] :: u.done[i] == t.done[i]
    ensures ParallelFirst(u, joined)
  {
    if joined <= |t.trace| && JoinedFirst(t, joined) {
      StaysJoined(t, u, joined);
    }
    hide JoinedFirst, Own, Life, NoStrays, LatesAfterStart;
  }

  lemma SameSkipped(s: Batch, s': Batch, t: Batch, sequential: seq<nat>, cut: nat)
    requires s.works == s'.works && SkippedFrom(s', t, sequential, cut)
    ensures SkippedFrom(s, t, sequential, cut)
  {
  }

  /** Parallel-safe calls together first, then the sequential ones one by one; the results
      are emitted last, in the order of the calls. */
  method ExecuteToolCallsPartitioned(s: Batch)
    returns (t: Batch, r: BatchResult, ghost joined: nat, ghost sequential: seq<nat>, ghost cut: nat)
    requires Fresh(s)
    ensures if r.Threw? then BatchUnwound(s, t, r, 0) else BatchDone(s, t, r)
    ensures Ascending(sequential, |s.calls|)
    ensures forall i | 0 <= i < |s.calls| :: i in sequential <==> s.IsSequential(i)
    ensures r.Completed? ==> joined <= |t.trace| && |t.works| == |t.calls| && JoinedFirst(t, joined)
    ensures r.Completed? ==> SkippedFrom(s, t, sequential, cut)
    ensures ParallelFirst(t, joined) && (r.Threw? ==> s.throwing) && StaysAborted(s, t)
    ensures RanMixed(s.works, t, Subset(t.calls, t.sequentialTools, false), Subset(t.calls, t.sequentialTools, true))
  {
    var parallelIndices, sequentialIndices := PartitionIndices(s);
    sequential := sequentialIndices;
    var ok;
    hide Life, Own, Notices, Paired, Whole, NoticeOf, Concerns, Fresh, JoinedFirst, ResultMessages, Batch.Valid, ParallelFirst, RanMixed;
    t, ok, joined, cut := RunMixed(s, parallelIndices, sequentialIndices);
    ghost var mixed := t;
    ValidLengths(t);
    if ok {
      t := ReplayResults(t);
      StillLived(mixed, t);
      ReplayKeepsOrder(s, mixed, t, joined, sequential, cut);
      MixedStays(s.works, mixed, t, parallelIndices, sequentialIndices);
      GrowsKeepsOrder(mixed, t, joined);
      r := Completed(ResultMessages(t.calls, t.works), ShouldTerminate(t.works));
    } else {
      t := Unwind(t);
      GrowsKeepsOrder(mixed, t, joined);
      UnwoundIsValid(mixed, t);
      MixedStays(s.works, mixed, t, parallelIndices, sequentialIndices);
      r := Threw;
    }
  }

  lemma GrowsKeepsOrder(s: Batch, t: Batch, joined: nat)
    requires s.Valid() && Grows(s, t) && ParallelFirst(s, joined)
    ensures ParallelFirst(t, joined)
  {
    StaysParallelFirst(s, t, joined);
    hide ParallelFirst;
  }

  lemma ReplayKeepsOrder(s: Batch, mixed: Batch, t: Batch, joined: nat, sequential: seq<nat>, cut: nat)
    requires |mixed.works| == |mixed.calls| && Grows(mixed, t)
    requires joined <= |mixed.trace| && JoinedFirst(mixed, joined) && SkippedFrom(s, mixed, sequential, cut)
    ensures joined <= |t.trace| && JoinedFirst(t, joined) && SkippedFrom(s, t, sequential, cut)
  {
    StaysJoined(mixed, t, joined);
    hide JoinedFirst;
  }

  lemma ParallelDone(t: Batch, parallel: seq<nat>, sequential: seq<nat>)
    requires t.Valid()
    requires forall i | 0 <= i < |t.calls| :: i in sequential <==> t.IsSequential(i)
    requires forall i | 0 <= i < |t.calls| :: i in parallel <==> !t.IsSequential(i)
    requires forall k | 0 <= k < |parallel| :: parallel[k] < |t.calls| && t.done[parallel[k]] == |t.works[parallel[k]].notes| + 2
    requires forall i | 0 <= i < |t.calls| && i !in parallel :: t.done[i] == 0
    ensures forall i | 0 <= i < |t.calls| :: t.done[i] == if t.IsSequential(i) then 0 else |t.works[i].notes| + 2
    ensures Ascending(sequential, |t.calls|) ==> forall k | 0 <= k < |sequential| :: t.done[sequential[k]] == 0
  {
    hide Own, Life, NoStrays, LatesAfterStart;
    if Ascending(sequential, |t.calls|) {
      forall k | 0 <= k < |sequential|
        ensures t.done[sequential[k]] == 0
      {
        assert sequential[k] in sequential;
      }
    }
  }

  lemma SubsetDone(s: Batch, t: Batch, sequential: seq<nat>, ran: nat)
    requires s.Valid() && t.Valid() && Kept(s, t) && Ascending(sequential, |s.calls|) && ran <= |sequential|
    requires forall i | 0 <= i < |s.calls| :: i in sequential <==> s.IsSequential(i)
    requires forall i | 0 <= i < |s.calls| :: s.done[i] == if s.IsSequential(i) then 0 else |s.works[i].notes| + 2
    requires forall k | 0 <= k < ran :: t.done[sequential[k]] == |t.works[sequential[k]].notes| + 2
    requires forall k | ran <= k < |sequential| :: t.done[sequential[k]] == 0
    requires forall i | 0 <= i < |s.calls| && i !in sequential :: t.done[i] == s.done[i]
    ensures forall i | 0 <= i < |t.calls| :: t.done[i] == 0 || t.done[i] == |t.works[i].notes| + 2
    ensures ran == |sequential| ==> forall i | 0 <= i < |t.calls| :: t.done[i] == |t.works[i].notes| + 2
    ensures forall i | 0 <= i < |t.calls| && !t.IsSequential(i) :: t.done[i] != 0
  {
    hide Own, Life, Notices, Paired, Whole, NoticeOf, NoStrays, LatesAfterStart;
  }

  lemma SubsetSkipped(s: Batch, atCut: Batch, t: Batch, sequential: seq<nat>, ran: nat)
    requires |s.works| == |s.calls| && atCut.works == s.works && |t.works| == |s.works| == |atCut.done|
    requires Ascending(sequential, |s.calls|) && ran <= |sequential|
    requires forall i | 0 <= i < |s.works| && i !in sequential :: atCut.done[i] != 0
    requires forall k | 0 <= k < ran :: atCut.done[sequential[k]] != 0
    requires forall k | ran <= k < |sequential| :: atCut.done[sequential[k]] == 0
    requires forall i | 0 <= i < |s.works| :: t.works[i] == if atCut.done[i] == 0 then SKIPPED else s.works[i]
    requires ran < |sequential| ==> 0 < ran && t.aborted
    ensures SkippedFrom(s, t, sequential, ran)
  {
  }

  method Unwind(s: Batch) returns (t: Batch)
    requires s.Valid() && Quiet(s)
    ensures Grows(s, t) && BatchUnwound(s, t, Threw, 0)
  {
    t := SynthesizeMissingToolResults(s, 0);
    hide Life, Own, Notices, Paired, Whole, NoticeOf, Concerns, ResultMessages, AbortedMessages, NoStrays, LatesAfterStart;
    GrowsKeeps(s, t);
    FirstNone(t.calls, t.works);
  }

  lemma UnwoundIsValid(s: Batch, t: Batch)
    requires Grows(s, t) && BatchUnwound(s, t, Threw, 0)
    ensures t.Valid() && SameSetup(s, t) && StaysAborted(s, t)
  {
  }

  // ---------------------------------------------------------------------------
  // Routing

  /** How a batch is run: one call at a time, all calls at once, or in two subsets. */
  datatype Route = Serial | Concurrent | Mixed

  function RouteOf(calls: seq<ToolCall>, sequentialTools: set<string>, forceSequential: bool, partitionDisabled: bool): Route {
    if forceSequential then Serial
    else if forall i | 0 <= i < |calls| :: calls[i].name !in sequentialTools then Concurrent
    else if partitionDisabled || forall i | 0 <= i < |calls| :: calls[i].name in sequentialTools then Serial
    else Mixed
  }

  /** The routing counts the calls to sequential tools. */
  method ChooseRoute(s: Batch, forceSequential: bool, partitionDisabled: bool) returns (route: Route)
    ensures route == RouteOf(s.calls, s.sequentialTools, forceSequential, partitionDisabled)
  {
    if forceSequential {
      return Serial;
    }
    var sequentialCount := 0;
    for i := 0 to |s.calls|
      invariant sequentialCount <= i
      invariant sequentialCount == 0 <==> forall j | 0 <= j < i :: s.calls[j].name !in s.sequentialTools
      invariant sequentialCount == i <==> forall j | 0 <= j < i :: s.calls[j].name in s.sequentialTools
    {
      if s.IsSequential(i) {
        sequentialCount := sequentialCount + 1;
      }
    }
    if sequentialCount == 0 {
      return Concurrent;
    }
    if sequentialCount == |s.calls| || partitionDisabled {
      return Serial;
    }
    route := Mixed;
  }

  /** Every own event of a parallel-safe call comes before every own event of a sequential one. */
  ghost predicate SubsetsInOrder(t: Batch) {
    forall p, q | 0 <= p < |t.calls| && 0 <= q < |t.calls| && !t.IsSequential(p) && t.IsSequential(q) ::
      Precedes(t.trace, t.calls[p].id, t.calls[q].id)
  }

  /** The trace of a batch has the order that its route asks for, and exactly the calls that the route
      skips after an abort were skipped. */
  ghost predicate RanAsRouted(route: Route, works: seq<Work>, t: Batch) {
    match route
    case Serial => Serially(works, t)
    case Concurrent => t.works == works && StartsFirst(t.trace, t.calls, AllIndices(|t.calls|))
    case Mixed =>
      && SubsetsInOrder(t)
      && RanMixed(works, t, Subset(t.calls, t.sequentialTools, false), Subset(t.calls, t.sequentialTools, true))
  }

  lemma AreInOrder(t: Batch, joined: nat)
    requires t.Valid() && ParallelFirst(t, joined)
    ensures SubsetsInOrder(t)
  {
    hide Batch.Valid, ParallelFirst, Concerns;
    forall p, q | 0 <= p < |t.calls| && 0 <= q < |t.calls| && !t.IsSequential(p) && t.IsSequential(q)
      ensures Precedes(t.trace, t.calls[p].id, t.calls[q].id)
    {
      forall a, b | 0 <= a < |t.trace| && 0 <= b < |t.trace| && Concerns(t.trace[a], t.calls[p].id) && Concerns(t.trace[b], t.calls[q].id)
        ensures a < b
      {
        SequentialAfterParallel(t, joined, p, q, a, b);
      }
    }
  }

  lemma EndedIsValid(s: Batch, t: Batch, r: BatchResult, n: nat)
    requires if r.Threw? then BatchUnwound(s, t, r, n) else BatchDone(s, t, r)
    ensures t.Valid()
  {
  }

  /** The entry point. */
  method ExecuteToolCalls(s: Batch, forceSequential: bool, partitionDisabled: bool)
    returns (t: Batch, r: BatchResult, ghost n: nat)
    requires Fresh(s)
    ensures if r.Threw? then BatchUnwound(s, t, r, n) && s.throwing else BatchDone(s, t, r)
    ensures RanAsRouted(RouteOf(s.calls, s.sequentialTools, forceSequential, partitionDisabled), s.works, t) && StaysAborted(s, t)
    ensures r.Completed? ==> |t.works| == |s.works| && forall i | 0 <= i < |s.works| ::
      t.works[i] == s.works[i] || (t.works[i] == SKIPPED && t.aborted)
  {
    n := 0;
    hide Batch.Valid, BatchDone, BatchUnwound, RouteOf, Serially, StartsFirst, RanMixed, SubsetsInOrder;
    var route := ChooseRoute(s, forceSequential, partitionDisabled);
    match route
    case Serial =>
      t, r, n := ExecuteToolCallsSequential(s);
      if r.Completed? {
        SkippedOrSame(s, t, AllIndices(|s.calls|), n);
      }
    case Concurrent =>
      t, r := ExecuteToolCallsParallel(s);
    case Mixed =>
      ghost var joined, sequential, cut;
      t, r, joined, sequential, cut := ExecuteToolCallsPartitioned(s);
      EndedIsValid(s, t, r, 0);
      AreInOrder(t, joined);
      if r.Completed? {
        SkippedOrSame(s, t, sequential, cut);
      }
  }

  /** Whatever the route, a call to a sequential tool never overlaps another call of the batch, nor does any
      call when calls are forced to be sequential; and two such calls come in their order. */
  lemma SequentialCallsRunAlone(works: seq<Work>, t: Batch, forceSequential: bool, partitionDisabled: bool, p: nat, q: nat)
    requires RanAsRouted(RouteOf(t.calls, t.sequentialTools, forceSequential, partitionDisabled), works, t) && p < q < |t.calls|
    requires forceSequential || t.IsSequential(p) || t.IsSequential(q)
    ensures Precedes(t.trace, t.calls[p].id, t.calls[q].id) || Precedes(t.trace, t.calls[q].id, t.calls[p].id)
    ensures forceSequential || (t.IsSequential(p) && t.IsSequential(q)) ==> Precedes(t.trace, t.calls[p].id, t.calls[q].id)
  {
    hide Precedes, SkippedRight, ResultsBetween, StartsFirst;
    match RouteOf(t.calls, t.sequentialTools, forceSequential, partitionDisabled)
    case Serial =>
      InList(t, AllIndices(|t.calls|), p, q, p, q);
    case Concurrent =>
    case Mixed =>
      if t.IsSequential(p) && t.IsSequential(q) {
        var sequential := Subset(t.calls, t.sequentialTools, true);
        SubsetMembers(t.calls, t.sequentialTools, true);
        var j := PositionOf(sequential, p);
        var k := PositionOf(sequential, q);
        InList(t, sequential, j, k, p, q);
      }
  }

  lemma PositionOf(indices: seq<nat>, i: nat) returns (k: nat)
    requires i in indices
    ensures k < |indices| && indices[k] == i
  {
    k :| k < |indices| && indices[k] == i;
  }

  lemma InList(t: Batch, indices: seq<nat>, j: nat, k: nat, p: nat, q: nat)
    requires OneByOne(t.trace, t.calls, indices) && Ascending(indices, |t.calls|) && p < q
    requires j < |indices| && k < |indices| && indices[j] == p && indices[k] == q
    ensures q < |t.calls| && Precedes(t.trace, t.calls[p].id, t.calls[q].id)
  {
    hide Precedes;
  }

  /** Two calls to parallel-safe tools start in their order before either emits anything else, unless calls
      are forced to be sequential or partitioning is off and some call is sequential. */
  lemma ParallelCallsStartFirst(works: seq<Work>, t: Batch, partitionDisabled: bool, p: nat, q: nat)
    requires RanAsRouted(RouteOf(t.calls, t.sequentialTools, false, partitionDisabled), works, t) && p < |t.calls| && q < |t.calls|
    requires !t.IsSequential(p) && !t.IsSequential(q)
    requires !partitionDisabled || forall i | 0 <= i < |t.calls| :: !t.IsSequential(i)
    ensures StartPrecedes(t.trace, t.calls[p].id, t.calls[q].id, p < q)
  {
    hide Precedes, SkippedRight, ResultsBetween, StartPrecedes, OneByOne;
    if partitionDisabled {
      forall i | 0 <= i < |t.calls|
        ensures t.calls[i].name !in t.sequentialTools
      {
        assert !t.IsSequential(i);
      }
    }
    match RouteOf(t.calls, t.sequentialTools, false, partitionDisabled)
    case Serial =>
      assert false;
    case Concurrent =>
      StartsInList(t, AllIndices(|t.calls|), p, q, p, q);
    case Mixed =>
      var parallel := Subset(t.calls, t.sequentialTools, false);
      SubsetMembers(t.calls, t.sequentialTools, false);
      var j := PositionOf(parallel, p);
      var k := PositionOf(parallel, q);
      StartsInList(t, parallel, j, k, p, q);
  }

  lemma StartsInList(t: Batch, indices: seq<nat>, j: nat, k: nat, p: nat, q: nat)
    requires StartsFirst(t.trace, t.calls, indices) && Ascending(indices, |t.calls|)
    requires j < |indices| && k < |indices| && indices[j] == p && indices[k] == q
    ensures p < |t.calls| && q < |t.calls| && StartPrecedes(t.trace, t.calls[p].id, t.calls[q].id, p < q)
  {
    hide StartPrecedes;
    assert p < q <==> j < k;
  }

  lemma SkippedOrSame(s: Batch, t: Batch, indices: seq<nat>, cut: nat)
    requires SkippedFrom(s, t, indices, cut)
    ensures |t.works| == |s.works|
    ensures forall i | 0 <= i < |s.works| :: t.works[i] == s.works[i] || (t.works[i] == SKIPPED && t.aborted)
  {
  }

  // ---------------------------------------------------------------------------
  // Late updates on the trace of a batch

  /** A listener sees a call live its life, step by step, if and only if no update of it is late. */
  lemma SeenIsLife(s: Batch, i: nat)
    requires s.Valid() && i < |s.calls|
    ensures Seen(s.trace, s.calls[i].id) == Life(s.calls[i], s.works[i])[..s.done[i]] <==> NoLateNote(s.trace, s.calls[i].id)
  {
    SeenIsOwn(s.trace, s.calls[i].id);
    hide Seen, Own, Life, NoLateNote;
  }

  /** However a mixed batch ends, whatever a parallel-safe call emits in its life comes before whatever
      a sequential call emits in its own. */
  lemma SequentialAfterParallel(t: Batch, joined: nat, p: nat, q: nat, a: nat, b: nat)
    requires t.Valid() && ParallelFirst(t, joined)
    requires p < |t.calls| && q < |t.calls| && !t.IsSequential(p) && t.IsSequential(q)
    requires a < |t.trace| && b < |t.trace|
    requires Concerns(t.trace[a], t.calls[p].id) && Concerns(t.trace[b], t.calls[q].id)
    ensures a < b
  {
    assert Own(t.trace, t.calls[q].id) == Life(t.calls[q], t.works[q])[..t.done[q]];
    if t.done[q] == 0 {
      OwnNothing(t.trace, t.calls[q].id);
    } else {
      NothingAfterLife(t, joined, p);
      hide Life, Own, Batch.Valid;
      ConcernsBefore(t.trace, joined, t.calls[p].id, a);
      ConcernsAfter(t.trace, joined, t.calls[q].id, b);
    }
  }

  /** A call that lived its whole life by `joined` emits nothing more. */
  lemma NothingAfterLife(t: Batch, joined: nat, p: nat)
    requires t.Valid() && joined <= |t.trace| && p < |t.calls|
    requires Own(t.trace[..joined], t.calls[p].id) == Life(t.calls[p], t.works[p])
    ensures Own(t.trace, t.calls[p].id) == Own(t.trace[..joined], t.calls[p].id)
  {
    var id := t.calls[p].id;
    var first, rest := t.trace[..joined], t.trace[joined..];
    assert t.trace == first + rest;
    OwnAppend(first, rest, id);
    assert |Own(t.trace, id)| == t.done[p] <= |Life(t.calls[p], t.works[p])|;
    hide Own, Life, NoStrays, LatesAfterStart;
    assert Own(rest, id) == [];
  }

  lemma ConcernsBefore(trace: seq<Event>, joined: nat, id: string, a: nat)
    requires joined <= |trace| && Own(trace, id) == Own(trace[..joined], id)
    requires a < |trace| && Concerns(trace[a], id)
    ensures a < joined
  {
    var first, rest := trace[..joined], trace[joined..];
    assert trace == first + rest;
    OwnAppend(first, rest, id);
    OwnNothing(rest, id);
    hide Own, Concerns, NoStrays, LatesAfterStart;
    forall j | joined <= j < |trace|
      ensures !Concerns(trace[j], id)
    {
      assert trace[j] == rest[j - joined];
    }
  }

  lemma ConcernsAfter(trace: seq<Event>, joined: nat, id: string, b: nat)
    requires joined <= |trace| && Own(trace[..joined], id) == []
    requires b < |trace| && Concerns(trace[b], id)
    ensures joined <= b
  {
    OwnNothing(trace[..joined], id);
    hide Own, Concerns, NoStrays, LatesAfterStart;
    forall j | 0 <= j < joined
      ensures !Concerns(trace[j], id)
    {
      assert trace[j] == trace[..joined][j];
    }
  }

  /** Every event of a parallel-safe call, late or not, comes before every event of a sequential one. */
  ghost predicate AllOrdered(t: Batch) {
    forall p, q, a, b | 0 <= p < |t.calls| && 0 <= q < |t.calls| && 0 <= a < |t.trace| && 0 <= b < |t.trace|
      && !t.IsSequential(p) && t.IsSequential(q) && Touches(t.trace[a], t.calls[p].id) && Touches(t.trace[b], t.calls[q].id) :: a < b
  }

  /** No update of a parallel-safe call comes after a sequential call started. */
  ghost predicate NoneTooLate(t: Batch) {
    forall p, q, k | 0 <= p < |t.calls| && 0 <= q < |t.calls| && 0 <= k < |t.trace|
      && !t.IsSequential(p) && t.IsSequential(q) && t.trace[k].LateNote? && t.trace[k].call.id == t.calls[p].id ::
      Own(t.trace[..k], t.calls[q].id) == []
  }

  /** So the order holds for all events if and only if no parallel-safe call reports too late. */
  lemma OrderedUnlessTooLate(t: Batch, joined: nat)
    requires t.Valid() && ParallelFirst(t, joined)
    ensures AllOrdered(t) <==> NoneTooLate(t)
  {
    hide Batch.Valid, ParallelFirst, Own, Touches;
    if AllOrdered(t) {
      forall p, q, k | 0 <= p < |t.calls| && 0 <= q < |t.calls| && 0 <= k < |t.trace|
          && !t.IsSequential(p) && t.IsSequential(q) && t.trace[k].LateNote? && t.trace[k].call.id == t.calls[p].id
        ensures Own(t.trace[..k], t.calls[q].id) == []
      {
        LateIsOrdered(t, p, q, k);
      }
    }
    if NoneTooLate(t) {
      forall p, q, a, b | 0 <= p < |t.calls| && 0 <= q < |t.calls| && 0 <= a < |t.trace| && 0 <= b < |t.trace|
          && !t.IsSequential(p) && t.IsSequential(q) && Touches(t.trace[a], t.calls[p].id) && Touches(t.trace[b], t.calls[q].id)
        ensures a < b
      {
        PairIsOrdered(t, joined, p, q, a, b);
      }
    }
  }

  lemma LateIsOrdered(t: Batch, p: nat, q: nat, k: nat)
    requires AllOrdered(t) && p < |t.calls| && q < |t.calls| && k < |t.trace|
    requires !t.IsSequential(p) && t.IsSequential(q) && t.trace[k].LateNote? && t.trace[k].call.id == t.calls[p].id
    ensures Own(t.trace[..k], t.calls[q].id) == []
  {
    if Own(t.trace[..k], t.calls[q].id) != [] {
      var b := OwnSome(t.trace[..k], t.calls[q].id);
      assert t.trace[..k][b] == t.trace[b];
      assert Touches(t.trace[k], t.calls[p].id) && Touches(t.trace[b], t.calls[q].id);
      assert false;
    }
  }

  lemma {:induction false} OwnSome(trace: seq<Event>, id: string) returns (k: nat)
    requires Own(trace, id) != []
    ensures k < |trace| && Concerns(trace[k], id)
  {
    k := |trace| - 1;
    if !Concerns(trace[k], id) {
      k := OwnSome(trace[..k], id);
    }
  }

  lemma PairIsOrdered(t: Batch, joined: nat, p: nat, q: nat, a: nat, b: nat)
    requires t.Valid() && ParallelFirst(t, joined) && NoneTooLate(t)
    requires p < |t.calls| && q < |t.calls| && !t.IsSequential(p) && t.IsSequential(q)
    requires a < |t.trace| && b < |t.trace| && Touches(t.trace[a], t.calls[p].id) && Touches(t.trace[b], t.calls[q].id)
    ensures a < b
  {
    var id := t.calls[q].id;
    var first: nat := b;
    if t.trace[b].LateNote? {
      assert Own(t.trace[..b], id) != [];
      first := OwnSome(t.trace[..b], id);
      assert t.trace[..b][first] == t.trace[first];
    }
    hide ParallelFirst, Own, Life;
    if t.trace[a].LateNote? {
      assert Own(t.trace[..a], id) == [];
      if first < a {
        NoneBefore(t.trace, id, a, first);
      }
      StillDistinct(t, p);
    } else {
      SequentialAfterParallel(t, joined, p, q, a, first);
    }
  }

  lemma NoneBefore(trace: seq<Event>, id: string, a: nat, k: nat)
    requires k < a <= |trace| && Own(trace[..a], id) == []
    ensures !Concerns(trace[k], id)
  {
    OwnNothing(trace[..a], id);
    hide Own, Concerns;
    assert trace[..a][k] == trace[k];
  }

  /** A parallel-safe tool that keeps running after its call was ended, as a cancelled tool that ignores
      its signal does, and reports once more while a sequential call runs. */
  lemma LateReport(p: ToolCall, q: ToolCall, early: Outcome, other: Outcome, note: string) returns (started: Batch, reported: Batch)
    requires p.id != q.id && p.name != q.name
    ensures started.Valid() && Interfered(started, reported) && reported.Valid() && ParallelFirst(reported, 2)
    ensures started.calls == [p, q] && started.sequentialTools == {q.name}
    ensures reported.trace == [ToolStart(p), ToolEnd(p, early), ToolStart(q), LateNote(p, note)]
    ensures !AllOrdered(reported) && Seen(reported.trace, p.id) != Life(p, Work([], early))
  {
    hide Own, Life, Interfered, LatesAfterStart, NoStrays, WithinTurn, Notices;
    var works := [Work([], early), Work([], other)];
    var first := NewBatch([p, q], {q.name}, false, false, works, false);
    NewBatchIsValid([p, q], {q.name}, false, false, works, false);
    AdvanceIsValid(first, 0);
    var spawned := Spawned(first.Advance(0), [0]);
    StepIsValid(spawned, 0, false, false);
    var ended := PipelineStep(spawned, 0, false, false);
    AdvanceIsValid(ended, 1);
    started := ended.Advance(1);
    LateStepIsValid(started, p, note);
    reported := LateStep(started, p, note);
    LateTrace(p, q, early, other);
    LateIsTooLate(reported, p, q, early, note);
  }

  lemma LateTrace(p: ToolCall, q: ToolCall, early: Outcome, other: Outcome)
    ensures Life(p, Work([], early)) == [ToolStart(p), ToolEnd(p, early)] && Life(q, Work([], other))[0] == ToolStart(q)
  {
  }

  lemma TwoOwn(p: ToolCall, early: Outcome, id: string)
    ensures var life := [ToolStart(p), ToolEnd(p, early)]; Own(life, id) == if id == p.id then life else []
  {
    assert Own([], id) == [];
    OwnOne([], ToolStart(p), id);
    OwnOne([ToolStart(p)], ToolEnd(p, early), id);
    hide Own;
    assert [] + [ToolStart(p)] == [ToolStart(p)] && [ToolStart(p)] + [ToolEnd(p, early)] == [ToolStart(p), ToolEnd(p, early)];
  }

  lemma LateIsTooLate(t: Batch, p: ToolCall, q: ToolCall, early: Outcome, note: string)
    requires t.Valid() && t.calls == [p, q] && t.sequentialTools == {q.name} && p.id != q.id && p.name != q.name
    requires t.works[0] == Work([], early) && t.done[0] == 2
    requires t.trace == [ToolStart(p), ToolEnd(p, early), ToolStart(q), LateNote(p, note)]
    ensures ParallelFirst(t, 2) && !AllOrdered(t) && Seen(t.trace, p.id) != Life(p, Work([], early))
  {
    hide Life, ParallelFirst, AllOrdered, Own, Seen, NoStrays, LatesAfterStart, WithinTurn, DistinctIds;
    LateTrace(p, q, early, early);
    LateIsUnordered(t, p, q);
    FirstLived(t, p, q, early);
    SeenIsLife(t, 0);
    assert t.trace[3].LateNote? && t.trace[3].call.id == p.id;
    assert [ToolStart(p), ToolEnd(p, early)][..2] == [ToolStart(p), ToolEnd(p, early)];
  }

  lemma FirstLived(t: Batch, p: ToolCall, q: ToolCall, early: Outcome)
    requires t.calls == [p, q] && t.sequentialTools == {q.name} && p.id != q.id && p.name != q.name
    requires |t.works| == 2 && t.works[0] == Work([], early)
    requires |t.trace| >= 2 && t.trace[..2] == [ToolStart(p), ToolEnd(p, early)]
    ensures ParallelFirst(t, 2)
  {
    LateTrace(p, q, early, early);
    TwoOwn(p, early, p.id);
    TwoOwn(p, early, q.id);
    hide Own, Life;
  }

  lemma LateIsUnordered(t: Batch, p: ToolCall, q: ToolCall)
    requires t.calls == [p, q] && t.sequentialTools == {q.name} && p.name != q.name
    requires |t.trace| == 4 && t.trace[2] == ToolStart(q) && t.trace[3].LateNote? && t.trace[3].call == p
    ensures !AllOrdered(t)
  {
    assert !t.IsSequential(0) && t.IsSequential(1);
    assert Touches(t.trace[3], t.calls[0].id) && Touches(t.trace[2], t.calls[1].id);
  }

  /** Pipelines that a throw left behind may still step; the results stay as the unwind put them,
      and so does the order of the subsets. */
  lemma UnwoundStays(s: Batch, t: Batch, u: Batch, n: nat, joined: nat)
    requires BatchUnwound(s, t, Threw, n) && Interfered(t, u) && u.Valid()
    ensures BatchUnwound(s, u, Threw, n)
    ensures ParallelFirst(t, joined) ==> ParallelFirst(u, joined)
  {
    if ParallelFirst(t, joined) {
      StaysParallelFirst(t, u, joined);
    }
    hide ParallelFirst;
    hide Notices, Paired, Batch.Valid;
  }

  /** However the batch ends, the ids of the result messages are those of the calls, in order. */
  lemma EveryCallHasItsResult(s: Batch, t: Batch, r: BatchResult, n: nat)
    requires if r.Threw? then BatchUnwound(s, t, r, n) else BatchDone(s, t, r)
    ensures var ms := MessageEnds(t.trace);
      |ms| == |s.calls| && forall i | 0 <= i < |ms| :: ms[i].ToolResult? && ms[i].callId == s.calls[i].id
  {
    ValidLengths(t);
    hide MessageEnds, Notices, Paired, Own, Life, Batch.Valid, ResultMessages, AbortedMessages;
    if r.Threw? {
      IdsInOrder(t.calls, t.works, n);
      WholeMessages(t.trace, ResultMessages(t.calls, t.works)[..n] + AbortedMessages(t.calls)[n..]);
    } else {
      IdsInOrder(t.calls, t.works, |t.calls|);
      WholeMessages(t.trace, ResultMessages(t.calls, t.works));
    }
  }

  /** In a completed batch each result says what its call's end said, and the batch terminates when it has
      calls and all of them ended terminating, not just some. */
  lemma ResultsTellOutcomes(s: Batch, t: Batch, r: BatchResult)
    requires BatchDone(s, t, r)
    ensures |r.messages| == |t.calls| && MessageEnds(t.trace) == r.messages
    ensures forall i, k | 0 <= i < |t.calls| && 0 <= k < |t.trace| && t.trace[k].ToolEnd? && t.trace[k].call.id == t.calls[i].id ::
      var outcome := t.trace[k].outcome;
      r.messages[i] == ToolResult(t.calls[i].id, t.calls[i].name, outcome.content, outcome.isError)
    ensures r.terminate <==> t.calls != [] && forall k | 0 <= k < |t.trace| && t.trace[k].ToolEnd? :: t.trace[k].outcome.terminate
  {
    WholeMessages(t.trace, r.messages);
    hide MessageEnds, Notices, Paired, Own, Life, NoStrays, LatesAfterStart, WithinTurn;
    forall i | 0 <= i < |t.calls|
      ensures forall k | 0 <= k < |t.trace| && t.trace[k].ToolEnd? && t.trace[k].call.id == t.calls[i].id :: t.trace[k].outcome == t.works[i].outcome
      ensures ToolEnd(t.calls[i], t.works[i].outcome) in t.trace
    {
      EndOfLife(t, i);
    }
    forall k | 0 <= k < |t.trace| && t.trace[k].ToolEnd?
      ensures t.trace[k].call in t.calls
    {
      EndIsNoStray(t, k);
    }
  }

  lemma EndIsNoStray(t: Batch, k: nat)
    requires t.Valid() && k < |t.trace| && t.trace[k].ToolEnd?
    ensures t.trace[k].call in t.calls
  {
  }

  lemma EndOfLife(t: Batch, i: nat)
    requires t.Valid() && i < |t.calls| && Lived(t, i)
    ensures forall k | 0 <= k < |t.trace| && t.trace[k].ToolEnd? && t.trace[k].call.id == t.calls[i].id :: t.trace[k].outcome == t.works[i].outcome
    ensures ToolEnd(t.calls[i], t.works[i].outcome) in t.trace
  {
    var life := Life(t.calls[i], t.works[i]);
    assert life[..t.done[i]] == life && life[|life| - 1] == ToolEnd(t.calls[i], t.works[i].outcome);
    OwnHas(t.trace, t.calls[i].id);
    OwnIn(t.trace, t.calls[i].id);
    hide Own, NoStrays, LatesAfterStart, WithinTurn, DistinctIds;
  }

  lemma {:induction false} OwnIn(trace: seq<Event>, id: string)
    ensures forall e | e in Own(trace, id) :: e in trace
  {
    if trace != [] {
      var before := trace[..|trace| - 1];
      OwnIn(before, id);
      assert trace == before + [trace[|trace| - 1]];
    }
  }

  lemma IdsInOrder(calls: seq<ToolCall>, works: seq<Work>, n: nat)
    requires |works| == |calls| && n <= |calls|
    ensures var ms := ResultMessages(calls, works)[..n] + AbortedMessages(calls)[n..];
      |ms| == |calls| && forall i | 0 <= i < |ms| :: ms[i].ToolResult? && ms[i].callId == calls[i].id
    ensures var ms := ResultMessages(calls, works);
      |ms| == |calls| && forall i | 0 <= i < |ms| :: ms[i].ToolResult? && ms[i].callId == calls[i].id
  {
  }
}
