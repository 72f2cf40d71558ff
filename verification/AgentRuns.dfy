/** The run loop: turns, guard retries, tool batches, queued messages and the turn budget. */
module AgentRuns {
  import opened Options
  import opened AgentEvents
  import Streams = StreamResponses
  import Tools = ToolBatches
  import opened Speculations

  const MAX_TTSR_RETRIES_PER_TURN := 3

  // ---------------------------------------------------------------------------
  // The bracket discipline of a trace

  datatype Phase = NotStarted | BetweenTurns | InTurn | Over | Broken

  function NextPhase(p: Phase, e: Event): Phase {
    match e
    case AgentStart => if p == NotStarted then BetweenTurns else Broken
    case TurnStart => if p == BetweenTurns then InTurn else Broken
    case TurnEnd(_, _) => if p == InTurn then BetweenTurns else Broken
    case AgentEnd(_) => if p == BetweenTurns then Over else Broken
    case LateNote(_, _) => p
    case _ => if p == InTurn then InTurn else Broken
  }

  /** Over means: one start, turns properly paired, every message and tool event inside a
      turn, one end, and nothing after it. Late updates are left out of account. */
  function PhaseAfter(trace: seq<Event>): Phase {
    if trace == [] then NotStarted else NextPhase(PhaseAfter(trace[..|trace| - 1]), trace[|trace| - 1])
  }

  /** The same with late updates, which belong inside a turn as other tool events do. */
  function StrictPhaseAfter(trace: seq<Event>): Phase {
    if trace == [] then NotStarted
    else
      var before, last := StrictPhaseAfter(trace[..|trace| - 1]), trace[|trace| - 1];
      if last.LateNote? && before != InTurn then Broken else NextPhase(before, last)
  }

  ghost predicate LatesInTurns(trace: seq<Event>) {
    forall k | 0 <= k < |trace| && trace[k].LateNote? :: PhaseAfter(trace[..k]) == InTurn
  }

  /** A trace keeps the brackets with all its events if and only if it keeps them without the late
      updates and each of these comes during a turn. */
  lemma {:induction false} StrictUnlessLate(trace: seq<Event>)
    ensures StrictPhaseAfter(trace) == if LatesInTurns(trace) then PhaseAfter(trace) else Broken
  {
    if trace != [] {
      var before, last := trace[..|trace| - 1], trace[|trace| - 1];
      hide LatesInTurns, NextPhase;
      StrictUnlessLate(before);
      LatesInTurnsOne(before, last);
      assert trace == before + [last];
      BrokenStays(last);
    }
  }

  lemma BrokenStays(e: Event)
    ensures NextPhase(Broken, e) == Broken
  {
  }

  lemma LatesInTurnsOne(trace: seq<Event>, e: Event)
    ensures LatesInTurns(trace + [e]) <==> LatesInTurns(trace) && (e.LateNote? ==> PhaseAfter(trace) == InTurn)
  {
    hide PhaseAfter;
    var after := trace + [e];
    assert forall k | 0 <= k <= |trace| :: after[..k] == trace[..k];
    assert trace[..|trace|] == trace;
    if LatesInTurns(after) {
      assert after[|trace|] == e;
      forall k | 0 <= k < |trace| && trace[k].LateNote?
        ensures PhaseAfter(trace[..k]) == InTurn
      {
        assert after[k] == trace[k];
      }
    }
  }

  /** One late update outside a turn, as between `turn_end` and `agent_end`, breaks the brackets of any
      trace whose other events keep them. */
  lemma ReportOutsideTurn(before: seq<Event>, call: ToolCall, note: string, rest: seq<Event>)
    requires PhaseAfter(before) != InTurn
    ensures var trace := before + [LateNote(call, note)] + rest;
      PhaseAfter(trace) == PhaseAfter(before + rest) && StrictPhaseAfter(trace) == Broken
  {
    var e := LateNote(call, note);
    var trace := before + [e] + rest;
    PhaseOne(before, e);
    SamePhase(before, before + [e], rest);
    StrictUnlessLate(trace);
    hide PhaseAfter, StrictPhaseAfter;
    assert trace[|before|] == e && trace[..|before|] == before;
  }

  lemma {:induction false} SamePhase(a: seq<Event>, b: seq<Event>, rest: seq<Event>)
    requires PhaseAfter(a) == PhaseAfter(b)
    ensures PhaseAfter(a + rest) == PhaseAfter(b + rest)
    decreases |rest|
  {
    hide PhaseAfter, NextPhase;
    if rest == [] {
      assert a + rest == a && b + rest == b;
    } else {
      SamePhase(a, b, rest[..|rest| - 1]);
      LastPhase(a, rest);
      LastPhase(b, rest);
    }
  }

  lemma LastPhase(a: seq<Event>, rest: seq<Event>)
    requires rest != []
    ensures PhaseAfter(a + rest) == NextPhase(PhaseAfter(a + rest[..|rest| - 1]), rest[|rest| - 1])
  {
    hide NextPhase, PhaseAfter;
    var n := |rest| - 1;
    PhaseOne(a + rest[..n], rest[n]);
    assert rest == rest[..n] + [rest[n]];
    assert a + rest == a + rest[..n] + [rest[n]];
  }

  lemma PhaseOne(trace: seq<Event>, e: Event)
    ensures PhaseAfter(trace + [e]) == NextPhase(PhaseAfter(trace), e)
  {
    assert (trace + [e])[..|trace|] == trace;
  }

  lemma {:induction false} PhaseWithin(trace: seq<Event>, more: seq<Event>)
    requires WithinTurn(more)
    ensures PhaseAfter(trace) == InTurn ==> PhaseAfter(trace + more) == InTurn
    ensures PhaseAfter(trace) == Broken ==> PhaseAfter(trace + more) == Broken
    decreases |more|
  {
    if more == [] {
      assert trace + more == trace;
    } else {
      var before, last := more[..|more| - 1], more[|more| - 1];
      PhaseWithin(trace, before);
      PhaseOne(trace + before, last);
      assert trace + before + [last] == trace + more;
    }
  }

  lemma {:induction false} PhaseOnTime(trace: seq<Event>)
    ensures PhaseAfter(trace) == PhaseAfter(OnTime(trace))
  {
    if trace != [] {
      var before, last := trace[..|trace| - 1], trace[|trace| - 1];
      PhaseOnTime(before);
      PhaseOne(OnTime(before), last);
    }
  }

  // ---------------------------------------------------------------------------
  // What a run is given

  /** `abortable`: the run was given a signal, which may abort it, during a batch as well. `stream.throwing`: listeners, hooks or
      the set-up of a stream may throw. */
  datatype Config = Config(maxTurns: int, overthinkMaxRetries: int, setup: ToolSetup, abortable: bool, stream: Streams.Config)

  datatype ToolSetup = ToolSetup(sequentialTools: set<string>, forceSequential: bool, partitionDisabled: bool)

  ghost predicate NoGuardAborts(ms: seq<Message>) {
    forall i | 0 <= i < |ms| :: !IsGuardAbort(ms[i])
  }

  /** Messages from outside: prompts, steering, follow-ups, passive notices. */
  type Queued = ms: seq<Message> | NoGuardAborts(ms) witness []

  datatype Provided = Provided(events: seq<Streams.StreamEvent>, result: Message, settles: bool)

  /** What the provider sends: any stream, and an answer whose call ids are distinct. */
  type Provision = p: Provided | p.result.Assistant? && !p.result.guardAbort && Tools.DistinctIds(p.result.calls)
    witness Provided([], ErrorTurn(""), true)

  /** All that comes from outside the loop. Stream attempts are numbered over the whole run, turns from 0. */
  datatype Outside = Outside(
    provide: nat -> Provision,
    /** What tools and their hooks do. */
    behaviours: nat -> Behaviour,
    /** The messages steering the run: at its start, and after turn `k` under number `k + 1`. */
    steering: nat -> Queued,
    /** Messages that only ride along, in turn `k`. */
    passive: nat -> Queued,
    /** Messages that wait when the run would end after turn `k`. */
    followUps: nat -> Queued,
    /** What the context is replaced with after turn `k`, if it is. */
    contexts: nat -> Option<seq<Message>>,
    /** Whether the hook stops the run after turn `k`. */
    stops: nat -> bool,
    /** Whether the signal is aborted when the answer of turn `k` is there. */
    abortsBefore: nat -> bool,
    /** Whether it is aborted when turn `k` has ended. */
    abortsAfter: nat -> bool)

  /** A well-behaved provider announces its message once per stream. */
  ghost predicate AnnouncesOnce(outside: Outside) {
    forall n: nat :: Streams.Begins(outside.provide(n).events) <= 1
  }

  // ---------------------------------------------------------------------------
  // What happened in a run, turn by turn

  /** One tool batch: the attempt whose answer made the calls, how the batch ended, the results that
      joined the transcript, and whether it asked to end the run. */
  datatype ToolRun = ToolRun(attempt: nat, batch: Tools.Batch, results: seq<Message>, terminate: bool)

  /** Why no further turn followed directly, or what was left to do. */
  datatype Ending = AnswerFailed | RunAborted | HookStopped | WentOn(hasMore: bool, steering: Queued)

  /** `request` is what the provider was given for the answer. */
  datatype Turn = Turn(injected: seq<Message>, reminders: seq<Message>, request: seq<Message>, answer: Message,
    runs: seq<ToolRun>, ending: Ending)

  function ResultsOf(runs: seq<ToolRun>): seq<Message> {
    if runs == [] then [] else runs[0].results
  }

  function Messages(turn: Turn): seq<Message> {
    turn.injected + turn.reminders + [turn.answer] + ResultsOf(turn.runs)
  }

  function AllMessages(turns: seq<Turn>): seq<Message> {
    if turns == [] then [] else AllMessages(turns[..|turns| - 1]) + Messages(turns[|turns| - 1])
  }

  function OutlineOfRuns(runs: seq<ToolRun>): seq<Event> {
    if runs == [] then [] else Outline(runs[0].batch.trace)
  }

  /** A turn from its start: its messages become complete, the calls of the answer run, the turn ends. */
  function Body(turn: Turn): seq<Event> {
    EndsOf(turn.injected + turn.reminders + [turn.answer]) + OutlineOfRuns(turn.runs) + [TurnEnd(turn.answer, ResultsOf(turn.runs))]
  }

  /** The run up to the end of its last turn. The prompts belong to the first turn. */
  function Outlined(prompts: seq<Message>, turns: seq<Turn>): seq<Event> {
    if turns == [] then [AgentStart, TurnStart] + EndsOf(prompts)
    else
      var n := |turns| - 1;
      var before := Outlined(prompts, turns[..n]);
      (if n == 0 then before else before + [TurnStart]) + Body(turns[n])
  }

  function Attempts(turns: seq<Turn>): nat {
    if turns == [] then 0 else Attempts(turns[..|turns| - 1]) + |turns[|turns| - 1].reminders| + 1
  }

  function RunsOf(turns: seq<Turn>): seq<ToolRun> {
    if turns == [] then [] else RunsOf(turns[..|turns| - 1]) + turns[|turns| - 1].runs
  }

  /** What is injected into the next turn, besides passive messages. */
  function Waiting(outside: Outside, turns: seq<Turn>): seq<Message> {
    if turns == [] then outside.steering(0)
    else
      var last := turns[|turns| - 1].ending;
      if last.WentOn? && (last.hasMore || last.steering != []) then last.steering else outside.followUps(|turns| - 1)
  }

  /** Another turn is due: calls were run and not all of them ended the run, or messages wait. */
  predicate Due(outside: Outside, turns: seq<Turn>) {
    turns == [] || (turns[|turns| - 1].ending.WentOn? && (turns[|turns| - 1].ending.hasMore || Waiting(outside, turns) != []))
  }

  /** The conversation: all messages so far, since it was last replaced. */
  function Conversation(start: seq<Message>, outside: Outside, turns: seq<Turn>): seq<Message> {
    if turns == [] then start
    else
      var n := |turns| - 1;
      Replaced(outside, n, Conversation(start, outside, turns[..n]) + Messages(turns[n]))
  }

  function Replaced(outside: Outside, k: nat, context: seq<Message>): seq<Message> {
    match outside.contexts(k)
    case None => context
    case Some(other) => other
  }

  const TTSR_REMINDER := User("[TTSR]")
  const OVERTHINK_REMINDER := User("[overthink]")

  function Cap(n: int): nat {
    if n > 0 then n else 0
  }

  /** Every reminder follows an attempt that a guard interrupted; each guard has its own limit. */
  ghost predicate RemindersAreRight(cfg: Config, reminders: seq<Message>) {
    && (forall i | 0 <= i < |reminders| ::
      (cfg.stream.matcher && reminders[i] == TTSR_REMINDER) || (cfg.stream.overthink && reminders[i] == OVERTHINK_REMINDER))
    && multiset(reminders)[TTSR_REMINDER] <= MAX_TTSR_RETRIES_PER_TURN
    && multiset(reminders)[OVERTHINK_REMINDER] <= Cap(cfg.overthinkMaxRetries)
    && |reminders| == multiset(reminders)[TTSR_REMINDER] + multiset(reminders)[OVERTHINK_REMINDER]
  }

  /** The provider's answer, unless its stream broke off or took too long. */
  predicate IsStreamed(cfg: Streams.Config, p: Provided, m: Message) {
    || m == (if p.settles || exists i :: 0 <= i < |p.events| && p.events[i].Finished? then p.result else ErrorTurn(Streams.NO_TERMINAL_EVENT))
    || (cfg.watchdog && m == ErrorTurn(Streams.STREAM_TIMED_OUT))
  }

  /** A guard gives up when it fires once more at its limit, and not before. */
  ghost predicate GaveUp(cfg: Config, reminders: seq<Message>, m: Message) {
    || (cfg.stream.matcher && m == ErrorTurn("[stop: ttsr]") && multiset(reminders)[TTSR_REMINDER] == MAX_TTSR_RETRIES_PER_TURN)
    || (cfg.stream.overthink && m == ErrorTurn("[stop: overthink]") && multiset(reminders)[OVERTHINK_REMINDER] == Cap(cfg.overthinkMaxRetries))
  }

  /** The answer of a turn comes from the attempt after the last reminder. */
  ghost predicate AnswerIsRight(cfg: Config, outside: Outside, first: nat, reminders: seq<Message>, answer: Message) {
    && RemindersAreRight(cfg, reminders)
    && (IsStreamed(cfg.stream, outside.provide(first + |reminders|), answer) || GaveUp(cfg, reminders, answer))
  }

  predicate IsLive(answer: Message) {
    answer.Assistant? && answer.stop != StopReason.Error && answer.stop != StopReason.Aborted
  }

  predicate HasCalls(answer: Message) {
    IsLive(answer) && answer.calls != []
  }

  /** A signal that was aborted before the batch is so from its first event on. */
  predicate StartsAborted(cfg: Config, outside: Outside, k: nat, r: ToolRun) {
    cfg.abortable && outside.abortsBefore(k) ==> r.batch.aborted && r.batch.abortedAt == 0
  }

  /** The calls of an answer run as one batch, exactly if there are any and the answer did not fail. */
  ghost predicate CallsAreRun(cfg: Config, outside: Outside, k: nat, attempt: nat, answer: Message, runs: seq<ToolRun>) {
    && (if HasCalls(answer) then |runs| == 1 && runs[0].batch.calls == answer.calls else runs == [])
    && forall r | r in runs :: r.attempt == attempt && RunIsRight(cfg, outside.behaviours(attempt), r) && StartsAborted(cfg, outside, k, r)
  }

  /** When turn `k` has ended, the signal is aborted: since before its batch, since during it, or by now. */
  predicate HasAborted(cfg: Config, outside: Outside, k: nat, runs: seq<ToolRun>) {
    (cfg.abortable && (outside.abortsBefore(k) || outside.abortsAfter(k))) || exists i :: 0 <= i < |runs| && runs[i].batch.aborted
  }

  ghost predicate EndingIsRight(cfg: Config, outside: Outside, k: nat, answer: Message, runs: seq<ToolRun>, ending: Ending) {
    match ending
    case AnswerFailed => !IsLive(answer)
    case RunAborted => IsLive(answer) && HasAborted(cfg, outside, k, runs)
    case HookStopped => IsLive(answer) && !HasAborted(cfg, outside, k, runs) && outside.stops(k)
    case WentOn(hasMore, steering) =>
      && IsLive(answer) && !HasAborted(cfg, outside, k, runs) && !outside.stops(k)
      && steering == outside.steering(k + 1) && (hasMore <==> runs != [] && !runs[0].terminate)
  }

  /** The turn after `before` took place as it should. */
  ghost predicate TurnIsRight(cfg: Config, outside: Outside, start: seq<Message>, before: seq<Turn>, turn: Turn) {
    var first := Attempts(before);
    && Due(outside, before)
    && turn.injected == Waiting(outside, before) + outside.passive(|before|)
    && AnswerIsRight(cfg, outside, first, turn.reminders, turn.answer)
    && (AnnouncesOnce(outside) ==> turn.request == Conversation(start, outside, before) + turn.injected + turn.reminders)
    && CallsAreRun(cfg, outside, |before|, first + |turn.reminders|, turn.answer, turn.runs)
    && EndingIsRight(cfg, outside, |before|, turn.answer, turn.runs, turn.ending)
  }

  ghost predicate TurnsAreRight(cfg: Config, outside: Outside, start: seq<Message>, turns: seq<Turn>) {
    turns == [] ||
    (TurnsAreRight(cfg, outside, start, turns[..|turns| - 1]) && TurnIsRight(cfg, outside, start, turns[..|turns| - 1], turns[|turns| - 1]))
  }

  lemma OneMoreTurn(cfg: Config, outside: Outside, start: seq<Message>, prompts: seq<Message>, before: seq<Turn>, turn: Turn)
    requires TurnsAreRight(cfg, outside, start, before) && TurnIsRight(cfg, outside, start, before, turn)
    ensures var turns := before + [turn];
      && TurnsAreRight(cfg, outside, start, turns)
      && AllMessages(turns) == AllMessages(before) + Messages(turn)
      && Outlined(prompts, turns) == (if before == [] then Outlined(prompts, before) else Outlined(prompts, before) + [TurnStart]) + Body(turn)
      && Attempts(turns) == Attempts(before) + |turn.reminders| + 1
      && Conversation(start, outside, turns) == Replaced(outside, |before|, Conversation(start, outside, before) + Messages(turn))
  {
    hide Messages, Body, TurnIsRight;
    var turns := before + [turn];
    assert turns[..|turns| - 1] == before && turns[|before|] == turn;
  }

  lemma LastTurn(cfg: Config, outside: Outside, start: seq<Message>, turns: seq<Turn>)
    requires TurnsAreRight(cfg, outside, start, turns) && turns != []
    ensures var n := |turns| - 1;
      && TurnsAreRight(cfg, outside, start, turns[..n]) && TurnIsRight(cfg, outside, start, turns[..n], turns[n])
      && AllMessages(turns) == AllMessages(turns[..n]) + Messages(turns[n])
      && RunsOf(turns) == RunsOf(turns[..n]) + turns[n].runs
      && Attempts(turns) == Attempts(turns[..n]) + |turns[n].reminders| + 1
      && forall k | 0 <= k < n :: turns[..n][k] == turns[k]
  {
    hide TurnIsRight, Messages;
  }

  /** All turns are as they should be, whichever one looks at. */
  lemma {:induction false} EachTurnIsRight(cfg: Config, outside: Outside, start: seq<Message>, turns: seq<Turn>, k: nat)
    requires TurnsAreRight(cfg, outside, start, turns) && k < |turns|
    ensures TurnIsRight(cfg, outside, start, turns[..k], turns[k])
  {
    hide TurnIsRight;
    if k < |turns| - 1 {
      EachTurnIsRight(cfg, outside, start, turns[..|turns| - 1], k);
      assert turns[..|turns| - 1][..k] == turns[..k];
    }
  }

  // ---------------------------------------------------------------------------
  // The state of a run

  datatype RunState = RunState(trace: seq<Event>, context: seq<Message>, newMessages: seq<Message>)

  /** The listeners' transcript is exactly the run's new messages, and messages start and end in
      turn. */
  ghost predicate Faithful(s: RunState) {
    Transcript(s.trace) == s.newMessages && InOrder(s.trace)
  }

  /** Within a turn. */
  ghost predicate Open(s: RunState) {
    Faithful(s) && PhaseAfter(s.trace) == InTurn
  }

  /** Between turns. */
  ghost predicate Closed(s: RunState) {
    Faithful(s) && PhaseAfter(s.trace) == BetweenTurns
  }

  /** Within a turn these messages were added on all sides, and these events happened. */
  ghost predicate Adds(s: RunState, t: RunState, ms: seq<Message>, events: seq<Event>, tracked: bool) {
    && Open(t) && t.newMessages == s.newMessages + ms && Outline(t.trace) == Outline(s.trace) + events
    && (tracked ==> t.context == s.context + ms)
  }

  lemma AddsNothing(s: RunState, tracked: bool)
    requires Open(s)
    ensures Adds(s, s, [], [], tracked) && EndsOf([]) == []
  {
    hide Open, Outline;
    assert s.newMessages + [] == s.newMessages && s.context + [] == s.context && Outline(s.trace) + [] == Outline(s.trace);
  }

  lemma AddsOn(s: RunState, t: RunState, u: RunState, a: seq<Message>, b: seq<Message>, before: bool, tracked: bool)
    requires Adds(s, t, a, EndsOf(a), before) && Adds(t, u, b, EndsOf(b), tracked) && (tracked ==> before)
    ensures Adds(s, u, a + b, EndsOf(a + b), tracked)
  {
    hide Open, Outline, EndsOf;
    EndsOfAppend(a, b);
    assert s.newMessages + a + b == s.newMessages + (a + b);
    assert s.context + a + b == s.context + (a + b);
    assert Outline(s.trace) + EndsOf(a) + EndsOf(b) == Outline(s.trace) + (EndsOf(a) + EndsOf(b));
  }

  lemma AddsContext(s: RunState, t: RunState, ms: seq<Message>, events: seq<Event>, tracked: bool)
    requires Adds(s, t, ms, events, tracked)
    ensures Open(t) && (tracked ==> t.context == s.context + ms)
  {
    hide Open, Outline;
  }

  lemma AddsOpen(s: RunState, t: RunState, ms: seq<Message>, events: seq<Event>, tracked: bool)
    requires Adds(s, t, ms, events, tracked)
    ensures Open(t) && t.newMessages == s.newMessages + ms && Outline(t.trace) == Outline(s.trace) + events
    ensures tracked ==> t.context == s.context + ms
  {
  }

  /** A direct emit, during whose await tools may report late; a throwing listener ends the run
      abnormally. */
  method Emit(s: RunState, e: Event, throwing: bool) returns (t: RunState, ok: bool)
    requires !e.LateNote?
    ensures !throwing ==> ok
    ensures t == s.(trace := t.trace) && OnTime(t.trace) == OnTime(s.trace) + [e]
    ensures Outline(t.trace) == if IsOutlined(e) then Outline(s.trace) + [e] else Outline(s.trace)
    ensures PhaseAfter(t.trace) == NextPhase(PhaseAfter(s.trace), e)
    ensures Transcript(t.trace) == if e.MessageEnd? && !IsGuardAbort(e.message) then Transcript(s.trace) + [e.message] else Transcript(s.trace)
    ensures Notices(t.trace) == Notices(s.trace) + NoticeOf(e)
    ensures !e.MessageStart? && !e.MessageEnd? && InOrder(s.trace) ==> InOrder(t.trace)
  {
    hide PhaseAfter, Transcript, Notices, Orderly, OnTime, Outline;
    var lates := LateReports();
    t := s.(trace := s.trace + [e] + lates);
    Emitted(s.trace, e, lates);
    assert Notices(s.trace) + [] == Notices(s.trace);
    var throws: bool := *;
    ok := !(throws && throwing);
  }

  lemma Emitted(trace: seq<Event>, e: Event, lates: seq<Event>)
    requires !e.LateNote? && OnlyLateNotes(lates)
    ensures var after := trace + [e] + lates;
      && OnTime(after) == OnTime(trace) + [e]
      && PhaseAfter(after) == NextPhase(PhaseAfter(trace), e)
      && Outline(after) == (if IsOutlined(e) then Outline(trace) + [e] else Outline(trace))
      && Transcript(after) == (if e.MessageEnd? && !IsGuardAbort(e.message) then Transcript(trace) + [e.message] else Transcript(trace))
      && Notices(after) == Notices(trace) + NoticeOf(e)
  {
    hide PhaseAfter, Transcript, ToolEvents, MessageEnds, Own, Notices, OnTime, Outline;
    var before, after := trace + [e], trace + [e] + lates;
    OnTimeOne(trace, e);
    OnTimeWithLates(before, lates);
    PhaseOnTime(before);
    PhaseOnTime(after);
    OnTimeSuffices(before);
    OnTimeSuffices(after);
    OutlineOnTime(before);
    OutlineOnTime(after);
    OutlineOne(trace, e);
    PhaseOne(trace, e);
    AppendOne(trace, e);
    assert Transcript(trace) + [] == Transcript(trace);
  }

  /** `message_start` then `message_end` of a complete message. */
  method EmitMessage(s: RunState, m: Message, throwing: bool) returns (t: RunState, ok: bool)
    requires !IsGuardAbort(m)
    ensures !throwing ==> ok
    ensures ok ==> t == s.(trace := t.trace) && OnTime(t.trace) == OnTime(s.trace) + [MessageStart(m), MessageEnd(m)]
    ensures ok ==> Transcript(t.trace) == Transcript(s.trace) + [m] && Outline(t.trace) == Outline(s.trace) + [MessageEnd(m)]
    ensures ok && InOrder(s.trace) ==> InOrder(t.trace)
    ensures ok ==> (PhaseAfter(s.trace) == InTurn ==> PhaseAfter(t.trace) == InTurn)
    ensures ok ==> (PhaseAfter(s.trace) == Broken ==> PhaseAfter(t.trace) == Broken)
  {
    hide PhaseAfter, Transcript, OnTime, Notices, Orderly, Outline;
    t, ok := Emit(s, MessageStart(m), throwing);
    if ok {
      t, ok := Emit(t, MessageEnd(m), throwing);
      assert Notices(t.trace) == Notices(s.trace) + Whole(m);
      OrderlyWhole(m);
      if InOrder(s.trace) {
        OrderlyAppend(Notices(s.trace), Whole(m));
      }
    }
  }

  /** A message that is complete when it is added: emitted, and appended on both sides. */
  method AddMessage(s: RunState, m: Message, throwing: bool, ghost tracked: bool) returns (t: RunState, ok: bool)
    requires !IsGuardAbort(m) && Open(s)
    ensures !throwing ==> ok
    ensures ok ==> Adds(s, t, [m], EndsOf([m]), tracked)
  {
    hide PhaseAfter, InOrder, Transcript, Outline, OnTime;
    t, ok := EmitMessage(s, m, throwing);
    assert EndsOf([m]) == [MessageEnd(m)];
    t := t.(context := t.context + [m], newMessages := t.newMessages + [m]);
  }

  method InjectMessages(s: RunState, ms: Queued, throwing: bool, ghost tracked: bool) returns (t: RunState, ok: bool)
    requires Open(s)
    ensures !throwing ==> ok
    ensures ok ==> Adds(s, t, ms, EndsOf(ms), tracked)
  {
    hide Open, Outline, EndsOf, Adds;
    t, ok := s, true;
    AddsNothing(s, tracked);
    var i := 0;
    while i < |ms|
      invariant 0 <= i <= |ms| && ok
      invariant Open(t) && Adds(s, t, ms[..i], EndsOf(ms[..i]), tracked)
    {
      ghost var before := t;
      t, ok := AddMessage(t, ms[i], throwing, tracked);
      if !ok {
        return;
      }
      AddsOneMore(s, before, t, ms[..i], ms[i], tracked);
      assert ms[..i + 1] == ms[..i] + [ms[i]];
      i := i + 1;
    }
    assert ms[..|ms|] == ms;
  }

  // ---------------------------------------------------------------------------
  // One stream attempt within a run

  /** Calls complete during the stream and may start speculations. */
  method SpeculateDuringStream(speculation: SpeculationController)
    requires speculation.Valid()
    modifies speculation`entries, speculation`started, speculation.registry`controllers, speculation.registry`nextToken,
      speculation.registry`history, speculation.registry`speculations
    ensures speculation.Valid()
  {
    var completed: nat := *;
    while completed > 0
      invariant speculation.Valid()
    {
      var call: ToolCall, gates: Gates := *, *;
      ghost var started := speculation.MaybeStart(call, gates);
      completed := completed - 1;
    }
  }

  /** The message has been streamed and ended; the loop pushes it to the new messages. */
  function Pushed(s: RunState, m: Message): RunState {
    s.(newMessages := s.newMessages + [m])
  }

  ghost predicate AttemptAdds(s: RunState, t: RunState, response: Streams.Response, tracked: bool) {
    match response
    case Final(m) => m.Assistant? && !m.guardAbort && Tools.DistinctIds(m.calls) && Adds(s, Pushed(t, m), [m], EndsOf([m]), tracked)
    case Interrupted(_) => Adds(s, t, [], [], tracked)
    case Threw => true
  }

  method RunAttempt(s: RunState, provided: Provision, cfg: Streams.Config, speculation: SpeculationController, ghost tracked: bool)
    returns (t: RunState, response: Streams.Response)
    requires Open(s) && (tracked ==> Streams.Begins(provided.events) <= 1) && speculation.Valid()
    modifies speculation`entries, speculation`started, speculation.registry`controllers, speculation.registry`nextToken,
      speculation.registry`history, speculation.registry`speculations
    ensures speculation.Valid()
    ensures AttemptAdds(s, t, response, tracked)
    ensures response.Final? ==> IsStreamed(cfg, provided, response.message)
    ensures response.Interrupted? ==> Streams.MayInterrupt(cfg, Some(response.interrupt))
    ensures response.Threw? ==> cfg.throwing
  {
    hide Open, AttemptAdds, Streams.TraceAfter, Streams.ContextAfter, Streams.Begins, Streams.TextOf, IsStreamed, AllRecorded, Accounts.Balanced,
      ApplyAll, AtMostOnce, Transcript, Tools.DistinctIds, WithinTurn, OnTime;
    var setupThrows: bool := *;
    if setupThrows && cfg.throwing {
      SetupThrew(s, tracked);
      return s, Streams.Threw;
    }
    ghost var n;
    var attempt;
    attempt, response, n := Streams.StreamAssistantResponse(s.context, provided.events, provided.result, provided.settles, cfg);
    SpeculateDuringStream(speculation);
    MessagesRead(attempt.trace, response, provided.events[..n]);
    var woven := Weave(attempt.trace);
    t := RunState(s.trace + woven, attempt.context, s.newMessages);
    if tracked {
      BeginsUpTo(provided.events, n);
    }
    ItsAnswer(cfg, provided, n, response);
    AttemptRead(s, woven, attempt.trace, attempt.context, response, provided.events[..n], tracked);
  }

  lemma ItsAnswer(cfg: Streams.Config, provided: Provision, n: nat, response: Streams.Response)
    requires n <= |provided.events| && forall i | 0 <= i < n :: !provided.events[i].Finished?
    requires response.Final? ==>
      || (cfg.watchdog && response.message == ErrorTurn(Streams.STREAM_TIMED_OUT))
      || (n == |provided.events| && !provided.settles && response.message == ErrorTurn(Streams.NO_TERMINAL_EVENT))
      || (Streams.ReadToEnd(provided.events, n) && (n < |provided.events| || provided.settles) && response.message == provided.result)
    ensures response.Final? ==> IsStreamed(cfg, provided, response.message)
    ensures response.Final? ==> response.message.Assistant? && !response.message.guardAbort && Tools.DistinctIds(response.message.calls)
  {
  }

  lemma MessagesRead(trace: seq<Event>, response: Streams.Response, read: seq<Streams.StreamEvent>)
    requires Streams.TraceAfter(trace, response, read)
    ensures OnlyMessages(trace)
  {
  }

  lemma SetupThrew(s: RunState, tracked: bool)
    ensures AttemptAdds(s, s, Streams.Threw, tracked)
  {
  }

  lemma {:induction false} BeginsUpTo(events: seq<Streams.StreamEvent>, n: nat)
    requires n <= |events|
    ensures Streams.Begins(events[..n]) <= Streams.Begins(events)
    decreases |events|
  {
    if n == |events| {
      assert events[..n] == events;
    } else {
      BeginsUpTo(events[..|events| - 1], n);
      assert events[..|events| - 1][..n] == events[..n];
    }
  }

  lemma AttemptRead(s: RunState, woven: seq<Event>, trace: seq<Event>, context: seq<Message>, response: Streams.Response,
      read: seq<Streams.StreamEvent>, tracked: bool)
    requires Open(s) && OnTime(woven) == trace && WithinTurn(woven)
    requires Streams.TraceAfter(trace, response, read) && (tracked ==> Streams.Begins(read) <= 1)
    requires Streams.ContextAfter(s.context, context, response, Streams.Begins(read))
    requires response.Final? ==> response.message.Assistant? && !response.message.guardAbort && Tools.DistinctIds(response.message.calls)
    ensures AttemptAdds(s, RunState(s.trace + woven, context, s.newMessages), response, tracked)
  {
    if !response.Threw? {
      var t := RunState(s.trace + woven, context, s.newMessages);
      AttemptOutlined(woven, trace, response, read);
      var ms := if response.Final? then [response.message] else [];
      if tracked {
        ContextRead(s.context, context, response, Streams.Begins(read));
      }
      hide Streams.TraceAfter, Streams.ContextAfter, PhaseAfter, InOrder, Transcript, WithinTurn, Outline, EndsOf;
      PhaseWithin(s.trace, woven);
      TranscriptAppend(s.trace, woven);
      OutlineAppend(s.trace, woven);
      InOrderAppend(s.trace, woven);
      AddsMessages(s, t, ms, tracked);
    }
  }

  lemma AddsMessages(s: RunState, t: RunState, ms: seq<Message>, tracked: bool)
    requires Transcript(t.trace) == s.newMessages + ms && InOrder(t.trace) && PhaseAfter(t.trace) == InTurn
    requires Outline(t.trace) == Outline(s.trace) + EndsOf(ms) && t.newMessages == s.newMessages && (tracked ==> t.context == s.context + ms)
    ensures Adds(s, t.(newMessages := s.newMessages + ms), ms, EndsOf(ms), tracked)
    ensures ms == [] ==> EndsOf(ms) == [] && t.(newMessages := s.newMessages + ms) == t
  {
    hide PhaseAfter, InOrder, Transcript, Outline;
  }

  lemma AttemptOutlined(woven: seq<Event>, trace: seq<Event>, response: Streams.Response, read: seq<Streams.StreamEvent>)
    requires OnTime(woven) == trace && Streams.TraceAfter(trace, response, read) && !response.Threw?
    ensures var ms := if response.Final? then [response.message] else [];
      Transcript(woven) == ms && Outline(woven) == EndsOf(ms) && InOrder(woven)
  {
    Streams.AttemptInOrder(trace, response, read);
    hide OnTime, Transcript, Outline, Orderly, Notices, Streams.Marks, Streams.Streamed, Streams.ShownInTime, OnlyMessages, MessageEnds, EndsOf;
    OnTimeSuffices(woven);
    OutlineOnTime(woven);
    OutlineOfMessages(trace);
  }

  lemma ContextRead(base: seq<Message>, context: seq<Message>, response: Streams.Response, begins: nat)
    requires Streams.ContextAfter(base, context, response, begins) && begins <= 1
    ensures response.Final? ==> context == base + [response.message]
    ensures response.Interrupted? ==> context == base + []
  {
    if response.Final? {
      assert context == base + [context[|base|]];
    }
  }

  // ---------------------------------------------------------------------------
  // The guarded turn: attempts until one is not interrupted, or a guard gives up

  datatype Retries = Retries(ttsr: nat, overthink: nat) {
    predicate Within(overthinkMaxRetries: int) {
      ttsr <= MAX_TTSR_RETRIES_PER_TURN && overthink <= Cap(overthinkMaxRetries)
    }
  }

  /** The retries so far are what the reminders say. */
  ghost predicate Counted(cfg: Config, retries: Retries, reminders: seq<Message>) {
    && RemindersAreRight(cfg, reminders)
    && retries.ttsr == multiset(reminders)[TTSR_REMINDER] && retries.overthink == multiset(reminders)[OVERTHINK_REMINDER]
  }

  ghost predicate IsAnswer(s: RunState, t: RunState, reminders: seq<Message>, m: Message, tracked: bool) {
    && m.Assistant? && !m.guardAbort && Tools.DistinctIds(m.calls)
    && Adds(s, Pushed(t, m), reminders + [m], EndsOf(reminders + [m]), tracked && m.stop != StopReason.Error)
  }

  datatype AttemptStep = Answer(message: Message) | Again(retries: Retries, reminder: Message) | AttemptThrew | ListenerThrew

  /** What an attempt comes to: an answer, streamed or in its place; one more reminder and retry; or a throw. */
  ghost predicate StepIsRight(s: RunState, t: RunState, cfg: Config, provided: Provision, retries: Retries, reminders: seq<Message>,
    step: AttemptStep, tracked: bool)
  {
    match step
    case Answer(m) => IsAnswer(s, t, [], m, tracked) && (IsStreamed(cfg.stream, provided, m) || GaveUp(cfg, reminders, m))
    case Again(next, reminder) =>
      && Adds(s, t, [reminder], EndsOf([reminder]), tracked)
      && next.Within(cfg.overthinkMaxRetries) && Counted(cfg, next, reminders + [reminder])
      && next.ttsr + next.overthink == retries.ttsr + retries.overthink + 1
    case AttemptThrew => cfg.stream.throwing
    case ListenerThrew => cfg.stream.throwing
  }

  /** One assistant message per turn: replays after a guard fired, each after a reminder. Attempts
      are numbered over the whole run; each has its own behaviour of tools and hooks. */
  method StreamTurn(s: RunState, cfg: Config, registry: AbortRegistry, outside: Outside, first: nat, ghost tracked: bool)
    returns (t: RunState, ok: bool, message: Message, speculation: SpeculationController, attempts: nat,
             ghost reminders: seq<Message>, ghost request: seq<Message>)
    requires registry.Valid() && Open(s) && (tracked ==> AnnouncesOnce(outside))
    modifies registry
    ensures registry.Valid() && fresh(speculation) && speculation.Valid() && speculation.registry == registry
    ensures attempts == |reminders| + 1 && registry.attempts == old(registry.attempts) + attempts
    ensures ClosedBetween(old(registry.speculations), speculation.opening) && speculation.behaviour == outside.behaviours(first + |reminders|)
    ensures !cfg.stream.throwing ==> ok
    ensures ok ==> IsAnswer(s, t, reminders, message, tracked) && AnswerIsRight(cfg, outside, first, reminders, message)
    ensures ok && tracked ==> request == s.context + reminders
  {
    hide Open, Adds, IsAnswer, IsStreamed, GaveUp, AllRecorded, Accounts.Balanced, ApplyAll, ClosedBetween, AtMostOnce, AbortRegistry.Valid,
      AnnouncesOnce, EndsOf, Outline, Counted, AnswerIsRight, Ledger.Plus;
    t, ok, message, attempts, reminders := s, false, ErrorTurn(""), 0, [];
    ClosedNow(registry.speculations);
    AddsNothing(s, tracked);
    assert s.context + [] == s.context;
    NoRemindersYet(cfg);
    var retries := Retries(0, 0);
    while true
      invariant registry.Valid() && registry.attempts == old(registry.attempts) + attempts
      invariant ClosedBetween(old(registry.speculations), registry.speculations)
      invariant Open(t) && Adds(s, t, reminders, EndsOf(reminders), tracked) && (tracked ==> t.context == s.context + reminders)
      invariant Counted(cfg, retries, reminders) && retries.Within(cfg.overthinkMaxRetries)
      invariant attempts == |reminders| == retries.ttsr + retries.overthink
      decreases MAX_TTSR_RETRIES_PER_TURN - retries.ttsr + Cap(cfg.overthinkMaxRetries) - retries.overthink
    {
      ghost var before, opening := t, registry.speculations;
      request := t.context;
      var step;
      t, step, speculation := GuardedAttempt(t, retries, cfg, registry, outside, first + attempts, tracked, reminders);
      attempts := attempts + 1;
      match step
      case AttemptThrew =>
        return;
      case ListenerThrew =>
        return;
      case Answer(m) =>
        AnswerFrom(s, before, t, reminders, m, tracked);
        RightAnswer(cfg, outside, first, retries, reminders, m);
        ok, message := true, m;
        return;
      case Again(next, reminder) =>
        retries := next;
        StillClosed(registry, old(registry.speculations), opening);
        AddsOneMore(s, before, t, reminders, reminder, tracked);
        reminders := reminders + [reminder];
    }
  }

  lemma RightAnswer(cfg: Config, outside: Outside, first: nat, retries: Retries, reminders: seq<Message>, m: Message)
    requires Counted(cfg, retries, reminders)
    requires IsStreamed(cfg.stream, outside.provide(first + |reminders|), m) || GaveUp(cfg, reminders, m)
    ensures AnswerIsRight(cfg, outside, first, reminders, m)
  {
    hide RemindersAreRight, IsStreamed, GaveUp;
  }

  lemma StillClosed(registry: AbortRegistry, a: Ledger, b: Ledger)
    requires registry.Valid() && ClosedBetween(a, b) && ClosedBetween(b, registry.speculations)
    ensures ClosedBetween(a, registry.speculations)
  {
    hide ClosedBetween, AtMostOnce, ApplyAll;
    ClosedOn(a, b, registry.speculations);
  }

  lemma AddsOneMore(s: RunState, before: RunState, t: RunState, ms: seq<Message>, m: Message, tracked: bool)
    requires Adds(s, before, ms, EndsOf(ms), tracked) && Adds(before, t, [m], EndsOf([m]), tracked)
    ensures Open(t) && Adds(s, t, ms + [m], EndsOf(ms + [m]), tracked) && (tracked ==> t.context == s.context + (ms + [m]))
  {
    hide Adds, EndsOf;
    AddsOn(s, before, t, ms, [m], tracked, tracked);
    AddsContext(s, t, ms + [m], EndsOf(ms + [m]), tracked);
  }

  lemma NoRemindersYet(cfg: Config)
    ensures Counted(cfg, Retries(0, 0), [])
  {
  }

  lemma AnswerFrom(s: RunState, before: RunState, t: RunState, reminders: seq<Message>, m: Message, tracked: bool)
    requires Adds(s, before, reminders, EndsOf(reminders), tracked) && IsAnswer(before, t, [], m, tracked)
    ensures IsAnswer(s, t, reminders, m, tracked)
  {
    hide Adds, EndsOf;
    assert [] + [m] == [m];
    AddsOn(s, before, Pushed(t, m), reminders, [m], tracked, tracked && m.stop != StopReason.Error);
  }

  /** One attempt with its own speculations, and what a guard makes of it. When the attempt throws
      or the turn is replayed, its speculations are reaped. */
  method GuardedAttempt(
    s: RunState, retries: Retries, cfg: Config, registry: AbortRegistry, outside: Outside, attempt: nat,
    ghost tracked: bool, ghost reminders: seq<Message>)
    returns (t: RunState, step: AttemptStep, speculation: SpeculationController)
    requires registry.Valid() && Open(s) && (tracked ==> AnnouncesOnce(outside))
    requires retries.Within(cfg.overthinkMaxRetries) && Counted(cfg, retries, reminders)
    modifies registry
    ensures registry.Valid() && fresh(speculation) && speculation.Valid()
    ensures speculation.registry == registry && speculation.behaviour == outside.behaviours(attempt)
    ensures speculation.opening == old(registry.speculations) && registry.attempts == old(registry.attempts) + 1
    ensures step.Again? || step.AttemptThrew? ==> ClosedBetween(old(registry.speculations), registry.speculations)
    ensures StepIsRight(s, t, cfg, outside.provide(attempt), retries, reminders, step, tracked)
  {
    hide Open, Adds, AttemptAdds, IsAnswer, IsStreamed, GaveUp, RemindersAreRight, AllRecorded, Accounts.Balanced, ApplyAll, ClosedBetween,
      AtMostOnce, Ledger.Plus, EndsOf, Outline, Counted, Aborts, StepIsRight;
    if tracked {
      assert Streams.Begins(outside.provide(attempt).events) <= 1;
    }
    hide AnnouncesOnce;
    speculation := new SpeculationController(registry, outside.behaviours(attempt));
    var response;
    t, response := RunAttempt(s, outside.provide(attempt), cfg.stream, speculation, tracked);
    if response.Final? {
      AnswerComes(s, t, cfg, outside.provide(attempt), retries, reminders, response.message, tracked);
      step := Answer(response.message);
      return;
    }
    if response.Threw? {
      speculation.DiscardLeftovers();
      step := AttemptThrew;
      ThrownStep(s, t, cfg, outside.provide(attempt), retries, reminders, tracked);
      return;
    }
    ghost var after := t;
    InterruptAdds(s, t, response, tracked);
    t, step := AfterInterrupt(t, response.interrupt, retries, cfg, outside.provide(attempt), tracked, reminders);
    StepAfter(s, after, t, cfg, outside.provide(attempt), retries, reminders, step, tracked);
    if step.Again? {
      speculation.DiscardLeftovers();
    }
  }

  lemma ThrownStep(s: RunState, t: RunState, cfg: Config, provided: Provision, retries: Retries, reminders: seq<Message>, tracked: bool)
    requires cfg.stream.throwing
    ensures StepIsRight(s, t, cfg, provided, retries, reminders, AttemptThrew, tracked)
  {
  }

  lemma AnswerComes(s: RunState, t: RunState, cfg: Config, provided: Provision, retries: Retries, reminders: seq<Message>, m: Message, tracked: bool)
    requires AttemptAdds(s, t, Streams.Final(m), tracked) && IsStreamed(cfg.stream, provided, m)
    ensures StepIsRight(s, t, cfg, provided, retries, reminders, Answer(m), tracked)
  {
    hide Open, Outline, EndsOf, IsStreamed, GaveUp;
    assert [] + [m] == [m];
  }

  lemma InterruptAdds(s: RunState, t: RunState, response: Streams.Response, tracked: bool)
    requires AttemptAdds(s, t, response, tracked) && response.Interrupted?
    ensures Open(t) && Adds(s, t, [], [], tracked)
  {
    hide Open, Outline;
  }

  /** An interrupted attempt adds nothing itself. */
  lemma StepAfter(s: RunState, after: RunState, t: RunState, cfg: Config, provided: Provision, retries: Retries, reminders: seq<Message>,
      step: AttemptStep, tracked: bool)
    requires Adds(s, after, [], [], tracked) && StepIsRight(after, t, cfg, provided, retries, reminders, step, tracked)
    ensures StepIsRight(s, t, cfg, provided, retries, reminders, step, tracked)
  {
    assert EndsOf([]) == [];
    hide Adds, EndsOf, IsAnswer, IsStreamed, GaveUp, Counted;
    match step
    case Answer(m) =>
      AnswerFrom(s, after, t, [], m, tracked);
    case Again(_, reminder) =>
      assert [] + [reminder] == [reminder];
      AddsOn(s, after, t, [], [reminder], tracked, tracked);
    case _ =>
  }

  /** A guard fired: give up with an error turn, or add a reminder and count the retry. */
  method AfterInterrupt(
    s: RunState, kind: Streams.InterruptKind, retries: Retries, cfg: Config, ghost provided: Provision, ghost tracked: bool,
    ghost reminders: seq<Message>)
    returns (t: RunState, step: AttemptStep)
    requires Open(s) && retries.Within(cfg.overthinkMaxRetries) && Counted(cfg, retries, reminders)
    requires Streams.MayInterrupt(cfg.stream, Some(kind))
    ensures !step.AttemptThrew? && StepIsRight(s, t, cfg, provided, retries, reminders, step, tracked)
    ensures step.Answer? ==> GaveUp(cfg, reminders, step.message)
  {
    hide Open, Adds, IsAnswer, EndsOf, Outline, RemindersAreRight, Counted, GaveUp;
    step := ListenerThrew;
    var ok;
    var givesUp := if kind.Ttsr? then retries.ttsr >= MAX_TTSR_RETRIES_PER_TURN
                   else retries.overthink >= cfg.overthinkMaxRetries;
    if givesUp {
      var m := ErrorTurn(if kind.Ttsr? then "[stop: ttsr]" else "[stop: overthink]");
      t, ok := EmitErrorTurn(s, m, cfg.stream.throwing, tracked);
      if ok {
        AtTheLimit(cfg, retries, reminders, kind);
        step := Answer(m);
      }
      return;
    }
    var next := if kind.Ttsr? then retries.(ttsr := retries.ttsr + 1) else retries.(overthink := retries.overthink + 1);
    var reminder := if kind.Ttsr? then TTSR_REMINDER else OVERTHINK_REMINDER;
    t, ok := AddMessage(s, reminder, cfg.stream.throwing, tracked);
    if ok {
      OneMoreReminder(cfg, retries, next, reminders, reminder);
      step := Again(next, reminder);
    }
  }

  /** An error turn in place of an answer: it does not join the context. */
  method EmitErrorTurn(s: RunState, m: Message, throwing: bool, ghost tracked: bool) returns (t: RunState, ok: bool)
    requires Open(s) && m.Assistant? && m == ErrorTurn(m.errorMessage)
    ensures !throwing ==> ok
    ensures ok ==> IsAnswer(s, t, [], m, tracked)
  {
    hide Transcript, Outline, PhaseAfter, InOrder, OnTime;
    t, ok := EmitMessage(s, m, throwing);
    assert EndsOf([m]) == [MessageEnd(m)] && [] + [m] == [m];
  }

  lemma AtTheLimit(cfg: Config, retries: Retries, reminders: seq<Message>, kind: Streams.InterruptKind)
    requires Counted(cfg, retries, reminders) && retries.Within(cfg.overthinkMaxRetries) && Streams.MayInterrupt(cfg.stream, Some(kind))
    requires if kind.Ttsr? then retries.ttsr >= MAX_TTSR_RETRIES_PER_TURN else retries.overthink >= cfg.overthinkMaxRetries
    ensures GaveUp(cfg, reminders, ErrorTurn(if kind.Ttsr? then "[stop: ttsr]" else "[stop: overthink]"))
  {
  }

  lemma OneMoreReminder(cfg: Config, retries: Retries, next: Retries, reminders: seq<Message>, reminder: Message)
    requires Counted(cfg, retries, reminders) && next.Within(cfg.overthinkMaxRetries)
    requires
      || (cfg.stream.matcher && reminder == TTSR_REMINDER && next == retries.(ttsr := retries.ttsr + 1))
      || (cfg.stream.overthink && reminder == OVERTHINK_REMINDER && next == retries.(overthink := retries.overthink + 1))
    ensures Counted(cfg, next, reminders + [reminder])
  {
    assert multiset(reminders + [reminder]) == multiset(reminders) + multiset{reminder};
  }

  // ---------------------------------------------------------------------------
  // The tool batch of a turn

  /** The speculations that the calls of a batch find: those of calls to parallel-safe tools, with the same
      name and arguments. */
  function Speculated(entries: map<string, Entry>, calls: seq<ToolCall>, sequentialTools: set<string>): multiset<Token> {
    if calls == [] then multiset{}
    else
      var before, call := Speculated(entries, calls[..|calls| - 1], sequentialTools), calls[|calls| - 1];
      if call.name !in sequentialTools && Matches(entries, call) then before + multiset{entries[call.id].token} else before
  }

  /** What each call of the batch does. When calls run concurrently, those to parallel-safe tools
      consume their speculations, and only those; a batch that runs serially consumes none. Every call
      does what it does unspeculated. */
  method GatherWorks(calls: seq<ToolCall>, setup: ToolSetup, speculation: SpeculationController) returns (works: seq<Tools.Work>)
    requires speculation.Valid() && Tools.DistinctIds(calls)
    modifies speculation`entries, speculation`consumed, speculation`discarded, speculation`unsettled
    modifies speculation.registry`tripped, speculation.registry`speculations, speculation.registry`controllers,
      speculation.registry`nextToken, speculation.registry`history
    ensures speculation.Valid() && works == UnspeculatedWorks(speculation.behaviour, calls)
    ensures speculation.consumed == old(speculation.consumed) +
      if RouteOf(setup, calls) == Tools.Serial then multiset{} else Speculated(old(speculation.entries), calls, setup.sequentialTools)
  {
    hide Unspeculated, Tools.RouteOf, AllRecorded, Accounts.Balanced, AtMostOnce, ApplyAll, Ledger.Plus, Matches, Speculated, StillFound,
      Tools.DistinctIds, SpeculationController.Valid, AbortRegistry.Valid;
    NothingTaken(speculation.entries, calls, setup.sequentialTools);
    works := [];
    var serial := RouteOf(setup, calls) == Tools.Serial;
    assert calls[..|calls|] == calls;
    for i := 0 to |calls|
      invariant speculation.Valid() && |works| == i
      invariant forall j | 0 <= j < i :: works[j] == Unspeculated(speculation.behaviour, calls[j])
      invariant StillFound(old(speculation.entries), speculation.entries, calls, i)
      invariant speculation.consumed == old(speculation.consumed) +
        if serial then multiset{} else Speculated(old(speculation.entries), calls[..i], setup.sequentialTools)
    {
      var alone := serial || calls[i].name in setup.sequentialTools;
      ghost var before := speculation.entries;
      var work := DoCall(calls[i], alone, speculation);
      OthersStillFound(old(speculation.entries), before, speculation.entries, calls, i);
      SpeculatedOneMore(old(speculation.entries), before, calls, setup.sequentialTools, i);
      works := works + [work];
    }
  }

  /** The calls from `i` on find what they found before. */
  ghost predicate StillFound(first: map<string, Entry>, entries: map<string, Entry>, calls: seq<ToolCall>, i: nat) {
    forall j | i <= j < |calls| ::
      && (calls[j].id in entries <==> calls[j].id in first)
      && (calls[j].id in entries ==> entries[calls[j].id] == first[calls[j].id])
  }

  lemma NothingTaken(entries: map<string, Entry>, calls: seq<ToolCall>, sequentialTools: set<string>)
    ensures StillFound(entries, entries, calls, 0) && Speculated(entries, calls[..0], sequentialTools) == multiset{}
  {
  }

  lemma OthersStillFound(first: map<string, Entry>, before: map<string, Entry>, after: map<string, Entry>, calls: seq<ToolCall>, i: nat)
    requires Tools.DistinctIds(calls) && i < |calls| && (after == before || after == before - {calls[i].id})
    requires StillFound(first, before, calls, i)
    ensures StillFound(first, after, calls, i + 1)
  {
    forall j | i < j < |calls|
      ensures calls[j].id in after <==> calls[j].id in first
      ensures calls[j].id in after ==> after[calls[j].id] == first[calls[j].id]
    {
      assert calls[j].id != calls[i].id;
    }
  }

  lemma SpeculatedOneMore(first: map<string, Entry>, before: map<string, Entry>, calls: seq<ToolCall>, sequentialTools: set<string>, i: nat)
    requires i < |calls| && StillFound(first, before, calls, i)
    ensures Matches(before, calls[i]) ==> calls[i].id in before
    ensures Speculated(first, calls[..i + 1], sequentialTools) == Speculated(first, calls[..i], sequentialTools) +
      if calls[i].name !in sequentialTools && Matches(before, calls[i]) then multiset{before[calls[i].id].token} else multiset{}
  {
    assert calls[..i + 1][..i] == calls[..i];
  }

  function UnspeculatedWorks(b: Behaviour, calls: seq<ToolCall>): (works: seq<Tools.Work>)
    ensures |works| == |calls|
  {
    seq(|calls|, i requires 0 <= i < |calls| => Unspeculated(b, calls[i]))
  }

  function RouteOf(setup: ToolSetup, calls: seq<ToolCall>): Tools.Route {
    Tools.RouteOf(calls, setup.sequentialTools, setup.forceSequential, setup.partitionDisabled)
  }

  method DoCall(call: ToolCall, alone: bool, speculation: SpeculationController) returns (work: Tools.Work)
    requires speculation.Valid()
    modifies speculation`entries, speculation`consumed, speculation`discarded, speculation`unsettled
    modifies speculation.registry`tripped, speculation.registry`speculations, speculation.registry`controllers,
      speculation.registry`nextToken, speculation.registry`history
    ensures speculation.Valid() && work == Unspeculated(speculation.behaviour, call)
    ensures if alone then speculation.entries == old(speculation.entries) && speculation.consumed == old(speculation.consumed)
      else
        && speculation.entries == old(speculation.entries) - {call.id}
        && speculation.consumed == old(speculation.consumed) +
          if Matches(old(speculation.entries), call) then multiset{old(speculation.entries)[call.id].token} else multiset{}
  {
    hide Unspeculated, AllRecorded, Accounts.Balanced, AtMostOnce, ApplyAll, Ledger.Plus;
    if alone {
      work := RunCall(speculation.registry, speculation.behaviour, call);
    } else {
      work := speculation.RunParallelCall(call);
    }
  }

  /** Call `i` started, did and ended as `work` says, and that is its result. */
  ghost predicate LivedAs(r: ToolRun, i: nat, work: Tools.Work)
    requires i < |r.batch.calls| == |r.results|
  {
    && Own(r.batch.trace, r.batch.calls[i].id) == Tools.Life(r.batch.calls[i], work)
    && r.results[i] == ResultMessage(r.batch.calls[i], work.outcome)
  }

  /** Each call did what it does unspeculated, or was skipped because the run was aborted; and
      no other tool event happened. */
  ghost predicate Transparent(b: Behaviour, r: ToolRun) {
    && |r.results| == |r.batch.calls| && Tools.NoStrays(r.batch.trace, r.batch.calls)
    && forall i | 0 <= i < |r.batch.calls| ::
      LivedAs(r, i, Unspeculated(b, r.batch.calls[i])) || (r.batch.aborted && LivedAs(r, i, Tools.SKIPPED))
  }

  /** One result per call, in the order of the calls. */
  ghost predicate AnswersEachCall(calls: seq<ToolCall>, results: seq<Message>) {
    && |results| == |calls|
    && forall i | 0 <= i < |calls| :: results[i].ToolResult? && results[i].callId == calls[i].id
  }

  /** The batch asks to end the run exactly if every one of its calls ended asking for it. */
  ghost predicate TerminateIsRight(r: ToolRun) {
    r.terminate <==> r.batch.calls != [] && forall k | 0 <= k < |r.batch.trace| && r.batch.trace[k].ToolEnd? :: r.batch.trace[k].outcome.terminate
  }

  ghost predicate RunIsRight(cfg: Config, b: Behaviour, r: ToolRun) {
    && AnswersEachCall(r.batch.calls, r.results) && MessageEnds(r.batch.trace) == r.results
    && Transparent(b, r)
    && Tools.RanAsRouted(RouteOf(cfg.setup, r.batch.calls), UnspeculatedWorks(b, r.batch.calls), r.batch)
    && r.batch.Valid() && r.batch.sequentialTools == cfg.setup.sequentialTools
    && TerminateIsRight(r) && (r.batch.aborted ==> cfg.abortable)
  }

  lemma BatchIsTransparent(s: Tools.Batch, t: Tools.Batch, r: Tools.BatchResult, b: Behaviour, attempt: nat)
    requires Tools.BatchDone(s, t, r) && s.works == UnspeculatedWorks(b, s.calls) && |t.works| == |s.works|
    requires forall i | 0 <= i < |s.works| :: t.works[i] == s.works[i] || (t.works[i] == Tools.SKIPPED && t.aborted)
    ensures Transparent(b, ToolRun(attempt, t, r.messages, r.terminate))
  {
    hide Unspeculated, LivedAs, Notices, Paired, Own, Tools.Life, Tools.NoStrays, Tools.DistinctIds, WithinTurn, Tools.LatesAfterStart;
    var run := ToolRun(attempt, t, r.messages, r.terminate);
    forall i | 0 <= i < |s.calls|
      ensures LivedAs(run, i, t.works[i])
    {
      CallLived(run, t, i);
    }
  }

  lemma CallLived(run: ToolRun, t: Tools.Batch, i: nat)
    requires i < |t.calls| == |t.works| == |t.done| && run.batch == t
    requires run.results == Tools.ResultMessages(t.calls, t.works)
    requires Tools.Lived(t, i) && Own(t.trace, t.calls[i].id) == Tools.Life(t.calls[i], t.works[i])[..t.done[i]]
    ensures LivedAs(run, i, t.works[i])
  {
    hide Own;
    var life := Tools.Life(t.calls[i], t.works[i]);
    assert life[..t.done[i]] == life;
  }

  lemma NewBatchIsFresh(calls: seq<ToolCall>, cfg: Config, works: seq<Tools.Work>, aborted: bool)
    requires Tools.DistinctIds(calls) && |works| == |calls| && (aborted ==> cfg.abortable)
    ensures var s := NewBatch(calls, cfg, works, aborted);
      && Tools.Fresh(s) && s.calls == calls && s.works == works && s.sequentialTools == cfg.setup.sequentialTools
      && s.abortable == cfg.abortable && s.throwing == cfg.stream.throwing && s.aborted == aborted && s.abortedAt == 0
      && RouteOf(cfg.setup, calls) == Tools.RouteOf(s.calls, s.sequentialTools, cfg.setup.forceSequential, cfg.setup.partitionDisabled)
  {
    Tools.NewBatchIsValid(calls, cfg.setup.sequentialTools, cfg.abortable, cfg.stream.throwing, works, aborted);
  }

  function NewBatch(calls: seq<ToolCall>, cfg: Config, works: seq<Tools.Work>, aborted: bool): Tools.Batch {
    Tools.NewBatch(calls, cfg.setup.sequentialTools, cfg.abortable, cfg.stream.throwing, works, aborted)
  }

  lemma {:induction false} ResultsAreTranscript(trace: seq<Event>)
    requires forall i | 0 <= i < |MessageEnds(trace)| :: MessageEnds(trace)[i].ToolResult?
    ensures Transcript(trace) == MessageEnds(trace)
  {
    if trace != [] {
      var before, last := trace[..|trace| - 1], trace[|trace| - 1];
      var ends := MessageEnds(trace);
      assert forall i | 0 <= i < |MessageEnds(before)| :: MessageEnds(before)[i] == ends[i];
      ResultsAreTranscript(before);
      if last.MessageEnd? {
        assert ends[|ends| - 1] == last.message;
      }
    }
  }

  /** Executes the calls of an answer and adds their results on both sides. */
  method RunTools(
    s: RunState, calls: seq<ToolCall>, aborted: bool, cfg: Config, speculation: SpeculationController,
    ghost attempt: nat, ghost tracked: bool)
    returns (t: RunState, ok: bool, results: seq<Message>, terminate: bool, aborted': bool, ghost run: ToolRun)
    requires Tools.DistinctIds(calls) && Open(s) && speculation.Valid() && (aborted ==> cfg.abortable)
    modifies speculation`entries, speculation`consumed, speculation`discarded, speculation`unsettled
    modifies speculation.registry`tripped, speculation.registry`speculations, speculation.registry`controllers,
      speculation.registry`nextToken, speculation.registry`history
    ensures speculation.Valid()
    ensures !cfg.stream.throwing ==> ok
    ensures ok ==> Adds(s, t, results, Outline(run.batch.trace), tracked)
    ensures ok ==> run.attempt == attempt && run.batch.calls == calls && run.results == results && run.terminate == terminate
    ensures ok ==> run.batch.aborted == aborted' && RunIsRight(cfg, speculation.behaviour, run)
    ensures aborted ==> aborted' && run.batch.abortedAt == 0
  {
    hide Open, Outline, MessageEnds, Adds, RunIsRight, Unspeculated, UnspeculatedWorks, NewBatch, RouteOf, AllRecorded, Accounts.Balanced, ApplyAll,
      AtMostOnce, WithinTurn, Transcript, InOrder, AnswersEachCall;
    var works := GatherWorks(calls, cfg.setup, speculation);
    NewBatchIsFresh(calls, cfg, works, aborted);
    hide Tools.Batch.Valid, Tools.Fresh, Tools.BatchDone, Tools.BatchUnwound, Tools.RanAsRouted, Tools.RouteOf, Tools.NewBatch;
    var batch := NewBatch(calls, cfg, works, aborted);
    var done, r;
    ghost var n;
    done, r, n := Tools.ExecuteToolCalls(batch, cfg.setup.forceSequential, cfg.setup.partitionDisabled);
    aborted' := done.aborted;
    AbortedIfAbortable(batch, done, r, n);
    if r.Threw? {
      run := ToolRun(attempt, done, [], false);
      return s, false, [], false, aborted', run;
    }
    ok, results, terminate := true, r.messages, r.terminate;
    run := ToolRun(attempt, done, results, terminate);
    BatchAdds(batch, done, r);
    t := RunState(s.trace + done.trace, s.context + results, s.newMessages + results);
    BatchGoesOn(s, t, done.trace, results, tracked);
    BatchIsRight(cfg, batch, done, r, speculation.behaviour, run);
  }

  lemma AbortedIfAbortable(s: Tools.Batch, t: Tools.Batch, r: Tools.BatchResult, n: nat)
    requires if r.Threw? then Tools.BatchUnwound(s, t, r, n) else Tools.BatchDone(s, t, r)
    ensures t.aborted ==> s.abortable
  {
  }

  lemma BatchIsRight(cfg: Config, s: Tools.Batch, t: Tools.Batch, r: Tools.BatchResult, b: Behaviour, run: ToolRun)
    requires Tools.BatchDone(s, t, r) && s.works == UnspeculatedWorks(b, s.calls) && |t.works| == |s.works|
    requires forall i | 0 <= i < |s.works| :: t.works[i] == s.works[i] || (t.works[i] == Tools.SKIPPED && t.aborted)
    requires Tools.RanAsRouted(RouteOf(cfg.setup, s.calls), s.works, t)
    requires s.sequentialTools == cfg.setup.sequentialTools && (s.abortable ==> cfg.abortable)
    requires run.batch == t && run.results == r.messages && run.terminate == r.terminate
    ensures RunIsRight(cfg, b, run)
  {
    BatchIsTransparent(s, t, r, b, run.attempt);
    BatchAdds(s, t, r);
    Tools.ResultsTellOutcomes(s, t, r);
    BatchIsTheSame(s, t, r);
    hide Tools.BatchDone, Tools.RanAsRouted, UnspeculatedWorks, Transparent, AnswersEachCall, Tools.RouteOf, MessageEnds, Tools.Batch.Valid;
  }

  lemma BatchIsTheSame(s: Tools.Batch, t: Tools.Batch, r: Tools.BatchResult)
    requires Tools.BatchDone(s, t, r)
    ensures t.Valid() && t.calls == s.calls && t.sequentialTools == s.sequentialTools && (t.aborted ==> s.abortable)
  {
  }

  lemma BatchAdds(s: Tools.Batch, t: Tools.Batch, r: Tools.BatchResult)
    requires Tools.BatchDone(s, t, r)
    ensures r.Completed? && WithinTurn(t.trace) && Transcript(t.trace) == r.messages && InOrder(t.trace)
    ensures AnswersEachCall(s.calls, r.messages)
  {
    WholeMessages(t.trace, r.messages);
    OrderlyPaired(r.messages);
    hide Notices, Paired, Orderly;
    ResultsAreTranscript(t.trace);
  }

  lemma BatchGoesOn(s: RunState, t: RunState, trace: seq<Event>, results: seq<Message>, tracked: bool)
    requires Open(s) && WithinTurn(trace) && Transcript(trace) == results && InOrder(trace)
    requires t == RunState(s.trace + trace, s.context + results, s.newMessages + results)
    ensures Adds(s, t, results, Outline(trace), tracked)
  {
    hide PhaseAfter, InOrder, Transcript, WithinTurn, Outline;
    PhaseWithin(s.trace, trace);
    TranscriptAppend(s.trace, trace);
    OutlineAppend(s.trace, trace);
    InOrderAppend(s.trace, trace);
  }

  // ---------------------------------------------------------------------------
  // One turn

  /** The last event carries these messages, unless tools report after it. */
  ghost predicate EndsWith(trace: seq<Event>, newMessages: seq<Message>) {
    var kept := OnTime(trace);
    kept != [] && kept[|kept| - 1] == AgentEnd(newMessages)
  }

  lemma EndsWithOne(trace: seq<Event>, e: Event)
    ensures forall ms :: EndsWith(trace + [e], ms) <==> if e.LateNote? then EndsWith(trace, ms) else e == AgentEnd(ms)
  {
    OnTimeOne(trace, e);
    hide OnTime;
  }

  /** The run is over: its last event carries the new messages, and everything is paired. */
  ghost predicate RunEnded(s: RunState) {
    Faithful(s) && PhaseAfter(s.trace) == Over && EndsWith(s.trace, s.newMessages)
  }

  method EndRun(s: RunState, throwing: bool) returns (t: RunState, ok: bool)
    requires Closed(s)
    ensures !throwing ==> ok
    ensures ok ==> RunEnded(t) && t.newMessages == s.newMessages && Outline(t.trace) == Outline(s.trace) + [AgentEnd(s.newMessages)]
  {
    hide PhaseAfter, InOrder, Transcript, OnTime, Outline;
    t, ok := Emit(s, AgentEnd(s.newMessages), throwing);
  }

  /** The end of a turn that stays faithful. */
  method EndTurn(s: RunState, message: Message, results: seq<Message>, throwing: bool) returns (t: RunState, ok: bool)
    requires Open(s)
    ensures !throwing ==> ok
    ensures ok ==> Closed(t) && t == s.(trace := t.trace) && Outline(t.trace) == Outline(s.trace) + [TurnEnd(message, results)]
  {
    hide PhaseAfter, InOrder, Transcript, OnTime, Outline;
    t, ok := Emit(s, TurnEnd(message, results), throwing);
  }

  /** How a turn ends after its answer: its results are on all sides, and unless it went on the run is over. */
  ghost predicate Taken(
    s: RunState, t: RunState, outside: Outside, k: nat, answer: Message, runs: seq<ToolRun>, ending: Ending, tracked: bool)
  {
    && t.newMessages == s.newMessages + ResultsOf(runs)
    && Outline(t.trace) == Outline(s.trace) + (OutlineOfRuns(runs) + [TurnEnd(answer, ResultsOf(runs))] + FinalEvent(ending, t.newMessages))
    && (if ending.WentOn? then Closed(t) && (tracked ==> t.context == Replaced(outside, k, s.context + ResultsOf(runs))) else RunEnded(t))
  }

  function FinalEvent(ending: Ending, newMessages: seq<Message>): seq<Event> {
    if ending.WentOn? then [] else [AgentEnd(newMessages)]
  }

  /** What follows an answer: the end of the run on an error or abort, else tools and the end
      of the turn. */
  method TakeAnswer(
    s: RunState, message: Message, cfg: Config, outside: Outside, k: nat, speculation: SpeculationController,
    ghost attempt: nat, ghost tracked: bool)
    returns (t: RunState, ok: bool, ending: Ending, ghost runs: seq<ToolRun>)
    requires message.Assistant? && Tools.DistinctIds(message.calls) && speculation.Valid()
    requires speculation.behaviour == outside.behaviours(attempt) && Open(s)
    modifies speculation`entries, speculation`consumed, speculation`discarded, speculation`unsettled
    modifies speculation.registry`tripped, speculation.registry`speculations, speculation.registry`controllers,
      speculation.registry`nextToken, speculation.registry`history
    ensures speculation.registry.Valid()
    ensures !cfg.stream.throwing ==> ok
    ensures ok ==> ClosedBetween(speculation.opening, speculation.registry.speculations)
    ensures ok ==> CallsAreRun(cfg, outside, k, attempt, message, runs) && EndingIsRight(cfg, outside, k, message, runs, ending)
    ensures ok ==> Taken(s, t, outside, k, message, runs, ending, tracked)
  {
    hide AllRecorded, Accounts.Balanced, ApplyAll, ClosedBetween, AtMostOnce, Ledger.Plus, AbortRegistry.Valid, Tools.DistinctIds, RunEnded,
      Aborts, Open, Closed, Outline, RunIsRight, Adds, Taken, EndingIsRight, CallsAreRun, EndsTurn, ResultsOf, OutlineOfRuns, FinalEvent, Replaced;
    t, ending, runs := s, AnswerFailed, [];
    if message.stop == StopReason.Error || message.stop == StopReason.Aborted {
      speculation.DiscardLeftovers();
      t, ok := EndAll(s, message, cfg, outside, k, attempt, tracked);
      return;
    }
    var results, terminate, hasMore := [], false, false;
    var aborted := cfg.abortable && outside.abortsBefore(k);
    ghost var abortedBefore := aborted;
    AddsNothing(s, tracked);
    if message.calls != [] {
      ghost var run;
      t, ok, results, terminate, aborted, run := RunTools(t, message.calls, aborted, cfg, speculation, attempt, tracked);
      if !ok {
        return;
      }
      runs := [run];
      hasMore := !terminate && !aborted;
    }
    ItsBatch(cfg, outside, k, attempt, message, runs, results);
    AddsOpen(s, t, results, OutlineOfRuns(runs), tracked);
    ghost var ran := t;
    speculation.DiscardLeftovers();
    t, ok := EndTurn(t, message, results, cfg.stream.throwing);
    if !ok {
      return;
    }
    ghost var ended := t;
    t, ok, ending := FinishTurn(t, hasMore, aborted, cfg, outside, k);
    if ok {
      ItsEnding(cfg, outside, k, message, runs, hasMore, aborted, ending);
      ItIsTaken(s, ran, ended, t, outside, k, message, runs, ending, tracked);
    }
  }

  lemma ItsBatch(cfg: Config, outside: Outside, k: nat, attempt: nat, message: Message, runs: seq<ToolRun>, results: seq<Message>)
    requires IsLive(message)
    requires if message.calls == [] then runs == [] && results == []
      else |runs| == 1 && runs[0].attempt == attempt && runs[0].batch.calls == message.calls && runs[0].results == results
           && RunIsRight(cfg, outside.behaviours(attempt), runs[0]) && StartsAborted(cfg, outside, k, runs[0])
    ensures CallsAreRun(cfg, outside, k, attempt, message, runs) && ResultsOf(runs) == results
    ensures OutlineOfRuns(runs) == if runs == [] then [] else Outline(runs[0].batch.trace)
  {
    hide RunIsRight, Outline;
  }

  /** The end of the turn and of the run after an answer that failed. */
  method EndAll(s: RunState, message: Message, cfg: Config, ghost outside: Outside, ghost k: nat, ghost attempt: nat, ghost tracked: bool)
    returns (t: RunState, ok: bool)
    requires Open(s) && message.Assistant? && (message.stop == StopReason.Error || message.stop == StopReason.Aborted)
    ensures !cfg.stream.throwing ==> ok
    ensures ok ==> CallsAreRun(cfg, outside, k, attempt, message, []) && EndingIsRight(cfg, outside, k, message, [], AnswerFailed)
    ensures ok ==> Taken(s, t, outside, k, message, [], AnswerFailed, tracked)
  {
    hide RunEnded, Open, Closed, Outline;
    t, ok := EndTurn(s, message, [], cfg.stream.throwing);
    if ok {
      t, ok := EndRun(t, cfg.stream.throwing);
    }
    assert [] + [TurnEnd(message, [])] == [TurnEnd(message, [])] && s.newMessages + [] == s.newMessages;
  }

  lemma ItsEnding(cfg: Config, outside: Outside, k: nat, message: Message, runs: seq<ToolRun>, hasMore: bool, aborted: bool, ending: Ending)
    requires IsLive(message) && |runs| <= 1 && (cfg.abortable && outside.abortsBefore(k) ==> aborted)
    requires aborted == if runs == [] then cfg.abortable && outside.abortsBefore(k) else runs[0].batch.aborted
    requires hasMore <==> runs != [] && !runs[0].terminate && !aborted
    requires EndsTurn(cfg, outside, k, hasMore, aborted, ending)
    ensures EndingIsRight(cfg, outside, k, message, runs, ending)
  {
  }

  lemma ItIsTaken(s: RunState, ran: RunState, ended: RunState, t: RunState, outside: Outside, k: nat, answer: Message, runs: seq<ToolRun>,
      ending: Ending, tracked: bool)
    requires ran.newMessages == s.newMessages + ResultsOf(runs) && Outline(ran.trace) == Outline(s.trace) + OutlineOfRuns(runs)
    requires tracked ==> ran.context == s.context + ResultsOf(runs)
    requires ended == ran.(trace := ended.trace) && Outline(ended.trace) == Outline(ran.trace) + [TurnEnd(answer, ResultsOf(runs))]
    requires t.newMessages == ended.newMessages && Outline(t.trace) == Outline(ended.trace) + FinalEvent(ending, ended.newMessages)
    requires if ending.WentOn? then Closed(t) && t.context == Replaced(outside, k, ended.context) else RunEnded(t)
    ensures Taken(s, t, outside, k, answer, runs, ending, tracked)
  {
    hide Outline, OutlineOfRuns, ResultsOf, Closed, RunEnded;
  }

  /** Whether the run ends with the turn: it was aborted, or the hook says so. Otherwise what waits is steering. */
  ghost predicate EndsTurn(cfg: Config, outside: Outside, k: nat, hasMore: bool, aborted: bool, ending: Ending) {
    match ending
    case AnswerFailed => false
    case RunAborted => aborted || (cfg.abortable && outside.abortsAfter(k))
    case HookStopped => !aborted && !(cfg.abortable && outside.abortsAfter(k)) && outside.stops(k)
    case WentOn(more, steering) =>
      && more == hasMore && !aborted && !(cfg.abortable && outside.abortsAfter(k)) && !outside.stops(k)
      && steering == outside.steering(k + 1)
  }

  /** After the end of a turn: stop on an abort or on request, maybe replace the context, and
      drain the steering queue. */
  method FinishTurn(s: RunState, hasMore: bool, aborted: bool, cfg: Config, outside: Outside, k: nat)
    returns (t: RunState, ok: bool, ending: Ending)
    requires Closed(s)
    ensures !cfg.stream.throwing ==> ok
    ensures ok ==> EndsTurn(cfg, outside, k, hasMore, aborted, ending)
    ensures ok ==> t.newMessages == s.newMessages && Outline(t.trace) == Outline(s.trace) + FinalEvent(ending, s.newMessages)
    ensures ok ==> if ending.WentOn? then Closed(t) && t.context == Replaced(outside, k, s.context) else RunEnded(t)
  {
    hide RunEnded, Outline, PhaseAfter, Transcript, InOrder;
    t, ok := s, true;
    assert Outline(s.trace) + [] == Outline(s.trace);
    if aborted || (cfg.abortable && outside.abortsAfter(k)) {
      t, ok := EndRun(t, cfg.stream.throwing);
      ending := RunAborted;
      return;
    }
    match outside.contexts(k) {
      case None =>
      case Some(context) => t := t.(context := context);
    }
    var hookThrows: bool := *;
    if hookThrows && cfg.stream.throwing {
      ending, ok := HookStopped, false;
      return;
    }
    if outside.stops(k) {
      t, ok := EndRun(t, cfg.stream.throwing);
      ending := HookStopped;
      return;
    }
    ending := WentOn(hasMore, outside.steering(k + 1));
  }

  /** What a turn has added from its start, and how it left the run. */
  ghost predicate TurnAdds(s: RunState, t: RunState, outside: Outside, k: nat, turn: Turn, tracked: bool) {
    && t.newMessages == s.newMessages + Messages(turn)
    && Outline(t.trace) == Outline(s.trace) + Body(turn) + FinalEvent(turn.ending, t.newMessages)
    && (tracked ==> turn.request == s.context + turn.injected + turn.reminders)
    && (if turn.ending.WentOn? then Closed(t) && (tracked ==> t.context == Replaced(outside, k, s.context + Messages(turn))) else RunEnded(t))
  }

  /** One turn after its start: queued messages, the guarded stream, tools, and what follows. */
  method RunTurn(
    s: RunState, pending: Queued, cfg: Config, registry: AbortRegistry, outside: Outside, k: nat, first: nat, ghost tracked: bool)
    returns (t: RunState, ok: bool, ending: Ending, attempts: nat, ghost turn: Turn)
    requires registry.Valid() && Open(s) && (tracked ==> AnnouncesOnce(outside))
    modifies registry
    ensures registry.Valid()
    ensures !cfg.stream.throwing ==> ok
    ensures ok ==> registry.attempts == old(registry.attempts) + attempts && attempts == |turn.reminders| + 1
    ensures ok ==> ClosedBetween(old(registry.speculations), registry.speculations)
    ensures ok ==> turn.ending == ending && turn.injected == pending + outside.passive(k)
    ensures ok ==> AnswerIsRight(cfg, outside, first, turn.reminders, turn.answer)
    ensures ok ==> CallsAreRun(cfg, outside, k, first + |turn.reminders|, turn.answer, turn.runs)
    ensures ok ==> EndingIsRight(cfg, outside, k, turn.answer, turn.runs, ending)
    ensures ok ==> TurnAdds(s, t, outside, k, turn, tracked)
  {
    hide AllRecorded, Accounts.Balanced, ApplyAll, ClosedBetween, AtMostOnce, Ledger.Plus, Tools.DistinctIds, RunEnded, AbortRegistry.Valid,
      SpeculationController.Valid, Open, Closed, Outline, Adds, Taken, EndingIsRight, CallsAreRun, AnswerIsRight, TurnAdds, IsAnswer, AnnouncesOnce, EndsOf;
    ending, attempts, turn := AnswerFailed, 0, Turn([], [], [], ErrorTurn(""), [], AnswerFailed);
    var injected := pending + outside.passive(k);
    t, ok := InjectMessages(s, injected, cfg.stream.throwing, tracked);
    if !ok {
      return;
    }
    ghost var begun := t;
    AddsContext(s, t, injected, EndsOf(injected), tracked);
    var message, speculation;
    ghost var reminders, request;
    t, ok, message, speculation, attempts, reminders, request := StreamTurn(t, cfg, registry, outside, first, tracked);
    if !ok {
      return;
    }
    ghost var answered := t;
    t := Pushed(t, message);
    ghost var pushed := t;
    AnswerPushed(s, begun, answered, injected, reminders, message, tracked);
    ghost var runs;
    ghost var kept := tracked && message.stop != StopReason.Error;
    ghost var last := first + |reminders|;
    t, ok, ending, runs := TakeAnswer(t, message, cfg, outside, k, speculation, last, kept);
    if !ok {
      return;
    }
    StillClosed(registry, old(registry.speculations), speculation.opening);
    turn := Turn(injected, reminders, request, message, runs, ending);
    TurnIsAdded(s, pushed, t, cfg, outside, k, turn, tracked);
  }

  lemma AnswerPushed(s: RunState, begun: RunState, answered: RunState, injected: seq<Message>, reminders: seq<Message>, m: Message, tracked: bool)
    requires Adds(s, begun, injected, EndsOf(injected), tracked) && IsAnswer(begun, answered, reminders, m, tracked)
    ensures var ms := injected + reminders + [m];
      Adds(s, Pushed(answered, m), ms, EndsOf(ms), tracked && m.stop != StopReason.Error) && Open(Pushed(answered, m))
    ensures m.Assistant? && Tools.DistinctIds(m.calls)
  {
    hide Open, EndsOf, Outline, Tools.DistinctIds;
    assert injected + (reminders + [m]) == injected + reminders + [m];
    AddsOn(s, begun, Pushed(answered, m), injected, reminders + [m], tracked, tracked && m.stop != StopReason.Error);
  }

  lemma TurnIsAdded(s: RunState, pushed: RunState, t: RunState, cfg: Config, outside: Outside, k: nat, turn: Turn, tracked: bool)
    requires var ms := turn.injected + turn.reminders + [turn.answer];
      Adds(s, pushed, ms, EndsOf(ms), tracked && turn.answer.Assistant? && turn.answer.stop != StopReason.Error)
    requires EndingIsRight(cfg, outside, k, turn.answer, turn.runs, turn.ending)
    requires Taken(pushed, t, outside, k, turn.answer, turn.runs, turn.ending, tracked && turn.answer.Assistant? && turn.answer.stop != StopReason.Error)
    requires tracked ==> turn.request == s.context + turn.injected + turn.reminders
    ensures TurnAdds(s, t, outside, k, turn, tracked)
  {
    hide Open, Closed, RunEnded, EndsOf, Outline, OutlineOfRuns, ResultsOf;
    var ms, results := turn.injected + turn.reminders + [turn.answer], ResultsOf(turn.runs);
    assert s.newMessages + ms + results == s.newMessages + (ms + results) && s.context + ms + results == s.context + (ms + results);
    var after := OutlineOfRuns(turn.runs) + [TurnEnd(turn.answer, results)];
    var last := FinalEvent(turn.ending, t.newMessages);
    assert Outline(s.trace) + EndsOf(ms) + (after + last) == Outline(s.trace) + (EndsOf(ms) + after) + last;
    assert EndsOf(ms) + after == Body(turn);
    hide Replaced;
  }

  // ---------------------------------------------------------------------------
  // The run

  /** Attempts a turn can take: the first, and one more per retry of either guard. */
  function PerTurn(cfg: Config): nat {
    1 + MAX_TTSR_RETRIES_PER_TURN + Cap(cfg.overthinkMaxRetries)
  }

  const BUDGET_NOTICE := ErrorTurn("[stop: turn-budget]")

  /** A run before its first turn: announced, with its prompts. */
  ghost predicate Announced(s: RunState) {
    Open(s) && Outline(s.trace) == [AgentStart, TurnStart] + EndsOf(s.newMessages)
  }

  /** What holds between turns. */
  ghost predicate SoFar(s: RunState, t: RunState, cfg: Config, outside: Outside, turns: seq<Turn>) {
    && TurnsAreRight(cfg, outside, s.context, turns) && |turns| <= Cap(cfg.maxTurns)
    && (turns == [] || turns[|turns| - 1].ending.WentOn?)
    && (if turns == [] then Open(t) else Closed(t))
    && t.newMessages == s.newMessages + AllMessages(turns) && Outline(t.trace) == Outlined(s.newMessages, turns)
    && (AnnouncesOnce(outside) ==> t.context == Conversation(s.context, outside, turns))
  }

  /** The turns are spent while one more is due. */
  predicate Spent(cfg: Config, outside: Outside, turns: seq<Turn>) {
    |turns| >= cfg.maxTurns && Due(outside, turns)
  }

  function NoticeIf(spent: bool): seq<Message> {
    if spent then [BUDGET_NOTICE] else []
  }

  function NoticeTurnIf(spent: bool): seq<Event> {
    if spent then [TurnStart, MessageEnd(BUDGET_NOTICE), TurnEnd(BUDGET_NOTICE, [])] else []
  }

  /** The run is over. It ended because its last turn failed, the run was aborted, the hook said so, or
      nothing was left to do; or because the turns were spent, and then with a notice. */
  ghost predicate Finished(start: seq<Message>, prompts: seq<Message>, t: RunState, cfg: Config, outside: Outside, turns: seq<Turn>) {
    var spent := Spent(cfg, outside, turns);
    && TurnsAreRight(cfg, outside, start, turns) && |turns| <= Cap(cfg.maxTurns)
    && (spent || !Due(outside, turns))
    && t.newMessages == prompts + AllMessages(turns) + NoticeIf(spent)
    && Outline(t.trace) == Outlined(prompts, turns) + NoticeTurnIf(spent) + [AgentEnd(t.newMessages)]
    && Faithful(t) && EndsWith(t.trace, t.newMessages)
    && PhaseAfter(t.trace) == (if cfg.maxTurns >= 1 then Over else Broken)
  }

  /** The budget is spent: a turn of one message, then the end. */
  method EmitBudgetNotice(s: RunState, throwing: bool) returns (t: RunState, ok: bool)
    requires Open(s) || Closed(s)
    ensures !throwing ==> ok
    ensures ok ==> Faithful(t) && t.newMessages == s.newMessages + [BUDGET_NOTICE] && EndsWith(t.trace, t.newMessages)
    ensures ok ==> Outline(t.trace) == Outline(s.trace) + NoticeTurnIf(true) + [AgentEnd(t.newMessages)]
    ensures ok ==> PhaseAfter(t.trace) == if PhaseAfter(s.trace) == BetweenTurns then Over else Broken
  {
    hide PhaseAfter, InOrder, Transcript, OnTime, Notices, NoticeOf, Outline;
    t := s.(newMessages := s.newMessages + [BUDGET_NOTICE]);
    t, ok := Emit(t, TurnStart, throwing);
    if !ok {
      return;
    }
    t, ok := EmitMessage(t, BUDGET_NOTICE, throwing);
    if !ok {
      return;
    }
    t, ok := Emit(t, TurnEnd(BUDGET_NOTICE, []), throwing);
    if !ok {
      return;
    }
    t, ok := Emit(t, AgentEnd(t.newMessages), throwing);
  }

  /** The next turn starts, unless the caller already announced it as the first one. */
  method BeginTurn(s: RunState, first: bool, throwing: bool) returns (t: RunState, ok: bool)
    requires if first then Open(s) else Closed(s)
    ensures !throwing ==> ok
    ensures ok ==> Open(t) && t == s.(trace := t.trace)
    ensures ok ==> Outline(t.trace) == if first then Outline(s.trace) else Outline(s.trace) + [TurnStart]
  {
    hide PhaseAfter, InOrder, Transcript, Outline, OnTime;
    t, ok := s, true;
    if !first {
      t, ok := Emit(s, TurnStart, throwing);
    }
  }

  /** How the run stands after one more turn. */
  ghost predicate AfterTurn(s: RunState, t: RunState, cfg: Config, outside: Outside, turns: seq<Turn>, ending: Ending) {
    && turns != [] && turns[|turns| - 1].ending == ending
    && if ending.WentOn? then SoFar(s, t, cfg, outside, turns) else Finished(s.context, s.newMessages, t, cfg, outside, turns)
  }

  /** The next turn from its start, added to the turns so far. */
  method NextTurn(
    ghost s: RunState, t0: RunState, turnCount: nat, pending: Queued, cfg: Config, registry: AbortRegistry,
    outside: Outside, attempts0: nat, ghost turns0: seq<Turn>)
    returns (t: RunState, ok: bool, ending: Ending, attempts: nat, ghost turns: seq<Turn>)
    requires registry.Valid() && turnCount == |turns0| < cfg.maxTurns && attempts0 == Attempts(turns0)
    requires SoFar(s, t0, cfg, outside, turns0) && Due(outside, turns0) && pending == Waiting(outside, turns0)
    modifies registry
    ensures registry.Valid()
    ensures !cfg.stream.throwing ==> ok
    ensures ok ==> registry.attempts - old(registry.attempts) == attempts - attempts0 && attempts == Attempts(turns)
    ensures ok ==> ClosedBetween(old(registry.speculations), registry.speculations)
    ensures ok ==> |turns| == turnCount + 1 && AfterTurn(s, t, cfg, outside, turns, ending)
  {
    hide AnswerIsRight, CallsAreRun, EndingIsRight, TurnAdds, ClosedBetween, AtMostOnce, ApplyAll, Due, Waiting, Open, Closed, SoFar, AfterTurn,
      Outline, AnnouncesOnce;
    ending, attempts, turns := AnswerFailed, attempts0, turns0;
    AtHead(s, t0, cfg, outside, turns0);
    t, ok := BeginTurn(t0, turnCount == 0, cfg.stream.throwing);
    if !ok {
      return;
    }
    ghost var begun := t;
    ghost var turn;
    var attemptsNow;
    t, ok, ending, attemptsNow, turn :=
      RunTurn(t, pending, cfg, registry, outside, turnCount, attempts, AnnouncesOnce(outside));
    if !ok {
      return;
    }
    attempts := attempts + attemptsNow;
    turns := turns + [turn];
    TurnTaken(s, t0, begun, t, cfg, outside, turns0, turn);
    OneMoreTurn(cfg, outside, s.context, s.newMessages, turns0, turn);
  }

  lemma AtHead(s: RunState, t: RunState, cfg: Config, outside: Outside, turns: seq<Turn>)
    requires SoFar(s, t, cfg, outside, turns)
    ensures if turns == [] then Open(t) else Closed(t)
  {
    hide Open, Closed;
  }

  lemma TurnTaken(s: RunState, t0: RunState, begun: RunState, t: RunState, cfg: Config, outside: Outside, before: seq<Turn>, turn: Turn)
    requires SoFar(s, t0, cfg, outside, before) && Due(outside, before) && |before| < cfg.maxTurns
    requires begun == t0.(trace := begun.trace)
    requires Outline(begun.trace) == if before == [] then Outline(t0.trace) else Outline(t0.trace) + [TurnStart]
    requires turn.injected == Waiting(outside, before) + outside.passive(|before|)
    requires AnswerIsRight(cfg, outside, Attempts(before), turn.reminders, turn.answer)
    requires CallsAreRun(cfg, outside, |before|, Attempts(before) + |turn.reminders|, turn.answer, turn.runs)
    requires EndingIsRight(cfg, outside, |before|, turn.answer, turn.runs, turn.ending)
    requires TurnAdds(begun, t, outside, |before|, turn, AnnouncesOnce(outside))
    ensures TurnsAreRight(cfg, outside, s.context, before) && TurnIsRight(cfg, outside, s.context, before, turn)
    ensures AfterTurn(s, t, cfg, outside, before + [turn], turn.ending)
  {
    hide AnswerIsRight, CallsAreRun, EndingIsRight, Waiting, Open, Closed, Outline, AnnouncesOnce, Due, Conversation, Replaced, Messages, Body,
      Outlined, Attempts, AllMessages, RunEnded, FinalEvent, TurnsAreRight, AfterTurn;
    assert TurnIsRight(cfg, outside, s.context, before, turn);
    OneMoreTurn(cfg, outside, s.context, s.newMessages, before, turn);
    hide TurnIsRight;
    assert s.newMessages + AllMessages(before) + Messages(turn) == s.newMessages + (AllMessages(before) + Messages(turn));
    TurnLeaves(s, t, cfg, outside, before + [turn]);
  }

  lemma TurnLeaves(s: RunState, t: RunState, cfg: Config, outside: Outside, turns: seq<Turn>)
    requires turns != [] && TurnsAreRight(cfg, outside, s.context, turns) && |turns| <= cfg.maxTurns
    requires t.newMessages == s.newMessages + AllMessages(turns)
    requires Outline(t.trace) == Outlined(s.newMessages, turns) + FinalEvent(turns[|turns| - 1].ending, t.newMessages)
    requires if turns[|turns| - 1].ending.WentOn?
      then Closed(t) && (AnnouncesOnce(outside) ==> t.context == Conversation(s.context, outside, turns)) else RunEnded(t)
    ensures AfterTurn(s, t, cfg, outside, turns, turns[|turns| - 1].ending)
  {
    hide Open, Closed, Outline, AnnouncesOnce, Due, Conversation, Outlined, AllMessages, EndsWith, TurnsAreRight, PhaseAfter, Faithful;
    assert Outlined(s.newMessages, turns) + [] == Outlined(s.newMessages, turns);
    if !turns[|turns| - 1].ending.WentOn? {
      NoMoreDue(outside, turns);
      assert t.newMessages + [] == t.newMessages;
    }
  }

  lemma NoMoreDue(outside: Outside, turns: seq<Turn>)
    requires turns != [] && !turns[|turns| - 1].ending.WentOn?
    ensures !Due(outside, turns)
  {
  }

  /** What the inner loop has before it: what the last turn left, or messages that waited for the end. */
  predicate Poised(outside: Outside, turns: seq<Turn>, hasMore: bool, pending: Queued) {
    if turns == [] then hasMore && pending == outside.steering(0)
    else
      var last, k := turns[|turns| - 1].ending, |turns| - 1;
      && last.WentOn?
      && if last.hasMore || last.steering != [] then last == WentOn(hasMore, pending)
         else pending == (if hasMore then outside.followUps(k) else []) && (hasMore ==> pending != [])
  }

  /** The loops: the inner one over turns, the outer one over follow-up messages. The first
      turn was announced by the caller. */
  method RunLoop(s: RunState, cfg: Config, registry: AbortRegistry, outside: Outside)
    returns (t: RunState, completed: bool, attempts: nat, ghost turns: seq<Turn>)
    requires registry.Valid() && Announced(s)
    modifies registry
    ensures !cfg.stream.throwing ==> completed
    ensures completed ==> Finished(s.context, s.newMessages, t, cfg, outside, turns) && attempts == Attempts(turns)
    ensures completed ==> registry.attempts == old(registry.attempts) + attempts
    ensures completed ==> ClosedBetween(old(registry.speculations), registry.speculations)
  {
    hide ClosedBetween, AtMostOnce, ApplyAll, SoFar, Finished;
    t, completed, attempts, turns := s, false, 0, [];
    NothingRunYet(s, cfg, outside);
    ClosedNow(registry.speculations);
    var turnCount: nat := 0;
    var pending: Queued := outside.steering(0);
    while true
      invariant registry.Valid() && registry.attempts == old(registry.attempts) + attempts && attempts == Attempts(turns)
      invariant ClosedBetween(old(registry.speculations), registry.speculations)
      invariant turnCount == |turns|
      invariant SoFar(s, t, cfg, outside, turns) && Poised(outside, turns, true, pending)
      decreases cfg.maxTurns - turnCount
    {
      ghost var turnsBefore := turnCount;
      var hasMoreToolCalls := true;
      while hasMoreToolCalls || |pending| > 0
        invariant registry.Valid() && registry.attempts == old(registry.attempts) + attempts && attempts == Attempts(turns)
        invariant ClosedBetween(old(registry.speculations), registry.speculations)
        invariant turnCount == |turns|
        invariant SoFar(s, t, cfg, outside, turns) && Poised(outside, turns, hasMoreToolCalls, pending)
        invariant turnCount == turnsBefore ==> hasMoreToolCalls
        invariant turnsBefore <= turnCount && (turnsBefore < turnCount ==> turnCount <= cfg.maxTurns)
        decreases cfg.maxTurns - turnCount
      {
        TurnIsDue(outside, turns, hasMoreToolCalls, pending);
        if turnCount >= cfg.maxTurns {
          t, completed := SpendBudget(s, t, cfg, outside, turns);
          return;
        }
        ghost var speculations := registry.speculations;
        var ok, ending;
        t, ok, ending, attempts, turns := NextTurn(s, t, turnCount, pending, cfg, registry, outside, attempts, turns);
        if !ok {
          return;
        }
        turnCount := turnCount + 1;
        ClosedOn(old(registry.speculations), speculations, registry.speculations);
        if !ending.WentOn? {
          completed := true;
          return;
        }
        hasMoreToolCalls, pending := ending.hasMore, ending.steering;
      }
      var followUp := outside.followUps(turnCount - 1);
      if |followUp| > 0 {
        pending := followUp;
        continue;
      }
      break;
    }
    t, completed := Conclude(s, t, cfg, outside, turns);
  }

  lemma NothingRunYet(s: RunState, cfg: Config, outside: Outside)
    requires Announced(s)
    ensures SoFar(s, s, cfg, outside, [])
  {
    hide Open, Outline, AnnouncesOnce;
    assert s.newMessages + [] == s.newMessages;
  }

  lemma TurnIsDue(outside: Outside, turns: seq<Turn>, hasMore: bool, pending: Queued)
    requires Poised(outside, turns, hasMore, pending) && (hasMore || pending != [])
    ensures Due(outside, turns) && pending == Waiting(outside, turns)
  {
  }

  /** No turn is left: the notice, and the run is over. */
  method SpendBudget(ghost s: RunState, t0: RunState, cfg: Config, ghost outside: Outside, ghost turns: seq<Turn>) returns (t: RunState, ok: bool)
    requires SoFar(s, t0, cfg, outside, turns) && Spent(cfg, outside, turns)
    ensures !cfg.stream.throwing ==> ok
    ensures ok ==> Finished(s.context, s.newMessages, t, cfg, outside, turns)
  {
    hide PhaseAfter, InOrder, Transcript, Outline, EndsWith, TurnsAreRight, Due, AllMessages, Outlined, AnnouncesOnce, NoticeTurnIf;
    t, ok := EmitBudgetNotice(t0, cfg.stream.throwing);
  }

  /** Nothing is left to do: the run is over. */
  method Conclude(ghost s: RunState, t0: RunState, cfg: Config, ghost outside: Outside, ghost turns: seq<Turn>) returns (t: RunState, ok: bool)
    requires SoFar(s, t0, cfg, outside, turns) && !Due(outside, turns)
    ensures !cfg.stream.throwing ==> ok
    ensures ok ==> Finished(s.context, s.newMessages, t, cfg, outside, turns)
  {
    hide PhaseAfter, InOrder, Transcript, Outline, EndsWith, TurnsAreRight, AllMessages, Outlined, AnnouncesOnce, Waiting;
    t, ok := EndRun(t0, cfg.stream.throwing);
    assert t0.newMessages + [] == t0.newMessages && Outline(t0.trace) + [] == Outline(t0.trace);
  }

  // ---------------------------------------------------------------------------
  // What every finished run keeps

  /** The tool events of all batches, in order. */
  function AllEvents(runs: seq<ToolRun>): seq<Event> {
    if runs == [] then [] else AllEvents(runs[..|runs| - 1]) + ToolEvents(runs[|runs| - 1].batch.trace)
  }

  lemma {:induction false} AllEventsAppend(a: seq<ToolRun>, b: seq<ToolRun>)
    ensures AllEvents(a + b) == AllEvents(a) + AllEvents(b)
    decreases |b|
  {
    if b == [] {
      assert a + b == a;
    } else {
      assert (a + b)[..|a + b| - 1] == a + b[..|b| - 1];
      AllEventsAppend(a, b[..|b| - 1]);
    }
  }

  /** How many turns a trace starts. */
  function TurnStarts(trace: seq<Event>): nat {
    if trace == [] then 0 else TurnStarts(trace[..|trace| - 1]) + if trace[|trace| - 1].TurnStart? then 1 else 0
  }

  lemma TurnStartsOne(trace: seq<Event>, e: Event)
    ensures TurnStarts(trace + [e]) == TurnStarts(trace) + if e.TurnStart? then 1 else 0
  {
    assert (trace + [e])[..|trace|] == trace;
  }

  lemma {:induction false} TurnStartsOutlined(trace: seq<Event>)
    ensures TurnStarts(Outline(trace)) == TurnStarts(trace)
  {
    if trace != [] {
      var before, last := trace[..|trace| - 1], trace[|trace| - 1];
      TurnStartsOutlined(before);
      if IsOutlined(last) {
        TurnStartsOne(Outline(before), last);
      }
    }
  }

  /** Tool events and turn starts, as they go together. */
  ghost predicate Does(trace: seq<Event>, tools: seq<Event>, starts: nat) {
    ToolEvents(trace) == tools && TurnStarts(trace) == starts
  }

  lemma DoesNothing(trace: seq<Event>)
    requires forall i | 0 <= i < |trace| :: !IsToolEvent(trace[i]) && !trace[i].TurnStart?
    ensures Does(trace, [], 0)
  {
    if trace != [] {
      DoesNothing(trace[..|trace| - 1]);
    }
  }

  lemma {:induction false} TurnStartsAppend(a: seq<Event>, b: seq<Event>)
    ensures TurnStarts(a + b) == TurnStarts(a) + TurnStarts(b)
    decreases |b|
  {
    if b == [] {
      assert a + b == a;
    } else {
      assert (a + b)[..|a + b| - 1] == a + b[..|b| - 1];
      TurnStartsAppend(a, b[..|b| - 1]);
    }
  }

  lemma DoesBoth(a: seq<Event>, b: seq<Event>)
    ensures Does(a + b, ToolEvents(a) + ToolEvents(b), TurnStarts(a) + TurnStarts(b))
  {
    ToolEventsAppend(a, b);
    TurnStartsAppend(a, b);
  }

  lemma {:induction false} NoTurnStarts(trace: seq<Event>)
    requires WithinTurn(trace)
    ensures TurnStarts(trace) == 0
  {
    if trace != [] {
      NoTurnStarts(trace[..|trace| - 1]);
    }
  }

  lemma OneStart()
    ensures Does([TurnStart], [], 1) && Does([AgentStart, TurnStart], [], 1)
  {
    assert [TurnStart] == [] + [TurnStart] && [AgentStart, TurnStart] == [AgentStart] + [TurnStart];
    TurnStartsOne([], TurnStart);
    TurnStartsOne([AgentStart], TurnStart);
    DoesNothing([AgentStart]);
    AppendOne([], TurnStart);
    AppendOne([AgentStart], TurnStart);
  }

  ghost predicate BatchesWithin(runs: seq<ToolRun>) {
    |runs| <= 1 && forall k | 0 <= k < |runs| :: WithinTurn(runs[k].batch.trace)
  }

  lemma BodyDoes(turn: Turn)
    requires BatchesWithin(turn.runs)
    ensures Does(Body(turn), AllEvents(turn.runs), 0)
  {
    var ends, runs := EndsOf(turn.injected + turn.reminders + [turn.answer]), OutlineOfRuns(turn.runs);
    var last := [TurnEnd(turn.answer, ResultsOf(turn.runs))];
    hide EndsOf, ResultsOf, ToolEvents, TurnStarts, Outline, AllEvents;
    EndsDoNothing(turn.injected + turn.reminders + [turn.answer]);
    DoesNothing(last);
    RunsDo(turn.runs);
    DoesBoth(ends, runs);
    DoesBoth(ends + runs, last);
    assert [] + AllEvents(turn.runs) + [] == AllEvents(turn.runs);
  }

  lemma EndsDoNothing(ms: seq<Message>)
    ensures Does(EndsOf(ms), [], 0)
  {
    DoesNothing(EndsOf(ms));
  }

  lemma RunsDo(runs: seq<ToolRun>)
    requires BatchesWithin(runs)
    ensures Does(OutlineOfRuns(runs), AllEvents(runs), 0)
  {
    if runs != [] {
      var trace := runs[0].batch.trace;
      OutlineSuffices(trace);
      TurnStartsOutlined(trace);
      NoTurnStarts(trace);
      hide ToolEvents, TurnStarts, Outline;
      assert runs[..0] == [] && [] + ToolEvents(trace) == ToolEvents(trace);
    }
  }

  ghost predicate AllWithin(turns: seq<Turn>) {
    forall k | 0 <= k < |turns| :: BatchesWithin(turns[k].runs)
  }

  /** The tool events of the turns are those of their batches, and each turn starts once; the first is
      announced even if there is none. */
  lemma {:induction false} OutlinedDoes(prompts: seq<Message>, turns: seq<Turn>)
    requires AllWithin(turns)
    ensures Does(Outlined(prompts, turns), AllEvents(RunsOf(turns)), if turns == [] then 1 else |turns|)
  {
    hide ToolEvents, TurnStarts, Body, EndsOf, BatchesWithin;
    OneStart();
    if turns == [] {
      EndsDoNothing(prompts);
      DoesBoth([AgentStart, TurnStart], EndsOf(prompts));
    } else {
      var n := |turns| - 1;
      var before, last := turns[..n], turns[n];
      OutlinedDoes(prompts, before);
      BodyDoes(last);
      AllEventsAppend(RunsOf(before), last.runs);
      hide AllEvents, Outlined;
      OutlinedOne(prompts, turns);
      DoesBoth(Outlined(prompts, before), Body(last));
      DoesBoth(Outlined(prompts, before), [TurnStart]);
      DoesBoth(Outlined(prompts, before) + [TurnStart], Body(last));
      assert AllEvents(RunsOf(before)) + [] == AllEvents(RunsOf(before));
    }
  }

  lemma OutlinedOne(prompts: seq<Message>, turns: seq<Turn>)
    requires turns != []
    ensures var n := |turns| - 1;
      Outlined(prompts, turns) == (if n == 0 then Outlined(prompts, turns[..n]) else Outlined(prompts, turns[..n]) + [TurnStart]) + Body(turns[n])
  {
    hide Body;
  }

  // ---------------------------------------------------------------------------
  // Every batch of a run

  ghost predicate NoneAborted(runs: seq<ToolRun>) {
    forall k | 0 <= k < |runs| :: !runs[k].batch.aborted
  }

  /** Only during the last batch may the run have been aborted, and only if it can be. */
  ghost predicate OnlyLastAborted(runs: seq<ToolRun>, abortable: bool) {
    forall k | 0 <= k < |runs| && runs[k].batch.aborted :: k == |runs| - 1 && abortable
  }

  ghost predicate RunsAreRight(cfg: Config, outside: Outside, runs: seq<ToolRun>, upto: nat) {
    forall k | 0 <= k < |runs| :: runs[k].attempt < upto && RunIsRight(cfg, outside.behaviours(runs[k].attempt), runs[k])
  }

  lemma {:induction false} EachRunIsRight(cfg: Config, outside: Outside, start: seq<Message>, turns: seq<Turn>)
    requires TurnsAreRight(cfg, outside, start, turns)
    ensures RunsAreRight(cfg, outside, RunsOf(turns), Attempts(turns)) && OnlyLastAborted(RunsOf(turns), cfg.abortable)
    ensures Due(outside, turns) ==> NoneAborted(RunsOf(turns))
    ensures AllWithin(turns)
  {
    if turns != [] {
      var n := |turns| - 1;
      LastTurn(cfg, outside, start, turns);
      hide TurnIsRight, TurnsAreRight, RunIsRight, Waiting, BatchesWithin, RunsAreRight, NoneAborted, OnlyLastAborted, RunsOf, Attempts;
      EachRunIsRight(cfg, outside, start, turns[..n]);
      RunsOfTurn(cfg, outside, start, turns[..n], turns[n]);
      MoreRuns(cfg, outside, RunsOf(turns[..n]), turns[n].runs, Attempts(turns[..n]), Attempts(turns));
    }
  }

  lemma MoreRuns(cfg: Config, outside: Outside, runs: seq<ToolRun>, more: seq<ToolRun>, middle: nat, upto: nat)
    requires RunsAreRight(cfg, outside, runs, middle) && NoneAborted(runs) && middle <= upto && |more| <= 1
    requires forall k | 0 <= k < |more| ::
      more[k].attempt < upto && RunIsRight(cfg, outside.behaviours(more[k].attempt), more[k]) && (more[k].batch.aborted ==> cfg.abortable)
    ensures RunsAreRight(cfg, outside, runs + more, upto) && OnlyLastAborted(runs + more, cfg.abortable)
    ensures NoneAborted(more) ==> NoneAborted(runs + more)
    ensures (forall k | 0 <= k < |more| :: !more[k].batch.aborted) ==> NoneAborted(more)
  {
    hide RunIsRight;
  }

  lemma RunsOfTurn(cfg: Config, outside: Outside, start: seq<Message>, before: seq<Turn>, turn: Turn)
    requires TurnIsRight(cfg, outside, start, before, turn)
    ensures Due(outside, before) && |turn.runs| <= 1
    ensures forall k | 0 <= k < |turn.runs| ::
      && turn.runs[k].attempt == Attempts(before) + |turn.reminders| && (turn.runs[k].batch.aborted ==> cfg.abortable && !turn.ending.WentOn?)
      && RunIsRight(cfg, outside.behaviours(turn.runs[k].attempt), turn.runs[k])
    ensures BatchesWithin(turn.runs)
  {
    hide AnswerIsRight, Waiting, Due, Conversation, AnnouncesOnce, Transparent, Tools.RanAsRouted, AnswersEachCall, TerminateIsRight;
  }

  /** The attempts of the turns stay within what each may take. */
  lemma AttemptsBounded(cfg: Config, outside: Outside, start: seq<Message>, turns: seq<Turn>)
    requires TurnsAreRight(cfg, outside, start, turns)
    ensures Attempts(turns) <= |turns| * PerTurn(cfg)
  {
    hide PerTurn, TurnIsRight, TurnsAreRight, Attempts;
    forall k | 0 <= k < |turns|
      ensures |turns[k].reminders| + 1 <= PerTurn(cfg)
    {
      EachTurnIsRight(cfg, outside, start, turns, k);
      RemindersBounded(cfg, outside, start, turns[..k], turns[k]);
    }
    AtMostEach(turns, PerTurn(cfg));
  }

  lemma {:induction false} AtMostEach(turns: seq<Turn>, limit: nat)
    requires forall k | 0 <= k < |turns| :: |turns[k].reminders| + 1 <= limit
    ensures Attempts(turns) <= |turns| * limit
  {
    if turns != [] {
      var n := |turns| - 1;
      AtMostEach(turns[..n], limit);
      OneMoreTime(n, limit);
    }
  }

  lemma RemindersBounded(cfg: Config, outside: Outside, start: seq<Message>, before: seq<Turn>, turn: Turn)
    requires TurnIsRight(cfg, outside, start, before, turn)
    ensures |turn.reminders| + 1 <= PerTurn(cfg)
  {
    hide CallsAreRun, EndingIsRight, Waiting, Due, Conversation, AnnouncesOnce, IsStreamed, GaveUp;
  }

  lemma OneMoreTime(n: nat, k: nat)
    ensures (n + 1) * k == n * k + k
  {
  }

  lemma NoMoreTimes(a: nat, b: nat, k: nat)
    requires a <= b
    ensures a * k <= b * k
  {
  }

  // ---------------------------------------------------------------------------
  // Every call of a run is answered

  predicate NoCalls(ms: seq<Message>) {
    forall i | 0 <= i < |ms| :: !HasCalls(ms[i])
  }

  /** An answer that did not fail is directly followed by one result for each of its calls, in their
      order. */
  ghost predicate AnsweredAt(ms: seq<Message>, i: nat)
    requires i < |ms|
  {
    HasCalls(ms[i]) ==>
      var n := i + 1 + |ms[i].calls|;
      n <= |ms| && AnswersEachCall(ms[i].calls, ms[i + 1..n])
  }

  ghost predicate CallsAnswered(ms: seq<Message>) {
    forall i | 0 <= i < |ms| :: AnsweredAt(ms, i)
  }

  lemma AnsweredWithin(a: seq<Message>, ms: seq<Message>, b: seq<Message>, i: nat)
    requires i < |ms| && AnsweredAt(ms, i)
    ensures AnsweredAt(a + ms + b, |a| + i)
  {
    hide AnswersEachCall;
    var all, j := a + ms + b, |a| + i;
    assert all[j] == ms[i];
    if HasCalls(ms[i]) {
      var n := i + 1 + |ms[i].calls|;
      assert all[j + 1..|a| + n] == ms[i + 1..n];
    }
  }

  lemma CallsAnsweredAppend(a: seq<Message>, b: seq<Message>)
    requires CallsAnswered(a) && CallsAnswered(b)
    ensures CallsAnswered(a + b)
  {
    hide AnsweredAt;
    forall i | 0 <= i < |a + b|
      ensures AnsweredAt(a + b, i)
    {
      if i < |a| {
        AnsweredWithin([], a, b, i);
        assert [] + a + b == a + b;
      } else {
        AnsweredWithin(a, b, [], i - |a|);
        assert a + b + [] == a + b;
      }
    }
  }

  /** The calls of the answers that have any, answer by answer. */
  function CallLists(ms: seq<Message>): seq<seq<ToolCall>> {
    if ms == [] then []
    else
      var before, last := CallLists(ms[..|ms| - 1]), ms[|ms| - 1];
      if HasCalls(last) then before + [last.calls] else before
  }

  lemma {:induction false} CallListsAppend(a: seq<Message>, b: seq<Message>)
    ensures CallLists(a + b) == CallLists(a) + CallLists(b)
    decreases |b|
  {
    if b == [] {
      assert a + b == a;
    } else {
      assert (a + b)[..|a + b| - 1] == a + b[..|b| - 1];
      CallListsAppend(a, b[..|b| - 1]);
    }
  }

  lemma {:induction false} NoCallLists(ms: seq<Message>)
    requires NoCalls(ms)
    ensures CallLists(ms) == [] && CallsAnswered(ms)
  {
    if ms != [] {
      NoCallLists(ms[..|ms| - 1]);
    }
  }

  function CallsOf(runs: seq<ToolRun>): (lists: seq<seq<ToolCall>>)
    ensures |lists| == |runs|
  {
    seq(|runs|, k requires 0 <= k < |runs| => runs[k].batch.calls)
  }

  lemma CallsOfAppend(a: seq<ToolRun>, b: seq<ToolRun>)
    ensures CallsOf(a + b) == CallsOf(a) + CallsOf(b)
  {
  }

  ghost predicate InjectsNoCalls(turns: seq<Turn>) {
    forall k | 0 <= k < |turns| :: NoCalls(turns[k].injected)
  }

  /** An answer and its results. */
  lemma AnswerWithResults(answer: Message, results: seq<Message>)
    requires if HasCalls(answer) then AnswersEachCall(answer.calls, results) else results == []
    ensures var ms := [answer] + results;
      CallsAnswered(ms) && CallLists(ms) == if HasCalls(answer) then [answer.calls] else []
  {
    var ms := [answer] + results;
    assert NoCalls(results);
    OneCallList(answer);
    assert ms[1..1 + |results|] == results;
    assert AnsweredAt(ms, 0);
    hide CallLists, AnsweredAt, AnswersEachCall, HasCalls, NoCalls;
    NoCallLists(results);
    CallListsAppend([answer], results);
    assert CallLists([answer]) + [] == CallLists([answer]);
    forall i | 0 <= i < |ms|
      ensures AnsweredAt(ms, i)
    {
      if i > 0 {
        AnsweredWithin([answer], results, [], i - 1);
        assert [answer] + results + [] == ms;
      }
    }
  }

  lemma OneCallList(answer: Message)
    ensures CallLists([answer]) == if HasCalls(answer) then [answer.calls] else []
  {
    assert [answer][..0] == [];
    assert CallLists([answer][..0]) == [];
  }

  lemma ItsCalls(cfg: Config, outside: Outside, start: seq<Message>, before: seq<Turn>, turn: Turn)
    requires TurnIsRight(cfg, outside, start, before, turn)
    ensures if HasCalls(turn.answer) then AnswersEachCall(turn.answer.calls, ResultsOf(turn.runs)) else ResultsOf(turn.runs) == []
    ensures CallsOf(turn.runs) == if HasCalls(turn.answer) then [turn.answer.calls] else []
    ensures NoCalls(turn.reminders)
  {
    hide Waiting, Due, Conversation, AnnouncesOnce, EndingIsRight, IsStreamed, GaveUp, AnswersEachCall, Transparent, Tools.RanAsRouted, TerminateIsRight;
  }

  lemma NoCallsIn(a: seq<Message>, b: seq<Message>)
    requires NoCalls(a) && NoCalls(b)
    ensures NoCalls(a + b)
  {
  }

  lemma CallsOfTurn(cfg: Config, outside: Outside, start: seq<Message>, before: seq<Turn>, turn: Turn)
    requires TurnIsRight(cfg, outside, start, before, turn) && NoCalls(turn.injected)
    ensures CallsAnswered(Messages(turn)) && CallLists(Messages(turn)) == CallsOf(turn.runs)
  {
    var first, rest := turn.injected + turn.reminders, [turn.answer] + ResultsOf(turn.runs);
    hide TurnIsRight, ResultsOf, AnswersEachCall, HasCalls, NoCalls, CallLists, CallsAnswered, CallsOf;
    ItsCalls(cfg, outside, start, before, turn);
    NoCallsIn(turn.injected, turn.reminders);
    AnswerWithResults(turn.answer, ResultsOf(turn.runs));
    NoCallLists(first);
    CallsAnsweredAppend(first, rest);
    CallListsAppend(first, rest);
    assert first + rest == Messages(turn) && [] + CallsOf(turn.runs) == CallsOf(turn.runs);
  }

  lemma {:induction false} CallsOfTurns(cfg: Config, outside: Outside, start: seq<Message>, turns: seq<Turn>)
    requires TurnsAreRight(cfg, outside, start, turns) && InjectsNoCalls(turns)
    ensures CallsAnswered(AllMessages(turns)) && CallLists(AllMessages(turns)) == CallsOf(RunsOf(turns))
  {
    if turns == [] {
      NoCallLists([]);
    } else {
      var n := |turns| - 1;
      LastTurn(cfg, outside, start, turns);
      hide TurnIsRight, TurnsAreRight, CallLists, CallsAnswered, Messages, NoCalls, AllMessages, RunsOf, CallsOf;
      CallsOfTurns(cfg, outside, start, turns[..n]);
      CallsOfTurn(cfg, outside, start, turns[..n], turns[n]);
      CallsAnsweredAppend(AllMessages(turns[..n]), Messages(turns[n]));
      CallListsAppend(AllMessages(turns[..n]), Messages(turns[n]));
      CallsOfAppend(RunsOf(turns[..n]), turns[n].runs);
    }
  }

  /** Over every finished run, unless messages from outside make calls themselves: each answer that did not
      fail is directly followed by the results of its calls, and the batches run are those of the answers
      with calls, in order. */
  lemma EveryCallIsAnswered(start: seq<Message>, prompts: seq<Message>, t: RunState, cfg: Config, outside: Outside, turns: seq<Turn>)
    requires Finished(start, prompts, t, cfg, outside, turns) && NoCalls(prompts) && InjectsNoCalls(turns)
    ensures CallsAnswered(t.newMessages) && CallLists(t.newMessages) == CallsOf(RunsOf(turns))
  {
    var notice := NoticeIf(Spent(cfg, outside, turns));
    hide Outline, Outlined, EndsWith, TurnsAreRight, Spent, Faithful;
    CallsOfTurns(cfg, outside, start, turns);
    assert NoCalls(notice);
    hide CallLists, CallsAnswered, InjectsNoCalls, NoCalls;
    NoCallLists(prompts);
    NoCallLists(notice);
    CallsAnsweredAppend(prompts, AllMessages(turns));
    CallsAnsweredAppend(prompts + AllMessages(turns), notice);
    CallListsAppend(prompts, AllMessages(turns));
    CallListsAppend(prompts + AllMessages(turns), notice);
    assert [] + CallsOf(RunsOf(turns)) + [] == CallsOf(RunsOf(turns));
  }

  /** After calls that neither all asked to end the run nor were aborted, with no stop by the hook and turns
      left, another turn takes place. */
  lemma NextTurnFollows(start: seq<Message>, prompts: seq<Message>, t: RunState, cfg: Config, outside: Outside, turns: seq<Turn>, k: nat)
    requires Finished(start, prompts, t, cfg, outside, turns) && k < |turns| && k + 1 < cfg.maxTurns
    requires HasCalls(turns[k].answer) && !turns[k].ending.RunAborted? && !outside.stops(k)
    requires forall r | r in turns[k].runs :: !r.terminate
    ensures k + 1 < |turns|
  {
    EachTurnIsRight(cfg, outside, start, turns, k);
    hide Outline, Outlined, EndsWith, Faithful, AllMessages, Waiting, Conversation, AnswerIsRight, AnnouncesOnce, RunIsRight, TurnsAreRight;
    assert turns[k].runs[0] in turns[k].runs;
  }

  /** A run that is over ended for a reason: nothing was due, or the turns were spent; and then the notice
      says so. */
  lemma EndsForAReason(start: seq<Message>, prompts: seq<Message>, t: RunState, cfg: Config, outside: Outside, turns: seq<Turn>)
    requires Finished(start, prompts, t, cfg, outside, turns) && turns != []
    ensures var k, last := |turns| - 1, turns[|turns| - 1];
      match last.ending
      case AnswerFailed => !IsLive(last.answer)
      case RunAborted => HasAborted(cfg, outside, k, last.runs)
      case HookStopped => outside.stops(k)
      case WentOn(hasMore, steering) =>
        || (!hasMore && steering == [] && outside.followUps(k) == [])
        || (|turns| == cfg.maxTurns && t.newMessages[|t.newMessages| - 1] == BUDGET_NOTICE)
  {
    EachTurnIsRight(cfg, outside, start, turns, |turns| - 1);
    hide Outline, Outlined, EndsWith, Faithful, AllMessages, Conversation, AnswerIsRight, AnnouncesOnce, CallsAreRun, TurnsAreRight;
  }

  /** What was waiting is injected first thing: steering or, when the run would have ended, follow-ups;
      and what rides along after it. */
  lemma QueuedIsInjected(start: seq<Message>, prompts: seq<Message>, t: RunState, cfg: Config, outside: Outside, turns: seq<Turn>, k: nat)
    requires Finished(start, prompts, t, cfg, outside, turns) && k < |turns|
    ensures k == 0 ==> turns[k].injected == outside.steering(0) + outside.passive(0)
    ensures k > 0 ==> var last := turns[k - 1].ending;
      && last.WentOn? && last.steering == outside.steering(k)
      && turns[k].injected == (if last.hasMore || outside.steering(k) != [] then outside.steering(k) else outside.followUps(k - 1)) + outside.passive(k)
  {
    hide Outline, Outlined, EndsWith, Faithful, AllMessages, TurnIsRight, TurnsAreRight, PhaseAfter, Spent;
    EachTurnIsRight(cfg, outside, start, turns, k);
    ItsInjected(cfg, outside, start, turns[..k], turns[k]);
    if k > 0 {
      EachTurnIsRight(cfg, outside, start, turns, k - 1);
      ItsInjected(cfg, outside, start, turns[..k - 1], turns[k - 1]);
      assert turns[..k][|turns[..k]| - 1] == turns[k - 1];
    }
  }

  lemma ItsInjected(cfg: Config, outside: Outside, start: seq<Message>, before: seq<Turn>, turn: Turn)
    requires TurnIsRight(cfg, outside, start, before, turn)
    ensures Due(outside, before) && turn.injected == Waiting(outside, before) + outside.passive(|before|)
    ensures turn.ending.WentOn? ==> turn.ending.steering == outside.steering(|before| + 1)
  {
    hide AnswerIsRight, Waiting, Due, Conversation, AnnouncesOnce, CallsAreRun;
  }

  // ---------------------------------------------------------------------------
  // The trace of a run

  ghost predicate RunKeeps(t: RunState, cfg: Config, outside: Outside, runs: seq<ToolRun>, attempts: nat) {
    && Transcript(t.trace) == t.newMessages && InOrder(t.trace) && EndsWith(t.trace, t.newMessages)
    && (PhaseAfter(t.trace) == Over <==> cfg.maxTurns >= 1)
    && (StrictPhaseAfter(t.trace) == Over <==> cfg.maxTurns >= 1 && LatesInTurns(t.trace))
    && TurnStarts(t.trace) <= (if cfg.maxTurns >= 1 then cfg.maxTurns + 1 else 2)
    && attempts <= Cap(cfg.maxTurns) * PerTurn(cfg)
    && ToolEvents(t.trace) == AllEvents(runs)
    && (forall id :: Seen(t.trace, id) == Own(AllEvents(runs), id) <==> NoLateNote(t.trace, id))
    && RunsAreRight(cfg, outside, runs, attempts) && OnlyLastAborted(runs, cfg.abortable)
  }

  lemma FinishedKeeps(start: seq<Message>, prompts: seq<Message>, t: RunState, cfg: Config, outside: Outside, turns: seq<Turn>)
    requires Finished(start, prompts, t, cfg, outside, turns)
    ensures RunKeeps(t, cfg, outside, RunsOf(turns), Attempts(turns))
  {
    hide PhaseAfter, StrictPhaseAfter, Transcript, InOrder, EndsWith, LatesInTurns, Outline, Outlined, TurnsAreRight, ToolEvents, AllEvents, Seen, Own,
      NoLateNote, RunsAreRight, OnlyLastAborted, TurnStarts, PerTurn, AllMessages, Due;
    EachRunIsRight(cfg, outside, start, turns);
    AttemptsBounded(cfg, outside, start, turns);
    NoMoreTimes(|turns|, Cap(cfg.maxTurns), PerTurn(cfg));
    WholeTrace(start, prompts, t, cfg, outside, turns);
    StrictUnlessLate(t.trace);
    SeenUnlessLate(t.trace, AllEvents(RunsOf(turns)));
  }

  lemma WholeTrace(start: seq<Message>, prompts: seq<Message>, t: RunState, cfg: Config, outside: Outside, turns: seq<Turn>)
    requires Finished(start, prompts, t, cfg, outside, turns) && AllWithin(turns)
    ensures ToolEvents(t.trace) == AllEvents(RunsOf(turns))
    ensures TurnStarts(t.trace) == (if turns == [] then 1 else |turns|) + if Spent(cfg, outside, turns) then 1 else 0
    ensures TurnStarts(t.trace) <= if cfg.maxTurns >= 1 then cfg.maxTurns + 1 else 2
  {
    var spent := Spent(cfg, outside, turns);
    var outlined, notice, last := Outlined(prompts, turns), NoticeTurnIf(spent), [AgentEnd(t.newMessages)];
    hide PhaseAfter, EndsWith, Faithful, Outline, Outlined, TurnsAreRight, ToolEvents, AllEvents, TurnStarts, AllMessages, AllWithin, Waiting;
    OutlinedDoes(prompts, turns);
    NoticeDoes(spent);
    DoesNothing(last);
    DoesBoth(outlined, notice);
    DoesBoth(outlined + notice, last);
    OutlineSuffices(t.trace);
    TurnStartsOutlined(t.trace);
    assert AllEvents(RunsOf(turns)) + [] + [] == AllEvents(RunsOf(turns));
  }

  lemma NoticeDoes(spent: bool)
    ensures Does(NoticeTurnIf(spent), [], if spent then 1 else 0)
  {
    OneStart();
    var rest := [MessageEnd(BUDGET_NOTICE), TurnEnd(BUDGET_NOTICE, [])];
    DoesNothing(rest);
    DoesNothing([]);
    DoesBoth([TurnStart], rest);
    assert [TurnStart] + rest == [TurnStart, MessageEnd(BUDGET_NOTICE), TurnEnd(BUDGET_NOTICE, [])];
  }

  /** A listener sees what the batches say of a call if and only if none of its updates was late. */
  lemma SeenUnlessLate(trace: seq<Event>, events: seq<Event>)
    requires ToolEvents(trace) == events
    ensures forall id :: Seen(trace, id) == Own(events, id) <==> NoLateNote(trace, id)
  {
    hide Seen, Own, ToolEvents, NoLateNote;
    forall id
      ensures Seen(trace, id) == Own(events, id) <==> NoLateNote(trace, id)
    {
      SeenIsOwn(trace, id);
      OwnToolEvents(trace, id);
    }
  }

  // ---------------------------------------------------------------------------
  // Entry points and the listener's transcript

  /** A run from new prompts. */
  method RunAgentLoop(prompts: Queued, context: seq<Message>, cfg: Config, registry: AbortRegistry, outside: Outside)
    returns (t: RunState, completed: bool, attempts: nat, ghost turns: seq<Turn>)
    requires registry.Valid()
    modifies registry
    ensures !cfg.stream.throwing ==> completed
    ensures completed ==> Finished(context + prompts, prompts, t, cfg, outside, turns) && prompts <= t.newMessages
    ensures completed ==> attempts == Attempts(turns) && RunKeeps(t, cfg, outside, RunsOf(turns), attempts)
    ensures completed ==> registry.attempts == old(registry.attempts) + attempts
    ensures completed ==> ClosedBetween(old(registry.speculations), registry.speculations)
  {
    completed, attempts, turns := false, 0, [];
    hide Open, Outline, Finished, RunKeeps, ApplyAll, ClosedBetween, AtMostOnce, EndsOf;
    var ok;
    t, ok := Announce(context, cfg.stream.throwing);
    if !ok {
      return;
    }
    ghost var announced := t;
    t, ok := InjectMessages(t, prompts, cfg.stream.throwing, true);
    if !ok {
      return;
    }
    AddsOpen(announced, t, prompts, EndsOf(prompts), true);
    assert announced.newMessages + prompts == prompts;
    t, completed, attempts, turns := RunLoop(t, cfg, registry, outside);
    if completed {
      FinishedKeeps(context + prompts, prompts, t, cfg, outside, turns);
      PromptsFirst(context + prompts, prompts, t, cfg, outside, turns);
    }
  }

  lemma PromptsFirst(start: seq<Message>, prompts: seq<Message>, t: RunState, cfg: Config, outside: Outside, turns: seq<Turn>)
    requires Finished(start, prompts, t, cfg, outside, turns)
    ensures prompts <= t.newMessages
  {
    hide Outline, Outlined, EndsWith, Faithful, AllMessages, TurnsAreRight, PhaseAfter, Spent;
  }

  method Announce(context: seq<Message>, throwing: bool) returns (t: RunState, ok: bool)
    ensures !throwing ==> ok
    ensures ok ==> Open(t) && t.newMessages == [] && t.context == context && Outline(t.trace) == [AgentStart, TurnStart]
  {
    t := RunState([], context, []);
    NothingHappened();
    hide PhaseAfter, InOrder, Transcript, OnTime, Outline;
    t, ok := Emit(t, AgentStart, throwing);
    if ok {
      t, ok := Emit(t, TurnStart, throwing);
      assert [] + [AgentStart] + [TurnStart] == [AgentStart, TurnStart];
    }
  }

  lemma NothingHappened()
    ensures PhaseAfter([]) == NotStarted && Outline([]) == [] && Transcript([]) == [] && InOrder([])
  {
  }

  /** A run that continues an existing context: it must not be empty nor end with an answer. */
  method RunAgentLoopContinue(context: seq<Message>, cfg: Config, registry: AbortRegistry, outside: Outside)
    returns (t: RunState, completed: bool, attempts: nat, ghost turns: seq<Turn>)
    requires registry.Valid()
    modifies registry
    ensures context == [] || context[|context| - 1].Assistant? ==> !completed && t.trace == []
    ensures context != [] && !context[|context| - 1].Assistant? && !cfg.stream.throwing ==> completed
    ensures completed ==> Finished(context, [], t, cfg, outside, turns)
    ensures completed ==> attempts == Attempts(turns) && RunKeeps(t, cfg, outside, RunsOf(turns), attempts)
    ensures completed ==> registry.attempts == old(registry.attempts) + attempts
    ensures completed ==> ClosedBetween(old(registry.speculations), registry.speculations)
  {
    completed, attempts, turns := false, 0, [];
    t := RunState([], context, []);
    if |context| == 0 || context[|context| - 1].Assistant? {
      return;
    }
    hide Open, Outline, Finished, RunKeeps, ApplyAll, ClosedBetween, AtMostOnce;
    var ok;
    t, ok := Announce(context, cfg.stream.throwing);
    if !ok {
      return;
    }
    assert [AgentStart, TurnStart] + EndsOf([]) == [AgentStart, TurnStart];
    t, completed, attempts, turns := RunLoop(t, cfg, registry, outside);
    if completed {
      FinishedKeeps(context, [], t, cfg, outside, turns);
    }
  }

  /** The agent's own state, reduced event by event. */
  class Agent {
    var messages: seq<Message>
    var streamingMessage: Option<Message>
    var pendingToolCalls: set<string>
    var errorMessage: string

    constructor (messages: seq<Message>)
      ensures this.messages == messages && streamingMessage == None && pendingToolCalls == {} && errorMessage == ""
    {
      this.messages, streamingMessage, pendingToolCalls, errorMessage := messages, None, {}, "";
    }

    method ProcessEvent(e: Event)
      modifies this
      ensures messages == old(messages) + Transcript([e])
      ensures streamingMessage ==
        if e.MessageStart? || e.MessageUpdate? then Some(e.message)
        else if e.MessageEnd? || e.AgentEnd? then None
        else old(streamingMessage)
      ensures pendingToolCalls ==
        if e.ToolStart? then old(pendingToolCalls) + {e.call.id}
        else if e.ToolEnd? then old(pendingToolCalls) - {e.call.id}
        else old(pendingToolCalls)
      ensures errorMessage ==
        if e.TurnEnd? && e.message.Assistant? && e.message.errorMessage != "" then e.message.errorMessage
        else old(errorMessage)
    {
      assert [e][..0] == [];
      match e
      case MessageStart(m) =>
        streamingMessage := Some(m);
      case MessageUpdate(_, m) =>
        streamingMessage := Some(m);
      case MessageEnd(m) =>
        streamingMessage := None;
        if !IsGuardAbort(m) {
          messages := messages + [m];
        }
      case ToolStart(call) =>
        pendingToolCalls := pendingToolCalls + {call.id};
      case ToolEnd(call, _) =>
        pendingToolCalls := pendingToolCalls - {call.id};
      case TurnEnd(m, _) =>
        if m.Assistant? && m.errorMessage != "" {
          errorMessage := m.errorMessage;
        }
      case AgentEnd(_) =>
        streamingMessage := None;
      case _ =>
    }

    /** After all events of a run the transcript is the old one followed by the run's. */
    method ProcessAll(trace: seq<Event>)
      modifies this
      ensures messages == old(messages) + Transcript(trace)
      ensures (exists ms :: EndsWith(trace, ms)) ==> streamingMessage == None
    {
      var i := 0;
      while i < |trace|
        invariant 0 <= i <= |trace|
        invariant messages == old(messages) + Transcript(trace[..i])
        invariant forall ms :: EndsWith(trace[..i], ms) ==> streamingMessage == None
      {
        assert trace[..i + 1] == trace[..i] + [trace[i]];
        TranscriptAppend(trace[..i], [trace[i]]);
        EndsWithOne(trace[..i], trace[i]);
        hide Transcript, EndsWith;
        ProcessEvent(trace[i]);
        i := i + 1;
      }
      assert trace[..|trace|] == trace;
    }
  }

  /** A prompt, as the agent's owner sees it: after a run that returns normally the transcript is
      the old one followed by the run's new messages, which start with the prompts. */
  method RunPromptMessages(agent: Agent, prompts: Queued, cfg: Config, registry: AbortRegistry, outside: Outside)
    returns (completed: bool, newMessages: seq<Message>)
    requires registry.Valid()
    modifies agent, registry
    ensures !cfg.stream.throwing ==> completed
    ensures completed ==> prompts <= newMessages && agent.messages == old(agent.messages) + newMessages
    ensures completed ==> agent.streamingMessage == None
  {
    var t, attempts;
    ghost var turns;
    t, completed, attempts, turns := RunAgentLoop(prompts, agent.messages, cfg, registry, outside);
    newMessages := t.newMessages;
    hide Finished, ClosedBetween, AtMostOnce, ApplyAll;
    agent.ProcessAll(t.trace);
  }
}
