/** The messages and events of the agent loop, and the ways a trace of events is read. */
module AgentEvents {
  datatype ToolCall = ToolCall(id: string, name: string, arguments: string)

  datatype StopReason = Stop | ToolUse | Length | Error | Aborted

  /** The finalized result of one tool call. */
  datatype Outcome = Outcome(content: string, isError: bool, terminate: bool)

  const OPERATION_ABORTED := Outcome("Operation aborted", true, false)

  datatype Message =
    | User(text: string)
    | Assistant(text: string, calls: seq<ToolCall>, stop: StopReason, errorMessage: string, guardAbort: bool)
    | ToolResult(callId: string, name: string, content: string, isError: bool)

  datatype DeltaKind = TextDelta | ThinkingDelta | ToolCallDelta

  datatype Update =
    | Delta(kind: DeltaKind, index: nat, delta: string)
    | Boundary(name: string, index: nat)

  datatype Event =
    | AgentStart
    | AgentEnd(messages: seq<Message>)
    | TurnStart
    | TurnEnd(message: Message, results: seq<Message>)
    | MessageStart(message: Message)
    | MessageUpdate(update: Update, message: Message)
    | MessageEnd(message: Message)
    | ToolStart(call: ToolCall)
    | ToolNote(call: ToolCall, note: string)
    /** An update that a tool reports after its execution was settled or given up. Listeners get
        it as any other update. */
    | LateNote(call: ToolCall, note: string)
    | ToolEnd(call: ToolCall, outcome: Outcome)

  function ResultMessage(call: ToolCall, outcome: Outcome): Message {
    ToolResult(call.id, call.name, outcome.content, outcome.isError)
  }

  /** An assistant turn that carries only an error. */
  function ErrorTurn(errorMessage: string): Message {
    Assistant("", [], StopReason.Error, errorMessage, false)
  }

  predicate IsGuardAbort(m: Message) {
    m.Assistant? && m.guardAbort
  }

  /** Message and tool events happen within a turn; the other events delimit turns and runs. */
  predicate IsWithinTurn(e: Event) {
    !e.AgentStart? && !e.AgentEnd? && !e.TurnStart? && !e.TurnEnd?
  }

  ghost predicate WithinTurn(trace: seq<Event>) {
    forall i | 0 <= i < |trace| :: IsWithinTurn(trace[i])
  }

  lemma WithinAppend(a: seq<Event>, b: seq<Event>)
    requires WithinTurn(a) && WithinTurn(b)
    ensures WithinTurn(a + b)
  {
  }

  lemma WithinOne(trace: seq<Event>, e: Event)
    requires WithinTurn(trace) && IsWithinTurn(e)
    ensures WithinTurn(trace + [e])
  {
    WithinAppend(trace, [e]);
  }

  predicate IsMessageEvent(e: Event) {
    e.MessageStart? || e.MessageUpdate? || e.MessageEnd?
  }

  ghost predicate OnlyMessages(trace: seq<Event>) {
    forall i | 0 <= i < |trace| :: IsMessageEvent(trace[i])
  }

  lemma OnlyMessagesOne(trace: seq<Event>, e: Event)
    requires OnlyMessages(trace) && IsMessageEvent(e)
    ensures OnlyMessages(trace + [e])
  {
    OnlyMessagesAppend(trace, [e]);
  }

  lemma OnlyMessagesAppend(a: seq<Event>, b: seq<Event>)
    requires OnlyMessages(a) && OnlyMessages(b)
    ensures OnlyMessages(a + b)
  {
  }

  // ---------------------------------------------------------------------------
  // Reading a trace

  function IfPresent<T>(b: bool, x: T): seq<T> {
    if b then [x] else []
  }

  /** The messages of the `message_end` events, in order. */
  function MessageEnds(trace: seq<Event>): seq<Message> {
    if trace == [] then []
    else
      var last := trace[|trace| - 1];
      MessageEnds(trace[..|trace| - 1]) + if last.MessageEnd? then [last.message] else []
  }

  /** What listeners are told about a message as a whole. */
  datatype Notice = Started(message: Message) | Ended(message: Message)

  function NoticeOf(e: Event): seq<Notice> {
    if e.MessageStart? then [Started(e.message)] else if e.MessageEnd? then [Ended(e.message)] else []
  }

  /** The starts and ends of messages, in order. */
  function Notices(trace: seq<Event>): seq<Notice> {
    if trace == [] then [] else Notices(trace[..|trace| - 1]) + NoticeOf(trace[|trace| - 1])
  }

  /** Each message started and then ended, one after the other. */
  function Paired(ms: seq<Message>): seq<Notice> {
    if ms == [] then [] else Paired(ms[..|ms| - 1]) + Whole(ms[|ms| - 1])
  }

  function Whole(m: Message): seq<Notice> {
    [Started(m), Ended(m)]
  }

  lemma {:induction false} PairedAppend(a: seq<Message>, b: seq<Message>)
    ensures Paired(a + b) == Paired(a) + Paired(b)
    decreases |b|
  {
    if b == [] {
      assert a + b == a;
    } else {
      assert (a + b)[..|a + b| - 1] == a + b[..|b| - 1];
      PairedAppend(a, b[..|b| - 1]);
    }
  }

  lemma PairedOne(m: Message)
    ensures Paired([m]) == Whole(m)
  {
    assert [m][..0] == [];
  }

  function StartsOf(ms: seq<Message>): seq<Notice> {
    seq(|ms|, i requires 0 <= i < |ms| => Started(ms[i]))
  }

  function EndsIn(notices: seq<Notice>): seq<Message> {
    if notices == [] then []
    else
      var last := notices[|notices| - 1];
      EndsIn(notices[..|notices| - 1]) + if last.Ended? then [last.message] else []
  }

  lemma EndsInOne(notices: seq<Notice>, n: Notice)
    ensures EndsIn(notices + [n]) == EndsIn(notices) + if n.Ended? then [n.message] else []
  {
    assert (notices + [n])[..|notices|] == notices;
  }

  lemma {:induction false} EndsAreNoticed(trace: seq<Event>)
    ensures MessageEnds(trace) == EndsIn(Notices(trace))
  {
    if trace != [] {
      var before, last := trace[..|trace| - 1], trace[|trace| - 1];
      EndsAreNoticed(before);
      if NoticeOf(last) == [] {
        assert Notices(before) + [] == Notices(before);
      } else {
        EndsInOne(Notices(before), NoticeOf(last)[0]);
        assert NoticeOf(last) == [NoticeOf(last)[0]];
      }
    }
  }

  lemma EndsInWhole(notices: seq<Notice>, m: Message)
    ensures EndsIn(notices + Whole(m)) == EndsIn(notices) + [m]
  {
    EndsInOne(notices, Started(m));
    EndsInOne(notices + [Started(m)], Ended(m));
    hide EndsIn;
    assert notices + Whole(m) == notices + [Started(m)] + [Ended(m)];
    assert EndsIn(notices) + [] == EndsIn(notices);
  }

  /** When whole messages are all that was noticed, they are the messages ended. */
  lemma {:induction false} EndsOfPaired(ms: seq<Message>)
    ensures EndsIn(Paired(ms)) == ms
  {
    hide Whole;
    if ms != [] {
      EndsOfPaired(ms[..|ms| - 1]);
      EndsInWhole(Paired(ms[..|ms| - 1]), ms[|ms| - 1]);
    }
  }

  /** Messages that only started are not kept. */
  lemma OnlyStarted(trace: seq<Event>, ms: seq<Message>)
    requires Notices(trace) == StartsOf(ms)
    ensures MessageEnds(trace) == [] && Transcript(trace) == []
  {
    EndsAreNoticed(trace);
    NothingEnded(StartsOf(ms));
    NoEndsNoTranscript(trace);
  }

  lemma {:induction false} NothingEnded(notices: seq<Notice>)
    requires forall i | 0 <= i < |notices| :: notices[i].Started?
    ensures EndsIn(notices) == []
  {
    if notices != [] {
      NothingEnded(notices[..|notices| - 1]);
    }
  }

  lemma {:induction false} NoEndsNoTranscript(trace: seq<Event>)
    requires MessageEnds(trace) == []
    ensures Transcript(trace) == []
  {
    if trace != [] {
      NoEndsNoTranscript(trace[..|trace| - 1]);
    }
  }

  lemma WholeMessages(trace: seq<Event>, ms: seq<Message>)
    requires Notices(trace) == Paired(ms)
    ensures MessageEnds(trace) == ms
  {
    EndsAreNoticed(trace);
    EndsOfPaired(ms);
  }

  /** The messages a listener keeps: partial messages aborted by a guard are dropped. */
  function Transcript(trace: seq<Event>): seq<Message> {
    if trace == [] then []
    else
      var last := trace[|trace| - 1];
      Transcript(trace[..|trace| - 1]) +
      if last.MessageEnd? && !IsGuardAbort(last.message) then [last.message] else []
  }

  predicate Concerns(e: Event, id: string) {
    (e.ToolStart? || e.ToolNote? || e.ToolEnd?) && e.call.id == id
  }

  /** The tool events of one call, in order. */
  function Own(trace: seq<Event>, id: string): seq<Event> {
    if trace == [] then []
    else
      var last := trace[|trace| - 1];
      Own(trace[..|trace| - 1], id) + IfPresent(Concerns(last, id), last)
  }

  predicate IsToolEvent(e: Event) {
    e.ToolStart? || e.ToolNote? || e.ToolEnd?
  }

  /** The tool events of all calls, in order. */
  function ToolEvents(trace: seq<Event>): seq<Event> {
    if trace == [] then []
    else
      var last := trace[|trace| - 1];
      ToolEvents(trace[..|trace| - 1]) + IfPresent(IsToolEvent(last), last)
  }

  lemma {:induction false} ToolEventsAppend(a: seq<Event>, b: seq<Event>)
    ensures ToolEvents(a + b) == ToolEvents(a) + ToolEvents(b)
    decreases |b|
  {
    if b == [] {
      assert a + b == a;
    } else {
      assert (a + b)[..|a + b| - 1] == a + b[..|b| - 1];
      ToolEventsAppend(a, b[..|b| - 1]);
    }
  }

  lemma {:induction false} MessagesAreNotTools(trace: seq<Event>)
    requires OnlyMessages(trace)
    ensures WithinTurn(trace) && ToolEvents(trace) == []
  {
    if trace != [] {
      MessagesAreNotTools(trace[..|trace| - 1]);
    }
  }

  /** Leaving out the other events leaves the events of each call. */
  lemma {:induction false} OwnToolEvents(trace: seq<Event>, id: string)
    ensures Own(ToolEvents(trace), id) == Own(trace, id)
  {
    if trace != [] {
      var before, last := trace[..|trace| - 1], trace[|trace| - 1];
      OwnToolEvents(before, id);
      if IsToolEvent(last) {
        AppendOne(ToolEvents(before), last);
      } else {
        assert ToolEvents(before) + [] == ToolEvents(before);
      }
    }
  }

  // ---------------------------------------------------------------------------
  // Late updates

  /** The event is of the call with this id, late or not. */
  predicate Touches(e: Event, id: string) {
    Concerns(e, id) || (e.LateNote? && e.call.id == id)
  }

  /** What a listener gets: it cannot tell a late update from another. */
  function AsSeen(e: Event): Event {
    if e.LateNote? then ToolNote(e.call, e.note) else e
  }

  /** The tool events of one call as a listener sees them. */
  function Seen(trace: seq<Event>, id: string): seq<Event> {
    if trace == [] then []
    else
      var last := trace[|trace| - 1];
      Seen(trace[..|trace| - 1], id) + IfPresent(Touches(last, id), AsSeen(last))
  }

  ghost predicate NoLateNote(trace: seq<Event>, id: string) {
    forall k | 0 <= k < |trace| :: !(trace[k].LateNote? && trace[k].call.id == id)
  }

  ghost predicate OnlyLateNotes(trace: seq<Event>) {
    forall k | 0 <= k < |trace| :: trace[k].LateNote?
  }

  lemma {:induction false} SeenLength(trace: seq<Event>, id: string)
    ensures |Seen(trace, id)| >= |Own(trace, id)|
    ensures |Seen(trace, id)| == |Own(trace, id)| <==> NoLateNote(trace, id)
    ensures NoLateNote(trace, id) ==> Seen(trace, id) == Own(trace, id)
  {
    if trace != [] {
      var before, last := trace[..|trace| - 1], trace[|trace| - 1];
      SeenLength(before, id);
      if NoLateNote(trace, id) {
        assert NoLateNote(before, id);
      } else if NoLateNote(before, id) {
        assert last.LateNote? && last.call.id == id;
      }
    }
  }

  /** A listener sees exactly the own events of a call if and only if none of its updates was late. */
  lemma SeenIsOwn(trace: seq<Event>, id: string)
    ensures Seen(trace, id) == Own(trace, id) <==> NoLateNote(trace, id)
  {
    SeenLength(trace, id);
    hide Seen, Own;
  }

  /** The events without the late updates. */
  function OnTime(trace: seq<Event>): seq<Event> {
    if trace == [] then []
    else
      var before, last := OnTime(trace[..|trace| - 1]), trace[|trace| - 1];
      if last.LateNote? then before else before + [last]
  }

  lemma OnTimeOne(trace: seq<Event>, e: Event)
    ensures OnTime(trace + [e]) == if e.LateNote? then OnTime(trace) else OnTime(trace) + [e]
  {
    assert (trace + [e])[..|trace|] == trace;
  }

  lemma {:induction false} OnTimeWithLates(trace: seq<Event>, lates: seq<Event>)
    requires OnlyLateNotes(lates)
    ensures OnTime(trace + lates) == OnTime(trace)
    decreases |lates|
  {
    if lates == [] {
      assert trace + lates == trace;
    } else {
      assert (trace + lates)[..|trace + lates| - 1] == trace + lates[..|lates| - 1];
      OnTimeWithLates(trace, lates[..|lates| - 1]);
    }
  }

  /** Late updates add nothing to what is told of messages, kept, or done by calls. */
  lemma {:induction false} OnTimeSuffices(trace: seq<Event>)
    ensures Notices(trace) == Notices(OnTime(trace)) && Transcript(trace) == Transcript(OnTime(trace))
    ensures ToolEvents(trace) == ToolEvents(OnTime(trace))
  {
    if trace != [] {
      hide OnTime, Notices, Transcript, ToolEvents, MessageEnds, Own;
      var before, last := trace[..|trace| - 1], trace[|trace| - 1];
      assert trace == before + [last];
      OnTimeSuffices(before);
      OnTimeOne(before, last);
      if last.LateNote? {
        LateNoteAdds(before, last);
      } else {
        AppendOne(before, last);
        AppendOne(OnTime(before), last);
      }
    }
  }

  /** What tools report at an await that were given up, or that report after they have settled. */
  method LateReports() returns (lates: seq<Event>)
    ensures OnlyLateNotes(lates)
  {
    lates := [];
    var more: nat := *;
    while more > 0
      invariant OnlyLateNotes(lates)
    {
      var call: ToolCall, note: string := *, *;
      lates := lates + [LateNote(call, note)];
      more := more - 1;
    }
  }

  /** Messages as they are emitted while tools of earlier batches report. */
  method Weave(trace: seq<Event>) returns (woven: seq<Event>)
    requires OnlyMessages(trace)
    ensures OnTime(woven) == trace && WithinTurn(woven)
  {
    woven := LateReports();
    OnTimeWithLates([], woven);
    assert [] + woven == woven && WithinTurn(woven);
    hide OnTime, WithinTurn, OnlyLateNotes;
    for i := 0 to |trace|
      invariant OnTime(woven) == trace[..i] && WithinTurn(woven)
    {
      var lates := LateReports();
      OneMoreWoven(woven, trace[i], lates);
      assert trace[..i + 1] == trace[..i] + [trace[i]];
      woven := woven + [trace[i]] + lates;
    }
  }

  lemma OneMoreWoven(trace: seq<Event>, e: Event, lates: seq<Event>)
    requires WithinTurn(trace) && IsMessageEvent(e) && OnlyLateNotes(lates)
    ensures WithinTurn(trace + [e] + lates) && OnTime(trace + [e] + lates) == OnTime(trace) + [e]
  {
    OnTimeOne(trace, e);
    OnTimeWithLates(trace + [e], lates);
    WithinOne(trace, e);
    WithinAppend(trace + [e], lates);
  }

  lemma LateNoteAdds(trace: seq<Event>, e: Event)
    requires e.LateNote?
    ensures Notices(trace + [e]) == Notices(trace) && Transcript(trace + [e]) == Transcript(trace)
    ensures ToolEvents(trace + [e]) == ToolEvents(trace)
    ensures forall id :: Own(trace + [e], id) == Own(trace, id)
  {
    assert (trace + [e])[..|trace|] == trace;
    assert Notices(trace) + [] == Notices(trace) && Transcript(trace) + [] == Transcript(trace) && ToolEvents(trace) + [] == ToolEvents(trace);
    forall id
      ensures Own(trace + [e], id) == Own(trace, id)
    {
      assert Own(trace, id) + [] == Own(trace, id);
    }
  }

  lemma {:induction false} NoticesAppend(a: seq<Event>, b: seq<Event>)
    ensures Notices(a + b) == Notices(a) + Notices(b)
    decreases |b|
  {
    if b == [] {
      assert a + b == a;
    } else {
      assert (a + b)[..|a + b| - 1] == a + b[..|b| - 1];
      NoticesAppend(a, b[..|b| - 1]);
    }
  }

  lemma {:induction false} TranscriptAppend(a: seq<Event>, b: seq<Event>)
    ensures Transcript(a + b) == Transcript(a) + Transcript(b)
    decreases |b|
  {
    if b == [] {
      assert a + b == a;
    } else {
      assert (a + b)[..|a + b| - 1] == a + b[..|b| - 1];
      TranscriptAppend(a, b[..|b| - 1]);
    }
  }

  lemma {:induction false} OwnAppend(a: seq<Event>, b: seq<Event>, id: string)
    ensures Own(a + b, id) == Own(a, id) + Own(b, id)
    decreases |b|
  {
    if b == [] {
      assert a + b == a;
    } else {
      assert (a + b)[..|a + b| - 1] == a + b[..|b| - 1];
      OwnAppend(a, b[..|b| - 1], id);
    }
  }

  lemma NoticesOne(trace: seq<Event>, e: Event)
    ensures Notices(trace + [e]) == Notices(trace) + NoticeOf(e)
  {
    assert (trace + [e])[..|trace|] == trace;
  }

  lemma TranscriptOne(trace: seq<Event>, e: Event)
    ensures Transcript(trace + [e]) ==
      Transcript(trace) + if e.MessageEnd? && !IsGuardAbort(e.message) then [e.message] else []
  {
    assert (trace + [e])[..|trace|] == trace;
  }

  lemma OwnOne(trace: seq<Event>, e: Event, id: string)
    ensures Own(trace + [e], id) == Own(trace, id) + IfPresent(Concerns(e, id), e)
  {
    assert (trace + [e])[..|trace|] == trace;
  }

  lemma AppendOne(trace: seq<Event>, e: Event)
    ensures MessageEnds(trace + [e]) == MessageEnds(trace) + if e.MessageEnd? then [e.message] else []
    ensures Notices(trace + [e]) == Notices(trace) + NoticeOf(e)
    ensures Transcript(trace + [e]) ==
      Transcript(trace) + if e.MessageEnd? && !IsGuardAbort(e.message) then [e.message] else []
    ensures ToolEvents(trace + [e]) == ToolEvents(trace) + IfPresent(IsToolEvent(e), e)
    ensures forall id :: Own(trace + [e], id) == Own(trace, id) + IfPresent(Concerns(e, id), e)
  {
    assert (trace + [e])[..|trace|] == trace;
  }

  // ---------------------------------------------------------------------------
  // The outline of a trace

  /** Not in the outline: the starts and updates of messages, partial messages that a guard aborted, and
      late updates. */
  predicate IsOutlined(e: Event) {
    !e.MessageStart? && !e.MessageUpdate? && !e.LateNote? && !(e.MessageEnd? && IsGuardAbort(e.message))
  }

  /** What happened, in order: the brackets of the run and of its turns, the messages as they became
      complete, and what the calls did. */
  function Outline(trace: seq<Event>): seq<Event> {
    if trace == [] then []
    else
      var before, last := Outline(trace[..|trace| - 1]), trace[|trace| - 1];
      if IsOutlined(last) then before + [last] else before
  }

  function EndsOf(ms: seq<Message>): seq<Event> {
    seq(|ms|, i requires 0 <= i < |ms| => MessageEnd(ms[i]))
  }

  lemma EndsOfAppend(a: seq<Message>, b: seq<Message>)
    ensures EndsOf(a + b) == EndsOf(a) + EndsOf(b)
  {
  }

  lemma OutlineOne(trace: seq<Event>, e: Event)
    ensures Outline(trace + [e]) == if IsOutlined(e) then Outline(trace) + [e] else Outline(trace)
  {
    assert (trace + [e])[..|trace|] == trace;
  }

  lemma {:induction false} OutlineAppend(a: seq<Event>, b: seq<Event>)
    ensures Outline(a + b) == Outline(a) + Outline(b)
    decreases |b|
  {
    if b == [] {
      assert a + b == a;
    } else {
      assert (a + b)[..|a + b| - 1] == a + b[..|b| - 1];
      OutlineAppend(a, b[..|b| - 1]);
    }
  }

  /** Of messages alone the outline is what listeners keep. */
  lemma {:induction false} OutlineOfMessages(trace: seq<Event>)
    requires OnlyMessages(trace)
    ensures Outline(trace) == EndsOf(Transcript(trace))
  {
    if trace != [] {
      var before, last := trace[..|trace| - 1], trace[|trace| - 1];
      OutlineOfMessages(before);
      assert IsMessageEvent(last);
      if last.MessageEnd? && !IsGuardAbort(last.message) {
        EndsOfAppend(Transcript(before), [last.message]);
      } else {
        assert Transcript(before) + [] == Transcript(before);
      }
    }
  }

  lemma {:induction false} OutlineOnTime(trace: seq<Event>)
    ensures Outline(OnTime(trace)) == Outline(trace)
  {
    if trace != [] {
      var before, last := trace[..|trace| - 1], trace[|trace| - 1];
      OutlineOnTime(before);
      if !last.LateNote? {
        OutlineOne(OnTime(before), last);
      }
    }
  }

  /** The outline leaves out no tool event and no message that listeners keep. */
  lemma {:induction false} OutlineSuffices(trace: seq<Event>)
    ensures ToolEvents(Outline(trace)) == ToolEvents(trace) && Transcript(Outline(trace)) == Transcript(trace)
  {
    if trace != [] {
      var before, last := trace[..|trace| - 1], trace[|trace| - 1];
      OutlineSuffices(before);
      assert ToolEvents(before) + [] == ToolEvents(before) && Transcript(before) + [] == Transcript(before);
      if IsOutlined(last) {
        AppendOne(Outline(before), last);
      }
    }
  }

  // ---------------------------------------------------------------------------
  // Messages start and end in turn

  /** Starts without an end. */
  function Balance(notices: seq<Notice>): int {
    if notices == [] then 0 else Balance(notices[..|notices| - 1]) + if notices[|notices| - 1].Started? then 1 else -1
  }

  /** One message at a time: a start, its end, the next start. */
  predicate Alternates(notices: seq<Notice>) {
    |notices| % 2 == 0 && forall i | 0 <= i < |notices| :: notices[i].Started? == (i % 2 == 0)
  }

  /** Messages alternate, unless some message was started that is not ended. */
  ghost predicate Orderly(notices: seq<Notice>) {
    Balance(notices) >= 0 && (Balance(notices) == 0 ==> Alternates(notices))
  }

  ghost predicate InOrder(trace: seq<Event>) {
    Orderly(Notices(trace))
  }

  lemma {:induction false} BalanceAppend(a: seq<Notice>, b: seq<Notice>)
    ensures Balance(a + b) == Balance(a) + Balance(b)
    decreases |b|
  {
    if b == [] {
      assert a + b == a;
    } else {
      assert (a + b)[..|a + b| - 1] == a + b[..|b| - 1];
      BalanceAppend(a, b[..|b| - 1]);
    }
  }

  lemma AlternatesAppend(a: seq<Notice>, b: seq<Notice>)
    requires Alternates(a) && Alternates(b)
    ensures Alternates(a + b)
  {
    forall i | 0 <= i < |a + b|
      ensures (a + b)[i].Started? == (i % 2 == 0)
    {
      if i >= |a| {
        var j := i - |a|;
        assert (a + b)[i] == b[j];
        assert b[j].Started? == (j % 2 == 0);
      } else {
        assert (a + b)[i] == a[i];
      }
    }
  }

  lemma OrderlyAppend(a: seq<Notice>, b: seq<Notice>)
    requires Orderly(a) && Orderly(b)
    ensures Orderly(a + b)
  {
    BalanceAppend(a, b);
    hide Balance, Alternates;
    if Alternates(a) && Alternates(b) {
      AlternatesAppend(a, b);
    }
  }

  lemma InOrderAppend(a: seq<Event>, b: seq<Event>)
    requires InOrder(a) && InOrder(b)
    ensures InOrder(a + b)
  {
    NoticesAppend(a, b);
    OrderlyAppend(Notices(a), Notices(b));
  }

  lemma OrderlyWhole(m: Message)
    ensures Orderly([]) && Orderly(Whole(m))
  {
    assert Whole(m)[..1] == [Started(m)] && [Started(m)][..0] == [];
  }

  lemma {:induction false} OrderlyPaired(ms: seq<Message>)
    ensures Orderly(Paired(ms))
  {
    hide Orderly, Whole;
    if ms == [] {
      OrderlyWhole(ErrorTurn(""));
    } else {
      OrderlyPaired(ms[..|ms| - 1]);
      OrderlyWhole(ms[|ms| - 1]);
      OrderlyAppend(Paired(ms[..|ms| - 1]), Whole(ms[|ms| - 1]));
    }
  }

  lemma {:induction false} BalanceOfStarts(notices: seq<Notice>)
    requires forall i | 0 <= i < |notices| :: notices[i].Started?
    ensures Balance(notices) == |notices|
  {
    if notices != [] {
      BalanceOfStarts(notices[..|notices| - 1]);
    }
  }

  /** Some messages started and one ended. */
  lemma OrderlyEnd(ms: seq<Message>, m: Message)
    requires ms != []
    ensures Orderly(StartsOf(ms) + [Ended(m)])
  {
    var starts := StartsOf(ms);
    BalanceOfStarts(starts);
    BalanceAppend(starts, [Ended(m)]);
    assert [Ended(m)][..0] == [];
  }
}
