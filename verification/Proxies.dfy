/** The proxy client: it rebuilds the partial message from stripped events. Tool-call arguments
    are re-parsed at most once per frame while they stream; what is delivered at the end of a
    call or of the stream does not depend on the clock. */
module Proxies {
  import opened Options

  const MAX_STREAM_BUFFER_BYTES: nat := 16 * 1024 * 1024
  const TOOLCALL_PARSE_THROTTLE_MS: real := 16.0

  /** Parsed arguments; the parser is a parameter of every operation. */
  type Args = int
  const NO_ARGS: Args := 0
  type Parser = string -> Args

  /** A tool call in progress carries the JSON received so far and the time of its last parse;
      both are deleted when it is final. */
  datatype Block =
    | TextBlock(text: string, textSignature: Option<string>)
    | ThinkingBlock(thinking: string, thinkingSignature: Option<string>)
    | ToolCallBlock(id: string, name: string, arguments: Args, partialJson: Option<string>, lastParseAt: Option<real>)

  /** The message under construction. Its content is a sparse array. */
  datatype Message = Message(content: seq<Option<Block>>, stopReason: string, errorMessage: Option<string>, usage: int)

  datatype Event =
    | Start
    | TextStart(index: nat)
    | TextDelta(index: nat, delta: string)
    | TextEnd(index: nat, signature: Option<string>)
    | ThinkingStart(index: nat)
    | ThinkingDelta(index: nat, delta: string)
    | ThinkingEnd(index: nat, signature: Option<string>)
    | ToolcallStart(index: nat, id: string, name: string)
    | ToolcallDelta(index: nat, delta: string)
    | ToolcallEnd(index: nat)
    | Done(reason: string, usage: int)
    | Error(reason: string, message: Option<string>, usage: int)

  /** What a processed event comes to: passed on, with the text or the call it completes; a
      terminal event; nothing; or an exception. */
  datatype Outcome = Passed | Completed(text: string) | CompletedCall(call: Block) | Ended(reason: string) | Failed(reason: string) | Silent | Thrown

  // ---------------------------------------------------------------------------
  // The meaning of one event

  function BlockAt(content: seq<Option<Block>>, i: nat): Option<Block> {
    if i < |content| then content[i] else None
  }

  function Holes(n: nat): (s: seq<Option<Block>>)
    ensures |s| == n && forall i | 0 <= i < n :: s[i] == None
  {
    seq(n, i => None)
  }

  /** Assigning an array element; past the end it leaves holes. */
  function Put(content: seq<Option<Block>>, i: nat, b: Block): (r: seq<Option<Block>>)
    ensures forall j: nat :: BlockAt(r, j) == if j == i then Some(b) else BlockAt(content, j)
    ensures |r| == if i < |content| then |content| else i + 1
  {
    if i < |content| then content[i := Some(b)] else content + Holes(i - |content|) + [Some(b)]
  }

  /** The exact final arguments, from everything received; the carrier fields go. */
  function Final(b: Block, parse: Parser): Block {
    if b.ToolCallBlock? then
      b.(arguments := if b.partialJson.Some? then parse(b.partialJson.value) else b.arguments, partialJson := None, lastParseAt := None)
    else b
  }

  function Settled(content: seq<Option<Block>>, parse: Parser): (r: seq<Option<Block>>)
    ensures |r| == |content|
    ensures forall i | 0 <= i < |content| :: r[i] == if content[i].Some? then Some(Final(content[i].value, parse)) else None
  {
    seq(|content|, i requires 0 <= i < |content| => if content[i].Some? then Some(Final(content[i].value, parse)) else None)
  }

  /** No block carries streaming fields. */
  predicate AllFinal(content: seq<Option<Block>>) {
    forall i | 0 <= i < |content| && content[i].Some? && content[i].value.ToolCallBlock? ::
      content[i].value.partialJson == None && content[i].value.lastParseAt == None
  }

  /** A delta arriving after the call's end is appended to a missing field. */
  function Joined(partialJson: Option<string>, delta: string): string {
    (if partialJson.Some? then partialJson.value else "undefined") + delta
  }

  /** A missing time compares with nothing, so no parse is due. */
  predicate ParseDue(lastParseAt: Option<real>, now: real) {
    lastParseAt.Some? && now - lastParseAt.value >= TOOLCALL_PARSE_THROTTLE_MS
  }

  function WithDelta(b: Block, delta: string, now: real, parse: Parser): Block
    requires b.ToolCallBlock?
  {
    var json := Joined(b.partialJson, delta);
    if ParseDue(b.lastParseAt, now) then b.(partialJson := Some(json), lastParseAt := Some(now), arguments := parse(json))
    else b.(partialJson := Some(json))
  }

  function StepToolcall(m: Message, e: Event, b: Option<Block>, now: real, parse: Parser): (Message, Outcome)
    requires e.ToolcallDelta? || e.ToolcallEnd?
    requires b == BlockAt(m.content, e.index)
  {
    if !(b.Some? && b.value.ToolCallBlock?) then (m, if e.ToolcallEnd? then Silent else Thrown)
    else if e.ToolcallEnd? then
      (m.(content := Put(m.content, e.index, Final(b.value, parse))), CompletedCall(Final(b.value, parse)))
    else if |Joined(b.value.partialJson, e.delta)| > MAX_STREAM_BUFFER_BYTES then
      var grown := Put(m.content, e.index, b.value.(partialJson := Some(Joined(b.value.partialJson, e.delta))));
      (m.(content := Settled(grown, parse), stopReason := "error", errorMessage := Some("Proxy tool-call args exceeded max buffer")), Failed("error"))
    else (m.(content := Put(m.content, e.index, WithDelta(b.value, e.delta, now, parse))), Passed)
  }

  function Step(m: Message, e: Event, now: real, parse: Parser): (Message, Outcome) {
    match e
    case Start => (m, Passed)
    case TextStart(i) => (m.(content := Put(m.content, i, TextBlock("", None))), Passed)
    case TextDelta(i, delta) =>
      var b := BlockAt(m.content, i);
      if b.Some? && b.value.TextBlock? then (m.(content := Put(m.content, i, b.value.(text := b.value.text + delta))), Passed) else (m, Thrown)
    case TextEnd(i, signature) =>
      var b := BlockAt(m.content, i);
      if b.Some? && b.value.TextBlock? then (m.(content := Put(m.content, i, b.value.(textSignature := signature))), Completed(b.value.text)) else (m, Thrown)
    case ThinkingStart(i) => (m.(content := Put(m.content, i, ThinkingBlock("", None))), Passed)
    case ThinkingDelta(i, delta) =>
      var b := BlockAt(m.content, i);
      if b.Some? && b.value.ThinkingBlock? then (m.(content := Put(m.content, i, b.value.(thinking := b.value.thinking + delta))), Passed) else (m, Thrown)
    case ThinkingEnd(i, signature) =>
      var b := BlockAt(m.content, i);
      if b.Some? && b.value.ThinkingBlock? then (m.(content := Put(m.content, i, b.value.(thinkingSignature := signature))), Completed(b.value.thinking)) else (m, Thrown)
    case ToolcallStart(i, id, name) => (m.(content := Put(m.content, i, ToolCallBlock(id, name, NO_ARGS, Some(""), Some(0.0)))), Passed)
    case ToolcallDelta(i, delta) => StepToolcall(m, e, BlockAt(m.content, i), now, parse)
    case ToolcallEnd(i) => StepToolcall(m, e, BlockAt(m.content, i), now, parse)
    case Done(reason, usage) => (m.(content := Settled(m.content, parse), stopReason := reason, usage := usage), Ended(reason))
    case Error(reason, message, usage) =>
      (m.(content := Settled(m.content, parse), stopReason := reason, errorMessage := message, usage := usage), Failed(reason))
  }

  /** The event needs a block of its kind at its index, and there is none. */
  predicate Misplaced(m: Message, e: Event) {
    match e
    case TextDelta(i, _) => BlockAt(m.content, i).None? || !BlockAt(m.content, i).value.TextBlock?
    case TextEnd(i, _) => BlockAt(m.content, i).None? || !BlockAt(m.content, i).value.TextBlock?
    case ThinkingDelta(i, _) => BlockAt(m.content, i).None? || !BlockAt(m.content, i).value.ThinkingBlock?
    case ThinkingEnd(i, _) => BlockAt(m.content, i).None? || !BlockAt(m.content, i).value.ThinkingBlock?
    case ToolcallDelta(i, _) => BlockAt(m.content, i).None? || !BlockAt(m.content, i).value.ToolCallBlock?
    case ToolcallEnd(i) => BlockAt(m.content, i).None? || !BlockAt(m.content, i).value.ToolCallBlock?
    case _ => false
  }

  /** Exactly such an event throws, and changes nothing; only the end of a call that is not there is
      passed over in silence. */
  lemma MisplacedThrows(m: Message, e: Event, now: real, parse: Parser)
    ensures Misplaced(m, e) <==> Step(m, e, now, parse).1.Thrown? || Step(m, e, now, parse).1.Silent?
    ensures Misplaced(m, e) ==> Step(m, e, now, parse) == (m, if e.ToolcallEnd? then Silent else Thrown)
  {
  }

  // ---------------------------------------------------------------------------
  // The clock does not matter

  /** Two blocks that differ at most in how far the arguments of an open call were parsed. */
  predicate SameBlock(a: Block, b: Block) {
    if a.ToolCallBlock? && a.partialJson.Some? then
      b.ToolCallBlock? && b.id == a.id && b.name == a.name && b.partialJson == a.partialJson && b.lastParseAt.Some? == a.lastParseAt.Some?
    else a == b
  }

  predicate SameContent(a: seq<Option<Block>>, b: seq<Option<Block>>) {
    |a| == |b| && forall i | 0 <= i < |a| :: a[i].Some? == b[i].Some? && (a[i].Some? ==> SameBlock(a[i].value, b[i].value))
  }

  predicate SameMessage(a: Message, b: Message) {
    SameContent(a.content, b.content) && a.stopReason == b.stopReason && a.errorMessage == b.errorMessage && a.usage == b.usage
  }

  lemma SameAt(a: seq<Option<Block>>, b: seq<Option<Block>>, i: nat)
    requires SameContent(a, b)
    ensures BlockAt(a, i).Some? == BlockAt(b, i).Some? && (BlockAt(a, i).Some? ==> SameBlock(BlockAt(a, i).value, BlockAt(b, i).value))
  {
  }

  lemma SamePut(a: seq<Option<Block>>, b: seq<Option<Block>>, i: nat, x: Block, y: Block)
    requires SameContent(a, b) && SameBlock(x, y)
    ensures SameContent(Put(a, i, x), Put(b, i, y))
  {
    hide SameBlock;
    var p, q := Put(a, i, x), Put(b, i, y);
    forall j | 0 <= j < |p|
      ensures p[j].Some? == q[j].Some? && (p[j].Some? ==> SameBlock(p[j].value, q[j].value))
    {
      assert p[j] == BlockAt(p, j) && q[j] == BlockAt(q, j);
      SameAt(a, b, j);
    }
  }

  /** Settling removes every trace of the clock. */
  lemma SameSettled(a: seq<Option<Block>>, b: seq<Option<Block>>, parse: Parser)
    requires SameContent(a, b)
    ensures Settled(a, parse) == Settled(b, parse) && AllFinal(Settled(a, parse))
  {
    forall i | 0 <= i < |a|
      ensures Settled(a, parse)[i] == Settled(b, parse)[i]
    {
    }
  }

  lemma SameRefl(a: seq<Option<Block>>)
    ensures SameContent(a, a)
  {
  }

  lemma StepToolcallSame(a: Message, b: Message, e: Event, t: real, u: real, parse: Parser)
    requires SameMessage(a, b) && (e.ToolcallDelta? || e.ToolcallEnd?)
    ensures var x, y := StepToolcall(a, e, BlockAt(a.content, e.index), t, parse), StepToolcall(b, e, BlockAt(b.content, e.index), u, parse);
      x.1 == y.1 && SameMessage(x.0, y.0)
  {
    hide Put, SameContent, Settled;
    SameAt(a.content, b.content, e.index);
    var p, q := BlockAt(a.content, e.index), BlockAt(b.content, e.index);
    if p.Some? && p.value.ToolCallBlock? {
      if e.ToolcallEnd? {
        SamePut(a.content, b.content, e.index, Final(p.value, parse), Final(q.value, parse));
      } else {
        var json := Joined(p.value.partialJson, e.delta);
        var x, y := p.value.(partialJson := Some(json)), q.value.(partialJson := Some(json));
        SamePut(a.content, b.content, e.index, x, y);
        SameSettled(Put(a.content, e.index, x), Put(b.content, e.index, y), parse);
        SameRefl(Settled(Put(a.content, e.index, x), parse));
        SamePut(a.content, b.content, e.index, WithDelta(p.value, e.delta, t, parse), WithDelta(q.value, e.delta, u, parse));
      }
    }
  }

  /** One event, at any two times: the same outcome, and messages that still agree. */
  lemma StepSame(a: Message, b: Message, e: Event, t: real, u: real, parse: Parser)
    requires SameMessage(a, b)
    ensures Step(a, e, t, parse).1 == Step(b, e, u, parse).1
    ensures SameMessage(Step(a, e, t, parse).0, Step(b, e, u, parse).0)
  {
    hide Put, SameContent, Settled, StepToolcall;
    match e
    case Start =>
    case TextStart(i) => SamePut(a.content, b.content, i, TextBlock("", None), TextBlock("", None));
    case TextDelta(i, delta) =>
      SameAt(a.content, b.content, i);
      var p := BlockAt(a.content, i);
      if p.Some? && p.value.TextBlock? {
        var x := p.value.(text := p.value.text + delta);
        SamePut(a.content, b.content, i, x, x);
      }
    case TextEnd(i, signature) =>
      SameAt(a.content, b.content, i);
      var p := BlockAt(a.content, i);
      if p.Some? && p.value.TextBlock? {
        var x := p.value.(textSignature := signature);
        SamePut(a.content, b.content, i, x, x);
      }
    case ThinkingStart(i) => SamePut(a.content, b.content, i, ThinkingBlock("", None), ThinkingBlock("", None));
    case ThinkingDelta(i, delta) =>
      SameAt(a.content, b.content, i);
      var p := BlockAt(a.content, i);
      if p.Some? && p.value.ThinkingBlock? {
        var x := p.value.(thinking := p.value.thinking + delta);
        SamePut(a.content, b.content, i, x, x);
      }
    case ThinkingEnd(i, signature) =>
      SameAt(a.content, b.content, i);
      var p := BlockAt(a.content, i);
      if p.Some? && p.value.ThinkingBlock? {
        var x := p.value.(thinkingSignature := signature);
        SamePut(a.content, b.content, i, x, x);
      }
    case ToolcallStart(i, id, name) =>
      var x := ToolCallBlock(id, name, NO_ARGS, Some(""), Some(0.0));
      SamePut(a.content, b.content, i, x, x);
    case ToolcallDelta(_, _) => StepToolcallSame(a, b, e, t, u, parse);
    case ToolcallEnd(_) => StepToolcallSame(a, b, e, t, u, parse);
    case Done(_, _) =>
      SameSettled(a.content, b.content, parse);
      SameRefl(Settled(a.content, parse));
    case Error(_, _, _) =>
      SameSettled(a.content, b.content, parse);
      SameRefl(Settled(a.content, parse));
  }

  /** The events of a stream, read at the times of a clock. */
  function Run(m: Message, events: seq<Event>, clock: nat -> real, parse: Parser): Message {
    if events == [] then m
    else
      var last := |events| - 1;
      Step(Run(m, events[..last], clock, parse), events[last], clock(last), parse).0
  }

  function OutcomeOf(m: Message, events: seq<Event>, k: nat, clock: nat -> real, parse: Parser): Outcome
    requires k < |events|
  {
    Step(Run(m, events[..k], clock, parse), events[k], clock(k), parse).1
  }

  lemma {:induction false} RunSame(m: Message, events: seq<Event>, c: nat -> real, d: nat -> real, parse: Parser)
    ensures SameMessage(Run(m, events, c, parse), Run(m, events, d, parse))
  {
    hide Step, SameMessage;
    if events == [] {
      SameStart(m);
    } else {
      var last := |events| - 1;
      RunSame(m, events[..last], c, d, parse);
      StepSame(Run(m, events[..last], c, parse), Run(m, events[..last], d, parse), events[last], c(last), d(last), parse);
    }
  }

  lemma SameStart(m: Message)
    ensures SameMessage(m, m)
  {
    SameRefl(m.content);
  }

  /** For every two clocks: every event comes to the same thing, completed calls with their
      arguments included, and the finalized message is the same. */
  lemma ClockIndependent(m: Message, events: seq<Event>, c: nat -> real, d: nat -> real, parse: Parser)
    ensures forall k: nat | k < |events| :: OutcomeOf(m, events, k, c, parse) == OutcomeOf(m, events, k, d, parse)
    ensures Settled(Run(m, events, c, parse).content, parse) == Settled(Run(m, events, d, parse).content, parse)
  {
    hide Step, Settled, Run;
    forall k: nat | k < |events|
      ensures OutcomeOf(m, events, k, c, parse) == OutcomeOf(m, events, k, d, parse)
    {
      RunSame(m, events[..k], c, d, parse);
      StepSame(Run(m, events[..k], c, parse), Run(m, events[..k], d, parse), events[k], c(k), d(k), parse);
    }
    RunSame(m, events, c, d, parse);
    SameSettled(Run(m, events, c, parse).content, Run(m, events, d, parse).content, parse);
  }

  // ---------------------------------------------------------------------------
  // A call gets the parse of all its deltas

  /** All argument text received for a content index. */
  function Received(events: seq<Event>, c: nat): string {
    if events == [] then ""
    else
      var e := events[|events| - 1];
      Received(events[..|events| - 1], c) + if e.ToolcallDelta? && e.index == c then e.delta else ""
  }

  /** The event leaves the call at index `c` open: it is one of its deltas, or concerns another block. */
  predicate KeepsOpen(e: Event, c: nat) {
    match e
    case Start => true
    case ToolcallDelta(_, _) => true
    case Done(_, _) => false
    case Error(_, _, _) => false
    case _ => e.index != c
  }

  predicate OpenCall(b: Option<Block>, id: string, name: string, json: string) {
    b.Some? && b.value.ToolCallBlock? && b.value.id == id && b.value.name == name && b.value.partialJson == Some(json) && b.value.lastParseAt.Some?
  }

  lemma StepKeepsOpen(m: Message, e: Event, now: real, parse: Parser, c: nat, id: string, name: string, json: string)
    requires KeepsOpen(e, c) && OpenCall(BlockAt(m.content, c), id, name, json)
    requires !Step(m, e, now, parse).1.Failed?
    ensures OpenCall(BlockAt(Step(m, e, now, parse).0.content, c), id, name, json + if e.ToolcallDelta? && e.index == c then e.delta else "")
  {
    hide Put, Settled;
    assert json + "" == json;
  }

  lemma {:induction false} CallStaysOpen(m: Message, events: seq<Event>, clock: nat -> real, parse: Parser, c: nat,
      id: string, name: string)
    requires OpenCall(BlockAt(m.content, c), id, name, "")
    requires forall k | 0 <= k < |events| :: KeepsOpen(events[k], c)
    requires forall k: nat | k < |events| :: !OutcomeOf(m, events, k, clock, parse).Failed?
    ensures OpenCall(BlockAt(Run(m, events, clock, parse).content, c), id, name, Received(events, c))
  {
    hide Step, OpenCall, KeepsOpen;
    if events != [] {
      var last: nat := |events| - 1;
      forall k: nat | k < last
        ensures OutcomeOf(m, events[..last], k, clock, parse) == OutcomeOf(m, events, k, clock, parse)
      {
        assert events[..last][..k] == events[..k];
      }
      CallStaysOpen(m, events[..last], clock, parse, c, id, name);
      assert !OutcomeOf(m, events, last, clock, parse).Failed?;
      StepKeepsOpen(Run(m, events[..last], clock, parse), events[last], clock(last), parse, c, id, name, Received(events[..last], c));
    }
  }

  /** Whatever else is streamed meanwhile and whatever the clock, a tool call ends with the parse of
      all the argument text received for it, and without streaming fields. */
  lemma CallIsExact(m: Message, id: string, name: string, c: nat, events: seq<Event>, clock: nat -> real, parse: Parser,
      first: real, end: real)
    requires forall k | 0 <= k < |events| :: KeepsOpen(events[k], c)
    requires forall k: nat | k < |events| :: !OutcomeOf(Step(m, ToolcallStart(c, id, name), first, parse).0, events, k, clock, parse).Failed?
    ensures var open := Run(Step(m, ToolcallStart(c, id, name), first, parse).0, events, clock, parse);
      var (done, o) := Step(open, ToolcallEnd(c), end, parse);
      var call := ToolCallBlock(id, name, parse(Received(events, c)), None, None);
      o == CompletedCall(call) && BlockAt(done.content, c) == Some(call)
  {
    hide Run, KeepsOpen, Put, Step, OpenCall;
    var begun := Step(m, ToolcallStart(c, id, name), first, parse).0;
    CallStarts(m, c, id, name, first, parse);
    CallStaysOpen(begun, events, clock, parse, c, id, name);
    CallEnds(Run(begun, events, clock, parse), c, id, name, Received(events, c), end, parse);
  }

  lemma CallStarts(m: Message, c: nat, id: string, name: string, now: real, parse: Parser)
    ensures BlockAt(Step(m, ToolcallStart(c, id, name), now, parse).0.content, c) == Some(ToolCallBlock(id, name, NO_ARGS, Some(""), Some(0.0)))
    ensures OpenCall(BlockAt(Step(m, ToolcallStart(c, id, name), now, parse).0.content, c), id, name, "")
  {
    hide Put;
  }

  lemma CallEnds(m: Message, c: nat, id: string, name: string, json: string, now: real, parse: Parser)
    requires OpenCall(BlockAt(m.content, c), id, name, json)
    ensures var (done, o) := Step(m, ToolcallEnd(c), now, parse);
      var call := ToolCallBlock(id, name, parse(json), None, None);
      o == CompletedCall(call) && BlockAt(done.content, c) == Some(call)
  {
    hide Put;
  }

  /** More argument text fails the stream exactly when it makes the text received exceed the limit. */
  lemma CallOverflows(m: Message, id: string, name: string, c: nat, events: seq<Event>, clock: nat -> real, parse: Parser,
      first: real, now: real, delta: string)
    requires forall k | 0 <= k < |events| :: KeepsOpen(events[k], c)
    requires forall k: nat | k < |events| :: !OutcomeOf(Step(m, ToolcallStart(c, id, name), first, parse).0, events, k, clock, parse).Failed?
    ensures var open := Run(Step(m, ToolcallStart(c, id, name), first, parse).0, events, clock, parse);
      Step(open, ToolcallDelta(c, delta), now, parse).1 ==
        if |Received(events, c) + delta| > MAX_STREAM_BUFFER_BYTES then Failed("error") else Passed
  {
    hide Run, KeepsOpen, Put, Step, OpenCall, Settled;
    var begun := Step(m, ToolcallStart(c, id, name), first, parse).0;
    CallStarts(m, c, id, name, first, parse);
    CallStaysOpen(begun, events, clock, parse, c, id, name);
    DeltaOverflows(Run(begun, events, clock, parse), c, id, name, Received(events, c), now, parse, delta);
  }

  lemma DeltaOverflows(m: Message, c: nat, id: string, name: string, json: string, now: real, parse: Parser, delta: string)
    requires OpenCall(BlockAt(m.content, c), id, name, json)
    ensures Step(m, ToolcallDelta(c, delta), now, parse).1 == if |json + delta| > MAX_STREAM_BUFFER_BYTES then Failed("error") else Passed
  {
    hide Put, Settled;
  }

  /** The time of the last parse, if the first `k` events led to it; none counts as time zero. */
  function ParsedAt(clock: nat -> real, k: nat): real {
    if k == 0 then 0.0 else clock(k - 1)
  }

  /** While a call is open its arguments are the parse of what had been received at some event `k`, and
      no argument text came since that was not within the same frame. */
  lemma {:induction false} ArgumentsAreRecent(m: Message, events: seq<Event>, clock: nat -> real, parse: Parser, c: nat,
      id: string, name: string) returns (k: nat)
    requires BlockAt(m.content, c) == Some(ToolCallBlock(id, name, NO_ARGS, Some(""), Some(0.0)))
    requires forall j | 0 <= j < |events| :: KeepsOpen(events[j], c)
    requires forall j: nat | j < |events| :: !OutcomeOf(m, events, j, clock, parse).Failed?
    ensures k <= |events| && BlockAt(Run(m, events, clock, parse).content, c) == Some(
      ToolCallBlock(id, name, if k == 0 then NO_ARGS else parse(Received(events[..k], c)), Some(Received(events, c)), Some(ParsedAt(clock, k))))
    ensures forall j | k <= j < |events| && events[j].ToolcallDelta? && events[j].index == c ::
      clock(j) - ParsedAt(clock, k) < TOOLCALL_PARSE_THROTTLE_MS
  {
    hide Step, KeepsOpen;
    if events == [] {
      return 0;
    }
    var last: nat := |events| - 1;
    forall j: nat | j < last
      ensures OutcomeOf(m, events[..last], j, clock, parse) == OutcomeOf(m, events, j, clock, parse)
    {
      assert events[..last][..j] == events[..j];
    }
    k := ArgumentsAreRecent(m, events[..last], clock, parse, c, id, name);
    assert !OutcomeOf(m, events, last, clock, parse).Failed?;
    assert events[..last][..k] == events[..k];
    assert Received(events[..last], c) + "" == Received(events[..last], c);
    var before := Run(m, events[..last], clock, parse);
    var b := BlockAt(before.content, c).value;
    DeltaIsParsed(before, events[last], clock(last), parse, c, b);
    if events[last].ToolcallDelta? && events[last].index == c && ParseDue(b.lastParseAt, clock(last)) {
      k := |events|;
      assert events[..k] == events;
    }
  }

  lemma DeltaIsParsed(m: Message, e: Event, now: real, parse: Parser, c: nat, b: Block)
    requires BlockAt(m.content, c) == Some(b) && b.ToolCallBlock? && b.partialJson.Some?
    requires KeepsOpen(e, c) && !Step(m, e, now, parse).1.Failed?
    ensures BlockAt(Step(m, e, now, parse).0.content, c) == Some(
      if !(e.ToolcallDelta? && e.index == c) then b
      else
        var json := b.partialJson.value + e.delta;
        if ParseDue(b.lastParseAt, now) then b.(partialJson := Some(json), arguments := parse(json), lastParseAt := Some(now))
        else b.(partialJson := Some(json)))
  {
    hide Put, Settled;
  }

  // ---------------------------------------------------------------------------
  // A text or thinking block holds all its deltas

  /** All text received for a content index, or all thinking. */
  function TextReceived(events: seq<Event>, c: nat, thinking: bool): string {
    if events == [] then ""
    else
      var e := events[|events| - 1];
      TextReceived(events[..|events| - 1], c, thinking) +
      if (if thinking then e.ThinkingDelta? else e.TextDelta?) && e.index == c then e.delta else ""
  }

  /** The event concerns no block, or another one. */
  predicate IsElsewhere(e: Event, c: nat) {
    e.Start? || e.Done? || e.Error? || e.index != c
  }

  function TextAs(thinking: bool, text: string, signature: Option<string>): Block {
    if thinking then ThinkingBlock(text, signature) else TextBlock(text, signature)
  }

  lemma StepKeepsText(m: Message, e: Event, now: real, parse: Parser, c: nat, thinking: bool, text: string)
    requires IsElsewhere(e, c) || e.TextDelta? || e.ThinkingDelta?
    requires BlockAt(m.content, c) == Some(TextAs(thinking, text, None))
    ensures BlockAt(Step(m, e, now, parse).0.content, c) ==
      Some(TextAs(thinking, text + (if (if thinking then e.ThinkingDelta? else e.TextDelta?) && e.index == c then e.delta else ""), None))
  {
    hide Put, Settled;
    assert text + "" == text;
  }

  lemma {:induction false} TextStaysOpen(m: Message, events: seq<Event>, clock: nat -> real, parse: Parser, c: nat, thinking: bool)
    requires BlockAt(m.content, c) == Some(TextAs(thinking, "", None))
    requires forall k | 0 <= k < |events| :: IsElsewhere(events[k], c) || events[k].TextDelta? || events[k].ThinkingDelta?
    ensures BlockAt(Run(m, events, clock, parse).content, c) == Some(TextAs(thinking, TextReceived(events, c, thinking), None))
  {
    hide Step, TextAs, IsElsewhere;
    if events != [] {
      var last: nat := |events| - 1;
      TextStaysOpen(m, events[..last], clock, parse, c, thinking);
      StepKeepsText(Run(m, events[..last], clock, parse), events[last], clock(last), parse, c, thinking, TextReceived(events[..last], c, thinking));
    }
  }

  /** Whatever is streamed to other blocks meanwhile and whatever the clock, a text block ends with all
      the text received for it, and the message holds that text and the signature sent. */
  lemma TextIsExact(m: Message, c: nat, events: seq<Event>, clock: nat -> real, parse: Parser, first: real, end: real, signature: Option<string>)
    requires forall k | 0 <= k < |events| :: IsElsewhere(events[k], c) || events[k].TextDelta? || events[k].ThinkingDelta?
    ensures var open := Run(Step(m, TextStart(c), first, parse).0, events, clock, parse);
      var (done, o) := Step(open, TextEnd(c, signature), end, parse);
      var text := TextReceived(events, c, false);
      o == Completed(text) && BlockAt(done.content, c) == Some(TextBlock(text, signature))
  {
    TextStaysOpen(Step(m, TextStart(c), first, parse).0, events, clock, parse, c, false);
    hide Run, IsElsewhere, Put;
  }

  /** So does a thinking block. */
  lemma ThinkingIsExact(m: Message, c: nat, events: seq<Event>, clock: nat -> real, parse: Parser, first: real, end: real, signature: Option<string>)
    requires forall k | 0 <= k < |events| :: IsElsewhere(events[k], c) || events[k].TextDelta? || events[k].ThinkingDelta?
    ensures var open := Run(Step(m, ThinkingStart(c), first, parse).0, events, clock, parse);
      var (done, o) := Step(open, ThinkingEnd(c, signature), end, parse);
      var text := TextReceived(events, c, true);
      o == Completed(text) && BlockAt(done.content, c) == Some(ThinkingBlock(text, signature))
  {
    TextStaysOpen(Step(m, ThinkingStart(c), first, parse).0, events, clock, parse, c, true);
    hide Run, IsElsewhere, Put;
  }

  /** What a block holds when it ends it holds to the end of the stream, unless something is sent for
      its index again. */
  lemma {:induction false} EndedBlockStays(m: Message, events: seq<Event>, clock: nat -> real, parse: Parser, c: nat)
    requires forall k | 0 <= k < |events| :: IsElsewhere(events[k], c)
    requires !IsOpen(m.content, c)
    ensures BlockAt(Run(m, events, clock, parse).content, c) == BlockAt(m.content, c)
  {
    hide Step, IsElsewhere, IsOpen;
    if events != [] {
      var last: nat := |events| - 1;
      EndedBlockStays(m, events[..last], clock, parse, c);
      var before := Run(m, events[..last], clock, parse);
      OpenByBlock(m.content, before.content, c);
      StepElsewhere(before, events[last], clock(last), parse, c);
    }
  }

  lemma OpenByBlock(a: seq<Option<Block>>, b: seq<Option<Block>>, c: nat)
    requires BlockAt(a, c) == BlockAt(b, c)
    ensures IsOpen(a, c) == IsOpen(b, c)
  {
  }

  lemma StepElsewhere(m: Message, e: Event, now: real, parse: Parser, c: nat)
    requires IsElsewhere(e, c) && !IsOpen(m.content, c)
    ensures BlockAt(Step(m, e, now, parse).0.content, c) == BlockAt(m.content, c)
  {
    hide Put;
  }

  // ---------------------------------------------------------------------------
  // How a stream ends

  /** After a terminal event no block carries streaming fields. */
  lemma TerminalIsFinal(m: Message, e: Event, now: real, parse: Parser)
    ensures Step(m, e, now, parse).1.Ended? || Step(m, e, now, parse).1.Failed? ==> AllFinal(Step(m, e, now, parse).0.content)
    ensures forall reason | Step(m, e, now, parse).1 in [Ended(reason), Failed(reason)] :: Step(m, e, now, parse).0.stopReason == reason
    ensures e.Done? || e.Error? ==> Step(m, e, now, parse).0.usage == e.usage
    ensures e.Error? ==> Step(m, e, now, parse).0.errorMessage == e.message
  {
    hide Put;
  }

  // ---------------------------------------------------------------------------
  // The partial message, changed in place

  class Partial {
    var content: seq<Option<Block>>
    var stopReason: string
    var errorMessage: Option<string>
    var usage: int

    ghost function State(): Message
      reads this
    {
      Message(content, stopReason, errorMessage, usage)
    }

    constructor ()
      ensures State() == Message([], "stop", None, 0)
    {
      content, stopReason, errorMessage, usage := [], "stop", None, 0;
    }

    method FinalizeOpenToolCalls(parse: Parser)
      modifies this`content
      ensures content == Settled(old(content), parse)
    {
      ghost var before := content;
      for i := 0 to |content|
        invariant |content| == |before|
        invariant forall j | 0 <= j < i :: content[j] == Settled(before, parse)[j]
        invariant forall j | i <= j < |content| :: content[j] == before[j]
      {
        if content[i].Some? && content[i].value.ToolCallBlock? {
          var carrier := content[i].value;
          if carrier.partialJson.Some? {
            carrier := carrier.(arguments := parse(carrier.partialJson.value));
          }
          carrier := carrier.(partialJson := None, lastParseAt := None);
          content := content[i := Some(carrier)];
        }
      }
    }

    method Fail(reason: string, message: Option<string>, parse: Parser)
      modifies this
      ensures State() == Message(Settled(old(content), parse), reason, message, old(usage))
    {
      FinalizeOpenToolCalls(parse);
      stopReason := reason;
      errorMessage := message;
    }

    method ProcessToolcallDelta(i: nat, delta: string, now: real, parse: Parser) returns (outcome: Outcome)
      modifies this
      ensures (State(), outcome) == StepToolcall(old(State()), ToolcallDelta(i, delta), BlockAt(old(content), i), now, parse)
    {
      hide Put, Settled;
      var b := BlockAt(content, i);
      if b.None? || !b.value.ToolCallBlock? {
        return Thrown;
      }
      var carrier := b.value;
      carrier := carrier.(partialJson := Some(Joined(carrier.partialJson, delta)));
      if |carrier.partialJson.value| > MAX_STREAM_BUFFER_BYTES {
        content := Put(content, i, carrier);
        Fail("error", Some("Proxy tool-call args exceeded max buffer"), parse);
        return Failed("error");
      }
      if ParseDue(carrier.lastParseAt, now) {
        carrier := carrier.(lastParseAt := Some(now));
        carrier := carrier.(arguments := parse(carrier.partialJson.value));
      }
      content := Put(content, i, carrier);
      return Passed;
    }

    method ProcessToolcallEnd(i: nat, now: real, parse: Parser) returns (outcome: Outcome)
      modifies this
      ensures (State(), outcome) == StepToolcall(old(State()), ToolcallEnd(i), BlockAt(old(content), i), now, parse)
    {
      hide Put;
      var b := BlockAt(content, i);
      if b.None? || !b.value.ToolCallBlock? {
        return Silent;
      }
      var carrier := b.value;
      if carrier.partialJson.Some? {
        carrier := carrier.(arguments := parse(carrier.partialJson.value));
      }
      carrier := carrier.(partialJson := None, lastParseAt := None);
      content := Put(content, i, carrier);
      return CompletedCall(carrier);
    }

    method ProcessProxyEvent(e: Event, now: real, parse: Parser) returns (outcome: Outcome)
      modifies this
      ensures (State(), outcome) == Step(old(State()), e, now, parse)
    {
      hide Put, Settled, StepToolcall;
      match e
      case Start => return Passed;
      case TextStart(i) =>
        content := Put(content, i, TextBlock("", None));
        return Passed;
      case TextDelta(i, delta) =>
        var b := BlockAt(content, i);
        if b.Some? && b.value.TextBlock? {
          content := Put(content, i, b.value.(text := b.value.text + delta));
          return Passed;
        }
        return Thrown;
      case TextEnd(i, signature) =>
        var b := BlockAt(content, i);
        if b.Some? && b.value.TextBlock? {
          content := Put(content, i, b.value.(textSignature := signature));
          return Completed(b.value.text);
        }
        return Thrown;
      case ThinkingStart(i) =>
        content := Put(content, i, ThinkingBlock("", None));
        return Passed;
      case ThinkingDelta(i, delta) =>
        var b := BlockAt(content, i);
        if b.Some? && b.value.ThinkingBlock? {
          content := Put(content, i, b.value.(thinking := b.value.thinking + delta));
          return Passed;
        }
        return Thrown;
      case ThinkingEnd(i, signature) =>
        var b := BlockAt(content, i);
        if b.Some? && b.value.ThinkingBlock? {
          content := Put(content, i, b.value.(thinkingSignature := signature));
          return Completed(b.value.thinking);
        }
        return Thrown;
      case ToolcallStart(i, id, name) =>
        content := Put(content, i, ToolCallBlock(id, name, NO_ARGS, Some(""), Some(0.0)));
        return Passed;
      case ToolcallDelta(i, delta) => outcome := ProcessToolcallDelta(i, delta, now, parse);
      case ToolcallEnd(i) => outcome := ProcessToolcallEnd(i, now, parse);
      case Done(reason, used) =>
        FinalizeOpenToolCalls(parse);
        stopReason := reason;
        usage := used;
        return Ended(reason);
      case Error(reason, message, used) =>
        Fail(reason, message, parse);
        usage := used;
        return Failed(reason);
    }
  }

  // ---------------------------------------------------------------------------
  // The read loop

  /** What the loop reads: an event; a line, or a run of bytes without a line end, over the limit;
      or a payload that cannot be parsed. */
  datatype Line = Data(event: Event) | Oversized | Malformed

  /** How the body ends, if nothing stops the reading before: the connection closes, the user
      aborts, or reading fails. */
  datatype Ending = Closed | Aborted | Broken

  predicate IsTerminal(o: Outcome) {
    o.Ended? || o.Failed?
  }

  function Terminals(pushed: seq<Outcome>): nat {
    if pushed == [] then 0 else Terminals(pushed[..|pushed| - 1]) + if IsTerminal(pushed[|pushed| - 1]) then 1 else 0
  }

  lemma OneMorePushed(pushed: seq<Outcome>, o: Outcome)
    ensures Terminals(pushed + [o]) == Terminals(pushed) + if IsTerminal(o) then 1 else 0
  {
    assert (pushed + [o])[..|pushed|] == pushed;
  }

  /** The server sends nothing after `done`. */
  predicate DoneIsLast(lines: seq<Line>) {
    forall i | 0 <= i < |lines| - 1 :: !(lines[i].Data? && lines[i].event.Done?)
  }

  /** Where the reading stands: the message, what was pushed, and whether it stopped by itself or
      by an exception. */
  datatype Progress = Progress(message: Message, pushed: seq<Outcome>, stopped: bool, threw: bool)

  /** One more line: an event is processed and what it comes to is pushed, unless it is nothing or
      an exception; a failure ends the reading. */
  function AfterLine(p: Progress, line: Line, now: real, parse: Parser): Progress {
    if p.stopped || p.threw then p
    else match line
      case Malformed => p.(threw := true)
      case Oversized =>
        var m := p.message.(content := Settled(p.message.content, parse), stopReason := "error", errorMessage := Some("Proxy stream exceeded max line buffer"));
        Progress(m, p.pushed + [Failed("error")], true, false)
      case Data(e) =>
        var (m, o) := Step(p.message, e, now, parse);
        Progress(m, if o.Silent? || o.Thrown? then p.pushed else p.pushed + [o], o.Failed?, o.Thrown?)
  }

  function AfterLines(m: Message, lines: seq<Line>, clock: nat -> real, parse: Parser): Progress {
    if lines == [] then Progress(m, [], false, false)
    else
      var last := |lines| - 1;
      AfterLine(AfterLines(m, lines[..last], clock, parse), lines[last], clock(last), parse)
  }

  /** The server sending nothing after `done`, there is at most one terminal event, last, and
      after it a final message. */
  ghost predicate Reading(pushed: seq<Outcome>, content: seq<Option<Block>>) {
    && Terminals(pushed) <= 1
    && (Terminals(pushed) == 1 ==> pushed != [] && IsTerminal(pushed[|pushed| - 1]) && AllFinal(content))
  }

  lemma PushedMore(pushed: seq<Outcome>, content: seq<Option<Block>>, o: Outcome)
    requires Terminals(pushed) == 0 && (IsTerminal(o) ==> AllFinal(content))
    ensures Reading(pushed + [o], content) && Terminals(pushed + [o]) == if IsTerminal(o) then 1 else 0
  {
    OneMorePushed(pushed, o);
  }

  lemma SettledIsFinal(content: seq<Option<Block>>, parse: Parser)
    ensures AllFinal(Settled(content, parse))
  {
  }

  /** While lines are read, if `done` is the last: what was pushed ends with the only terminal
      event, if there is one, and nothing is read after it. */
  lemma {:induction false} LinesAreRead(m: Message, lines: seq<Line>, clock: nat -> real, parse: Parser)
    requires DoneIsLast(lines)
    ensures var p := AfterLines(m, lines, clock, parse);
      Reading(p.pushed, p.message.content) && (p.threw ==> Terminals(p.pushed) == 0)
    ensures var p := AfterLines(m, lines, clock, parse);
      Terminals(p.pushed) == 1 ==> p.stopped || (lines != [] && IsDone(lines[|lines| - 1]))
  {
    hide Reading, Terminals, AllFinal, Step;
    if lines == [] {
      NothingPushed(m.content);
    } else {
      var last := |lines| - 1;
      LinesAreRead(m, lines[..last], clock, parse);
      assert last > 0 ==> !IsDone(lines[last - 1]);
      LineIsRead(AfterLines(m, lines[..last], clock, parse), lines[last], clock(last), parse);
    }
  }

  predicate IsDone(line: Line) {
    line.Data? && line.event.Done?
  }

  lemma LineIsRead(p: Progress, line: Line, now: real, parse: Parser)
    requires Reading(p.pushed, p.message.content) && (p.threw ==> Terminals(p.pushed) == 0)
    requires Terminals(p.pushed) == 1 ==> p.stopped
    ensures var q := AfterLine(p, line, now, parse);
      && Reading(q.pushed, q.message.content) && (q.threw ==> Terminals(q.pushed) == 0)
      && (Terminals(q.pushed) == 1 ==> q.stopped || IsDone(line))
  {
    AtMostOne(p.pushed, p.message.content);
    hide Reading, AllFinal, Terminals, Settled;
    if !p.stopped && !p.threw {
      match line
      case Malformed =>
      case Oversized =>
        var content := Settled(p.message.content, parse);
        SettledIsFinal(p.message.content, parse);
        PushedMore(p.pushed, content, Failed("error"));
      case Data(e) =>
        TerminalIsFinal(p.message, e, now, parse);
        EndedByDone(p.message, e, now, parse);
        var (m, o) := Step(p.message, e, now, parse);
        hide Step;
        if o.Silent? || o.Thrown? {
          NoneTerminal(p.pushed, m.content);
        } else {
          PushedMore(p.pushed, m.content, o);
        }
    }
  }

  lemma AtMostOne(pushed: seq<Outcome>, content: seq<Option<Block>>)
    requires Reading(pushed, content)
    ensures Terminals(pushed) <= 1
  {
  }

  /** The end of the reading: an exception, an abort or a break pushes a failure; so does an end
      without any terminal event. */
  predicate EndsInFailure(p: Progress, ending: Ending) {
    p.threw || ending.Aborted? || (ending.Broken? && !p.stopped) || Terminals(p.pushed) == 0
  }

  /** Everything pushed over a whole stream: what the lines come to, and one failure more in the
      cases above. */
  function AllPushed(p: Progress, ending: Ending): seq<Outcome> {
    if EndsInFailure(p, ending) then p.pushed + [Failed(if ending.Aborted? then "aborted" else "error")] else p.pushed
  }

  lemma TerminalComes(p: Progress, ending: Ending)
    ensures Terminals(AllPushed(p, ending)) >= 1
    ensures EndsInFailure(p, ending) ==> Terminals(AllPushed(p, ending)) == Terminals(p.pushed) + 1
  {
    OneMorePushed(p.pushed, Failed(if ending.Aborted? then "aborted" else "error"));
  }

  lemma TerminalIsLast(p: Progress, ending: Ending)
    requires Reading(p.pushed, p.message.content) && (p.threw ==> Terminals(p.pushed) == 0)
    ensures var pushed := AllPushed(p, ending);
      && pushed != [] && IsTerminal(pushed[|pushed| - 1])
      && (EndsInFailure(p, ending) || AllFinal(p.message.content))
      && (Terminals(pushed) == 1 || (!ending.Closed? && Terminals(pushed) == 2 && |pushed| >= 2 && IsTerminal(pushed[|pushed| - 2])))
  {
    TerminalComes(p, ending);
    hide Terminals, AllFinal;
  }

  // ---------------------------------------------------------------------------
  // Events after `done`

  /** The block at index `i` is a tool call that carries streaming fields. */
  predicate IsOpen(content: seq<Option<Block>>, i: nat) {
    var b := BlockAt(content, i);
    b.Some? && b.value.ToolCallBlock? && (b.value.partialJson.Some? || b.value.lastParseAt.Some?)
  }

  lemma FinalIsNotOpen(content: seq<Option<Block>>)
    ensures AllFinal(content) <==> forall i: nat :: !IsOpen(content, i)
  {
    if forall i: nat :: !IsOpen(content, i) {
      forall i | 0 <= i < |content| && content[i].Some? && content[i].value.ToolCallBlock?
        ensures content[i].value.partialJson == None && content[i].value.lastParseAt == None
      {
        assert !IsOpen(content, i);
      }
    }
  }

  /** Whether the lines leave a call open at index `i`: a start or a delta opens it, also after its
      end; its end, another block put in its place, or `done` closes it. */
  predicate LeavesOpen(content: seq<Option<Block>>, lines: seq<Line>, i: nat) {
    if lines == [] then IsOpen(content, i)
    else
      var before := LeavesOpen(content, lines[..|lines| - 1], i);
      match lines[|lines| - 1]
      case Data(ToolcallStart(c, _, _)) => c == i || before
      case Data(ToolcallDelta(c, _)) => c == i || before
      case Data(ToolcallEnd(c)) => c != i && before
      case Data(TextStart(c)) => c != i && before
      case Data(ThinkingStart(c)) => c != i && before
      case Data(Done(_, _)) => false
      case _ => before
  }

  lemma StepOpens(m: Message, e: Event, now: real, parse: Parser, i: nat)
    requires !Step(m, e, now, parse).1.Failed? && !Step(m, e, now, parse).1.Thrown?
    ensures IsOpen(Step(m, e, now, parse).0.content, i) <==>
      match e
      case ToolcallStart(c, _, _) => c == i || IsOpen(m.content, i)
      case ToolcallDelta(c, _) => c == i || IsOpen(m.content, i)
      case ToolcallEnd(c) => c != i && IsOpen(m.content, i)
      case TextStart(c) => c != i && IsOpen(m.content, i)
      case ThinkingStart(c) => c != i && IsOpen(m.content, i)
      case Done(_, _) => false
      case _ => IsOpen(m.content, i)
  {
    hide Put, Settled;
    if e.Done? {
      SettledIsFinal(m.content, parse);
      FinalIsNotOpen(Settled(m.content, parse));
    }
  }

  /** While nothing fails, what is open is what the lines leave open; what fails is settled. */
  lemma {:induction false} OpenAfterLines(m: Message, lines: seq<Line>, clock: nat -> real, parse: Parser)
    ensures var p := AfterLines(m, lines, clock, parse);
      && (p.stopped ==> AllFinal(p.message.content))
      && (!p.stopped && !p.threw ==> forall i: nat :: IsOpen(p.message.content, i) <==> LeavesOpen(m.content, lines, i))
  {
    hide Step, IsOpen, AllFinal, Settled;
    if lines != [] {
      var last := |lines| - 1;
      OpenAfterLines(m, lines[..last], clock, parse);
      var p := AfterLines(m, lines[..last], clock, parse);
      if !p.stopped && !p.threw {
        SettledIsFinal(p.message.content, parse);
        OpenAfterLine(m, lines, p, clock(last), parse);
      }
    }
  }

  lemma OpenAfterLine(m: Message, lines: seq<Line>, p: Progress, now: real, parse: Parser)
    requires lines != [] && !p.stopped && !p.threw
    requires forall i: nat :: IsOpen(p.message.content, i) <==> LeavesOpen(m.content, lines[..|lines| - 1], i)
    ensures var q := AfterLine(p, lines[|lines| - 1], now, parse);
      && (q.stopped ==> AllFinal(q.message.content))
      && (!q.stopped && !q.threw ==> forall i: nat :: IsOpen(q.message.content, i) <==> LeavesOpen(m.content, lines, i))
  {
    var line := lines[|lines| - 1];
    SettledIsFinal(p.message.content, parse);
    if line.Data? {
      TerminalIsFinal(p.message, line.event, now, parse);
      var (next, o) := Step(p.message, line.event, now, parse);
      hide Step, IsOpen, AllFinal, Settled;
      if !o.Failed? && !o.Thrown? {
        forall i: nat
          ensures IsOpen(next.content, i) <==> LeavesOpen(m.content, lines, i)
        {
          StepOpens(p.message, line.event, now, parse, i);
        }
      }
    }
  }

  ghost predicate NothingLeftOpen(content: seq<Option<Block>>, lines: seq<Line>) {
    forall i: nat :: !LeavesOpen(content, lines, i)
  }

  lemma SameOpen(now: seq<Option<Block>>, content: seq<Option<Block>>, lines: seq<Line>)
    requires forall i: nat :: IsOpen(now, i) <==> LeavesOpen(content, lines, i)
    ensures AllFinal(now) <==> NothingLeftOpen(content, lines)
  {
    FinalIsNotOpen(now);
    hide IsOpen, LeavesOpen, AllFinal;
  }

  lemma OpenAtTheEnd(m: Message, lines: seq<Line>, clock: nat -> real, parse: Parser, ending: Ending)
    ensures var p := AfterLines(m, lines, clock, parse);
      && AllFinal(Settled(p.message.content, parse))
      && (!EndsInFailure(p, ending) ==>
           (AllFinal(p.message.content) <==> p.stopped || NothingLeftOpen(m.content, lines)))
  {
    hide AllFinal, IsOpen, AfterLines, LeavesOpen, Settled, Terminals, NothingLeftOpen;
    OpenAfterLines(m, lines, clock, parse);
    var p := AfterLines(m, lines, clock, parse);
    SettledIsFinal(p.message.content, parse);
    if !p.stopped && !p.threw {
      SameOpen(p.message.content, m.content, lines);
    }
  }

  /** A call that starts after `done`, on a connection that then closes, keeps its streaming fields. */
  lemma CallAfterDoneStaysOpen(m: Message, reason: string, usage: int, id: string, name: string, clock: nat -> real, parse: Parser)
    ensures var p := AfterLines(m, [Data(Done(reason, usage)), Data(ToolcallStart(0, id, name))], clock, parse);
      !EndsInFailure(p, Closed) && !AllFinal(p.message.content)
  {
    var first, second := Data(Done(reason, usage)), Data(ToolcallStart(0, id, name));
    var lines := [first, second];
    var done := Progress(m.(content := Settled(m.content, parse), stopReason := reason, usage := usage), [Ended(reason)], false, false);
    var call := ToolCallBlock(id, name, NO_ARGS, Some(""), Some(0.0));
    var p := Progress(done.message.(content := Put(done.message.content, 0, call)), [Ended(reason)] + [Passed], false, false);
    OneDone(reason);
    assert IsOpen(p.message.content, 0);
    FinalIsNotOpen(p.message.content);
    hide Put, Settled, Terminals, AllFinal, IsOpen;
    AfterTwo(m, first, second, clock, parse);
    hide AfterLines;
    assert [] + [Ended(reason)] == [Ended(reason)];
    assert AfterLine(Progress(m, [], false, false), first, clock(0), parse) == done;
    assert AfterLine(done, second, clock(1), parse) == p;
  }

  lemma AfterTwo(m: Message, first: Line, second: Line, clock: nat -> real, parse: Parser)
    ensures AfterLines(m, [first, second], clock, parse) ==
      AfterLine(AfterLine(Progress(m, [], false, false), first, clock(0), parse), second, clock(1), parse)
  {
    hide AfterLine;
    assert [first][..0] == [] && [first, second][..1] == [first];
    assert AfterLines(m, [first], clock, parse) == AfterLine(Progress(m, [], false, false), first, clock(0), parse);
  }

  lemma OneDone(reason: string)
    ensures Terminals([Ended(reason)] + [Passed]) == 1
  {
    OneMorePushed([], Ended(reason));
    OneMorePushed([Ended(reason)], Passed);
    assert [] + [Ended(reason)] == [Ended(reason)];
  }

  /** The consumer always gets a terminal event. When the server sends nothing after `done`, the
      last event is terminal and no block then carries streaming fields; there is exactly one
      terminal event unless the body breaks off or the user aborts after one was pushed. */
  method ReadStream(partial: Partial, lines: seq<Line>, ending: Ending, clock: nat -> real, parse: Parser) returns (pushed: seq<Outcome>)
    modifies partial
    ensures var p := AfterLines(old(partial.State()), lines, clock, parse);
      && pushed == AllPushed(p, ending)
      && if EndsInFailure(p, ending) then partial.content == Settled(p.message.content, parse) else partial.State() == p.message
    ensures Terminals(pushed) >= 1
    ensures AllFinal(partial.content) <==>
      var p := AfterLines(old(partial.State()), lines, clock, parse);
      EndsInFailure(p, ending) || p.stopped || NothingLeftOpen(old(partial.content), lines)
    ensures DoneIsLast(lines) ==> IsTerminal(pushed[|pushed| - 1]) && AllFinal(partial.content)
    ensures DoneIsLast(lines) ==>
      Terminals(pushed) == 1 || (!ending.Closed? && Terminals(pushed) == 2 && |pushed| >= 2 && IsTerminal(pushed[|pushed| - 2]))
  {
    ghost var p := AfterLines(partial.State(), lines, clock, parse);
    TerminalComes(p, ending);
    OpenAtTheEnd(partial.State(), lines, clock, parse, ending);
    if DoneIsLast(lines) {
      LinesAreRead(partial.State(), lines, clock, parse);
      TerminalIsLast(p, ending);
    }
    hide Terminals, IsTerminal, AllFinal, AfterLines, Reading, DoneIsLast, Settled, NothingLeftOpen;
    var sawTerminal, stopped, threw;
    pushed, sawTerminal, stopped, threw := ReadLines(partial, lines, clock, parse);
    if threw || ending.Aborted? || (ending.Broken? && !stopped) {
      pushed := PushFailure(partial, pushed, if ending.Aborted? then "aborted" else "error", parse);
    } else if !sawTerminal {
      pushed := PushFailure(partial, pushed, "error", parse);
    }
  }

  method PushFailure(partial: Partial, before: seq<Outcome>, reason: string, parse: Parser) returns (pushed: seq<Outcome>)
    modifies partial
    ensures pushed == before + [Failed(reason)] && Terminals(pushed) == Terminals(before) + 1
    ensures partial.content == Settled(old(partial.content), parse) && AllFinal(partial.content)
  {
    SettledIsFinal(partial.content, parse);
    partial.Fail(reason, Some(reason), parse);
    OneMorePushed(before, Failed(reason));
    pushed := before + [Failed(reason)];
  }

  method ReadLines(partial: Partial, lines: seq<Line>, clock: nat -> real, parse: Parser)
    returns (pushed: seq<Outcome>, sawTerminal: bool, stopped: bool, threw: bool)
    modifies partial
    ensures Progress(partial.State(), pushed, stopped, threw) == AfterLines(old(partial.State()), lines, clock, parse)
    ensures sawTerminal <==> Terminals(pushed) >= 1
  {
    hide Step, Terminals, AfterLines;
    ghost var start := partial.State();
    pushed, sawTerminal, stopped, threw := [], false, false, false;
    NothingPushed(partial.content);
    NothingYet(start, clock, parse);
    assert lines[..0] == [];
    for i := 0 to |lines|
      invariant sawTerminal <==> Terminals(pushed) >= 1
      invariant Progress(partial.State(), pushed, false, false) == AfterLines(start, lines[..i], clock, parse)
      invariant !stopped && !threw
    {
      OneMoreLine(start, lines, i, clock, parse);
      ghost var p := Progress(partial.State(), pushed, false, false);
      match lines[i]
      case Malformed =>
        threw := true;
        AtRest(start, lines, i + 1, clock, parse);
        return;
      case Oversized =>
        partial.Fail("error", Some("Proxy stream exceeded max line buffer"), parse);
        OneMorePushed(pushed, Failed("error"));
        pushed, sawTerminal, stopped := pushed + [Failed("error")], true, true;
        AtRest(start, lines, i + 1, clock, parse);
        return;
      case Data(e) =>
        var outcome := partial.ProcessProxyEvent(e, clock(i), parse);
        if outcome.Thrown? {
          threw := true;
          AtRest(start, lines, i + 1, clock, parse);
          return;
        }
        if !outcome.Silent? {
          OneMorePushed(pushed, outcome);
          pushed := pushed + [outcome];
          sawTerminal := sawTerminal || IsTerminal(outcome);
          if outcome.Failed? {
            stopped := true;
            AtRest(start, lines, i + 1, clock, parse);
            return;
          }
        }
    }
    assert lines[..|lines|] == lines;
  }

  lemma NothingYet(m: Message, clock: nat -> real, parse: Parser)
    ensures AfterLines(m, [], clock, parse) == Progress(m, [], false, false)
  {
  }

  lemma OneMoreLine(m: Message, lines: seq<Line>, i: nat, clock: nat -> real, parse: Parser)
    requires i < |lines|
    ensures AfterLines(m, lines[..i + 1], clock, parse) == AfterLine(AfterLines(m, lines[..i], clock, parse), lines[i], clock(i), parse)
  {
    assert lines[..i + 1][..i] == lines[..i];
  }

  /** Once the reading ended, the lines left over change nothing. */
  lemma {:induction false} AtRest(m: Message, lines: seq<Line>, i: nat, clock: nat -> real, parse: Parser)
    requires i <= |lines|
    ensures var p := AfterLines(m, lines[..i], clock, parse);
      p.stopped || p.threw ==> AfterLines(m, lines, clock, parse) == p
    decreases |lines| - i
  {
    hide AfterLines;
    if i < |lines| {
      OneMoreLine(m, lines, i, clock, parse);
      AtRest(m, lines, i + 1, clock, parse);
    } else {
      assert lines[..i] == lines;
    }
  }

  lemma EndedByDone(m: Message, e: Event, now: real, parse: Parser)
    ensures Step(m, e, now, parse).1.Ended? ==> e.Done?
  {
  }

  lemma NoneTerminal(pushed: seq<Outcome>, content: seq<Option<Block>>)
    requires Terminals(pushed) == 0
    ensures Reading(pushed, content)
  {
  }

  lemma NothingPushed(content: seq<Option<Block>>)
    ensures Terminals([]) == 0 && Reading([], content)
  {
  }
}
