/** Speculative tool execution during the stream, and the registry of per-tool abort controllers. */
module Speculations {
  import opened Options
  import opened AgentEvents
  import opened ToolBatches

  // ---------------------------------------------------------------------------
  // The registry: the same id may be registered twice, so a release compares first

  type Token = nat

  datatype RegistryOp = Register(id: string, token: Token) | Release(id: string, token: Token)

  function Apply(controllers: map<string, Token>, op: RegistryOp): map<string, Token> {
    match op
    case Register(id, token) => controllers[id := token]
    case Release(id, token) =>
      if id in controllers && controllers[id] == token then controllers - {id} else controllers
  }

  function ApplyAll(ops: seq<RegistryOp>): map<string, Token> {
    if ops == [] then map[] else Apply(ApplyAll(ops[..|ops| - 1]), ops[|ops| - 1])
  }

  /** `token` was registered at position `i`, and since then its id was neither registered
      again nor released by its owner. */
  predicate LiveSince(ops: seq<RegistryOp>, id: string, token: Token, i: nat) {
    && i < |ops| && ops[i] == Register(id, token)
    && forall j | i < j < |ops| :: ops[j].id == id ==> ops[j].Release? && ops[j].token != token
  }

  /** The registry reaches a controller exactly as long as it is live: releases by earlier
      owners of the same id never unregister it. */
  lemma {:induction false} RegistryHoldsLiveController(ops: seq<RegistryOp>, id: string, token: Token)
    ensures id in ApplyAll(ops) && ApplyAll(ops)[id] == token <==> exists i :: LiveSince(ops, id, token, i)
  {
    if ops != [] {
      var before, last := ops[..|ops| - 1], ops[|ops| - 1];
      RegistryHoldsLiveController(before, id, token);
      LiveBefore(ops, id, token);
      if last == Register(id, token) {
        assert LiveSince(ops, id, token, |ops| - 1);
      }
    }
  }

  lemma LiveBefore(ops: seq<RegistryOp>, id: string, token: Token)
    requires ops != []
    ensures var before, last := ops[..|ops| - 1], ops[|ops| - 1];
      var keeps := last.id == id ==> last.Release? && last.token != token;
      (exists i :: LiveSince(ops, id, token, i)) <==>
        last == Register(id, token) || (keeps && exists i :: LiveSince(before, id, token, i))
  {
    var before, last := ops[..|ops| - 1], ops[|ops| - 1];
    forall i: nat | i < |before| && LiveSince(ops, id, token, i)
      ensures LiveSince(before, id, token, i)
    {
      forall j | i < j < |before|
        ensures before[j].id == id ==> before[j].Release? && before[j].token != token
      {
        assert before[j] == ops[j];
      }
    }
    forall i: nat | LiveSince(before, id, token, i) && (last.id == id ==> last.Release? && last.token != token)
      ensures LiveSince(ops, id, token, i)
    {
      forall j | i < j < |ops|
        ensures ops[j].id == id ==> ops[j].Release? && ops[j].token != token
      {
        assert j < |before| ==> before[j] == ops[j];
      }
    }
    if last == Register(id, token) {
      assert LiveSince(ops, id, token, |ops| - 1);
    }
  }

  ghost predicate AtMostOnce(tokens: multiset<Token>) {
    forall token :: tokens[token] <= 1
  }

  lemma OnceMore(tokens: multiset<Token>, token: Token)
    requires AtMostOnce(tokens) && token !in tokens
    ensures AtMostOnce(tokens + multiset{token})
  {
  }

  /** What became of speculations, one item for each time it happened. */
  datatype Ledger = Ledger(started: multiset<Token>, consumed: multiset<Token>, discarded: multiset<Token>) {
    /** Every speculation started once, and was then consumed or discarded, once and not both. */
    ghost predicate Closed() {
      started == consumed + discarded && AtMostOnce(started)
    }

    function Plus(more: Ledger): Ledger {
      Ledger(started + more.started, consumed + more.consumed, discarded + more.discarded)
    }

    function Start(token: Token): Ledger {
      this.(started := started + multiset{token})
    }

    function Consume(token: Token): Ledger {
      this.(consumed := consumed + multiset{token})
    }

    function Discard(token: Token): Ledger {
      this.(discarded := discarded + multiset{token})
    }

    /** What was entered since the ledger was `before`. */
    function Since(before: Ledger): Ledger {
      Ledger(started - before.started, consumed - before.consumed, discarded - before.discarded)
    }
  }

  /** Between the two ledgers only entries were made, and they close. */
  ghost predicate ClosedBetween(before: Ledger, after: Ledger) {
    && before.started <= after.started && before.consumed <= after.consumed && before.discarded <= after.discarded
    && after.Since(before).Closed()
  }

  /** An entry goes into the own part as into the whole. */
  lemma EntryOfOwn(opening: Ledger, own: Ledger, token: Token)
    ensures opening.Plus(own).Start(token) == opening.Plus(own.Start(token))
    ensures opening.Plus(own).Consume(token) == opening.Plus(own.Consume(token))
    ensures opening.Plus(own).Discard(token) == opening.Plus(own.Discard(token))
  {
  }

  lemma ClosedNow(l: Ledger)
    ensures ClosedBetween(l, l)
  {
  }

  lemma ClosedWith(before: Ledger, more: Ledger)
    requires more.Closed()
    ensures ClosedBetween(before, before.Plus(more))
  {
    assert before.Plus(more).Since(before) == more;
  }

  lemma ClosedOn(a: Ledger, b: Ledger, c: Ledger)
    requires ClosedBetween(a, b) && ClosedBetween(b, c) && AtMostOnce(c.started)
    ensures ClosedBetween(a, c)
  {
    hide AtMostOnce;
    PartsAdd(a.started, b.started, c.started);
    PartsAdd(a.consumed, b.consumed, c.consumed);
    PartsAdd(a.discarded, b.discarded, c.discarded);
    StillOnce(a.started, c.started);
  }

  lemma PartsAdd(a: multiset<Token>, b: multiset<Token>, c: multiset<Token>)
    requires a <= b <= c
    ensures a <= c && c - a == (c - b) + (b - a)
  {
  }

  lemma StillOnce(before: multiset<Token>, after: multiset<Token>)
    requires AtMostOnce(after)
    ensures AtMostOnce(after - before)
  {
  }

  class AbortRegistry {
    var controllers: map<string, Token>
    var nextToken: Token
    var tripped: set<Token>
    ghost var history: seq<RegistryOp>
    /** What became of all speculations so far, of whatever stream attempt. */
    ghost var speculations: Ledger
    /** How many stream attempts had a controller for their speculations. */
    ghost var attempts: nat

    ghost predicate Valid()
      reads this
    {
      && controllers == ApplyAll(history) && (forall id | id in controllers :: controllers[id] < nextToken)
      && (forall token | token in speculations.started :: token < nextToken) && AtMostOnce(speculations.started)
    }

    constructor ()
      ensures Valid() && history == [] && nextToken == 0
      ensures speculations == Ledger(multiset{}, multiset{}, multiset{}) && attempts == 0
    {
      controllers, nextToken, tripped, history := map[], 0, {}, [];
      speculations, attempts := Ledger(multiset{}, multiset{}, multiset{}), 0;
    }

    method Register(id: string) returns (token: Token)
      requires Valid()
      modifies this`controllers, this`nextToken, this`history
      ensures Valid() && token == old(nextToken) && nextToken == token + 1
      ensures history == old(history) + [RegistryOp.Register(id, token)] && tripped == old(tripped)
    {
      token := nextToken;
      nextToken := nextToken + 1;
      controllers := controllers[id := token];
      history := history + [RegistryOp.Register(id, token)];
    }

    /** Compare and delete. */
    method Release(id: string, token: Token)
      requires Valid()
      modifies this`controllers, this`history
      ensures Valid() && history == old(history) + [RegistryOp.Release(id, token)]
    {
      if id in controllers && controllers[id] == token {
        controllers := controllers - {id};
      }
      history := history + [RegistryOp.Release(id, token)];
    }

    ghost method NoteStarted(token: Token)
      requires Valid() && token < nextToken && token !in speculations.started
      modifies this`speculations
      ensures Valid() && speculations == old(speculations).Start(token)
    {
      OnceMore(speculations.started, token);
      speculations := speculations.Start(token);
    }

    ghost method NoteConsumed(token: Token)
      modifies this`speculations
      ensures speculations == old(speculations).Consume(token)
    {
      speculations := speculations.Consume(token);
    }

    ghost method NoteDiscarded(token: Token)
      modifies this`speculations
      ensures speculations == old(speculations).Discard(token)
    {
      speculations := speculations.Discard(token);
    }

    /** Trips whatever controller the id currently reaches. */
    method Abort(id: string)
      modifies this`tripped
      ensures tripped == old(tripped) + if id in controllers then {controllers[id]} else {}
    {
      if id in controllers {
        tripped := tripped + {controllers[id]};
      }
    }
  }

  // ---------------------------------------------------------------------------
  // What one call does when it is not speculated

  /** What preparing a call comes to: a result at once, or the call as rewritten and the
      arguments it runs with, perhaps with a note that they were repaired. */
  datatype Preparation =
    | Immediate(result: Outcome, skipHints: bool)
    | Prepared(call: ToolCall, args: string, repairNote: Option<string>)

  datatype Hint = Hint(note: string, content: string)

  /** A value and the events emitted on the way to it. */
  datatype Staged<+T> = Staged(notes: seq<string>, value: T)

  /** What tools, guards, hooks and rules do. Nothing is known of them, except that the same call
      is treated the same whether it runs early or late. */
  datatype Behaviour = Behaviour(
    prepare: ToolCall -> Staged<Preparation>,
    execute: (ToolCall, string) -> Staged<Outcome>,
    hints: (ToolCall, Outcome) -> Option<Hint>,
    annotate: (string, string) -> string,
    after: (ToolCall, string, Outcome) -> Outcome)

  function WithHints(b: Behaviour, call: ToolCall, result: Outcome): Staged<Outcome> {
    match b.hints(call, result)
    case None => Staged([], result)
    case Some(h) => Staged([h.note], result.(content := h.content))
  }

  function FinalImmediate(b: Behaviour, call: ToolCall, p: Preparation): Staged<Outcome>
    requires p.Immediate?
  {
    if p.result.isError && !p.skipHints then WithHints(b, call, p.result) else Staged([], p.result)
  }

  function FinalExecuted(b: Behaviour, p: Preparation, executed: Outcome): Staged<Outcome>
    requires p.Prepared?
  {
    var r := if executed.isError then WithHints(b, p.call, executed)
             else Staged([], if p.repairNote.Some? then executed.(content := b.annotate(executed.content, p.repairNote.value)) else executed);
    Staged(r.notes, b.after(p.call, p.args, r.value))
  }

  /** What the call emits between its start and its end, and how it ends. */
  function Unspeculated(b: Behaviour, call: ToolCall): Work {
    var p := b.prepare(call);
    if p.value.Immediate? then
      var f := FinalImmediate(b, call, p.value);
      Work(p.notes + f.notes, f.value)
    else
      var x := b.execute(p.value.call, p.value.args);
      var f := FinalExecuted(b, p.value, x.value);
      Work(p.notes + x.notes + f.notes, f.value)
  }

  /** Hints change only what an error says, an annotation only what a success says; the after-hook has the
      last word on whatever was executed, and on nothing else. */
  lemma CallRunsThrough(b: Behaviour, call: ToolCall) returns (r: Outcome)
    ensures var p, work := b.prepare(call), Unspeculated(b, call);
      match p.value
      case Immediate(result, skipHints) =>
        && r == result && (!result.isError || skipHints || b.hints(call, result).None? ==> work == Work(p.notes, result))
        && (result.isError && !skipHints && b.hints(call, result).Some? ==>
              var hint := b.hints(call, result).value; work == Work(p.notes + [hint.note], result.(content := hint.content)))
      case Prepared(call', args, repairNote) =>
        var x := b.execute(call', args);
        && r == x.value.(content := r.content) && work.outcome == b.after(call', args, r) && p.notes + x.notes <= work.notes
        && (x.value.isError && b.hints(call', x.value).Some? ==>
              var hint := b.hints(call', x.value).value; r.content == hint.content && work.notes == p.notes + x.notes + [hint.note])
        && (x.value.isError && b.hints(call', x.value).None? ==> r == x.value)
        && (!x.value.isError ==> work.notes == p.notes + x.notes)
        && (!x.value.isError ==> r.content == if repairNote.Some? then b.annotate(x.value.content, repairNote.value) else x.value.content)
  {
    var p := b.prepare(call);
    match p.value
    case Immediate(result, _) =>
      r := result;
    case Prepared(call', args, repairNote) =>
      var x := b.execute(call', args).value;
      r := if x.isError then WithHints(b, call', x).value
           else if repairNote.Some? then x.(content := b.annotate(x.content, repairNote.value)) else x;
  }

  /** A call that is executed has a controller of its own while it runs. */
  function OwnController(p: Preparation, call: ToolCall, token: Token): seq<RegistryOp> {
    if p.Prepared? then [RegistryOp.Register(call.id, token), RegistryOp.Release(call.id, token)] else []
  }

  /** One call as the executors run it themselves, under its own abort controller. */
  method RunCall(registry: AbortRegistry, b: Behaviour, call: ToolCall) returns (work: Work)
    requires registry.Valid()
    modifies registry`controllers, registry`nextToken, registry`history
    ensures registry.Valid() && registry.nextToken >= old(registry.nextToken) && work == Unspeculated(b, call)
    ensures registry.history == old(registry.history) + OwnController(b.prepare(call).value, call, old(registry.nextToken))
  {
    var p := b.prepare(call);
    if p.value.Immediate? {
      var f := FinalImmediate(b, call, p.value);
      return Work(p.notes + f.notes, f.value);
    }
    var token := registry.Register(call.id);
    var x := b.execute(p.value.call, p.value.args);
    var f := FinalExecuted(b, p.value, x.value);
    registry.Release(call.id, token);
    work := Work(p.notes + x.notes + f.notes, f.value);
  }

  // ---------------------------------------------------------------------------
  // What a speculative run of it records

  /** `executed` is absent when the preparation gave a result at once. */
  datatype Entry = Entry(call: ToolCall, argsJson: string, events: seq<string>, preparation: Preparation,
    executed: Option<Outcome>, token: Token)

  datatype Gates = Gates(
    disabled: bool,
    partitionDisabled: bool,
    sequentialRun: bool,
    runAborted: bool,
    toolKnown: bool,
    speculationSafe: bool,
    sequentialTool: bool,
    vetoed: bool)

  function TokensOf(entries: map<string, Entry>): set<Token> {
    set id | id in entries :: entries[id].token
  }

  lemma TokensAdd(entries: map<string, Entry>, id: string, e: Entry)
    requires id !in entries
    ensures TokensOf(entries[id := e]) == TokensOf(entries) + {e.token}
  {
    var after := entries[id := e];
    assert after[id].token == e.token;
    forall t | t in TokensOf(entries)
      ensures t in TokensOf(after)
    {
      var a :| a in entries && entries[a].token == t;
      assert after[a].token == t;
    }
  }

  lemma TokensRemove(entries: map<string, Entry>, id: string)
    requires id in entries && OneTokenEach(entries)
    ensures OneTokenEach(entries - {id})
    ensures multiset(TokensOf(entries)) == multiset(TokensOf(entries - {id})) + multiset{entries[id].token}
  {
    var token, rest := entries[id].token, TokensOf(entries - {id});
    RestOfTokens(entries, id);
    BagAdd(rest, token);
    hide TokensOf, OneTokenEach;
    assert TokensOf(entries) == rest + {token};
  }

  lemma RestOfTokens(entries: map<string, Entry>, id: string)
    requires id in entries && OneTokenEach(entries)
    ensures OneTokenEach(entries - {id})
    ensures entries[id].token !in TokensOf(entries - {id}) && TokensOf(entries) == TokensOf(entries - {id}) + {entries[id].token}
  {
    var after := entries - {id};
    forall t | t in TokensOf(entries) && t != entries[id].token
      ensures t in TokensOf(after)
    {
      var a :| a in entries && entries[a].token == t;
      assert after[a].token == t;
    }
  }

  ghost predicate OneTokenEach(entries: map<string, Entry>) {
    forall a, b | a in entries && b in entries && entries[a].token == entries[b].token :: a == b
  }

  /** The entry under `id` holds what its call emits before it is finalized, and with what it
      is finalized. */
  ghost predicate Recorded(b: Behaviour, id: string, e: Entry) {
    var p := b.prepare(e.call);
    && e.call.id == id && e.argsJson == e.call.arguments && e.preparation == p.value
    && if p.value.Immediate? then e.events == p.notes && e.executed == None
       else
         var x := b.execute(p.value.call, p.value.args);
         e.events == p.notes + x.notes && e.executed == Some(x.value)
  }

  ghost predicate AllRecorded(b: Behaviour, entries: map<string, Entry>) {
    forall id | id in entries :: Recorded(b, id, entries[id])
  }

  /** The accounts of a controller: every speculation started once, and is held, consumed or
      discarded, once and only one of these; what was discarded was cleaned up once or has not
      settled. */
  datatype Accounts = Accounts(
    entries: map<string, Entry>,
    started: multiset<Token>,
    consumed: multiset<Token>,
    discarded: multiset<Token>,
    unsettled: map<Token, Entry>,
    cleaned: multiset<Token>)
  {
    ghost predicate Balanced() {
      && OneTokenEach(entries)
      && started == consumed + discarded + multiset(TokensOf(entries)) && AtMostOnce(started)
      && discarded == cleaned + multiset(unsettled.Keys)
      && (forall token | token in unsettled :: unsettled[token].token == token)
    }
  }

  lemma BagAdd(s: set<Token>, token: Token)
    requires token !in s
    ensures multiset(s + {token}) == multiset(s) + multiset{token}
  {
  }

  lemma RecordedWith(b: Behaviour, entries: map<string, Entry>, id: string, e: Entry)
    requires AllRecorded(b, entries) && Recorded(b, id, e)
    ensures AllRecorded(b, entries[id := e])
  {
    hide Recorded;
  }

  lemma RecordedWithout(b: Behaviour, entries: map<string, Entry>, id: string)
    requires AllRecorded(b, entries)
    ensures AllRecorded(b, entries - {id}) && (id in entries ==> Recorded(b, id, entries[id]))
  {
    hide Recorded;
  }

  lemma StartBalances(a: Accounts, id: string, e: Entry)
    requires a.Balanced() && id !in a.entries && e.token !in a.started
    ensures a.(entries := a.entries[id := e], started := a.started + multiset{e.token}).Balanced()
  {
    var held := TokensOf(a.entries);
    assert e.token !in held by {
      assert a.started[e.token] >= multiset(TokensOf(a.entries))[e.token];
    }
    NewToken(a.entries, id, e);
    BagAdd(held, e.token);
    OnceMore(a.started, e.token);
    hide TokensOf, OneTokenEach, AtMostOnce;
  }

  lemma NewToken(entries: map<string, Entry>, id: string, e: Entry)
    requires OneTokenEach(entries) && id !in entries && e.token !in TokensOf(entries)
    ensures OneTokenEach(entries[id := e]) && TokensOf(entries[id := e]) == TokensOf(entries) + {e.token}
  {
    TokensAdd(entries, id, e);
    forall k | k in entries
      ensures entries[k].token != e.token
    {
      assert entries[k].token in TokensOf(entries);
    }
    hide TokensOf;
  }

  lemma ConsumeBalances(a: Accounts, id: string)
    requires a.Balanced() && id in a.entries
    ensures a.(entries := a.entries - {id}, consumed := a.consumed + multiset{a.entries[id].token}).Balanced()
  {
    TokensRemove(a.entries, id);
    hide TokensOf, OneTokenEach, AtMostOnce;
  }

  lemma DiscardBalances(a: Accounts, id: string)
    requires a.Balanced() && id in a.entries
    ensures var e := a.entries[id];
      a.(entries := a.entries - {id}, discarded := a.discarded + multiset{e.token}, unsettled := a.unsettled[e.token := e]).Balanced()
  {
    var token := a.entries[id].token;
    HeldIsNotDiscarded(a, id);
    TokensRemove(a.entries, id);
    hide TokensOf, OneTokenEach, AtMostOnce;
    ghost var next := a.unsettled[token := a.entries[id]];
    assert next.Keys == a.unsettled.Keys + {token};
    BagAdd(a.unsettled.Keys, token);
    OneMoreOnBothSides(a.discarded, a.cleaned, multiset(a.unsettled.Keys), token);
    MovedOver(a.consumed, a.discarded, multiset(TokensOf(a.entries - {id})), token);
  }

  lemma OneMoreOnBothSides(whole: multiset<Token>, a: multiset<Token>, b: multiset<Token>, token: Token)
    requires whole == a + b
    ensures whole + multiset{token} == a + (b + multiset{token})
  {
  }

  lemma MovedOver(a: multiset<Token>, b: multiset<Token>, c: multiset<Token>, token: Token)
    ensures a + b + (c + multiset{token}) == a + (b + multiset{token}) + c == (a + multiset{token}) + b + c
  {
  }

  lemma HeldIsNotDiscarded(a: Accounts, id: string)
    requires a.Balanced() && id in a.entries
    ensures a.entries[id].token !in a.unsettled
  {
    var token := a.entries[id].token;
    assert token in TokensOf(a.entries);
    hide TokensOf, OneTokenEach;
    assert a.started[token] == a.consumed[token] + a.discarded[token] + multiset(TokensOf(a.entries))[token];
    assert a.discarded[token] == a.cleaned[token] + multiset(a.unsettled.Keys)[token];
  }

  lemma SettleBalances(a: Accounts, token: Token)
    requires a.Balanced() && token in a.unsettled
    ensures a.(unsettled := a.unsettled - {token}, cleaned := a.cleaned + multiset{token}).Balanced()
    ensures a.cleaned[token] == 0
  {
    hide TokensOf, OneTokenEach;
    var rest := a.unsettled.Keys - {token};
    assert (a.unsettled - {token}).Keys == rest && a.unsettled.Keys == rest + {token};
    BagAdd(rest, token);
    assert a.started[token] <= 1 && a.started[token] >= a.discarded[token] == a.cleaned[token] + multiset(a.unsettled.Keys)[token];
    hide AtMostOnce;
  }

  lemma NothingHeld(a: Accounts)
    requires a.Balanced() && a.entries == map[]
    ensures Ledger(a.started, a.consumed, a.discarded).Closed()
  {
    assert TokensOf(a.entries) == {};
    hide AtMostOnce, OneTokenEach;
  }

  /** What the first stage of a pipeline hands on: the preparation, and the execution too if a
      speculation did it; `notes` is what was emitted for them. */
  ghost predicate AfterPreparing(b: Behaviour, call: ToolCall, notes: seq<string>, preparation: Preparation, executed: Option<Outcome>) {
    var p := b.prepare(call);
    && preparation == p.value
    && if executed.Some? then
         && p.value.Prepared?
         && var x := b.execute(p.value.call, p.value.args);
         notes == p.notes + x.notes && executed.value == x.value
       else notes == p.notes
  }

  /** A speculation whose name and arguments match recorded what preparing the call would do. */
  lemma ReplayIsPreparing(b: Behaviour, call: ToolCall, e: Entry)
    requires Recorded(b, call.id, e) && e.call.name == call.name && e.argsJson == call.arguments
    ensures AfterPreparing(b, call, e.events, e.preparation, e.executed) && (e.executed == None ==> e.preparation.Immediate?)
  {
    assert e.call == call;
  }

  lemma PreparedAsIs(b: Behaviour, call: ToolCall, notes: seq<string>, preparation: Preparation, executed: Option<Outcome>, token: Token)
    requires AfterPreparing(b, call, notes, preparation, executed)
    ensures preparation == b.prepare(call).value && (executed.Some? ==> preparation.Prepared?)
    ensures preparation.Immediate? ==> OwnController(preparation, call, token) == []
  {
  }

  lemma PreparedHere(b: Behaviour, call: ToolCall)
    ensures AfterPreparing(b, call, b.prepare(call).notes, b.prepare(call).value, None)
  {
  }

  /** The speculation under the call's id is of the same call. */
  predicate Matches(entries: map<string, Entry>, call: ToolCall) {
    call.id in entries && entries[call.id].call.name == call.name && entries[call.id].argsJson == call.arguments
  }

  /** Whatever controllers these ids reach have been told to abort. */
  ghost predicate Aborts(controllers: map<string, Token>, tripped: set<Token>, ids: set<string>) {
    forall id | id in ids && id in controllers :: controllers[id] in tripped
  }

  /** All ids but those still kept reach controllers that were told to abort. */
  ghost predicate AbortsAllBut(controllers: map<string, Token>, tripped: set<Token>, ids: set<string>, kept: map<string, Entry>) {
    Aborts(controllers, tripped, ids - kept.Keys)
  }

  lemma AbortsOneMore(controllers: map<string, Token>, before: set<Token>, after: set<Token>, ids: set<string>, kept: map<string, Entry>, id: string)
    requires AbortsAllBut(controllers, before, ids, kept) && after == before + if id in controllers then {controllers[id]} else {}
    ensures AbortsAllBut(controllers, after, ids, kept - {id})
  {
  }

  lemma AbortsAll(controllers: map<string, Token>, tripped: set<Token>, ids: set<string>)
    requires AbortsAllBut(controllers, tripped, ids, map[])
    ensures Aborts(controllers, tripped, ids)
  {
    var none: map<string, Entry> := map[];
    assert ids - none.Keys == ids;
  }

  lemma NoneReaped(controllers: map<string, Token>, tripped: set<Token>, kept: map<string, Entry>)
    ensures AbortsAllBut(controllers, tripped, kept.Keys, kept)
  {
  }

  lemma KeptUnderItsId(b: Behaviour, id: string, e: Entry)
    requires Recorded(b, id, e)
    ensures e.call.id == id
  {
  }

  class SpeculationController {
    const registry: AbortRegistry
    const behaviour: Behaviour
    /** What had become of speculations when this attempt began. */
    ghost const opening: Ledger
    /** The speculations nobody took yet, by call id. */
    var entries: map<string, Entry>
    var started: multiset<Token>
    var consumed: multiset<Token>
    var discarded: multiset<Token>
    /** Discarded speculations whose aborted outcome has not settled yet. */
    var unsettled: map<Token, Entry>
    /** The runs of the tools' cleanup hooks. */
    var cleaned: multiset<Token>

    ghost function Held(): multiset<Token>
      reads this`entries
    {
      multiset(TokensOf(entries))
    }

    ghost function Books(): Accounts
      reads this
    {
      Accounts(entries, started, consumed, discarded, unsettled, cleaned)
    }

    function Account(): Ledger
      reads this`started, this`consumed, this`discarded
    {
      Ledger(started, consumed, discarded)
    }

    ghost predicate Sound()
      reads this, registry
    {
      && registry.Valid()
      && AllRecorded(behaviour, entries)
      && Books().Balanced()
      && (forall token | token in started :: token < registry.nextToken)
    }

    /** Sound, and of the latest attempt: all that became of speculations since it began is its own
        doing. An earlier controller stays sound. */
    ghost predicate Valid()
      reads this, registry
    {
      Sound() && registry.speculations == opening.Plus(Account())
    }

    constructor (registry: AbortRegistry, behaviour: Behaviour)
      requires registry.Valid()
      modifies registry`attempts
      ensures Valid() && this.registry == registry && this.behaviour == behaviour && opening == registry.speculations
      ensures entries == map[] && Account() == Ledger(multiset{}, multiset{}, multiset{}) && cleaned == multiset{}
      ensures registry.attempts == old(registry.attempts) + 1
    {
      this.registry := registry;
      this.behaviour := behaviour;
      entries, unsettled := map[], map[];
      started, consumed, discarded, cleaned := multiset{}, multiset{}, multiset{}, multiset{};
      opening := registry.speculations;
      new;
      registry.attempts := registry.attempts + 1;
      assert registry.speculations == opening.Plus(Account());
    }

    /** Prepare and execute with every event buffered. */
    method RunBuffered(call: ToolCall, token: Token) returns (e: Entry)
      ensures Recorded(behaviour, call.id, e) && e.call == call && e.token == token
    {
      var p := behaviour.prepare(call);
      var events := [];
      for i := 0 to |p.notes|
        invariant events == p.notes[..i]
      {
        events := events + [p.notes[i]];
      }
      if p.value.Immediate? {
        return Entry(call, call.arguments, events, p.value, None, token);
      }
      var x := behaviour.execute(p.value.call, p.value.args);
      for i := 0 to |x.notes|
        invariant events == p.notes + x.notes[..i]
      {
        events := events + [x.notes[i]];
      }
      e := Entry(call, call.arguments, events, p.value, Some(x.value), token);
    }

    /** A call completed mid-stream: start its speculation unless a gate is closed. */
    method MaybeStart(call: ToolCall, gates: Gates) returns (ghost startedOne: bool)
      requires Valid()
      modifies this`entries, this`started, registry`controllers, registry`nextToken, registry`history, registry`speculations
      ensures Valid()
      ensures startedOne <==>
        && !gates.disabled && !gates.partitionDisabled && !gates.sequentialRun && !gates.runAborted
        && gates.toolKnown && gates.speculationSafe && !gates.sequentialTool && !gates.vetoed
        && call.id !in old(entries)
      ensures !startedOne ==>
        started == old(started) && entries == old(entries) && registry.history == old(registry.history)
      ensures startedOne ==>
        && var token := old(registry.nextToken);
        && token !in old(started) && started == old(started) + multiset{token}
        && call.id in entries && entries == old(entries)[call.id := entries[call.id]]
        && entries[call.id].call == call && entries[call.id].token == token
        && registry.history == old(registry.history) + [RegistryOp.Register(call.id, token)]
    {
      startedOne := false;
      if gates.disabled || gates.partitionDisabled || gates.sequentialRun {
        return;
      }
      if gates.runAborted || call.id in entries {
        return;
      }
      if !gates.toolKnown || !gates.speculationSafe || gates.sequentialTool || gates.vetoed {
        return;
      }
      Start(call);
      startedOne := true;
    }

    /** Registers a controller for the call and runs it with its events buffered. */
    method Start(call: ToolCall)
      requires Valid() && call.id !in entries
      modifies this`entries, this`started, registry`controllers, registry`nextToken, registry`history, registry`speculations
      ensures Valid()
      ensures var token := old(registry.nextToken);
        && token !in old(started) && started == old(started) + multiset{token}
        && call.id in entries && entries == old(entries)[call.id := entries[call.id]]
        && entries[call.id].call == call && entries[call.id].token == token
        && registry.history == old(registry.history) + [RegistryOp.Register(call.id, token)]
    {
      hide Recorded, AllRecorded, Accounts.Balanced, Ledger.Plus, ApplyAll, AtMostOnce;
      ghost var before := Account();
      var token := registry.Register(call.id);
      assert token !in started;
      var e := RunBuffered(call, token);
      StartBalances(Books(), call.id, e);
      RecordedWith(behaviour, entries, call.id, e);
      entries := entries[call.id := e];
      started := started + multiset{token};
      EntryOfOwn(opening, before, token);
      registry.NoteStarted(token);
    }

    /** Abort the speculation; its release and its cleanup wait until the aborted outcome settles. */
    method DiscardEntry(e: Entry)
      modifies this`discarded, this`unsettled, registry`tripped, registry`speculations
      ensures discarded == old(discarded) + multiset{e.token} && unsettled == old(unsettled)[e.token := e]
      ensures registry.tripped == old(registry.tripped) + if e.call.id in registry.controllers then {registry.controllers[e.call.id]} else {}
      ensures registry.speculations == old(registry.speculations).Discard(e.token)
    {
      registry.Abort(e.call.id);
      discarded := discarded + multiset{e.token};
      registry.NoteDiscarded(e.token);
      unsettled := unsettled[e.token := e];
    }

    /** Hands a speculation to the executor; one whose name or arguments differ from the
        final call is discarded instead. */
    method Take(call: ToolCall) returns (spec: Option<Entry>)
      requires Valid()
      modifies this`entries, this`consumed, this`discarded, this`unsettled, registry`tripped, registry`speculations
      ensures Valid() && entries == old(entries) - {call.id}
      ensures spec == if Matches(old(entries), call) then Some(old(entries)[call.id]) else None
      ensures spec.Some? ==> Recorded(behaviour, call.id, spec.value)
      ensures if spec.Some? then consumed == old(consumed) + multiset{spec.value.token} else consumed == old(consumed)
      ensures if call.id in old(entries) && spec == None then discarded == old(discarded) + multiset{old(entries)[call.id].token}
        else discarded == old(discarded)
      ensures call.id in old(entries) && spec == None ==> Aborts(registry.controllers, registry.tripped, {call.id})
      ensures spec.Some? ==> registry.tripped == old(registry.tripped)
    {
      hide Recorded, AllRecorded, Accounts.Balanced, Ledger.Plus, ApplyAll, AtMostOnce;
      if call.id !in entries {
        assert entries - {call.id} == entries;
        return None;
      }
      var e := entries[call.id];
      EntryOfOwn(opening, Account(), e.token);
      RecordedWithout(behaviour, entries, call.id);
      ghost var before := Books();
      if e.call.name != call.name || e.argsJson != call.arguments {
        DiscardBalances(before, call.id);
        KeptUnderItsId(behaviour, call.id, e);
        entries := entries - {call.id};
        DiscardEntry(e);
        return None;
      }
      ConsumeBalances(before, call.id);
      entries := entries - {call.id};
      consumed := consumed + multiset{e.token};
      registry.NoteConsumed(e.token);
      spec := Some(e);
    }

    /** Reaps one speculation. */
    method Reap(id: string)
      requires Valid() && id in entries
      modifies this`entries, this`discarded, this`unsettled, registry`tripped, registry`speculations
      ensures Valid() && entries == old(entries) - {id}
      ensures registry.tripped == old(registry.tripped) + if id in registry.controllers then {registry.controllers[id]} else {}
    {
      hide Recorded, AllRecorded, Accounts.Balanced, Ledger.Plus, ApplyAll, AtMostOnce;
      var e := entries[id];
      EntryOfOwn(opening, Account(), e.token);
      DiscardBalances(Books(), id);
      RecordedWithout(behaviour, entries, id);
      KeptUnderItsId(behaviour, id, e);
      entries := entries - {id};
      DiscardEntry(e);
    }

    /** Reaps every speculation nobody took, each once. */
    method DiscardLeftovers()
      requires Valid()
      modifies this`entries, this`discarded, this`unsettled, registry`tripped, registry`speculations
      ensures Valid() && entries == map[] && Account().Closed() && Aborts(registry.controllers, registry.tripped, old(entries).Keys)
      ensures ClosedBetween(opening, registry.speculations)
    {
      hide AllRecorded, Accounts.Balanced, Ledger.Plus, Ledger.Since, ApplyAll, AtMostOnce, ClosedBetween, Ledger.Closed, Aborts, AbortsAllBut;
      NoneReaped(registry.controllers, registry.tripped, entries);
      while entries != map[]
        invariant Valid() && AbortsAllBut(registry.controllers, registry.tripped, old(entries).Keys, entries)
        decreases |entries|
      {
        var id :| id in entries;
        ghost var before, tripped := entries, registry.tripped;
        Reap(id);
        AbortsOneMore(registry.controllers, tripped, registry.tripped, old(entries).Keys, before, id);
      }
      AbortsAll(registry.controllers, registry.tripped, old(entries).Keys);
      NothingHeld(Books());
      ClosedWith(opening, Account());
    }

    /** The aborted outcome of a discarded speculation settles, perhaps much later: its controller
        is released and its tool cleans up, once. */
    method Settle(e: Entry)
      requires Sound() && e.token in unsettled && unsettled[e.token] == e
      modifies this`unsettled, this`cleaned, registry`controllers, registry`history
      ensures Sound() && (old(Valid()) ==> Valid()) && unsettled == old(unsettled) - {e.token} && cleaned == old(cleaned) + multiset{e.token}
      ensures cleaned[e.token] == 1
      ensures registry.history == old(registry.history) + [RegistryOp.Release(e.call.id, e.token)]
    {
      hide AllRecorded, Accounts.Balanced, ApplyAll;
      SettleBalances(Books(), e.token);
      unsettled := unsettled - {e.token};
      cleaned := cleaned + multiset{e.token};
      registry.Release(e.call.id, e.token);
    }

    /** The first stage of a pipeline: consume a speculation and replay its events, or prepare. */
    method PrepareParallelCall(call: ToolCall) returns (notes: seq<string>, preparation: Preparation, specExecuted: Option<Outcome>)
      requires Valid()
      modifies this`entries, this`consumed, this`discarded, this`unsettled, registry`tripped, registry`speculations,
        registry`controllers, registry`nextToken, registry`history
      ensures Valid() && entries == old(entries) - {call.id}
      ensures AfterPreparing(behaviour, call, notes, preparation, specExecuted)
      ensures if Matches(old(entries), call) then
          && specExecuted == old(entries)[call.id].executed && (specExecuted == None ==> preparation.Immediate?)
          && consumed == old(consumed) + multiset{old(entries)[call.id].token}
          && registry.history == old(registry.history) + [RegistryOp.Release(call.id, old(entries)[call.id].token)]
        else specExecuted == None && consumed == old(consumed) && registry.history == old(registry.history)
      ensures registry.nextToken == old(registry.nextToken)
    {
      hide AllRecorded, Accounts.Balanced, Recorded, AfterPreparing;
      var spec := Take(call);
      if spec.Some? {
        ReplayIsPreparing(behaviour, call, spec.value);
        registry.Release(call.id, spec.value.token);
        return spec.value.events, spec.value.preparation, spec.value.executed;
      }
      var p := behaviour.prepare(call);
      PreparedHere(behaviour, call);
      return p.notes, p.value, None;
    }

    /** One call's pipeline between its start and its end: consume a speculation or prepare, execute
        unless that is done, and finalize. Whatever was speculated, the call emits the same and
        ends the same as if nothing had been. A tool that a speculation has executed is not run again. */
    method RunParallelCall(call: ToolCall) returns (work: Work)
      requires Valid()
      modifies this`entries, this`consumed, this`discarded, this`unsettled, registry`tripped, registry`speculations,
        registry`controllers, registry`nextToken, registry`history
      ensures Valid() && entries == old(entries) - {call.id}
      ensures work == Unspeculated(behaviour, call)
      ensures consumed == old(consumed) + if Matches(old(entries), call) then multiset{old(entries)[call.id].token} else multiset{}
      ensures registry.history == old(registry.history) +
        if Matches(old(entries), call) then [RegistryOp.Release(call.id, old(entries)[call.id].token)]
        else OwnController(behaviour.prepare(call).value, call, old(registry.nextToken))
    {
      hide AllRecorded, Accounts.Balanced, Recorded, AfterPreparing, Unspeculated, OwnController, ApplyAll, AtMostOnce, Ledger.Plus;
      var notes, preparation, specExecuted := PrepareParallelCall(call);
      PreparedAsIs(behaviour, call, notes, preparation, specExecuted, old(registry.nextToken));
      ghost var history := registry.history;
      work := FinalizeParallelCall(call, notes, preparation, specExecuted);
      assert history + [] == history;
    }

    /** The second stage: execute, unless a speculation did, and finalize. */
    method FinalizeParallelCall(call: ToolCall, notes: seq<string>, preparation: Preparation, specExecuted: Option<Outcome>)
      returns (work: Work)
      requires registry.Valid() && AfterPreparing(behaviour, call, notes, preparation, specExecuted)
      modifies registry`controllers, registry`nextToken, registry`history
      ensures registry.Valid() && registry.nextToken >= old(registry.nextToken)
      ensures work == Unspeculated(behaviour, call)
      ensures registry.history == old(registry.history) +
        if specExecuted.Some? then [] else OwnController(preparation, call, old(registry.nextToken))
    {
      hide FinalImmediate, FinalExecuted;
      if preparation.Immediate? {
        var f := FinalImmediate(behaviour, call, preparation);
        return Work(notes + f.notes, f.value);
      }
      if specExecuted.Some? {
        var f := FinalExecuted(behaviour, preparation, specExecuted.value);
        return Work(notes + f.notes, f.value);
      }
      var token := registry.Register(call.id);
      var x := behaviour.execute(preparation.call, preparation.args);
      var f := FinalExecuted(behaviour, preparation, x.value);
      registry.Release(call.id, token);
      work := Work(notes + x.notes + f.notes, f.value);
    }
  }
}
