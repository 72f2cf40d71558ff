/** The fallback chain: entries are tried in order, a failed entry cools down, and the chain waits
    only when a short wait is sure to make an entry eligible. */
module FallbackChains {
  import opened Integers
  import opened Options

  const MAX_WAIT_FOR_COOLDOWN_MS: int := 30_000

  datatype Key = EntryKey(text: string)

  datatype Entry = Entry(provider: string, id: string) {
    function Key(): Key {
      EntryKey(provider + "/" + id)
    }
  }

  datatype Outcome = Success(value: int) | Failure(error: string, retryable: bool)

  /** What one call does: how it ends, how long it takes, and the cooldowns that other chains
      record meanwhile. */
  datatype Call = Call(outcome: Outcome, elapsed: nat, others: map<Key, int>)

  datatype Result = Returned(value: int) | Thrown(error: string) | Exhausted(last: Option<string>) | EmptyChain

  /** A call that was made, what was known when its entry was picked, and whether the chain waited
      for it. */
  datatype Attempt = Attempt(index: nat, tried: set<Key>, cooldowns: map<Key, int>, at: int, waited: bool)

  predicate InCooldown(cooldowns: map<Key, int>, key: Key, now: int) {
    key in cooldowns && cooldowns[key] > now
  }

  predicate Eligible(e: Entry, tried: set<Key>, cooldowns: map<Key, int>, now: int) {
    e.Key() !in tried && !InCooldown(cooldowns, e.Key(), now)
  }

  /** Entry `i` is the earliest that may be called now. */
  ghost predicate FirstEligible(chain: seq<Entry>, tried: set<Key>, cooldowns: map<Key, int>, now: int, i: nat) {
    i < |chain| && Eligible(chain[i], tried, cooldowns, now) && forall j | 0 <= j < i :: !Eligible(chain[j], tried, cooldowns, now)
  }

  function Keys(chain: seq<Entry>): set<Key> {
    set i | 0 <= i < |chain| :: chain[i].Key()
  }

  /** Every entry not tried yet stays cooled down for `ms` more. */
  ghost predicate AllCooled(chain: seq<Entry>, tried: set<Key>, cooldowns: map<Key, int>, now: int, ms: int) {
    forall i | 0 <= i < |chain| && chain[i].Key() !in tried :: chain[i].Key() in cooldowns && cooldowns[chain[i].Key()] >= now + ms
  }

  method PickEntry(chain: seq<Entry>, tried: set<Key>, cooldowns: map<Key, int>, now: int) returns (pick: Option<nat>)
    ensures pick.Some? ==> FirstEligible(chain, tried, cooldowns, now, pick.value)
    ensures pick.None? ==> AllCooled(chain, tried, cooldowns, now, 1)
  {
    for i := 0 to |chain|
      invariant forall j | 0 <= j < i :: !Eligible(chain[j], tried, cooldowns, now)
    {
      if chain[i].Key() in tried {
        continue;
      }
      if InCooldown(cooldowns, chain[i].Key(), now) {
        continue;
      }
      return Some(i);
    }
    return None;
  }

  /** Entry `i` is untried and its cooldown ends at `until`. */
  predicate ExpiresAt(chain: seq<Entry>, tried: set<Key>, cooldowns: map<Key, int>, i: int, until: int) {
    0 <= i < |chain| && chain[i].Key() !in tried && chain[i].Key() in cooldowns && cooldowns[chain[i].Key()] == until
  }

  /** The soonest expiry among entries not tried yet; none if there is no such entry with a cooldown. */
  method SoonestExpiry(chain: seq<Entry>, tried: set<Key>, cooldowns: map<Key, int>) returns (soonest: Option<int>, ghost first: nat)
    ensures soonest.Some? ==> ExpiresAt(chain, tried, cooldowns, first, soonest.value)
    ensures forall i, until | ExpiresAt(chain, tried, cooldowns, i, until) :: soonest.Some? && soonest.value <= until
  {
    hide Entry.Key;
    soonest, first := None, 0;
    for i := 0 to |chain|
      invariant soonest.Some? ==> ExpiresAt(chain, tried, cooldowns, first, soonest.value)
      invariant forall j, until | ExpiresAt(chain, tried, cooldowns, j, until) && j < i :: soonest.Some? && soonest.value <= until
    {
      var key := chain[i].Key();
      if key in tried {
        continue;
      }
      if key in cooldowns && (soonest.None? || cooldowns[key] < soonest.value) {
        soonest, first := Some(cooldowns[key]), i;
      }
    }
  }

  // ---------------------------------------------------------------------------
  // What a run did

  function TriedIn(chain: seq<Entry>, log: seq<Attempt>): set<Key> {
    if log == [] then {}
    else
      var a := log[|log| - 1];
      TriedIn(chain, log[..|log| - 1]) + if a.index < |chain| then {chain[a.index].Key()} else {}
  }

  /** The cooldowns after the calls of `log`: each failed one cools its entry from the moment it failed. */
  function CooldownsAfter(start: map<Key, int>, chain: seq<Entry>, calls: nat -> Call, cooldownMs: int, log: seq<Attempt>): map<Key, int> {
    if log == [] then start
    else
      var k := |log| - 1;
      var before := CooldownsAfter(start, chain, calls, cooldownMs, log[..k]);
      if log[k].index < |chain| then AfterCall(before, calls(k), chain[log[k].index].Key(), log[k].at, cooldownMs) else before
  }

  function AfterCall(cooldowns: map<Key, int>, call: Call, key: Key, at: int, cooldownMs: int): map<Key, int> {
    var seen := cooldowns + call.others;
    if call.outcome.Failure? && call.outcome.retryable then seen[key := at + call.elapsed + cooldownMs] else seen
  }

  /** A retryable failure cools its entry for the whole cooldown from the end of the call, whatever others
      recorded meanwhile; any other entry is cooled as they say, or as before. */
  lemma LastCallCools(start: map<Key, int>, chain: seq<Entry>, calls: nat -> Call, cooldownMs: int, log: seq<Attempt>)
    requires log != [] && log[|log| - 1].index < |chain|
    ensures var k := |log| - 1;
      var key, end := chain[log[k].index].Key(), log[k].at + calls(k).elapsed;
      var before, after := CooldownsAfter(start, chain, calls, cooldownMs, log[..k]), CooldownsAfter(start, chain, calls, cooldownMs, log);
      var cools := calls(k).outcome.Failure? && calls(k).outcome.retryable;
      && (cools ==> forall at :: InCooldown(after, key, at) <==> at < end + cooldownMs)
      && forall other, at | !cools || other != key :: InCooldown(after, other, at) <==>
           if other in calls(k).others then at < calls(k).others[other] else InCooldown(before, other, at)
  {
  }

  /** When the calls of `log` have ended. */
  function Ready(began: int, calls: nat -> Call, log: seq<Attempt>): int {
    if log == [] then began else log[|log| - 1].at + calls(|log| - 1).elapsed
  }

  /** The call made after those in `log` was the earliest eligible entry, under the cooldowns that
      the calls before it left. It started as soon as they had ended, or after the one wait made
      because no entry was eligible then. */
  ghost predicate GoodAttempt(start: map<Key, int>, began: int, chain: seq<Entry>, calls: nat -> Call, cooldownMs: int, log: seq<Attempt>, a: Attempt) {
    && FirstEligible(chain, a.tried, a.cooldowns, a.at, a.index)
    && a.tried == TriedIn(chain, log) && a.cooldowns == CooldownsAfter(start, chain, calls, cooldownMs, log)
    && var ready := Ready(began, calls, log);
    if a.waited then a.at > ready && AllCooled(chain, a.tried, a.cooldowns, ready, 1) else a.at == ready
  }

  ghost predicate GoodLog(start: map<Key, int>, began: int, chain: seq<Entry>, calls: nat -> Call, cooldownMs: int, log: seq<Attempt>) {
    forall k | 0 <= k < |log| :: GoodAttempt(start, began, chain, calls, cooldownMs, log[..k], log[k])
  }

  /** All calls of the log failed in a way that lets the chain go on. */
  ghost predicate AllRetryable(calls: nat -> Call, n: nat) {
    forall k | 0 <= k < n :: calls(k).outcome.Failure? && calls(k).outcome.retryable
  }

  lemma {:induction false} TriedIsKeys(chain: seq<Entry>, log: seq<Attempt>, k: nat)
    requires k < |log| && log[k].index < |chain|
    ensures chain[log[k].index].Key() in TriedIn(chain, log)
  {
    if k < |log| - 1 {
      TriedIsKeys(chain, log[..|log| - 1], k);
    }
  }

  /** No key is called twice in a run, and none is called during its cooldown. */
  lemma CalledOnceAndNeverCooled(start: map<Key, int>, began: int, chain: seq<Entry>, calls: nat -> Call, cooldownMs: int, log: seq<Attempt>)
    requires GoodLog(start, began, chain, calls, cooldownMs, log)
    ensures forall k | 0 <= k < |log| :: log[k].index < |chain| && !InCooldown(log[k].cooldowns, chain[log[k].index].Key(), log[k].at)
    ensures forall j, k | 0 <= j < k < |log| :: chain[log[j].index].Key() != chain[log[k].index].Key()
  {
    forall k | 0 <= k < |log|
      ensures FirstEligible(chain, log[k].tried, log[k].cooldowns, log[k].at, log[k].index) && log[k].tried == TriedIn(chain, log[..k])
    {
      assert GoodAttempt(start, began, chain, calls, cooldownMs, log[..k], log[k]);
    }
    forall j, k | 0 <= j < k < |log|
      ensures chain[log[j].index].Key() != chain[log[k].index].Key()
    {
      TriedIsKeys(chain, log[..k], j);
    }
  }

  lemma LogGrows(start: map<Key, int>, began: int, chain: seq<Entry>, calls: nat -> Call, cooldownMs: int, log: seq<Attempt>, a: Attempt)
    requires GoodLog(start, began, chain, calls, cooldownMs, log) && GoodAttempt(start, began, chain, calls, cooldownMs, log, a)
    ensures GoodLog(start, began, chain, calls, cooldownMs, log + [a])
  {
    hide GoodAttempt;
    var more := log + [a];
    assert more[..|log|] == log;
    forall k | 0 <= k < |log|
      ensures more[k] == log[k] && more[..k] == log[..k]
    {
    }
  }

  lemma EffectOfCall(start: map<Key, int>, chain: seq<Entry>, calls: nat -> Call, cooldownMs: int, log: seq<Attempt>, a: Attempt)
    requires a.index < |chain|
    ensures TriedIn(chain, log + [a]) == TriedIn(chain, log) + {chain[a.index].Key()}
    ensures CooldownsAfter(start, chain, calls, cooldownMs, log + [a]) ==
      AfterCall(CooldownsAfter(start, chain, calls, cooldownMs, log), calls(|log|), chain[a.index].Key(), a.at, cooldownMs)
  {
    hide Entry.Key;
    assert (log + [a])[..|log|] == log;
  }

  /** Only keys of the chain are tried. */
  ghost predicate Within(chain: seq<Entry>, tried: set<Key>) {
    tried <= Keys(chain)
  }

  /** How many keys are left to try. */
  ghost function Left(chain: seq<Entry>, tried: set<Key>): nat {
    |Keys(chain) - tried|
  }

  lemma TriedGrows(chain: seq<Entry>, tried: set<Key>, i: nat)
    requires Within(chain, tried) && i < |chain| && chain[i].Key() !in tried
    ensures Within(chain, tried + {chain[i].Key()})
    ensures Left(chain, tried + {chain[i].Key()}) == Left(chain, tried) - 1
  {
    assert chain[i].Key() in Keys(chain);
    assert Keys(chain) - (tried + {chain[i].Key()}) == (Keys(chain) - tried) - {chain[i].Key()};
  }

  lemma NothingTried(chain: seq<Entry>)
    ensures Within(chain, {}) && Left(chain, {}) == |Keys(chain)|
  {
    assert Keys(chain) - {} == Keys(chain);
  }

  lemma {:induction false} KeysBounded(chain: seq<Entry>)
    ensures |Keys(chain)| <= |chain|
  {
    if chain != [] {
      var last := |chain| - 1;
      KeysBounded(chain[..last]);
      assert Keys(chain) == Keys(chain[..last]) + {chain[last].Key()};
    }
  }

  lemma {:induction false} Subset<T>(a: set<T>, b: set<T>)
    requires a <= b
    ensures |a| <= |b| && (|a| >= |b| ==> a == b)
  {
    if x :| x in b && x !in a {
      Subset(a, b - {x});
    } else {
      assert a == b;
    }
  }

  /** As many keys tried as there are entries: all have been. */
  lemma AllTried(chain: seq<Entry>, tried: set<Key>, cooldowns: map<Key, int>, now: int, ms: int)
    requires Within(chain, tried) && |tried| >= |chain|
    ensures AllCooled(chain, tried, cooldowns, now, ms)
  {
    KeysBounded(chain);
    Subset(tried, Keys(chain));
    forall i | 0 <= i < |chain|
      ensures chain[i].Key() in tried
    {
      assert chain[i].Key() in Keys(chain);
    }
  }

  /** How a run ends: with the first success, with the first failure that is not retryable, or,
      after retryable failures only, when every entry not tried stays cooled down for at least
      30 s, or when one of them comes out of its cooldown between the two clock readings of a
      round. Then the last failure is reported, if there was one. */
  ghost predicate Concludes(chain: seq<Entry>, calls: nat -> Call, log: seq<Attempt>, result: Result, cooldowns: map<Key, int>, now: int) {
    match result
    case Returned(value) => log != [] && AllRetryable(calls, |log| - 1) && calls(|log| - 1).outcome == Success(value)
    case Thrown(error) => log != [] && AllRetryable(calls, |log| - 1) && calls(|log| - 1).outcome == Failure(error, false)
    case Exhausted(last) =>
      && AllRetryable(calls, |log|)
      && last == (if log == [] then None else Some(calls(|log| - 1).outcome.error))
      && (AllCooled(chain, TriedIn(chain, log), cooldowns, now, MAX_WAIT_FOR_COOLDOWN_MS) || !AllCooled(chain, TriedIn(chain, log), cooldowns, now, 1))
    case EmptyChain => false
  }

  /** The state between rounds. */
  ghost predicate Running(start: map<Key, int>, began: int, chain: seq<Entry>, calls: nat -> Call, cooldownMs: int, log: seq<Attempt>,
      tried: set<Key>, cooldowns: map<Key, int>, now: int, waited: bool, lastError: Option<string>) {
    && tried == TriedIn(chain, log)
    && GoodLog(start, began, chain, calls, cooldownMs, log) && AllRetryable(calls, |log|)
    && cooldowns == CooldownsAfter(start, chain, calls, cooldownMs, log)
    && lastError == (if log == [] then None else Some(calls(|log| - 1).outcome.error))
    && var ready := Ready(began, calls, log);
    if waited then now > ready && AllCooled(chain, tried, cooldowns, ready, 1) else now == ready
  }

  lemma NothingDone(start: map<Key, int>, chain: seq<Entry>, calls: nat -> Call, cooldownMs: int, now: int)
    ensures GoodLog(start, now, chain, calls, cooldownMs, []) && CooldownsAfter(start, chain, calls, cooldownMs, []) == start
    ensures Running(start, now, chain, calls, cooldownMs, [], {}, start, now, false, None)
  {
  }

  lemma RunWaits(start: map<Key, int>, began: int, chain: seq<Entry>, calls: nat -> Call, cooldownMs: int, log: seq<Attempt>,
      tried: set<Key>, cooldowns: map<Key, int>, before: int, now: int, lastError: Option<string>)
    requires Running(start, began, chain, calls, cooldownMs, log, tried, cooldowns, before, false, lastError) && before <= now
    requires AllCooled(chain, tried, cooldowns, before, 1) && !AllCooled(chain, tried, cooldowns, now, 1)
    ensures Running(start, began, chain, calls, cooldownMs, log, tried, cooldowns, now, true, lastError)
  {
  }

  lemma RunExhausted(start: map<Key, int>, began: int, chain: seq<Entry>, calls: nat -> Call, cooldownMs: int, log: seq<Attempt>,
      tried: set<Key>, cooldowns: map<Key, int>, before: int, now: int, lastError: Option<string>)
    requires Running(start, began, chain, calls, cooldownMs, log, tried, cooldowns, before, false, lastError)
    requires AllCooled(chain, tried, cooldowns, now, MAX_WAIT_FOR_COOLDOWN_MS) || !AllCooled(chain, tried, cooldowns, now, 1)
    ensures tried == TriedIn(chain, log) && before == Ready(began, calls, log)
    ensures GoodLog(start, began, chain, calls, cooldownMs, log) && cooldowns == CooldownsAfter(start, chain, calls, cooldownMs, log)
    ensures Concludes(chain, calls, log, Exhausted(lastError), cooldowns, now)
  {
    hide GoodLog, CooldownsAfter, TriedIn, AllCooled;
  }

  lemma RunCalls(start: map<Key, int>, began: int, chain: seq<Entry>, calls: nat -> Call, cooldownMs: int, log: seq<Attempt>,
      a: Attempt, lastError: Option<string>)
    requires Running(start, began, chain, calls, cooldownMs, log, a.tried, a.cooldowns, a.at, a.waited, lastError)
    requires FirstEligible(chain, a.tried, a.cooldowns, a.at, a.index)
    ensures a.index < |chain| && chain[a.index].Key() !in a.tried
    ensures GoodLog(start, began, chain, calls, cooldownMs, log + [a]) && AllRetryable(calls, |log|)
    ensures TriedIn(chain, log + [a]) == a.tried + {chain[a.index].Key()}
    ensures CooldownsAfter(start, chain, calls, cooldownMs, log + [a]) == AfterCall(a.cooldowns, calls(|log|), chain[a.index].Key(), a.at, cooldownMs)
  {
    hide Entry.Key, InCooldown, AllRetryable;
    LogGrows(start, began, chain, calls, cooldownMs, log, a);
    EffectOfCall(start, chain, calls, cooldownMs, log, a);
    hide GoodLog, CooldownsAfter, TriedIn, AfterCall;
  }

  lemma RunEnds(chain: seq<Entry>, calls: nat -> Call, log: seq<Attempt>, a: Attempt, cooldowns: map<Key, int>, now: int)
    requires AllRetryable(calls, |log|)
    ensures match calls(|log|).outcome
      case Success(value) => Concludes(chain, calls, log + [a], Returned(value), cooldowns, now)
      case Failure(error, retryable) => !retryable ==> Concludes(chain, calls, log + [a], Thrown(error), cooldowns, now)
  {
  }

  lemma RunGoesOn(start: map<Key, int>, began: int, chain: seq<Entry>, calls: nat -> Call, cooldownMs: int, log: seq<Attempt>, a: Attempt,
      tried: set<Key>, cooldowns: map<Key, int>)
    requires GoodLog(start, began, chain, calls, cooldownMs, log + [a]) && AllRetryable(calls, |log|)
    requires calls(|log|).outcome.Failure? && calls(|log|).outcome.retryable
    requires tried == TriedIn(chain, log + [a]) && cooldowns == CooldownsAfter(start, chain, calls, cooldownMs, log + [a])
    ensures Running(start, began, chain, calls, cooldownMs, log + [a], tried, cooldowns, a.at + calls(|log|).elapsed, false, Some(calls(|log|).outcome.error))
  {
    hide GoodLog, CooldownsAfter, TriedIn;
  }

  // ---------------------------------------------------------------------------
  // The run

  /** No entry is eligible: sleep until the soonest expiry if it is less than 30 s away. The clock
      is read again for that; when it has passed the expiry meanwhile, the chain gives up although
      an entry is eligible. */
  method WaitForCooldown(chain: seq<Entry>, tried: set<Key>, cooldowns: map<Key, int>, now: int, drift: nat,
      oversleep: nat) returns (slept: bool, after: int)
    requires AllCooled(chain, tried, cooldowns, now, 1)
    ensures after >= now && (!slept ==> after == now + drift) && (slept ==> after > now)
    ensures slept <==> AllCooled(chain, tried, cooldowns, now + drift, 1) && !AllCooled(chain, tried, cooldowns, now + drift, MAX_WAIT_FOR_COOLDOWN_MS)
    ensures slept ==> !AllCooled(chain, tried, cooldowns, after, 1)
  {
    hide Entry.Key;
    var soonest, first := SoonestExpiry(chain, tried, cooldowns);
    forall i | 0 <= i < |chain| && chain[i].Key() !in tried
      ensures soonest.Some? && soonest.value <= cooldowns[chain[i].Key()]
    {
      assert ExpiresAt(chain, tried, cooldowns, i, cooldowns[chain[i].Key()]);
    }
    after := now + drift;
    assert soonest.Some? ==> chain[first].Key() in cooldowns && cooldowns[chain[first].Key()] == soonest.value;
    if soonest.None? {
      return false, after;
    }
    var waitMs := Min(MAX_WAIT_FOR_COOLDOWN_MS, Max(0, soonest.value - after));
    if waitMs <= 0 || waitMs >= MAX_WAIT_FOR_COOLDOWN_MS {
      return false, after;
    }
    return true, after + waitMs + oversleep;
  }

  /** While the call runs others may mark entries; a retryable failure then sets the entry's own cooldown. */
  method RecordCall(cooldowns: map<Key, int>, call: Call, key: Key, at: int, cooldownMs: int) returns (after: map<Key, int>)
    ensures after == AfterCall(cooldowns, call, key, at, cooldownMs)
  {
    after := cooldowns + call.others;
    if call.outcome.Failure? && call.outcome.retryable {
      after := after[key := at + call.elapsed + cooldownMs];
    }
  }

  /** Call an entry: its success or its fatal failure ends the run, any other failure cools it. */
  method CallEntry(chain: seq<Entry>, cooldownMs: int, calls: nat -> Call, k: nat, i: nat, cooldowns: map<Key, int>, now: int,
      ghost waited: bool, ghost start: map<Key, int>, ghost began: int, ghost log: seq<Attempt>, ghost tried: set<Key>, ghost lastError: Option<string>)
    returns (ended: Option<Result>, failed: Option<string>, cooldownsAfter: map<Key, int>, after: int)
    requires Running(start, began, chain, calls, cooldownMs, log, tried, cooldowns, now, waited, lastError) && k == |log|
    requires FirstEligible(chain, tried, cooldowns, now, i)
    ensures var more := log + [Attempt(i, tried, cooldowns, now, waited)];
      && GoodLog(start, began, chain, calls, cooldownMs, more) && cooldownsAfter == CooldownsAfter(start, chain, calls, cooldownMs, more)
      && after == now + calls(k).elapsed && chain[i].Key() !in tried
      && (ended.Some? ==> !ended.value.EmptyChain? && !ended.value.Exhausted? && Concludes(chain, calls, more, ended.value, cooldownsAfter, after))
      && (ended.None? ==> Running(start, began, chain, calls, cooldownMs, more, tried + {chain[i].Key()}, cooldownsAfter, after, false, failed))
  {
    ghost var a := Attempt(i, tried, cooldowns, now, waited);
    RunCalls(start, began, chain, calls, cooldownMs, log, a, lastError);
    hide *;
    var call := calls(k);
    after := now + call.elapsed;
    cooldownsAfter := RecordCall(cooldowns, call, chain[i].Key(), now, cooldownMs);
    RunEnds(chain, calls, log, a, cooldownsAfter, after);
    match call.outcome
    case Success(value) =>
      ended, failed := Some(Returned(value)), None;
    case Failure(error, retryable) =>
      failed := Some(error);
      if !retryable {
        ended := Some(Thrown(error));
      } else {
        ended := None;
        RunGoesOn(start, began, chain, calls, cooldownMs, log, a, tried + {chain[i].Key()}, cooldownsAfter);
      }
  }

  /** Rounds of the loop that led to the calls of `log`: one for each call, one more for each wait. */
  function Rounds(log: seq<Attempt>): nat {
    if log == [] then 0 else Rounds(log[..|log| - 1]) + if log[|log| - 1].waited then 2 else 1
  }

  /** No key is called twice, so there are at most two rounds for each. */
  lemma RoundsBounded(start: map<Key, int>, began: int, chain: seq<Entry>, calls: nat -> Call, cooldownMs: int, log: seq<Attempt>)
    requires GoodLog(start, began, chain, calls, cooldownMs, log)
    ensures Rounds(log) <= 2 * |Keys(chain)|
  {
    CountTried(start, began, chain, calls, cooldownMs, log);
    Subset(TriedIn(chain, log), Keys(chain));
    AtMostTwice(log);
  }

  lemma {:induction false} AtMostTwice(log: seq<Attempt>)
    ensures Rounds(log) <= 2 * |log|
  {
    if log != [] {
      AtMostTwice(log[..|log| - 1]);
    }
  }

  lemma {:induction false} CountTried(start: map<Key, int>, began: int, chain: seq<Entry>, calls: nat -> Call, cooldownMs: int, log: seq<Attempt>)
    requires GoodLog(start, began, chain, calls, cooldownMs, log)
    ensures |TriedIn(chain, log)| == |log| && TriedIn(chain, log) <= Keys(chain)
  {
    if log != [] {
      var before, a := log[..|log| - 1], log[|log| - 1];
      assert GoodAttempt(start, began, chain, calls, cooldownMs, log[..|log| - 1], a);
      forall k | 0 <= k < |before|
        ensures GoodAttempt(start, began, chain, calls, cooldownMs, before[..k], before[k])
      {
        assert before[..k] == log[..k];
        assert GoodAttempt(start, began, chain, calls, cooldownMs, log[..k], log[k]);
      }
      CountTried(start, began, chain, calls, cooldownMs, before);
    }
  }

  /** Runs the chain. `calls(k)` is the k-th call made; `drift` is how far the clock moves between
      the two readings of a round, and `oversleep` by how much a timer is late. No time passes but
      in the calls and waits of `log` and, when the chain gives up, between the last two readings. */
  method RunChain(chain: seq<Entry>, cooldownMs: int, calls: nat -> Call, drift: nat -> nat, oversleep: nat -> nat,
      start: map<Key, int>, began: int)
    returns (result: Result, cooldowns: map<Key, int>, now: int, ghost log: seq<Attempt>)
    requires chain != []
    ensures GoodLog(start, began, chain, calls, cooldownMs, log) && Rounds(log) <= 2 * |Keys(chain)|
    ensures !result.EmptyChain? && Concludes(chain, calls, log, result, cooldowns, now)
    ensures cooldowns == CooldownsAfter(start, chain, calls, cooldownMs, log)
    ensures result.Exhausted? && (forall k: nat :: drift(k) == 0) ==> AllCooled(chain, TriedIn(chain, log), cooldowns, now, MAX_WAIT_FOR_COOLDOWN_MS)
    ensures if result.Exhausted? then now >= Ready(began, calls, log) else now == Ready(began, calls, log)
    ensures (forall k: nat :: drift(k) == 0) ==> now == Ready(began, calls, log)
  {
    hide *;
    log, cooldowns, now := [], start, began;
    NothingTried(chain);
    NothingDone(start, chain, calls, cooldownMs, now);
    var lastError: Option<string> := None;
    var tried: set<Key> := {};
    var sleeps, k := 0, 0;
    ghost var waited := false;
    while |tried| < |chain|
      invariant k == |log| && Within(chain, tried)
      invariant Running(start, began, chain, calls, cooldownMs, log, tried, cooldowns, now, waited, lastError)
      invariant waited ==> !AllCooled(chain, tried, cooldowns, now, 1)
      decreases Left(chain, tried), if waited then 0 else 1
    {
      var pick := PickEntry(chain, tried, cooldowns, now);
      if pick.None? {
        ghost var before := now;
        var slept;
        slept, now := WaitForCooldown(chain, tried, cooldowns, now, drift(sleeps), oversleep(sleeps));
        if !slept {
          RunExhausted(start, began, chain, calls, cooldownMs, log, tried, cooldowns, before, now, lastError);
          RoundsBounded(start, began, chain, calls, cooldownMs, log);
          result := Exhausted(lastError);
          return;
        }
        RunWaits(start, began, chain, calls, cooldownMs, log, tried, cooldowns, before, now, lastError);
        sleeps := sleeps + 1;
        waited := true;
        continue;
      }
      ghost var a := Attempt(pick.value, tried, cooldowns, now, waited);
      var ended;
      ended, lastError, cooldowns, now :=
        CallEntry(chain, cooldownMs, calls, k, pick.value, cooldowns, now, waited, start, began, log, tried, lastError);
      TriedGrows(chain, tried, pick.value);
      tried := tried + {chain[pick.value].Key()};
      log := log + [a];
      k := k + 1;
      waited := false;
      ReadyAfter(began, calls, log);
      if ended.Some? {
        RoundsBounded(start, began, chain, calls, cooldownMs, log);
        result := ended.value;
        return;
      }
    }
    AllTried(chain, tried, cooldowns, now, 1);
    AllTried(chain, tried, cooldowns, now, MAX_WAIT_FOR_COOLDOWN_MS);
    RunExhausted(start, began, chain, calls, cooldownMs, log, tried, cooldowns, now, now, lastError);
    RoundsBounded(start, began, chain, calls, cooldownMs, log);
    result := Exhausted(lastError);
  }

  lemma ReadyAfter(began: int, calls: nat -> Call, log: seq<Attempt>)
    requires log != []
    ensures Ready(began, calls, log) == log[|log| - 1].at + calls(|log| - 1).elapsed
  {
  }

  // ---------------------------------------------------------------------------
  // The module's state

  class Cooldowns {
    var cooldownMap: map<Key, int>

    constructor ()
      ensures cooldownMap == map[]
    {
      cooldownMap := map[];
    }

    /** A mark from outside is in force at once exactly when its duration is positive. */
    method MarkEntryCooldown(e: Entry, ms: int, now: int)
      modifies this`cooldownMap
      ensures forall later | later >= now :: InCooldown(cooldownMap, e.Key(), later) <==> later < now + ms
      ensures forall k, at | k != e.Key() :: InCooldown(cooldownMap, k, at) == old(InCooldown(cooldownMap, k, at))
    {
      cooldownMap := cooldownMap[e.Key() := now + Max(0, ms)];
    }

    method WithFallbackChain(chain: seq<Entry>, cooldownMs: int, calls: nat -> Call, drift: nat -> nat, oversleep: nat -> nat, now: int)
      returns (result: Result, after: int, ghost log: seq<Attempt>)
      modifies this`cooldownMap
      ensures result.EmptyChain? <==> chain == []
      ensures chain == [] ==> log == [] && unchanged(this)
      ensures GoodLog(old(cooldownMap), now, chain, calls, cooldownMs, log) && Rounds(log) <= 2 * |Keys(chain)|
      ensures chain != [] ==> Concludes(chain, calls, log, result, cooldownMap, after)
      ensures result.Exhausted? && (forall k: nat :: drift(k) == 0) ==> AllCooled(chain, TriedIn(chain, log), cooldownMap, after, MAX_WAIT_FOR_COOLDOWN_MS)
      ensures cooldownMap == CooldownsAfter(old(cooldownMap), chain, calls, cooldownMs, log)
    {
      if |chain| == 0 {
        NothingDone(cooldownMap, chain, calls, cooldownMs, now);
        return EmptyChain, now, [];
      }
      result, cooldownMap, after, log := RunChain(chain, cooldownMs, calls, drift, oversleep, cooldownMap, now);
    }
  }
}
