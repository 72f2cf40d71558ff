/** The bounded cache of SDK clients: it always holds the most recently used keys, in order of
    their last use, and serves the client that was last built for a key. */
module ClientCaches {
  /** The serialized configuration of a client. */
  datatype Key = ConfigKey(json: string)

  // ---------------------------------------------------------------------------
  // Recency

  predicate Distinct(s: seq<Key>) {
    forall i, j | 0 <= i < j < |s| :: s[i] != s[j]
  }

  /** `s` without the key, which occurs at most once in it. */
  function Without(s: seq<Key>, key: Key): (r: seq<Key>)
    ensures forall k :: k in r <==> k in s && k != key
    ensures key !in s ==> r == s
    ensures |r| <= |s|
  {
    if s == [] then []
    else if s[0] == key then
      assert s == [s[0]] + s[1..];
      Without(s[1..], key)
    else
      assert s == [s[0]] + s[1..];
      [s[0]] + Without(s[1..], key)
  }

  /** The distinct keys of a history, least recently used first. */
  function Recent(history: seq<Key>): (r: seq<Key>)
    ensures forall k :: k in r <==> k in history
  {
    if history == [] then []
    else
      var last := |history| - 1;
      assert history == history[..last] + [history[last]];
      Without(Recent(history[..last]), history[last]) + [history[last]]
  }

  function LastN(s: seq<Key>, n: nat): seq<Key> {
    if |s| <= n then s else s[|s| - n..]
  }

  function LastUse(history: seq<Key>, key: Key): (i: int)
    ensures key in history ==> 0 <= i < |history| && history[i] == key && forall j | i < j < |history| :: history[j] != key
  {
    if history == [] then -1
    else if history[|history| - 1] == key then |history| - 1
    else
      assert history == history[..|history| - 1] + [history[|history| - 1]];
      LastUse(history[..|history| - 1], key)
  }

  predicate Ordered(s: seq<Key>, order: Key -> int) {
    forall i, j | 0 <= i < j < |s| :: order(s[i]) < order(s[j])
  }

  lemma OrderedCons(first: Key, rest: seq<Key>, order: Key -> int)
    ensures Ordered([first] + rest, order) <==> Ordered(rest, order) && forall k | k in rest :: order(first) < order(k)
  {
    var s := [first] + rest;
    if Ordered(s, order) {
      forall i, j | 0 <= i < j < |rest|
        ensures order(rest[i]) < order(rest[j])
      {
        assert s[i + 1] == rest[i] && s[j + 1] == rest[j];
      }
      forall k | k in rest
        ensures order(first) < order(k)
      {
        var i :| 0 <= i < |rest| && rest[i] == k;
        assert s[0] == first && s[i + 1] == k;
      }
    }
  }

  lemma OrderedSnoc(rest: seq<Key>, last: Key, order: Key -> int)
    requires Ordered(rest, order) && forall k | k in rest :: order(k) < order(last)
    ensures Ordered(rest + [last], order)
  {
    var s := rest + [last];
    forall i, j | 0 <= i < j < |s|
      ensures order(s[i]) < order(s[j])
    {
      assert s[i] == rest[i] && rest[i] in rest;
    }
  }

  lemma {:induction false} WithoutKeepsOrder(s: seq<Key>, key: Key, order: Key -> int)
    requires Ordered(s, order)
    ensures Ordered(Without(s, key), order)
  {
    if s != [] {
      assert s == [s[0]] + s[1..];
      OrderedCons(s[0], s[1..], order);
      WithoutKeepsOrder(s[1..], key, order);
      OrderedCons(s[0], Without(s[1..], key), order);
      hide Ordered;
    }
  }

  lemma SameOrder(s: seq<Key>, a: Key -> int, b: Key -> int)
    requires Ordered(s, a) && forall k | k in s :: a(k) == b(k)
    ensures Ordered(s, b)
  {
    assert forall i | 0 <= i < |s| :: s[i] in s;
  }

  /** The recency list is ordered by last use; so its last keys are the most recently used ones. */
  lemma {:induction false} RecentIsByLastUse(history: seq<Key>)
    ensures Ordered(Recent(history), k => LastUse(history, k))
  {
    hide Ordered;
    if history == [] {
      OrderedNothing(k => LastUse(history, k));
    } else {
      var last := |history| - 1;
      var early, key := history[..last], history[last];
      RecentIsByLastUse(early);
      WithoutKeepsOrder(Recent(early), key, k => LastUse(early, k));
      var w := Without(Recent(early), key);
      SameOrder(w, k => LastUse(early, k), k => LastUse(history, k));
      OrderedSnoc(w, key, k => LastUse(history, k));
    }
  }

  lemma OrderedNothing(order: Key -> int)
    ensures Ordered([], order)
  {
  }

  lemma RecentDistinct(history: seq<Key>)
    ensures Distinct(Recent(history))
  {
    RecentIsByLastUse(history);
    var r := Recent(history);
    forall i, j | 0 <= i < j < |r|
      ensures r[i] != r[j]
    {
      assert (k => LastUse(history, k))(r[i]) < (k => LastUse(history, k))(r[j]);
    }
  }

  // ---------------------------------------------------------------------------
  // One use of a bounded list

  lemma {:induction false} WithoutAppend(a: seq<Key>, b: seq<Key>, key: Key)
    ensures Without(a + b, key) == Without(a, key) + Without(b, key)
  {
    if a == [] {
      assert a + b == b;
    } else {
      assert (a + b)[1..] == a[1..] + b;
      WithoutAppend(a[1..], b, key);
    }
  }

  lemma {:induction false} WithoutLength(s: seq<Key>, key: Key)
    requires Distinct(s)
    ensures |Without(s, key)| == if key in s then |s| - 1 else |s|
  {
    if s != [] {
      assert s == [s[0]] + s[1..];
      assert s[0] !in s[1..];
      WithoutLength(s[1..], key);
    }
  }

  lemma Split(s: seq<Key>, n: nat) returns (early: seq<Key>, recent: seq<Key>)
    ensures s == early + recent && recent == LastN(s, n)
    ensures |recent| <= n && (early == [] || |recent| == n)
    ensures Distinct(s) ==> Distinct(recent)
  {
    recent := LastN(s, n);
    early := s[..|s| - |recent|];
    if Distinct(s) {
      DistinctPart(s, |s| - |recent|);
    }
  }

  /** Using a key that the bounded list holds moves it to the end. */
  lemma HitKeepsLast(s: seq<Key>, key: Key, n: nat)
    requires Distinct(s) && key in LastN(s, n)
    ensures Without(LastN(s, n), key) + [key] == LastN(Without(s, key) + [key], n)
  {
    var early, recent := Split(s, n);
    hide Without, LastN;
    NotInBoth(early, recent, key);
    hide Distinct;
    WithoutAppend(early, recent, key);
    WithoutLength(recent, key);
    var rest := Without(recent, key);
    LastOfAppend(early, rest + [key], n);
    Associative(early, rest, [key]);
  }

  lemma Associative(a: seq<Key>, b: seq<Key>, c: seq<Key>)
    ensures (a + b) + c == a + (b + c)
  {
  }

  lemma NotInBoth(a: seq<Key>, b: seq<Key>, key: Key)
    requires Distinct(a + b) && key in b
    ensures key !in a
  {
    var i :| 0 <= i < |b| && b[i] == key;
    assert (a + b)[|a| + i] == key;
    assert forall j | 0 <= j < |a| :: (a + b)[j] == a[j];
  }

  lemma LastOfAppend(a: seq<Key>, b: seq<Key>, n: nat)
    requires |b| == n || (a == [] && |b| <= n)
    ensures LastN(a + b, n) == b
  {
  }

  lemma DistinctPart(s: seq<Key>, i: nat)
    requires Distinct(s) && i <= |s|
    ensures Distinct(s[i..])
  {
  }

  /** Using a key that it does not hold appends it; the first key leaves when the bound is passed. */
  lemma MissKeepsLast(s: seq<Key>, key: Key, n: nat)
    requires Distinct(s) && key !in LastN(s, n)
    ensures var more := LastN(s, n) + [key];
      (if |more| > n then more[1..] else more) == LastN(Without(s, key) + [key], n)
  {
    var early, recent := Split(s, n);
    hide Without, LastN, Distinct;
    WithoutAppend(early, recent, key);
    var e := Without(early, key);
    Associative(e, recent, [key]);
    if |recent| == n {
      MoveFirst(e, recent + [key]);
      LastOfAppend(e + [(recent + [key])[0]], (recent + [key])[1..], n);
    } else {
      LastOfAppend(e, recent + [key], n);
    }
  }

  lemma MoveFirst(a: seq<Key>, b: seq<Key>)
    requires b != []
    ensures a + b == (a + [b[0]]) + b[1..]
  {
  }

  // ---------------------------------------------------------------------------
  // The cache

  lemma RecentOfMore(history: seq<Key>, key: Key)
    ensures Recent(history + [key]) == Without(Recent(history), key) + [key]
  {
    assert (history + [key])[..|history|] == history;
  }

  lemma OnlyFirst(more: seq<Key>, s: seq<Key>, n: nat, key: Key)
    requires Distinct(s) && key !in LastN(s, n) && more == LastN(s, n) + [key]
    ensures forall k :: k in more[1..] <==> k in more && k != more[0]
  {
    DistinctPart(s, |s| - |LastN(s, n)|);
    assert Distinct(more);
    assert more == [more[0]] + more[1..];
  }

  function Trimmed(s: seq<Key>, n: nat): seq<Key> {
    if s != [] && |s| > n then s[1..] else s
  }

  /** How the list of most recently used keys changes with one use. */
  lemma UseKey(history: seq<Key>, order: seq<Key>, key: Key, n: nat)
    requires order == LastN(Recent(history), n)
    ensures var next := LastN(Recent(history + [key]), n);
      if key in order then next == Without(order, key) + [key] && forall k :: k in next <==> k in order
      else next == Trimmed(order + [key], n) && forall k :: k in (order + [key])[1..] <==> k in order + [key] && k != (order + [key])[0]
  {
    RecentDistinct(history);
    RecentOfMore(history, key);
    if key in order {
      HitKeepsLast(Recent(history), key, n);
    } else {
      MissKeepsLast(Recent(history), key, n);
      OnlyFirst(order + [key], Recent(history), n, key);
    }
    hide Recent, LastN, Distinct;
  }

  /** The map holds exactly the listed keys, each with the client last built for it. */
  ghost predicate Serves(order: seq<Key>, clients: map<Key, int>, lastBuilt: map<Key, int>) {
    && (forall k :: k in clients <==> k in order)
    && (forall k | k in order :: k in lastBuilt && clients[k] == lastBuilt[k])
  }

  function Dropped(clients: map<Key, int>, key: Key): map<Key, int> {
    map k | k in clients && k != key :: clients[k]
  }

  lemma ServesMore(order: seq<Key>, clients: map<Key, int>, lastBuilt: map<Key, int>, key: Key, client: int)
    requires Serves(order, clients, lastBuilt)
    ensures Serves(order + [key], clients[key := client], lastBuilt[key := client])
  {
  }

  lemma ServesLess(order: seq<Key>, clients: map<Key, int>, lastBuilt: map<Key, int>, next: seq<Key>, key: Key)
    requires Serves(order, clients, lastBuilt) && forall k :: k in next <==> k in order && k != key
    ensures Serves(next, Dropped(clients, key), lastBuilt)
  {
  }

  lemma ServesMoved(order: seq<Key>, clients: map<Key, int>, lastBuilt: map<Key, int>, next: seq<Key>)
    requires Serves(order, clients, lastBuilt) && forall k :: k in next <==> k in order
    ensures Serves(next, clients, lastBuilt)
  {
  }

  lemma ServesKey(order: seq<Key>, clients: map<Key, int>, lastBuilt: map<Key, int>, key: Key)
    requires Serves(order, clients, lastBuilt)
    ensures key in clients <==> key in order
    ensures key in clients ==> key in lastBuilt && clients[key] == lastBuilt[key]
  {
  }

  ghost function Bound(maxSize: int): nat {
    if maxSize < 0 then 0 else maxSize
  }

  /** One use of the map: a hit is put in anew, a miss is built and may push out the oldest. */
  method Use(order: seq<Key>, clients: map<Key, int>, maxSize: int, key: Key, made: int, ghost history: seq<Key>,
      ghost lastBuilt: map<Key, int>)
    returns (client: int, built: bool, orderAfter: seq<Key>, clientsAfter: map<Key, int>)
    requires order == LastN(Recent(history), Bound(maxSize)) && Serves(order, clients, lastBuilt)
    ensures built <==> key !in clients
    ensures key in clients <==> key in LastN(Recent(history), Bound(maxSize))
    ensures orderAfter == LastN(Recent(history + [key]), Bound(maxSize))
    ensures Serves(orderAfter, clientsAfter, if built then lastBuilt[key := made] else lastBuilt)
    ensures if built then client == made else key in lastBuilt && client == lastBuilt[key]
  {
    UseKey(history, order, key, Bound(maxSize));
    ServesKey(order, clients, lastBuilt, key);
    hide Recent, LastN, Serves, Without, Dropped;
    if key in clients {
      client, built := clients[key], false;
      orderAfter := Without(order, key) + [key];
      clientsAfter := clients;
      ServesMoved(order, clients, lastBuilt, orderAfter);
    } else {
      client, built := made, true;
      orderAfter := order + [key];
      clientsAfter := clients[key := client];
      ServesMore(order, clients, lastBuilt, key, client);
      if |orderAfter| > maxSize {
        ServesLess(orderAfter, clientsAfter, lastBuilt[key := client], orderAfter[1..], orderAfter[0]);
        clientsAfter := Dropped(clientsAfter, orderAfter[0]);
        orderAfter := orderAfter[1..];
      }
    }
  }

  class ClientCache {
    const maxSize: int
    /** The keys in insertion order of the underlying map. */
    var order: seq<Key>
    var clients: map<Key, int>
    ghost var history: seq<Key>
    ghost var lastBuilt: map<Key, int>

    ghost function Capacity(): nat {
      Bound(maxSize)
    }

    ghost predicate Valid()
      reads this
    {
      && order == LastN(Recent(history), Capacity())
      && Serves(order, clients, lastBuilt)
    }

    constructor (maxSize: int)
      ensures Valid() && history == [] && this.maxSize == maxSize
    {
      this.maxSize := maxSize;
      order, clients, history, lastBuilt := [], map[], [], map[];
    }

    /** A client is built exactly when the key is not among the most recently used; otherwise the
        client last built for the key is returned. `made` is what the factory would build. */
    method GetOrCreate(key: Key, made: int) returns (client: int, built: bool)
      requires Valid()
      modifies this
      ensures Valid() && history == old(history) + [key]
      ensures built <==> key !in LastN(Recent(old(history)), Capacity())
      ensures lastBuilt == if built then old(lastBuilt)[key := made] else old(lastBuilt)
      ensures key in lastBuilt && client == lastBuilt[key]
    {
      ghost var next := if key in clients then lastBuilt else lastBuilt[key := made];
      client, built, order, clients := Use(order, clients, maxSize, key, made, history, lastBuilt);
      lastBuilt := next;
      history := history + [key];
    }

    method Clear()
      requires Valid()
      modifies this
      ensures Valid() && history == [] && order == []
    {
      order, clients, history := [], map[], [];
    }
  }

  /** A smaller cache holds nothing that a larger one on the same run does not, so it also hits
      no more often. */
  lemma SmallerIsIncluded(history: seq<Key>, small: nat, large: nat)
    requires small <= large
    ensures forall k | k in LastN(Recent(history), small) :: k in LastN(Recent(history), large)
  {
    var r := Recent(history);
    hide Recent;
    forall k | k in LastN(r, small)
      ensures k in LastN(r, large)
    {
      var s, l := LastN(r, small), LastN(r, large);
      var i :| 0 <= i < |s| && s[i] == k;
      assert l[|l| - |s| + i] == k;
    }
  }

  predicate HitAt(keys: seq<Key>, i: nat, n: nat)
    requires i < |keys|
  {
    keys[i] in LastN(Recent(keys[..i]), n)
  }

  /** How many of the first `i` uses of a run find their key among the `n` most recently used. */
  function Hits(keys: seq<Key>, i: nat, n: nat): nat
    requires i <= |keys|
  {
    if i == 0 then 0 else Hits(keys, i - 1, n) + if HitAt(keys, i - 1, n) then 1 else 0
  }

  /** A larger cache hits at least as often on every run. */
  lemma {:induction false} LargerHitsMore(keys: seq<Key>, i: nat, small: nat, large: nat)
    requires i <= |keys| && small <= large
    ensures Hits(keys, i, small) <= Hits(keys, i, large)
  {
    hide Recent, LastN;
    if i > 0 {
      LargerHitsMore(keys, i - 1, small, large);
      SmallerIsIncluded(keys[..i - 1], small, large);
    }
  }

  /** A whole run hits exactly where the recency list of the run so far says. */
  method CountHits(keys: seq<Key>, maxSize: int) returns (hits: nat)
    ensures hits == Hits(keys, |keys|, Bound(maxSize))
  {
    hide Recent, LastN, Serves, Without;
    var cache := new ClientCache(maxSize);
    hits := 0;
    for i := 0 to |keys|
      invariant fresh(cache) && cache.Valid() && cache.history == keys[..i] && cache.maxSize == maxSize
      invariant hits == Hits(keys, i, Bound(maxSize))
    {
      var client, built := cache.GetOrCreate(keys[i], i);
      hits := hits + if built then 0 else 1;
    }
  }
}
