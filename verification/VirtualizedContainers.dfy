/** The virtualized transcript container: it re-renders only stale and trailing children and
    reuses the unchanged prefix of its last flatten. The flatten it returns is the one a full
    rebuild of its caches gives, and a hit test finds the child that owns a row. */
module VirtualizedContainers {
  import opened Options

  /** Components and rendered arrays are references. A rendered array does not change once
      returned, so its lines are a function of the reference. */
  type Contents = nat -> seq<string>

  datatype ChildRenderCache = Cache(component: nat, width: int, lines: nat)
  datatype Target = Target(child: nat, childStart: nat)

  // ---------------------------------------------------------------------------
  // The simple form: flatten everything

  function Flat(contents: Contents, caches: seq<ChildRenderCache>): seq<string> {
    if caches == [] then []
    else
      var last := |caches| - 1;
      Flat(contents, caches[..last]) + contents(caches[last].lines)
  }

  /** What every child renders to now, from top to bottom. */
  function Current(contents: Contents, children: seq<nat>, width: int, out: (nat, int) -> nat): seq<string> {
    if children == [] then []
    else
      var last := |children| - 1;
      Current(contents, children[..last], width, out) + contents(out(children[last], width))
  }

  /** The row at which child `i` starts. */
  function Offset(contents: Contents, caches: seq<ChildRenderCache>, i: nat): nat
    requires i <= |caches|
  {
    |Flat(contents, caches[..i])|
  }

  lemma FlatOneMore(contents: Contents, caches: seq<ChildRenderCache>, i: nat)
    requires i < |caches|
    ensures Flat(contents, caches[..i + 1]) == Flat(contents, caches[..i]) + contents(caches[i].lines)
  {
    assert caches[..i + 1][..i] == caches[..i];
  }

  lemma {:induction false} FlatPrefix(contents: Contents, caches: seq<ChildRenderCache>, i: nat, j: nat)
    requires i <= j <= |caches|
    ensures Flat(contents, caches[..i]) <= Flat(contents, caches[..j])
    ensures Offset(contents, caches, i) <= Offset(contents, caches, j)
    decreases j - i
  {
    if i < j {
      FlatPrefix(contents, caches, i, j - 1);
      FlatOneMore(contents, caches, j - 1);
    }
  }

  lemma {:induction false} FlatSameLines(contents: Contents, a: seq<ChildRenderCache>, b: seq<ChildRenderCache>)
    requires |a| == |b| && forall k | 0 <= k < |a| :: a[k].lines == b[k].lines
    ensures Flat(contents, a) == Flat(contents, b)
  {
    if a != [] {
      FlatSameLines(contents, a[..|a| - 1], b[..|b| - 1]);
    }
  }

  lemma {:induction false} FlatIsCurrent(contents: Contents, caches: seq<ChildRenderCache>, children: seq<nat>, width: int,
      out: (nat, int) -> nat)
    requires |caches| == |children|
    requires forall k | 0 <= k < |caches| :: contents(caches[k].lines) == contents(out(children[k], width))
    ensures Flat(contents, caches) == Current(contents, children, width, out)
  {
    if caches != [] {
      var last := |caches| - 1;
      FlatIsCurrent(contents, caches[..last], children[..last], width, out);
    }
  }

  // ---------------------------------------------------------------------------
  // The hot zone

  function LinesOf(contents: Contents, caches: seq<ChildRenderCache>, i: nat): nat {
    if i < |caches| then |contents(caches[i].lines)| else 0
  }

  /** Cached lines of the children from `i` to the last; a child never rendered has none. */
  function TailLines(contents: Contents, caches: seq<ChildRenderCache>, i: nat, n: nat): nat
    decreases n - i
  {
    if i >= n then 0 else LinesOf(contents, caches, i) + TailLines(contents, caches, i + 1, n)
  }

  /** A child is cold when the children below it fill the line budget. */
  predicate Cold(contents: Contents, caches: seq<ChildRenderCache>, budget: int, i: nat, n: nat) {
    i + 1 < n && TailLines(contents, caches, i + 1, n) >= budget
  }

  lemma {:induction false} TailShrinks(contents: Contents, caches: seq<ChildRenderCache>, i: nat, j: nat, n: nat)
    requires i <= j <= n
    ensures TailLines(contents, caches, i, n) >= TailLines(contents, caches, j, n)
    decreases j - i
  {
    if i < j {
      TailShrinks(contents, caches, i + 1, j, n);
    }
  }

  /** A child appended but not yet rendered adds no lines. */
  lemma {:induction false} TailOfAppended(contents: Contents, caches: seq<ChildRenderCache>, i: nat, n: nat)
    requires |caches| <= n
    ensures TailLines(contents, caches, i, n + 1) == TailLines(contents, caches, i, n)
    decreases n + 1 - i
  {
    if i < n + 1 {
      TailOfAppended(contents, caches, i + 1, n);
    }
  }

  function Without<T>(s: seq<T>, index: nat): (r: seq<T>)
    ensures |r| == if index < |s| then |s| - 1 else |s|
  {
    if index < |s| then s[..index] + s[index + 1..] else s
  }

  /** Where the child at `i` stood before the one at `index` was removed. */
  function Before(i: nat, index: nat): nat {
    if i < index then i else i + 1
  }

  lemma {:induction false} TailAfterRemoval(contents: Contents, caches: seq<ChildRenderCache>, index: nat, i: nat, n: nat)
    requires index < n && i < n
    ensures TailLines(contents, Without(caches, index), i, n - 1) <= TailLines(contents, caches, Before(i, index), n)
    decreases n - i
  {
    if i + 1 < n {
      TailAfterRemoval(contents, caches, index, i + 1, n);
      assert LinesOf(contents, Without(caches, index), i) == LinesOf(contents, caches, Before(i, index));
    }
  }

  /** Each cache belongs to the child at its position; children without one are stale. */
  ghost predicate Aligned(children: seq<nat>, caches: seq<ChildRenderCache>, width: int, stale: set<nat>) {
    && |caches| <= |children|
    && (forall i | 0 <= i < |caches| :: caches[i].component == children[i] && caches[i].width == width)
    && (forall i | |caches| <= i < |children| :: i in stale)
  }

  /** A child that has a cache, is not stale, and is cold. */
  predicate Skips(contents: Contents, caches: seq<ChildRenderCache>, stale: set<nat>, budget: int, n: nat, i: nat) {
    i < |caches| && i !in stale && Cold(contents, caches, budget, i, n)
  }

  lemma SkippedBeforeRemoval(contents: Contents, caches: seq<ChildRenderCache>, stale: set<nat>, next: set<nat>,
      budget: int, index: nat, n: nat)
    requires index < n && forall i: nat :: i in next <==> Before(i, index) in stale
    ensures forall i: nat | Skips(contents, Without(caches, index), next, budget, n - 1, i) :: Skips(contents, caches, stale, budget, n, Before(i, index))
  {
    forall i: nat | Skips(contents, Without(caches, index), next, budget, n - 1, i)
      ensures Skips(contents, caches, stale, budget, n, Before(i, index))
    {
      TailAfterRemoval(contents, caches, index, i + 1, n);
      TailShrinks(contents, caches, Before(i, index) + 1, Before(i + 1, index), n);
    }
  }

  lemma AlignedAfterRemoval(children: seq<nat>, caches: seq<ChildRenderCache>, width: int, stale: set<nat>, next: set<nat>, index: nat)
    requires index < |children| && Aligned(children, caches, width, stale)
    requires forall i: nat :: i in next <==> Before(i, index) in stale
    ensures Aligned(Without(children, index), Without(caches, index), width, next)
  {
  }

  method RebuildStaleIndicesAfterRemoval(stale: set<nat>, removed: nat) returns (next: set<nat>)
    ensures forall i: nat :: i in next <==> Before(i, removed) in stale
  {
    next := {};
    var rest := stale;
    while rest != {}
      invariant rest <= stale
      invariant forall i: nat :: i in next <==> Before(i, removed) in stale - rest
      decreases |rest|
    {
      var idx :| idx in rest;
      if idx < removed {
        next := next + {idx};
      } else if idx > removed {
        next := next + {idx - 1};
      }
      rest := rest - {idx};
    }
  }

  /** The first position of a component, or the number of children. */
  function FirstIndex(children: seq<nat>, c: nat): (k: nat)
    ensures k <= |children| && (k < |children| ==> children[k] == c)
    ensures forall j | 0 <= j < k :: children[j] != c
  {
    if children == [] then 0 else if children[0] == c then 0 else 1 + FirstIndex(children[1..], c)
  }

  /** `a` and `b` hold the same rendered arrays at the first `n` positions. */
  ghost predicate SameFirst(a: seq<ChildRenderCache>, b: seq<ChildRenderCache>, n: nat) {
    n <= |a| && n <= |b| && forall k | 0 <= k < n :: a[k].lines == b[k].lines
  }

  ghost predicate IsFlattenOf(contents: Contents, caches: seq<ChildRenderCache>, lines: seq<string>, offsets: seq<nat>) {
    && |offsets| == |caches|
    && (forall i | 0 <= i < |offsets| :: offsets[i] == Offset(contents, caches, i))
    && lines == Flat(contents, caches)
  }

  /** The first `i` children are flattened into `lines`, starting at the first `i` offsets. */
  ghost predicate FlattenedUpTo(contents: Contents, caches: seq<ChildRenderCache>, i: nat, lines: seq<string>, offsets: seq<nat>) {
    && i <= |caches| && i <= |offsets|
    && lines == Flat(contents, caches[..i])
    && forall k | 0 <= k < i :: offsets[k] == Offset(contents, caches, k)
  }

  lemma NothingFlattened(contents: Contents, caches: seq<ChildRenderCache>)
    ensures FlattenedUpTo(contents, caches, 0, [], [])
  {
  }

  lemma FlattenOneMore(contents: Contents, caches: seq<ChildRenderCache>, i: nat, lines: seq<string>, offsets: seq<nat>, next: seq<nat>)
    requires FlattenedUpTo(contents, caches, i, lines, offsets) && i < |caches|
    requires i < |next| && next[..i] == offsets[..i] && next[i] == |lines|
    ensures FlattenedUpTo(contents, caches, i + 1, lines + contents(caches[i].lines), next)
  {
    FlatOneMore(contents, caches, i);
    forall k | 0 <= k < i
      ensures next[k] == offsets[k]
    {
      assert next[..i][k] == offsets[..i][k];
    }
  }

  lemma FlattenedAll(contents: Contents, caches: seq<ChildRenderCache>, lines: seq<string>, offsets: seq<nat>)
    requires FlattenedUpTo(contents, caches, |caches|, lines, offsets) && |offsets| == |caches|
    ensures IsFlattenOf(contents, caches, lines, offsets)
  {
    assert caches[..|caches|] == caches;
  }

  /** Unchanged leading children still flatten to the start of the old flatten. */
  lemma PrefixIsCurrent(contents: Contents, before: seq<ChildRenderCache>, after: seq<ChildRenderCache>, n: nat,
      lines: seq<string>, offsets: seq<nat>)
    requires SameFirst(before, after, n) && IsFlattenOf(contents, before, lines, offsets)
    ensures n <= |before| == |offsets|
    ensures var prefixLen := if n < |offsets| then offsets[n] else |lines|;
      prefixLen <= |lines| && FlattenedUpTo(contents, after, n, lines[..prefixLen], offsets)
  {
    forall k | 0 <= k <= n
      ensures Flat(contents, before[..k]) == Flat(contents, after[..k])
    {
      FlatSameLines(contents, before[..k], after[..k]);
    }
    assert before[..|before|] == before;
    FlatPrefix(contents, before, n, |before|);
  }

  /** The cache of child `i` after a render at the cached width. */
  function RenderedAt(contents: Contents, budget: int, children: seq<nat>, before: seq<ChildRenderCache>, stale: set<nat>,
      width: int, out: (nat, int) -> nat, i: nat): ChildRenderCache
    requires i < |children|
  {
    if Skips(contents, before, stale, budget, |children|, i) then before[i] else Cache(children[i], width, out(children[i], width))
  }

  /** The first `i` children have been rendered or skipped, the others not been touched. */
  ghost predicate RenderedUpTo(contents: Contents, budget: int, children: seq<nat>, before: seq<ChildRenderCache>,
      stale: set<nat>, width: int, out: (nat, int) -> nat, i: nat, caches: seq<ChildRenderCache>) {
    && i <= |children| && |caches| == (if i < |before| then |before| else i)
    && (forall k: nat | k < i :: caches[k] == RenderedAt(contents, budget, children, before, stale, width, out, k))
    && (forall k: nat | i <= k < |before| :: caches[k] == before[k])
  }

  /** `min` is the first of `n` positions whose rendered array is new, or -1. */
  ghost predicate FirstChange(before: seq<ChildRenderCache>, caches: seq<ChildRenderCache>, n: nat, min: int) {
    && (min == -1 <==> SameFirst(before, caches, n))
    && (min != -1 ==> 0 <= min < n && SameFirst(before, caches, min))
  }

  lemma NothingRendered(contents: Contents, budget: int, children: seq<nat>, before: seq<ChildRenderCache>, stale: set<nat>,
      width: int, out: (nat, int) -> nat)
    ensures RenderedUpTo(contents, budget, children, before, stale, width, out, 0, before)
    ensures FirstChange(before, before, 0, -1)
  {
  }

  lemma OneMoreRendered(contents: Contents, budget: int, children: seq<nat>, before: seq<ChildRenderCache>, stale: set<nat>,
      width: int, out: (nat, int) -> nat,
      i: nat, caches: seq<ChildRenderCache>, min: int)
    requires RenderedUpTo(contents, budget, children, before, stale, width, out, i, caches) && i < |children|
    requires forall k | |before| <= k < |children| :: k in stale
    requires FirstChange(before, caches, i, min)
    ensures var cache := RenderedAt(contents, budget, children, before, stale, width, out, i);
      var next := if i < |caches| then caches[i := cache] else caches + [cache];
      && RenderedUpTo(contents, budget, children, before, stale, width, out, i + 1, next)
      && (Skips(contents, before, stale, budget, |children|, i) ==> next == caches)
      && FirstChange(before, next, i + 1, if min == -1 && (i >= |caches| || cache.lines != caches[i].lines) then i else min)
  {
  }

  function AllRendered(children: seq<nat>, width: int, out: (nat, int) -> nat): seq<ChildRenderCache> {
    seq(|children|, i requires 0 <= i < |children| => Cache(children[i], width, out(children[i], width)))
  }

  lemma AlignedAfterRender(contents: Contents, budget: int, children: seq<nat>, before: seq<ChildRenderCache>,
      stale: set<nat>, width: int, out: (nat, int) -> nat,
      caches: seq<ChildRenderCache>, next: set<nat>)
    requires Aligned(children, before, width, stale)
    requires RenderedUpTo(contents, budget, children, before, stale, width, out, |children|, caches)
    ensures |caches| == |children| && Aligned(children, caches, width, next)
  {
  }

  lemma SameFlatten(contents: Contents, before: seq<ChildRenderCache>, after: seq<ChildRenderCache>, lines: seq<string>, offsets: seq<nat>)
    requires |before| <= |after| && SameFirst(before, after, |after|) && IsFlattenOf(contents, before, lines, offsets)
    ensures IsFlattenOf(contents, after, lines, offsets)
  {
    PrefixIsCurrent(contents, before, after, |after|, lines, offsets);
    FlattenedAll(contents, after, lines, offsets);
  }

  lemma ChangeInRange(before: seq<ChildRenderCache>, caches: seq<ChildRenderCache>, n: nat, min: int)
    requires FirstChange(before, caches, n, min)
    ensures min != -1 ==> 0 <= min <= |before| && SameFirst(before, caches, min)
  {
  }

  lemma OffsetsOrdered(contents: Contents, caches: seq<ChildRenderCache>, lines: seq<string>, offsets: seq<nat>)
    requires IsFlattenOf(contents, caches, lines, offsets)
    ensures forall i, j | 0 <= i <= j < |offsets| :: offsets[i] <= offsets[j]
    ensures if offsets == [] then lines == [] else offsets[0] == 0
  {
    forall i, j | 0 <= i <= j < |offsets|
      ensures offsets[i] <= offsets[j]
    {
      FlatPrefix(contents, caches, i, j);
    }
  }

  /** A row from a child's start up to the next child's start is a row of that child, and of no other. */
  lemma RowBelongs(contents: Contents, caches: seq<ChildRenderCache>, lines: seq<string>, offsets: seq<nat>, k: nat, row: nat)
    requires IsFlattenOf(contents, caches, lines, offsets) && k < |offsets|
    requires row < |lines| && offsets[k] <= row < if k + 1 < |offsets| then offsets[k + 1] else |lines|
    ensures Offset(contents, caches, k) <= row < Offset(contents, caches, k + 1)
    ensures row - offsets[k] < |contents(caches[k].lines)| && lines[row] == contents(caches[k].lines)[row - offsets[k]]
    ensures forall j: nat | j < |caches| && Offset(contents, caches, j) <= row < Offset(contents, caches, j + 1) :: j == k
  {
    assert caches[..|caches|] == caches;
    FlatOneMore(contents, caches, k);
    FlatPrefix(contents, caches, k + 1, |caches|);
    forall j: nat | j < |caches| && Offset(contents, caches, j) <= row < Offset(contents, caches, j + 1)
      ensures j == k
    {
      if j < k {
        FlatPrefix(contents, caches, j + 1, k);
      } else if k < j {
        FlatPrefix(contents, caches, k + 1, j);
      }
    }
  }

  /** What a container holds that decides the next render. */
  datatype Box = Box(children: seq<nat>, caches: seq<ChildRenderCache>, stale: set<nat>, width: int, external: bool)

  const EmptyBox := Box([], [], {}, -1, false)

  class VirtualizedContainer {
    const contents: Contents
    const tailLineBudget: int
    var childList: seq<nat>
    var childrenChangedExternally: bool
    var cacheWidth: int
    var childCaches: seq<ChildRenderCache>
    var flattenLines: seq<string>
    /** Identity of the array `flattenLines`: parents detect a change by it. */
    var flattenId: nat
    var staleIndices: set<nat>
    var childOffsets: seq<nat>

    /** The flatten and the offsets are those of the caches. */
    ghost predicate InLockstep()
      reads this
    {
      IsFlattenOf(contents, childCaches, flattenLines, childOffsets)
    }

    ghost predicate Valid()
      reads this
    {
      && (InLockstep() || (childOffsets == [] && flattenLines == []))
      && (!childrenChangedExternally ==> Aligned(childList, childCaches, cacheWidth, staleIndices))
    }

    /** What decides the next render. */
    ghost function State(): Box
      reads this
    {
      Box(childList, childCaches, staleIndices, cacheWidth, childrenChangedExternally)
    }

    /** A child that a render at the cached width leaves alone. */
    ghost predicate Skipped(i: nat)
      reads this
    {
      !childrenChangedExternally && Skips(contents, childCaches, staleIndices, tailLineBudget, |childList|, i)
    }

    constructor (contents: Contents, tailLineBudget: int)
      ensures Valid() && this.contents == contents && this.tailLineBudget == tailLineBudget
      ensures State() == EmptyBox
    {
      this.contents := contents;
      this.tailLineBudget := tailLineBudget;
      childList := [];
      childrenChangedExternally := false;
      cacheWidth := -1;
      childCaches := [];
      flattenLines := [];
      flattenId := 0;
      staleIndices := {};
      childOffsets := [];
    }

    /** Any mutation of the public children list. */
    method SetChildren(next: seq<nat>)
      requires Valid()
      modifies this`childList, this`childrenChangedExternally
      ensures Valid() && childList == next && childrenChangedExternally
    {
      childList := next;
      childrenChangedExternally := true;
    }

    /** With a positive budget, a child due for rendering stays due when another is appended. */
    method AddChild(component: nat)
      requires Valid()
      modifies this`childList, this`staleIndices
      ensures Valid() && childList == old(childList) + [component]
      ensures staleIndices == old(staleIndices) + {|old(childList)|}
      ensures tailLineBudget > 0 ==> forall i: nat | Skipped(i) :: old(Skipped(i))
    {
      ghost var n := |childList|;
      childList := childList + [component];
      staleIndices := staleIndices + {|childList| - 1};
      forall i: nat | Skipped(i) && tailLineBudget > 0
        ensures old(Skipped(i))
      {
        TailOfAppended(contents, childCaches, i + 1, n);
      }
    }

    /** Removal takes the first occurrence; the children that move up keep their caches, their
        staleness, and their turn to be rendered. */
    method RemoveChild(component: nat)
      requires Valid()
      modifies this
      ensures Valid()
      ensures var index := FirstIndex(old(childList), component);
        if index == |old(childList)| then unchanged(this) else
          && childList == Without(old(childList), index)
          && childCaches == Without(old(childCaches), index)
          && flattenLines == [] && childOffsets == []
          && (forall i: nat :: i in staleIndices <==> Before(i, index) in old(staleIndices))
          && cacheWidth == old(cacheWidth) && childrenChangedExternally == old(childrenChangedExternally)
          && flattenId == old(flattenId)
          && (forall i: nat | Skipped(i) :: old(Skipped(Before(i, index))))
    {
      hide Skips, Aligned, Flat, Without, IsFlattenOf, Before;
      var index := FirstIndex(childList, component);
      if index < |childList| {
        ghost var n := |childList|;
        childList := Without(childList, index);
        childCaches := Without(childCaches, index);
        flattenLines := [];
        childOffsets := [];
        staleIndices := RebuildStaleIndicesAfterRemoval(staleIndices, index);
        SkippedBeforeRemoval(contents, old(childCaches), old(staleIndices), staleIndices, tailLineBudget, index, n);
        if !childrenChangedExternally {
          AlignedAfterRemoval(old(childList), old(childCaches), cacheWidth, old(staleIndices), staleIndices, index);
        }
      }
    }

    method Clear()
      requires Valid()
      modifies this
      ensures Valid() && State() == EmptyBox.(external := old(childrenChangedExternally))
      ensures flattenLines == [] && flattenId == old(flattenId)
    {
      childList := [];
      childCaches := [];
      flattenLines := [];
      childOffsets := [];
      cacheWidth := -1;
      staleIndices := {};
    }

    /** Every child is due for rendering. */
    method Invalidate()
      requires Valid()
      modifies this`staleIndices
      ensures Valid() && forall i: nat :: !Skipped(i) && (i in staleIndices <==> i in old(staleIndices) || i < |childList|)
    {
      for i := 0 to |childList|
        invariant forall k: nat :: k in staleIndices <==> k in old(staleIndices) || k < i
      {
        staleIndices := staleIndices + {i};
      }
    }

    method MarkChildStale(component: nat)
      requires Valid()
      modifies this`staleIndices
      ensures Valid()
      ensures var index := FirstIndex(childList, component);
        staleIndices == if index < |childList| then old(staleIndices) + {index} else old(staleIndices)
    {
      var index := FirstIndex(childList, component);
      if index < |childList| {
        staleIndices := staleIndices + {index};
      }
    }

    /** The hot zone holds exactly the children that are not cold: the fewest last children that fill the
        budget, or all of them. */
    method FindHotStartIndex() returns (hot: nat)
      ensures childList != [] ==> hot < |childList| && (hot == 0 || TailLines(contents, childCaches, hot, |childList|) >= tailLineBudget)
      ensures hot + 1 < |childList| ==> TailLines(contents, childCaches, hot + 1, |childList|) < tailLineBudget
      ensures forall i: nat | i < |childList| :: i < hot <==> Cold(contents, childCaches, tailLineBudget, i, |childList|)
    {
      var n := |childList|;
      var linesFromBottom := 0;
      hot := 0;
      var i := n;
      while i > 0
        invariant 0 <= i <= n && linesFromBottom == TailLines(contents, childCaches, i, n)
        invariant if i == n then hot == 0 else hot == i
        invariant i < n ==> linesFromBottom < tailLineBudget
      {
        i := i - 1;
        linesFromBottom := linesFromBottom + LinesOf(contents, childCaches, i);
        hot := i;
        if linesFromBottom >= tailLineBudget {
          break;
        }
      }
      forall k: nat | k < n
        ensures k < hot <==> Cold(contents, childCaches, tailLineBudget, k, n)
      {
        if k < hot {
          TailShrinks(contents, childCaches, k + 1, hot, n);
        } else if k + 1 < n {
          TailShrinks(contents, childCaches, hot + 1, k + 1, n);
        }
      }
    }

    /** A full rebuild of the flatten. */
    method FlattenCaches() returns (lines: seq<string>)
      modifies this`flattenLines, this`flattenId, this`childOffsets
      ensures InLockstep() && lines == flattenLines && flattenId == old(flattenId) + 1
    {
      hide FlattenedUpTo, IsFlattenOf, Flat;
      lines := [];
      var offsets: seq<nat> := [];
      NothingFlattened(contents, childCaches);
      for i := 0 to |childCaches|
        modifies {}
        invariant |offsets| == i && FlattenedUpTo(contents, childCaches, i, lines, offsets)
      {
        FlattenOneMore(contents, childCaches, i, lines, offsets, offsets + [|lines|]);
        offsets := offsets + [|lines|];
        lines := lines + contents(childCaches[i].lines);
      }
      FlattenedAll(contents, childCaches, lines, offsets);
      childOffsets := offsets;
      flattenLines := lines;
      flattenId := flattenId + 1;
    }

    /** Keep the part of the flatten before `fromIndex`, append the current lines of the rest. */
    method FlattenFromIndex(fromIndex: nat, ghost before: seq<ChildRenderCache>) returns (lines: seq<string>)
      requires IsFlattenOf(contents, before, flattenLines, childOffsets)
      requires |before| <= |childCaches| && SameFirst(before, childCaches, fromIndex)
      modifies this`flattenLines, this`flattenId, this`childOffsets
      ensures InLockstep() && lines == flattenLines && flattenId == old(flattenId) + 1
    {
      hide FlattenedUpTo, IsFlattenOf, SameFirst, Flat, Offset;
      var prefixLen := if fromIndex < |childOffsets| then childOffsets[fromIndex] else |flattenLines|;
      PrefixIsCurrent(contents, before, childCaches, fromIndex, flattenLines, childOffsets);
      lines := flattenLines[..prefixLen];
      var offsets := childOffsets;
      var offset: nat := prefixLen;
      for i := fromIndex to |childCaches|
        modifies {}
        invariant |offsets| == (if i < |before| then |before| else i) && offset == |lines|
        invariant FlattenedUpTo(contents, childCaches, i, lines, offsets)
      {
        var next: seq<nat> := if i < |offsets| then offsets[i := offset] else offsets + [offset];
        FlattenOneMore(contents, childCaches, i, lines, offsets, next);
        offsets := next;
        lines := lines + contents(childCaches[i].lines);
        offset := offset + |contents(childCaches[i].lines)|;
      }
      FlattenedAll(contents, childCaches, lines, offsets);
      childOffsets := offsets;
      flattenLines := lines;
      flattenId := flattenId + 1;
    }

    /** Re-render the children that are stale or hot; find the first whose lines changed. */
    method RenderDue(width: int, out: (nat, int) -> nat) returns (reusable: bool, minChangedIndex: int)
      requires |childCaches| <= |childList| && forall i | |childCaches| <= i < |childList| :: i in staleIndices
      modifies this`childCaches, this`staleIndices
      ensures RenderedUpTo(contents, tailLineBudget, childList, old(childCaches), old(staleIndices), width, out, |childList|, childCaches)
      ensures forall i: nat :: i in staleIndices <==> i in old(staleIndices) && i >= |childList|
      ensures FirstChange(old(childCaches), childCaches, |childList|, minChangedIndex)
      ensures reusable <==> flattenLines != [] && minChangedIndex == -1
    {
      var hot := FindHotStartIndex();
      reusable := |flattenLines| > 0;
      minChangedIndex := -1;
      ghost var before := childCaches;
      hide RenderedUpTo, FirstChange;
      NothingRendered(contents, tailLineBudget, childList, before, staleIndices, width, out);
      for i := 0 to |childList|
        invariant |childCaches| == if i < |before| then |before| else i
        invariant RenderedUpTo(contents, tailLineBudget, childList, before, old(staleIndices), width, out, i, childCaches)
        invariant forall k: nat :: k in staleIndices <==> k in old(staleIndices) && k >= i
        invariant FirstChange(before, childCaches, i, minChangedIndex)
        invariant reusable <==> flattenLines != [] && minChangedIndex == -1
      {
        OneMoreRendered(contents, tailLineBudget, childList, before, old(staleIndices), width, out, i, childCaches, minChangedIndex);
        if i < hot && i !in staleIndices {
          continue;
        }
        var lines := out(childList[i], width);
        if i >= |childCaches| || lines != childCaches[i].lines {
          reusable := false;
          if minChangedIndex == -1 {
            minChangedIndex := i;
          }
        }
        var cache := Cache(childList[i], width, lines);
        childCaches := if i < |childCaches| then childCaches[i := cache] else childCaches + [cache];
        staleIndices := staleIndices - {i};
      }
    }

    /** Every child rendered anew, at a new width or after the list was changed from outside. */
    method RenderAll(width: int, out: (nat, int) -> nat) returns (lines: seq<string>)
      modifies this
      ensures Valid() && InLockstep() && lines == flattenLines && flattenId == old(flattenId) + 1
      ensures childList == old(childList) && !childrenChangedExternally && cacheWidth == width && staleIndices == {}
      ensures childCaches == AllRendered(childList, width, out)
    {
      hide IsFlattenOf;
      cacheWidth := width;
      childCaches := [];
      for i := 0 to |childList|
        modifies this`childCaches
        invariant |childCaches| == i
        invariant forall k | 0 <= k < i :: childCaches[k] == Cache(childList[k], width, out(childList[k], width))
      {
        childCaches := childCaches + [Cache(childList[i], width, out(childList[i], width))];
      }
      staleIndices := {};
      childrenChangedExternally := false;
      lines := FlattenCaches();
    }

    /** Child `i` would still render to the lines it rendered last. */
    ghost predicate StillCurrent(before: seq<ChildRenderCache>, i: nat, width: int, out: (nat, int) -> nat)
      reads this
    {
      i < |childList| && i < |before| && contents(before[i].lines) == contents(out(childList[i], width))
    }

    /** Each child's lines are current, except those of a skipped child, which are its last
        rendered ones; when no skipped child has changed, the result is the full flatten of what
        every child renders to now. The result is a new array unless no rendered array changed. */
    method Render(width: int, out: (nat, int) -> nat) returns (lines: seq<string>)
      requires Valid()
      modifies this
      ensures Valid() && InLockstep() && lines == flattenLines
      ensures childList == old(childList) && !childrenChangedExternally && cacheWidth == width
      ensures |childCaches| == |childList| && forall i: nat | i < |childList| :: i !in staleIndices
      ensures forall i: nat | i < |childList| && width == old(cacheWidth) && old(Skipped(i)) :: childCaches[i] == old(childCaches)[i]
      ensures forall i: nat | i < |childList| && !(width == old(cacheWidth) && old(Skipped(i))) :: childCaches[i] == Cache(childList[i], width, out(childList[i], width))
      ensures (forall i: nat | i < |childList| && width == old(cacheWidth) && old(Skipped(i)) :: StillCurrent(old(childCaches), i, width, out))
        ==> lines == Current(contents, childList, width, out)
      ensures flattenId == old(flattenId) <==>
        (!old(childrenChangedExternally) && width == old(cacheWidth) && old(flattenLines) != [] && SameFirst(old(childCaches), childCaches, |childList|))
      ensures flattenId == old(flattenId) ==> lines == old(flattenLines)
      ensures flattenId >= old(flattenId)
      ensures forall i: nat | i in staleIndices :: i in old(staleIndices) && !old(childrenChangedExternally) && width == old(cacheWidth)
      ensures forall i: nat | i in old(staleIndices) && i >= |childList| && !old(childrenChangedExternally) && width == old(cacheWidth) :: i in staleIndices
    {
      hide Offset, Flat, Cold, SameFirst, FirstChange;
      var grewByAppend := width == cacheWidth && !childrenChangedExternally && |childList| > |childCaches|;
      var structureChanged := !grewByAppend && (childrenChangedExternally || width != cacheWidth || |childCaches| != |childList|);
      if structureChanged {
        lines := RenderAll(width, out);
      } else {
        lines := RenderChanged(width, out);
      }
      if forall i: nat | i < |childList| && width == old(cacheWidth) && old(Skipped(i)) :: StillCurrent(old(childCaches), i, width, out) {
        forall k | 0 <= k < |childCaches|
          ensures contents(childCaches[k].lines) == contents(out(childList[k], width))
        {
          assert width == old(cacheWidth) && old(Skipped(k)) ==> StillCurrent(old(childCaches), k, width, out);
        }
        FlatIsCurrent(contents, childCaches, childList, width, out);
      }
    }

    /** The incremental render, at the cached width and for a list that at most grew at its end. */
    method RenderChanged(width: int, out: (nat, int) -> nat) returns (lines: seq<string>)
      requires Valid() && !childrenChangedExternally && width == cacheWidth
      modifies this`childCaches, this`staleIndices, this`flattenLines, this`flattenId, this`childOffsets
      ensures InLockstep() && lines == flattenLines && Aligned(childList, childCaches, cacheWidth, staleIndices)
      ensures RenderedUpTo(contents, tailLineBudget, childList, old(childCaches), old(staleIndices), width, out, |childList|, childCaches)
      ensures |childCaches| == |childList| && forall i: nat :: i in staleIndices <==> i in old(staleIndices) && i >= |childList|
      ensures flattenId >= old(flattenId)
      ensures flattenId == old(flattenId) <==> old(flattenLines) != [] && SameFirst(old(childCaches), childCaches, |childList|)
      ensures flattenId == old(flattenId) ==> lines == old(flattenLines)
    {
      ghost var before := childCaches;
      hide IsFlattenOf, Flat, RenderedUpTo, SameFirst;
      var reusable, minChangedIndex := RenderDue(width, out);
      AlignedAfterRender(contents, tailLineBudget, childList, before, old(staleIndices), width, out, childCaches, staleIndices);
      if reusable {
        SameFlatten(contents, before, childCaches, flattenLines, childOffsets);
        return flattenLines;
      }
      ChangeInRange(before, childCaches, |childList|, minChangedIndex);
      if minChangedIndex != -1 && |flattenLines| > 0 && |childOffsets| >= minChangedIndex {
        lines := FlattenFromIndex(minChangedIndex, before);
      } else {
        lines := FlattenCaches();
      }
    }

    /** Child `k` covers a row of the flatten. */
    ghost predicate Spans(k: nat, row: int)
      reads this
    {
      k < |childCaches| && Offset(contents, childCaches, k) <= row < Offset(contents, childCaches, k + 1)
    }

    /** A row of what child `k` last rendered. */
    ghost function Row(k: nat, row: int): Option<string>
      reads this
    {
      if k < |childCaches| && 0 <= row < |contents(childCaches[k].lines)| then Some(contents(childCaches[k].lines)[row]) else None
    }

    /** A row of the flatten belongs to exactly one child; the hit test finds it whenever the
        caches and offsets match the child list in number, and refuses otherwise. The child it
        names is the one that rendered the row unless the list was changed from outside. */
    method HitTestChild(localRow: int) returns (hit: Option<Target>, ghost k: nat)
      requires Valid()
      ensures hit.Some? <==> |childCaches| == |childList| == |childOffsets| && 0 <= localRow < |flattenLines|
      ensures hit.Some? ==> Spans(k, localRow) && forall j: nat | Spans(j, localRow) :: j == k
      ensures hit.Some? ==> k < |childList| && hit.value.child == childList[k] && hit.value.childStart == Offset(contents, childCaches, k)
      ensures hit.Some? ==> Row(k, localRow - hit.value.childStart) == Some(flattenLines[localRow])
      ensures hit.Some? && !childrenChangedExternally ==> childCaches[k].component == hit.value.child
    {
      k := 0;
      if |childCaches| != |childList| || |childOffsets| != |childList| {
        return None, k;
      }
      if localRow < 0 || localRow >= |flattenLines| {
        return None, k;
      }
      OffsetsOrdered(contents, childCaches, flattenLines, childOffsets);
      var lo, hi, found := 0, |childList| - 1, -1;
      while lo <= hi
        invariant 0 <= lo <= hi + 1 <= |childList|
        invariant found == lo - 1
        invariant found >= 0 ==> childOffsets[found] <= localRow
        invariant hi + 1 < |childList| ==> localRow < childOffsets[hi + 1]
      {
        var mid := (lo + hi) / 2;
        if childOffsets[mid] <= localRow {
          found := mid;
          lo := mid + 1;
        } else {
          hi := mid - 1;
        }
      }
      assert found != -1;
      k := found;
      var start := childOffsets[found];
      var end := if found + 1 < |childOffsets| then childOffsets[found + 1] else |flattenLines|;
      RowBelongs(contents, childCaches, flattenLines, childOffsets, found, localRow);
      return Some(Target(childList[found], start)), k;
    }
  }

  // ---------------------------------------------------------------------------
  // Whole runs

  /** What can happen to a container. `Change` is the outside world: children render differently
      from now on, and the components in `marked` are reported stale. */
  datatype Action =
    | Add(child: nat)
    | Remove(child: nat)
    | Replace(children: seq<nat>)
    | ClearAll
    | InvalidateAll
    | Change(next: (nat, int) -> nat, marked: seq<nat>)
    | Draw(width: int)

  datatype Frame = Frame(lines: seq<string>, children: seq<nat>, width: int, out: (nat, int) -> nat)

  function Draws(script: seq<Action>): nat {
    if script == [] then 0 else Draws(script[..|script| - 1]) + if script[|script| - 1].Draw? then 1 else 0
  }

  /** The simple form: what children render to after a script. */
  function OutAfter(start: (nat, int) -> nat, script: seq<Action>): (nat, int) -> nat {
    if script == [] then start
    else
      var last := script[|script| - 1];
      if last.Change? then last.next else OutAfter(start, script[..|script| - 1])
  }

  /** The simple form: the list of children after a script. */
  function ChildrenAfter(script: seq<Action>): seq<nat> {
    if script == [] then []
    else
      var before := ChildrenAfter(script[..|script| - 1]);
      match script[|script| - 1]
      case Add(child) => before + [child]
      case Remove(child) => Without(before, FirstIndex(before, child))
      case Replace(children) => children
      case ClearAll => []
      case _ => before
  }

  /** The simple form: every draw renders every child anew. */
  function Expected(contents: Contents, start: (nat, int) -> nat, script: seq<Action>): seq<Frame> {
    if script == [] then []
    else
      var before, last := script[..|script| - 1], script[|script| - 1];
      Expected(contents, start, before) +
      if last.Draw? then
        var children, out := ChildrenAfter(before), OutAfter(start, before);
        [Frame(Current(contents, children, last.width, out), children, last.width, out)]
      else []
  }

  // ---------------------------------------------------------------------------
  // The state that decides what is rendered

  /** Stale positions after the child at `removed` is gone. */
  function Shifted(stale: set<nat>, removed: nat): set<nat> {
    (set i: nat | i in stale && i < removed) + (set i: nat | i in stale && i > removed :: i - 1)
  }

  lemma ShiftedBack(stale: set<nat>, removed: nat)
    ensures forall i: nat :: i in Shifted(stale, removed) <==> Before(i, removed) in stale
  {
    forall i: nat
      ensures i in Shifted(stale, removed) <==> Before(i, removed) in stale
    {
      if i >= removed && i + 1 in stale {
        var j := i + 1;
        assert j - 1 in set k: nat | k in stale && k > removed :: k - 1;
      }
    }
  }

  function Below(n: nat): (s: set<nat>)
    ensures forall i: nat :: i in s <==> i < n
  {
    if n == 0 then {} else Below(n - 1) + {n - 1}
  }

  /** The first positions of the listed components. */
  function Positions(children: seq<nat>, components: seq<nat>): set<nat> {
    set k | 0 <= k < |components| && FirstIndex(children, components[k]) < |children| :: FirstIndex(children, components[k])
  }

  /** The state after one action. A draw renders the children it does not skip, or all of them when
      the list was changed from outside or the width is new. */
  function After(contents: Contents, budget: int, b: Box, action: Action, out: (nat, int) -> nat): Box {
    var n := |b.children|;
    match action
    case Add(child) => b.(children := b.children + [child], stale := b.stale + {n})
    case Remove(child) =>
      var index := FirstIndex(b.children, child);
      if index == n then b
      else b.(children := Without(b.children, index), caches := Without(b.caches, index), stale := Shifted(b.stale, index))
    case Replace(children) => b.(children := children, external := true)
    case ClearAll => EmptyBox.(external := b.external)
    case InvalidateAll => b.(stale := b.stale + Below(n))
    case Change(_, marked) => b.(stale := b.stale + Positions(b.children, marked))
    case Draw(width) =>
      if b.external || width != b.width then Box(b.children, AllRendered(b.children, width, out), {}, width, false)
      else
        var caches := seq(n, i requires 0 <= i < n => RenderedAt(contents, budget, b.children, b.caches, b.stale, width, out, i));
        b.(caches := caches, stale := set i: nat | i in b.stale && i >= n)
  }

  function StateAfter(contents: Contents, budget: int, start: (nat, int) -> nat, script: seq<Action>): Box {
    if script == [] then EmptyBox
    else
      var before, last := script[..|script| - 1], script[|script| - 1];
      After(contents, budget, StateAfter(contents, budget, start, before), last, OutAfter(start, before))
  }

  ghost predicate Sound(b: Box) {
    !b.external ==> Aligned(b.children, b.caches, b.width, b.stale)
  }

  /** No child that the next draw skips has changed. */
  ghost predicate UpToDate(contents: Contents, budget: int, b: Box, out: (nat, int) -> nat) {
    forall i: nat | !b.external && Skips(contents, b.caches, b.stale, budget, |b.children|, i) ::
      i < |b.children| && contents(b.caches[i].lines) == contents(out(b.children[i], b.width))
  }

  /** Only an outside change can put a skipped child out of date. */
  lemma StaysUpToDate(contents: Contents, budget: int, b: Box, action: Action, out: (nat, int) -> nat)
    requires Sound(b) && UpToDate(contents, budget, b, out) && budget > 0 && !action.Change?
    ensures UpToDate(contents, budget, After(contents, budget, b, action, out), out)
  {
    hide Cold, TailLines;
    var n := |b.children|;
    match action
    case Add(child) =>
      forall i: nat | Skips(contents, b.caches, b.stale + {n}, budget, n + 1, i) && !b.external
        ensures Skips(contents, b.caches, b.stale, budget, n, i)
      {
        StaysCold(contents, b.caches, budget, i, n);
      }
    case Remove(child) =>
      var index := FirstIndex(b.children, child);
      if index < n {
        ShiftedBack(b.stale, index);
        SkippedBeforeRemoval(contents, b.caches, b.stale, Shifted(b.stale, index), budget, index, n);
      }
    case Replace(children) =>
    case ClearAll =>
    case InvalidateAll =>
    case Draw(width) =>
  }

  lemma StaysCold(contents: Contents, caches: seq<ChildRenderCache>, budget: int, i: nat, n: nat)
    requires |caches| <= n && budget > 0 && i < |caches| && Cold(contents, caches, budget, i, n + 1)
    ensures Cold(contents, caches, budget, i, n)
  {
    TailOfAppended(contents, caches, i + 1, n);
  }

  lemma StaysSound(contents: Contents, budget: int, b: Box, action: Action, out: (nat, int) -> nat)
    requires Sound(b)
    ensures Sound(After(contents, budget, b, action, out))
  {
    hide Cold, TailLines;
    if action.Remove? && FirstIndex(b.children, action.child) < |b.children| && !b.external {
      var index := FirstIndex(b.children, action.child);
      ShiftedBack(b.stale, index);
      AlignedAfterRemoval(b.children, b.caches, b.width, b.stale, Shifted(b.stale, index), index);
    }
  }

  ghost predicate NoRepeats(s: seq<nat>) {
    forall i, j | 0 <= i < j < |s| :: s[i] != s[j]
  }

  /** Every component that renders differently is reported. */
  ghost predicate Reports(contents: Contents, before: (nat, int) -> nat, change: Action)
    requires change.Change?
  {
    forall c, w | contents(before(c, w)) != contents((change.next)(c, w)) :: c in change.marked
  }

  /** When every changed component is reported, and no component is listed twice, nothing is missed. */
  lemma ReportedChange(contents: Contents, budget: int, b: Box, change: Action, out: (nat, int) -> nat)
    requires change.Change? && UpToDate(contents, budget, b, out)
    requires NoRepeats(b.children) && Reports(contents, out, change)
    ensures UpToDate(contents, budget, After(contents, budget, b, change, out), change.next)
  {
    hide Cold, Positions;
    var after := After(contents, budget, b, change, out);
    forall i: nat | !after.external && Skips(contents, after.caches, after.stale, budget, |after.children|, i)
      ensures i < |after.children| && contents(after.caches[i].lines) == contents((change.next)(after.children[i], after.width))
    {
      assert Skips(contents, b.caches, b.stale, budget, |b.children|, i);
      ListedIsMarked(b.children, change.marked, i);
    }
  }

  lemma ListedIsMarked(children: seq<nat>, marked: seq<nat>, i: nat)
    requires NoRepeats(children) && i < |children|
    ensures children[i] in marked ==> i in Positions(children, marked)
  {
    if k :| 0 <= k < |marked| && marked[k] == children[i] {
      assert FirstIndex(children, marked[k]) == i;
    }
  }

  /** Whatever the outside world changed, it left no skipped child out of date. */
  ghost predicate WellTracked(contents: Contents, budget: int, start: (nat, int) -> nat, script: seq<Action>) {
    forall k | 0 <= k < |script| && script[k].Change? ::
      UpToDate(contents, budget, StateAfter(contents, budget, start, script[..k + 1]), OutAfter(start, script[..k + 1]))
  }

  lemma {:induction false} ListOfState(contents: Contents, budget: int, start: (nat, int) -> nat, script: seq<Action>)
    ensures var b := StateAfter(contents, budget, start, script);
      b.children == ChildrenAfter(script) && Sound(b)
  {
    hide After;
    if script != [] {
      var before, last := script[..|script| - 1], script[|script| - 1];
      ListOfState(contents, budget, start, before);
      var b := StateAfter(contents, budget, start, before);
      StaysSound(contents, budget, b, last, OutAfter(start, before));
      ListAfter(contents, budget, b, last, OutAfter(start, before));
    }
  }

  lemma ListAfter(contents: Contents, budget: int, b: Box, action: Action, out: (nat, int) -> nat)
    ensures After(contents, budget, b, action, out).children ==
      match action
      case Add(child) => b.children + [child]
      case Remove(child) => Without(b.children, FirstIndex(b.children, child))
      case Replace(children) => children
      case ClearAll => []
      case _ => b.children
  {
  }

  /** A script in which every outside change reports what it changes, while no component is listed
      twice, is well tracked. */
  lemma {:induction false} ReportingIsTracking(contents: Contents, budget: int, start: (nat, int) -> nat, script: seq<Action>)
    requires budget > 0
    requires forall k | 0 <= k < |script| && script[k].Change? ::
      NoRepeats(ChildrenAfter(script[..k])) && Reports(contents, OutAfter(start, script[..k]), script[k])
    ensures WellTracked(contents, budget, start, script)
    ensures UpToDate(contents, budget, StateAfter(contents, budget, start, script), OutAfter(start, script))
  {
    hide After, UpToDate, Reports, NoRepeats, Sound, ChildrenAfter;
    if script == [] {
      EmptyIsUpToDate(contents, budget, start);
    } else {
      var n := |script| - 1;
      var before, last := script[..n], script[n];
      forall k | 0 <= k < n && before[k].Change?
        ensures NoRepeats(ChildrenAfter(before[..k])) && Reports(contents, OutAfter(start, before[..k]), before[k])
      {
        assert before[..k] == script[..k] && script[k].Change?;
      }
      ReportingIsTracking(contents, budget, start, before);
      ListOfState(contents, budget, start, before);
      var b, out := StateAfter(contents, budget, start, before), OutAfter(start, before);
      if last.Change? {
        assert script[..n] == before && script[n].Change?;
        ReportedChange(contents, budget, b, last, out);
      } else {
        StaysUpToDate(contents, budget, b, last, out);
      }
      forall k | 0 <= k < |script| && script[k].Change?
        ensures UpToDate(contents, budget, StateAfter(contents, budget, start, script[..k + 1]), OutAfter(start, script[..k + 1]))
      {
        if k < n {
          assert before[k].Change? && before[..k + 1] == script[..k + 1];
        } else {
          assert script[..k + 1] == script;
        }
      }
    }
  }

  lemma EmptyIsUpToDate(contents: Contents, budget: int, out: (nat, int) -> nat)
    ensures UpToDate(contents, budget, EmptyBox, out) && Sound(EmptyBox)
  {
  }

  // ---------------------------------------------------------------------------
  // The container under a script

  method MarkAll(box: VirtualizedContainer, marked: seq<nat>)
    requires box.Valid()
    modifies box`staleIndices
    ensures box.Valid() && box.staleIndices == old(box.staleIndices) + Positions(box.childList, marked)
  {
    for k := 0 to |marked|
      invariant box.Valid() && box.staleIndices == old(box.staleIndices) + Positions(box.childList, marked[..k])
    {
      box.MarkChildStale(marked[k]);
    }
    assert marked[..|marked|] == marked;
  }

  /** One action. */
  method Act(box: VirtualizedContainer, action: Action, out: (nat, int) -> nat) returns (frames: seq<Frame>)
    requires box.Valid()
    modifies box
    ensures box.Valid() && box.State() == After(box.contents, box.tailLineBudget, old(box.State()), action, out)
    ensures if action.Draw? then |frames| == 1 && frames[0] == Frame(frames[0].lines, old(box.childList), action.width, out) else frames == []
    ensures action.Draw? && UpToDate(box.contents, box.tailLineBudget, old(box.State()), out) ==>
      frames[0].lines == Current(box.contents, old(box.childList), action.width, out)
  {
    hide Current, Flat, Cold, IsFlattenOf, SameFirst;
    frames := [];
    match action
    case Add(child) => box.AddChild(child);
    case Remove(child) =>
      box.RemoveChild(child);
      ghost var index := FirstIndex(old(box.childList), child);
      if index < |old(box.childList)| {
        ShiftedBack(old(box.staleIndices), index);
        assert box.staleIndices == Shifted(old(box.staleIndices), index);
      }
    case Replace(children) => box.SetChildren(children);
    case ClearAll => box.Clear();
    case InvalidateAll =>
      box.Invalidate();
      assert box.staleIndices == old(box.staleIndices) + Below(|box.childList|);
    case Change(_, marked) => MarkAll(box, marked);
    case Draw(width) =>
      var lines := box.Render(width, out);
      frames := [Frame(lines, box.childList, width, out)];
      assert box.State() == After(box.contents, box.tailLineBudget, old(box.State()), action, out);
  }

  /** On every run each draw yields a frame of the children listed then. With a positive line budget
      the frames are exactly those of the simple form, as long as each outside change leaves no
      changed child that the next draw would skip: a changed child must be stale or hot. */
  method Play(contents: Contents, budget: int, start: (nat, int) -> nat, script: seq<Action>) returns (frames: seq<Frame>)
    ensures |frames| == |Expected(contents, start, script)| == Draws(script)
    ensures forall j | 0 <= j < |frames| :: frames[j] == Expected(contents, start, script)[j].(lines := frames[j].lines)
    ensures budget > 0 && WellTracked(contents, budget, start, script) ==> frames == Expected(contents, start, script)
  {
    hide After, UpToDate, Expected, Current, ChildrenAfter;
    var box := new VirtualizedContainer(contents, budget);
    var out := start;
    frames := [];
    EmptyIsUpToDate(contents, budget, start);
    NothingExpected(contents, start);
    for k := 0 to |script|
      invariant fresh(box) && box.Valid() && box.contents == contents && box.tailLineBudget == budget
      invariant box.State() == StateAfter(contents, budget, start, script[..k]) && out == OutAfter(start, script[..k])
      invariant |frames| == |Expected(contents, start, script[..k])| == Draws(script[..k])
      invariant forall j | 0 <= j < |frames| :: frames[j] == Expected(contents, start, script[..k])[j].(lines := frames[j].lines)
      invariant budget > 0 && WellTracked(contents, budget, start, script) ==>
        frames == Expected(contents, start, script[..k]) && UpToDate(contents, budget, box.State(), out)
    {
      assert script[..k + 1][..k] == script[..k];
      ListOfState(contents, budget, start, script[..k]);
      OneMoreExpected(contents, start, script, k);
      ghost var before := box.State();
      var more := Act(box, script[k], out);
      if budget > 0 && WellTracked(contents, budget, start, script) && !script[k].Change? {
        StaysUpToDate(contents, budget, before, script[k], out);
      }
      frames := frames + more;
      if script[k].Change? {
        out := script[k].next;
      }
    }
    assert script[..|script|] == script;
  }

  lemma NothingExpected(contents: Contents, start: (nat, int) -> nat)
    ensures Expected(contents, start, []) == []
  {
  }

  lemma OneMoreExpected(contents: Contents, start: (nat, int) -> nat, script: seq<Action>, k: nat)
    requires k < |script|
    ensures Expected(contents, start, script[..k + 1]) == Expected(contents, start, script[..k]) +
      if script[k].Draw? then
        var children, out := ChildrenAfter(script[..k]), OutAfter(start, script[..k]);
        [Frame(Current(contents, children, script[k].width, out), children, script[k].width, out)]
      else []
  {
    assert script[..k + 1][..k] == script[..k];
  }

  const DEFAULT_TAIL_LINE_BUDGET: int := 200

  /** Child `k` of those shown rendered this row: the row is among its rendered lines. */
  ghost predicate RenderedRow(box: VirtualizedContainer, shown: seq<nat>, k: nat, row: int)
    reads box
  {
    && k < |shown| == |box.childCaches| && box.childCaches[k].component == shown[k]
    && box.Spans(k, row) && forall j: nat | box.Spans(j, row) :: j == k
  }

  /** After a frame the children are replaced from outside. The hit test compares only their
      number: it refuses unless that is the same, and then it names the child that rendered the
      row exactly when the child now at that place is the one that was shown there. */
  method HitAfterReplacement(box: VirtualizedContainer, out: (nat, int) -> nat, width: int, next: seq<nat>, row: int)
    returns (lines: seq<string>, hit: Option<Target>, ghost k: nat)
    requires box.Valid()
    modifies box
    ensures lines == Flat(box.contents, box.childCaches)
    ensures hit.Some? <==> |next| == |old(box.childList)| && 0 <= row < |lines|
    ensures hit.Some? ==> RenderedRow(box, old(box.childList), k, row)
    ensures hit.Some? ==> (hit.value.child == old(box.childList)[k] <==> next[k] == old(box.childList)[k])
  {
    hide Flat, Offset, IsFlattenOf, Current;
    lines := box.Render(width, out);
    box.SetChildren(next);
    hit, k := box.HitTestChild(row);
    FlattenedHere(box);
  }

  lemma FlattenedHere(box: VirtualizedContainer)
    requires box.InLockstep()
    ensures box.flattenLines == Flat(box.contents, box.childCaches) && |box.childOffsets| == |box.childCaches|
  {
  }

  /** One child replaced by another: the hit test names the new one for a row that the old one rendered. */
  method ReplacedChildIsNamed(contents: Contents, out: (nat, int) -> nat, width: int, shown: nat, other: nat)
    returns (lines: seq<string>, hit: Option<Target>)
    requires contents(out(shown, width)) != [] && other != shown
    ensures lines == contents(out(shown, width)) && hit == Some(Target(other, 0))
  {
    var box := new VirtualizedContainer(contents, DEFAULT_TAIL_LINE_BUDGET);
    box.AddChild(shown);
    lines := box.Render(width, out);
    assert box.childList[..0] == [];
    box.SetChildren([other]);
    ghost var k;
    hit, k := box.HitTestChild(0);
    assert box.childCaches[..0] == [];
  }
}
