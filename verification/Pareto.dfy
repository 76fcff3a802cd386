/** Non-dominated sorting of placement candidates (internal/scheduler/absorbed.go). */
module Pareto {
  import opened OrderStatistics

  /** (f1, s1) is at least as good on both objectives and strictly better on one. */
  predicate Dominates(f1: real, s1: real, f2: real, s2: real) {
    f1 >= f2 && s1 >= s2 && (f1 > f2 || s1 > s2)
  }

  /** Two objective columns of equal length. */
  datatype Points = Points(f: seq<real>, s: seq<real>) {
    ghost predicate Valid() { |f| == |s| }

    predicate Dom(i: nat, k: nat) {
      i < |f| && i < |s| && k < |f| && k < |s| && Dominates(f[i], s[i], f[k], s[k])
    }

    /** The dominators of k outside `done`. */
    ghost function Remaining(k: nat, done: set<nat>): set<nat> {
      set i: nat | i < |f| && Dom(i, k) && i !in done
    }

    /** The points below m that i dominates, in index order: dominatesList[i]. */
    function Dominated(i: nat, m: nat): seq<nat> {
      if m == 0 then [] else Dominated(i, m - 1) + (if Dom(i, m - 1) then [m - 1] else [])
    }

    /** The dominators of k below m, counted: dominatedCount[k]. */
    ghost function DominatorsBelow(k: nat, m: nat): set<nat> {
      set i: nat | i < m && Dom(i, k)
    }
  }

  ghost predicate NoDuplicates<T>(s: seq<T>) {
    forall a, b :: 0 <= a < b < |s| ==> s[a] != s[b]
  }

  /**
   A front assignment: dominance strictly increases the front index, and every point behind the
   first front is dominated by one in the front just before it.
   */
  ghost predicate IsFronts(p: Points, front: seq<int>) {
    && |front| == |p.f|
    && (forall i :: 0 <= i < |front| ==> front[i] >= 0)
    && (forall i, k :: 0 <= i < |front| && 0 <= k < |front| && p.Dom(i, k) ==> front[i] < front[k])
    && (forall k :: 0 <= k < |front| && front[k] > 0 ==> HasPredecessor(p, front, k))
  }

  ghost predicate HasPredecessor(p: Points, front: seq<int>, k: nat)
    requires k < |front|
  {
    exists i :: 0 <= i < |front| && p.Dom(i, k) && front[i] == front[k] - 1
  }

  // ---- dominance chains ----

  ghost predicate Chain(p: Points, c: seq<nat>) {
    && c != []
    && (forall m :: 0 <= m < |c| ==> c[m] < |p.f|)
    && (forall m :: 0 < m < |c| ==> p.Dom(c[m - 1], c[m]))
  }

  ghost predicate EndsAt(c: seq<nat>, i: nat) {
    c != [] && c[|c| - 1] == i
  }

  lemma {:induction false} ChainBound(p: Points, front: seq<int>, c: seq<nat>)
    requires p.Valid() && IsFronts(p, front) && Chain(p, c)
    ensures |c| <= front[c[|c| - 1]] + 1
  {
    if |c| > 1 {
      var d := c[..|c| - 1];
      ChainBound(p, front, d);
      assert p.Dom(c[|c| - 2], c[|c| - 1]);
    }
  }

  lemma ChainExtend(p: Points, c: seq<nat>, i: nat)
    requires Chain(p, c) && i < |p.f| && p.Dom(c[|c| - 1], i)
    ensures Chain(p, c + [i]) && EndsAt(c + [i], i)
  {
  }

  lemma {:induction false} ChainExists(p: Points, front: seq<int>, i: nat) returns (c: seq<nat>)
    requires p.Valid() && IsFronts(p, front) && i < |front|
    ensures Chain(p, c) && EndsAt(c, i) && |c| == front[i] + 1
    decreases front[i]
  {
    if front[i] == 0 {
      c := [i];
    } else {
      assert HasPredecessor(p, front, i);
      var d: nat :| d < |front| && p.Dom(d, i) && front[d] == front[i] - 1;
      var c' := ChainExists(p, front, d);
      c := c' + [i];
      ChainExtend(p, c', i);
    }
  }

  /** A front index is the length of the longest dominance chain above the point. */
  lemma FrontIsLongestChain(p: Points, front: seq<int>, i: nat)
    requires p.Valid() && IsFronts(p, front) && i < |front|
    ensures exists c :: Chain(p, c) && EndsAt(c, i) && |c| == front[i] + 1
    ensures forall c :: Chain(p, c) && EndsAt(c, i) ==> |c| <= front[i] + 1
  {
    var c := ChainExists(p, front, i);
    forall d | Chain(p, d) && EndsAt(d, i) ensures |d| <= front[i] + 1 {
      ChainBound(p, front, d);
    }
  }

  /** Hence a point set has only one front assignment. */
  lemma FrontsUnique(p: Points, a: seq<int>, b: seq<int>)
    requires p.Valid() && IsFronts(p, a) && IsFronts(p, b)
    ensures a == b
  {
    forall i | 0 <= i < |a| ensures a[i] == b[i] {
      var c := ChainExists(p, a, i);
      var d := ChainExists(p, b, i);
      ChainBound(p, b, c);
      ChainBound(p, a, d);
    }
  }

  // ---- counting ----

  lemma {:induction false} DominatedMembers(p: Points, i: nat, m: nat)
    ensures forall k: nat :: k in p.Dominated(i, m) <==> k < m && p.Dom(i, k)
    ensures NoDuplicates(p.Dominated(i, m))
  {
    if m > 0 {
      DominatedMembers(p, i, m - 1);
    }
  }

  lemma RemainingShrinks(p: Points, i: nat, k: nat, done: set<nat>)
    requires i !in done
    ensures p.Dom(i, k) ==> |p.Remaining(k, done + {i})| == |p.Remaining(k, done)| - 1
    ensures !p.Dom(i, k) ==> p.Remaining(k, done + {i}) == p.Remaining(k, done)
  {
    if p.Dom(i, k) {
      assert p.Remaining(k, done) == p.Remaining(k, done + {i}) + {i};
    }
  }

  ghost predicate Counted(p: Points, count: seq<int>, done: set<nat>) {
    |count| == |p.f| && forall k :: 0 <= k < |count| ==> count[k] == |p.Remaining(k, done)|
  }

  lemma DominanceTransitive(p: Points, i: nat, j: nat, k: nat)
    requires p.Dom(i, j) && p.Dom(j, k)
    ensures p.Dom(i, k)
  {
  }

  /** Dominance cannot ascend for ever: a nonempty set of points has one that no other of them dominates. */
  lemma SomePointIsUndominated(p: Points, open: set<nat>) returns (top: nat)
    requires p.Valid() && open != {} && forall k :: k in open ==> k < |p.f|
    ensures top in open && forall i :: i in open ==> !p.Dom(i, top)
    decreases |open|
  {
    top :| top in open;
    var rest := open - {top};
    if rest != {} {
      var best := SomePointIsUndominated(p, rest);
      if !p.Dom(top, best) {
        top := best;
      } else {
        forall i | i in open ensures !p.Dom(i, top) {
          if i in rest && p.Dom(i, top) {
            DominanceTransitive(p, i, top, best);
            assert false;
          }
        }
      }
    }
  }

  // ---- the sort ----

  /** One row of the pairwise comparison: what i dominates and how many points dominate i. */
  method CompareRow(p: Points, i: nat, count: array<int>, lists: array<seq<nat>>)
    requires p.Valid() && i < count.Length == lists.Length == |p.f| && count[i] == 0 && lists[i] == []
    modifies count, lists
    ensures count[i] == |p.DominatorsBelow(i, |p.f|)| && lists[i] == p.Dominated(i, |p.f|)
    ensures forall m :: 0 <= m < |p.f| && m != i ==> count[m] == old(count[m]) && lists[m] == old(lists[m])
  {
    for k := 0 to |p.f|
      invariant count[i] == |p.DominatorsBelow(i, k)| && lists[i] == p.Dominated(i, k)
      invariant forall m :: 0 <= m < |p.f| && m != i ==> count[m] == old(count[m]) && lists[m] == old(lists[m])
    {
      assert p.DominatorsBelow(i, k + 1) == p.DominatorsBelow(i, k) + (if p.Dom(k, i) then {k} else {});
      if k != i {
        if p.Dom(i, k) {
          lists[i] := lists[i] + [k];
        } else if p.Dom(k, i) {
          count[i] := count[i] + 1;
        }
      }
    }
  }

  method CountDominance(p: Points, count: array<int>, lists: array<seq<nat>>)
    requires p.Valid() && count.Length == lists.Length == |p.f|
    requires forall i :: 0 <= i < count.Length ==> count[i] == 0 && lists[i] == []
    modifies count, lists
    ensures Counted(p, count[..], {})
    ensures forall i :: 0 <= i < lists.Length ==> lists[i] == p.Dominated(i, |p.f|)
  {
    var n := |p.f|;
    for i := 0 to n
      invariant forall k :: 0 <= k < i ==> count[k] == |p.DominatorsBelow(k, n)| && lists[k] == p.Dominated(k, n)
      invariant forall k :: i <= k < n ==> count[k] == 0 && lists[k] == []
    {
      CompareRow(p, i, count, lists);
    }
    forall k | 0 <= k < n ensures count[k] == |p.Remaining(k, {})| {
      assert p.Remaining(k, {}) == p.DominatorsBelow(k, n);
    }
  }

  /** What releasing point i does: new counts, front indices and queue in terms of the old ones. */
  ghost predicate ReleaseEffect(p: Points, i: nat, rank: int, done: set<nat>,
                                count0: seq<int>, front0: seq<int>, next0: seq<nat>,
                                count: seq<int>, front: seq<int>, next: seq<nat>) {
    && Counted(p, count, done + {i})
    && |count0| == |front0| == |front| == |p.f|
    && NoDuplicates(next)
    && (forall k: nat :: k in next <==> k in next0 || (k < |p.f| && p.Dom(i, k) && count[k] == 0))
    && (forall k :: 0 <= k < |p.f| ==> front[k] == if p.Dom(i, k) && count[k] == 0 then rank + 1 else front0[k])
    && (forall k :: 0 <= k < |p.f| && p.Dom(i, k) ==> count[k] == count0[k] - 1)
    && (forall k :: 0 <= k < |p.f| && !p.Dom(i, k) ==> count[k] == count0[k])
  }

  /** Removes point i: decrements the count of everything it dominates and queues what became free. */
  method Release(p: Points, i: nat, list: seq<nat>, rank: int, count: array<int>, front: array<int>,
                 next0: seq<nat>, ghost done: set<nat>) returns (next: seq<nat>)
    requires p.Valid() && i < |p.f| && i !in done && list == p.Dominated(i, |p.f|)
    requires count != front && front.Length == |p.f| && Counted(p, count[..], done)
    requires NoDuplicates(next0) && forall k :: k in next0 ==> k < |p.f| && count[k] == 0
    modifies count, front
    ensures ReleaseEffect(p, i, rank, done, old(count[..]), old(front[..]), next0, count[..], front[..], next)
  {
    DominatedMembers(p, i, |p.f|);
    FreeIsUndominated(p, i, done, count[..]);
    next := next0;
    for b := 0 to |list|
      invariant forall k :: 0 <= k < |p.f| ==>
                  count[k] == if k in list[..b] then old(count[k]) - 1 else old(count[k])
      invariant forall k: nat :: k in next0 ==> k < |p.f| && k !in list
      invariant NoDuplicates(next)
      invariant forall k: nat :: k in next <==> k in next0 || (k < |p.f| && k in list[..b] && count[k] == 0)
      invariant forall k :: 0 <= k < |p.f| ==>
                  front[k] == if k in list[..b] && count[k] == 0 then rank + 1 else old(front[k])
    {
      var k := list[b];
      assert k in list && k !in list[..b];
      assert list[..b + 1] == list[..b] + [k];
      count[k] := count[k] - 1;
      if count[k] == 0 {
        front[k] := rank + 1;
        next := next + [k];
      }
    }
    assert list[..|list|] == list;
    CountedAfterRelease(p, i, done, old(count[..]), count[..]);
  }

  lemma CountedAfterRelease(p: Points, i: nat, done: set<nat>, count0: seq<int>, count: seq<int>)
    requires i !in done && Counted(p, count0, done) && |count| == |count0|
    requires forall k :: 0 <= k < |count| ==> count[k] == if p.Dom(i, k) then count0[k] - 1 else count0[k]
    ensures Counted(p, count, done + {i})
  {
    forall k | 0 <= k < |count| ensures count[k] == |p.Remaining(k, done + {i})| {
      RemainingShrinks(p, i, k, done);
    }
  }

  lemma FreeIsUndominated(p: Points, i: nat, done: set<nat>, count: seq<int>)
    requires i < |p.f| && i !in done && Counted(p, count, done)
    ensures forall k: nat :: k < |count| && p.Dom(i, k) ==> count[k] > 0
  {
    forall k: nat | k < |count| && p.Dom(i, k) ensures count[k] > 0 {
      assert i in p.Remaining(k, done);
    }
  }

  /** One peeled front: what is known between two rounds of the peeling loop. */
  ghost predicate Peeling(p: Points, count: seq<int>, front: seq<int>, done: set<nat>, current: seq<nat>, rank: int) {
    && Counted(p, count, done)
    && |front| == |p.f| && rank >= 0
    && (forall k :: k in done ==> k < |p.f| && 0 <= front[k] < rank)
    && NoDuplicates(current)
    && (forall k :: k in current ==> k < |p.f| && k !in done && front[k] == rank)
    && (forall k :: 0 <= k < |p.f| ==> (count[k] == 0 <==> k in done || k in current))
    && (forall i, k :: 0 <= i < |p.f| && 0 <= k < |p.f| && p.Dom(i, k) && k in done ==> front[i] < front[k])
    && (forall k :: 0 <= k < |p.f| && count[k] == 0 && front[k] > 0 ==> PeeledPredecessor(p, front, k, done))
  }

  ghost predicate PeeledPredecessor(p: Points, front: seq<int>, k: nat, done: set<nat>)
    requires k < |front|
  {
    exists i: nat :: i in done && i < |front| && p.Dom(i, k) && front[i] == front[k] - 1
  }

  ghost function Elements(s: seq<nat>): set<nat> {
    set k | k in s
  }

  lemma NoRemainingDominators(p: Points, count: seq<int>, done: set<nat>, k: nat)
    requires p.Valid() && Counted(p, count, done) && k < |p.f| && count[k] == 0
    ensures forall i: nat :: p.Dom(i, k) ==> i in done
  {
    forall i: nat | p.Dom(i, k) ensures i in done {
      assert i in p.Remaining(k, done) || i in done;
    }
  }

  /** The state after the first a points of a front are released. */
  ghost predicate Released(p: Points, count: seq<int>, front0: seq<int>, front: seq<int>, done: set<nat>,
                           current: seq<nat>, a: nat, rank: int, next: seq<nat>) {
    && a <= |current|
    && Counted(p, count, done + Elements(current[..a]))
    && |front0| == |front| == |p.f|
    && NoDuplicates(next)
    && (forall k: nat :: k in next <==> k < |p.f| && count[k] == 0 && k !in done && k !in current)
    && (forall k :: 0 <= k < |p.f| ==> front[k] == if k in next then rank + 1 else front0[k])
    && (forall k: nat :: k in done || k in current ==> k < |p.f| && count[k] == 0)
    && (forall k: nat :: k in next ==> DominatedFrom(p, current[..a], k))
  }

  lemma ReleasedStepFrom(p: Points, current: seq<nat>, a: nat, next: seq<nat>, next': seq<nat>)
    requires a < |current|
    requires forall k: nat :: k in next ==> DominatedFrom(p, current[..a], k)
    requires forall k: nat :: k in next' ==> k in next || p.Dom(current[a], k)
    ensures forall k: nat :: k in next' ==> DominatedFrom(p, current[..a + 1], k)
  {
  }

  lemma ReleasedStep(p: Points, front0: seq<int>, done: set<nat>, current: seq<nat>, a: nat, rank: int,
                     count: seq<int>, front: seq<int>, next: seq<nat>, count': seq<int>, front': seq<int>,
                     next': seq<nat>)
    requires p.Valid() && a < |current| && current[a] < |p.f| && current[a] !in done + Elements(current[..a])
    requires Released(p, count, front0, front, done, current, a, rank, next)
    requires ReleaseEffect(p, current[a], rank, done + Elements(current[..a]), count, front, next,
                           count', front', next')
    ensures Released(p, count', front0, front', done, current, a + 1, rank, next')
  {
    var i := current[a];
    assert done + Elements(current[..a]) + {i} == done + Elements(current[..a + 1]) by {
      assert current[..a + 1] == current[..a] + [i];
    }
    ReleasedStepFrom(p, current, a, next, next');
    FreeIsUndominated(p, i, done + Elements(current[..a]), count);
  }

  /** Releases every point of the current front. */
  method PeelFront(p: Points, current: seq<nat>, rank: int, lists: array<seq<nat>>, count: array<int>,
                   front: array<int>, ghost done: set<nat>) returns (next: seq<nat>)
    requires p.Valid() && count != front && front.Length == lists.Length == |p.f|
    requires forall i :: 0 <= i < |p.f| ==> lists[i] == p.Dominated(i, |p.f|)
    requires Peeling(p, count[..], front[..], done, current, rank)
    modifies count, front
    ensures Peeling(p, count[..], front[..], done + Elements(current), next, rank + 1)
  {
    next := [];
    ghost var front0 := front[..];
    assert done + Elements(current[..0]) == done;
    for a := 0 to |current|
      invariant Released(p, count[..], front0, front[..], done, current, a, rank, next)
    {
      assert current[a] in current;
      ghost var count1, front1, next1 := count[..], front[..], next;
      next := Release(p, current[a], lists[current[a]], rank, count, front, next, done + Elements(current[..a]));
      ReleasedStep(p, front0, done, current, a, rank, count1, front1, next1, count[..], front[..], next);
    }
    assert current[..|current|] == current;
    NextRound(p, old(count[..]), front0, done, current, rank, count[..], front[..], next);
  }

  ghost predicate DominatedFrom(p: Points, from: seq<nat>, k: nat) {
    exists m :: 0 <= m < |from| && p.Dom(from[m], k)
  }

  lemma NextRound(p: Points, count0: seq<int>, front0: seq<int>, done: set<nat>, current: seq<nat>, rank: int,
                  count: seq<int>, front: seq<int>, next: seq<nat>)
    requires p.Valid() && Peeling(p, count0, front0, done, current, rank)
    requires current[..|current|] == current && Released(p, count, front0, front, done, current, |current|, rank, next)
    ensures Peeling(p, count, front, done + Elements(current), next, rank + 1)
  {
    var done' := done + Elements(current);
    forall i: nat, k: nat | i < |p.f| && k < |p.f| && p.Dom(i, k) && k in done' ensures front[i] < front[k] {
      if k !in done {
        NoRemainingDominators(p, count0, done, k);
      }
      NoRemainingDominators(p, count0, done, k);
    }
    forall k: nat | k < |p.f| && count[k] == 0 && front[k] > 0 ensures PeeledPredecessor(p, front, k, done') {
      if k in next {
        assert DominatedFrom(p, current, k);
        var m :| 0 <= m < |current| && p.Dom(current[m], k);
        assert current[m] in done' && current[m] !in next;
      } else {
        assert count0[k] == 0 && PeeledPredecessor(p, front0, k, done);
        var i: nat :| i in done && i < |front0| && p.Dom(i, k) && front0[i] == front0[k] - 1;
        assert i in done' && i !in next;
      }
    }
  }

  lemma {:induction false} ProgressBound(s: set<nat>, n: nat)
    requires forall k :: k in s ==> k < n
    ensures |s| <= n
  {
    if n == 0 {
      assert s == {};
    } else {
      ProgressBound(s - {n - 1}, n - 1);
      assert s <= (s - {n - 1}) + {n - 1};
    }
  }

  lemma CurrentIsNew(done: set<nat>, current: seq<nat>)
    requires current != [] && current[0] !in done
    ensures |done + Elements(current)| > |done|
  {
    assert done + Elements(current) == done + {current[0]} + (Elements(current) - done - {current[0]});
    assert |done + {current[0]}| == |done| + 1;
  }

  lemma PeelProgress(p: Points, count: seq<int>, front: seq<int>, done: set<nat>, current: seq<nat>, rank: int)
    requires p.Valid() && Peeling(p, count, front, done, current, rank) && current != []
    ensures |done| < |done + Elements(current)| <= |p.f|
  {
    assert current[0] in current;
    CurrentIsNew(done, current);
    ProgressBound(done + Elements(current), |p.f|);
  }

  /** When no front is left, every point has been peeled. */
  lemma EverythingPeeled(p: Points, count: seq<int>, front: seq<int>, done: set<nat>, rank: int)
    requires p.Valid() && Peeling(p, count, front, done, [], rank)
    ensures IsFronts(p, front)
  {
    var open := set k: nat | k < |p.f| && k !in done;
    if open != {} {
      var top := SomePointIsUndominated(p, open);
      assert false;
    }
    forall k: nat | k < |p.f| ensures k in done {
      assert k in open || k in done;
    }
    forall k: nat | k < |p.f| && front[k] > 0 ensures HasPredecessor(p, front, k) {
      assert PeeledPredecessor(p, front, k, done);
    }
  }

  /** The first front: the points nobody dominates. */
  method FirstFront(p: Points, count: array<int>, front: array<int>) returns (current: seq<nat>)
    requires p.Valid() && count != front && front.Length == |p.f| && Counted(p, count[..], {})
    requires forall k :: 0 <= k < front.Length ==> front[k] == 0
    modifies front
    ensures Peeling(p, count[..], front[..], {}, current, 0)
  {
    current := [];
    for i := 0 to |p.f|
      invariant NoDuplicates(current)
      invariant forall k: nat :: k in current <==> k < i && count[k] == 0
      invariant forall k :: 0 <= k < |p.f| ==> front[k] == 0
    {
      if count[i] == 0 {
        front[i] := 0;
        current := current + [i];
      }
    }
  }

  /** Peels front after front; each round takes at least one new point, so the loop ends. */
  method PeelAll(p: Points, first: seq<nat>, lists: array<seq<nat>>, count: array<int>, front: array<int>)
    requires p.Valid() && count != front && front.Length == lists.Length == |p.f|
    requires forall i :: 0 <= i < |p.f| ==> lists[i] == p.Dominated(i, |p.f|)
    requires Peeling(p, count[..], front[..], {}, first, 0)
    modifies count, front
    ensures IsFronts(p, front[..])
  {
    var current, rank := first, 0;
    ghost var done: set<nat> := {};
    while current != []
      invariant Peeling(p, count[..], front[..], done, current, rank)
      invariant |done| <= |p.f|
      decreases |p.f| - |done|
    {
      PeelProgress(p, count[..], front[..], done, current, rank);
      var next := PeelFront(p, current, rank, lists, count, front, done);
      done := done + Elements(current);
      rank := rank + 1;
      current := next;
    }
    EverythingPeeled(p, count[..], front[..], done, rank);
  }

  /** nonDominatedFronts: the NSGA-II front index of every point. */
  method NonDominatedFronts(p: Points) returns (fronts: seq<int>)
    requires p.Valid()
    ensures IsFronts(p, fronts)
  {
    var n := |p.f|;
    var front := new int[n](_ => 0);
    var count := new int[n](_ => 0);
    var lists := new seq<nat>[n](_ => []);
    CountDominance(p, count, lists);
    var first := FirstFront(p, count, front);
    PeelAll(p, first, lists, count, front);
    fronts := front[..];
  }

  // ---- scores ----

  function Lowest(xs: seq<real>): real
    requires xs != []
  {
    if |xs| == 1 then xs[0] else var m := Lowest(xs[..|xs| - 1]); if xs[|xs| - 1] < m then xs[|xs| - 1] else m
  }

  function Highest(xs: seq<real>): real
    requires xs != []
  {
    if |xs| == 1 then xs[0] else var m := Highest(xs[..|xs| - 1]); if xs[|xs| - 1] > m then xs[|xs| - 1] else m
  }

  lemma {:induction false} ExtremesBound(xs: seq<real>, i: nat)
    requires i < |xs|
    ensures Lowest(xs) <= xs[i] <= Highest(xs)
  {
    if |xs| > 1 {
      if i == |xs| - 1 {
        ExtremesBound(xs[..|xs| - 1], 0);
      } else {
        ExtremesBound(xs[..|xs| - 1], i);
      }
    }
  }

  function Normalized(xs: seq<real>, i: nat): real
    requires i < |xs|
  {
    var lo, hi := Lowest(xs), Highest(xs);
    if hi == lo then 1.0 else (xs[i] - lo) / (hi - lo)
  }

  lemma NormalizedBounds(xs: seq<real>, i: nat)
    requires i < |xs|
    ensures 0.0 <= Normalized(xs, i) <= 1.0
  {
    ExtremesBound(xs, i);
    if Lowest(xs) != Highest(xs) {
      DivideBounds(xs[i] - Lowest(xs), Highest(xs) - Lowest(xs));
    }
  }

  /** normalize: rescales a column to [0, 1]. */
  method Normalize(xs: seq<real>) returns (out: seq<real>)
    ensures |out| == |xs| && forall i :: 0 <= i < |xs| ==> out[i] == Normalized(xs, i)
    ensures forall i :: 0 <= i < |out| ==> 0.0 <= out[i] <= 1.0
  {
    if |xs| == 0 {
      return [];
    }
    var lo, hi := xs[0], xs[0];
    for k := 1 to |xs|
      invariant lo == Lowest(xs[..k]) && hi == Highest(xs[..k])
    {
      assert xs[..k + 1][..k] == xs[..k];
      lo := if xs[k] < lo then xs[k] else lo;
      hi := if xs[k] > hi then xs[k] else hi;
    }
    assert xs[..|xs|] == xs;
    forall i | 0 <= i < |xs| ensures 0.0 <= Normalized(xs, i) <= 1.0 {
      NormalizedBounds(xs, i);
    }
    out := seq(|xs|, i requires 0 <= i < |xs| => if hi == lo then 1.0 else (xs[i] - lo) / (hi - lo));
  }

  /** A pareto/v0 score vector: front rank first, then a balanced tie-break of at most one half. */
  ghost predicate IsScores(p: Points, scores: seq<real>) {
    |p.f| == |p.s| == |scores| && exists front :: IsFronts(p, front) && ScoredBy(p, front, scores)
  }

  ghost predicate ScoredBy(p: Points, front: seq<int>, scores: seq<real>)
    requires |p.f| == |p.s| == |scores|
  {
    |front| == |scores| && forall i :: 0 <= i < |scores| ==>
      scores[i] == -(front[i] as real) + (Normalized(p.f, i) + Normalized(p.s, i)) / 4.0
  }

  /** The points determine their scores. */
  lemma ScoresUnique(p: Points, xs: seq<real>, ys: seq<real>)
    requires p.Valid() && IsScores(p, xs) && IsScores(p, ys)
    ensures xs == ys
  {
    var a :| IsFronts(p, a) && ScoredBy(p, a, xs);
    var b :| IsFronts(p, b) && ScoredBy(p, b, ys);
    FrontsUnique(p, a, b);
  }

  lemma {:induction false} ExtremesAttained(xs: seq<real>)
    requires xs != []
    ensures Lowest(xs) in xs && Highest(xs) in xs
  {
    if |xs| > 1 {
      ExtremesAttained(xs[..|xs| - 1]);
      assert xs[|xs| - 1] in xs;
    }
  }

  /** Normalizing is the affine map that sends the least value to 0 and the greatest to 1. */
  lemma NormalizedIsAffine(xs: seq<real>, i: nat) returns (a: nat, b: nat)
    requires i < |xs|
    ensures a < |xs| && b < |xs| && forall k :: 0 <= k < |xs| ==> xs[a] <= xs[k] <= xs[b]
    ensures Normalized(xs, i) * (xs[b] - xs[a]) == xs[i] - xs[a]
    ensures xs[a] == xs[b] ==> Normalized(xs, i) == 1.0
  {
    ExtremesAttained(xs);
    a :| 0 <= a < |xs| && xs[a] == Lowest(xs);
    b :| 0 <= b < |xs| && xs[b] == Highest(xs);
    forall k | 0 <= k < |xs| ensures xs[a] <= xs[k] <= xs[b] {
      ExtremesBound(xs, k);
    }
  }

  /** Among undominated points the balanced tie-break decides: the sum of both normalized objectives. */
  lemma TieBreakIsBalanced(p: Points, scores: seq<real>, i: nat, k: nat)
    requires p.Valid() && IsScores(p, scores) && i < |scores| && k < |scores|
    requires forall m: nat :: !p.Dom(m, i) && !p.Dom(m, k)
    ensures scores[i] <= scores[k] <==>
              Normalized(p.f, i) + Normalized(p.s, i) <= Normalized(p.f, k) + Normalized(p.s, k)
  {
    var front :| IsFronts(p, front) && ScoredBy(p, front, scores);
    FirstFrontIs(p, front, i);
    FirstFrontIs(p, front, k);
  }

  lemma FirstFrontIs(p: Points, front: seq<int>, i: nat)
    requires IsFronts(p, front) && i < |front| && forall m: nat :: !p.Dom(m, i)
    ensures front[i] == 0
  {
    assert front[i] > 0 ==> HasPredecessor(p, front, i);
  }

  /** paretoPolicy.ScoreSet over the two objective columns. */
  method ScoreSet(p: Points) returns (scores: seq<real>)
    requires p.Valid()
    ensures IsScores(p, scores)
  {
    var front := NonDominatedFronts(p);
    var fidN := Normalize(p.f);
    var speedN := Normalize(p.s);
    scores := [];
    for i := 0 to |p.f|
      invariant |scores| == i
      invariant forall k :: 0 <= k < i ==>
                  scores[k] == -(front[k] as real) + (Normalized(p.f, k) + Normalized(p.s, k)) / 4.0
    {
      scores := scores + [-(front[i] as real) + (fidN[i] + speedN[i]) / 4.0];
    }
    assert ScoredBy(p, front, scores);
  }

  /** The tie-break never crosses fronts: a dominating point scores strictly higher. */
  lemma DominatorScoresHigher(p: Points, scores: seq<real>, i: nat, k: nat)
    requires p.Valid() && IsScores(p, scores) && p.Dom(i, k)
    ensures scores[i] > scores[k]
  {
    var front :| IsFronts(p, front) && ScoredBy(p, front, scores);
    NormalizedBounds(p.f, i);
    NormalizedBounds(p.s, i);
    NormalizedBounds(p.f, k);
    NormalizedBounds(p.s, k);
    assert front[i] + 1 <= front[k];
  }
}
