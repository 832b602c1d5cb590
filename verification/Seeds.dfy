/** From route lists to live tours, and the seed split (cpp/heuristics/greedy_makespan.cpp). */
module Seeds {
  import opened Common
  import opened Instances
  import opened SearchStates
  import opened Staleness
  import opened LocalSearch
  import opened Descents
  import opened WarpSearches
  import opened Construction

  /** Separate routes serve each of their clients once. */
  lemma {:induction false} SeparateServed(n: nat, tours: seq<Tour>, v: int)
    requires Separate(n, Routes(tours))
    ensures Served(tours)[v] == if InSome(Routes(tours), v) then 1 else 0
    decreases |tours|
  {
    if |tours| > 0 {
      var k := |tours| - 1;
      var r := tours[k].vertices;
      assert Routes(tours)[k] == r && Routes(tours)[..k] == Routes(tours[..k]);
      SeparateServed(n, tours[..k], v);
      DistinctCounts(r);
      InSomeSplit(Routes(tours), k, v);
      assert v in r ==> !InSome(Routes(tours)[..k], v) by {
        forall q | 0 <= q < k ensures Apart(Routes(tours)[q], r) { }
      }
    }
  }

  lemma InSomeSplit(routes: seq<seq<int>>, k: nat, v: int)
    requires k == |routes| - 1
    ensures InSome(routes, v) <==> InSome(routes[..k], v) || v in routes[k]
  {
    if InSome(routes[..k], v) {
      var q :| 0 <= q < k && v in routes[..k][q];
      assert v in routes[q];
    }
  }

  lemma SameCounts(a: multiset<int>, b: multiset<int>)
    requires forall v :: a[v] == b[v]
    ensures a == b
  {
    assert forall v :: v in a ==> a[v] == b[v];
    assert forall v :: v in b ==> a[v] == b[v];
  }

  /** A partition whose routes the fold accepts, within capacity, prices to a feasible state. */
  lemma PartitionIsFeasible(w: World, routes: seq<seq<int>>)
    requires PartitionOf(w.inst.n, routes) && WithinCapacity(w, routes)
    requires forall k :: 0 <= k < |routes| ==> w.price.fold(routes[k]).Some?
    ensures Feasible(w, Priced(w, routes)) && Routes(Priced(w, routes)) == routes
  {
    hide Load;
    var n, tours := w.inst.n, Priced(w, routes);
    assert Routes(tours) == routes;
    var a, b := Served(tours), AllClients(n);
    forall v ensures a[v] == b[v] {
      SeparateServed(n, tours, v);
      assert v in ClientSet(n) <==> 1 <= v <= n && IsClient(n, v);
      if InSome(routes, v) {
        var k :| 0 <= k < |routes| && v in routes[k];
        assert Clients(n, routes[k]);
      }
      assert 1 <= v <= n ==> InSome(routes, v);
    }
    SameCounts(a, b);
    forall k | 0 <= k < |tours| ensures TourOk(w, tours[k]) {
      assert Clients(n, routes[k]);
      assert Load(w.inst, routes[k]) <= w.inst.capacity;
    }
  }

  /** A solution duration means every non-empty route is feasible. */
  lemma {:induction false} TotalMeansFolds(w: World, routes: seq<seq<int>>)
    requires FoldTotal(w, routes).Some?
    ensures forall k :: 0 <= k < |routes| && |routes[k]| > 0 ==> w.price.fold(routes[k]).Some?
    decreases |routes|
  {
    if |routes| > 0 { TotalMeansFolds(w, routes[..|routes| - 1]); }
  }

  // ---------- split_to_k ----------

  /** Cut route r before position p. */
  function SplitAt(routes: seq<seq<int>>, r: nat, p: nat): seq<seq<int>>
    requires r < |routes| && p <= |routes[r]|
  {
    routes[r := routes[r][..p]] + [routes[r][p..]]
  }

  lemma SplitKeepsPartition(w: World, routes: seq<seq<int>>, r: nat, p: nat)
    requires PartitionOf(w.inst.n, routes) && WithinCapacity(w, routes) && r < |routes| && 0 < p < |routes[r]|
    ensures PartitionOf(w.inst.n, SplitAt(routes, r, p)) && WithinCapacity(w, SplitAt(routes, r, p))
  {
    hide Load;
    var n, after := w.inst.n, SplitAt(routes, r, p);
    var head, tail := routes[r][..p], routes[r][p..];
    assert Clients(n, routes[r]) && Distinct(routes[r]);
    CutLoad(w, routes[r], p);
    LoadNonNegative(w, head);
    LoadNonNegative(w, tail);
    assert after[r] == head && after[|routes|] == tail;
    assert routes[r] == head + tail;
    forall q | 0 <= q < |after| ensures Clients(n, after[q]) && Distinct(after[q]) && |after[q]| > 0 && Load(w.inst, after[q]) <= w.inst.capacity {
      if q != r && q < |routes| {
        assert after[q] == routes[q] && Clients(n, routes[q]) && Distinct(routes[q]) && Load(w.inst, routes[q]) <= w.inst.capacity;
      } else {
        assert Load(w.inst, routes[r]) <= w.inst.capacity;
      }
    }
    forall q, s | 0 <= q < s < |after| ensures Apart(after[q], after[s]) {
      SplitApart(n, routes, r, p, q, s);
    }
    forall v | 1 <= v <= n ensures InSome(after, v) {
      assert InSome(routes, v);
      var k :| 0 <= k < |routes| && v in routes[k];
      if k == r {
        assert v in head || v in tail;
        assert v in after[r] || v in after[|routes|];
      } else {
        assert v in after[k];
      }
    }
  }

  lemma SplitApart(n: nat, routes: seq<seq<int>>, r: nat, p: nat, q: nat, s: nat)
    requires Separate(n, routes) && r < |routes| && p <= |routes[r]| && q < s < |SplitAt(routes, r, p)|
    ensures Apart(SplitAt(routes, r, p)[q], SplitAt(routes, r, p)[s])
  {
    var after := SplitAt(routes, r, p);
    var a, b := after[q], after[s];
    var s0 := if s < |routes| then s else r;
    assert forall i :: 0 <= i < |a| ==> a[i] == routes[q][i];
    assert forall j :: 0 <= j < |b| ==> b[j] == routes[s0][if s < |routes| then j else p + j];
    if q < s0 { assert Apart(routes[q], routes[s0]); } else if s0 < q { assert Apart(routes[s0], routes[q]); } else { assert Distinct(routes[r]); }
  }

  /** The cheapest feasible split over all routes and positions, by the change of the duration sum. */
  datatype Split = Split(delta: real, route: nat, pos: nat)

  predicate IsSplit(w: World, routes: seq<seq<int>>, x: Split) {
    && x.route < |routes| && 0 < x.pos < |routes[x.route]|
    && var r := routes[x.route];
       && w.price.fold(r).Some? && w.price.fold(r[..x.pos]).Some? && w.price.fold(r[x.pos..]).Some?
       && x.delta == w.price.fold(r[..x.pos]).value + w.price.fold(r[x.pos..]).value - w.price.fold(r).value
  }

  /** Cheapest first, ties in scan order. */
  predicate SplitBefore(x: Split, y: Split) {
    x.delta < y.delta || (x.delta == y.delta && (x.route < y.route || (x.route == y.route && x.pos < y.pos)))
  }

  ghost predicate IsCheapest(w: World, routes: seq<seq<int>>, x: Split) {
    IsSplit(w, routes, x) && forall y :: IsSplit(w, routes, y) && y != x ==> SplitBefore(x, y)
  }

  method CheapestSplit(w: World, routes: seq<seq<int>>) returns (best: Option<Split>)
    ensures if best.Some? then IsCheapest(w, routes, best.value) else forall x :: !IsSplit(w, routes, x)
  {
    best := None;
    for r := 0 to |routes|
      invariant best.Some? ==> IsSplit(w, routes, best.value) && best.value.route < r
      invariant forall x :: IsSplit(w, routes, x) && x.route < r ==> best.Some? && (x == best.value || SplitBefore(best.value, x))
    {
      var route := routes[r];
      var d := w.price.fold(route);
      if |route| >= 2 && d.Some? {
        for p := 1 to |route|
          invariant best.Some? ==> IsSplit(w, routes, best.value) && (best.value.route < r || (best.value.route == r && best.value.pos < p))
          invariant forall x :: IsSplit(w, routes, x) && (x.route < r || (x.route == r && x.pos < p)) ==>
                      best.Some? && (x == best.value || SplitBefore(best.value, x))
        {
          var head := w.price.fold(route[..p]);
          var tail := w.price.fold(route[p..]);
          if head.Some? && tail.Some? {
            var delta := head.value + tail.value - d.value;
            if best.None? || delta < best.value.delta { best := Some(Split(delta, r, p)); }
          }
        }
      }
    }
  }

  /** Cutting the cheapest feasible way, one cut at a time, up to the target count or until nothing can be
      cut, leads from one list to the other. */
  ghost predicate SplitsTo(w: World, from: seq<seq<int>>, target: int, to: seq<seq<int>>)
    decreases target - |from|
  {
    if |from| >= target || forall x :: !IsSplit(w, from, x) then to == from
    else exists x :: IsCheapest(w, from, x) && SplitsTo(w, SplitAt(from, x.route, x.pos), target, to)
  }

  lemma CutsAre(w: World, routes: seq<seq<int>>, x: Split)
    requires IsSplit(w, routes, x)
    ensures x.route < |routes| && 0 < x.pos < |routes[x.route]|
    ensures var after := SplitAt(routes, x.route, x.pos);
            (forall k :: 0 <= k < |routes| ==> w.price.fold(routes[k]).Some?) ==> forall k :: 0 <= k < |after| ==> w.price.fold(after[k]).Some?
  {
  }

  /** split_to_k: cut the cheapest feasible way until the target count or until nothing can be cut. */
  method SplitToK(w: World, routes0: seq<seq<int>>, target: int) returns (any: bool, routes: seq<seq<int>>)
    requires PartitionOf(w.inst.n, routes0) && WithinCapacity(w, routes0)
    requires forall k :: 0 <= k < |routes0| ==> w.price.fold(routes0[k]).Some?
    ensures PartitionOf(w.inst.n, routes) && WithinCapacity(w, routes)
    ensures forall k :: 0 <= k < |routes| ==> w.price.fold(routes[k]).Some?
    ensures any <==> |routes| > |routes0|
    ensures SplitsTo(w, routes0, target, routes)
    ensures |routes| < target ==> forall x :: !IsSplit(w, routes, x)
    ensures any ==> |routes| <= target
  {
    hide Load, PartitionOf, WithinCapacity, IsSplit;
    routes, any := routes0, false;
    var more := true;
    while |routes| < target && more
      invariant PartitionOf(w.inst.n, routes) && WithinCapacity(w, routes)
      invariant forall k :: 0 <= k < |routes| ==> w.price.fold(routes[k]).Some?
      invariant |routes| >= |routes0| && (any <==> |routes| > |routes0|) && (any ==> |routes| <= target)
      invariant !more ==> forall x :: !IsSplit(w, routes, x)
      invariant forall to :: SplitsTo(w, routes, target, to) ==> SplitsTo(w, routes0, target, to)
      decreases target - |routes|, more
    {
      var best := CheapestSplit(w, routes);
      if best.None? {
        more := false;
      } else {
        CutsAre(w, routes, best.value);
        SplitKeepsPartition(w, routes, best.value.route, best.value.pos);
        routes := SplitAt(routes, best.value.route, best.value.pos);
        any := true;
      }
    }
  }
}
