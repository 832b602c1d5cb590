/** Move ranking (cpp/ls/splice.cpp): routes edited at a few seams are priced from tree queries and
    bridge leaves. In exact arithmetic every such price is evaluate_route of the edited list. */
module Splicing {
  import opened Common
  import opened Pwlfs
  import opened Composition
  import opened Scans
  import opened Instances
  import opened RouteEvaluation
  import opened RouteLeaves
  import opened LcaTrees

  /** Per-route state: the vertex list, its tree, and the values the fold gave it. */
  datatype RouteState = RouteState(vertices: seq<int>, tree: LcaTree<Pwlf>, duration: real, departure: real, load: int)

  method LoadOf(inst: Problem, vertices: seq<int>) returns (load: int)
    requires inst.Route(vertices)
    ensures load == Load(inst, vertices)
  {
    load := 0;
    for k := 0 to |vertices|
      invariant load == Load(inst, vertices[..k])
    {
      assert vertices[..k + 1][..k] == vertices[..k];
      load := load + inst.demands[vertices[k]];
    }
    assert vertices[..|vertices|] == vertices;
  }

  /** A state as build_route_state leaves it. */
  ghost predicate Built(inst: Problem, s: RouteState)
    reads s.tree
  {
    && inst.Route(s.vertices) && |s.vertices| > 0
    && EvaluateRoute(inst, s.vertices) == Some(MinShift(s.duration, s.departure))
    && s.tree.Valid() && s.tree.op == Compose && s.tree.leaves == LeavesOf(inst, s.vertices)
    && s.load == Load(inst, s.vertices)
  }

  /** build_route_state: fold first; a time-infeasible route builds nothing. The source never calls
      it with no vertices; the fold rejects that case because self-arcs are absent. */
  method BuildRouteState(inst: Problem, vertices: seq<int>) returns (s: Option<RouteState>)
    requires inst.Route(vertices)
    ensures s.Some? <==> EvaluateRoute(inst, vertices).Some?
    ensures s.Some? ==> fresh(s.value.tree) && Built(inst, s.value) && s.value.vertices == vertices
  {
    hide RouteFunction, Compose, Eval, LeafAt;
    var f := RouteFunctionLoop(inst, vertices);
    var eval := MinShiftedImageLoop(f);
    PricesLikeFold(inst, vertices, f);
    EmptyRouteInfeasible(inst);
    if eval.None? { return None; }
    var leaves := RouteLeavesLoop(inst, vertices);
    var tree := new LcaTree<Pwlf>(Compose, EMPTY);
    var ok := tree.Build(leaves.value);
    var load := LoadOf(inst, vertices);
    return Some(RouteState(vertices, tree, eval.value.value, eval.value.argmin, load));
  }

  lemma EmptyRouteInfeasible(inst: Problem)
    ensures EvaluateRoute(inst, []).None?
  {
    hide RouteFunction;
    EvaluateRouteMeaning(inst, []);
    assert inst.Vertex(0);
    assert IsEmpty(inst.arcs[0][0]);
  }

  // ---------- partial routes ----------

  /** acc denotes leaving the depot in its window and chaining through `stops`. */
  ghost predicate IsPrefix(inst: Problem, acc: Pwlf, stops: seq<int>)
    requires inst.Route(stops)
  {
    FromHorizon(inst, acc) && forall t :: Den(acc, t) == Prefix(inst, stops, t)
  }

  function Prefix(inst: Problem, stops: seq<int>, t: real): Option<real>
    requires inst.Route(stops)
  {
    if MayLeave(inst, t) then Chain(inst, 0, stops, t) else None
  }

  lemma DepartureIsPrefix(inst: Problem)
    ensures IsPrefix(inst, DepartureIdentity(inst), [])
  {
    hide Eval, DepartureIdentity;
    DepartureIdentityMeaning(inst);
  }

  lemma QueryIsPrefix(inst: Problem, route: seq<int>, hi: int)
    requires inst.Route(route) && DepartureLow(inst) <= DepartureHigh(inst) && 0 <= hi < |route|
    ensures inst.Route(route[..hi + 1]) && IsPrefix(inst, QueryOf(Compose, LeavesOf(inst, route), 0, hi), route[..hi + 1])
  {
    hide Eval, QueryOf, LeavesOf, Chain, DepartureLow, DepartureHigh, ReturnArrival, Compose;
    QueryIsStretch(inst, route, 0, hi);
    var q := QueryOf(Compose, LeavesOf(inst, route), 0, hi);
    assert route[0..hi + 1] == route[..hi + 1];
    forall t ensures Den(q, t) == Prefix(inst, route[..hi + 1], t) {
      assert Den(q, t) == Stretch(inst, route, 0, hi + 1, t);
    }
  }

  /** Extending a prefix by a bridge to the next stop. */
  lemma BridgeExtends(inst: Problem, acc: Pwlf, stops: seq<int>, v: int)
    requires inst.Route(stops) && inst.Customer(v) && IsPrefix(inst, acc, stops)
    ensures inst.Route(stops + [v]) && IsPrefix(inst, Compose(BridgeLeaf(inst, Last(0, stops), v), acc), stops + [v])
  {
    hide Eval, BridgeLeaf, Compose, Chain, ReadyNext;
    var bridge := BridgeLeaf(inst, Last(0, stops), v);
    BridgeLeafMeaning(inst, Last(0, stops), v);
    forall t ensures Den(Compose(bridge, acc), t) == Prefix(inst, stops + [v], t) {
      ComposeAfter(bridge, acc, t);
      ChainConcat(inst, 0, stops, [v], t);
      var r := Chain(inst, 0, stops, t);
      if r.Some? { ChainOne(inst, Last(0, stops), v, r.value); }
    }
    KeepsHorizon(inst, bridge, acc);
  }

  lemma KeepsHorizon(inst: Problem, f: Pwlf, acc: Pwlf)
    requires Inner(inst, f) && FromHorizon(inst, acc)
    ensures FromHorizon(inst, Compose(f, acc))
  {
    hide Eval, Compose;
    ComposeAfter(f, acc, 0.0);
    if !IsEmpty(Compose(f, acc)) { EvalBounds(f, acc.ys[0]); }
  }

  /** Extending a prefix that ends at stop i-1 of `route` by the stored run i..k-1. */
  lemma RunExtends(inst: Problem, acc: Pwlf, stops: seq<int>, route: seq<int>, i: int, k: int)
    requires inst.Route(stops) && inst.Route(route) && IsPrefix(inst, acc, stops)
    requires DepartureLow(inst) <= DepartureHigh(inst)
    requires 0 < i < k <= |route| && Last(0, stops) == route[i - 1]
    ensures inst.Route(stops + route[i..k])
    ensures IsPrefix(inst, Compose(QueryOf(Compose, LeavesOf(inst, route), i, k - 1), acc), stops + route[i..k])
  {
    hide Eval, QueryOf, LeavesOf, Compose, Chain, DepartureLow, DepartureHigh;
    QueryIsStretch(inst, route, i, k - 1);
    var run := QueryOf(Compose, LeavesOf(inst, route), i, k - 1);
    forall t ensures Den(Compose(run, acc), t) == Prefix(inst, stops + route[i..k], t) {
      ComposeAfter(run, acc, t);
      ChainConcat(inst, 0, stops, route[i..k], t);
    }
    KeepsHorizon(inst, run, acc);
  }

  /** Closing a prefix that ends at stop i-1 of `route` with everything stored after it. */
  lemma TailCloses(inst: Problem, acc: Pwlf, stops: seq<int>, route: seq<int>, i: int)
    requires inst.Route(stops) && inst.Route(route) && IsPrefix(inst, acc, stops)
    requires DepartureLow(inst) <= DepartureHigh(inst)
    requires 0 < i <= |route| && Last(0, stops) == route[i - 1]
    ensures inst.Route(stops + route[i..])
    ensures MinShiftedImage(Compose(QueryOf(Compose, LeavesOf(inst, route), i, |route|), acc)) == EvaluateRoute(inst, stops + route[i..])
  {
    hide Eval, QueryOf, LeavesOf, Compose, Chain, DepartureLow, DepartureHigh, ReturnArrival, MinShiftedImage, EvaluateRoute;
    QueryIsStretch(inst, route, i, |route|);
    var tail := QueryOf(Compose, LeavesOf(inst, route), i, |route|);
    var all := stops + route[i..];
    forall t ensures Den(Compose(tail, acc), t) == Simulate(inst, all, t) {
      ComposeAfter(tail, acc, t);
      ChainConcat(inst, 0, stops, route[i..], t);
      assert route[i..|route|] == route[i..];
      assert Last(0, all) == route[|route| - 1];
    }
    PricesLikeFold(inst, all, Compose(tail, acc));
  }

  lemma ReturnCloses(inst: Problem, acc: Pwlf, stops: seq<int>)
    requires inst.Route(stops) && IsPrefix(inst, acc, stops)
    ensures MinShiftedImage(Compose(ReturnLeaf(inst, Last(0, stops)), acc)) == EvaluateRoute(inst, stops)
  {
    hide Eval, ReturnLeaf, Compose, Chain, DepartureLow, DepartureHigh, ReturnArrival, MinShiftedImage, EvaluateRoute;
    var ret := ReturnLeaf(inst, Last(0, stops));
    ReturnLeafMeaning(inst, Last(0, stops));
    forall t ensures Den(Compose(ret, acc), t) == Simulate(inst, stops, t) {
      ComposeAfter(ret, acc, t);
    }
    PricesLikeFold(inst, stops, Compose(ret, acc));
  }

  /** An empty accumulator prices every completion as infeasible, so the early exits are right. */
  lemma DeadPrefix(inst: Problem, acc: Pwlf, stops: seq<int>, rest: seq<int>)
    requires inst.Route(stops) && inst.Route(rest) && IsPrefix(inst, acc, stops) && IsEmpty(acc)
    ensures inst.Route(stops + rest) && EvaluateRoute(inst, stops + rest).None?
  {
    hide Eval, Chain, DepartureLow, DepartureHigh, EvaluateRoute;
    EvaluateRouteMeaning(inst, stops + rest);
    forall t ensures Simulate(inst, stops + rest, t).None? {
      ChainConcat(inst, 0, stops, rest, t);
      assert Den(acc, t) == None;
    }
  }

  lemma ComposeWithEmpty(acc: Pwlf)
    ensures Compose(EMPTY, acc) == EMPTY
  {
  }

  lemma BuiltRoute(inst: Problem, s: RouteState)
    requires Built(inst, s)
    ensures inst.Route(s.vertices) && |s.vertices| > 0
  {
  }

  // ---------- the shared steps ----------

  /** Cross a new arc to v; empty when the bridge is absent or nothing survives it. */
  method CrossBridge(inst: Problem, acc: Pwlf, ghost stops: seq<int>, last: int, v: int) returns (next: Pwlf)
    requires inst.Route(stops) && inst.Customer(v) && IsPrefix(inst, acc, stops) && last == Last(0, stops)
    ensures inst.Route(stops + [v]) && IsPrefix(inst, next, stops + [v])
  {
    hide Compose, BridgeLeaf, IsPrefix;
    var bridge := BridgeLeaf(inst, last, v);
    BridgeExtends(inst, acc, stops, v);
    if IsEmpty(bridge) {
      ComposeWithEmpty(acc);
      return EMPTY;
    }
    next := Compose(bridge, acc);
  }

  /** Follow the stored run of stops i..k-1 of r. */
  method FollowRun(inst: Problem, acc: Pwlf, ghost stops: seq<int>, r: RouteState, i: int, k: int) returns (next: Pwlf)
    requires Built(inst, r) && inst.Route(stops) && IsPrefix(inst, acc, stops)
    requires 0 < i < k <= |r.vertices| && Last(0, stops) == r.vertices[i - 1]
    ensures inst.Route(stops + r.vertices[i..k]) && IsPrefix(inst, next, stops + r.vertices[i..k])
  {
    hide Compose, QueryOf, LeavesOf, IsPrefix, EvaluateRoute;
    WindowOpen(inst, r.vertices);
    var run := r.tree.Query(i, k - 1);
    RunExtends(inst, acc, stops, r.vertices, i, k);
    if IsEmpty(run.value) {
      ComposeWithEmpty(acc);
      return EMPTY;
    }
    next := Compose(run.value, acc);
  }

  /** Take the stored stops before position i of r (the departure window when i = 0). */
  method TakeHead(inst: Problem, r: RouteState, i: int) returns (acc: Pwlf)
    requires Built(inst, r) && 0 <= i <= |r.vertices|
    ensures inst.Route(r.vertices[..i]) && IsPrefix(inst, acc, r.vertices[..i])
  {
    hide Compose, QueryOf, LeavesOf, IsPrefix, EvaluateRoute;
    WindowOpen(inst, r.vertices);
    if i > 0 {
      var q := r.tree.Query(0, i - 1);
      QueryIsPrefix(inst, r.vertices, i - 1);
      return q.value;
    }
    DepartureIsPrefix(inst);
    return DepartureIdentity(inst);
  }

  /** Finish with everything stored from position i of r on, i >= 1, given that the accumulated
      stops end at stop i - 1 (only the return leaf is left when i = |r|). */
  method FinishWithTail(inst: Problem, acc: Pwlf, ghost stops: seq<int>, r: RouteState, i: int) returns (e: Option<MinShift>)
    requires Built(inst, r) && inst.Route(stops) && IsPrefix(inst, acc, stops)
    requires 0 < i <= |r.vertices| && Last(0, stops) == r.vertices[i - 1]
    ensures inst.Route(stops + r.vertices[i..]) && e == EvaluateRoute(inst, stops + r.vertices[i..])
  {
    hide Compose, QueryOf, LeavesOf, IsPrefix, EvaluateRoute;
    WindowOpen(inst, r.vertices);
    var suffix := r.tree.Query(i, |r.vertices|);
    TailCloses(inst, acc, stops, r.vertices, i);
    if IsEmpty(suffix.value) {
      ComposeWithEmpty(acc);
      return None;
    }
    e := MinShiftedImageLoop(Compose(suffix.value, acc));
  }

  method FinishWithReturn(inst: Problem, acc: Pwlf, ghost stops: seq<int>, last: int) returns (e: Option<MinShift>)
    requires inst.Route(stops) && IsPrefix(inst, acc, stops) && last == Last(0, stops)
    ensures e == EvaluateRoute(inst, stops)
  {
    hide Compose, ReturnLeaf, IsPrefix, EvaluateRoute;
    var ret := ReturnLeaf(inst, last);
    ReturnCloses(inst, acc, stops);
    if IsEmpty(ret) {
      ComposeWithEmpty(acc);
      return None;
    }
    e := MinShiftedImageLoop(Compose(ret, acc));
  }

  /** A feasible route has an open departure window. */
  lemma WindowOpen(inst: Problem, route: seq<int>)
    requires inst.Route(route) && EvaluateRoute(inst, route).Some?
    ensures DepartureLow(inst) <= DepartureHigh(inst)
  {
    hide EvaluateRoute, Chain, ReturnArrival;
    EvaluateRouteMeaning(inst, route);
  }

  /** Nothing survives past a dead prefix. */
  lemma DeadExtends(inst: Problem, acc: Pwlf, stops: seq<int>, more: seq<int>)
    requires inst.Route(stops) && inst.Route(more) && IsPrefix(inst, acc, stops) && IsEmpty(acc)
    ensures inst.Route(stops + more) && IsPrefix(inst, EMPTY, stops + more)
  {
    hide Eval, Chain, DepartureLow, DepartureHigh;
    forall t ensures Den(EMPTY, t) == Prefix(inst, stops + more, t) {
      ChainConcat(inst, 0, stops, more, t);
      assert Den(acc, t) == None;
    }
  }

  /** Cross to the non-empty segment i..k-1 of r and follow it. */
  method TakeSegment(inst: Problem, acc0: Pwlf, ghost stops: seq<int>, last: int, r: RouteState, i: int, k: int) returns (acc: Pwlf)
    requires Built(inst, r) && inst.Route(stops) && IsPrefix(inst, acc0, stops) && last == Last(0, stops)
    requires 0 <= i < k <= |r.vertices|
    ensures inst.Route(stops + r.vertices[i..k]) && IsPrefix(inst, acc, stops + r.vertices[i..k])
  {
    hide IsPrefix, EvaluateRoute, Built;
    BuiltRoute(inst, r);
    var v := r.vertices;
    acc := CrossBridge(inst, acc0, stops, last, v[i]);
    assert v[i..k] == [v[i]] + v[i + 1..k];
    assert stops + v[i..k] == (stops + [v[i]]) + v[i + 1..k];
    if IsEmpty(acc) {
      DeadExtends(inst, acc, stops + [v[i]], v[i + 1..k]);
      return EMPTY;
    }
    if i + 1 < k {
      acc := FollowRun(inst, acc, stops + [v[i]], r, i + 1, k);
    } else {
      assert stops + v[i..k] == stops + [v[i]];
    }
  }

  /** Close the route with the stops of r from position i on, or with the depot return when i = |r|. */
  method CloseWith(inst: Problem, acc0: Pwlf, ghost stops: seq<int>, last: int, r: RouteState, i: int) returns (e: Option<MinShift>)
    requires Built(inst, r) && inst.Route(stops) && IsPrefix(inst, acc0, stops) && last == Last(0, stops)
    requires 0 <= i <= |r.vertices|
    ensures inst.Route(stops + r.vertices[i..]) && e == EvaluateRoute(inst, stops + r.vertices[i..])
  {
    hide IsPrefix, EvaluateRoute, Built;
    BuiltRoute(inst, r);
    var v := r.vertices;
    if i < |v| {
      var acc := CrossBridge(inst, acc0, stops, last, v[i]);
      assert v[i..] == [v[i]] + v[i + 1..];
      assert stops + v[i..] == (stops + [v[i]]) + v[i + 1..];
      if IsEmpty(acc) {
        DeadPrefix(inst, acc, stops + [v[i]], v[i + 1..]);
        return None;
      }
      e := FinishWithTail(inst, acc, stops + [v[i]], r, i + 1);
    } else {
      assert stops + v[i..] == stops;
      e := FinishWithReturn(inst, acc0, stops, last);
    }
  }

  // ---------- evaluate_splice ----------

  /** r1[0..i1-1] ++ r2[i2..j2] ++ r1[j1+1..], the incoming part empty when i2 > j2. */
  function Spliced(v1: seq<int>, i1: int, j1: int, v2: seq<int>, i2: int, j2: int): seq<int>
    requires 0 <= i1 <= j1 + 1 <= |v1| && (i2 <= j2 ==> 0 <= i2 && j2 < |v2|)
  {
    v1[..i1] + (if i2 <= j2 then v2[i2..j2 + 1] else []) + v1[j1 + 1..]
  }

  predicate SpliceIndices(m1: int, i1: int, j1: int, m2: int, i2: int, j2: int) {
    0 <= i1 <= m1 && i1 - 1 <= j1 < m1 && (i2 <= j2 ==> 0 <= i2 && j2 < m2)
  }

  /** evaluate_splice: refuses bad indices, otherwise prices the edited route exactly like the fold. */
  method EvaluateSplice(inst: Problem, r1: RouteState, i1: int, j1: int, r2: RouteState, i2: int, j2: int)
    returns (valid: bool, e: Option<MinShift>)
    requires Built(inst, r1) && Built(inst, r2)
    ensures valid <==> SpliceIndices(|r1.vertices|, i1, j1, |r2.vertices|, i2, j2)
    ensures valid ==>
              var edited := Spliced(r1.vertices, i1, j1, r2.vertices, i2, j2);
              inst.Route(edited) && e == EvaluateRoute(inst, edited)
  {
    hide IsPrefix, EvaluateRoute, Built;
    BuiltRoute(inst, r1);
    BuiltRoute(inst, r2);
    var v1, v2 := r1.vertices, r2.vertices;
    var m1, m2 := |v1|, |v2|;
    var incoming := i2 <= j2;
    if i1 < 0 || i1 > m1 || j1 < i1 - 1 || j1 >= m1 { return false, None; }
    if incoming && (i2 < 0 || j2 >= m2) { return false, None; }
    valid := true;
    var head, tail := i1 > 0, j1 + 1 < m1;
    if !head && !incoming && !tail {
      assert Spliced(v1, i1, j1, v2, i2, j2) == [];
      EmptyRouteInfeasible(inst);
      return true, None;
    }
    var acc := TakeHead(inst, r1, i1);
    ghost var stops := v1[..i1];
    var last := if head then v1[i1 - 1] else 0;
    if incoming {
      if IsEmpty(acc) {
        DeadExtends(inst, acc, stops, v2[i2..j2 + 1]);
        DeadPrefix(inst, EMPTY, stops + v2[i2..j2 + 1], v1[j1 + 1..]);
        return true, None;
      }
      acc := TakeSegment(inst, acc, stops, last, r2, i2, j2 + 1);
      stops := stops + v2[i2..j2 + 1];
      last := v2[j2];
    } else {
      assert stops == v1[..i1] + [];
    }
    if IsEmpty(acc) { DeadPrefix(inst, acc, stops, v1[j1 + 1..]); return true, None; }
    e := CloseWith(inst, acc, stops, last, r1, j1 + 1);
  }

  // ---------- evaluate_intra_relocate ----------

  /** Route v without its customer at i, re-inserted before position p of v. */
  function Relocated(v: seq<int>, i: int, p: int): seq<int>
    requires 0 <= i < |v| && 0 <= p <= |v| && p != i
  {
    if p < i then v[..p] + [v[i]] + v[p..i] + v[i + 1..]
    else v[..i] + v[i + 1..p] + [v[i]] + v[p..]
  }

  predicate RelocateIndices(m: int, i: int, p: int) {
    m >= 2 && 0 <= i < m && 0 <= p <= m && p != i && p != i + 1
  }

  method EvaluateIntraRelocate(inst: Problem, r: RouteState, i: int, p: int) returns (valid: bool, e: Option<MinShift>)
    requires Built(inst, r)
    ensures valid <==> RelocateIndices(|r.vertices|, i, p)
    ensures valid ==> inst.Route(Relocated(r.vertices, i, p)) && e == EvaluateRoute(inst, Relocated(r.vertices, i, p))
  {
    hide IsPrefix, EvaluateRoute, Built;
    BuiltRoute(inst, r);
    var v := r.vertices;
    var m := |v|;
    if m < 2 || i < 0 || i >= m || p < 0 || p > m || p == i || p == i + 1 { return false, None; }
    valid := true;
    if p < i {
      e := RelocateEarlier(inst, r, i, p);
    } else {
      e := RelocateLater(inst, r, i, p);
    }
  }

  /** New order r[0..p-1], c, r[p..i-1], r[i+1..]. */
  method RelocateEarlier(inst: Problem, r: RouteState, i: int, p: int) returns (e: Option<MinShift>)
    requires Built(inst, r) && 0 <= p < i < |r.vertices|
    ensures var v := r.vertices; var edited := v[..p] + [v[i]] + v[p..i] + v[i + 1..];
            inst.Route(edited) && e == EvaluateRoute(inst, edited)
  {
    hide IsPrefix, EvaluateRoute, Built;
    BuiltRoute(inst, r);
    var v := r.vertices;
    var c := v[i];
    var acc := TakeHead(inst, r, p);
    ghost var stops := v[..p];
    assert v[..p] + [c] + v[p..i] + v[i + 1..] == v[..p] + ([c] + v[p..i] + v[i + 1..]);
    if IsEmpty(acc) { DeadPrefix(inst, acc, stops, [c] + v[p..i] + v[i + 1..]); return None; }
    acc := CrossBridge(inst, acc, stops, if p > 0 then v[p - 1] else 0, c);
    stops := v[..p] + [c];
    assert v[..p] + [c] + v[p..i] + v[i + 1..] == stops + (v[p..i] + v[i + 1..]);
    if IsEmpty(acc) { DeadPrefix(inst, acc, stops, v[p..i] + v[i + 1..]); return None; }
    acc := TakeSegment(inst, acc, stops, c, r, p, i);
    stops := v[..p] + [c] + v[p..i];
    if IsEmpty(acc) { DeadPrefix(inst, acc, stops, v[i + 1..]); return None; }
    e := CloseWith(inst, acc, stops, v[i - 1], r, i + 1);
  }

  /** New order r[0..i-1], r[i+1..p-1], c, r[p..]. */
  method RelocateLater(inst: Problem, r: RouteState, i: int, p: int) returns (e: Option<MinShift>)
    requires Built(inst, r) && 0 <= i && i + 1 < p <= |r.vertices|
    ensures var v := r.vertices; var edited := v[..i] + v[i + 1..p] + [v[i]] + v[p..];
            inst.Route(edited) && e == EvaluateRoute(inst, edited)
  {
    hide IsPrefix, EvaluateRoute, Built;
    BuiltRoute(inst, r);
    var v := r.vertices;
    var c := v[i];
    var acc := TakeHead(inst, r, i);
    ghost var stops := v[..i];
    assert v[..i] + v[i + 1..p] + [c] + v[p..] == v[..i] + (v[i + 1..p] + [c] + v[p..]);
    if IsEmpty(acc) { DeadPrefix(inst, acc, stops, v[i + 1..p] + [c] + v[p..]); return None; }
    acc := TakeSegment(inst, acc, stops, if i > 0 then v[i - 1] else 0, r, i + 1, p);
    stops := v[..i] + v[i + 1..p];
    assert v[..i] + v[i + 1..p] + [c] + v[p..] == stops + ([c] + v[p..]);
    if IsEmpty(acc) { DeadPrefix(inst, acc, stops, [c] + v[p..]); return None; }
    acc := CrossBridge(inst, acc, stops, v[p - 1], c);
    stops := v[..i] + v[i + 1..p] + [c];
    if IsEmpty(acc) { DeadPrefix(inst, acc, stops, v[p..]); return None; }
    e := CloseWith(inst, acc, stops, c, r, p);
  }
}
