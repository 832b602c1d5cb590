/** Penalised move ranking (cpp/ls/warp_splice.cpp): evaluate_splice's twin over warp segments. In
    exact arithmetic it returns the record evaluate_route_warp gives for the edited route. */
module WarpSplicing {
  import opened Common
  import opened Pwlfs
  import opened Scans
  import opened PenalisedScan
  import opened Instances
  import opened RouteEvaluation
  import opened WarpEvaluation
  import opened LcaTrees
  import opened WarpTrees
  import Splicing

  datatype WarpRouteState = WarpRouteState(
    vertices: seq<int>, tree: LcaTree<WarpFunctions>, fold: WarpFunctions,
    duration: real, minWarp: real, load: int)

  ghost predicate Built(inst: Problem, tEnd: real, s: WarpRouteState)
    requires Horizon(inst, tEnd)
    reads s.tree
  {
    && inst.Route(s.vertices) && |s.vertices| > 0
    && s.fold == WarpRouteFunctions(inst, s.vertices, tEnd, true) && !IsEmpty(s.fold.rho) && !IsEmpty(s.fold.warp)
    && s.tree.Valid() && s.tree.op == WarpConcat && s.tree.leaves == WarpLeavesOf(inst, s.vertices, tEnd)
    && s.minWarp == s.fold.warp.ys[0]
    && s.load == Load(inst, s.vertices)
  }

  lemma BuiltRoute(inst: Problem, tEnd: real, s: WarpRouteState)
    requires Horizon(inst, tEnd) && Built(inst, tEnd, s)
    ensures inst.Route(s.vertices) && |s.vertices| > 0
  {
  }

  /** Same record, except for which of several penalised optima was found. */
  predicate SameRecord(a: WarpRouteEval, b: WarpRouteEval) {
    a.(penalisedDeparture := 0.0) == b.(penalisedDeparture := 0.0)
  }

  /** Any two pairs that denote the clamped simulation of a route give the same record. */
  lemma RecordsAgree(inst: Problem, route: seq<int>, p: WarpFunctions, q: WarpFunctions, penalty: real)
    requires inst.Route(route) && penalty >= 0.0 && DenotesRoute(inst, route, p) && DenotesRoute(inst, route, q)
    ensures SameRecord(Finish(p, penalty), Finish(q, penalty))
  {
    hide WarpSimulate, EvaluateRoute, DenotesRoute, MinZeroWarpDuration, MinPenalised;
    FinishMeaning(inst, route, p, penalty);
    FinishMeaning(inst, route, q, penalty);
    var a, b := Finish(p, penalty), Finish(q, penalty);
    FinishDefaults(p, penalty);
    FinishDefaults(q, penalty);
    if a.total && b.total {
      var s :| WarpSimulate(inst, route, s).Some? && WarpSimulate(inst, route, s).value.1 == a.minWarp;
      var t :| WarpSimulate(inst, route, t).Some? && WarpSimulate(inst, route, t).value.1 == b.minWarp;
      assert a.minWarp == b.minWarp;
    }
  }

  lemma FinishDefaults(p: WarpFunctions, penalty: real)
    requires penalty >= 0.0
    ensures var a := Finish(p, penalty);
            && (!a.total ==> a == NOT_TOTAL)
            && (!a.feasible ==> a.duration == 0.0 && a.departure == 0.0)
  {
    hide MinZeroWarpDuration, MinPenalised;
  }

  /** The fold denotes the clamped simulation. */
  lemma FoldDenotes(inst: Problem, route: seq<int>, tEnd: real)
    requires inst.Route(route) && Horizon(inst, tEnd)
    ensures DenotesRoute(inst, route, WarpRouteFunctions(inst, route, tEnd, true))
  {
    hide WarpRouteFunctions, WarpSimulate;
    WarpRouteFunctionsMeaning(inst, route, tEnd, true);
  }

  /** build_warp_route_state: only a hard wall is refused. On success the stored minimal warp is
      zero exactly when the route is feasible for the base fold, and the stored duration is then
      its duration, and for a late route its least penalised duration. */
  method BuildWarpRouteState(inst: Problem, vertices: seq<int>, penalty: real, tEnd: real) returns (s: Option<WarpRouteState>)
    requires inst.Route(vertices) && Horizon(inst, tEnd) && penalty >= 0.0
    ensures s.Some? <==> EvaluateRouteWarp(inst, vertices, penalty, tEnd, true).total
    ensures s.Some? ==> fresh(s.value.tree) && Built(inst, tEnd, s.value) && s.value.vertices == vertices
    ensures s.Some? ==> (s.value.minWarp == 0.0 <==> EvaluateRoute(inst, vertices).Some?)
    ensures s.Some? && s.value.minWarp == 0.0 ==> s.value.duration == EvaluateRoute(inst, vertices).value.value
    ensures s.Some? && s.value.minWarp != 0.0 ==> s.value.duration == EvaluateRouteWarp(inst, vertices, penalty, tEnd, true).penalised
  {
    hide WarpRouteFunctions, EvaluateRoute, WarpLeafAt, WarpConcat, DenotesRoute;
    var p := WarpRouteFunctionsLoop(inst, vertices, tEnd, true);
    FoldDenotes(inst, vertices, tEnd);
    FinishMeaning(inst, vertices, p, penalty);
    TotalIffNonEmpty(inst, vertices, p, penalty);
    if IsEmpty(p.rho) { return None; }
    WarpEmptyRoute(inst, tEnd);
    var tree := new LcaTree<WarpFunctions>(WarpConcat, HARD_WALL);
    var ok := tree.Build(WarpLeavesOf(inst, vertices, tEnd));
    var zero, pen := MinZeroWarpDuration(p.rho, p.warp), MinPenalised(p.rho, p.warp, penalty);
    var duration := if zero.Some? then zero.value.value else pen.value.value;
    var load := Splicing.LoadOf(inst, vertices);
    return Some(WarpRouteState(vertices, tree, p, duration, p.warp.ys[0], load));
  }

  lemma TotalIffNonEmpty(inst: Problem, route: seq<int>, p: WarpFunctions, penalty: real)
    requires inst.Route(route) && DenotesRoute(inst, route, p) && penalty >= 0.0
    ensures IsEmpty(p.rho) <==> IsEmpty(p.warp)
    ensures Finish(p, penalty).total <==> !IsEmpty(p.rho)
    ensures !IsEmpty(p.rho) ==> MinPenalised(p.rho, p.warp, penalty).Some?
  {
    hide WarpSimulate, MinPenalised, MinZeroWarpDuration;
    SameDomainEnds(p.rho, p.warp);
    MinPenalisedMeaning(p.rho, p.warp, penalty);
    if !IsEmpty(p.rho) { assert InDom(p.rho, p.rho.xs[0]); }
  }

  lemma WarpEmptyRoute(inst: Problem, tEnd: real)
    requires Horizon(inst, tEnd)
    ensures IsEmpty(WarpRouteFunctions(inst, [], tEnd, true).rho)
  {
    assert inst.Vertex(0);
    assert IsEmpty(inst.arcs[0][0]);
  }

  // ---------- partial routes ----------

  function WarpPrefix(inst: Problem, stops: seq<int>, t: real): Option<(real, real)>
    requires inst.Route(stops)
  {
    if MayLeave(inst, t) then WarpChain(inst, 0, stops, t, 0.0) else None
  }

  ghost predicate IsWarpPrefix(inst: Problem, s: WarpFunctions, stops: seq<int>)
    requires inst.Route(stops)
  {
    Segment(inst, s) && forall t :: PairDen(s, t) == WarpPrefix(inst, stops, t)
  }

  /** departure_segment. */
  function DepartureSegment(inst: Problem): WarpFunctions {
    WarpFunctions(DepartureIdentity(inst), ZeroLike(DepartureIdentity(inst)))
  }

  lemma DepartureIsWarpPrefix(inst: Problem)
    ensures IsWarpPrefix(inst, DepartureSegment(inst), [])
  {
    hide Eval, ZeroLike, DepartureIdentity;
    DepartureIdentityMeaning(inst);
    ZeroLikeMeaning(DepartureIdentity(inst));
    var s := DepartureSegment(inst);
    forall t ensures (InDom(s.rho, t) <==> InDom(s.warp, t)) && PairDen(s, t) == WarpPrefix(inst, [], t) {
      assert Den(s.rho, t) == if MayLeave(inst, t) then Some(t) else None;
      assert Den(s.warp, t) == if InDom(s.rho, t) then Some(0.0) else None;
    }
  }

  lemma WarpQueryIsPrefix(inst: Problem, route: seq<int>, tEnd: real, hi: int)
    requires inst.Route(route) && Horizon(inst, tEnd) && 0 <= hi < |route|
    ensures inst.Route(route[..hi + 1]) && IsWarpPrefix(inst, QueryOf(WarpConcat, WarpLeavesOf(inst, route, tEnd), 0, hi), route[..hi + 1])
  {
    hide PairDen, QueryOf, WarpLeavesOf, WarpChain, DepartureLow, DepartureHigh, WarpConcat, Segment;
    WarpQueryIsStretch(inst, route, tEnd, 0, hi);
    assert route[0..hi + 1] == route[..hi + 1];
    var q := QueryOf(WarpConcat, WarpLeavesOf(inst, route, tEnd), 0, hi);
    forall t ensures PairDen(q, t) == WarpPrefix(inst, route[..hi + 1], t) {
      assert PairDen(q, t) == WarpStretch(inst, route, 0, hi + 1, t);
    }
  }

  lemma WarpBridgeExtends(inst: Problem, tEnd: real, acc: WarpFunctions, stops: seq<int>, v: int)
    requires inst.Route(stops) && inst.Customer(v) && Horizon(inst, tEnd) && IsWarpPrefix(inst, acc, stops)
    ensures inst.Route(stops + [v])
    ensures IsWarpPrefix(inst, WarpConcat(WarpBridgeLeaf(inst, Last(0, stops), v, tEnd), acc), stops + [v])
  {
    hide PairDen, WarpBridgeLeaf, WarpConcat, WarpChain, WarpNext, Segment;
    var bridge := WarpBridgeLeaf(inst, Last(0, stops), v, tEnd);
    WarpBridgeLeafMeaning(inst, Last(0, stops), v, tEnd);
    ConcatMeaning(inst, bridge, acc);
    forall t ensures PairDen(WarpConcat(bridge, acc), t) == WarpPrefix(inst, stops + [v], t) {
      WarpChainConcat(inst, 0, stops, [v], t, 0.0);
      var r := WarpChain(inst, 0, stops, t, 0.0);
      if r.Some? {
        WarpChainOne(inst, Last(0, stops), v, r.value.0);
        WarpChainShift(inst, Last(0, stops), [v], r.value.0, r.value.1);
      }
    }
  }

  lemma WarpRunExtends(inst: Problem, tEnd: real, acc: WarpFunctions, stops: seq<int>, route: seq<int>, i: int, k: int)
    requires inst.Route(stops) && inst.Route(route) && Horizon(inst, tEnd) && IsWarpPrefix(inst, acc, stops)
    requires 0 < i < k <= |route| && Last(0, stops) == route[i - 1]
    ensures inst.Route(stops + route[i..k])
    ensures IsWarpPrefix(inst, WarpConcat(QueryOf(WarpConcat, WarpLeavesOf(inst, route, tEnd), i, k - 1), acc), stops + route[i..k])
  {
    hide PairDen, QueryOf, WarpLeavesOf, WarpConcat, WarpChain, DepartureLow, DepartureHigh, Segment;
    WarpQueryIsStretch(inst, route, tEnd, i, k - 1);
    var run := QueryOf(WarpConcat, WarpLeavesOf(inst, route, tEnd), i, k - 1);
    ConcatMeaning(inst, run, acc);
    forall t ensures PairDen(WarpConcat(run, acc), t) == WarpPrefix(inst, stops + route[i..k], t) {
      WarpChainConcat(inst, 0, stops, route[i..k], t, 0.0);
      var r := WarpChain(inst, 0, stops, t, 0.0);
      if r.Some? { WarpChainShift(inst, Last(0, stops), route[i..k], r.value.0, r.value.1); }
    }
  }

  lemma WarpReturnShift(inst: Problem, j: int, t: real, w: real)
    requires inst.Vertex(j)
    ensures WarpReturn(inst, j, t, w) == Accrue(w, WarpReturn(inst, j, t, 0.0))
  {
    hide Eval;
  }

  lemma WarpReturnCloses(inst: Problem, tEnd: real, acc: WarpFunctions, stops: seq<int>)
    requires inst.Route(stops) && Horizon(inst, tEnd) && IsWarpPrefix(inst, acc, stops)
    ensures DenotesRoute(inst, stops, WarpConcat(WarpReturnLeaf(inst, Last(0, stops), tEnd), acc))
  {
    hide PairDen, WarpReturnLeaf, WarpConcat, WarpChain, DepartureLow, DepartureHigh, WarpReturn;
    var ret := WarpReturnLeaf(inst, Last(0, stops), tEnd);
    WarpReturnLeafMeaning(inst, Last(0, stops), tEnd);
    ConcatMeaning(inst, ret, acc);
    forall t ensures PairDen(WarpConcat(ret, acc), t) == WarpSimulate(inst, stops, t) {
      var r := WarpChain(inst, 0, stops, t, 0.0);
      if r.Some? { WarpReturnShift(inst, Last(0, stops), r.value.0, r.value.1); }
    }
  }

  lemma WarpTailCloses(inst: Problem, tEnd: real, acc: WarpFunctions, stops: seq<int>, route: seq<int>, i: int)
    requires inst.Route(stops) && inst.Route(route) && Horizon(inst, tEnd) && IsWarpPrefix(inst, acc, stops)
    requires 0 < i <= |route| && Last(0, stops) == route[i - 1]
    ensures inst.Route(stops + route[i..])
    ensures DenotesRoute(inst, stops + route[i..], WarpConcat(QueryOf(WarpConcat, WarpLeavesOf(inst, route, tEnd), i, |route|), acc))
  {
    hide PairDen, QueryOf, WarpLeavesOf, WarpConcat, WarpChain, DepartureLow, DepartureHigh, WarpReturn;
    WarpQueryIsStretch(inst, route, tEnd, i, |route|);
    var tail := QueryOf(WarpConcat, WarpLeavesOf(inst, route, tEnd), i, |route|);
    var all := stops + route[i..];
    ConcatMeaning(inst, tail, acc);
    assert route[i..|route|] == route[i..];
    assert Last(0, all) == route[|route| - 1];
    forall t ensures PairDen(WarpConcat(tail, acc), t) == WarpSimulate(inst, all, t) {
      WarpChainConcat(inst, 0, stops, route[i..], t, 0.0);
      var r := WarpChain(inst, 0, stops, t, 0.0);
      if r.Some? {
        WarpChainShift(inst, Last(0, stops), route[i..], r.value.0, r.value.1);
        var s := WarpChain(inst, Last(0, stops), route[i..], r.value.0, 0.0);
        if s.Some? {
          WarpReturnShift(inst, route[|route| - 1], s.value.0, s.value.1);
          WarpReturnShift(inst, route[|route| - 1], s.value.0, r.value.1 + s.value.1);
        }
      }
    }
  }

  /** Nothing survives past an empty accumulator. */
  lemma WarpDeadExtends(inst: Problem, acc: WarpFunctions, stops: seq<int>, more: seq<int>)
    requires inst.Route(stops) && inst.Route(more) && IsWarpPrefix(inst, acc, stops) && IsEmpty(acc.rho)
    ensures inst.Route(stops + more) && IsWarpPrefix(inst, HARD_WALL, stops + more)
    ensures DenotesRoute(inst, stops + more, HARD_WALL)
  {
    hide Eval, WarpChain, DepartureLow, DepartureHigh, WarpReturn;
    HardWallSegment(inst);
    forall t ensures PairDen(HARD_WALL, t) == WarpPrefix(inst, stops + more, t) && PairDen(HARD_WALL, t) == WarpSimulate(inst, stops + more, t) {
      WarpChainConcat(inst, 0, stops, more, t, 0.0);
      assert PairDen(acc, t) == None;
    }
  }

  // ---------- the steps ----------

  method TakeWarpHead(inst: Problem, tEnd: real, r: WarpRouteState, i: int) returns (acc: WarpFunctions)
    requires Horizon(inst, tEnd) && Built(inst, tEnd, r) && 0 <= i <= |r.vertices|
    ensures inst.Route(r.vertices[..i]) && IsWarpPrefix(inst, acc, r.vertices[..i])
  {
    hide WarpConcat, QueryOf, WarpLeavesOf, IsWarpPrefix, WarpRouteFunctions;
    if i > 0 {
      var q := r.tree.Query(0, i - 1);
      WarpQueryIsPrefix(inst, r.vertices, tEnd, i - 1);
      return q.value;
    }
    DepartureIsWarpPrefix(inst);
    return DepartureSegment(inst);
  }

  method FollowWarpRun(inst: Problem, tEnd: real, acc: WarpFunctions, ghost stops: seq<int>, r: WarpRouteState, i: int, k: int)
    returns (next: WarpFunctions)
    requires Horizon(inst, tEnd) && Built(inst, tEnd, r) && inst.Route(stops) && IsWarpPrefix(inst, acc, stops)
    requires 0 < i < k <= |r.vertices| && Last(0, stops) == r.vertices[i - 1]
    ensures inst.Route(stops + r.vertices[i..k]) && IsWarpPrefix(inst, next, stops + r.vertices[i..k])
  {
    hide WarpConcat, QueryOf, WarpLeavesOf, IsWarpPrefix, WarpRouteFunctions;
    var run := r.tree.Query(i, k - 1);
    WarpRunExtends(inst, tEnd, acc, stops, r.vertices, i, k);
    next := WarpConcat(run.value, acc);
  }

  method TakeWarpSegment(inst: Problem, tEnd: real, acc0: WarpFunctions, ghost stops: seq<int>, last: int, r: WarpRouteState, i: int, k: int)
    returns (acc: WarpFunctions)
    requires Horizon(inst, tEnd) && Built(inst, tEnd, r) && inst.Route(stops) && IsWarpPrefix(inst, acc0, stops) && last == Last(0, stops)
    requires 0 <= i < k <= |r.vertices|
    ensures inst.Route(stops + r.vertices[i..k]) && IsWarpPrefix(inst, acc, stops + r.vertices[i..k])
  {
    hide IsWarpPrefix, Built, WarpConcat;
    BuiltRoute(inst, tEnd, r);
    var v := r.vertices;
    WarpBridgeExtends(inst, tEnd, acc0, stops, v[i]);
    acc := WarpConcat(WarpBridgeLeaf(inst, last, v[i], tEnd), acc0);
    assert v[i..k] == [v[i]] + v[i + 1..k];
    assert stops + v[i..k] == (stops + [v[i]]) + v[i + 1..k];
    if IsEmpty(acc.rho) {
      WarpDeadExtends(inst, acc, stops + [v[i]], v[i + 1..k]);
      return HARD_WALL;
    }
    if i + 1 < k {
      acc := FollowWarpRun(inst, tEnd, acc, stops + [v[i]], r, i + 1, k);
    } else {
      assert stops + v[i..k] == stops + [v[i]];
    }
  }

  /** Everything stored from position i >= 1 of r on, return included. */
  method FinishWarpTail(inst: Problem, tEnd: real, acc: WarpFunctions, ghost stops: seq<int>, r: WarpRouteState, i: int)
    returns (p: WarpFunctions)
    requires Horizon(inst, tEnd) && Built(inst, tEnd, r) && inst.Route(stops) && IsWarpPrefix(inst, acc, stops)
    requires 0 < i <= |r.vertices| && Last(0, stops) == r.vertices[i - 1]
    ensures inst.Route(stops + r.vertices[i..]) && DenotesRoute(inst, stops + r.vertices[i..], p)
  {
    hide WarpConcat, QueryOf, WarpLeavesOf, IsWarpPrefix, WarpRouteFunctions, DenotesRoute;
    var tail := r.tree.Query(i, |r.vertices|);
    WarpTailCloses(inst, tEnd, acc, stops, r.vertices, i);
    p := WarpConcat(tail.value, acc);
  }

  method CloseWarpWith(inst: Problem, tEnd: real, acc0: WarpFunctions, ghost stops: seq<int>, last: int, r: WarpRouteState, i: int)
    returns (p: WarpFunctions)
    requires Horizon(inst, tEnd) && Built(inst, tEnd, r) && inst.Route(stops) && IsWarpPrefix(inst, acc0, stops) && last == Last(0, stops)
    requires 0 <= i <= |r.vertices|
    ensures inst.Route(stops + r.vertices[i..]) && DenotesRoute(inst, stops + r.vertices[i..], p)
  {
    hide IsWarpPrefix, Built, WarpConcat, DenotesRoute;
    BuiltRoute(inst, tEnd, r);
    var v := r.vertices;
    if i < |v| {
      WarpBridgeExtends(inst, tEnd, acc0, stops, v[i]);
      var acc := WarpConcat(WarpBridgeLeaf(inst, last, v[i], tEnd), acc0);
      assert v[i..] == [v[i]] + v[i + 1..];
      assert stops + v[i..] == (stops + [v[i]]) + v[i + 1..];
      if IsEmpty(acc.rho) {
        WarpDeadExtends(inst, acc, stops + [v[i]], v[i + 1..]);
        return HARD_WALL;
      }
      p := FinishWarpTail(inst, tEnd, acc, stops + [v[i]], r, i + 1);
    } else {
      assert stops + v[i..] == stops;
      WarpReturnCloses(inst, tEnd, acc0, stops);
      p := WarpConcat(WarpReturnLeaf(inst, last, tEnd), acc0);
    }
  }

  /** evaluate_splice_warp: refuses bad indices, otherwise gives the record of the edited route. */
  method EvaluateSpliceWarp(inst: Problem, r1: WarpRouteState, i1: int, j1: int, r2: WarpRouteState, i2: int, j2: int,
                            penalty: real, tEnd: real)
    returns (valid: bool, e: WarpRouteEval)
    requires Horizon(inst, tEnd) && Built(inst, tEnd, r1) && Built(inst, tEnd, r2) && penalty >= 0.0
    ensures valid <==> Splicing.SpliceIndices(|r1.vertices|, i1, j1, |r2.vertices|, i2, j2)
    ensures valid ==>
              var edited := Splicing.Spliced(r1.vertices, i1, j1, r2.vertices, i2, j2);
              inst.Route(edited) && SameRecord(e, EvaluateRouteWarp(inst, edited, penalty, tEnd, true))
  {
    hide IsWarpPrefix, Built, WarpConcat, DenotesRoute, WarpRouteFunctions, Finish;
    BuiltRoute(inst, tEnd, r1);
    BuiltRoute(inst, tEnd, r2);
    var v1, v2 := r1.vertices, r2.vertices;
    if !Splicing.SpliceIndices(|v1|, i1, j1, |v2|, i2, j2) { return false, NOT_TOTAL; }
    valid := true;
    ghost var edited := Splicing.Spliced(v1, i1, j1, v2, i2, j2);
    var p := SpliceWarp(inst, r1, i1, j1, r2, i2, j2, tEnd);
    FoldDenotes(inst, edited, tEnd);
    RecordsAgree(inst, edited, p, WarpRouteFunctions(inst, edited, tEnd, true), penalty);
    e := Finish(p, penalty);
  }

  method SpliceWarp(inst: Problem, r1: WarpRouteState, i1: int, j1: int, r2: WarpRouteState, i2: int, j2: int, tEnd: real)
    returns (p: WarpFunctions)
    requires Horizon(inst, tEnd) && Built(inst, tEnd, r1) && Built(inst, tEnd, r2)
    requires Splicing.SpliceIndices(|r1.vertices|, i1, j1, |r2.vertices|, i2, j2)
    ensures var edited := Splicing.Spliced(r1.vertices, i1, j1, r2.vertices, i2, j2);
            inst.Route(edited) && DenotesRoute(inst, edited, p)
  {
    hide IsWarpPrefix, Built, WarpConcat, DenotesRoute;
    BuiltRoute(inst, tEnd, r1);
    BuiltRoute(inst, tEnd, r2);
    var v1, v2 := r1.vertices, r2.vertices;
    var incoming, head, tail := i2 <= j2, i1 > 0, j1 + 1 < |v1|;
    if !head && !incoming && !tail {
      assert Splicing.Spliced(v1, i1, j1, v2, i2, j2) == [];
      EmptyDenotes(inst);
      return HARD_WALL;
    }
    var acc := TakeWarpHead(inst, tEnd, r1, i1);
    ghost var stops := v1[..i1];
    var last := if head then v1[i1 - 1] else 0;
    if incoming {
      if IsEmpty(acc.rho) {
        WarpDeadExtends(inst, acc, stops, v2[i2..j2 + 1] + v1[j1 + 1..]);
        assert stops + (v2[i2..j2 + 1] + v1[j1 + 1..]) == Splicing.Spliced(v1, i1, j1, v2, i2, j2);
        return HARD_WALL;
      }
      acc := TakeWarpSegment(inst, tEnd, acc, stops, last, r2, i2, j2 + 1);
      stops := stops + v2[i2..j2 + 1];
      last := v2[j2];
    } else {
      assert stops == v1[..i1] + [];
    }
    if IsEmpty(acc.rho) { WarpDeadExtends(inst, acc, stops, v1[j1 + 1..]); return HARD_WALL; }
    p := CloseWarpWith(inst, tEnd, acc, stops, last, r1, j1 + 1);
  }

  lemma EmptyDenotes(inst: Problem)
    ensures DenotesRoute(inst, [], HARD_WALL)
  {
    hide Eval;
    assert inst.Vertex(0);
    assert IsEmpty(inst.arcs[0][0]);
  }
}
