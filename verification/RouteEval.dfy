/** The sequential route fold (cpp/core/route_eval.cpp): the accountant of every search layer. */
module RouteEvaluation {
  import opened Common
  import opened Pwlfs
  import opened Composition
  import opened Scans
  import opened VertexFunctions
  import opened Instances

  /** Window theta, or the service shift over the incoming image. */
  function ThetaFor(inst: Problem, v: int, imageUpper: real): Pwlf
    requires inst.Vertex(v) && 0.0 <= imageUpper
  {
    if inst.hasWindows then MakeTheta(inst.earliest[v], inst.latest[v], inst.service[v])
    else ServiceShift(imageUpper, inst.service[v])
  }

  /** An accumulated ready-time function no value of which precedes the horizon. */
  predicate FromHorizon(inst: Problem, acc: Pwlf) {
    !IsEmpty(acc) ==> inst.horizonStart <= acc.ys[0]
  }

  /** One stop of the fold: theta after alpha after acc. */
  function Visit(inst: Problem, prev: int, v: int, acc: Pwlf): Pwlf
    requires inst.Vertex(prev) && inst.Vertex(v)
  {
    var arrival := Compose(inst.arcs[prev][v], acc);
    if IsEmpty(arrival) then EMPTY
    else
      ArrivalFromHorizon(inst, prev, v, acc);
      Compose(ThetaFor(inst, v, arrival.ys[|arrival.ys| - 1]), arrival)
  }

  /** Either nothing is below the horizon, or the function is constant: then the lower wall of the
      next arc cannot cut a vertical step. */
  predicate Enters(inst: Problem, acc: Pwlf) {
    FromHorizon(inst, acc) || acc.ys[0] == acc.ys[|acc.ys| - 1]
  }

  lemma ArrivalFromHorizon(inst: Problem, prev: int, v: int, acc: Pwlf)
    requires inst.Vertex(prev) && inst.Vertex(v)
    ensures FromHorizon(inst, Compose(inst.arcs[prev][v], acc))
    ensures var a := Compose(inst.arcs[prev][v], acc); !IsEmpty(a) ==> 0.0 <= a.ys[0] && 0.0 <= a.ys[|a.ys| - 1]
    ensures Enters(inst, acc) ==>
              forall t :: Den(Compose(inst.arcs[prev][v], acc), t) == AndThen(inst.arcs[prev][v], Den(acc, t))
  {
    hide Eval, Compose, LowerBound;
    var alpha := inst.arcs[prev][v];
    var a := Compose(alpha, acc);
    assert GoodArc(inst.horizonStart, alpha);
    ComposeMeaning(alpha, acc);
    ComposeExactIff(alpha, acc);
    if !IsEmpty(a) {
      EvalBounds(alpha, Low(alpha, acc));
      assert a.ys[0] <= a.ys[|a.ys| - 1];
    }
    if Enters(inst, acc) {
      ConstantIsNotCut(alpha, acc);
    }
  }

  lemma ConstantIsNotCut(f: Pwlf, g: Pwlf)
    requires !IsEmpty(f) && !IsEmpty(g) ==> f.xs[0] <= g.ys[0] || g.ys[0] == g.ys[|g.ys| - 1]
    ensures !WallCutsJump(f, g)
  {
    if Meets(f, g) {
      LowerBoundIs(g.ys, Low(f, g), 0);
    }
  }

  /** theta(t) at vertex v for an arrival t not past `upper`. */
  lemma ThetaForMeaning(inst: Problem, v: int, upper: real, t: real)
    requires inst.Vertex(v) && 0.0 <= upper
    ensures Den(ThetaFor(inst, v, upper), t) ==
            if inst.hasWindows then (if 0.0 <= t <= inst.latest[v] then Some(Max(t, inst.earliest[v]) + inst.service[v]) else None)
            else (if 0.0 <= t <= upper then Some(t + inst.service[v]) else None)
    ensures !IsEmpty(ThetaFor(inst, v, upper)) && ThetaFor(inst, v, upper).xs[0] == 0.0
  {
    hide Den;
    if inst.hasWindows {
      MakeThetaMeaning(inst.earliest[v], inst.latest[v], inst.service[v], t);
    } else {
      ServiceShiftMeaning(upper, inst.service[v], t);
    }
  }

  function ReadyAfter(inst: Problem, i: int, j: int, r: Option<real>): Option<real>
    requires inst.Vertex(i) && inst.Vertex(j)
  {
    if r.Some? then ReadyNext(inst, i, j, r.value) else None
  }

  /** theta after any arrival function that stays at or above the horizon. */
  lemma ThetaAfter(inst: Problem, v: int, arrival: Pwlf)
    requires inst.Vertex(v) && !IsEmpty(arrival) && inst.horizonStart <= arrival.ys[0] && 0.0 <= arrival.ys[|arrival.ys| - 1]
    ensures var h := Compose(ThetaFor(inst, v, arrival.ys[|arrival.ys| - 1]), arrival);
            && FromHorizon(inst, h)
            && (!IsEmpty(h) ==> h.xs[0] == arrival.xs[0])
            && forall t :: Den(h, t) ==
                 match Den(arrival, t)
                 case None => None
                 case Some(a) => if inst.hasWindows && a > inst.latest[v] then None
                                 else Some((if inst.hasWindows then Max(a, inst.earliest[v]) else a) + inst.service[v])
  {
    hide Eval, Compose, ThetaFor;
    var upper := arrival.ys[|arrival.ys| - 1];
    var theta := ThetaFor(inst, v, upper);
    var h := Compose(theta, arrival);
    ThetaForMeaning(inst, v, upper, 0.0);
    forall t
      ensures Den(h, t) == AndThen(theta, Den(arrival, t))
      ensures Den(arrival, t).Some? ==> inst.horizonStart <= Den(arrival, t).value <= upper
    {
      ComposeAfter(theta, arrival, t);
      if InDom(arrival, t) {
        EvalBounds(arrival, t);
        ThetaForMeaning(inst, v, upper, Eval(arrival, t));
      }
    }
    forall a | a >= 0.0
      ensures Den(theta, a) ==
              if inst.hasWindows then (if a <= inst.latest[v] then Some(Max(a, inst.earliest[v]) + inst.service[v]) else None)
              else (if a <= upper then Some(a + inst.service[v]) else None)
    {
      ThetaForMeaning(inst, v, upper, a);
    }
    ComposeAfter(theta, arrival, 0.0);
    if !IsEmpty(h) {
      ThetaForMeaning(inst, v, upper, arrival.ys[0]);
    }
  }

  /** A stop of the fold is ready_next at every departure. */
  lemma VisitMeaning(inst: Problem, prev: int, v: int, acc: Pwlf)
    requires inst.Vertex(prev) && inst.Vertex(v) && FromHorizon(inst, acc)
    ensures FromHorizon(inst, Visit(inst, prev, v, acc))
    ensures forall t :: Den(Visit(inst, prev, v, acc), t) == ReadyAfter(inst, prev, v, Den(acc, t))
  {
    hide Eval, Compose, ThetaFor;
    ArrivalFromHorizon(inst, prev, v, acc);
    var arrival := Compose(inst.arcs[prev][v], acc);
    if !IsEmpty(arrival) {
      ThetaAfter(inst, v, arrival);
    }
    forall t ensures Den(Visit(inst, prev, v, acc), t) == ReadyAfter(inst, prev, v, Den(acc, t)) {
      assert Den(arrival, t) == AndThen(inst.arcs[prev][v], Den(acc, t));
    }
  }

  /** The loop of the fold: `stops` are still to be visited after `from`. */
  function FoldStops(inst: Problem, from: int, stops: seq<int>, acc: Pwlf): Pwlf
    requires inst.Vertex(from) && inst.Route(stops) && FromHorizon(inst, acc)
    decreases |stops|
  {
    if |stops| == 0 then acc
    else
      var next := Visit(inst, from, stops[0], acc);
      VisitMeaning(inst, from, stops[0], acc);
      if IsEmpty(next) then next else FoldStops(inst, stops[0], stops[1..], next)
  }

  function ChainAfter(inst: Problem, from: int, stops: seq<int>, r: Option<real>): Option<real>
    requires inst.Vertex(from) && inst.Route(stops)
  {
    if r.Some? then Chain(inst, from, stops, r.value) else None
  }

  lemma {:induction false} FoldStopsMeaning(inst: Problem, from: int, stops: seq<int>, acc: Pwlf)
    requires inst.Vertex(from) && inst.Route(stops) && FromHorizon(inst, acc)
    ensures FromHorizon(inst, FoldStops(inst, from, stops, acc))
    ensures forall t :: Den(FoldStops(inst, from, stops, acc), t) == ChainAfter(inst, from, stops, Den(acc, t))
    decreases |stops|
  {
    hide Visit, Eval, ReadyNext;
    if |stops| > 0 {
      var next := Visit(inst, from, stops[0], acc);
      VisitMeaning(inst, from, stops[0], acc);
      if !IsEmpty(next) { FoldStopsMeaning(inst, stops[0], stops[1..], next); }
      forall t ensures Den(FoldStops(inst, from, stops, acc), t) == ChainAfter(inst, from, stops, Den(acc, t)) {
        assert Den(next, t) == ReadyAfter(inst, from, stops[0], Den(acc, t));
      }
    }
  }

  /** departure_identity. */
  function DepartureIdentity(inst: Problem): Pwlf {
    if DepartureLow(inst) > DepartureHigh(inst) then EMPTY else Identity(DepartureLow(inst), DepartureHigh(inst))
  }

  lemma DepartureIdentityMeaning(inst: Problem)
    ensures FromHorizon(inst, DepartureIdentity(inst))
    ensures forall t :: Den(DepartureIdentity(inst), t) ==
                        if MayLeave(inst, t) then Some(t) else None
    ensures var dep := DepartureIdentity(inst); !IsEmpty(dep) ==> dep.xs[0] == dep.ys[0] == DepartureLow(inst)
  {
    hide MayLeave;
    if DepartureLow(inst) <= DepartureHigh(inst) {
      forall t ensures Den(DepartureIdentity(inst), t) ==
                       if MayLeave(inst, t) then Some(t) else None {
        DepartureWindow(inst, t);
        IdentityMeaning(DepartureLow(inst), DepartureHigh(inst), t);
      }
    } else {
      forall t ensures !MayLeave(inst, t) { DepartureWindow(inst, t); }
    }
  }

  /** The closing steps: return arc, then the depot due date as a domain wall. */
  function ReturnFrom(inst: Problem, last: int, acc: Pwlf): Pwlf
    requires inst.Vertex(last)
  {
    var arrival := Compose(inst.arcs[last][0], acc);
    if !IsEmpty(arrival) && inst.hasWindows then Compose(Identity(0.0, inst.latest[0]), arrival) else arrival
  }

  function ReturnAfter(inst: Problem, last: int, r: Option<real>): Option<real>
    requires inst.Vertex(last)
  {
    if r.Some? then ReturnArrival(inst, last, r.value) else None
  }

  lemma ReturnFromMeaning(inst: Problem, last: int, acc: Pwlf)
    requires inst.Vertex(last) && FromHorizon(inst, acc)
    ensures forall t :: Den(ReturnFrom(inst, last, acc), t) == ReturnAfter(inst, last, Den(acc, t))
  {
    hide Eval, Compose;
    var alpha := inst.arcs[last][0];
    var arrival := Compose(alpha, acc);
    ArrivalFromHorizon(inst, last, 0, acc);
    forall t ensures Den(ReturnFrom(inst, last, acc), t) == ReturnAfter(inst, last, Den(acc, t)) {
      assert Den(arrival, t) == AndThen(alpha, Den(acc, t));
      if !IsEmpty(arrival) && inst.hasWindows {
        ComposeAfter(Identity(0.0, inst.latest[0]), arrival, t);
        if InDom(arrival, t) {
          EvalBounds(arrival, t);
          IdentityMeaning(0.0, inst.latest[0], Eval(arrival, t));
        }
      }
    }
  }

  /** route_ready_time_function. */
  function RouteFunction(inst: Problem, route: seq<int>): Pwlf
    requires inst.Route(route)
  {
    var dep := DepartureIdentity(inst);
    DepartureIdentityMeaning(inst);
    if IsEmpty(dep) then dep
    else
      var acc := FoldStops(inst, 0, route, dep);
      if IsEmpty(acc) then acc else ReturnFrom(inst, Last(0, route), acc)
  }

  // ---------- additive growth ----------

  /** Breakpoints of the arcs along a route, with three for every stop's window. */
  function StopPoints(inst: Problem, from: int, stops: seq<int>): nat
    requires inst.Vertex(from) && inst.Route(stops)
    decreases |stops|
  {
    if |stops| == 0 then 0 else |inst.arcs[from][stops[0]].xs| + 3 + StopPoints(inst, stops[0], stops[1..])
  }

  lemma VisitSize(inst: Problem, prev: int, v: int, acc: Pwlf)
    requires inst.Vertex(prev) && inst.Vertex(v)
    ensures |Visit(inst, prev, v, acc).xs| <= |acc.xs| + |inst.arcs[prev][v].xs| + 3
  {
    hide Eval, Compose;
    var arrival := Compose(inst.arcs[prev][v], acc);
    ComposeMeaning(inst.arcs[prev][v], acc);
    if !IsEmpty(arrival) {
      ArrivalFromHorizon(inst, prev, v, acc);
      ComposeMeaning(ThetaFor(inst, v, arrival.ys[|arrival.ys| - 1]), arrival);
    }
  }

  lemma {:induction false} FoldSize(inst: Problem, from: int, stops: seq<int>, acc: Pwlf)
    requires inst.Vertex(from) && inst.Route(stops) && FromHorizon(inst, acc)
    ensures |FoldStops(inst, from, stops, acc).xs| <= |acc.xs| + StopPoints(inst, from, stops)
    decreases |stops|
  {
    hide Visit;
    if |stops| > 0 {
      VisitSize(inst, from, stops[0], acc);
      VisitMeaning(inst, from, stops[0], acc);
      var next := Visit(inst, from, stops[0], acc);
      if !IsEmpty(next) { FoldSize(inst, stops[0], stops[1..], next); }
    }
  }

  /** The fold grows additively: its breakpoints number at most those of the arcs it crosses, plus a
      constant per stop. */
  lemma RouteFunctionSize(inst: Problem, route: seq<int>)
    requires inst.Route(route)
    ensures |RouteFunction(inst, route).xs| <= StopPoints(inst, 0, route) + |inst.arcs[Last(0, route)][0].xs| + 4
  {
    hide Eval, Compose, FoldStops;
    var dep := DepartureIdentity(inst);
    DepartureIdentityMeaning(inst);
    if !IsEmpty(dep) {
      FoldSize(inst, 0, route, dep);
      var acc := FoldStops(inst, 0, route, dep);
      var arrival := Compose(inst.arcs[Last(0, route)][0], acc);
      ComposeMeaning(inst.arcs[Last(0, route)][0], acc);
      ComposeMeaning(Identity(0.0, inst.latest[0]), arrival);
    }
  }

  /** The route fold is the pointwise simulation: t is a feasible departure exactly when chaining
      ready_next and the depot return from t succeeds, and the value is the simulated arrival. */
  lemma RouteFunctionIsSimulation(inst: Problem, route: seq<int>)
    requires inst.Route(route)
    ensures forall t :: Den(RouteFunction(inst, route), t) == Simulate(inst, route, t)
  {
    hide FoldStops, ReturnFrom, Eval, ReturnArrival, Chain, DepartureIdentity, DepartureLow, DepartureHigh;
    var dep := DepartureIdentity(inst);
    DepartureIdentityMeaning(inst);
    forall t ensures Den(RouteFunction(inst, route), t) == Simulate(inst, route, t) {
      assert Den(dep, t) == if MayLeave(inst, t) then Some(t) else None;
      if !IsEmpty(dep) {
        FoldStopsMeaning(inst, 0, route, dep);
        var acc := FoldStops(inst, 0, route, dep);
        assert Den(acc, t) == ChainAfter(inst, 0, route, Den(dep, t));
        if !IsEmpty(acc) {
          ReturnFromMeaning(inst, Last(0, route), acc);
        }
      }
    }
  }

  /** evaluate_route: None when time-infeasible, else optimal duration and earliest optimal departure. */
  function EvaluateRoute(inst: Problem, route: seq<int>): Option<MinShift>
    requires inst.Route(route)
  {
    MinShiftedImage(RouteFunction(inst, route))
  }

  /** What the evaluation means for the simulation. */
  ghost predicate IsRouteOptimum(inst: Problem, route: seq<int>, m: MinShift)
    requires inst.Route(route)
  {
    && MayLeave(inst, m.argmin) && Simulate(inst, route, m.argmin) == Some(m.value + m.argmin)
    && forall t :: Simulate(inst, route, t).Some? ==>
         var d := Simulate(inst, route, t).value - t;
         d > m.value || (d == m.value && m.argmin <= t)
  }

  lemma EvaluateRouteMeaning(inst: Problem, route: seq<int>)
    requires inst.Route(route)
    ensures EvaluateRoute(inst, route).None? <==> forall t :: Simulate(inst, route, t).None?
    ensures EvaluateRoute(inst, route).Some? ==> IsRouteOptimum(inst, route, EvaluateRoute(inst, route).value)
  {
    hide RouteFunction, Eval, Simulate;
    var f := RouteFunction(inst, route);
    RouteFunctionIsSimulation(inst, route);
    if IsEmpty(f) {
      forall t ensures Simulate(inst, route, t).None? { assert Den(f, t).None?; }
    } else {
      MinShiftedImageIsOptimum(f);
      var m := MinShiftedImage(f).value;
      assert InDom(f, m.argmin);
      assert Den(f, m.argmin) == Simulate(inst, route, m.argmin);
      SimulateMeaning(inst, route, m.argmin);
      forall t | Simulate(inst, route, t).Some?
        ensures var d := Simulate(inst, route, t).value - t; d > m.value || (d == m.value && m.argmin <= t)
      {
        assert Den(f, t) == Simulate(inst, route, t);
      }
    }
  }

  /** Anything that denotes the simulation of a route prices it exactly like evaluate_route. */
  lemma PricesLikeFold(inst: Problem, route: seq<int>, f: Pwlf)
    requires inst.Route(route) && forall t :: Den(f, t) == Simulate(inst, route, t)
    ensures MinShiftedImage(f) == EvaluateRoute(inst, route)
  {
    hide RouteFunction, Eval, Simulate, Den;
    RouteFunctionIsSimulation(inst, route);
    OptimumIsPointwise(f, RouteFunction(inst, route));
  }

  // ---------- the loop itself ----------

  method RouteFunctionLoop(inst: Problem, route: seq<int>) returns (acc: Pwlf)
    requires inst.Route(route)
    ensures acc == RouteFunction(inst, route)
    ensures forall t :: Den(acc, t) == Simulate(inst, route, t)
  {
    acc := FoldRoute(inst, route);
    RouteFunctionIsSimulation(inst, route);
  }

  method FoldRoute(inst: Problem, route: seq<int>) returns (acc: Pwlf)
    requires inst.Route(route)
    ensures acc == RouteFunction(inst, route)
  {
    hide Compose, ThetaFor, Den, Eval;
    DepartureIdentityMeaning(inst);
    var low, high := DepartureLow(inst), DepartureHigh(inst);
    if low > high { return EMPTY; }
    acc := Identity(low, high);
    var prev := 0;
    for k := 0 to |route|
      invariant inst.Vertex(prev) && prev == Last(0, route[..k])
      invariant FromHorizon(inst, acc) && !IsEmpty(acc)
      invariant FoldStops(inst, prev, route[k..], acc) == FoldStops(inst, 0, route, Identity(low, high))
    {
      var v := route[k];
      ghost var before := acc;
      assert inst.Customer(v);
      assert route[k..][0] == v && route[k..][1..] == route[k + 1..];
      VisitMeaning(inst, prev, v, before);
      ArrivalFromHorizon(inst, prev, v, before);
      acc := Compose(inst.arcs[prev][v], acc);
      if IsEmpty(acc) { return; }
      var theta := ThetaFor(inst, v, acc.ys[|acc.ys| - 1]);
      acc := Compose(theta, acc);
      assert acc == Visit(inst, prev, v, before);
      if IsEmpty(acc) { return; }
      prev := v;
      assert route[..k + 1][|route[..k + 1]| - 1] == v;
    }
    assert route[..|route|] == route;
    assert route[|route|..] == [];
    acc := Compose(inst.arcs[prev][0], acc);
    if IsEmpty(acc) { return; }
    if inst.hasWindows {
      acc := Compose(Identity(0.0, inst.latest[0]), acc);
    }
  }
}
