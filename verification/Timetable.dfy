/** Instances with constant travel times and deadlines only: departing at once is optimal, and the plain
    and the penalised price of a route have closed forms. The schedules of Schedules.dfy are of this kind. */
module Timetables {
  import opened Common
  import opened Pwlfs
  import opened Scans
  import opened Composition
  import opened Instances
  import opened RouteEvaluation
  import opened WarpEvaluation
  import opened Staleness
  import opened WarpSearches
  import opened Squeezes
  import opened ExactPrices

  type Times = (int, int) -> real

  /** Leaving within the horizon takes a constant time. */
  ghost predicate Steady(inst: Problem, tt: Times, i: int, j: int)
    requires inst.Vertex(i) && inst.Vertex(j)
  {
    forall t :: Den(inst.arcs[i][j], t) == if 0.0 <= t <= inst.horizonEnd then Some(t + tt(i, j)) else None
  }

  /** Constant travel times, no service, no waiting, no demand, deadlines within the horizon. */
  ghost predicate Timetable(inst: Problem, tt: Times) {
    && inst.hasWindows && inst.horizonStart == 0.0 && inst.capacity >= 0 && inst.vehicles < 0
    && (forall v :: inst.Vertex(v) ==>
          inst.earliest[v] == 0.0 && inst.service[v] == 0.0 && inst.demands[v] == 0 && inst.latest[v] <= inst.horizonEnd)
    && (forall i, j :: inst.Vertex(i) && inst.Vertex(j) && i != j ==> tt(i, j) >= 0.0 && Steady(inst, tt, i, j))
  }

  /** No stop follows itself. */
  predicate Hops(from: int, stops: seq<int>)
    decreases |stops|
  {
    |stops| > 0 ==> from != stops[0] && Hops(stops[0], stops[1..])
  }

  /** Travel time from a vertex through the stops back to the depot. */
  function Length(tt: Times, from: int, stops: seq<int>): real
    decreases |stops|
  {
    if |stops| == 0 then tt(from, 0) else tt(from, stops[0]) + Length(tt, stops[0], stops[1..])
  }

  /** Lateness accumulated when leaving at t, arrivals being clamped to the deadlines. */
  function Late(inst: Problem, tt: Times, from: int, stops: seq<int>, t: real): real
    requires inst.Route(stops)
    decreases |stops|
  {
    if |stops| == 0 then Max(0.0, t + tt(from, 0) - inst.latest[0])
    else
      var a, l := t + tt(from, stops[0]), inst.latest[stops[0]];
      Max(0.0, a - l) + Late(inst, tt, stops[0], stops[1..], Min(a, l))
  }

  lemma {:induction false} LateMonotone(inst: Problem, tt: Times, from: int, stops: seq<int>, t: real, t': real)
    requires inst.Route(stops) && t <= t'
    ensures 0.0 <= Late(inst, tt, from, stops, t) <= Late(inst, tt, from, stops, t')
    decreases |stops|
  {
    if |stops| > 0 {
      var l := inst.latest[stops[0]];
      LateMonotone(inst, tt, stops[0], stops[1..], Min(t + tt(from, stops[0]), l), Min(t' + tt(from, stops[0]), l));
    }
  }

  /** One clamped stop. */
  lemma SteadyNext(inst: Problem, tt: Times, i: int, j: int, t: real, w: real)
    requires Timetable(inst, tt) && inst.Vertex(i) && inst.Vertex(j) && i != j && 0.0 <= t <= inst.horizonEnd
    ensures var a, l := t + tt(i, j), inst.latest[j];
            WarpNext(inst, i, j, t, w) == Some((Min(a, l), w + Max(0.0, a - l))) && 0.0 <= Min(a, l) <= inst.horizonEnd
    ensures j == 0 ==> var a, l := t + tt(i, 0), inst.latest[0]; WarpReturn(inst, i, t, w) == Some((Min(a, l), w + Max(0.0, a - l)))
  {
    hide Eval;
    assert Steady(inst, tt, i, j);
    assert Den(inst.arcs[i][j], t) == Some(t + tt(i, j));
  }

  /** Conservation: what the clamp takes off the clock it books as lateness. */
  lemma {:induction false} SteadyChain(inst: Problem, tt: Times, from: int, stops: seq<int>, t: real, w: real)
    requires Timetable(inst, tt) && inst.Vertex(from) && inst.Route(stops) && Hops(from, stops) && Last(from, stops) != 0
    requires 0.0 <= t <= inst.horizonEnd
    ensures var r := WarpChain(inst, from, stops, t, w);
            && r.Some?
            && var back := WarpReturn(inst, Last(from, stops), r.value.0, r.value.1);
               && back.Some? && back.value.1 == w + Late(inst, tt, from, stops, t)
               && back.value.0 + back.value.1 == t + w + Length(tt, from, stops)
    decreases |stops|
  {
    hide WarpNext, WarpReturn;
    if |stops| == 0 {
      SteadyNext(inst, tt, from, 0, t, w);
    } else {
      SteadyNext(inst, tt, from, stops[0], t, w);
      var next := WarpNext(inst, from, stops[0], t, w).value;
      SteadyChain(inst, tt, stops[0], stops[1..], next.0, next.1);
    }
  }

  lemma SteadySimulate(inst: Problem, tt: Times, r: seq<int>, t: real)
    requires Timetable(inst, tt) && inst.Route(r) && |r| > 0 && Hops(0, r)
    ensures var s := WarpSimulate(inst, r, t);
            if 0.0 <= t <= inst.latest[0] then
              s.Some? && s.value.1 == Late(inst, tt, 0, r, t) && s.value.0 + s.value.1 == t + Length(tt, 0, r)
            else s.None?
  {
    hide WarpChain, WarpReturn, Late;
    assert inst.Vertex(0);
    if 0.0 <= t <= inst.latest[0] { SteadyChain(inst, tt, 0, r, t, 0.0); }
  }

  /** The departures of a route and what they bring, as values only. */
  ghost predicate Brings(inst: Problem, r: seq<int>, high: real, length: real, late: real -> real)
    requires inst.Route(r)
  {
    && 0.0 <= high && (forall t :: t >= 0.0 ==> 0.0 <= late(0.0) <= late(t))
    && forall t :: var s := WarpSimulate(inst, r, t);
         if 0.0 <= t <= high then s.Some? && s.value.1 == late(t) && s.value.0 + s.value.1 == t + length else s.None?
  }

  lemma SteadyBrings(inst: Problem, tt: Times, r: seq<int>)
    requires Timetable(inst, tt) && inst.Route(r) && |r| > 0 && Hops(0, r)
    ensures Brings(inst, r, inst.latest[0], Length(tt, 0, r), t => Late(inst, tt, 0, r, t))
  {
    hide WarpSimulate, Late, Timetable;
    DepotIsOpen(inst);
    forall t
      ensures var s := WarpSimulate(inst, r, t);
              if 0.0 <= t <= inst.latest[0] then
                s.Some? && s.value.1 == Late(inst, tt, 0, r, t) && s.value.0 + s.value.1 == t + Length(tt, 0, r)
              else s.None?
    {
      SteadySimulate(inst, tt, r, t);
    }
    forall t | t >= 0.0 ensures 0.0 <= Late(inst, tt, 0, r, 0.0) <= Late(inst, tt, 0, r, t) { LateMonotone(inst, tt, 0, r, 0.0, t); }
  }

  /** Leaving at once is best for every weight of at least one. */
  lemma BestAtOnce(inst: Problem, r: seq<int>, high: real, length: real, late: real -> real, penalty: real, m: MinShift)
    requires inst.Route(r) && Brings(inst, r, high, length, late) && penalty >= 1.0
    requires IsPenalisedRouteOptimum(inst, r, penalty, m)
    ensures m.value == length + (penalty - 1.0) * late(0.0)
  {
    hide WarpSimulate;
    assert WarpSimulate(inst, r, 0.0).Some? && WarpSimulate(inst, r, m.argmin).Some?;
    LeavingAtOnce(penalty, late(0.0), late(m.argmin));
  }

  lemma PlainAtOnce(inst: Problem, r: seq<int>, high: real, length: real, late: real -> real)
    requires inst.Route(r) && Brings(inst, r, high, length, late)
    ensures EvaluateRoute(inst, r).Some? <==> late(0.0) == 0.0
    ensures EvaluateRoute(inst, r).Some? ==> EvaluateRoute(inst, r).value.value == length
  {
    hide WarpSimulate, Simulate, EvaluateRoute;
    EvaluateRouteMeaning(inst, r);
    forall t ensures Simulate(inst, r, t).Some? ==> 0.0 <= t && late(0.0) <= 0.0 && Simulate(inst, r, t).value - t == length {
      WarpSimulateAgrees(inst, r, t);
    }
    WarpSimulateAgrees(inst, r, 0.0);
  }

  lemma LeastAtOnce(inst: Problem, r: seq<int>, high: real, length: real, late: real -> real, least: real)
    requires inst.Route(r) && Brings(inst, r, high, length, late)
    requires exists t :: WarpSimulate(inst, r, t).Some? && WarpSimulate(inst, r, t).value.1 == least
    requires forall t :: WarpSimulate(inst, r, t).Some? ==> least <= WarpSimulate(inst, r, t).value.1
    ensures least == late(0.0)
  {
    hide WarpSimulate;
    assert WarpSimulate(inst, r, 0.0).Some?;
    var t :| WarpSimulate(inst, r, t).Some? && WarpSimulate(inst, r, t).value.1 == least;
  }

  /** There is a departure. */
  lemma SomeDeparture(inst: Problem, r: seq<int>, high: real, length: real, late: real -> real)
    requires inst.Route(r) && Brings(inst, r, high, length, late)
    ensures exists t :: WarpSimulate(inst, r, t).Some?
  {
    hide WarpSimulate;
    assert WarpSimulate(inst, r, 0.0).Some?;
  }

  lemma RecordIs(inst: Problem, r: seq<int>, penalty: real, tEnd: real)
    requires inst.Route(r) && Horizon(inst, tEnd) && penalty >= 0.0
    ensures var e := EvaluateRouteWarp(inst, r, penalty, tEnd, true);
            && ((exists t :: WarpSimulate(inst, r, t).Some?) ==>
                  && e.total
                  && (exists t :: WarpSimulate(inst, r, t).Some? && WarpSimulate(inst, r, t).value.1 == e.minWarp)
                  && (forall t :: WarpSimulate(inst, r, t).Some? ==> e.minWarp <= WarpSimulate(inst, r, t).value.1)
                  && IsPenalisedRouteOptimum(inst, r, penalty, MinShift(e.penalised, e.penalisedDeparture)))
            && (e.feasible <==> EvaluateRoute(inst, r).Some?)
            && (e.feasible ==> e.duration == EvaluateRoute(inst, r).value.value)
  {
    hide WarpRouteFunctions, Finish, EvaluateRoute, WarpSimulate, IsPenalisedRouteOptimum, DenotesRoute, Horizon;
    Denotes(inst, r, tEnd);
    FinishMeaning(inst, r, WarpRouteFunctions(inst, r, tEnd, true), penalty);
  }

  lemma Denotes(inst: Problem, r: seq<int>, tEnd: real)
    requires inst.Route(r) && Horizon(inst, tEnd)
    ensures DenotesRoute(inst, r, WarpRouteFunctions(inst, r, tEnd, true))
  {
    hide WarpRouteFunctions, WarpSimulate;
    WarpRouteFunctionsMeaning(inst, r, tEnd, true);
  }

  /** The penalised record of a route. */
  lemma SteadyRecord(inst: Problem, tt: Times, r: seq<int>, penalty: real, tEnd: real)
    requires Timetable(inst, tt) && inst.Route(r) && |r| > 0 && Hops(0, r) && Horizon(inst, tEnd) && penalty >= 0.0
    ensures var e, late := EvaluateRouteWarp(inst, r, penalty, tEnd, true), Late(inst, tt, 0, r, 0.0);
            && e.total && e.minWarp == late
            && (penalty >= 1.0 ==> e.penalised == Length(tt, 0, r) + (penalty - 1.0) * late)
            && (e.feasible <==> late == 0.0)
            && (e.feasible ==> e.duration == Length(tt, 0, r))
            && (EvaluateRoute(inst, r).Some? <==> late == 0.0)
            && (EvaluateRoute(inst, r).Some? ==> EvaluateRoute(inst, r).value.value == Length(tt, 0, r))
  {
    hide EvaluateRouteWarp, EvaluateRoute, WarpSimulate, Late, Timetable, IsPenalisedRouteOptimum, Brings, Horizon;
    var e := EvaluateRouteWarp(inst, r, penalty, tEnd, true);
    var late := t => Late(inst, tt, 0, r, t);
    RecordIs(inst, r, penalty, tEnd);
    SteadyBrings(inst, tt, r);
    PlainAtOnce(inst, r, inst.latest[0], Length(tt, 0, r), late);
    SomeDeparture(inst, r, inst.latest[0], Length(tt, 0, r), late);
    LeastAtOnce(inst, r, inst.latest[0], Length(tt, 0, r), late, e.minWarp);
    if penalty >= 1.0 {
      BestAtOnce(inst, r, inst.latest[0], Length(tt, 0, r), late, penalty, MinShift(e.penalised, e.penalisedDeparture));
    }
  }

  lemma LeavingAtOnce(penalty: real, late0: real, late: real)
    requires penalty >= 1.0 && late0 <= late
    ensures (penalty - 1.0) * late0 <= (penalty - 1.0) * late
  {
  }

  lemma DepotIsOpen(inst: Problem)
    ensures inst.latest[0] >= 0.0 && inst.Vertex(0)
  {
    assert inst.Vertex(0);
  }

  // ---------- the search layer over such an instance ----------

  ghost function ExactSqueeze(inst: Problem, tEnd: real): WarpWorld
    requires Horizon(inst, tEnd)
  {
    WarpWorld(ExactWorld(inst), ExactWarpPricing(inst, tEnd))
  }

  /** A list that may be priced. */
  predicate Drivable(inst: Problem, r: seq<int>) { |r| > 0 && inst.Route(r) && Hops(0, r) }

  function Delay(inst: Problem, tt: Times, r: seq<int>): real
    requires inst.Route(r)
  {
    Late(inst, tt, 0, r, 0.0)
  }

  /** The prices of a route that is `length` long and `late` late. */
  ghost predicate Prices(ww: WarpWorld, r: seq<int>, penalty: real, length: real, late: real) {
    && ww.warp.cost(r, penalty) == length + (penalty - 1.0) * late
    && ww.w.price.fold(r) == (if late == 0.0 then Some(length) else None)
    && ww.warp.build(r) == Some(WarpPrice(late, if late == 0.0 then Some(length) else None))
    && BuildWarpTour(ww, r, penalty) == Some(WarpTour(r, if late == 0.0 then length else length + (penalty - 1.0) * late, late, 0))
  }

  /** The prices of a route in closed form. */
  lemma SteadyPrices(inst: Problem, tt: Times, r: seq<int>, penalty: real, tEnd: real)
    requires Timetable(inst, tt) && Horizon(inst, tEnd) && Drivable(inst, r) && penalty >= 1.0
    ensures var ww, d, l := ExactSqueeze(inst, tEnd), Delay(inst, tt, r), Length(tt, 0, r);
            d >= 0.0 && Prices(ww, r, penalty, l, d)
  {
    hide EvaluateRoute, EvaluateRouteWarp, Late, Length, Timetable, PrefixAlive, Hops;
    SteadyRecord(inst, tt, r, penalty, tEnd);
    SteadyRecord(inst, tt, r, 0.0, tEnd);
    LateMonotone(inst, tt, 0, r, 0.0, 0.0);
    NoLoad(inst, tt, r);
  }

  lemma {:induction false} NoLoad(inst: Problem, tt: Times, r: seq<int>)
    requires Timetable(inst, tt)
    ensures Load(inst, r) == 0
    decreases |r|
  {
    if |r| > 0 { NoLoad(inst, tt, r[..|r| - 1]); }
  }

  /** A penalised ranking is the price of the spliced list. */
  lemma SteadySplice(inst: Problem, tt: Times, A: seq<int>, i1: int, j1: int, B: seq<int>, i2: int, j2: int, penalty: real, tEnd: real, r: seq<int>)
    requires Timetable(inst, tt) && Horizon(inst, tEnd) && Drivable(inst, r) && penalty >= 1.0
    requires Splicing.SpliceIndices(|A|, i1, j1, |B|, i2, j2) && Splicing.Spliced(A, i1, j1, B, i2, j2) == r
    ensures var ww := ExactSqueeze(inst, tEnd);
            ww.warp.splice(A, i1, j1, B, i2, j2, penalty) == Some(ww.warp.cost(r, penalty))
  {
    hide EvaluateRoute, EvaluateRouteWarp, Late, Length, Timetable, PrefixAlive, Hops;
    SteadyRecord(inst, tt, r, penalty, tEnd);
  }

  /** What is left of a route without stop i. */
  lemma SteadyRemoval(inst: Problem, tt: Times, t: WarpTour, i: nat, penalty: real, tEnd: real)
    requires Timetable(inst, tt) && Horizon(inst, tEnd) && penalty >= 1.0 && i < |t.vertices|
    requires |t.vertices| > 1 ==> Drivable(inst, RemoveAt(t.vertices, i))
    ensures RemovalCost(ExactSqueeze(inst, tEnd), t, i, penalty) ==
            Some(if |t.vertices| > 1 then ExactSqueeze(inst, tEnd).warp.cost(RemoveAt(t.vertices, i), penalty) else 0.0)
  {
    hide Timetable, Drivable, ExactWarpPricing, Horizon;
    if |t.vertices| > 1 {
      assert Splicing.Spliced(t.vertices, i, i, t.vertices, 1, 0) == RemoveAt(t.vertices, i);
      SteadySplice(inst, tt, t.vertices, i, i, t.vertices, 1, 0, penalty, tEnd, RemoveAt(t.vertices, i));
    }
  }

  ghost function After(ww: WarpWorld, r: seq<int>, penalty: real): real {
    if |r| == 0 then 0.0 else ww.warp.cost(r, penalty)
  }

  /** A relocate pays exactly when the two edited routes are cheaper by more than the screen. */
  lemma SteadyRelocate(inst: Problem, tt: Times, s1: WarpTour, i: nat, s2: WarpTour, p: nat, a: seq<int>, b: seq<int>, penalty: real, tEnd: real)
    requires Timetable(inst, tt) && Horizon(inst, tEnd) && penalty >= 1.0 && i < |s1.vertices| && p <= |s2.vertices|
    requires a == RemoveAt(s1.vertices, i) && b == InsertAt(s2.vertices, p, s1.vertices[i])
    requires (|a| > 0 ==> Drivable(inst, a)) && Drivable(inst, b)
    ensures var ww := ExactSqueeze(inst, tEnd);
            && RemovalCost(ww, s1, i, penalty) == Some(After(ww, a, penalty))
            && (RelocatePays(ww, s1, i, s2, p, After(ww, a, penalty), penalty) <==>
                After(ww, a, penalty) + ww.warp.cost(b, penalty) < ww.warp.cost(s1.vertices, penalty) + ww.warp.cost(s2.vertices, penalty) - SCREEN_EPS)
  {
    hide Timetable, Drivable, ExactWarpPricing, Horizon, Delay, Length, BuildWarpTour;
    var A, B := s1.vertices, s2.vertices;
    assert |a| == |A| - 1;
    SteadyRemoval(inst, tt, s1, i, penalty, tEnd);
    assert Splicing.Spliced(B, p, p - 1, A, i, i) == b by { assert A[i..i + 1] == [A[i]]; }
    SteadySplice(inst, tt, B, p, p - 1, A, i, i, penalty, tEnd, b);
    SteadyPrices(inst, tt, b, penalty, tEnd);
    if |a| > 0 { SteadyPrices(inst, tt, a, penalty, tEnd); }
  }

  /** ... and so does a swap. */
  lemma SteadySwap(inst: Problem, tt: Times, s1: WarpTour, i: nat, s2: WarpTour, j: nat, a: seq<int>, b: seq<int>, penalty: real, tEnd: real)
    requires Timetable(inst, tt) && Horizon(inst, tEnd) && penalty >= 1.0 && i < |s1.vertices| && j < |s2.vertices|
    requires a == s1.vertices[i := s2.vertices[j]] && b == s2.vertices[j := s1.vertices[i]] && s1.load == s2.load == 0
    requires Drivable(inst, a) && Drivable(inst, b)
    ensures var ww := ExactSqueeze(inst, tEnd);
            SwapPays(ww, s1, i, s2, j, penalty) <==>
            ww.warp.cost(a, penalty) + ww.warp.cost(b, penalty) < ww.warp.cost(s1.vertices, penalty) + ww.warp.cost(s2.vertices, penalty) - SCREEN_EPS
  {
    hide Drivable, ExactWarpPricing, Horizon, Delay, Length, BuildWarpTour;
    var A, B := s1.vertices, s2.vertices;
    assert Splicing.Spliced(A, i, i, B, j, j) == a by { assert B[j..j + 1] == [B[j]]; }
    assert Splicing.Spliced(B, j, j, A, i, i) == b by { assert A[i..i + 1] == [A[i]]; }
    SteadySplice(inst, tt, A, i, i, B, j, j, penalty, tEnd, a);
    SteadySplice(inst, tt, B, j, j, A, i, i, penalty, tEnd, b);
    SteadyPrices(inst, tt, a, penalty, tEnd);
    SteadyPrices(inst, tt, b, penalty, tEnd);
  }

  // ---------- short routes ----------

  function LateFrom1(inst: Problem, tt: Times, from: int, a: int, t: real): real
    requires inst.Customer(a)
  {
    var x := t + tt(from, a);
    Max(0.0, x - inst.latest[a]) + Max(0.0, Min(x, inst.latest[a]) + tt(a, 0) - inst.latest[0])
  }

  function LateFrom2(inst: Problem, tt: Times, from: int, a: int, b: int, t: real): real
    requires inst.Customer(a) && inst.Customer(b)
  {
    var x := t + tt(from, a);
    Max(0.0, x - inst.latest[a]) + LateFrom1(inst, tt, a, b, Min(x, inst.latest[a]))
  }

  function LateFrom3(inst: Problem, tt: Times, from: int, a: int, b: int, c: int, t: real): real
    requires inst.Customer(a) && inst.Customer(b) && inst.Customer(c)
  {
    var x := t + tt(from, a);
    Max(0.0, x - inst.latest[a]) + LateFrom2(inst, tt, a, b, c, Min(x, inst.latest[a]))
  }

  lemma From1(inst: Problem, tt: Times, from: int, a: int, t: real)
    requires inst.Customer(a)
    ensures Hops(from, [a]) <==> from != a
    ensures Length(tt, from, [a]) == tt(from, a) + tt(a, 0)
    ensures Late(inst, tt, from, [a], t) == LateFrom1(inst, tt, from, a, t)
  {
    assert [a][1..] == [];
  }

  lemma From2(inst: Problem, tt: Times, from: int, a: int, b: int, t: real)
    requires inst.Customer(a) && inst.Customer(b)
    ensures Hops(from, [a, b]) <==> from != a && a != b
    ensures Length(tt, from, [a, b]) == tt(from, a) + tt(a, b) + tt(b, 0)
    ensures Late(inst, tt, from, [a, b], t) == LateFrom2(inst, tt, from, a, b, t)
  {
    assert [a, b][1..] == [b];
    From1(inst, tt, a, b, Min(t + tt(from, a), inst.latest[a]));
  }

  lemma From3(inst: Problem, tt: Times, from: int, a: int, b: int, c: int, t: real)
    requires inst.Customer(a) && inst.Customer(b) && inst.Customer(c)
    ensures Hops(from, [a, b, c]) <==> from != a && a != b && b != c
    ensures Length(tt, from, [a, b, c]) == tt(from, a) + tt(a, b) + tt(b, c) + tt(c, 0)
    ensures Late(inst, tt, from, [a, b, c], t) == LateFrom3(inst, tt, from, a, b, c, t)
  {
    assert [a, b, c][1..] == [b, c];
    From2(inst, tt, a, b, c, Min(t + tt(from, a), inst.latest[a]));
  }

  function LateFrom4(inst: Problem, tt: Times, from: int, a: int, b: int, c: int, d: int, t: real): real
    requires inst.Customer(a) && inst.Customer(b) && inst.Customer(c) && inst.Customer(d)
  {
    var x := t + tt(from, a);
    Max(0.0, x - inst.latest[a]) + LateFrom3(inst, tt, a, b, c, d, Min(x, inst.latest[a]))
  }

  lemma From4(inst: Problem, tt: Times, from: int, a: int, b: int, c: int, d: int, t: real)
    requires inst.Customer(a) && inst.Customer(b) && inst.Customer(c) && inst.Customer(d)
    ensures Hops(from, [a, b, c, d]) <==> from != a && a != b && b != c && c != d
    ensures Length(tt, from, [a, b, c, d]) == tt(from, a) + tt(a, b) + tt(b, c) + tt(c, d) + tt(d, 0)
    ensures Late(inst, tt, from, [a, b, c, d], t) == LateFrom4(inst, tt, from, a, b, c, d, t)
  {
    assert [a, b, c, d][1..] == [b, c, d];
    From3(inst, tt, a, b, c, d, Min(t + tt(from, a), inst.latest[a]));
  }

  lemma One(inst: Problem, tt: Times, a: int)
    requires inst.Customer(a)
    ensures Drivable(inst, [a]) && Length(tt, 0, [a]) == tt(0, a) + tt(a, 0)
    ensures Delay(inst, tt, [a]) == LateFrom1(inst, tt, 0, a, 0.0)
  {
    From1(inst, tt, 0, a, 0.0);
  }

  lemma Two(inst: Problem, tt: Times, a: int, b: int)
    requires inst.Customer(a) && inst.Customer(b) && a != b
    ensures Drivable(inst, [a, b]) && Length(tt, 0, [a, b]) == tt(0, a) + tt(a, b) + tt(b, 0)
    ensures Delay(inst, tt, [a, b]) == LateFrom2(inst, tt, 0, a, b, 0.0)
  {
    From2(inst, tt, 0, a, b, 0.0);
  }

  lemma Three(inst: Problem, tt: Times, a: int, b: int, c: int)
    requires inst.Customer(a) && inst.Customer(b) && inst.Customer(c) && a != b && b != c
    ensures Drivable(inst, [a, b, c]) && Length(tt, 0, [a, b, c]) == tt(0, a) + tt(a, b) + tt(b, c) + tt(c, 0)
    ensures Delay(inst, tt, [a, b, c]) == LateFrom3(inst, tt, 0, a, b, c, 0.0)
  {
    From3(inst, tt, 0, a, b, c, 0.0);
  }

  lemma Price1(inst: Problem, tt: Times, a: int, penalty: real, tEnd: real)
    requires Timetable(inst, tt) && Horizon(inst, tEnd) && penalty >= 1.0 && inst.Customer(a)
    ensures Drivable(inst, [a])
    ensures Prices(ExactSqueeze(inst, tEnd), [a], penalty, tt(0, a) + tt(a, 0), LateFrom1(inst, tt, 0, a, 0.0))
  {
    hide Timetable, ExactSqueeze, Horizon, Prices, LateFrom1, Length, Delay, Drivable;
    One(inst, tt, a);
    SteadyPrices(inst, tt, [a], penalty, tEnd);
  }

  lemma Price2(inst: Problem, tt: Times, a: int, b: int, penalty: real, tEnd: real)
    requires Timetable(inst, tt) && Horizon(inst, tEnd) && penalty >= 1.0 && inst.Customer(a) && inst.Customer(b) && a != b
    ensures Drivable(inst, [a, b])
    ensures Prices(ExactSqueeze(inst, tEnd), [a, b], penalty, tt(0, a) + tt(a, b) + tt(b, 0), LateFrom2(inst, tt, 0, a, b, 0.0))
  {
    hide Timetable, ExactSqueeze, Horizon, Prices, LateFrom2, Length, Delay, Drivable;
    Two(inst, tt, a, b);
    SteadyPrices(inst, tt, [a, b], penalty, tEnd);
  }

  lemma Price3(inst: Problem, tt: Times, a: int, b: int, c: int, penalty: real, tEnd: real)
    requires Timetable(inst, tt) && Horizon(inst, tEnd) && penalty >= 1.0
    requires inst.Customer(a) && inst.Customer(b) && inst.Customer(c) && a != b && b != c
    ensures Drivable(inst, [a, b, c])
    ensures Prices(ExactSqueeze(inst, tEnd), [a, b, c], penalty, tt(0, a) + tt(a, b) + tt(b, c) + tt(c, 0), LateFrom3(inst, tt, 0, a, b, c, 0.0))
  {
    hide Timetable, ExactSqueeze, Horizon, Prices, LateFrom3, Length, Delay, Drivable;
    Three(inst, tt, a, b, c);
    SteadyPrices(inst, tt, [a, b, c], penalty, tEnd);
  }

  lemma Price4(inst: Problem, tt: Times, a: int, b: int, c: int, d: int, penalty: real, tEnd: real)
    requires Timetable(inst, tt) && Horizon(inst, tEnd) && penalty >= 1.0
    requires inst.Customer(a) && inst.Customer(b) && inst.Customer(c) && inst.Customer(d) && a != b && b != c && c != d
    ensures Drivable(inst, [a, b, c, d])
    ensures Prices(ExactSqueeze(inst, tEnd), [a, b, c, d], penalty, tt(0, a) + tt(a, b) + tt(b, c) + tt(c, d) + tt(d, 0), LateFrom4(inst, tt, 0, a, b, c, d, 0.0))
  {
    hide Timetable, ExactSqueeze, Horizon, Prices, LateFrom4, Length;
    From4(inst, tt, 0, a, b, c, d, 0.0);
    SteadyPrices(inst, tt, [a, b, c, d], penalty, tEnd);
  }

  // ---------- point queries ----------

  /** ready_next without waiting. */
  lemma SteadyReady(inst: Problem, tt: Times, i: int, j: int, t: real)
    requires Timetable(inst, tt) && inst.Vertex(i) && inst.Vertex(j) && 0.0 <= t <= inst.horizonEnd
    ensures ReadyNext(inst, i, j, t) == if i != j && t + tt(i, j) <= inst.latest[j] then Some(t + tt(i, j)) else None
    ensures i != 0 ==> (DepotReturnFeasible(inst, i, t) <==> t + tt(i, 0) <= inst.latest[0])
  {
    hide Eval;
    DepotIsOpen(inst);
    assert i != j ==> Steady(inst, tt, i, j) && Den(inst.arcs[i][j], t) == Some(t + tt(i, j));
    assert i != 0 ==> Steady(inst, tt, i, 0) && Den(inst.arcs[i][0], t) == Some(t + tt(i, 0));
    assert i == j ==> IsEmpty(inst.arcs[i][j]);
  }

  // ---------- building one ----------

  /** The arc that takes c to cross. */
  function ArcOf(c: real, horizonEnd: real): Pwlf
    requires 0.0 <= c && 0.0 < horizonEnd
  {
    Points([0.0, horizonEnd], [c, horizonEnd + c])
  }

  lemma FullSlope(c: real, horizonEnd: real, t: real)
    requires 0.0 < horizonEnd
    ensures Line(0.0, c, horizonEnd, horizonEnd + c, t) == t + c
  {
    var s := t / horizonEnd;
    assert s * horizonEnd == t;
    assert horizonEnd + c - c == horizonEnd;
  }

  lemma ArcIsSteady(c: real, horizonEnd: real, t: real)
    requires 0.0 <= c && 0.0 < horizonEnd
    ensures Den(ArcOf(c, horizonEnd), t) == if 0.0 <= t <= horizonEnd then Some(t + c) else None
  {
    var a := ArcOf(c, horizonEnd);
    if InDom(a, t) {
      EvalAtFirst(a, 0);
      if t > 0.0 {
        EvalOnPiece(a, 1, t);
        FullSlope(c, horizonEnd, t);
      }
    }
  }

  function Row(n: nat, tt: Times, i: int, horizonEnd: real): seq<Pwlf>
    requires 0.0 < horizonEnd && forall i, j :: tt(i, j) >= 0.0
  {
    seq<Pwlf>(n + 1, j => ArcBetween(tt, i, j, horizonEnd))
  }

  function ArcBetween(tt: Times, i: int, j: int, horizonEnd: real): Pwlf
    requires 0.0 < horizonEnd && forall i, j :: tt(i, j) >= 0.0
  {
    if i == j then EMPTY else ArcOf(tt(i, j), horizonEnd)
  }

  /** n clients, an unlimited fleet of vehicles without capacity limits, the given deadlines. */
  function Table(n: nat, tt: Times, latest: seq<real>, horizonEnd: real, fixedCost: real): Instance
    requires 0.0 < horizonEnd && forall i, j :: tt(i, j) >= 0.0
  {
    Instance(n, -1, 0, fixedCost, 0.0, horizonEnd, true,
             seq(n + 1, _ => 0), seq(n + 1, _ => 0.0), seq(n + 1, _ => 0.0), latest,
             seq(n + 1, i => Row(n, tt, i, horizonEnd)))
  }

  lemma TableIsTimetable(n: nat, tt: Times, latest: seq<real>, horizonEnd: real, fixedCost: real)
    requires 0.0 < horizonEnd && fixedCost >= 0.0 && |latest| == n + 1
    requires (forall i, j :: tt(i, j) >= 0.0) && forall v :: 0 <= v <= n ==> 0.0 <= latest[v] <= horizonEnd
    ensures WellFormed(Table(n, tt, latest, horizonEnd, fixedCost))
    ensures Timetable(Table(n, tt, latest, horizonEnd, fixedCost), tt)
  {
    hide Den, LowerBound;
    var inst := Table(n, tt, latest, horizonEnd, fixedCost);
    assert IsEmpty(EMPTY);
    forall v, u | 0 <= v <= n && 0 <= u <= n ensures GoodArc(inst.horizonStart, inst.arcs[v][u]) {
    }
    forall i, j | 0 <= i <= n && 0 <= j <= n && i != j ensures Steady(inst, tt, i, j) {
      forall t ensures Den(inst.arcs[i][j], t) == if 0.0 <= t <= horizonEnd then Some(t + tt(i, j)) else None {
        ArcIsSteady(tt(i, j), horizonEnd, t);
      }
    }
  }
}
