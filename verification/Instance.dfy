/** The time-dependent instance (cpp/core/instance.h) and its point queries (cpp/core/queries.h). */
module Instances {
  import opened Common
  import opened Pwlfs
  import opened Composition
  import Scans

  /** Vertices 0..n, 0 the depot; arcs[i][j] is the arrival-time function of arc (i, j), empty when
      the arc is absent. vehicles < 0 means an unbounded fleet. */
  datatype Instance = Instance(
    n: nat,
    vehicles: int,
    capacity: int,
    fixedCost: real,
    horizonStart: real,
    horizonEnd: real,
    hasWindows: bool,
    demands: seq<int>,
    service: seq<real>,
    earliest: seq<real>,
    latest: seq<real>,
    arcs: seq<seq<Pwlf>>)
  {
    predicate Vertex(v: int) { 0 <= v <= n }

    predicate Customer(v: int) { 1 <= v <= n }

    predicate Route(r: seq<int>) { forall k :: 0 <= k < |r| ==> Customer(r[k]) }
  }

  /** An arrival-time function of a well-formed instance: it starts with the horizon and no arrival
      precedes its departure. Monotonicity (FIFO) is part of the type. */
  ghost predicate GoodArc(horizonStart: real, a: Pwlf) {
    !IsEmpty(a) ==> a.xs[0] == horizonStart && forall k :: 0 <= k < |a.xs| ==> a.xs[k] <= a.ys[k]
  }

  /** No breakpoint lies past the horizon. */
  ghost predicate EndsBy(a: Pwlf, horizonEnd: real) {
    !IsEmpty(a) ==> a.xs[|a.xs| - 1] <= horizonEnd
  }

  ghost predicate WellFormed(i: Instance) {
    && 0.0 <= i.horizonStart
    && |i.demands| == |i.service| == |i.earliest| == |i.latest| == |i.arcs| == i.n + 1
    && (forall v :: 0 <= v <= i.n ==> i.service[v] >= 0.0 && i.demands[v] >= 0)
    && (forall v :: 0 <= v <= i.n ==> 0.0 <= i.earliest[v] <= i.latest[v])
    && (forall v :: 0 <= v <= i.n ==> |i.arcs[v]| == i.n + 1 && IsEmpty(i.arcs[v][v]))
    && (forall v, w :: 0 <= v <= i.n && 0 <= w <= i.n ==> GoodArc(i.horizonStart, i.arcs[v][w]))
    && i.fixedCost >= 0.0
  }

  type Problem = i: Instance | WellFormed(i)
    witness Instance(0, -1, 0, 0.0, 0.0, 0.0, false, [0], [0.0], [0.0], [0.0], [[EMPTY]])

  /** Departing no earlier than the horizon start never arrives before departing. */
  lemma ArcForward(inst: Problem, i: int, j: int, t: real)
    requires inst.Vertex(i) && inst.Vertex(j) && InDom(inst.arcs[i][j], t)
    ensures t <= Eval(inst.arcs[i][j], t)
    ensures inst.horizonStart <= t
  {
    hide Line;
    var a := inst.arcs[i][j];
    assert GoodArc(inst.horizonStart, a);
    var k := LowerBound(a.xs, t);
    if a.xs[k] != t {
      Scans.ChordShift(a.xs[k - 1], a.ys[k - 1], a.xs[k], a.ys[k], t, 0.0);
    }
  }

  // ---------- vertex lists ----------

  function DemandOf(inst: Problem, v: int): int {
    if inst.Customer(v) then inst.demands[v] else 0
  }

  function Load(inst: Problem, r: seq<int>): int {
    if |r| == 0 then 0 else Load(inst, r[..|r| - 1]) + DemandOf(inst, r[|r| - 1])
  }

  lemma {:induction false} LoadConcat(inst: Problem, a: seq<int>, b: seq<int>)
    ensures Load(inst, a + b) == Load(inst, a) + Load(inst, b)
    decreases |b|
  {
    if |b| == 0 {
      assert a + b == a;
    } else {
      assert (a + b)[..|a + b| - 1] == a + b[..|b| - 1];
      LoadConcat(inst, a, b[..|b| - 1]);
    }
  }

  lemma LoadOne(inst: Problem, v: int)
    ensures Load(inst, [v]) == DemandOf(inst, v)
  {
    assert [v][..0] == [];
  }

  function RemoveAt(r: seq<int>, i: nat): seq<int>
    requires i < |r|
  {
    r[..i] + r[i + 1..]
  }

  function InsertAt(r: seq<int>, p: nat, c: int): seq<int>
    requires p <= |r|
  {
    r[..p] + [c] + r[p..]
  }

  // ---------- point queries ----------

  /** Ready time at j when leaving i at ready time t; None stands for +inf. */
  function ReadyNext(inst: Problem, i: int, j: int, t: real): Option<real>
    requires inst.Vertex(i) && inst.Vertex(j)
  {
    var alpha := inst.arcs[i][j];
    if !InDom(alpha, t) then None
    else
      var arrival := Eval(alpha, t);
      if inst.hasWindows then
        if arrival > inst.latest[j] then None
        else Some((if arrival > inst.earliest[j] then arrival else inst.earliest[j]) + inst.service[j])
      else Some(arrival + inst.service[j])
  }

  /** Arrival back at the depot when leaving j at t, if the return is feasible. */
  function ReturnArrival(inst: Problem, j: int, t: real): Option<real>
    requires inst.Vertex(j)
  {
    var alpha := inst.arcs[j][0];
    if !InDom(alpha, t) then None
    else if inst.hasWindows && Eval(alpha, t) > inst.latest[0] then None
    else Some(Eval(alpha, t))
  }

  predicate DepotReturnFeasible(inst: Problem, j: int, t: real)
    requires inst.Vertex(j)
  {
    ReturnArrival(inst, j, t).Some?
  }

  /** departure_low. */
  function DepartureLow(inst: Problem): real {
    if inst.hasWindows && inst.earliest[0] > inst.horizonStart then inst.earliest[0] else inst.horizonStart
  }

  function DepartureHigh(inst: Problem): real {
    if inst.hasWindows then Min(inst.horizonEnd, inst.latest[0]) else inst.horizonEnd
  }

  /** A vehicle may leave the depot at t: within the horizon and within the depot's own window. */
  predicate MayLeave(inst: Problem, t: real) {
    inst.horizonStart <= t <= inst.horizonEnd && (inst.hasWindows ==> inst.earliest[0] <= t <= inst.latest[0])
  }

  /** departure_low and the upper end bound exactly the departures that are allowed. */
  lemma DepartureWindow(inst: Problem, t: real)
    ensures DepartureLow(inst) <= t <==> inst.horizonStart <= t && (inst.hasWindows ==> inst.earliest[0] <= t)
    ensures t <= DepartureHigh(inst) <==> t <= inst.horizonEnd && (inst.hasWindows ==> t <= inst.latest[0])
    ensures DepartureLow(inst) <= t <= DepartureHigh(inst) <==> MayLeave(inst, t)
  {
  }

  /** FIFO with waiting: leaving earlier (but not before the horizon) is never worse. */
  lemma ReadyNextMonotone(inst: Problem, i: int, j: int, t: real, t': real)
    requires inst.Vertex(i) && inst.Vertex(j) && inst.horizonStart <= t <= t'
    ensures ReadyNext(inst, i, j, t').Some? ==>
              ReadyNext(inst, i, j, t).Some? && ReadyNext(inst, i, j, t).value <= ReadyNext(inst, i, j, t').value
    ensures ReadyNext(inst, i, j, t).Some? ==> t <= ReadyNext(inst, i, j, t).value
  {
    hide Eval;
    var a := inst.arcs[i][j];
    assert GoodArc(inst.horizonStart, a);
    if InDom(a, t') { EvalMonotone(a, t, t'); }
    if InDom(a, t) { ArcForward(inst, i, j, t); }
  }

  // ---------- the pointwise meaning of a route ----------

  /** Chain ready_next through the stops. */
  function Chain(inst: Problem, from: int, stops: seq<int>, t: real): Option<real>
    requires inst.Vertex(from) && inst.Route(stops)
    decreases |stops|
  {
    if |stops| == 0 then Some(t)
    else
      var next := ReadyNext(inst, from, stops[0], t);
      if next.None? then None else Chain(inst, stops[0], stops[1..], next.value)
  }

  function Last(from: int, stops: seq<int>): int {
    if |stops| == 0 then from else stops[|stops| - 1]
  }

  /** The arrival back at the depot of a vehicle leaving at t, if everything is feasible. */
  function Simulate(inst: Problem, route: seq<int>, t: real): Option<real>
    requires inst.Route(route)
  {
    if !MayLeave(inst, t) then None
    else
      var ready := Chain(inst, 0, route, t);
      if ready.None? then None else ReturnArrival(inst, Last(0, route), ready.value)
  }

  /** A departure works out exactly when it is within the horizon and the depot's window, every stop can
      be served on the way, and the vehicle is back in time. */
  lemma SimulateMeaning(inst: Problem, route: seq<int>, t: real)
    requires inst.Route(route)
    ensures Simulate(inst, route, t).Some? <==>
            && inst.horizonStart <= t <= inst.horizonEnd && (inst.hasWindows ==> inst.earliest[0] <= t <= inst.latest[0])
            && Chain(inst, 0, route, t).Some?
            && var ready := Chain(inst, 0, route, t).value;
               && InDom(inst.arcs[Last(0, route)][0], ready)
               && (inst.hasWindows ==> Eval(inst.arcs[Last(0, route)][0], ready) <= inst.latest[0])
    ensures Simulate(inst, route, t).Some? ==>
              Simulate(inst, route, t).value == Eval(inst.arcs[Last(0, route)][0], Chain(inst, 0, route, t).value)
  {
    hide Eval, Chain;
  }

  lemma {:induction false} ChainConcat(inst: Problem, from: int, a: seq<int>, b: seq<int>, t: real)
    requires inst.Vertex(from) && inst.Route(a) && inst.Route(b)
    ensures inst.Route(a + b)
    ensures Chain(inst, from, a + b, t) ==
            if Chain(inst, from, a, t).None? then None else Chain(inst, Last(from, a), b, Chain(inst, from, a, t).value)
    decreases |a|
  {
    hide Eval, ReadyNext;
    if |a| == 0 {
      assert a + b == b;
    } else {
      assert (a + b)[1..] == a[1..] + b;
      var next := ReadyNext(inst, from, a[0], t);
      if next.Some? {
        ChainConcat(inst, a[0], a[1..], b, next.value);
      }
    }
  }
}
