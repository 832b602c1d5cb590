/** The penalised twin of the route fold (cpp/core/warp_eval.cpp): windows become a clamp plus a
    lateness channel. On departures without lateness it is the base fold. */
module WarpEvaluation {
  import opened Common
  import opened Pwlfs
  import opened Composition
  import opened Scans
  import opened PenalisedScan
  import opened Summation
  import opened Deduplication
  import opened VertexFunctions
  import opened Instances
  import opened RouteEvaluation

  // ---------- warp_horizon ----------

  ghost predicate Image(inst: Problem, y: real) {
    exists i, j :: inst.Vertex(i) && inst.Vertex(j) && y in inst.arcs[i][j].ys
  }

  ghost predicate Completion(inst: Problem, y: real) {
    inst.hasWindows && exists v :: inst.Vertex(v) && y == inst.latest[v] + inst.service[v]
  }

  /** t is the greatest of the horizon end, every arc image value and every clamped completion. */
  ghost predicate IsWarpHorizon(inst: Problem, t: real) {
    && (t == inst.horizonEnd || Image(inst, t) || Completion(inst, t))
    && inst.horizonEnd <= t && (forall y :: Image(inst, y) ==> y <= t) && (forall y :: Completion(inst, y) ==> y <= t)
  }

  /** What the clamped builders need of tEnd: it bounds every arrival and every deadline. */
  ghost predicate Horizon(inst: Problem, tEnd: real) {
    inst.hasWindows ==>
      && 0.0 <= tEnd
      && (forall i, j :: inst.Vertex(i) && inst.Vertex(j) ==>
            forall k :: 0 <= k < |inst.arcs[i][j].ys| ==> inst.arcs[i][j].ys[k] <= tEnd)
      && (forall v :: inst.Vertex(v) ==> inst.latest[v] <= tEnd)
  }

  lemma WarpHorizonSuffices(inst: Problem, tEnd: real)
    requires IsWarpHorizon(inst, tEnd)
    ensures Horizon(inst, tEnd)
  {
    if inst.hasWindows {
      forall v | inst.Vertex(v) ensures 0.0 <= inst.latest[v] <= tEnd {
        assert Completion(inst, inst.latest[v] + inst.service[v]);
      }
      assert inst.Vertex(0);
      forall i, j, k | inst.Vertex(i) && inst.Vertex(j) && 0 <= k < |inst.arcs[i][j].ys|
        ensures inst.arcs[i][j].ys[k] <= tEnd
      {
        assert Image(inst, inst.arcs[i][j].ys[k]);
      }
    }
  }

  method RaiseOver(ys: seq<real>, t: real) returns (r: real)
    ensures t <= r && (r == t || r in ys) && forall y :: y in ys ==> y <= r
  {
    r := t;
    for k := 0 to |ys|
      invariant t <= r && (r == t || r in ys) && forall m :: 0 <= m < k ==> ys[m] <= r
    {
      if ys[k] > r { r := ys[k]; }
    }
  }

  method RaiseOverImages(inst: Problem, t: real) returns (r: real)
    ensures t <= r && (r == t || Image(inst, r)) && forall y :: Image(inst, y) ==> y <= r
  {
    r := t;
    for i := 0 to inst.n + 1
      invariant t <= r && (r == t || Image(inst, r))
      invariant forall v, w, y :: 0 <= v < i && inst.Vertex(w) && y in inst.arcs[v][w].ys ==> y <= r
    {
      r := RaiseOverRow(inst, i, r);
    }
  }

  method RaiseOverRow(inst: Problem, i: int, t: real) returns (r: real)
    requires inst.Vertex(i)
    ensures t <= r && (r == t || Image(inst, r)) && forall w, y :: inst.Vertex(w) && y in inst.arcs[i][w].ys ==> y <= r
  {
    r := t;
    for j := 0 to inst.n + 1
      invariant t <= r && (r == t || Image(inst, r))
      invariant forall w, y :: 0 <= w < j && y in inst.arcs[i][w].ys ==> y <= r
    {
      assert inst.Vertex(j);
      r := RaiseOver(inst.arcs[i][j].ys, r);
    }
  }

  method WarpHorizon(inst: Problem) returns (tEnd: real)
    ensures IsWarpHorizon(inst, tEnd) && Horizon(inst, tEnd)
  {
    tEnd := RaiseOverImages(inst, inst.horizonEnd);
    if inst.hasWindows {
      ghost var base := tEnd;
      for v := 0 to inst.n + 1
        invariant base <= tEnd && (tEnd == base || Completion(inst, tEnd))
        invariant forall w :: 0 <= w < v ==> inst.latest[w] + inst.service[w] <= tEnd
      {
        assert inst.Vertex(v);
        var done := inst.latest[v] + inst.service[v];
        if done > tEnd { tEnd := done; }
      }
    }
    WarpHorizonSuffices(inst, tEnd);
  }

  // ---------- the pointwise meaning ----------

  /** One stop with clamping: ready time and accumulated lateness; None only past the end of an arc. */
  function WarpNext(inst: Problem, i: int, j: int, t: real, w: real): Option<(real, real)>
    requires inst.Vertex(i) && inst.Vertex(j)
  {
    var alpha := inst.arcs[i][j];
    if !InDom(alpha, t) then None
    else
      var a := Eval(alpha, t);
      if inst.hasWindows
      then Some((Max(inst.earliest[j], Min(a, inst.latest[j])) + inst.service[j], w + Max(0.0, a - inst.latest[j])))
      else Some((a + inst.service[j], w))
  }

  function WarpReturn(inst: Problem, j: int, t: real, w: real): Option<(real, real)>
    requires inst.Vertex(j)
  {
    var alpha := inst.arcs[j][0];
    if !InDom(alpha, t) then None
    else
      var a := Eval(alpha, t);
      if inst.hasWindows then Some((Min(a, inst.latest[0]), w + Max(0.0, a - inst.latest[0]))) else Some((a, w))
  }

  function WarpChain(inst: Problem, from: int, stops: seq<int>, t: real, w: real): Option<(real, real)>
    requires inst.Vertex(from) && inst.Route(stops)
    decreases |stops|
  {
    if |stops| == 0 then Some((t, w))
    else
      var next := WarpNext(inst, from, stops[0], t, w);
      if next.None? then None else WarpChain(inst, stops[0], stops[1..], next.value.0, next.value.1)
  }

  function WarpSimulate(inst: Problem, route: seq<int>, t: real): Option<(real, real)>
    requires inst.Route(route)
  {
    if !MayLeave(inst, t) then None
    else
      var r := WarpChain(inst, 0, route, t, 0.0);
      if r.None? then None else WarpReturn(inst, Last(0, route), r.value.0, r.value.1)
  }

  /** A clamped departure works out exactly when it is within the horizon and the depot's window and no arc
      ends before it is entered. */
  lemma WarpSimulateMeaning(inst: Problem, route: seq<int>, t: real)
    requires inst.Route(route)
    ensures WarpSimulate(inst, route, t).Some? <==>
            && inst.horizonStart <= t <= inst.horizonEnd && (inst.hasWindows ==> inst.earliest[0] <= t <= inst.latest[0])
            && WarpChain(inst, 0, route, t, 0.0).Some?
            && InDom(inst.arcs[Last(0, route)][0], WarpChain(inst, 0, route, t, 0.0).value.0)
    ensures WarpSimulate(inst, route, t).Some? ==>
              var (ready, late) := WarpChain(inst, 0, route, t, 0.0).value;
              var a := Eval(inst.arcs[Last(0, route)][0], ready);
              WarpSimulate(inst, route, t).value ==
                if inst.hasWindows then (Min(a, inst.latest[0]), late + Max(0.0, a - inst.latest[0])) else (a, late)
  {
    hide Eval, WarpChain;
  }

  /** Lateness only grows, and while it is zero the clamped chain is the walled chain. */
  lemma {:induction false} WarpChainAgrees(inst: Problem, from: int, stops: seq<int>, t: real, w: real)
    requires inst.Vertex(from) && inst.Route(stops) && w >= 0.0
    ensures var r := WarpChain(inst, from, stops, t, w); r.Some? ==> r.value.1 >= w
    ensures w == 0.0 ==>
              var r, b := WarpChain(inst, from, stops, t, w), Chain(inst, from, stops, t);
              && (b.Some? <==> r.Some? && r.value.1 == 0.0)
              && (b.Some? ==> r.value.0 == b.value)
    decreases |stops|
  {
    hide Eval;
    if |stops| > 0 {
      var next := WarpNext(inst, from, stops[0], t, w);
      if next.Some? {
        WarpChainAgrees(inst, stops[0], stops[1..], next.value.0, next.value.1);
      }
    }
  }

  /** The refinement at one departure: zero lateness is feasibility, and the ready times are equal. */
  lemma WarpSimulateAgrees(inst: Problem, route: seq<int>, t: real)
    requires inst.Route(route)
    ensures var r, b := WarpSimulate(inst, route, t), Simulate(inst, route, t);
            && (r.Some? ==> r.value.1 >= 0.0)
            && (b.Some? <==> r.Some? && r.value.1 == 0.0)
            && (b.Some? ==> r.value.0 == b.value)
  {
    hide Eval, Chain, WarpChain;
    WarpChainAgrees(inst, 0, route, t, 0.0);
  }

  // ---------- the fold on functions ----------

  datatype WarpFunctions = WarpFunctions(rho: Pwlf, warp: Pwlf)

  const HARD_WALL := WarpFunctions(EMPTY, EMPTY)

  function DedupIf(dedup: bool, f: Pwlf): Pwlf {
    if dedup then Dedup(f) else f
  }

  /** The pair of values at a departure. */
  function PairDen(p: WarpFunctions, t: real): Option<(real, real)> {
    if InDom(p.rho, t) && InDom(p.warp, t) then Some((Eval(p.rho, t), Eval(p.warp, t))) else None
  }

  /** The accumulated pair: the lateness channel is defined wherever the ready time is. */
  ghost predicate GoodPair(inst: Problem, p: WarpFunctions) {
    Enters(inst, p.rho) && forall t :: InDom(p.rho, t) ==> InDom(p.warp, t)
  }

  /** The theta step on an arrival function, before any dedup. */
  function WarpTheta(inst: Problem, v: int, tEnd: real, arrival: Pwlf, warp: Pwlf): WarpFunctions
    requires inst.Vertex(v) && Horizon(inst, tEnd)
    requires !IsEmpty(arrival) ==> 0.0 <= arrival.ys[|arrival.ys| - 1]
  {
    if inst.hasWindows then
      WarpFunctions(Compose(ThetaClamp(inst.earliest[v], inst.latest[v], inst.service[v], tEnd), arrival),
                    Add(warp, Compose(Lateness(inst.latest[v], tEnd), arrival)))
    else if IsEmpty(arrival) then HARD_WALL
    else WarpFunctions(Compose(ServiceShift(arrival.ys[|arrival.ys| - 1], inst.service[v]), arrival), warp)
  }

  function WarpVisit(inst: Problem, prev: int, v: int, tEnd: real, dedup: bool, p: WarpFunctions): WarpFunctions
    requires inst.Vertex(prev) && inst.Vertex(v) && Horizon(inst, tEnd)
  {
    ArrivalFromHorizon(inst, prev, v, p.rho);
    var arrival := Compose(inst.arcs[prev][v], p.rho);
    if IsEmpty(arrival) then HARD_WALL
    else
      var q := WarpTheta(inst, v, tEnd, arrival, p.warp);
      if IsEmpty(q.rho) then HARD_WALL else WarpFunctions(DedupIf(dedup, q.rho), DedupIf(dedup, q.warp))
  }

  lemma DedupIfMeaning(dedup: bool, f: Pwlf)
    ensures forall t :: Den(DedupIf(dedup, f), t) == Den(f, t)
    ensures FirstOf(DedupIf(dedup, f)) == FirstOf(f) && TopOf(DedupIf(dedup, f)) == TopOf(f)
  {
    forall t ensures Den(DedupIf(dedup, f), t) == Den(f, t) { DedupPreserves(f, t); }
    DedupPreserves(f, 0.0);
  }

  function FirstOf(f: Pwlf): Option<(real, real)> {
    if IsEmpty(f) then None else Some((f.xs[0], f.ys[0]))
  }

  function TopOf(f: Pwlf): Option<real> {
    if IsEmpty(f) then None else Some(f.ys[|f.ys| - 1])
  }

  /** Arrivals never pass tEnd. */
  lemma ArrivalBounded(inst: Problem, prev: int, v: int, tEnd: real, acc: Pwlf)
    requires inst.Vertex(prev) && inst.Vertex(v) && Horizon(inst, tEnd) && Enters(inst, acc) && inst.hasWindows
    ensures forall t :: InDom(Compose(inst.arcs[prev][v], acc), t) ==>
              0.0 <= Eval(Compose(inst.arcs[prev][v], acc), t) <= tEnd
  {
    hide Eval, Compose;
    var alpha := inst.arcs[prev][v];
    var arrival := Compose(alpha, acc);
    ArrivalFromHorizon(inst, prev, v, acc);
    forall t | InDom(arrival, t) ensures 0.0 <= Eval(arrival, t) <= tEnd {
      assert Den(arrival, t) == AndThen(alpha, Den(acc, t));
      EvalBounds(arrival, t);
      EvalBounds(alpha, Den(acc, t).value);
    }
  }

  function Mapped(r: Option<real>, f: real -> real): Option<real> {
    if r.Some? then Some(f(r.value)) else None
  }

  /** A function total on [0, tEnd] composed with a bounded arrival never loses a departure. */
  lemma TotalAfter(theta: Pwlf, arrival: Pwlf, tEnd: real, v: real -> real)
    requires !IsEmpty(theta) && theta.xs[0] == 0.0
    requires forall z :: Den(theta, z) == if 0.0 <= z <= tEnd then Some(v(z)) else None
    requires forall t :: InDom(arrival, t) ==> 0.0 <= Eval(arrival, t) <= tEnd
    ensures forall t :: Den(Compose(theta, arrival), t) == Mapped(Den(arrival, t), v)
    ensures !IsEmpty(arrival) ==>
              var h := Compose(theta, arrival); !IsEmpty(h) && h.xs[0] == arrival.xs[0] && h.ys[0] == v(arrival.ys[0])
  {
    hide Eval, Compose;
    if !IsEmpty(arrival) { EvalAtFirst(arrival, 0); }
    forall t ensures Den(Compose(theta, arrival), t) == Mapped(Den(arrival, t), v) {
      ComposeAfter(theta, arrival, t);
      if InDom(arrival, t) {
        assert Den(theta, Eval(arrival, t)).Some?;
      }
    }
    ComposeAfter(theta, arrival, 0.0);
    if !IsEmpty(arrival) {
      assert Den(Compose(theta, arrival), arrival.xs[0]).Some?;
      assert Den(theta, arrival.ys[0]) == Some(v(arrival.ys[0]));
    }
  }

  lemma WarpThetaMeaning(inst: Problem, v: int, tEnd: real, arrival: Pwlf, warp: Pwlf)
    requires inst.Vertex(v) && Horizon(inst, tEnd) && inst.hasWindows
    requires !IsEmpty(arrival) && inst.horizonStart <= arrival.ys[0] && 0.0 <= arrival.ys[|arrival.ys| - 1]
    requires forall t :: InDom(arrival, t) ==> 0.0 <= Eval(arrival, t) <= tEnd
    ensures var q := WarpTheta(inst, v, tEnd, arrival, warp);
            var e, l := inst.earliest[v], inst.latest[v];
            && !IsEmpty(q.rho) && FirstOf(q.rho) == Some((arrival.xs[0], Max(e, Min(arrival.ys[0], l)) + inst.service[v]))
            && q.rho.ys[|q.rho.ys| - 1] <= l + inst.service[v]
            && (forall t :: Den(q.rho, t) == Mapped(Den(arrival, t), a => Max(e, Min(a, l)) + inst.service[v]))
            && (forall t :: Den(q.warp, t) == Plus(Den(warp, t), Mapped(Den(arrival, t), a => Max(0.0, a - l))))
  {
    hide Den, Compose, ThetaClamp, Lateness, Add;
    var e, l, s := inst.earliest[v], inst.latest[v], inst.service[v];
    forall z ensures Den(ThetaClamp(e, l, s, tEnd), z) == if 0.0 <= z <= tEnd then Some((a => Max(e, Min(a, l)) + s)(z)) else None {
      ThetaClampMeaning(e, l, s, tEnd, z);
    }
    ThetaClampMeaning(e, l, s, tEnd, 0.0);
    TotalAfter(ThetaClamp(e, l, s, tEnd), arrival, tEnd, a => Max(e, Min(a, l)) + s);
    forall z ensures Den(Lateness(l, tEnd), z) == if 0.0 <= z <= tEnd then Some((a => Max(0.0, a - l))(z)) else None {
      LatenessMeaning(l, tEnd, z);
    }
    LatenessMeaning(l, tEnd, 0.0);
    TotalAfter(Lateness(l, tEnd), arrival, tEnd, a => Max(0.0, a - l));
    AddMeaning(warp, Compose(Lateness(l, tEnd), arrival));
    ComposeMeaning(ThetaClamp(e, l, s, tEnd), arrival);
  }

  function WarpAfter(inst: Problem, i: int, j: int, r: Option<(real, real)>): Option<(real, real)>
    requires inst.Vertex(i) && inst.Vertex(j)
  {
    if r.Some? then WarpNext(inst, i, j, r.value.0, r.value.1) else None
  }

  /** The theta step of an arrival reached from (t, w). */
  lemma WarpThetaStep(inst: Problem, prev: int, v: int, tEnd: real, p: WarpFunctions)
    requires inst.Vertex(prev) && inst.Vertex(v) && Horizon(inst, tEnd) && GoodPair(inst, p)
    requires !IsEmpty(Compose(inst.arcs[prev][v], p.rho))
    ensures var arrival := Compose(inst.arcs[prev][v], p.rho);
            && 0.0 <= arrival.ys[|arrival.ys| - 1]
            && var q := WarpTheta(inst, v, tEnd, arrival, p.warp);
               && GoodPair(inst, q) && forall t :: PairDen(q, t) == WarpAfter(inst, prev, v, PairDen(p, t))
  {
    hide Eval, Compose, ThetaFor, Add, ThetaClamp, Lateness, WarpTheta, LowerBound;
    var alpha := inst.arcs[prev][v];
    var arrival := Compose(alpha, p.rho);
    ArrivalFromHorizon(inst, prev, v, p.rho);
    var q := WarpTheta(inst, v, tEnd, arrival, p.warp);
    if inst.hasWindows {
      ArrivalBounded(inst, prev, v, tEnd, p.rho);
      WarpThetaMeaning(inst, v, tEnd, arrival, p.warp);
      assert q.rho.ys[0] <= q.rho.ys[|q.rho.ys| - 1];
    } else {
      ShiftMeaning(inst, v, tEnd, arrival, p.warp);
    }
    forall t ensures PairDen(q, t) == WarpAfter(inst, prev, v, PairDen(p, t)) && (InDom(q.rho, t) ==> InDom(q.warp, t)) {
      assert Den(arrival, t) == AndThen(alpha, Den(p.rho, t));
    }
  }

  lemma DedupPair(inst: Problem, dedup: bool, q: WarpFunctions)
    requires GoodPair(inst, q)
    ensures var r := WarpFunctions(DedupIf(dedup, q.rho), DedupIf(dedup, q.warp));
            GoodPair(inst, r) && forall t :: PairDen(r, t) == PairDen(q, t)
  {
    hide Eval, DedupIf, LowerBound;
    DedupIfMeaning(dedup, q.rho);
    DedupIfMeaning(dedup, q.warp);
    var r := WarpFunctions(DedupIf(dedup, q.rho), DedupIf(dedup, q.warp));
    forall t ensures PairDen(r, t) == PairDen(q, t) && (InDom(r.rho, t) ==> InDom(r.warp, t)) {
      assert Den(r.rho, t) == Den(q.rho, t) && Den(r.warp, t) == Den(q.warp, t);
    }
  }

  /** One stop of the warp fold, dedup on or off, is the clamped step at every departure. */
  lemma WarpVisitMeaning(inst: Problem, prev: int, v: int, tEnd: real, dedup: bool, p: WarpFunctions)
    requires inst.Vertex(prev) && inst.Vertex(v) && Horizon(inst, tEnd) && GoodPair(inst, p)
    ensures GoodPair(inst, WarpVisit(inst, prev, v, tEnd, dedup, p))
    ensures forall t :: PairDen(WarpVisit(inst, prev, v, tEnd, dedup, p), t) == WarpAfter(inst, prev, v, PairDen(p, t))
  {
    hide Eval, Compose, WarpTheta, DedupIf, GoodPair;
    var alpha := inst.arcs[prev][v];
    var arrival := Compose(alpha, p.rho);
    ArrivalFromHorizon(inst, prev, v, p.rho);
    HardWallIsGood(inst);
    var r := WarpVisit(inst, prev, v, tEnd, dedup, p);
    if IsEmpty(arrival) {
      GoodEnters(inst, p);
      forall t ensures PairDen(r, t) == WarpAfter(inst, prev, v, PairDen(p, t)) {
        assert Den(arrival, t) == AndThen(alpha, Den(p.rho, t));
      }
    } else {
      WarpThetaStep(inst, prev, v, tEnd, p);
      DedupPair(inst, dedup, WarpTheta(inst, v, tEnd, arrival, p.warp));
    }
  }

  lemma GoodEnters(inst: Problem, p: WarpFunctions)
    requires GoodPair(inst, p)
    ensures Enters(inst, p.rho)
  {
  }

  lemma ShiftMeaning(inst: Problem, v: int, tEnd: real, arrival: Pwlf, warp: Pwlf)
    requires inst.Vertex(v) && Horizon(inst, tEnd) && !inst.hasWindows
    requires !IsEmpty(arrival) && inst.horizonStart <= arrival.ys[0] && 0.0 <= arrival.ys[|arrival.ys| - 1]
    ensures var q := WarpTheta(inst, v, tEnd, arrival, warp);
            && !IsEmpty(q.rho) && FromHorizon(inst, q.rho) && q.warp == warp
            && (forall t :: Den(q.rho, t) == Mapped(Den(arrival, t), a => a + inst.service[v]))
  {
    hide Eval, Compose;
    ThetaAfter(inst, v, arrival);
    assert Den(arrival, arrival.xs[0]).Some?;
  }

  function WarpFold(inst: Problem, from: int, stops: seq<int>, tEnd: real, dedup: bool, p: WarpFunctions): WarpFunctions
    requires inst.Vertex(from) && inst.Route(stops) && Horizon(inst, tEnd)
    decreases |stops|
  {
    if |stops| == 0 then p
    else
      var next := WarpVisit(inst, from, stops[0], tEnd, dedup, p);
      if IsEmpty(next.rho) then HARD_WALL else WarpFold(inst, stops[0], stops[1..], tEnd, dedup, next)
  }

  function WarpChainAfter(inst: Problem, from: int, stops: seq<int>, r: Option<(real, real)>): Option<(real, real)>
    requires inst.Vertex(from) && inst.Route(stops)
  {
    if r.Some? then WarpChain(inst, from, stops, r.value.0, r.value.1) else None
  }

  lemma {:induction false} WarpFoldMeaning(inst: Problem, from: int, stops: seq<int>, tEnd: real, dedup: bool, p: WarpFunctions)
    requires inst.Vertex(from) && inst.Route(stops) && Horizon(inst, tEnd) && GoodPair(inst, p)
    ensures var r := WarpFold(inst, from, stops, tEnd, dedup, p);
            GoodPair(inst, r) && forall t :: PairDen(r, t) == WarpChainAfter(inst, from, stops, PairDen(p, t))
    decreases |stops|
  {
    hide Eval, WarpVisit, WarpNext, GoodPair;
    if |stops| > 0 {
      var next := WarpVisit(inst, from, stops[0], tEnd, dedup, p);
      WarpVisitMeaning(inst, from, stops[0], tEnd, dedup, p);
      if IsEmpty(next.rho) {
        HardWallIsGood(inst);
      } else {
        WarpFoldMeaning(inst, stops[0], stops[1..], tEnd, dedup, next);
      }
      var r := WarpFold(inst, from, stops, tEnd, dedup, p);
      forall t ensures PairDen(r, t) == WarpChainAfter(inst, from, stops, PairDen(p, t)) {
        assert PairDen(next, t) == WarpAfter(inst, from, stops[0], PairDen(p, t));
      }
    }
  }

  lemma HardWallIsGood(inst: Problem)
    ensures GoodPair(inst, HARD_WALL)
  {
  }

  function ZeroOn(lo: real, hi: real): Pwlf
    requires lo <= hi
  {
    if lo == hi then Points([lo], [0.0]) else Points([lo, hi], [0.0, 0.0])
  }

  lemma ZeroOnMeaning(lo: real, hi: real, x: real)
    requires lo <= hi
    ensures Den(ZeroOn(lo, hi), x) == if lo <= x <= hi then Some(0.0) else None
  {
    var f := ZeroOn(lo, hi);
    if x == lo {
      EvalAtFirst(f, 0);
    } else if lo < x <= hi {
      EvalOnPiece(f, 1, x);
      FlatChord(lo, hi, 0.0, x);
    }
  }

  /** The return step: clamp at the due date and book the excess. */
  function WarpReturnStep(inst: Problem, tEnd: real, arrival: Pwlf, warp: Pwlf): WarpFunctions
    requires Horizon(inst, tEnd)
  {
    if inst.hasWindows then
      WarpFunctions(Compose(ReturnClamp(inst.latest[0], tEnd), arrival),
                    Add(warp, Compose(Lateness(inst.latest[0], tEnd), arrival)))
    else WarpFunctions(arrival, warp)
  }

  /** Align the lateness channel with the final domain, then dedup. */
  function Align(dedup: bool, p: WarpFunctions): WarpFunctions
    requires !IsEmpty(p.rho)
  {
    var aligned := Add(p.warp, ZeroOn(p.rho.xs[0], p.rho.xs[|p.rho.xs| - 1]));
    WarpFunctions(DedupIf(dedup, p.rho), DedupIf(dedup, aligned))
  }

  function WarpClose(inst: Problem, last: int, tEnd: real, dedup: bool, p: WarpFunctions): WarpFunctions
    requires inst.Vertex(last) && Horizon(inst, tEnd)
  {
    var arrival := Compose(inst.arcs[last][0], p.rho);
    if IsEmpty(arrival) then HARD_WALL
    else
      var q := WarpReturnStep(inst, tEnd, arrival, p.warp);
      if IsEmpty(q.rho) then HARD_WALL else Align(dedup, q)
  }

  /** warp_route_functions. */
  function WarpRouteFunctions(inst: Problem, route: seq<int>, tEnd: real, dedup: bool): WarpFunctions
    requires inst.Route(route) && Horizon(inst, tEnd)
  {
    var low, high := DepartureLow(inst), DepartureHigh(inst);
    if low > high then HARD_WALL
    else
      var p := WarpFold(inst, 0, route, tEnd, dedup, WarpFunctions(Identity(low, high), ZeroOn(low, high)));
      if IsEmpty(p.rho) then HARD_WALL else WarpClose(inst, Last(0, route), tEnd, dedup, p)
  }

  lemma WarpReturnStepMeaning(inst: Problem, tEnd: real, arrival: Pwlf, warp: Pwlf)
    requires Horizon(inst, tEnd) && !IsEmpty(arrival)
    requires inst.hasWindows ==> forall t :: InDom(arrival, t) ==> 0.0 <= Eval(arrival, t) <= tEnd
    ensures var q := WarpReturnStep(inst, tEnd, arrival, warp); var d := inst.latest[0];
            && !IsEmpty(q.rho)
            && (inst.hasWindows ==>
                  && (forall t :: Den(q.rho, t) == Mapped(Den(arrival, t), a => Min(a, d)))
                  && (forall t :: Den(q.warp, t) == Plus(Den(warp, t), Mapped(Den(arrival, t), a => Max(0.0, a - d)))))
  {
    hide Den, Compose, ReturnClamp, Lateness, Add;
    if inst.hasWindows {
      assert inst.Vertex(0);
      var d := inst.latest[0];
      forall z ensures Den(ReturnClamp(d, tEnd), z) == if 0.0 <= z <= tEnd then Some((a => Min(a, d))(z)) else None {
        ReturnClampMeaning(d, tEnd, z);
      }
      ReturnClampMeaning(d, tEnd, 0.0);
      TotalAfter(ReturnClamp(d, tEnd), arrival, tEnd, a => Min(a, d));
      forall z ensures Den(Lateness(d, tEnd), z) == if 0.0 <= z <= tEnd then Some((a => Max(0.0, a - d))(z)) else None {
        LatenessMeaning(d, tEnd, z);
      }
      LatenessMeaning(d, tEnd, 0.0);
      TotalAfter(Lateness(d, tEnd), arrival, tEnd, a => Max(0.0, a - d));
      AddMeaning(warp, Compose(Lateness(d, tEnd), arrival));
    }
  }

  lemma AlignMeaning(dedup: bool, p: WarpFunctions)
    requires !IsEmpty(p.rho) && forall t :: InDom(p.rho, t) ==> InDom(p.warp, t)
    ensures var r := Align(dedup, p);
            && SameDomain(r.rho, r.warp)
            && (forall t :: PairDen(r, t) == PairDen(p, t)) && (forall t :: InDom(r.rho, t) <==> InDom(p.rho, t))
  {
    hide Eval, Add, Dedup, ZeroOn;
    var lo, hi := p.rho.xs[0], p.rho.xs[|p.rho.xs| - 1];
    var aligned := Add(p.warp, ZeroOn(lo, hi));
    AddMeaning(p.warp, ZeroOn(lo, hi));
    DedupIfMeaning(dedup, p.rho);
    DedupIfMeaning(dedup, aligned);
    var r := Align(dedup, p);
    forall t ensures Den(r.rho, t) == Den(p.rho, t) && Den(r.warp, t) == if InDom(p.rho, t) then Den(p.warp, t) else None {
      ZeroOnMeaning(lo, hi, t);
      assert Den(r.warp, t) == Den(aligned, t);
    }
    forall t ensures PairDen(r, t) == PairDen(p, t) && (InDom(r.rho, t) <==> InDom(r.warp, t)) && (InDom(r.rho, t) <==> InDom(p.rho, t)) {
      assert Den(r.rho, t) == Den(p.rho, t);
    }
  }

  function WarpReturnAfter(inst: Problem, last: int, r: Option<(real, real)>): Option<(real, real)>
    requires inst.Vertex(last)
  {
    if r.Some? then WarpReturn(inst, last, r.value.0, r.value.1) else None
  }

  lemma WarpCloseMeaning(inst: Problem, last: int, tEnd: real, dedup: bool, p: WarpFunctions)
    requires inst.Vertex(last) && Horizon(inst, tEnd) && GoodPair(inst, p)
    ensures var r := WarpClose(inst, last, tEnd, dedup, p);
            && SameDomain(r.rho, r.warp) && (forall t :: PairDen(r, t) == WarpReturnAfter(inst, last, PairDen(p, t)))
  {
    hide Eval, Compose, Add, Dedup, Align, WarpReturnStep;
    var alpha := inst.arcs[last][0];
    var arrival := Compose(alpha, p.rho);
    ArrivalFromHorizon(inst, last, 0, p.rho);
    forall t ensures Den(arrival, t) == AndThen(alpha, Den(p.rho, t)) {}
    var r := WarpClose(inst, last, tEnd, dedup, p);
    if !IsEmpty(arrival) {
      if inst.hasWindows { ArrivalBounded(inst, last, 0, tEnd, p.rho); }
      var q := WarpReturnStep(inst, tEnd, arrival, p.warp);
      WarpReturnStepMeaning(inst, tEnd, arrival, p.warp);
      if !inst.hasWindows { FreeReturnStep(inst, tEnd, arrival, p.warp); }
      forall t ensures (InDom(q.rho, t) ==> InDom(q.warp, t)) && PairDen(q, t) == WarpReturnAfter(inst, last, PairDen(p, t)) {
        assert Den(arrival, t) == AndThen(alpha, Den(p.rho, t));
        if inst.hasWindows {
          assert Den(q.rho, t) == Mapped(Den(arrival, t), a => Min(a, inst.latest[0]));
        }
      }
      AlignMeaning(dedup, q);
    } else {
      forall t ensures PairDen(r, t) == WarpReturnAfter(inst, last, PairDen(p, t)) {
        assert Den(arrival, t) == None;
      }
    }
  }

  lemma FreeReturnStep(inst: Problem, tEnd: real, arrival: Pwlf, warp: Pwlf)
    requires Horizon(inst, tEnd) && !inst.hasWindows
    ensures WarpReturnStep(inst, tEnd, arrival, warp) == WarpFunctions(arrival, warp)
  {
  }

  /** The warp fold, dedup on or off, is the clamped simulation at every departure, and both
      channels always share a domain. */
  lemma WarpRouteFunctionsMeaning(inst: Problem, route: seq<int>, tEnd: real, dedup: bool)
    requires inst.Route(route) && Horizon(inst, tEnd)
    ensures var r := WarpRouteFunctions(inst, route, tEnd, dedup);
            && SameDomain(r.rho, r.warp)
            && (forall t :: PairDen(r, t) == WarpSimulate(inst, route, t))
  {
    hide Eval, WarpFold, WarpClose, WarpChain, WarpReturn, DepartureLow, DepartureHigh, GoodPair, MayLeave;
    var low, high := DepartureLow(inst), DepartureHigh(inst);
    var r := WarpRouteFunctions(inst, route, tEnd, dedup);
    forall t ensures MayLeave(inst, t) <==> low <= t <= high { DepartureWindow(inst, t); }
    if low <= high {
      var p0 := WarpFunctions(Identity(low, high), ZeroOn(low, high));
      StartPair(inst, low, high);
      WarpFoldMeaning(inst, 0, route, tEnd, dedup, p0);
      var p := WarpFold(inst, 0, route, tEnd, dedup, p0);
      if !IsEmpty(p.rho) { WarpCloseMeaning(inst, Last(0, route), tEnd, dedup, p); }
      forall t ensures PairDen(r, t) == WarpSimulate(inst, route, t) {
        DepartureWindow(inst, t);
        assert PairDen(p0, t) == if low <= t <= high then Some((t, 0.0)) else None;
        assert PairDen(p, t) == WarpChainAfter(inst, 0, route, PairDen(p0, t));
      }
    }
  }

  lemma StartPair(inst: Problem, low: real, high: real)
    requires low == DepartureLow(inst) && high == DepartureHigh(inst) && low <= high
    ensures GoodPair(inst, WarpFunctions(Identity(low, high), ZeroOn(low, high)))
    ensures forall t :: PairDen(WarpFunctions(Identity(low, high), ZeroOn(low, high)), t) ==
                        if low <= t <= high then Some((t, 0.0)) else None
  {
    hide Eval;
    forall t ensures Den(Identity(low, high), t) == (if low <= t <= high then Some(t) else None)
                     && Den(ZeroOn(low, high), t) == (if low <= t <= high then Some(0.0) else None)
    {
      IdentityMeaning(low, high, t);
      ZeroOnMeaning(low, high, t);
    }
    forall t ensures PairDen(WarpFunctions(Identity(low, high), ZeroOn(low, high)), t) ==
                     (if low <= t <= high then Some((t, 0.0)) else None)
    {
      assert Den(Identity(low, high), t) == (if low <= t <= high then Some(t) else None);
      assert Den(ZeroOn(low, high), t) == (if low <= t <= high then Some(0.0) else None);
    }
  }

  // ---------- evaluate_route_warp ----------

  datatype WarpRouteEval = WarpRouteEval(
    total: bool, feasible: bool, duration: real, departure: real,
    minWarp: real, penalised: real, penalisedDeparture: real)

  const NOT_TOTAL := WarpRouteEval(false, false, 0.0, 0.0, 0.0, 0.0, 0.0)

  /** The record read off a pair of functions (shared with the tree-ranked evaluation). */
  function Finish(p: WarpFunctions, penalty: real): WarpRouteEval
    requires penalty >= 0.0
  {
    if IsEmpty(p.rho) || IsEmpty(p.warp) then NOT_TOTAL
    else
      var zero, pen := MinZeroWarpDuration(p.rho, p.warp), MinPenalised(p.rho, p.warp, penalty);
      if pen.None? then NOT_TOTAL
      else
        WarpRouteEval(true, zero.Some?,
                      if zero.Some? then zero.value.value else 0.0, if zero.Some? then zero.value.argmin else 0.0,
                      p.warp.ys[0], pen.value.value, pen.value.argmin)
  }

  function EvaluateRouteWarp(inst: Problem, route: seq<int>, penalty: real, tEnd: real, dedup: bool): WarpRouteEval
    requires inst.Route(route) && Horizon(inst, tEnd) && penalty >= 0.0
  {
    Finish(WarpRouteFunctions(inst, route, tEnd, dedup), penalty)
  }

  /** A pair that denotes the clamped simulation of a route. */
  ghost predicate DenotesRoute(inst: Problem, route: seq<int>, p: WarpFunctions)
    requires inst.Route(route)
  {
    SameDomain(p.rho, p.warp) && forall t :: PairDen(p, t) == WarpSimulate(inst, route, t)
  }

  /** The zero-warp departures of such a pair are exactly the feasible departures, and rho is the
      ready-time function there. */
  lemma ZeroWarpIsFeasible(inst: Problem, route: seq<int>, p: WarpFunctions, t: real)
    requires inst.Route(route) && DenotesRoute(inst, route, p)
    ensures Simulate(inst, route, t).Some? <==> InDom(p.warp, t) && Eval(p.warp, t) == 0.0
    ensures Simulate(inst, route, t).Some? ==> Den(p.rho, t) == Simulate(inst, route, t)
    ensures InDom(p.warp, t) ==> Eval(p.warp, t) >= 0.0
  {
    hide Eval, WarpSimulate, Simulate;
    WarpSimulateAgrees(inst, route, t);
    assert PairDen(p, t) == WarpSimulate(inst, route, t);
  }

  lemma WarpStartsNonNegative(inst: Problem, route: seq<int>, p: WarpFunctions)
    requires inst.Route(route) && DenotesRoute(inst, route, p)
    ensures !IsEmpty(p.warp) ==> p.warp.ys[0] >= 0.0
  {
    hide WarpSimulate, Simulate;
    if !IsEmpty(p.warp) {
      EvalAtFirst(p.warp, 0);
      ZeroWarpIsFeasible(inst, route, p, p.warp.xs[0]);
    }
  }

  /** The zero-warp optimum of the pair is the optimum of the simulation. */
  lemma ZeroWarpOptimumIsBase(inst: Problem, route: seq<int>, p: WarpFunctions)
    requires inst.Route(route) && DenotesRoute(inst, route, p)
    ensures MinZeroWarpDuration(p.rho, p.warp) == EvaluateRoute(inst, route)
  {
    hide Eval, WarpSimulate, Simulate, EvaluateRoute, MinZeroWarpDuration, PairDen;
    WarpStartsNonNegative(inst, route, p);
    MinZeroWarpDurationMeaning(p.rho, p.warp);
    EvaluateRouteMeaning(inst, route);
    forall t
      ensures Simulate(inst, route, t).Some? <==> InDom(p.warp, t) && Eval(p.warp, t) == 0.0
      ensures Simulate(inst, route, t).Some? ==> Den(p.rho, t) == Simulate(inst, route, t)
      ensures InDom(p.warp, t) ==> Eval(p.warp, t) >= 0.0
    {
      ZeroWarpIsFeasible(inst, route, p, t);
    }
    var r, b := MinZeroWarpDuration(p.rho, p.warp), EvaluateRoute(inst, route);
    if r.Some? {
      assert Simulate(inst, route, r.value.argmin).Some?;
    }
    if b.Some? {
      assert InDom(p.rho, b.value.argmin);
    }
  }

  /** The record of any pair that denotes the clamped simulation. */
  lemma FinishMeaning(inst: Problem, route: seq<int>, p: WarpFunctions, penalty: real)
    requires inst.Route(route) && DenotesRoute(inst, route, p) && penalty >= 0.0
    ensures var out, base := Finish(p, penalty), EvaluateRoute(inst, route);
            && (out.total <==> exists t :: WarpSimulate(inst, route, t).Some?)
            && (out.feasible <==> base.Some?)
            && (out.feasible ==> out.total && out.minWarp == 0.0 && out.duration == base.value.value && out.departure == base.value.argmin)
            && (out.total ==> out.minWarp >= 0.0 && (out.minWarp == 0.0 ==> out.feasible)
                              && (exists t :: WarpSimulate(inst, route, t).Some? && WarpSimulate(inst, route, t).value.1 == out.minWarp)
                              && (forall t :: WarpSimulate(inst, route, t).Some? ==> out.minWarp <= WarpSimulate(inst, route, t).value.1))
            && (out.total ==> IsPenalisedRouteOptimum(inst, route, penalty, MinShift(out.penalised, out.penalisedDeparture)))
  {
    hide Eval, WarpSimulate, Simulate, EvaluateRoute, MinZeroWarpDuration, MinPenalised;
    ZeroWarpOptimumIsBase(inst, route, p);
    WarpStartsNonNegative(inst, route, p);
    MinPenalisedMeaning(p.rho, p.warp, penalty);
    if IsEmpty(p.rho) || IsEmpty(p.warp) {
      EvaluateRouteMeaning(inst, route);
      forall t ensures WarpSimulate(inst, route, t).None? && Simulate(inst, route, t).None? {
        assert PairDen(p, t) == None;
        WarpSimulateAgrees(inst, route, t);
      }
    } else {
      TotalPair(inst, route, p, penalty);
    }
  }

  /** The least of (return arrival - t) + penalty * lateness over all departures. */
  ghost predicate IsPenalisedRouteOptimum(inst: Problem, route: seq<int>, penalty: real, m: MinShift)
    requires inst.Route(route)
  {
    && WarpSimulate(inst, route, m.argmin).Some?
    && (var r := WarpSimulate(inst, route, m.argmin).value; r.0 - m.argmin + penalty * r.1 == m.value)
    && forall t :: WarpSimulate(inst, route, t).Some? ==>
         var r := WarpSimulate(inst, route, t).value; r.0 - t + penalty * r.1 >= m.value
  }

  lemma TotalPair(inst: Problem, route: seq<int>, p: WarpFunctions, penalty: real)
    requires inst.Route(route) && DenotesRoute(inst, route, p) && penalty >= 0.0
    requires !IsEmpty(p.rho) && !IsEmpty(p.warp)
    ensures var w := p.warp.ys[0];
            && (exists t :: WarpSimulate(inst, route, t).Some? && WarpSimulate(inst, route, t).value.1 == w)
            && (forall t :: WarpSimulate(inst, route, t).Some? ==> w <= WarpSimulate(inst, route, t).value.1)
            && (w == 0.0 <==> EvaluateRoute(inst, route).Some?)
    ensures var m := MinPenalised(p.rho, p.warp, penalty);
            m.Some? && IsPenalisedRouteOptimum(inst, route, penalty, m.value)
  {
    hide Eval, WarpSimulate, Simulate, EvaluateRoute, MinPenalised, LowerBound;
    var t0 := p.warp.xs[0];
    EvalAtFirst(p.warp, 0);
    assert PairDen(p, t0) == WarpSimulate(inst, route, t0);
    forall t | WarpSimulate(inst, route, t).Some? ensures p.warp.ys[0] <= WarpSimulate(inst, route, t).value.1 {
      assert PairDen(p, t) == WarpSimulate(inst, route, t);
      EvalBounds(p.warp, t);
    }
    EvaluateRouteMeaning(inst, route);
    ZeroWarpIsFeasible(inst, route, p, t0);
    forall t | Simulate(inst, route, t).Some? ensures p.warp.ys[0] <= 0.0 {
      ZeroWarpIsFeasible(inst, route, p, t);
      EvalBounds(p.warp, t);
    }
    MinPenalisedMeaning(p.rho, p.warp, penalty);
    var m := MinPenalised(p.rho, p.warp, penalty).value;
    assert PairDen(p, m.argmin) == WarpSimulate(inst, route, m.argmin);
    forall t | WarpSimulate(inst, route, t).Some?
      ensures var r := WarpSimulate(inst, route, t).value; r.0 - t + penalty * r.1 >= m.value
    {
      assert PairDen(p, t) == WarpSimulate(inst, route, t);
    }
  }

  /** The least total lateness over all departures. */
  ghost predicate IsLeastLateness(inst: Problem, route: seq<int>, least: real)
    requires inst.Route(route)
  {
    && (exists t :: WarpSimulate(inst, route, t).Some? && WarpSimulate(inst, route, t).value.1 == least)
    && forall t :: WarpSimulate(inst, route, t).Some? ==> least <= WarpSimulate(inst, route, t).value.1
  }

  /** evaluate_route_warp, at warp_horizon or any t_end beyond it, refines evaluate_route: feasible together, equal
      duration and departure, with dedup on or off, and zero minimal warp means feasible. */
  lemma WarpRefinesBase(inst: Problem, route: seq<int>, penalty: real, tEnd: real, dedup: bool)
    requires inst.Route(route) && Horizon(inst, tEnd) && penalty >= 0.0
    ensures var out, base := EvaluateRouteWarp(inst, route, penalty, tEnd, dedup), EvaluateRoute(inst, route);
            && (out.feasible <==> base.Some?)
            && (out.feasible <==> out.total && out.minWarp == 0.0)
            && (out.feasible ==> out.duration == base.value.value && out.departure == base.value.argmin)
            && (out.total <==> exists t :: WarpSimulate(inst, route, t).Some?)
            && (out.total ==> IsLeastLateness(inst, route, out.minWarp))
            && (out.total ==> IsPenalisedRouteOptimum(inst, route, penalty, MinShift(out.penalised, out.penalisedDeparture)))
  {
    hide WarpRouteFunctions, EvaluateRoute, Finish, WarpSimulate;
    WarpRouteFunctionsMeaning(inst, route, tEnd, dedup);
    FinishMeaning(inst, route, WarpRouteFunctions(inst, route, tEnd, dedup), penalty);
  }

  // ---------- the loop itself ----------

  method WarpRouteFunctionsLoop(inst: Problem, route: seq<int>, tEnd: real, dedup: bool) returns (p: WarpFunctions)
    requires inst.Route(route) && Horizon(inst, tEnd)
    ensures p == WarpRouteFunctions(inst, route, tEnd, dedup)
  {
    hide Compose, ThetaClamp, Lateness, ReturnClamp, Add, Dedup, Enters, FromHorizon;
    var low, high := DepartureLow(inst), DepartureHigh(inst);
    if low > high { return HARD_WALL; }
    var acc, warp := Identity(low, high), ZeroOn(low, high);
    var prev := 0;
    for k := 0 to |route|
      invariant inst.Vertex(prev) && prev == Last(0, route[..k])
      invariant WarpFold(inst, prev, route[k..], tEnd, dedup, WarpFunctions(acc, warp)) ==
                WarpFold(inst, 0, route, tEnd, dedup, WarpFunctions(Identity(low, high), ZeroOn(low, high)))
      invariant !IsEmpty(acc)
    {
      var v := route[k];
      assert inst.Customer(v);
      assert route[k..][0] == v && route[k..][1..] == route[k + 1..];
      assert route[..k + 1][|route[..k + 1]| - 1] == v;
      var q := WarpStop(inst, prev, v, tEnd, dedup, WarpFunctions(acc, warp));
      if IsEmpty(q.rho) { return HARD_WALL; }
      acc, warp, prev := q.rho, q.warp, v;
    }
    assert route[..|route|] == route;
    p := WarpEnd(inst, prev, tEnd, dedup, acc, warp);
  }

  /** One stop: arrival, clamp and lateness, dedup. */
  method WarpStop(inst: Problem, prev: int, v: int, tEnd: real, dedup: bool, p: WarpFunctions) returns (q: WarpFunctions)
    requires inst.Vertex(prev) && inst.Vertex(v) && Horizon(inst, tEnd)
    ensures q == WarpVisit(inst, prev, v, tEnd, dedup, p)
  {
    hide Compose, Lateness, Add, Dedup;
    var acc, warp := p.rho, p.warp;
    ArrivalFromHorizon(inst, prev, v, acc);
    var arrival := Compose(inst.arcs[prev][v], acc);
    if IsEmpty(arrival) { return HARD_WALL; }
    if inst.hasWindows {
      acc := Compose(ThetaClamp(inst.earliest[v], inst.latest[v], inst.service[v], tEnd), arrival);
      warp := Add(warp, Compose(Lateness(inst.latest[v], tEnd), arrival));
    } else {
      acc := Compose(ServiceShift(arrival.ys[|arrival.ys| - 1], inst.service[v]), arrival);
    }
    if IsEmpty(acc) { return HARD_WALL; }
    if dedup {
      acc, warp := Dedup(acc), Dedup(warp);
    }
    return WarpFunctions(acc, warp);
  }

  /** Return arc, due date, alignment. */
  method WarpEnd(inst: Problem, prev: int, tEnd: real, dedup: bool, acc0: Pwlf, warp0: Pwlf) returns (q: WarpFunctions)
    requires inst.Vertex(prev) && Horizon(inst, tEnd)
    ensures q == WarpClose(inst, prev, tEnd, dedup, WarpFunctions(acc0, warp0))
  {
    hide Compose, ReturnClamp, Lateness, Add, Dedup;
    var acc, warp := acc0, warp0;
    var arrival := Compose(inst.arcs[prev][0], acc);
    if IsEmpty(arrival) { return HARD_WALL; }
    if inst.hasWindows {
      assert inst.Vertex(0);
      var due := inst.latest[0];
      acc := Compose(ReturnClamp(due, tEnd), arrival);
      warp := Add(warp, Compose(Lateness(due, tEnd), arrival));
    } else {
      acc := arrival;
    }
    if IsEmpty(acc) { return HARD_WALL; }
    warp := Add(warp, ZeroOn(acc.xs[0], acc.xs[|acc.xs| - 1]));
    if dedup {
      acc, warp := Dedup(acc), Dedup(warp);
    }
    return WarpFunctions(acc, warp);
  }

  method EvaluateRouteWarpLoop(inst: Problem, route: seq<int>, penalty: real, tEnd: real, dedup: bool) returns (out: WarpRouteEval)
    requires inst.Route(route) && Horizon(inst, tEnd) && penalty >= 0.0
    ensures out == EvaluateRouteWarp(inst, route, penalty, tEnd, dedup)
    ensures out.feasible <==> EvaluateRoute(inst, route).Some?
    ensures out.feasible ==> MinShift(out.duration, out.departure) == EvaluateRoute(inst, route).value
  {
    hide WarpRouteFunctions, EvaluateRoute, Finish;
    var p := WarpRouteFunctionsLoop(inst, route, tEnd, dedup);
    out := Finish(p, penalty);
    WarpRefinesBase(inst, route, penalty, tEnd, dedup);
  }
}
