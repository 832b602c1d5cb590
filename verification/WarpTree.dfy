/** Warp segments and their tree (cpp/ls/warp_tree.cpp). A segment is a pair of functions of the
    entry ready time: the clamped exit ready time and the lateness booked inside. Concatenation is
    composition on the first channel and accumulation on the second. */
module WarpTrees {
  import opened Common
  import opened Pwlfs
  import opened Composition
  import opened Scans
  import opened Summation
  import opened Deduplication
  import opened VertexFunctions
  import opened Instances
  import opened RouteEvaluation
  import opened RouteLeaves
  import opened WarpEvaluation
  import opened LcaTrees

  function DedupBoth(p: WarpFunctions): WarpFunctions {
    WarpFunctions(Dedup(p.rho), Dedup(p.warp))
  }

  lemma DedupBothMeaning(p: WarpFunctions)
    ensures forall t :: Den(DedupBoth(p).rho, t) == Den(p.rho, t) && Den(DedupBoth(p).warp, t) == Den(p.warp, t)
    ensures FirstOf(DedupBoth(p).rho) == FirstOf(p.rho) && TopOf(DedupBoth(p).rho) == TopOf(p.rho)
  {
    hide Dedup, Den;
    DedupIfMeaning(true, p.rho);
    DedupIfMeaning(true, p.warp);
    assert DedupIf(true, p.rho) == Dedup(p.rho) && DedupIf(true, p.warp) == Dedup(p.warp);
  }

  /** warp_concat: the earlier segment is entered first; an empty rho is a hard wall and propagates. */
  function WarpConcat(later: WarpFunctions, earlier: WarpFunctions): WarpFunctions {
    if IsEmpty(later.rho) || IsEmpty(earlier.rho) then HARD_WALL
    else
      var rho := Compose(later.rho, earlier.rho);
      if IsEmpty(rho) then HARD_WALL
      else DedupBoth(WarpFunctions(rho, Add(earlier.warp, Compose(later.warp, earlier.rho))))
  }

  /** Both channels share a domain, and nothing about the segment can cut a later step. */
  ghost predicate Segment(inst: Problem, s: WarpFunctions) {
    Enters(inst, s.rho) && SameDomain(s.rho, s.warp)
  }

  ghost predicate InnerSegment(inst: Problem, s: WarpFunctions) {
    Segment(inst, s) && (!IsEmpty(s.rho) ==> s.rho.xs[0] == inst.horizonStart)
  }

  lemma SameDomainEnds(f: Pwlf, g: Pwlf)
    requires SameDomain(f, g)
    ensures IsEmpty(f) <==> IsEmpty(g)
    ensures !IsEmpty(f) ==> f.xs[0] == g.xs[0] && f.xs[|f.xs| - 1] == g.xs[|g.xs| - 1]
  {
    if !IsEmpty(f) {
      assert InDom(f, f.xs[0]) && InDom(f, f.xs[|f.xs| - 1]);
    }
    if !IsEmpty(g) {
      assert InDom(g, g.xs[0]) && InDom(g, g.xs[|g.xs| - 1]);
    }
  }

  /** Then(a, b): run b at the exit of a, adding up the lateness. */
  function Then(r: Option<(real, real)>, later: WarpFunctions): Option<(real, real)> {
    if r.None? then None
    else
      var s := PairDen(later, r.value.0);
      if s.None? then None else Some((s.value.0, r.value.1 + s.value.1))
  }

  /** Composition of an inner function after anything that enters it. */
  lemma InnerAfter(inst: Problem, f: Pwlf, g: Pwlf)
    requires Enters(inst, g) && (!IsEmpty(f) ==> f.xs[0] == inst.horizonStart)
    ensures forall t :: Den(Compose(f, g), t) == AndThen(f, Den(g, t))
    ensures var h := Compose(f, g);
            !IsEmpty(h) ==> && !IsEmpty(f) && !IsEmpty(g) && h.xs[0] == g.xs[0]
                            && f.ys[0] <= h.ys[0] && h.ys[|h.ys| - 1] <= f.ys[|f.ys| - 1]
  {
    hide Eval, Compose;
    ConstantIsNotCut(f, g);
    ComposeExactIff(f, g);
    ComposeMeaning(f, g);
    if Meets(f, g) { EvalBounds(f, Low(f, g)); }
  }

  lemma ConcatMeaning(inst: Problem, later: WarpFunctions, earlier: WarpFunctions)
    requires Segment(inst, earlier) && InnerSegment(inst, later)
    ensures var s := WarpConcat(later, earlier);
            && Segment(inst, s)
            && (!IsEmpty(s.rho) ==> s.rho.xs[0] == earlier.rho.xs[0])
            && (InnerSegment(inst, earlier) ==> InnerSegment(inst, s))
            && forall t :: PairDen(s, t) == Then(PairDen(earlier, t), later)
  {
    hide Eval, Compose, Add, Dedup;
    SameDomainEnds(later.rho, later.warp);
    InnerAfter(inst, later.rho, earlier.rho);
    InnerAfter(inst, later.warp, earlier.rho);
    var rho, carried := Compose(later.rho, earlier.rho), Compose(later.warp, earlier.rho);
    var s := WarpConcat(later, earlier);
    if IsEmpty(later.rho) || IsEmpty(earlier.rho) || IsEmpty(rho) {
      HardWallSegment(inst);
      forall t ensures PairDen(s, t) == Then(PairDen(earlier, t), later) {
        assert Den(rho, t) == AndThen(later.rho, Den(earlier.rho, t));
      }
    } else {
      var raw := WarpFunctions(rho, Add(earlier.warp, carried));
      AddMeaning(earlier.warp, carried);
      DedupBothMeaning(raw);
      forall t ensures PairDen(s, t) == Then(PairDen(earlier, t), later) && (InDom(s.rho, t) <==> InDom(s.warp, t)) {
        assert Den(s.rho, t) == Den(rho, t) == AndThen(later.rho, Den(earlier.rho, t));
        assert Den(s.warp, t) == Den(raw.warp, t) == Plus(Den(earlier.warp, t), Den(carried, t));
        assert Den(carried, t) == AndThen(later.warp, Den(earlier.rho, t));
        if InDom(earlier.rho, t) {
          assert InDom(later.rho, Eval(earlier.rho, t)) <==> InDom(later.warp, Eval(earlier.rho, t));
        }
      }
      assert rho.ys[0] <= rho.ys[|rho.ys| - 1];
    }
  }

  lemma HardWallSegment(inst: Problem)
    ensures InnerSegment(inst, HARD_WALL)
  {
  }

  /** Concatenation is associative up to pointwise equality of both channels. */
  lemma ConcatAssociative(inst: Problem, a: WarpFunctions, b: WarpFunctions, c: WarpFunctions, t: real)
    requires InnerSegment(inst, a) && InnerSegment(inst, b) && Segment(inst, c)
    ensures PairDen(WarpConcat(a, WarpConcat(b, c)), t) == PairDen(WarpConcat(WarpConcat(a, b), c), t)
  {
    hide PairDen, WarpConcat, Segment;
    ConcatMeaning(inst, b, c);
    ConcatMeaning(inst, a, WarpConcat(b, c));
    ConcatMeaning(inst, a, b);
    ConcatMeaning(inst, WarpConcat(a, b), c);
    var r := PairDen(c, t);
    if r.Some? {
      assert PairDen(WarpConcat(a, b), r.value.0) == Then(PairDen(b, r.value.0), a);
    }
  }

  // ---------- leaves ----------

  /** zero_like. */
  function ZeroLike(rho: Pwlf): Pwlf {
    if IsEmpty(rho) then EMPTY else ZeroOn(rho.xs[0], rho.xs[|rho.xs| - 1])
  }

  /** Clamp and lateness at vertex v for a given arrival function, deduplicated. */
  function StopLeaf(inst: Problem, v: int, tEnd: real, arrival: Pwlf): WarpFunctions
    requires inst.Vertex(v) && Horizon(inst, tEnd)
    requires !IsEmpty(arrival) ==> 0.0 <= arrival.ys[|arrival.ys| - 1]
  {
    if IsEmpty(arrival) then HARD_WALL
    else if inst.hasWindows then
      DedupBoth(WarpFunctions(Compose(ThetaClamp(inst.earliest[v], inst.latest[v], inst.service[v], tEnd), arrival),
                              Compose(Lateness(inst.latest[v], tEnd), arrival)))
    else
      var rho := Compose(ServiceShift(arrival.ys[|arrival.ys| - 1], inst.service[v]), arrival);
      DedupBoth(WarpFunctions(rho, ZeroLike(rho)))
  }

  lemma ArcImage(inst: Problem, i: int, j: int)
    requires inst.Vertex(i) && inst.Vertex(j)
    ensures var a := inst.arcs[i][j];
            !IsEmpty(a) ==> && a.xs[0] == inst.horizonStart <= a.ys[0] <= a.ys[|a.ys| - 1]
                            && (forall t :: InDom(a, t) ==> inst.horizonStart <= Eval(a, t) <= a.ys[|a.ys| - 1])
  {
    hide Eval;
    var a := inst.arcs[i][j];
    assert GoodArc(inst.horizonStart, a);
    if !IsEmpty(a) {
      assert a.ys[0] <= a.ys[|a.ys| - 1];
      forall t | InDom(a, t) ensures inst.horizonStart <= Eval(a, t) <= a.ys[|a.ys| - 1] { EvalBounds(a, t); }
    }
  }

  function WarpBridgeLeaf(inst: Problem, from: int, to: int, tEnd: real): WarpFunctions
    requires inst.Vertex(from) && inst.Vertex(to) && Horizon(inst, tEnd)
  {
    ArcImage(inst, from, to);
    StopLeaf(inst, to, tEnd, inst.arcs[from][to])
  }

  function WarpReturnLeaf(inst: Problem, from: int, tEnd: real): WarpFunctions
    requires inst.Vertex(from) && Horizon(inst, tEnd)
  {
    var alpha := inst.arcs[from][0];
    if IsEmpty(alpha) then HARD_WALL
    else if inst.hasWindows then
      assert inst.Vertex(0);
      DedupBoth(WarpFunctions(Compose(ReturnClamp(inst.latest[0], tEnd), alpha), Compose(Lateness(inst.latest[0], tEnd), alpha)))
    else DedupBoth(WarpFunctions(alpha, ZeroLike(alpha)))
  }

  /** One clamped stop from an arrival. */
  function ClampStop(inst: Problem, v: int, a: Option<real>): Option<(real, real)>
    requires inst.Vertex(v)
  {
    if a.None? then None
    else if inst.hasWindows
    then Some((Max(inst.earliest[v], Min(a.value, inst.latest[v])) + inst.service[v], Max(0.0, a.value - inst.latest[v])))
    else Some((a.value + inst.service[v], 0.0))
  }

  lemma ZeroLikeMeaning(rho: Pwlf)
    ensures forall t :: Den(ZeroLike(rho), t) == if InDom(rho, t) then Some(0.0) else None
  {
    hide Eval, ZeroOn;
    if !IsEmpty(rho) {
      forall t ensures Den(ZeroLike(rho), t) == if InDom(rho, t) then Some(0.0) else None {
        ZeroOnMeaning(rho.xs[0], rho.xs[|rho.xs| - 1], t);
      }
    }
  }

  lemma StopLeafMeaning(inst: Problem, v: int, tEnd: real, arrival: Pwlf)
    requires inst.Vertex(v) && Horizon(inst, tEnd)
    requires !IsEmpty(arrival) ==> inst.horizonStart <= arrival.ys[0] <= arrival.ys[|arrival.ys| - 1]
    requires inst.hasWindows ==> forall t :: InDom(arrival, t) ==> 0.0 <= Eval(arrival, t) <= tEnd
    ensures var s := StopLeaf(inst, v, tEnd, arrival);
            && Segment(inst, s) && (!IsEmpty(s.rho) ==> !IsEmpty(arrival) && s.rho.xs[0] == arrival.xs[0])
            && forall t :: PairDen(s, t) == ClampStop(inst, v, Den(arrival, t))
  {
    hide Eval, Compose, ThetaClamp, Lateness, Dedup, ServiceShift;
    var s := StopLeaf(inst, v, tEnd, arrival);
    if !IsEmpty(arrival) {
      if inst.hasWindows {
        WindowLeafMeaning(inst, v, tEnd, arrival);
      } else {
        FreeLeafMeaning(inst, v, tEnd, arrival);
      }
    }
  }

  lemma WindowLeafMeaning(inst: Problem, v: int, tEnd: real, arrival: Pwlf)
    requires inst.Vertex(v) && Horizon(inst, tEnd) && inst.hasWindows && !IsEmpty(arrival)
    requires inst.horizonStart <= arrival.ys[0] <= arrival.ys[|arrival.ys| - 1]
    requires forall t :: InDom(arrival, t) ==> 0.0 <= Eval(arrival, t) <= tEnd
    ensures var s := StopLeaf(inst, v, tEnd, arrival);
            && Segment(inst, s) && !IsEmpty(s.rho) && s.rho.xs[0] == arrival.xs[0]
            && forall t :: PairDen(s, t) == ClampStop(inst, v, Den(arrival, t))
  {
    hide Eval, Compose, ThetaClamp, Lateness, Dedup;
    var e, l, sv := inst.earliest[v], inst.latest[v], inst.service[v];
    var s := StopLeaf(inst, v, tEnd, arrival);
    var clamp, late := Compose(ThetaClamp(e, l, sv, tEnd), arrival), Compose(Lateness(l, tEnd), arrival);
    ClampLeaf(e, l, sv, tEnd, arrival);
    LateLeaf(l, tEnd, arrival);
    DedupBothMeaning(WarpFunctions(clamp, late));
    forall t ensures PairDen(s, t) == ClampStop(inst, v, Den(arrival, t)) && (InDom(s.rho, t) <==> InDom(s.warp, t)) {
      assert Den(s.rho, t) == Den(clamp, t) == Clamped(e, l, sv, Den(arrival, t));
      assert Den(s.warp, t) == Den(late, t) == LateBy(l, Den(arrival, t));
    }
    assert FirstOf(s.rho) == FirstOf(clamp) && TopOf(s.rho) == TopOf(clamp);
  }

  function Clamped(e: real, l: real, sv: real, arrival: Option<real>): Option<real> {
    if arrival.Some? then Some(Max(e, Min(arrival.value, l)) + sv) else None
  }

  function LateBy(l: real, arrival: Option<real>): Option<real> {
    if arrival.Some? then Some(Max(0.0, arrival.value - l)) else None
  }

  /** The clamp channel of a window leaf. */
  lemma ClampLeaf(e: real, l: real, sv: real, tEnd: real, arrival: Pwlf)
    requires 0.0 <= e <= l <= tEnd && !IsEmpty(arrival) && forall t :: InDom(arrival, t) ==> 0.0 <= Eval(arrival, t) <= tEnd
    ensures var clamp := Compose(ThetaClamp(e, l, sv, tEnd), arrival);
            && !IsEmpty(clamp) && clamp.xs[0] == arrival.xs[0] && clamp.ys[0] == Max(e, Min(arrival.ys[0], l)) + sv
            && clamp.ys[0] <= clamp.ys[|clamp.ys| - 1] <= l + sv
            && forall t :: Den(clamp, t) == Clamped(e, l, sv, Den(arrival, t))
  {
    hide Eval, Compose, ThetaClamp;
    var v: real -> real := a => Max(e, Min(a, l)) + sv;
    forall z ensures Den(ThetaClamp(e, l, sv, tEnd), z) == if 0.0 <= z <= tEnd then Some(v(z)) else None {
      ThetaClampMeaning(e, l, sv, tEnd, z);
    }
    ThetaClampMeaning(e, l, sv, tEnd, 0.0);
    TotalAfter(ThetaClamp(e, l, sv, tEnd), arrival, tEnd, v);
    ComposeMeaning(ThetaClamp(e, l, sv, tEnd), arrival);
    assert Sorted(Compose(ThetaClamp(e, l, sv, tEnd), arrival).ys);
  }

  /** The lateness channel of a window leaf. */
  lemma LateLeaf(l: real, tEnd: real, arrival: Pwlf)
    requires 0.0 <= l <= tEnd && !IsEmpty(arrival) && forall t :: InDom(arrival, t) ==> 0.0 <= Eval(arrival, t) <= tEnd
    ensures var late := Compose(Lateness(l, tEnd), arrival);
            forall t :: Den(late, t) == LateBy(l, Den(arrival, t))
  {
    hide Eval, Compose, Lateness;
    var v: real -> real := a => Max(0.0, a - l);
    forall z ensures Den(Lateness(l, tEnd), z) == if 0.0 <= z <= tEnd then Some(v(z)) else None {
      LatenessMeaning(l, tEnd, z);
    }
    LatenessMeaning(l, tEnd, 0.0);
    TotalAfter(Lateness(l, tEnd), arrival, tEnd, v);
  }

  lemma FreeLeafMeaning(inst: Problem, v: int, tEnd: real, arrival: Pwlf)
    requires inst.Vertex(v) && Horizon(inst, tEnd) && !inst.hasWindows && !IsEmpty(arrival)
    requires inst.horizonStart <= arrival.ys[0] <= arrival.ys[|arrival.ys| - 1]
    ensures var s := StopLeaf(inst, v, tEnd, arrival);
            && Segment(inst, s) && (!IsEmpty(s.rho) ==> s.rho.xs[0] == arrival.xs[0])
            && forall t :: PairDen(s, t) == ClampStop(inst, v, Den(arrival, t))
  {
    hide Eval, Compose, Dedup, ServiceShift, ZeroLike;
    var s := StopLeaf(inst, v, tEnd, arrival);
    var rho := Compose(ServiceShift(arrival.ys[|arrival.ys| - 1], inst.service[v]), arrival);
    ThetaAfter(inst, v, arrival);
    ZeroLikeMeaning(rho);
    DedupBothMeaning(WarpFunctions(rho, ZeroLike(rho)));
    forall t ensures PairDen(s, t) == ClampStop(inst, v, Den(arrival, t)) && (InDom(s.rho, t) <==> InDom(s.warp, t)) {
      assert Den(s.rho, t) == Den(rho, t) && Den(s.warp, t) == Den(ZeroLike(rho), t);
    }
  }

  lemma WarpBridgeLeafMeaning(inst: Problem, from: int, to: int, tEnd: real)
    requires inst.Vertex(from) && inst.Vertex(to) && Horizon(inst, tEnd)
    ensures InnerSegment(inst, WarpBridgeLeaf(inst, from, to, tEnd))
    ensures forall t :: PairDen(WarpBridgeLeaf(inst, from, to, tEnd), t) == WarpNext(inst, from, to, t, 0.0)
  {
    hide Eval, StopLeaf, PairDen;
    var alpha := inst.arcs[from][to];
    ArcImage(inst, from, to);
    StopLeafMeaning(inst, to, tEnd, alpha);
  }

  lemma WarpReturnLeafMeaning(inst: Problem, from: int, tEnd: real)
    requires inst.Vertex(from) && Horizon(inst, tEnd)
    ensures InnerSegment(inst, WarpReturnLeaf(inst, from, tEnd))
    ensures forall t :: PairDen(WarpReturnLeaf(inst, from, tEnd), t) == WarpReturn(inst, from, t, 0.0)
  {
    hide Eval, Compose, ReturnClamp, Lateness, Dedup, ZeroLike;
    assert inst.Vertex(0);
    var alpha := inst.arcs[from][0];
    ArcImage(inst, from, 0);
    var s := WarpReturnLeaf(inst, from, tEnd);
    if IsEmpty(alpha) {
    } else if inst.hasWindows {
      ReturnWindow(inst, from, tEnd);
    } else {
      ZeroLikeMeaning(alpha);
      DedupBothMeaning(WarpFunctions(alpha, ZeroLike(alpha)));
      forall t ensures PairDen(s, t) == WarpReturn(inst, from, t, 0.0) && (InDom(s.rho, t) <==> InDom(s.warp, t)) {
        assert Den(s.rho, t) == Den(alpha, t) && Den(s.warp, t) == Den(ZeroLike(alpha), t);
      }
    }
  }

  /** Clamp and lateness of a bounded arrival, deduplicated. */
  lemma ReturnPair(d: real, tEnd: real, alpha: Pwlf, s: WarpFunctions)
    requires 0.0 <= d <= tEnd && !IsEmpty(alpha)
    requires forall t :: InDom(alpha, t) ==> 0.0 <= Eval(alpha, t) <= tEnd
    requires s == DedupBoth(WarpFunctions(Compose(ReturnClamp(d, tEnd), alpha), Compose(Lateness(d, tEnd), alpha)))
    ensures forall t :: Den(s.rho, t) == Mapped(Den(alpha, t), a => Min(a, d)) && Den(s.warp, t) == Mapped(Den(alpha, t), a => Max(0.0, a - d))
    ensures !IsEmpty(s.rho) && s.rho.xs[0] == alpha.xs[0] && s.rho.ys[0] == Min(alpha.ys[0], d) && s.rho.ys[|s.rho.ys| - 1] <= d
  {
    hide Eval, Compose, ReturnClamp, Lateness, Dedup;
    var clamp, late := Compose(ReturnClamp(d, tEnd), alpha), Compose(Lateness(d, tEnd), alpha);
    forall z ensures Den(ReturnClamp(d, tEnd), z) == if 0.0 <= z <= tEnd then Some((a => Min(a, d))(z)) else None {
      ReturnClampMeaning(d, tEnd, z);
    }
    ReturnClampMeaning(d, tEnd, 0.0);
    TotalAfter(ReturnClamp(d, tEnd), alpha, tEnd, a => Min(a, d));
    forall z ensures Den(Lateness(d, tEnd), z) == if 0.0 <= z <= tEnd then Some((a => Max(0.0, a - d))(z)) else None {
      LatenessMeaning(d, tEnd, z);
    }
    LatenessMeaning(d, tEnd, 0.0);
    TotalAfter(Lateness(d, tEnd), alpha, tEnd, a => Max(0.0, a - d));
    ComposeMeaning(ReturnClamp(d, tEnd), alpha);
    DedupBothMeaning(WarpFunctions(clamp, late));
    forall t ensures Den(s.rho, t) == Mapped(Den(alpha, t), a => Min(a, d)) && Den(s.warp, t) == Mapped(Den(alpha, t), a => Max(0.0, a - d)) {
      assert Den(s.rho, t) == Den(clamp, t) && Den(s.warp, t) == Den(late, t);
    }
  }

  lemma ReturnWindow(inst: Problem, from: int, tEnd: real)
    requires inst.Vertex(from) && Horizon(inst, tEnd) && inst.hasWindows && !IsEmpty(inst.arcs[from][0])
    ensures InnerSegment(inst, WarpReturnLeaf(inst, from, tEnd))
    ensures forall t :: PairDen(WarpReturnLeaf(inst, from, tEnd), t) == WarpReturn(inst, from, t, 0.0)
  {
    hide Eval, Compose, ReturnClamp, Lateness, Dedup, DedupBoth;
    assert inst.Vertex(0);
    var alpha, d := inst.arcs[from][0], inst.latest[0];
    assert forall t :: InDom(alpha, t) ==> 0.0 <= Eval(alpha, t) <= tEnd by { ArcImage(inst, from, 0); }
    assert alpha.xs[0] == inst.horizonStart <= alpha.ys[0] by { ArcImage(inst, from, 0); }
    var s := WarpReturnLeaf(inst, from, tEnd);
    ReturnPair(d, tEnd, alpha, s);
    assert s.rho.ys[0] <= s.rho.ys[|s.rho.ys| - 1];
    forall t ensures PairDen(s, t) == WarpReturn(inst, from, t, 0.0) && (InDom(s.rho, t) <==> InDom(s.warp, t)) {
      assert Den(s.rho, t) == Mapped(Den(alpha, t), a => Min(a, d));
    }
  }

  /** Leaf k of warp_route_leaves. */
  function WarpLeafAt(inst: Problem, route: seq<int>, tEnd: real, k: int): WarpFunctions
    requires inst.Route(route) && |route| > 0 && 0 <= k <= |route| && Horizon(inst, tEnd)
  {
    if k == 0 then
      ArrivalFromHorizon(inst, 0, route[0], DepartureIdentity(inst));
      StopLeaf(inst, route[0], tEnd, Compose(inst.arcs[0][route[0]], DepartureIdentity(inst)))
    else if k < |route| then WarpBridgeLeaf(inst, route[k - 1], route[k], tEnd)
    else WarpReturnLeaf(inst, route[|route| - 1], tEnd)
  }

  function WarpLeavesOf(inst: Problem, route: seq<int>, tEnd: real): (leaves: seq<WarpFunctions>)
    requires inst.Route(route) && |route| > 0 && Horizon(inst, tEnd)
    ensures |leaves| == |route| + 1
  {
    seq(|route| + 1, k requires 0 <= k <= |route| => WarpLeafAt(inst, route, tEnd, k))
  }

  // ---------- stretches ----------

  /** What leaves i..k-1 do: clamped chain, with the lateness booked on the way. */
  function WarpStretch(inst: Problem, route: seq<int>, i: int, k: int, t: real): Option<(real, real)>
    requires inst.Route(route) && 0 <= i < k <= |route| + 1 && i <= |route|
  {
    var stop := if k <= |route| then k else |route|;
    if i == 0 && !MayLeave(inst, t) then None
    else
      var ready := WarpChain(inst, Before(route, i), route[i..stop], t, 0.0);
      if k <= |route| then ready else WarpReturnAfter(inst, Before(route, |route|), ready)
  }

  /** Lateness booked before the stretch just adds up. */
  lemma {:induction false} WarpChainShift(inst: Problem, from: int, stops: seq<int>, t: real, w: real)
    requires inst.Vertex(from) && inst.Route(stops)
    ensures var a, b := WarpChain(inst, from, stops, t, 0.0), WarpChain(inst, from, stops, t, w);
            && a.Some? == b.Some?
            && (a.Some? ==> b.value.0 == a.value.0 && b.value.1 == w + a.value.1)
    decreases |stops|
  {
    hide Eval;
    if |stops| > 0 {
      var a, b := WarpNext(inst, from, stops[0], t, 0.0), WarpNext(inst, from, stops[0], t, w);
      if a.Some? {
        WarpChainShift(inst, stops[0], stops[1..], a.value.0, a.value.1);
        WarpChainShift(inst, stops[0], stops[1..], b.value.0, b.value.1);
      }
    }
  }

  lemma {:induction false} WarpChainConcat(inst: Problem, from: int, a: seq<int>, b: seq<int>, t: real, w: real)
    requires inst.Vertex(from) && inst.Route(a) && inst.Route(b)
    ensures inst.Route(a + b)
    ensures WarpChain(inst, from, a + b, t, w) ==
            WarpChainAfter(inst, Last(from, a), b, WarpChain(inst, from, a, t, w))
    decreases |a|
  {
    hide Eval, WarpNext;
    if |a| == 0 {
      assert a + b == b;
    } else {
      assert (a + b)[1..] == a[1..] + b;
      var next := WarpNext(inst, from, a[0], t, w);
      if next.Some? {
        WarpChainConcat(inst, a[0], a[1..], b, next.value.0, next.value.1);
      }
    }
  }

  function Accrue(w: real, r: Option<(real, real)>): Option<(real, real)> {
    if r.None? then None else Some((r.value.0, w + r.value.1))
  }

  lemma WarpStretchJoins(inst: Problem, route: seq<int>, i: int, j: int, k: int, t: real)
    requires inst.Route(route) && 0 <= i < j < k <= |route| + 1
    ensures WarpStretch(inst, route, i, k, t) ==
            var mid := WarpStretch(inst, route, i, j, t);
            if mid.None? then None else Accrue(mid.value.1, WarpStretch(inst, route, j, k, mid.value.0))
  {
    hide Eval, WarpNext, DepartureLow, DepartureHigh;
    var stop := if k <= |route| then k else |route|;
    assert route[i..stop] == route[i..j] + route[j..stop];
    WarpChainConcat(inst, Before(route, i), route[i..j], route[j..stop], t, 0.0);
    assert Last(Before(route, i), route[i..j]) == route[j - 1];
    var mid := WarpChain(inst, Before(route, i), route[i..j], t, 0.0);
    if mid.Some? {
      WarpChainShift(inst, route[j - 1], route[j..stop], mid.value.0, mid.value.1);
    }
  }

  ghost predicate IsWarpStretch(inst: Problem, route: seq<int>, s: WarpFunctions, i: int, k: int)
    requires inst.Route(route)
  {
    0 <= i < k <= |route| + 1 && i <= |route| ==>
      && Segment(inst, s)
      && (i > 0 ==> InnerSegment(inst, s))
      && forall t :: PairDen(s, t) == WarpStretch(inst, route, i, k, t)
  }

  lemma WarpStretchesCompose(inst: Problem, route: seq<int>, a: WarpFunctions, b: WarpFunctions, i: int, j: int, k: int)
    requires inst.Route(route) && i < j < k && IsWarpStretch(inst, route, b, i, j) && IsWarpStretch(inst, route, a, j, k)
    ensures IsWarpStretch(inst, route, WarpConcat(a, b), i, k)
  {
    hide PairDen, WarpConcat, WarpStretch, Segment;
    if 0 <= i && k <= |route| + 1 {
      ConcatMeaning(inst, a, b);
      forall t ensures PairDen(WarpConcat(a, b), t) == WarpStretch(inst, route, i, k, t) {
        WarpStretchJoins(inst, route, i, j, k, t);
      }
    }
  }

  lemma WarpChainOne(inst: Problem, from: int, v: int, t: real)
    requires inst.Vertex(from) && inst.Customer(v)
    ensures inst.Route([v]) && WarpChain(inst, from, [v], t, 0.0) == WarpNext(inst, from, v, t, 0.0)
  {
    hide Eval, WarpNext;
    var r := WarpNext(inst, from, v, t, 0.0);
    assert [v][1..] == [];
    if r.Some? {
      assert WarpChain(inst, v, [], r.value.0, r.value.1) == r;
    }
  }

  lemma WarpHeadIsStretch(inst: Problem, route: seq<int>, tEnd: real)
    requires inst.Route(route) && |route| > 0 && Horizon(inst, tEnd)
    ensures IsWarpStretch(inst, route, WarpLeafAt(inst, route, tEnd, 0), 0, 1)
    ensures !IsEmpty(WarpLeafAt(inst, route, tEnd, 0).rho) ==> WarpLeafAt(inst, route, tEnd, 0).rho.xs[0] == DepartureLow(inst)
  {
    hide Eval, Compose, StopLeaf, PairDen, DepartureIdentity;
    var dep := DepartureIdentity(inst);
    DepartureIdentityMeaning(inst);
    var v := route[0];
    var arrival := Compose(inst.arcs[0][v], dep);
    ArrivalFromHorizon(inst, 0, v, dep);
    if inst.hasWindows { ArrivalBounded(inst, 0, v, tEnd, dep); }
    ComposeAfter(inst.arcs[0][v], dep, 0.0);
    if !IsEmpty(arrival) { assert arrival.ys[0] <= arrival.ys[|arrival.ys| - 1]; }
    StopLeafMeaning(inst, v, tEnd, arrival);
    assert route[0..1] == [v];
    forall t ensures PairDen(WarpLeafAt(inst, route, tEnd, 0), t) == WarpStretch(inst, route, 0, 1, t) {
      WarpChainOne(inst, 0, v, t);
      assert Den(arrival, t) == AndThen(inst.arcs[0][v], Den(dep, t));
      assert Den(dep, t) == if MayLeave(inst, t) then Some(t) else None;
    }
  }

  lemma WarpLeafIsStretch(inst: Problem, route: seq<int>, tEnd: real, k: int)
    requires inst.Route(route) && |route| > 0 && 0 <= k <= |route| && Horizon(inst, tEnd)
    ensures IsWarpStretch(inst, route, WarpLeafAt(inst, route, tEnd, k), k, k + 1)
  {
    hide PairDen, WarpBridgeLeaf, WarpReturnLeaf, WarpNext, WarpReturn, Segment;
    if k == 0 {
      WarpHeadIsStretch(inst, route, tEnd);
    } else if k < |route| {
      WarpBridgeLeafMeaning(inst, route[k - 1], route[k], tEnd);
      assert route[k..k + 1] == [route[k]];
      SegmentOf(inst, WarpBridgeLeaf(inst, route[k - 1], route[k], tEnd));
      forall t ensures PairDen(WarpLeafAt(inst, route, tEnd, k), t) == WarpStretch(inst, route, k, k + 1, t) {
        WarpChainOne(inst, route[k - 1], route[k], t);
      }
    } else {
      WarpReturnLeafMeaning(inst, route[k - 1], tEnd);
      SegmentOf(inst, WarpReturnLeaf(inst, route[k - 1], tEnd));
      assert route[k..k] == [];
    }
  }

  lemma SegmentOf(inst: Problem, s: WarpFunctions)
    requires InnerSegment(inst, s)
    ensures Segment(inst, s)
  {
  }

  /** Every query of the warp tree denotes the same stretch as the plain left-to-right fold, and its
      two channels share a domain. */
  lemma WarpQueryIsStretch(inst: Problem, route: seq<int>, tEnd: real, lo: int, hi: int)
    requires inst.Route(route) && |route| > 0 && Horizon(inst, tEnd) && 0 <= lo <= hi <= |route|
    ensures IsWarpStretch(inst, route, QueryOf(WarpConcat, WarpLeavesOf(inst, route, tEnd), lo, hi), lo, hi + 1)
    ensures IsWarpStretch(inst, route, RightChain(WarpConcat, WarpLeavesOf(inst, route, tEnd), lo, hi + 1), lo, hi + 1)
  {
    hide WarpConcat, WarpStretch, QueryOf, RightChain, WarpLeafAt, IsWarpStretch;
    var leaves := WarpLeavesOf(inst, route, tEnd);
    var P := (s: WarpFunctions, i: int, k: int) => IsWarpStretch(inst, route, s, i, k);
    assert Splices(WarpConcat, P) by {
      forall a: WarpFunctions, b: WarpFunctions, i: int, j: int, k: int | i < j < k && P(b, i, j) && P(a, j, k) ensures P(WarpConcat(a, b), i, k) {
        WarpStretchesCompose(inst, route, a, b, i, j, k);
      }
    }
    assert LeavesSatisfy(leaves, P) by {
      forall k | 0 <= k < |leaves| ensures P(leaves[k], k, k + 1) {
        WarpLeafIsStretch(inst, route, tEnd, k);
      }
    }
    QuerySplices(WarpConcat, leaves, P, lo, hi);
  }
}
