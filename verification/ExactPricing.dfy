/** The search layer over the proved evaluators: what a local optimum means for the true objective, and
    why the penalised pricing is consistent with the plain one. */
module ExactPrices {
  import opened Common
  import opened Instances
  import opened RouteEvaluation
  import Splicing
  import WarpEvaluation
  import opened Neighbours
  import opened SearchStates
  import opened Staleness
  import opened LocalSearch
  import opened Descents
  import opened WarpSearches

  /** evaluate_route's duration, None when the list is not a route or not feasible. */
  function ExactFold(inst: Problem, r: seq<int>): Option<real> {
    if !inst.Route(r) then None
    else
      var e := EvaluateRoute(inst, r);
      if e.Some? then Some(e.value.value) else None
  }

  /** Some departure gets through the first p stops. */
  ghost predicate PrefixAlive(inst: Problem, r: seq<int>, p: int) {
    0 <= p <= |r| && inst.Route(r[..p]) && exists t :: Splicing.Prefix(inst, r[..p], t).Some?
  }

  /** The tree evaluators return evaluate_route of the edited list (Splicing.EvaluateSplice,
      Splicing.EvaluateIntraRelocate, Insertions.InsertionCandidates). */
  ghost function ExactPricing(inst: Problem): Pricing {
    Pricing(
      r => ExactFold(inst, r),
      (A, i1, j1, B, i2, j2) => if Splicing.SpliceIndices(|A|, i1, j1, |B|, i2, j2) then ExactFold(inst, Splicing.Spliced(A, i1, j1, B, i2, j2)) else None,
      (A, i, p) => if Splicing.RelocateIndices(|A|, i, p) then ExactFold(inst, Splicing.Relocated(A, i, p)) else None,
      (B, p, c) => if 0 <= p <= |B| then ExactFold(inst, InsertAt(B, p, c)) else None,
      (B, p) => PrefixAlive(inst, B, p))
  }

  ghost function ExactWorld(inst: Problem): World {
    World(inst, ExactPricing(inst))
  }

  // ---------- what a taken move is, exactly ----------

  function RouteCount(r: seq<int>): int { if |r| > 0 then 1 else 0 }

  /** The change of the true objective. */
  function TrueDelta(w: World, m: Move, A: seq<int>, B: seq<int>): real
    requires m.i < |A| && (m.Relocate? ==> m.p <= |B|) && (m.Swap? || m.TwoOpt? ==> m.j < |B|) && (m.Intra? ==> m.p <= |A| && m.p != m.i)
  {
    var a, b := NewA(m, A, B), NewB(m, A, B);
    if m.Intra? then Dur(w, a) - Dur(w, A)
    else (Dur(w, a) + Dur(w, b) + Fee(w, RouteCount(a) + RouteCount(b))) - (Dur(w, A) + Dur(w, B) + Fee(w, 2))
  }

  /** The relocate prefilter: the donor's gain, with the credit for emptying it. */
  function DonorGain(w: World, A: seq<int>, i: nat): real
    requires i < |A|
  {
    Dur(w, A) - Dur(w, RemoveAt(A, i)) + (if |A| == 1 then w.inst.fixedCost else 0.0)
  }

  /** A move that is feasible, fits, lowers the true objective by more than the screen, and for a
      relocate also gains on the donor's side alone. */
  predicate Improving(w: World, m: Move, A: seq<int>, B: seq<int>)
    requires m.i < |A| && (m.Relocate? ==> m.p <= |B|) && (m.Swap? || m.TwoOpt? ==> m.j < |B|) && (m.Intra? ==> m.p <= |A| && m.p != m.i)
  {
    var a, b := NewA(m, A, B), NewB(m, A, B);
    && Candidate(w, a).Some? && Candidate(w, b).Some?
    && Load(w.inst, a) <= w.inst.capacity && Load(w.inst, b) <= w.inst.capacity
    && TrueDelta(w, m, A, B) < -SCREEN_EPS
    && (m.Relocate? ==> DonorGain(w, A, m.i) > SCREEN_EPS)
  }

  lemma ExactEdits(A: seq<int>, i: nat, B: seq<int>, j: nat)
    requires i < |A| && j < |B|
    ensures Splicing.Spliced(A, i, i, A, 1, 0) == RemoveAt(A, i)
    ensures Splicing.Spliced(A, i, i, B, j, j) == A[i := B[j]]
    ensures Splicing.Spliced(A, i + 1, |A| - 1, B, j + 1, |B| - 1) == A[..i + 1] + B[j + 1..]
  {
    assert B[j..j + 1] == [B[j]];
  }

  lemma ExactMove(A: seq<int>, i: nat, p: nat)
    requires i < |A| && p <= |A| && p != i && p != i + 1
    ensures Splicing.Relocated(A, i, p) == MoveWithin(A, i, p)
  {
  }

  lemma ExactEmpty(inst: Problem)
    ensures ExactFold(inst, []) == None
  {
    Splicing.EmptyRouteInfeasible(inst);
  }

  /** The rankings are the fold of the edited lists. */
  lemma ExactRankings(inst: Problem, A: seq<int>, i: nat, B: seq<int>, j: nat)
    requires i < |A| && j < |B|
    ensures var f := ExactWorld(inst).price;
            && f.splice(A, i, i, A, 1, 0) == f.fold(RemoveAt(A, i))
            && f.splice(A, i, i, B, j, j) == f.fold(A[i := B[j]])
            && f.splice(A, i + 1, |A| - 1, B, j + 1, |B| - 1) == f.fold(A[..i + 1] + B[j + 1..])
  {
    hide ExactFold;
    ExactEdits(A, i, B, j);
  }

  lemma ExactInsertion(inst: Problem, B: seq<int>, p: nat, c: int)
    requires p <= |B|
    ensures ExactWorld(inst).price.insert(B, p, c) == ExactWorld(inst).price.fold(InsertAt(B, p, c))
    ensures ExactWorld(inst).price.fold(InsertAt(B, p, c)).Some? ==> PrefixReaches(ExactWorld(inst), B, p)
    ensures ExactWorld(inst).price.fold([]).None?
  {
    hide PrefixReaches, EvaluateRoute;
    ExactEmpty(inst);
    if ExactFold(inst, InsertAt(B, p, c)).Some? { InsertionIsAlive(inst, B, p, c); }
  }

  /** A candidate exists for a list exactly when it is empty or the fold accepts it. */
  lemma CandidateSome(w: World, r: seq<int>)
    ensures Candidate(w, r).Some? <==> |r| == 0 || w.price.fold(r).Some?
    ensures Candidate(w, r).Some? ==> |Candidate(w, r).value.vertices| == |r|
    ensures |r| > 0 && Candidate(w, r).Some? ==> Candidate(w, r).value.duration == Dur(w, r)
    ensures |r| == 0 ==> Candidate(w, r).value.duration == 0.0
  {
  }

  /** An insertion the fold accepts has a live prefix up to its position. */
  lemma InsertionIsAlive(inst: Problem, B: seq<int>, p: nat, c: int)
    requires p <= |B| && ExactFold(inst, InsertAt(B, p, c)).Some?
    ensures PrefixReaches(ExactWorld(inst), B, p)
  {
    hide EvaluateRoute, ReadyNext;
    var r := InsertAt(B, p, c);
    EvaluateRouteMeaning(inst, r);
    var t := EvaluateRoute(inst, r).value.argmin;
    assert Simulate(inst, r, t).Some?;
    forall q | 0 < q <= p ensures PrefixAlive(inst, B, q) {
      assert B[..q] + r[q..] == r;
      assert forall k :: 0 <= k < q ==> B[k] == r[k];
      assert inst.Route(B[..q]) && inst.Route(r[q..]);
      ChainConcat(inst, 0, B[..q], r[q..], t);
      assert Splicing.Prefix(inst, B[..q], t).Some?;
    }
  }

  lemma FeeSteps(w: World)
    ensures Fee(w, 0) == 0.0 && Fee(w, 1) == w.inst.fixedCost && Fee(w, 2) == w.inst.fixedCost + w.inst.fixedCost
  {
  }

  /** The fold takes every edit whose true delta is negative. */
  lemma FoldAgrees(w: World, m: Move, A: seq<int>, B: seq<int>)
    requires m.i < |A| && (m.Relocate? ==> m.p <= |B|) && (m.Swap? || m.TwoOpt? ==> m.j < |B|) && (m.Intra? ==> m.p <= |A| && m.p != m.i)
    requires w.price.fold([]).None?
    ensures FoldTakes(w, m, A, B) <==>
            Candidate(w, NewA(m, A, B)).Some? && Candidate(w, NewB(m, A, B)).Some? && TrueDelta(w, m, A, B) < 0.0
  {
    hide Candidate, Dur, Load, RemoveAt, InsertAt, MoveWithin, Fee;
    CandidateSome(w, NewA(m, A, B));
    CandidateSome(w, NewB(m, A, B));
    FeeSteps(w);
    EmptyDur(w);
    if m.Intra? { MovedSize(A, m.i, m.p); }
  }

  lemma EmptyDur(w: World)
    requires w.price.fold([]).None?
    ensures forall r: seq<int> :: |r| == 0 ==> Dur(w, r) == 0.0
  {
    forall r: seq<int> | |r| == 0 ensures Dur(w, r) == 0.0 { assert r == []; }
  }

  lemma MovedSize(A: seq<int>, i: nat, p: nat)
    requires i < |A| && p <= |A| && p != i
    ensures |MoveWithin(A, i, p)| == |A|
  {
  }

  lemma RelocateExact(inst: Problem, A: seq<int>, i: nat, B: seq<int>, p: nat, m: Move)
    requires i < |A| && p <= |B| && m.Relocate? && m.i == i && m.p == p
    requires inst.Route(A) && inst.Route(B) && Load(inst, A) <= inst.capacity
    ensures var w := ExactWorld(inst);
            (Screens(w, m, A, B) && FoldTakes(w, m, A, B)) <==> Improving(w, m, A, B)
  {
    hide ExactWorld, Load, Dur, FoldTakes, PrefixReaches, Fee, RemoveAt, InsertAt, Candidate;
    var w := ExactWorld(inst);
    var a, b := RemoveAt(A, i), InsertAt(B, p, A[i]);
    WorldIs(inst);
    RelocateBalances(w, A, i, B, p);
    ExactRankings(inst, A, i, A, i);
    ExactInsertion(inst, B, p, A[i]);
    FoldAgrees(w, m, A, B);
    CandidateSome(w, a);
    CandidateSome(w, b);
    FeeSteps(w);
    EmptyDur(w);
    DurIsFold(w, a);
    DurIsFold(w, b);
    EditSizes(A, i, B, p);
  }

  lemma WorldIs(inst: Problem)
    ensures ExactWorld(inst).inst == inst
  {
  }

  lemma EditSizes(A: seq<int>, i: nat, B: seq<int>, p: nat)
    requires i < |A| && p <= |B|
    ensures |RemoveAt(A, i)| == |A| - 1 && |InsertAt(B, p, A[i])| == |B| + 1
  {
  }

  lemma DurIsFold(w: World, r: seq<int>)
    ensures w.price.fold(r).Some? ==> Dur(w, r) == w.price.fold(r).value
  {
  }

  lemma IntraExact(inst: Problem, A: seq<int>, B: seq<int>, m: Move)
    requires m.Intra? && m.i < |A| && m.p <= |A| && m.p != m.i && m.p != m.i + 1
    requires inst.Route(A) && 0 <= Load(inst, A) <= inst.capacity
    ensures var w := ExactWorld(inst);
            (Screens(w, m, A, B) && FoldTakes(w, m, A, B)) <==> Improving(w, m, A, B)
  {
    hide EvaluateRoute, Dur, FoldTakes, Fee, PrefixAlive;
    var w := ExactWorld(inst);
    IntraBalances(w, A, m.i, m.p);
    ExactMove(A, m.i, m.p);
    ExactEmpty(inst);
    FoldAgrees(w, m, A, B);
    CandidateSome(w, MoveWithin(A, m.i, m.p));
    CandidateSome(w, []);
    DurIsFold(w, MoveWithin(A, m.i, m.p));
    MovedSize(A, m.i, m.p);
    assert Splicing.RelocateIndices(|A|, m.i, m.p);
  }

  lemma SwapExact(inst: Problem, A: seq<int>, B: seq<int>, m: Move)
    requires m.Swap? && m.i < |A| && m.j < |B| && inst.Route(A) && inst.Route(B)
    ensures var w := ExactWorld(inst);
            (Screens(w, m, A, B) && FoldTakes(w, m, A, B)) <==> Improving(w, m, A, B)
  {
    hide ExactWorld, Dur, FoldTakes, Fee, Load, Candidate;
    var w := ExactWorld(inst);
    var a, b := A[m.i := B[m.j]], B[m.j := A[m.i]];
    WorldIs(inst);
    SwapBalances(w, A, m.i, B, m.j);
    ExactRankings(inst, A, m.i, B, m.j);
    ExactRankings(inst, B, m.j, A, m.i);
    ExactInsertion(inst, B, 0, 0);
    FoldAgrees(w, m, A, B);
    PairExact(w, a, b);
  }

  lemma PairExact(w: World, a: seq<int>, b: seq<int>)
    requires |a| > 0 && |b| > 0
    ensures Candidate(w, a).Some? <==> w.price.fold(a).Some?
    ensures Candidate(w, b).Some? <==> w.price.fold(b).Some?
    ensures w.price.fold(a).Some? ==> Dur(w, a) == w.price.fold(a).value
    ensures w.price.fold(b).Some? ==> Dur(w, b) == w.price.fold(b).value
    ensures RouteCount(a) + RouteCount(b) == 2
  {
  }

  lemma TwoOptExact(inst: Problem, A: seq<int>, B: seq<int>, m: Move)
    requires m.TwoOpt? && m.i < |A| && m.j < |B| && inst.Route(A) && inst.Route(B)
    ensures var w := ExactWorld(inst);
            (Screens(w, m, A, B) && FoldTakes(w, m, A, B)) <==> Improving(w, m, A, B)
  {
    hide ExactWorld, Dur, FoldTakes, Fee, Load, Candidate;
    var w := ExactWorld(inst);
    var a, b := A[..m.i + 1] + B[m.j + 1..], B[..m.j + 1] + A[m.i + 1..];
    WorldIs(inst);
    TailsBalance(w, A, m.i + 1, B, m.j + 1);
    ExactRankings(inst, A, m.i, B, m.j);
    ExactRankings(inst, B, m.j, A, m.i);
    ExactInsertion(inst, B, 0, 0);
    FoldAgrees(w, m, A, B);
    PairExact(w, a, b);
  }

  /** With exact pricing a pass takes precisely the improving moves. */
  lemma TakesAreImproving(inst: Problem, tours: seq<Tour>, m: Move)
    requires ToursOk(ExactWorld(inst), tours) && ValidMove(Routes(tours), m)
    ensures var w := ExactWorld(inst);
            Takes(w, Routes(tours), m) <==> Improving(w, m, tours[m.a].vertices, tours[OtherRoute(m)].vertices)
  {
    hide EvaluateRoute, Screens, FoldTakes, Improving, PrefixAlive, Load;
    var w := ExactWorld(inst);
    assert TourOk(w, tours[m.a]) && TourOk(w, tours[OtherRoute(m)]);
    var A, B := tours[m.a].vertices, tours[OtherRoute(m)].vertices;
    LoadNonNegative(w, A);
    match m
    case Relocate(_, i, _, p) => RelocateExact(inst, A, i, B, p, m);
    case Intra(_, _, _) => IntraExact(inst, A, B, m);
    case Swap(_, _, _, _) => SwapExact(inst, A, B, m);
    case TwoOpt(_, _, _, _) => TwoOptExact(inst, A, B, m);
  }

  /** Where a descent stops without a deadline, no justified move of any operator improves the true
      objective. */
  lemma LocalOptimumIsTrue(inst: Problem, nb: NeighbourLists, tours: seq<Tour>, m: Move)
    requires Sound(nb, inst.n) && ToursOk(ExactWorld(inst), tours) && LocalOptimum(ExactWorld(inst), nb, tours)
    requires OnClients(inst.n, Routes(tours)) && ValidMove(Routes(tours), m) && Justified(inst.n, nb, Routes(tours), m)
    ensures !Improving(ExactWorld(inst), m, tours[m.a].vertices, tours[OtherRoute(m)].vertices)
  {
    hide Improving, Takes, ExactPricing, ToursOk;
    assert Exhausted(ExactWorld(inst), nb, tours, OpOf(m));
    TakesAreImproving(inst, tours, m);
  }

  // ---------- the penalised pricing ----------

  function Weight(penalty: real): real { if penalty >= 0.0 then penalty else 0.0 }

  /** The record of the augmented fold (WarpSplicing.BuildWarpRouteState, EvaluateSpliceWarp). */
  ghost function WarpRecord(inst: Problem, tEnd: real, r: seq<int>, penalty: real): WarpEvaluation.WarpRouteEval
    requires WarpEvaluation.Horizon(inst, tEnd)
  {
    if inst.Route(r) then WarpEvaluation.EvaluateRouteWarp(inst, r, Weight(penalty), tEnd, true) else WarpEvaluation.NOT_TOTAL
  }

  ghost function ExactWarpPricing(inst: Problem, tEnd: real): WarpPricing
    requires WarpEvaluation.Horizon(inst, tEnd)
  {
    WarpPricing(
      r => var e := WarpRecord(inst, tEnd, r, 0.0);
           if e.total then Some(WarpPrice(e.minWarp, if e.feasible then Some(e.duration) else None)) else None,
      (r, penalty) => WarpRecord(inst, tEnd, r, penalty).penalised,
      (A, i1, j1, B, i2, j2, penalty) =>
        if Splicing.SpliceIndices(|A|, i1, j1, |B|, i2, j2) then
          var e := WarpRecord(inst, tEnd, Splicing.Spliced(A, i1, j1, B, i2, j2), penalty);
          if e.total then Some(e.penalised) else None
        else None)
  }

  /** At any t_end from warp_horizon on, the penalised pricing is consistent with the plain one. */
  lemma ExactIsConsistent(inst: Problem, tEnd: real)
    requires WarpEvaluation.Horizon(inst, tEnd)
    ensures Consistent(WarpWorld(ExactWorld(inst), ExactWarpPricing(inst, tEnd)))
  {
    hide EvaluateRoute, WarpEvaluation.EvaluateRouteWarp, PrefixAlive;
    var ww := WarpWorld(ExactWorld(inst), ExactWarpPricing(inst, tEnd));
    forall r | inst.Route(r)
      ensures (ww.w.price.fold(r).Some? <==> ww.warp.build(r).Some? && ww.warp.build(r).value.minWarp == 0.0)
      ensures ww.w.price.fold(r).Some? ==> ww.warp.build(r).value.zero == ww.w.price.fold(r)
    {
      WarpEvaluation.WarpRefinesBase(inst, r, 0.0, tEnd, true);
    }
  }
}
