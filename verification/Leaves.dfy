/** Route leaves and bridges (cpp/ls/leaves.cpp): the route fold cut at its vertices, so that
    delta_r = L_m after ... after L_0 and any range of leaves denotes a stretch of the route. */
module RouteLeaves {
  import opened Common
  import opened Pwlfs
  import opened Composition
  import opened Instances
  import opened RouteEvaluation
  import opened LcaTrees

  /** theta_to after alpha_{from,to}; empty when the arc is absent. */
  function BridgeLeaf(inst: Problem, from: int, to: int): Pwlf
    requires inst.Vertex(from) && inst.Vertex(to)
  {
    var alpha := inst.arcs[from][to];
    assert GoodArc(inst.horizonStart, alpha);
    if IsEmpty(alpha) then EMPTY
    else
      assert alpha.ys[0] <= alpha.ys[|alpha.ys| - 1];
      Compose(ThetaFor(inst, to, alpha.ys[|alpha.ys| - 1]), alpha)
  }

  /** [due-date clamp after] alpha_{from,0}. */
  function ReturnLeaf(inst: Problem, from: int): Pwlf
    requires inst.Vertex(from)
  {
    var tail := inst.arcs[from][0];
    if inst.hasWindows && !IsEmpty(tail) then Compose(Identity(0.0, inst.latest[0]), tail) else tail
  }

  /** A function whose domain starts with the horizon and whose values never precede it: composing
      it after anything that stays at or above the horizon meets no lower wall. */
  predicate Inner(inst: Problem, f: Pwlf) {
    !IsEmpty(f) ==> f.xs[0] == inst.horizonStart && inst.horizonStart <= f.ys[0]
  }

  lemma BridgeLeafMeaning(inst: Problem, from: int, to: int)
    requires inst.Vertex(from) && inst.Vertex(to)
    ensures forall t :: Den(BridgeLeaf(inst, from, to), t) == ReadyNext(inst, from, to, t)
    ensures Inner(inst, BridgeLeaf(inst, from, to))
  {
    hide Eval, Compose, ThetaFor;
    var alpha := inst.arcs[from][to];
    assert GoodArc(inst.horizonStart, alpha);
    if !IsEmpty(alpha) {
      assert alpha.ys[0] <= alpha.ys[|alpha.ys| - 1];
      ThetaAfter(inst, to, alpha);
    }
  }

  lemma ReturnLeafMeaning(inst: Problem, from: int)
    requires inst.Vertex(from)
    ensures forall t :: Den(ReturnLeaf(inst, from), t) == ReturnArrival(inst, from, t)
    ensures Inner(inst, ReturnLeaf(inst, from))
  {
    hide Eval, Compose;
    assert inst.Vertex(0);
    var alpha := inst.arcs[from][0];
    assert GoodArc(inst.horizonStart, alpha);
    if inst.hasWindows && !IsEmpty(alpha) {
      var clamp := Identity(0.0, inst.latest[0]);
      forall t ensures Den(ReturnLeaf(inst, from), t) == ReturnArrival(inst, from, t) {
        ComposeAfter(clamp, alpha, t);
        if InDom(alpha, t) {
          EvalBounds(alpha, t);
          IdentityMeaning(0.0, inst.latest[0], Eval(alpha, t));
        }
      }
      ComposeAfter(clamp, alpha, 0.0);
      IdentityMeaning(0.0, inst.latest[0], alpha.ys[0]);
    }
  }

  /** Leaf k of a non-empty route, 0 <= k <= |route|. */
  function LeafAt(inst: Problem, route: seq<int>, k: int): Pwlf
    requires inst.Route(route) && |route| > 0 && 0 <= k <= |route|
  {
    if k == 0 then Visit(inst, 0, route[0], DepartureIdentity(inst))
    else if k < |route| then BridgeLeaf(inst, route[k - 1], route[k])
    else ReturnLeaf(inst, route[|route| - 1])
  }

  /** route_leaves: one leaf per arc of the tour, or a single empty leaf when the depot window is empty. */
  function LeavesOf(inst: Problem, route: seq<int>): (leaves: seq<Pwlf>)
    requires inst.Route(route) && |route| > 0
    ensures |leaves| == if DepartureLow(inst) > DepartureHigh(inst) then 1 else |route| + 1
  {
    if DepartureLow(inst) > DepartureHigh(inst) then [EMPTY]
    else seq(|route| + 1, k requires 0 <= k <= |route| => LeafAt(inst, route, k))
  }

  /** route_leaves as the loop of pushes; refuses the empty route. */
  method RouteLeavesLoop(inst: Problem, route: seq<int>) returns (leaves: Option<seq<Pwlf>>)
    requires inst.Route(route)
    ensures leaves == if |route| == 0 then None else Some(LeavesOf(inst, route))
  {
    hide Compose;
    if |route| == 0 { return None; }
    if DepartureLow(inst) > DepartureHigh(inst) { return Some([EMPTY]); }
    var dep := DepartureIdentity(inst);
    var head := Compose(inst.arcs[0][route[0]], dep);
    ArrivalFromHorizon(inst, 0, route[0], dep);
    if !IsEmpty(head) {
      head := Compose(ThetaFor(inst, route[0], head.ys[|head.ys| - 1]), head);
    }
    var out := [head];
    for k := 1 to |route|
      invariant |out| == k && forall j :: 0 <= j < k ==> out[j] == LeafAt(inst, route, j)
    {
      out := out + [BridgeLeaf(inst, route[k - 1], route[k])];
    }
    out := out + [ReturnLeaf(inst, route[|route| - 1])];
    assert out == LeavesOf(inst, route);
    return Some(out);
  }

  // ---------- stretches of a route ----------

  function Before(route: seq<int>, i: int): int
    requires 0 <= i <= |route|
  {
    if i == 0 then 0 else route[i - 1]
  }

  /** What leaves i..k-1 do to a ready time: chain through stops i..k-1, with the departure window
      in front when i = 0 and the depot return behind when k = |route| + 1. */
  function Stretch(inst: Problem, route: seq<int>, i: int, k: int, t: real): Option<real>
    requires inst.Route(route) && 0 <= i < k <= |route| + 1 && i <= |route|
  {
    var stop := if k <= |route| then k else |route|;
    if i == 0 && !MayLeave(inst, t) then None
    else
      var ready := Chain(inst, Before(route, i), route[i..stop], t);
      if k <= |route| then ready else ReturnAfter(inst, Before(route, |route|), ready)
  }

  lemma StretchJoins(inst: Problem, route: seq<int>, i: int, j: int, k: int, t: real)
    requires inst.Route(route) && 0 <= i < j < k <= |route| + 1
    ensures Stretch(inst, route, i, k, t) ==
            var mid := Stretch(inst, route, i, j, t); if mid.None? then None else Stretch(inst, route, j, k, mid.value)
  {
    hide Eval, ReadyNext, ReturnArrival, DepartureLow, DepartureHigh;
    var stop := if k <= |route| then k else |route|;
    assert route[i..stop] == route[i..j] + route[j..stop];
    ChainConcat(inst, Before(route, i), route[i..j], route[j..stop], t);
    assert Last(Before(route, i), route[i..j]) == route[j - 1];
  }

  /** v denotes the stretch i..k, and later stretches can be composed after it. */
  ghost predicate IsStretch(inst: Problem, route: seq<int>, v: Pwlf, i: int, k: int)
    requires inst.Route(route)
  {
    0 <= i < k <= |route| + 1 && i <= |route| ==>
      && FromHorizon(inst, v)
      && (i > 0 ==> Inner(inst, v))
      && forall t :: Den(v, t) == Stretch(inst, route, i, k, t)
  }

  lemma StretchesCompose(inst: Problem, route: seq<int>, a: Pwlf, b: Pwlf, i: int, j: int, k: int)
    requires inst.Route(route) && i < j < k && IsStretch(inst, route, b, i, j) && IsStretch(inst, route, a, j, k)
    ensures IsStretch(inst, route, Compose(a, b), i, k)
  {
    hide Eval, Compose, Stretch;
    if 0 <= i && k <= |route| + 1 {
      forall t ensures Den(Compose(a, b), t) == Stretch(inst, route, i, k, t) {
        ComposeAfter(a, b, t);
        StretchJoins(inst, route, i, j, k, t);
      }
      ComposeAfter(a, b, 0.0);
      if !IsEmpty(Compose(a, b)) {
        EvalBounds(a, b.ys[0]);
      }
    }
  }

  lemma LeafIsStretch(inst: Problem, route: seq<int>, k: int)
    requires inst.Route(route) && |route| > 0 && 0 <= k <= |route|
    ensures IsStretch(inst, route, LeafAt(inst, route, k), k, k + 1)
  {
    hide Eval, Visit, BridgeLeaf, ReturnLeaf, ReadyNext, ReturnArrival, DepartureIdentity;
    if k == 0 {
      DepartureIdentityMeaning(inst);
      VisitMeaning(inst, 0, route[0], DepartureIdentity(inst));
      assert route[0..1] == [route[0]];
      forall t ensures Den(LeafAt(inst, route, 0), t) == Stretch(inst, route, 0, 1, t) {
        assert Den(DepartureIdentity(inst), t) == if MayLeave(inst, t) then Some(t) else None;
        ChainOne(inst, 0, route[0], t);
      }
    } else if k < |route| {
      BridgeLeafMeaning(inst, route[k - 1], route[k]);
      assert route[k..k + 1] == [route[k]];
      forall t ensures Den(LeafAt(inst, route, k), t) == Stretch(inst, route, k, k + 1, t) {
        ChainOne(inst, route[k - 1], route[k], t);
      }
    } else {
      ReturnLeafMeaning(inst, route[k - 1]);
      assert route[k..k] == [];
    }
  }

  lemma ChainOne(inst: Problem, from: int, v: int, t: real)
    requires inst.Vertex(from) && inst.Customer(v)
    ensures inst.Route([v]) && Chain(inst, from, [v], t) == ReadyNext(inst, from, v, t)
  {
    hide Eval, ReadyNext;
    var r := ReadyNext(inst, from, v, t);
    assert [v][1..] == [];
    if r.Some? {
      assert Chain(inst, v, [], r.value) == r;
    }
  }

  /** For every tree over the leaves of a route and every lo <= hi, query(lo, hi) denotes exactly
      the stretch the plain left-to-right fold of leaves lo..hi denotes. */
  lemma QueryIsStretch(inst: Problem, route: seq<int>, lo: int, hi: int)
    requires inst.Route(route) && |route| > 0 && DepartureLow(inst) <= DepartureHigh(inst) && 0 <= lo <= hi <= |route|
    ensures IsStretch(inst, route, QueryOf(Compose, LeavesOf(inst, route), lo, hi), lo, hi + 1)
    ensures IsStretch(inst, route, RightChain(Compose, LeavesOf(inst, route), lo, hi + 1), lo, hi + 1)
  {
    hide Compose, Stretch, QueryOf, RightChain, LeafAt, IsStretch;
    var leaves := LeavesOf(inst, route);
    var P := (v: Pwlf, i: int, k: int) => IsStretch(inst, route, v, i, k);
    assert Splices(Compose, P) by {
      forall a: Pwlf, b: Pwlf, i: int, j: int, k: int | i < j < k && P(b, i, j) && P(a, j, k) ensures P(Compose(a, b), i, k) {
        StretchesCompose(inst, route, a, b, i, j, k);
      }
    }
    assert LeavesSatisfy(leaves, P) by {
      forall k | 0 <= k < |leaves| ensures P(leaves[k], k, k + 1) {
        LeafIsStretch(inst, route, k);
      }
    }
    QuerySplices(Compose, leaves, P, lo, hi);
  }
}
