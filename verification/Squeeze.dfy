/** The squeeze (cpp/ls/squeeze.cpp): a penalised descent that may pass through time-window violations
    but only ever hands back warp-free work. Both entry points end because they spend a work budget. */
module Squeezes {
  import opened Common
  import opened Oracles
  import opened Instances
  import opened Neighbours
  import opened SearchStates
  import opened Staleness
  import opened LocalSearch
  import opened Descents
  import opened WarpSearches

  const REPAIR_PENALTY := 100000000.0

  // ---------- penalised totals ----------

  /** The sum the descent lowers: warp_state_cost over all routes. */
  ghost function PenalisedTotal(ww: WarpWorld, states: seq<WarpTour>, penalty: real): real {
    if |states| == 0 then 0.0
    else PenalisedTotal(ww, states[..|states| - 1], penalty) + ww.warp.cost(states[|states| - 1].vertices, penalty)
  }

  lemma {:induction false} ReplaceTotal(ww: WarpWorld, states: seq<WarpTour>, k: nat, t: WarpTour, penalty: real)
    requires k < |states|
    ensures PenalisedTotal(ww, states[k := t], penalty) ==
            PenalisedTotal(ww, states, penalty) - ww.warp.cost(states[k].vertices, penalty) + ww.warp.cost(t.vertices, penalty)
    decreases |states|
  {
    var n := |states| - 1;
    if k < n {
      ReplaceTotal(ww, states[..n], k, t, penalty);
      assert states[k := t][..n] == states[..n][k := t];
    } else {
      assert states[k := t][..n] == states[..n];
    }
  }

  lemma SwapEraseTotal(ww: WarpWorld, states: seq<WarpTour>, r: nat, penalty: real)
    requires r < |states|
    ensures PenalisedTotal(ww, SwapErase(states, r), penalty) == PenalisedTotal(ww, states, penalty) - ww.warp.cost(states[r].vertices, penalty)
  {
    var last := |states| - 1;
    if r != last {
      ReplaceTotal(ww, states[..last], r, states[last], penalty);
      assert SwapErase(states, r) == states[..last][r := states[last]];
    }
  }

  /** A commit: same clients, no more routes, a penalised total lower by more than the screen. */
  ghost predicate Advances(ww: WarpWorld, states: seq<WarpTour>, states': seq<WarpTour>, penalty: real) {
    && |states'| <= |states|
    && PenalisedTotal(ww, states', penalty) < PenalisedTotal(ww, states, penalty) - SCREEN_EPS
  }

  // ---------- trying one move ----------

  function Cost1(ww: WarpWorld, t: WarpTour, penalty: real): real {
    ww.warp.cost(t.vertices, penalty)
  }

  /** removal_cost: 0 for a singleton. */
  function RemovalCost(ww: WarpWorld, t: WarpTour, i: nat, penalty: real): Option<real> {
    if |t.vertices| == 1 then Some(0.0) else ww.warp.splice(t.vertices, i, i, t.vertices, 1, 0, penalty)
  }

  lemma RelocateAdvances(ww: WarpWorld, states: seq<WarpTour>, r1: nat, t1: Option<WarpTour>, r2: nat, t2: WarpTour, penalty: real)
    requires r1 < |states| && r2 < |states| && r1 != r2
    requires (if t1.Some? then Cost1(ww, t1.value, penalty) else 0.0) + Cost1(ww, t2, penalty) <
             Cost1(ww, states[r1], penalty) + Cost1(ww, states[r2], penalty) - SCREEN_EPS
    ensures Advances(ww, states, if t1.Some? then states[r2 := t2][r1 := t1.value] else SwapErase(states[r2 := t2], r1), penalty)
  {
    hide PenalisedTotal;
    ReplaceTotal(ww, states, r2, t2, penalty);
    if t1.Some? {
      ReplaceTotal(ww, states[r2 := t2], r1, t1.value, penalty);
    } else {
      SwapEraseTotal(ww, states[r2 := t2], r1, penalty);
    }
  }

  /** What the two edited lists of a relocate are good for. */
  lemma RelocateFits(ww: WarpWorld, states: seq<WarpTour>, r1: nat, i: nat, r2: nat, p: nat)
    requires AllOk(ww, states) && r1 < |states| && r2 < |states| && r1 != r2 && i < |states[r1].vertices| && p <= |states[r2].vertices|
    requires states[r2].load + DemandOf(ww.w.inst, states[r1].vertices[i]) <= ww.w.inst.capacity
    ensures var a, b := RemoveAt(states[r1].vertices, i), InsertAt(states[r2].vertices, p, states[r1].vertices[i]);
            && PairBalanced(states, r1, a, r2, b) && ww.w.inst.Route(a) && ww.w.inst.Route(b) && |b| > 0
            && Load(ww.w.inst, a) <= ww.w.inst.capacity && Load(ww.w.inst, b) <= ww.w.inst.capacity
  {
    hide Load;
    assert WarpTourOk(ww, states[r1]) && WarpTourOk(ww, states[r2]);
    RelocateBalances(ww.w, states[r1].vertices, i, states[r2].vertices, p);
  }

  lemma SwapFits(ww: WarpWorld, states: seq<WarpTour>, r1: nat, i: nat, r2: nat, j: nat)
    requires AllOk(ww, states) && r1 < |states| && r2 < |states| && r1 != r2 && i < |states[r1].vertices| && j < |states[r2].vertices|
    requires var c, v := states[r1].vertices[i], states[r2].vertices[j];
             && states[r1].load - DemandOf(ww.w.inst, c) + DemandOf(ww.w.inst, v) <= ww.w.inst.capacity
             && states[r2].load - DemandOf(ww.w.inst, v) + DemandOf(ww.w.inst, c) <= ww.w.inst.capacity
    ensures var a, b := states[r1].vertices[i := states[r2].vertices[j]], states[r2].vertices[j := states[r1].vertices[i]];
            && PairBalanced(states, r1, a, r2, b) && ww.w.inst.Route(a) && ww.w.inst.Route(b) && |a| > 0 && |b| > 0
            && Load(ww.w.inst, a) <= ww.w.inst.capacity && Load(ww.w.inst, b) <= ww.w.inst.capacity
  {
    hide Load;
    assert WarpTourOk(ww, states[r1]) && WarpTourOk(ww, states[r2]);
    SwapBalances(ww.w, states[r1].vertices, i, states[r2].vertices, j);
  }

  /** A relocate pays: ranked and rebuilt strictly better by more than the screen. */
  predicate RelocatePays(ww: WarpWorld, s1: WarpTour, i: nat, s2: WarpTour, p: nat, removal: real, penalty: real)
    requires i < |s1.vertices| && p <= |s2.vertices|
  {
    var A, B := s1.vertices, s2.vertices;
    var cost1, cost2 := Cost1(ww, s1, penalty), Cost1(ww, s2, penalty);
    var ins := ww.warp.splice(B, p, p - 1, A, i, i, penalty);
    var t1, t2 := BuildWarpTour(ww, RemoveAt(A, i), penalty), BuildWarpTour(ww, InsertAt(B, p, A[i]), penalty);
    && ins.Some? && (removal + ins.value) - (cost1 + cost2) < -SCREEN_EPS
    && t2.Some? && (|A| > 1 ==> t1.Some?)
    && Cost1(ww, t2.value, penalty) + (if |A| > 1 then Cost1(ww, t1.value, penalty) else 0.0) < cost1 + cost2 - SCREEN_EPS
  }

  predicate SwapPays(ww: WarpWorld, s1: WarpTour, i: nat, s2: WarpTour, j: nat, penalty: real)
    requires i < |s1.vertices| && j < |s2.vertices|
  {
    var A, B := s1.vertices, s2.vertices;
    var cost1, cost2 := Cost1(ww, s1, penalty), Cost1(ww, s2, penalty);
    var e1, e2 := ww.warp.splice(A, i, i, B, j, j, penalty), ww.warp.splice(B, j, j, A, i, i, penalty);
    var t1, t2 := BuildWarpTour(ww, A[i := B[j]], penalty), BuildWarpTour(ww, B[j := A[i]], penalty);
    && s1.load - DemandOf(ww.w.inst, A[i]) + DemandOf(ww.w.inst, B[j]) <= ww.w.inst.capacity
    && s2.load - DemandOf(ww.w.inst, B[j]) + DemandOf(ww.w.inst, A[i]) <= ww.w.inst.capacity
    && e1.Some? && e2.Some? && (e1.value + e2.value) - (cost1 + cost2) < -SCREEN_EPS
    && t1.Some? && t2.Some? && Cost1(ww, t1.value, penalty) + Cost1(ww, t2.value, penalty) < cost1 + cost2 - SCREEN_EPS
  }

  /** Pricings a relocate attempt spends. */
  function RelocateCharge(ww: WarpWorld, s1: WarpTour, i: nat, s2: WarpTour, p: nat, removal: real, penalty: real): nat
    requires i < |s1.vertices| && p <= |s2.vertices|
  {
    var A, B := s1.vertices, s2.vertices;
    var ins := ww.warp.splice(B, p, p - 1, A, i, i, penalty);
    if ins.None? || !((removal + ins.value) - (Cost1(ww, s1, penalty) + Cost1(ww, s2, penalty)) < -SCREEN_EPS) then 1
    else if BuildWarpTour(ww, InsertAt(B, p, A[i]), penalty).None? || |A| == 1 then 2
    else 3
  }

  /** Pricings a swap attempt spends. */
  function SwapCharge(ww: WarpWorld, s1: WarpTour, i: nat, s2: WarpTour, j: nat, penalty: real): nat
    requires i < |s1.vertices| && j < |s2.vertices|
  {
    var A, B := s1.vertices, s2.vertices;
    var e1, e2 := ww.warp.splice(A, i, i, B, j, j, penalty), ww.warp.splice(B, j, j, A, i, i, penalty);
    if s1.load - DemandOf(ww.w.inst, A[i]) + DemandOf(ww.w.inst, B[j]) > ww.w.inst.capacity
       || s2.load - DemandOf(ww.w.inst, B[j]) + DemandOf(ww.w.inst, A[i]) > ww.w.inst.capacity then 0
    else if e1.None? then 1
    else if e2.None? || !((e1.value + e2.value) - (Cost1(ww, s1, penalty) + Cost1(ww, s2, penalty)) < -SCREEN_EPS) then 2
    else 4
  }

  lemma RemovedSize(r: seq<int>, i: nat)
    requires i < |r|
    ensures |RemoveAt(r, i)| == |r| - 1
  {
  }

  // ---------- what the stamps are worth ----------

  /** The search state as a value. */
  datatype View = View(states: seq<WarpTour>, routeOf: seq<int>, posOf: seq<int>, routeEpoch: seq<int>, stamp: seq<int>, epoch: int)

  ghost function Snap(ws: WarpSearch): View
    reads ws
  {
    View(ws.states, ws.routeOf, ws.posOf, ws.routeEpoch, ws.clientStamp, ws.epoch)
  }

  /** The index is exact and no clock runs ahead of the epoch. */
  ghost predicate Clocked(n: nat, x: View) {
    && Exact(n, Lists(x.states), x.routeOf, x.posOf) && |x.routeEpoch| == |x.states| && |x.stamp| == n + 1
    && (forall r :: 0 <= r < |x.routeEpoch| ==> x.routeEpoch[r] <= x.epoch)
    && (forall c :: 0 <= c <= n ==> x.stamp[c] <= x.epoch)
  }

  /** Vertex v is indexed at position p of route r. */
  ghost predicate At(x: View, v: int, r: int, p: int) {
    && 0 <= v < |x.routeOf| && v < |x.posOf| && x.routeOf[v] == r && x.posOf[v] == p
    && 0 <= r < |x.states| && 0 <= p < |x.states[r].vertices| && x.states[r].vertices[p] == v
  }

  /** None of the moves tried between the client at (s1, i) and its partner at (s2, j) pays. */
  ghost predicate Quiet(ww: WarpWorld, s1: WarpTour, i: nat, s2: WarpTour, j: nat, penalty: real)
    requires i < |s1.vertices| && j < |s2.vertices|
  {
    var removal := RemovalCost(ww, s1, i, penalty);
    && !SwapPays(ww, s1, i, s2, j, penalty)
    && (removal.Some? && s2.load + DemandOf(ww.w.inst, s1.vertices[i]) <= ww.w.inst.capacity ==>
          && !RelocatePays(ww, s1, i, s2, j, removal.value, penalty)
          && !RelocatePays(ww, s1, i, s2, j + 1, removal.value, penalty))
  }

  /** No move of c against the route of v pays. */
  ghost predicate NothingPays(ww: WarpWorld, x: View, c: int, v: int, penalty: real) {
    forall r1, i, r2, j :: At(x, c, r1, i) && At(x, v, r2, j) && r1 != r2 ==> Quiet(ww, x.states[r1], i, x.states[r2], j, penalty)
  }

  ghost predicate IsPartner(n: nat, nb: NeighbourLists, c: int, v: int)
    requires Sound(nb, n) && 1 <= c <= n
  {
    1 <= v <= n && (nb.Restricted() ==> nb.IsNeighbour(c, v))
  }

  /** c was looked at after the last change of its own and of v's route. */
  ghost predicate Stamped(x: View, c: int, v: int) {
    forall r1, i, r2, j :: At(x, c, r1, i) && At(x, v, r2, j) && r1 < |x.routeEpoch| && r2 < |x.routeEpoch| && c < |x.stamp| ==>
      x.routeEpoch[r1] <= x.stamp[c] && x.routeEpoch[r2] <= x.stamp[c]
  }

  /** The certificate: where the stamps cover both routes, no move of the pair pays at this penalty. */
  ghost predicate Calm(ww: WarpWorld, nb: NeighbourLists, x: View, penalty: real)
    requires Sound(nb, ww.w.inst.n)
  {
    forall c, v :: 1 <= c <= ww.w.inst.n && IsPartner(ww.w.inst.n, nb, c, v) && Stamped(x, c, v) ==> NothingPays(ww, x, c, v, penalty)
  }

  /** The test by which a client is skipped: its stamp covers its own and all its partners' routes. */
  ghost predicate Skips(n: nat, nb: NeighbourLists, x: View, c: int)
    requires Sound(nb, n) && 1 <= c <= n
  {
    forall r, p :: At(x, c, r, p) && r < |x.routeEpoch| && c < |x.stamp| ==>
      && x.routeEpoch[r] <= x.stamp[c]
      && forall v, r2, j :: At(x, v, r2, j) && r2 < |x.routeEpoch| && IsPartner(n, nb, c, v) ==> x.routeEpoch[r2] <= x.stamp[c]
  }

  /** Every client is skipped. */
  ghost predicate Converged(n: nat, nb: NeighbourLists, x: View)
    requires Sound(nb, n)
  {
    forall c :: 1 <= c <= n ==> Skips(n, nb, x, c)
  }

  /** Route r' of the new state is route r of the old one, epoch included. */
  ghost predicate SameRoute(x: View, r: int, x': View, r': int) {
    && 0 <= r < |x.states| == |x.routeEpoch| && 0 <= r' < |x'.states| == |x'.routeEpoch|
    && x'.states[r'] == x.states[r] && x'.routeEpoch[r'] == x.routeEpoch[r]
  }

  /** A commit opens an epoch, and a route without it is an old route unchanged. */
  ghost predicate Carried(x: View, x': View) {
    && x'.epoch == x.epoch + 1 && x'.stamp == x.stamp && |x'.routeEpoch| == |x'.states|
    && forall r' :: 0 <= r' < |x'.states| ==> x'.routeEpoch[r'] == x'.epoch || exists r :: SameRoute(x, r, x', r')
  }

  lemma CarriedIsClocked(n: nat, x: View, x': View)
    requires Clocked(n, x) && Carried(x, x') && Exact(n, Lists(x'.states), x'.routeOf, x'.posOf)
    ensures Clocked(n, x')
  {
    hide Exact;
    forall r' | 0 <= r' < |x'.routeEpoch| ensures x'.routeEpoch[r'] <= x'.epoch {
      if x'.routeEpoch[r'] != x'.epoch { var r :| SameRoute(x, r, x', r'); }
    }
  }

  /** In an exact index whoever sits somewhere is indexed there. */
  lemma SitsAt(n: nat, x: View, r: int, p: int)
    requires Clocked(n, x) && 0 <= r < |x.states| && 0 <= p < |x.states[r].vertices|
    ensures At(x, x.states[r].vertices[p], r, p)
  {
    assert Lists(x.states)[r][p] == x.states[r].vertices[p];
  }

  /** A stamped pair survived the commit untouched: it sits where it sat, in the same two routes. */
  lemma StampedIsOld(n: nat, x: View, x': View, c: int, r1': int, i: int, v: int, r2': int, j: int)
    returns (r1: int, r2: int)
    requires Clocked(n, x) && Clocked(n, x') && Carried(x, x') && 1 <= c <= n && r1' != r2'
    requires At(x', c, r1', i) && At(x', v, r2', j) && Stamped(x', c, v)
    ensures SameRoute(x, r1, x', r1') && SameRoute(x, r2, x', r2') && r1 != r2
    ensures At(x, c, r1, i) && At(x, v, r2, j)
  {
    hide Exact;
    assert x'.routeEpoch[r1'] <= x.stamp[c] <= x.epoch;
    assert x'.routeEpoch[r2'] <= x.stamp[c] <= x.epoch;
    r1 :| SameRoute(x, r1, x', r1');
    r2 :| SameRoute(x, r2, x', r2');
    SitsAt(n, x, r1, i);
    SitsAt(n, x, r2, j);
    if r1 == r2 {
      SitsAt(n, x', r2', i);
      assert false;
    }
  }

  /** Skipping is sound across commits: what the stamps still cover was rejected on the same two routes. */
  lemma CommitKeepsCalm(ww: WarpWorld, nb: NeighbourLists, x: View, x': View, penalty: real)
    requires Sound(nb, ww.w.inst.n) && Clocked(ww.w.inst.n, x) && Clocked(ww.w.inst.n, x') && Carried(x, x')
    requires Calm(ww, nb, x, penalty)
    ensures Calm(ww, nb, x', penalty)
  {
    hide Sound, Clocked, Carried, Quiet, IsPartner;
    var n := ww.w.inst.n;
    forall c, v | 1 <= c <= n && IsPartner(n, nb, c, v) && Stamped(x', c, v) ensures NothingPays(ww, x', c, v, penalty) {
      forall r1', i, r2', j | At(x', c, r1', i) && At(x', v, r2', j) && r1' != r2'
        ensures Quiet(ww, x'.states[r1'], i, x'.states[r2'], j, penalty)
      {
        var r1, r2 := StampedIsOld(n, x, x', c, r1', i, v, r2', j);
        StampedStays(n, x, x', c, r1, i, r1', v, r2, j, r2');
        assert NothingPays(ww, x, c, v, penalty);
      }
    }
  }

  lemma StampedStays(n: nat, x: View, x': View, c: int, r1: int, i: int, r1': int, v: int, r2: int, j: int, r2': int)
    requires Clocked(n, x) && Clocked(n, x') && Carried(x, x') && 1 <= c <= n
    requires At(x', c, r1', i) && At(x', v, r2', j) && Stamped(x', c, v)
    requires SameRoute(x, r1, x', r1') && SameRoute(x, r2, x', r2') && At(x, c, r1, i) && At(x, v, r2, j)
    ensures Stamped(x, c, v)
  {
  }

  /** Stamping a client of which nothing pays keeps the certificate and everyone else's skips. */
  lemma StampKeepsCalm(ww: WarpWorld, nb: NeighbourLists, x: View, c: int, penalty: real)
    requires Sound(nb, ww.w.inst.n) && Clocked(ww.w.inst.n, x) && 1 <= c <= ww.w.inst.n
    requires forall v :: IsPartner(ww.w.inst.n, nb, c, v) ==> NothingPays(ww, x, c, v, penalty)
    ensures var x' := x.(stamp := x.stamp[c := x.epoch]);
            && Clocked(ww.w.inst.n, x') && Skips(ww.w.inst.n, nb, x', c)
            && (Calm(ww, nb, x, penalty) ==> Calm(ww, nb, x', penalty))
            && forall d :: 1 <= d <= ww.w.inst.n && Skips(ww.w.inst.n, nb, x, d) ==> Skips(ww.w.inst.n, nb, x', d)
  {
    hide Exact, Sound, Quiet, IsPartner;
    var n := ww.w.inst.n;
    var x' := x.(stamp := x.stamp[c := x.epoch]);
    assert forall v, r, p :: At(x', v, r, p) <==> At(x, v, r, p);
    if Calm(ww, nb, x, penalty) {
      forall d, v | 1 <= d <= n && IsPartner(n, nb, d, v) && Stamped(x', d, v) ensures NothingPays(ww, x', d, v, penalty) {
        if d != c { assert Stamped(x, d, v); }
        assert NothingPays(ww, x, d, v, penalty);
      }
    }
  }

  /** Where every client is skipped under the certificate, no relocate and no swap pays. */
  lemma ConvergedIsOptimum(ww: WarpWorld, nb: NeighbourLists, x: View, penalty: real)
    requires Sound(nb, ww.w.inst.n) && Clocked(ww.w.inst.n, x) && Calm(ww, nb, x, penalty) && Converged(ww.w.inst.n, nb, x)
    ensures forall c, v :: 1 <= c <= ww.w.inst.n && IsPartner(ww.w.inst.n, nb, c, v) ==> NothingPays(ww, x, c, v, penalty)
  {
    hide Exact, Sound, NothingPays, IsPartner;
    var n := ww.w.inst.n;
    forall c, v | 1 <= c <= n && IsPartner(n, nb, c, v) ensures NothingPays(ww, x, c, v, penalty) {
      assert Skips(n, nb, x, c);
      assert Stamped(x, c, v);
    }
  }

  lemma PairCarried(x: View, x': View, r1: nat, r2: nat)
    requires r1 < |x.states| && r2 < |x.states| && |x.routeEpoch| == |x.states| == |x'.states| && x'.epoch == x.epoch + 1 && x'.stamp == x.stamp
    requires forall r :: 0 <= r < |x.states| && r != r1 && r != r2 ==> x'.states[r] == x.states[r]
    requires x'.routeEpoch == x.routeEpoch[r1 := x'.epoch][r2 := x'.epoch]
    ensures Carried(x, x')
  {
    forall r | 0 <= r < |x'.states| ensures x'.routeEpoch[r] == x'.epoch || exists q :: SameRoute(x, q, x', r) {
      if r != r1 && r != r2 { assert SameRoute(x, r, x', r); }
    }
  }

  lemma EraseCarried(x: View, x': View, r1: nat, r2: nat, t2: WarpTour)
    requires r1 < |x.states| && r2 < |x.states| && r1 != r2 && |x.routeEpoch| == |x.states| && x'.epoch == x.epoch + 1 && x'.stamp == x.stamp
    requires x'.states == SwapErase(x.states[r2 := t2], r1) && x'.routeEpoch == SwapErase(x.routeEpoch[r2 := x'.epoch], r1)
    ensures Carried(x, x')
  {
    var last := |x.states| - 1;
    forall r | 0 <= r < |x'.states| ensures x'.routeEpoch[r] == x'.epoch || exists q :: SameRoute(x, q, x', r) {
      var q := if r == r1 then last else r;
      if q != r2 { assert SameRoute(x, q, x', r); }
    }
  }

  lemma RelocateCarried(x: View, x': View, r1: nat, t1: Option<WarpTour>, r2: nat, t2: WarpTour)
    requires r1 < |x.states| && r2 < |x.states| && r1 != r2 && |x.routeEpoch| == |x.states| && x'.epoch == x.epoch + 1 && x'.stamp == x.stamp
    requires x'.states == if t1.Some? then x.states[r2 := t2][r1 := t1.value] else SwapErase(x.states[r2 := t2], r1)
    requires x'.routeEpoch == if t1.Some? then x.routeEpoch[r2 := x'.epoch][r1 := x'.epoch] else SwapErase(x.routeEpoch[r2 := x'.epoch], r1)
    ensures Carried(x, x')
  {
    if t1.Some? { PairCarried(x, x', r2, r1); } else { EraseCarried(x, x', r1, r2, t2); }
  }

  // ---------- the steps of the descent, as relations on views ----------

  /** The index after a commit names the places of the new lists, and places nobody new. */
  ghost predicate Reindexed(ww: WarpWorld, x: View, x': View) {
    && Exact(ww.w.inst.n, Lists(x'.states), x'.routeOf, x'.posOf) && SamePlaced(x.routeOf, x'.routeOf)
    && x'.stamp == x.stamp && x'.epoch == x.epoch + 1
  }

  /** Client (r1, i) moved before position p of r2; an emptied donor is swap-erased. */
  ghost predicate Shifted(ww: WarpWorld, x: View, r1: nat, i: nat, r2: nat, p: nat, penalty: real, x': View)
    requires r1 < |x.states| && r2 < |x.states| && i < |x.states[r1].vertices| && p <= |x.states[r2].vertices|
  {
    var A, B := x.states[r1].vertices, x.states[r2].vertices;
    var t1, t2 := BuildWarpTour(ww, RemoveAt(A, i), penalty), BuildWarpTour(ww, InsertAt(B, p, A[i]), penalty);
    && Reindexed(ww, x, x') && |x.routeEpoch| == |x.states| && t2.Some? && (|A| > 1 ==> t1.Some?)
    && x'.states == (if |A| > 1 then x.states[r2 := t2.value][r1 := t1.value] else SwapErase(x.states[r2 := t2.value], r1))
    && x'.routeEpoch == (if |A| > 1 then x.routeEpoch[r2 := x'.epoch][r1 := x'.epoch] else SwapErase(x.routeEpoch[r2 := x'.epoch], r1))
  }

  /** Clients (r1, i) and (r2, j) exchanged. */
  ghost predicate Exchanged(ww: WarpWorld, x: View, r1: nat, i: nat, r2: nat, j: nat, penalty: real, x': View)
    requires r1 < |x.states| && r2 < |x.states| && i < |x.states[r1].vertices| && j < |x.states[r2].vertices|
  {
    var A, B := x.states[r1].vertices, x.states[r2].vertices;
    var t1, t2 := BuildWarpTour(ww, A[i := B[j]], penalty), BuildWarpTour(ww, B[j := A[i]], penalty);
    && Reindexed(ww, x, x') && |x.routeEpoch| == |x.states| && t1.Some? && t2.Some?
    && x'.states == x.states[r1 := t1.value][r2 := t2.value]
    && x'.routeEpoch == x.routeEpoch[r1 := x'.epoch][r2 := x'.epoch]
  }

  lemma RelocateShifts(ww: WarpWorld, x: View, r1: nat, i: nat, r2: nat, p: nat, penalty: real, t1: Option<WarpTour>, t2: WarpTour, x': View)
    requires r1 < |x.states| && r2 < |x.states| && i < |x.states[r1].vertices| && p <= |x.states[r2].vertices| && |x.routeEpoch| == |x.states|
    requires (t1.Some? <==> |x.states[r1].vertices| > 1) && Reindexed(ww, x, x')
    requires t1.Some? ==> t1 == BuildWarpTour(ww, RemoveAt(x.states[r1].vertices, i), penalty)
    requires Some(t2) == BuildWarpTour(ww, InsertAt(x.states[r2].vertices, p, x.states[r1].vertices[i]), penalty)
    requires x'.states == if t1.Some? then x.states[r2 := t2][r1 := t1.value] else SwapErase(x.states[r2 := t2], r1)
    requires x'.routeEpoch == if t1.Some? then x.routeEpoch[r2 := x'.epoch][r1 := x'.epoch] else SwapErase(x.routeEpoch[r2 := x'.epoch], r1)
    ensures Shifted(ww, x, r1, i, r2, p, penalty, x')
  {
    hide BuildWarpTour, Reindexed, RemoveAt, InsertAt, SwapErase;
  }

  lemma SwapExchanges(ww: WarpWorld, x: View, r1: nat, i: nat, r2: nat, j: nat, penalty: real, t1: WarpTour, t2: WarpTour, x': View)
    requires r1 < |x.states| && r2 < |x.states| && i < |x.states[r1].vertices| && j < |x.states[r2].vertices| && |x.routeEpoch| == |x.states|
    requires Reindexed(ww, x, x')
    requires Some(t1) == BuildWarpTour(ww, x.states[r1].vertices[i := x.states[r2].vertices[j]], penalty)
    requires Some(t2) == BuildWarpTour(ww, x.states[r2].vertices[j := x.states[r1].vertices[i]], penalty)
    requires x'.states == x.states[r1 := t1][r2 := t2] && x'.routeEpoch == x.routeEpoch[r1 := x'.epoch][r2 := x'.epoch]
    ensures Exchanged(ww, x, r1, i, r2, j, penalty, x')
  {
    hide BuildWarpTour, Reindexed;
  }

  /** The outcome of trying a move: committed and advanced, or nothing touched. */
  twostate predicate Outcome(ww: WarpWorld, ws: WarpSearch, penalty: real, committed: bool)
    reads ws
  {
    if committed then
      Indexed(ww, ws) && SamePlaced(old(ws.routeOf), ws.routeOf) && Advances(ww, old(ws.states), ws.states, penalty)
    else unchanged(ws)
  }

  /** rank a relocate, rebuild both routes and reprice: the edited tours if it pays. */
  method PriceRelocate(ww: WarpWorld, s1: WarpTour, i: nat, s2: WarpTour, p: nat, removal: real, penalty: real, budget0: int)
    returns (edited: Option<(Option<WarpTour>, WarpTour)>, budget: int)
    requires i < |s1.vertices| && p <= |s2.vertices|
    ensures edited.Some? <==> RelocatePays(ww, s1, i, s2, p, removal, penalty)
    ensures edited.Some? ==>
              var (t1, t2) := edited.value;
              && (t1.Some? <==> |s1.vertices| > 1) && (t1.Some? ==> t1 == BuildWarpTour(ww, RemoveAt(s1.vertices, i), penalty))
              && Some(t2) == BuildWarpTour(ww, InsertAt(s2.vertices, p, s1.vertices[i]), penalty)
              && (if t1.Some? then Cost1(ww, t1.value, penalty) else 0.0) + Cost1(ww, t2, penalty) <
                 Cost1(ww, s1, penalty) + Cost1(ww, s2, penalty) - SCREEN_EPS
    ensures budget == budget0 - RelocateCharge(ww, s1, i, s2, p, removal, penalty)
  {
    RemovedSize(s1.vertices, i);
    hide Load, RemoveAt, InsertAt;
    var c := s1.vertices[i];
    var cost1, cost2 := Cost1(ww, s1, penalty), Cost1(ww, s2, penalty);
    budget := budget0 - 1;
    var ins := ww.warp.splice(s2.vertices, p, p - 1, s1.vertices, i, i, penalty);
    if ins.None? { return None, budget; }
    var delta := (removal + ins.value) - (cost1 + cost2);
    if !(delta < -SCREEN_EPS) { return None, budget; }
    var n1, n2 := RemoveAt(s1.vertices, i), InsertAt(s2.vertices, p, c);
    budget := budget - 1;
    var t2 := BuildWarpTour(ww, n2, penalty);
    if t2.None? { return None, budget; }
    var newTotal := Cost1(ww, t2.value, penalty);
    var t1: Option<WarpTour> := None;
    if |n1| > 0 {
      budget := budget - 1;
      t1 := BuildWarpTour(ww, n1, penalty);
      if t1.None? { return None, budget; }
      newTotal := newTotal + Cost1(ww, t1.value, penalty);
    }
    if !(newTotal < cost1 + cost2 - SCREEN_EPS) { return None, budget; }
    return Some((t1, t2.value)), budget;
  }

  /** relocate the client at (r1, i) before position p of r2, if it pays. */
  method TryRelocateAt(ww: WarpWorld, ws: WarpSearch, r1: nat, i: nat, r2: nat, p: nat, removal: real, penalty: real, budget0: int)
    returns (committed: bool, budget: int)
    requires Consistent(ww) && Indexed(ww, ws) && r1 < |ws.states| && r2 < |ws.states| && r1 != r2
    requires i < |ws.states[r1].vertices| && p <= |ws.states[r2].vertices|
    requires ws.states[r2].load + DemandOf(ww.w.inst, ws.states[r1].vertices[i]) <= ww.w.inst.capacity
    modifies ws
    ensures Outcome(ww, ws, penalty, committed)
    ensures budget == budget0 - RelocateCharge(ww, old(ws.states)[r1], i, old(ws.states)[r2], p, removal, penalty)
    ensures committed ==> Carried(old(Snap(ws)), Snap(ws)) && Shifted(ww, old(Snap(ws)), r1, i, r2, p, penalty, Snap(ws))
    ensures committed == RelocatePays(ww, old(ws.states)[r1], i, old(ws.states)[r2], p, removal, penalty)
  {
    hide Load, InsertAt, Advances, PenalisedTotal, Consistent, Exact, WarpTourOk, PairBalanced, SamePlaced, Carried, SwapErase, RelocatePays, BuildWarpTour, Cost1, RelocateCharge, Shifted;
    var s1, s2 := ws.states[r1], ws.states[r2];
    var edited;
    edited, budget := PriceRelocate(ww, s1, i, s2, p, removal, penalty, budget0);
    if edited.None? { return false, budget; }
    var (t1, t2) := edited.value;
    RelocateFits(ww, ws.states, r1, i, r2, p);
    BuiltIsOk(ww, InsertAt(s2.vertices, p, s1.vertices[i]), penalty);
    RemovedSize(s1.vertices, i);
    if t1.Some? { BuiltIsOk(ww, RemoveAt(s1.vertices, i), penalty); } else { assert RemoveAt(s1.vertices, i) == []; }
    RelocateAdvances(ww, ws.states, r1, t1, r2, t2, penalty);
    ghost var x := Snap(ws);
    CommitRelocate(ww, ws, r1, t1, r2, t2, penalty);
    RelocateCarried(x, Snap(ws), r1, t1, r2, t2);
    RelocateShifts(ww, x, r1, i, r2, p, penalty, t1, t2, Snap(ws));
    return true, budget;
  }

  /** swap the clients at (r1, i) and (r2, j). */
  method TrySwapAt(ww: WarpWorld, ws: WarpSearch, r1: nat, i: nat, r2: nat, j: nat, penalty: real, budget0: int)
    returns (committed: bool, budget: int)
    requires Consistent(ww) && Indexed(ww, ws) && r1 < |ws.states| && r2 < |ws.states| && r1 != r2
    requires i < |ws.states[r1].vertices| && j < |ws.states[r2].vertices|
    modifies ws
    ensures Outcome(ww, ws, penalty, committed)
    ensures budget == budget0 - SwapCharge(ww, old(ws.states)[r1], i, old(ws.states)[r2], j, penalty)
    ensures committed ==> Carried(old(Snap(ws)), Snap(ws)) && Exchanged(ww, old(Snap(ws)), r1, i, r2, j, penalty, Snap(ws))
    ensures committed == SwapPays(ww, old(ws.states)[r1], i, old(ws.states)[r2], j, penalty)
  {
    hide Load, Advances, PenalisedTotal, Consistent, Exact, WarpTourOk, PairBalanced, SamePlaced, Carried, SwapErase, Exchanged;
    var s1, s2 := ws.states[r1], ws.states[r2];
    var c, v := s1.vertices[i], s2.vertices[j];
    budget := budget0;
    if s1.load - DemandOf(ww.w.inst, c) + DemandOf(ww.w.inst, v) > ww.w.inst.capacity
       || s2.load - DemandOf(ww.w.inst, v) + DemandOf(ww.w.inst, c) > ww.w.inst.capacity { return false, budget; }
    var cost1, cost2 := Cost1(ww, s1, penalty), Cost1(ww, s2, penalty);
    budget := budget - 1;
    var e1 := ww.warp.splice(s1.vertices, i, i, s2.vertices, j, j, penalty);
    if e1.None? { return false, budget; }
    budget := budget - 1;
    var e2 := ww.warp.splice(s2.vertices, j, j, s1.vertices, i, i, penalty);
    if e2.None? { return false, budget; }
    var delta := (e1.value + e2.value) - (cost1 + cost2);
    if !(delta < -SCREEN_EPS) { return false, budget; }
    SwapFits(ww, ws.states, r1, i, r2, j);
    var n1, n2 := s1.vertices[i := v], s2.vertices[j := c];
    budget := budget - 2;
    var t1 := BuildWarpTour(ww, n1, penalty);
    if t1.None? { return false, budget; }
    var t2 := BuildWarpTour(ww, n2, penalty);
    if t2.None? { return false, budget; }
    BuiltIsOk(ww, n1, penalty);
    BuiltIsOk(ww, n2, penalty);
    var newTotal := Cost1(ww, t1.value, penalty) + Cost1(ww, t2.value, penalty);
    if !(newTotal < cost1 + cost2 - SCREEN_EPS) { return false, budget; }
    RelocateAdvances(ww, ws.states, r2, Some(t2.value), r1, t1.value, penalty);
    ghost var x := Snap(ws);
    CommitSwap(ww, ws, r1, t1.value, r2, t2.value);
    PairCarried(x, Snap(ws), r1, r2);
    SwapExchanges(ww, x, r1, i, r2, j, penalty, t1.value, t2.value, Snap(ws));
    return true, budget;
  }

  // ---------- one client ----------

  /** Clients worth pairing with c: its neighbours, or everybody when exhaustive. */
  function PartnerList(n: nat, nb: NeighbourLists, c: int): seq<int>
    requires nb.Restricted() ==> nb.HasList(c)
  {
    if nb.Restricted() then nb.List(c) else seq(n, k => k + 1)
  }

  method Partners(n: nat, nb: NeighbourLists, c: int) returns (list: seq<int>)
    requires Sound(nb, n) && 1 <= c <= n
    ensures list == PartnerList(n, nb, c)
    ensures forall v :: v in list <==> IsPartner(n, nb, c, v)
    ensures forall v :: v in list ==> 1 <= v <= n
  {
    if nb.Restricted() { return nb.List(c); }
    list := [];
    for v := 1 to n + 1
      invariant |list| == v - 1 && (forall k :: 0 <= k < |list| ==> list[k] == k + 1) && forall u :: u in list <==> 1 <= u < v
    {
      list := list + [v];
    }
  }

  /** The relocates of stop i of s1 next to position j of s2 are worth trying. */
  predicate ShiftFits(ww: WarpWorld, s1: WarpTour, i: nat, s2: WarpTour, removal: Option<real>)
    requires i < |s1.vertices|
  {
    removal.Some? && s2.load + DemandOf(ww.w.inst, s1.vertices[i]) <= ww.w.inst.capacity
  }

  /** Pricings spent on one partner: up to the first move that pays. */
  function PartnerCharge(ww: WarpWorld, s1: WarpTour, i: nat, s2: WarpTour, j: nat, removal: Option<real>, penalty: real): nat
    requires i < |s1.vertices| && j < |s2.vertices|
  {
    if !ShiftFits(ww, s1, i, s2, removal) then SwapCharge(ww, s1, i, s2, j, penalty)
    else
      var before, behind := RelocateCharge(ww, s1, i, s2, j, removal.value, penalty), RelocateCharge(ww, s1, i, s2, j + 1, removal.value, penalty);
      if RelocatePays(ww, s1, i, s2, j, removal.value, penalty) then before
      else if RelocatePays(ww, s1, i, s2, j + 1, removal.value, penalty) then before + behind
      else before + behind + SwapCharge(ww, s1, i, s2, j, penalty)
  }

  /** Trying c, at (r1, i), against the partner at (r2, j): relocate before it, relocate behind it, swap. */
  ghost predicate PairTried(ww: WarpWorld, x: View, r1: nat, i: nat, r2: nat, j: nat, removal: Option<real>, penalty: real, x': View, committed: bool)
    requires r1 < |x.states| && r2 < |x.states| && i < |x.states[r1].vertices| && j < |x.states[r2].vertices|
  {
    var s1, s2 := x.states[r1], x.states[r2];
    if ShiftFits(ww, s1, i, s2, removal) && RelocatePays(ww, s1, i, s2, j, removal.value, penalty) then
      committed && Shifted(ww, x, r1, i, r2, j, penalty, x')
    else if ShiftFits(ww, s1, i, s2, removal) && RelocatePays(ww, s1, i, s2, j + 1, removal.value, penalty) then
      committed && Shifted(ww, x, r1, i, r2, j + 1, penalty, x')
    else if SwapPays(ww, s1, i, s2, j, penalty) then committed && Exchanged(ww, x, r1, i, r2, j, penalty, x')
    else !committed && x' == x
  }

  /** Trying c against one partner; nothing happens if that one is unplaced or in the same route. */
  ghost predicate PartnerTried(ww: WarpWorld, x: View, c: int, v: int, removal: Option<real>, penalty: real, x': View, committed: bool, charge: int) {
    && 0 <= c < |x.routeOf| == |x.posOf| && 0 <= v < |x.routeOf|
    && var r1, i, r2, j := x.routeOf[c], x.posOf[c], x.routeOf[v], x.posOf[v];
       if r2 < 0 || r2 == r1 then !committed && x' == x && charge == 0
       else
         && At(x, c, r1, i) && At(x, v, r2, j)
         && PairTried(ww, x, r1, i, r2, j, removal, penalty, x', committed)
         && charge == PartnerCharge(ww, x.states[r1], i, x.states[r2], j, removal, penalty)
  }

  /** The partners in order, up to the first commit; `spent` pricings went before. */
  ghost predicate PartnersTried(ww: WarpWorld, x: View, c: int, list: seq<int>, removal: Option<real>, penalty: real, spent: int,
                                x': View, committed: bool, charge: int)
    decreases |list|
  {
    if |list| == 0 then !committed && x' == x && charge == spent
    else exists x1, m1, q1 ::
           && PartnerTried(ww, x, c, list[0], removal, penalty, x1, m1, q1)
           && if m1 then committed && x' == x1 && charge == spent + q1
              else PartnersTried(ww, x, c, list[1..], removal, penalty, spent + q1, x', committed, charge)
  }

  lemma PartnerOn(ww: WarpWorld, x: View, c: int, list: seq<int>, k: nat, removal: Option<real>, penalty: real, spent: int, q: int)
    requires k < |list| && PartnerTried(ww, x, c, list[k], removal, penalty, x, false, q)
    ensures forall x', m, total :: PartnersTried(ww, x, c, list[k + 1..], removal, penalty, spent + q, x', m, total) ==>
              PartnersTried(ww, x, c, list[k..], removal, penalty, spent, x', m, total)
  {
    hide PartnerTried;
    assert list[k..][0] == list[k] && list[k..][1..] == list[k + 1..];
  }

  lemma PartnerEnds(ww: WarpWorld, x: View, c: int, list: seq<int>, k: nat, removal: Option<real>, penalty: real, spent: int, x': View, q: int)
    requires k < |list| && PartnerTried(ww, x, c, list[k], removal, penalty, x', true, q)
    ensures PartnersTried(ww, x, c, list[k..], removal, penalty, spent, x', true, spent + q)
  {
    hide PartnerTried;
    assert list[k..][0] == list[k];
  }

  /** One client of the descent. */
  ghost predicate ClientStepped(ww: WarpWorld, nb: NeighbourLists, x: View, c: int, penalty: real, x': View, committed: bool, charge: int)
    requires Sound(nb, ww.w.inst.n) && 1 <= c <= ww.w.inst.n
  {
    if Skips(ww.w.inst.n, nb, x, c) then !committed && x' == x && charge == 0
    else
      && c < |x.routeOf| == |x.posOf| && c < |x.stamp| && At(x, c, x.routeOf[c], x.posOf[c])
      && exists x1 ::
           && PartnersTried(ww, x, c, PartnerList(ww.w.inst.n, nb, c), RemovalCost(ww, x.states[x.routeOf[c]], x.posOf[c], penalty), penalty, 1, x1, committed, charge)
           && c < |x1.stamp| && x' == if committed then x1 else x1.(stamp := x1.stamp[c := x1.epoch])
  }

  lemma IndexPlace(ww: WarpWorld, ws: WarpSearch, v: int)
    requires Indexed(ww, ws) && 1 <= v <= ww.w.inst.n
    ensures |ws.routeOf| == |ws.posOf| == ww.w.inst.n + 1 && |ws.clientStamp| == ww.w.inst.n + 1 && |ws.routeEpoch| == |ws.states|
    ensures ws.routeOf[v] >= 0 ==> At(Snap(ws), v, ws.routeOf[v], ws.posOf[v])
  {
    if ws.routeOf[v] >= 0 { assert Sits(Lists(ws.states), v, ws.routeOf[v], ws.posOf[v]); }
  }

  /** All moves of c against the route of one partner v. */
  method TryPartner(ww: WarpWorld, ws: WarpSearch, c: int, v: int, removal: Option<real>, penalty: real, budget0: int)
    returns (committed: bool, budget: int)
    requires Consistent(ww) && Indexed(ww, ws) && 1 <= c <= ww.w.inst.n && 1 <= v <= ww.w.inst.n
    requires |ws.posOf| == |ws.routeOf| == ww.w.inst.n + 1 && At(Snap(ws), c, ws.routeOf[c], ws.posOf[c])
    requires removal == RemovalCost(ww, ws.states[ws.routeOf[c]], ws.posOf[c], penalty)
    modifies ws
    ensures Outcome(ww, ws, penalty, committed) && budget <= budget0
    ensures if committed then Carried(old(Snap(ws)), Snap(ws)) else NothingPays(ww, Snap(ws), c, v, penalty)
    ensures PartnerTried(ww, old(Snap(ws)), c, v, removal, penalty, Snap(ws), committed, budget0 - budget)
  {
    hide Load, Consistent, Indexed, SamePlaced, Advances, Carried, RelocatePays, SwapPays, RemovalCost, RelocateCharge, SwapCharge, Shifted, Exchanged;
    IndexPlace(ww, ws, c);
    IndexPlace(ww, ws, v);
    budget := budget0;
    var r1, i := ws.routeOf[c], ws.posOf[c];
    var r2 := ws.routeOf[v];
    if r2 < 0 || r2 == r1 { return false, budget; }
    var iv := ws.posOf[v];
    if removal.Some? && ws.states[r2].load + DemandOf(ww.w.inst, c) <= ww.w.inst.capacity {
      committed, budget := TryRelocateAt(ww, ws, r1, i, r2, iv, removal.value, penalty, budget);
      if committed { return; }
      committed, budget := TryRelocateAt(ww, ws, r1, i, r2, iv + 1, removal.value, penalty, budget);
      if committed { return; }
    }
    committed, budget := TrySwapAt(ww, ws, r1, i, r2, iv, penalty, budget);
  }

  /** The latest change epoch around a client: its route and the routes of its partners. A stamp not
      before it is exactly the skip test. */
  method Relevant(ww: WarpWorld, nb: NeighbourLists, ws: WarpSearch, c: int, list: seq<int>) returns (relevant: int)
    requires Indexed(ww, ws) && Sound(nb, ww.w.inst.n) && 1 <= c <= ww.w.inst.n && |ws.routeOf| == ww.w.inst.n + 1 && ws.routeOf[c] >= 0
    requires (forall v :: v in list ==> 1 <= v <= ww.w.inst.n) && forall v :: v in list <==> IsPartner(ww.w.inst.n, nb, c, v)
    ensures |ws.clientStamp| == ww.w.inst.n + 1
    ensures ws.clientStamp[c] >= relevant <==> Skips(ww.w.inst.n, nb, Snap(ws), c)
  {
    hide Sound, IsPartner, Exact, AllOk;
    IndexPlace(ww, ws, c);
    var r := ws.routeOf[c];
    ghost var x := Snap(ws);
    ghost var e := x.stamp[c];
    relevant := ws.routeEpoch[r];
    forall j | 0 <= j < |list| ensures 1 <= list[j] <= ww.w.inst.n { assert list[j] in list; }
    for k := 0 to |list|
      invariant e >= relevant <==> e >= ws.routeEpoch[r] && Around(x, list[..k], e)
    {
      assert list[k] in list;
      IndexPlace(ww, ws, list[k]);
      var rv := ws.routeOf[list[k]];
      AroundNext(x, list, k, e);
      if rv >= 0 && ws.routeEpoch[rv] > relevant { relevant := ws.routeEpoch[rv]; }
    }
    assert list[..|list|] == list;
    assert At(x, c, r, ws.posOf[c]);
  }

  /** No route of a listed vertex changed after e. */
  ghost predicate Around(x: View, list: seq<int>, e: int) {
    forall v, r2, j :: At(x, v, r2, j) && r2 < |x.routeEpoch| && v in list ==> x.routeEpoch[r2] <= e
  }

  lemma AroundNext(x: View, list: seq<int>, k: nat, e: int)
    requires k < |list| && 0 <= list[k] < |x.routeOf| && list[k] < |x.posOf| && |x.routeEpoch| == |x.states|
    requires x.routeOf[list[k]] >= 0 ==> At(x, list[k], x.routeOf[list[k]], x.posOf[list[k]])
    ensures Around(x, list[..k + 1], e) <==>
            Around(x, list[..k], e) && (x.routeOf[list[k]] >= 0 ==> x.routeEpoch[x.routeOf[list[k]]] <= e)
  {
    assert list[..k + 1] == list[..k] + [list[k]];
  }

  /** One client of the descent; a client whose surroundings did not change is skipped for free. */
  method ClientStep(ww: WarpWorld, nb: NeighbourLists, ws: WarpSearch, c: int, penalty: real, budget0: int)
    returns (committed: bool, budget: int)
    requires Consistent(ww) && Indexed(ww, ws) && Sound(nb, ww.w.inst.n) && 1 <= c <= ww.w.inst.n && Clocked(ww.w.inst.n, Snap(ws))
    modifies ws
    ensures Indexed(ww, ws) && SamePlaced(old(ws.routeOf), ws.routeOf) && Clocked(ww.w.inst.n, Snap(ws))
    ensures budget <= budget0 && (committed ==> budget < budget0)
    ensures if committed then Advances(ww, old(ws.states), ws.states, penalty) else ws.states == old(ws.states)
    ensures if old(Skips(ww.w.inst.n, nb, Snap(ws), c)) then !committed && budget == budget0 && unchanged(ws) else budget < budget0
    ensures !committed ==> Skips(ww.w.inst.n, nb, Snap(ws), c)
    ensures !committed ==> forall d :: 1 <= d <= ww.w.inst.n && old(Skips(ww.w.inst.n, nb, Snap(ws), d)) ==> Skips(ww.w.inst.n, nb, Snap(ws), d)
    ensures old(Calm(ww, nb, Snap(ws), penalty)) ==> Calm(ww, nb, Snap(ws), penalty)
    ensures ClientStepped(ww, nb, old(Snap(ws)), c, penalty, Snap(ws), committed, budget0 - budget)
  {
    hide Load, Consistent, Advances, Exact, AllOk, Sound, NothingPays, RemovalCost, IsPartner, Calm, Clocked, Carried, Skips, PartnersTried, PartnerTried;
    var n := ww.w.inst.n;
    ghost var x := Snap(ws);
    IndexPlace(ww, ws, c);
    committed, budget := false, budget0;
    var r1 := ws.routeOf[c];
    if r1 < 0 {
      UnplacedSkips(n, nb, x, c);
      return;
    }
    var list := Partners(n, nb, c);
    var relevant := Relevant(ww, nb, ws, c, list);
    if ws.clientStamp[c] >= relevant { return; }
    budget := budget - 1;
    var removal := RemovalCost(ww, ws.states[r1], ws.posOf[c], penalty);
    forall j | 0 <= j < |list| ensures 1 <= list[j] <= n { assert list[j] in list; }
    assert list[0..] == list;
    for k := 0 to |list|
      invariant unchanged(ws) && !committed && budget < budget0
      invariant forall j :: 0 <= j < k ==> NothingPays(ww, x, c, list[j], penalty)
      invariant forall x', m, total :: PartnersTried(ww, x, c, list[k..], removal, penalty, budget0 - budget, x', m, total) ==>
                  PartnersTried(ww, x, c, list, removal, penalty, 1, x', m, total)
    {
      assert list[k] in list;
      ghost var spent := budget0 - budget;
      committed, budget := TryPartner(ww, ws, c, list[k], removal, penalty, budget);
      if committed { PartnerEnds(ww, x, c, list, k, removal, penalty, spent, Snap(ws), budget0 - budget - spent); } else { PartnerOn(ww, x, c, list, k, removal, penalty, spent, budget0 - budget - spent); }
      if committed {
        CarriedIsClocked(n, x, Snap(ws));
        if Calm(ww, nb, x, penalty) { CommitKeepsCalm(ww, nb, x, Snap(ws), penalty); }
        return;
      }
    }
    forall v | IsPartner(n, nb, c, v) ensures NothingPays(ww, x, c, v, penalty) {
      assert v in list;
      var j :| 0 <= j < |list| && list[j] == v;
    }
    PartnersOver(ww, x, c, list, removal, penalty, budget0 - budget);
    ws.clientStamp := ws.clientStamp[c := ws.epoch];
    StampKeepsCalm(ww, nb, x, c, penalty);
  }

  lemma PartnersOver(ww: WarpWorld, x: View, c: int, list: seq<int>, removal: Option<real>, penalty: real, spent: int)
    ensures PartnersTried(ww, x, c, list[|list|..], removal, penalty, spent, x, false, spent)
  {
  }

  lemma UnplacedSkips(n: nat, nb: NeighbourLists, x: View, c: int)
    requires Sound(nb, n) && 1 <= c <= n && c < |x.routeOf| && x.routeOf[c] < 0
    ensures Skips(n, nb, x, c)
  {
  }

  // ---------- banking ----------

  function AsTours(states: seq<WarpTour>): seq<Tour> {
    seq(|states|, k requires 0 <= k < |states| => Tour(states[k].vertices, states[k].duration, states[k].load))
  }

  predicate ZeroWarp(states: seq<WarpTour>) {
    forall k :: 0 <= k < |states| ==> states[k].minWarp == 0.0
  }

  /** search_feasible. */
  method SearchFeasible(states: seq<WarpTour>) returns (ok: bool)
    ensures ok == ZeroWarp(states)
  {
    for k := 0 to |states|
      invariant forall j :: 0 <= j < k ==> states[j].minWarp == 0.0
    {
      if states[k].minWarp != 0.0 { return false; }
    }
    return true;
  }

  /** feasible_objective: durations plus F per route. */
  method FeasibleObjective(ww: WarpWorld, states: seq<WarpTour>) returns (total: real)
    ensures total == Cost(ww.w, AsTours(states))
  {
    hide Fee;
    total := Fee(ww.w, |states|);
    for k := 0 to |states|
      invariant total == Fee(ww.w, |states|) + Durations(AsTours(states)[..k])
    {
      assert AsTours(states)[..k + 1][..k] == AsTours(states)[..k];
      total := total + states[k].duration;
    }
    assert AsTours(states)[..|states|] == AsTours(states);
  }

  /** A warp-free solution: every route feasible for the base fold and within capacity, exactly the
      given clients served, at the given objective. */
  ghost predicate Solves(w: World, clients: multiset<int>, routes: seq<seq<int>>, value: real) {
    && (forall k :: 0 <= k < |routes| ==> w.price.fold(routes[k]).Some?)
    && ToursOk(w, Priced(w, routes)) && Served(Priced(w, routes)) == clients && Cost(w, Priced(w, routes)) == value
  }

  /** The clients an index has placed. */
  ghost function PlacedClients(ww: WarpWorld, routeOf: seq<int>): multiset<int>
    requires |routeOf| == ww.w.inst.n + 1
  {
    multiset(PlacedSet(ww.w.inst.n, routeOf))
  }

  lemma SamePlacedClients(ww: WarpWorld, a: seq<int>, b: seq<int>)
    requires |a| == ww.w.inst.n + 1 && SamePlaced(a, b)
    ensures PlacedClients(ww, a) == PlacedClients(ww, b)
  {
    assert PlacedSet(ww.w.inst.n, a) == PlacedSet(ww.w.inst.n, b);
  }

  /** A warp-free search state is a solution of the base problem. */
  lemma ZeroWarpSolves(ww: WarpWorld, ws: WarpSearch)
    requires Indexed(ww, ws) && ZeroWarp(ws.states)
    ensures |ws.routeOf| == ww.w.inst.n + 1
    ensures Solves(ww.w, PlacedClients(ww, ws.routeOf), Lists(ws.states), Cost(ww.w, AsTours(ws.states)))
  {
    hide Load, Exact, Served, Cost;
    var tours := AsTours(ws.states);
    assert Routes(tours) == Lists(ws.states);
    ExactServed(ww.w.inst.n, tours, ws.routeOf, ws.posOf);
    forall k | 0 <= k < |ws.states| ensures TourOk(ww.w, tours[k]) && tours[k] == Tour(tours[k].vertices, ww.w.price.fold(tours[k].vertices).value, Load(ww.w.inst, tours[k].vertices)) {
      assert WarpTourOk(ww, ws.states[k]);
    }
    assert Priced(ww.w, Lists(ws.states)) == tours;
  }

  datatype Bank = Bank(best: real, routes: seq<seq<int>>, checkpoints: int)

  /** The bank holds nothing, or a solution for the placed clients that beats the entry by more than
      the screen with no more routes. */
  ghost predicate BankOk(w: World, clients: multiset<int>, entry: real, maxRoutes: int, bank: Bank) {
    && bank.best <= entry && (bank.routes == [] && clients != multiset{} ==> bank.best == entry)
    && (bank.routes != [] ==> Solves(w, clients, bank.routes, bank.best) && bank.best < entry - SCREEN_EPS && |bank.routes| <= maxRoutes)
  }

  lemma NobodyServed(ww: WarpWorld, clients: multiset<int>, routes: seq<seq<int>>, value: real)
    requires Solves(ww.w, clients, routes, value)
    ensures routes == [] ==> clients == multiset{}
  {
  }

  /** A warp-free state that beats the bank by more than the screen replaces it. */
  function BankAfter(ww: WarpWorld, states: seq<WarpTour>, bank: Bank): Bank {
    var d := Cost(ww.w, AsTours(states));
    if ZeroWarp(states) && d < bank.best - SCREEN_EPS then Bank(d, Lists(states), bank.checkpoints + 1) else bank
  }

  /** maybe_bank. */
  method MaybeBank(ww: WarpWorld, ws: WarpSearch, bank0: Bank, ghost entry: real, ghost maxRoutes: int) returns (bank: Bank)
    requires Indexed(ww, ws) && |ws.routeOf| == ww.w.inst.n + 1 && |ws.states| <= maxRoutes
    requires BankOk(ww.w, PlacedClients(ww, ws.routeOf), entry, maxRoutes, bank0)
    ensures bank == BankAfter(ww, ws.states, bank0)
    ensures BankOk(ww.w, PlacedClients(ww, ws.routeOf), entry, maxRoutes, bank)
    ensures bank.best <= bank0.best
    ensures if ZeroWarp(ws.states) then bank.best <= Cost(ww.w, AsTours(ws.states)) + SCREEN_EPS else bank == bank0
  {
    hide Solves, Cost, Indexed;
    bank := bank0;
    var ok := SearchFeasible(ws.states);
    if !ok { return; }
    var d := FeasibleObjective(ww, ws.states);
    if d < bank.best - SCREEN_EPS {
      ZeroWarpSolves(ww, ws);
      NobodyServed(ww, PlacedClients(ww, ws.routeOf), Lists(ws.states), d);
      bank := Bank(d, Lists(ws.states), bank.checkpoints + 1);
    }
  }

  // ---------- the descent ----------

  /** What the descent keeps of its entry state. */
  twostate predicate DescentKeeps(ww: WarpWorld, ws: WarpSearch, penalty: real)
    reads ws
  {
    && Indexed(ww, ws) && SamePlaced(old(ws.routeOf), ws.routeOf) && |ws.states| <= |old(ws.states)|
    && PenalisedTotal(ww, ws.states, penalty) <= PenalisedTotal(ww, old(ws.states), penalty)
  }

  /** A warp-free state that was reached by a commit is banked or beaten. */
  twostate predicate Banked(ww: WarpWorld, ws: WarpSearch, bank: Bank)
    reads ws
  {
    ws.states != old(ws.states) && ZeroWarp(ws.states) ==> bank.best <= Cost(ww.w, AsTours(ws.states)) + SCREEN_EPS
  }

  /** What a leg knows of the stamps: the clocks run right, and a certificate stays one. */
  twostate predicate StampsKept(ww: WarpWorld, nb: NeighbourLists, ws: WarpSearch, penalty: real)
    requires Sound(nb, ww.w.inst.n)
    reads ws
  {
    Clocked(ww.w.inst.n, Snap(ws)) && (old(Calm(ww, nb, Snap(ws), penalty)) ==> Calm(ww, nb, Snap(ws), penalty))
  }

  /** Where a leg stands: the view, the budget, the bank, the deadline cursor, and how the last sweep ended. */
  datatype Leg = Leg(x: View, budget: int, bank: Bank, at: nat, improved: bool, stop: bool, cut: bool)

  /** What a leg runs with. */
  datatype Terms = Terms(penalty: real, floor: int, stopWhenFeasible: bool)

  /** The client at c: stop on the budget or, at every 64th, on the deadline; else step, bank, and stop on
      a warp-free state in repair mode. */
  ghost predicate SweepStep(ww: WarpWorld, nb: NeighbourLists, late: nat -> bool, t: Terms, l: Leg, c: int, l': Leg)
    requires Sound(nb, ww.w.inst.n) && 1 <= c <= ww.w.inst.n
  {
    if l.budget <= t.floor then l' == l.(stop := true)
    else if c % 64 == 0 && late(l.at) then l' == l.(stop := true, cut := true, at := l.at + 1)
    else exists x', committed, charge ::
           && ClientStepped(ww, nb, l.x, c, t.penalty, x', committed, charge)
           && l' == (if committed then
                       Leg(x', l.budget - charge, BankAfter(ww, x'.states, l.bank), AskedBy(l.at, c), true, t.stopWhenFeasible && ZeroWarp(x'.states), false)
                     else l.(x := x', budget := l.budget - charge, at := AskedBy(l.at, c)))
  }

  function AskedBy(at: nat, c: int): nat { if c % 64 == 0 then at + 1 else at }

  /** The clients from c on, until something stops the sweep. */
  ghost predicate Sweeps(ww: WarpWorld, nb: NeighbourLists, late: nat -> bool, t: Terms, l: Leg, c: int, l': Leg)
    requires Sound(nb, ww.w.inst.n) && 1 <= c
    decreases ww.w.inst.n + 1 - c
  {
    if c > ww.w.inst.n then l' == l
    else exists m :: SweepStep(ww, nb, late, t, l, c, m) && if m.stop then l' == m else Sweeps(ww, nb, late, t, m, c + 1, l')
  }

  lemma SweepOn(ww: WarpWorld, nb: NeighbourLists, late: nat -> bool, t: Terms, l: Leg, c: int, m: Leg)
    requires Sound(nb, ww.w.inst.n) && 1 <= c <= ww.w.inst.n && SweepStep(ww, nb, late, t, l, c, m)
    ensures m.stop ==> Sweeps(ww, nb, late, t, l, c, m)
    ensures !m.stop ==> forall l' :: Sweeps(ww, nb, late, t, m, c + 1, l') ==> Sweeps(ww, nb, late, t, l, c, l')
  {
    hide SweepStep, Sound;
  }

  /** A step that goes through. */
  lemma StepsTo(ww: WarpWorld, nb: NeighbourLists, late: nat -> bool, t: Terms, l: Leg, c: int, x': View, committed: bool, charge: int)
    requires Sound(nb, ww.w.inst.n) && 1 <= c <= ww.w.inst.n && l.budget > t.floor && (c % 64 == 0 ==> !late(l.at))
    requires ClientStepped(ww, nb, l.x, c, t.penalty, x', committed, charge)
    ensures SweepStep(ww, nb, late, t, l, c,
                      if committed then
                        Leg(x', l.budget - charge, BankAfter(ww, x'.states, l.bank), AskedBy(l.at, c), true, t.stopWhenFeasible && ZeroWarp(x'.states), false)
                      else l.(x := x', budget := l.budget - charge, at := AskedBy(l.at, c)))
  {
    hide ClientStepped, BankAfter, ZeroWarp, Sound;
  }

  /** A step that stops the sweep. */
  lemma StopsHere(ww: WarpWorld, nb: NeighbourLists, late: nat -> bool, t: Terms, l: Leg, c: int)
    requires Sound(nb, ww.w.inst.n) && 1 <= c <= ww.w.inst.n
    ensures l.budget <= t.floor ==> SweepStep(ww, nb, late, t, l, c, l.(stop := true))
    ensures l.budget > t.floor && c % 64 == 0 && late(l.at) ==> SweepStep(ww, nb, late, t, l, c, l.(stop := true, cut := true, at := l.at + 1))
  {
    hide ClientStepped, BankAfter, ZeroWarp, Sound;
  }

  /** What the sweep's state is worth to its caller. */
  twostate predicate SweepKeeps(ww: WarpWorld, nb: NeighbourLists, ws: WarpSearch, penalty: real, entry: real, maxRoutes: int, bank: Bank)
    requires Sound(nb, ww.w.inst.n)
    reads ws
  {
    && DescentKeeps(ww, ws, penalty) && |ws.routeOf| == ww.w.inst.n + 1 && StampsKept(ww, nb, ws, penalty)
    && BankOk(ww.w, PlacedClients(ww, ws.routeOf), entry, maxRoutes, bank) && Banked(ww, ws, bank)
  }

  /** One client of a sweep. */
  method SweepClient(ww: WarpWorld, nb: NeighbourLists, ws: WarpSearch, o: Oracle, ghost t: Terms, penalty: real, floor: int, stopWhenFeasible: bool,
                     c: int, budget0: int, bank0: Bank, ghost entry: real, ghost maxRoutes: int, ghost improved: bool)
    returns (committed: bool, stop: bool, cut: bool, budget: int, bank: Bank)
    requires Consistent(ww) && Sound(nb, ww.w.inst.n) && Indexed(ww, ws) && |ws.routeOf| == ww.w.inst.n + 1 && |ws.states| <= maxRoutes
    requires BankOk(ww.w, PlacedClients(ww, ws.routeOf), entry, maxRoutes, bank0) && Clocked(ww.w.inst.n, Snap(ws)) && 1 <= c <= ww.w.inst.n
    requires t == Terms(penalty, floor, stopWhenFeasible)
    modifies ws, o`asked
    ensures SweepKeeps(ww, nb, ws, penalty, entry, maxRoutes, bank) && bank.best <= bank0.best
    ensures SweepStep(ww, nb, o.late, t, Leg(old(Snap(ws)), budget0, bank0, old(o.asked), improved, false, false), c,
                      Leg(Snap(ws), budget, bank, o.asked, improved || committed, stop, cut))
    ensures PlacedClients(ww, ws.routeOf) == old(PlacedClients(ww, ws.routeOf))
    ensures budget <= budget0 && (committed ==> budget < budget0) && (budget < budget0 ==> budget0 > floor)
    ensures !committed ==> ws.states == old(ws.states)
    ensures if cut then stop && StruckAt(o.late, old(o.asked), o.asked) else InTime(o.late, old(o.asked), o.asked)
    ensures stop && !cut ==> budget <= floor || (stopWhenFeasible && ZeroWarp(ws.states))
    ensures !committed && !stop ==> Skips(ww.w.inst.n, nb, Snap(ws), c)
    ensures !committed ==> forall d :: 1 <= d <= ww.w.inst.n && old(Skips(ww.w.inst.n, nb, Snap(ws), d)) ==> Skips(ww.w.inst.n, nb, Snap(ws), d)
    ensures old(Skips(ww.w.inst.n, nb, Snap(ws), c)) ==> unchanged(ws) && !committed && budget == budget0 && bank == bank0
  {
    hide Consistent, Solves, BankOk, Sound, Indexed, PlacedClients, ZeroWarp, Cost, Calm, Clocked, Skips, ClientStepped, BankAfter, SweepStep, PenalisedTotal;
    committed, stop, cut, budget, bank := false, false, false, budget0, bank0;
    ghost var x := Snap(ws);
    if budget <= floor {
      StopsHere(ww, nb, o.late, t, Leg(x, budget0, bank0, o.asked, improved, false, false), c);
      stop := true;
      return;
    }
    if c % 64 == 0 {
      cut := o.Past();
      if cut {
        StopsHere(ww, nb, o.late, t, Leg(x, budget0, bank0, old(o.asked), improved, false, false), c);
        stop := true;
        return;
      }
    }
    ghost var routeOf := ws.routeOf;
    committed, budget := ClientStep(ww, nb, ws, c, penalty, budget);
    SamePlacedClients(ww, routeOf, ws.routeOf);
    StepsTo(ww, nb, o.late, t, Leg(x, budget0, bank0, old(o.asked), improved, false, false), c, Snap(ws), committed, budget0 - budget);
    if committed {
      bank := MaybeBank(ww, ws, bank, entry, maxRoutes);
      if stopWhenFeasible { stop := SearchFeasible(ws.states); }
    }
  }

  /** One sweep over the clients. Stopped early, or nothing left to try, or something improved. */
  method Sweep(ww: WarpWorld, nb: NeighbourLists, ws: WarpSearch, o: Oracle, penalty: real, budget0: int, floor: int, bank0: Bank, stopWhenFeasible: bool,
               ghost entry: real, ghost maxRoutes: int)
    returns (improved: bool, stop: bool, cut: bool, budget: int, bank: Bank)
    requires Consistent(ww) && Sound(nb, ww.w.inst.n) && Indexed(ww, ws) && |ws.routeOf| == ww.w.inst.n + 1 && |ws.states| <= maxRoutes
    requires BankOk(ww.w, PlacedClients(ww, ws.routeOf), entry, maxRoutes, bank0) && Clocked(ww.w.inst.n, Snap(ws))
    modifies ws, o`asked
    ensures SweepKeeps(ww, nb, ws, penalty, entry, maxRoutes, bank) && bank.best <= bank0.best
    ensures Sweeps(ww, nb, o.late, Terms(penalty, floor, stopWhenFeasible), Leg(old(Snap(ws)), budget0, bank0, old(o.asked), false, false, false), 1,
                   Leg(Snap(ws), budget, bank, o.asked, improved, stop, cut))
    ensures PlacedClients(ww, ws.routeOf) == old(PlacedClients(ww, ws.routeOf))
    ensures budget <= budget0 && (improved ==> budget < budget0) && (budget < budget0 ==> budget0 > floor)
    ensures !improved ==> ws.states == old(ws.states)
    ensures if cut then stop && StruckAt(o.late, old(o.asked), o.asked) else InTime(o.late, old(o.asked), o.asked)
    ensures stop && !cut ==> budget <= floor || (stopWhenFeasible && ZeroWarp(ws.states))
    ensures !improved && !stop ==> Converged(ww.w.inst.n, nb, Snap(ws))
    ensures old(Converged(ww.w.inst.n, nb, Snap(ws))) ==> unchanged(ws) && !improved && budget == budget0 && bank == bank0
  {
    hide Consistent, Solves, BankOk, Sound, Indexed, PlacedClients, ZeroWarp, Cost, Calm, Clocked, Skips, SweepStep;
    var n := ww.w.inst.n;
    improved, stop, cut, budget, bank := false, false, false, budget0, bank0;
    ghost var clients := PlacedClients(ww, ws.routeOf);
    ghost var t, l0 := Terms(penalty, floor, stopWhenFeasible), Leg(Snap(ws), budget0, bank0, o.asked, false, false, false);
    for c := 1 to n + 1
      invariant SweepKeeps(ww, nb, ws, penalty, entry, maxRoutes, bank) && bank.best <= bank0.best && PlacedClients(ww, ws.routeOf) == clients
      invariant !stop && !cut && InTime(o.late, old(o.asked), o.asked)
      invariant forall l' :: Sweeps(ww, nb, o.late, t, Leg(Snap(ws), budget, bank, o.asked, improved, false, false), c, l') ==> Sweeps(ww, nb, o.late, t, l0, 1, l')
      invariant budget <= budget0 && (improved ==> budget < budget0) && (budget < budget0 ==> budget0 > floor)
      invariant !improved ==> ws.states == old(ws.states)
      invariant !improved ==> forall d :: 1 <= d < c ==> Skips(n, nb, Snap(ws), d)
      invariant old(Converged(n, nb, Snap(ws))) ==> unchanged(ws) && !improved && budget == budget0 && bank == bank0
    {
      ghost var l := Leg(Snap(ws), budget, bank, o.asked, improved, false, false);
      var committed;
      committed, stop, cut, budget, bank := SweepClient(ww, nb, ws, o, t, penalty, floor, stopWhenFeasible, c, budget, bank, entry, maxRoutes, improved);
      improved := improved || committed;
      SweepOn(ww, nb, o.late, t, l, c, Leg(Snap(ws), budget, bank, o.asked, improved, stop, cut));
      if stop { return; }
    }
  }

  /** A leg: sweeps until nothing improves or something stops one. In repair mode a warp-free state is left
      alone. */
  ghost predicate Legs(ww: WarpWorld, nb: NeighbourLists, late: nat -> bool, t: Terms, l: Leg, l': Leg)
    requires Sound(nb, ww.w.inst.n)
    decreases l.budget - t.floor
  {
    exists m :: Sweeps(ww, nb, late, t, l.(improved := false, stop := false, cut := false), 1, m) &&
      if m.improved && !m.stop && m.budget < l.budget && l.budget > t.floor then Legs(ww, nb, late, t, m, l') else l' == m
  }

  ghost predicate DescendsTo(ww: WarpWorld, nb: NeighbourLists, late: nat -> bool, t: Terms, l: Leg, l': Leg)
    requires Sound(nb, ww.w.inst.n)
  {
    if t.stopWhenFeasible && ZeroWarp(l.x.states) then l' == l else Legs(ww, nb, late, t, l, l')
  }

  lemma LegOn(ww: WarpWorld, nb: NeighbourLists, late: nat -> bool, t: Terms, l: Leg, m: Leg)
    requires Sound(nb, ww.w.inst.n) && Sweeps(ww, nb, late, t, l.(improved := false, stop := false, cut := false), 1, m)
    ensures if m.improved && !m.stop && m.budget < l.budget && l.budget > t.floor
            then forall l' :: Legs(ww, nb, late, t, m, l') ==> Legs(ww, nb, late, t, l, l') else Legs(ww, nb, late, t, l, m)
  {
    hide Sweeps, Sound;
  }

  /** descend: sweeps until nothing improves, the budget falls to the floor, the deadline strikes, or
      (in repair mode) everything is warp-free. Without one of these three every client ends up skipped,
      and a descent entered in such a state does nothing, whatever its penalty. */
  method Descend(ww: WarpWorld, nb: NeighbourLists, ws: WarpSearch, o: Oracle, penalty: real, budget0: int, floor: int, bank0: Bank, stopWhenFeasible: bool,
                 ghost entry: real, ghost maxRoutes: int)
    returns (budget: int, bank: Bank, ghost end: Leg)
    requires Consistent(ww) && Sound(nb, ww.w.inst.n) && Indexed(ww, ws) && |ws.routeOf| == ww.w.inst.n + 1 && |ws.states| <= maxRoutes
    requires BankOk(ww.w, PlacedClients(ww, ws.routeOf), entry, maxRoutes, bank0) && Clocked(ww.w.inst.n, Snap(ws))
    modifies ws, o`asked
    ensures SweepKeeps(ww, nb, ws, penalty, entry, maxRoutes, bank) && bank.best <= bank0.best && budget <= budget0
    ensures PlacedClients(ww, ws.routeOf) == old(PlacedClients(ww, ws.routeOf))
    ensures end.x == Snap(ws) && end.budget == budget && end.bank == bank && end.at == o.asked
    ensures DescendsTo(ww, nb, o.late, Terms(penalty, floor, stopWhenFeasible), Leg(old(Snap(ws)), budget0, bank0, old(o.asked), false, false, false), end)
    ensures StruckAt(o.late, old(o.asked), o.asked) || budget <= floor || (stopWhenFeasible && ZeroWarp(ws.states)) || Converged(ww.w.inst.n, nb, Snap(ws))
    ensures old(Converged(ww.w.inst.n, nb, Snap(ws))) ==> unchanged(ws) && budget == budget0 && bank == bank0
  {
    hide Consistent, Solves, BankOk, Sound, Indexed, PlacedClients, ZeroWarp, Cost, Calm, Clocked, Converged, Sweeps, Legs;
    budget, bank := budget0, bank0;
    ghost var l0 := Leg(Snap(ws), budget0, bank0, o.asked, false, false, false);
    end := l0;
    if stopWhenFeasible {
      var ok := SearchFeasible(ws.states);
      if ok { return; }
    }
    ghost var t := Terms(penalty, floor, stopWhenFeasible);
    var improved, stop, cut := true, false, false;
    while improved && !stop
      invariant SweepKeeps(ww, nb, ws, penalty, entry, maxRoutes, bank) && bank.best <= bank0.best && budget <= budget0
      invariant PlacedClients(ww, ws.routeOf) == old(PlacedClients(ww, ws.routeOf))
      invariant end.x == Snap(ws) && end.budget == budget && end.bank == bank && end.at == o.asked
      invariant if improved && !stop then forall l' :: Legs(ww, nb, o.late, t, end, l') ==> Legs(ww, nb, o.late, t, l0, l') else Legs(ww, nb, o.late, t, l0, end)
      invariant if cut then stop && StruckAt(o.late, old(o.asked), o.asked) else InTime(o.late, old(o.asked), o.asked)
      invariant stop && !cut ==> budget <= floor || (stopWhenFeasible && ZeroWarp(ws.states))
      invariant !improved && !stop ==> Converged(ww.w.inst.n, nb, Snap(ws))
      invariant old(Converged(ww.w.inst.n, nb, Snap(ws))) ==> unchanged(ws) && budget == budget0 && bank == bank0
      decreases budget - floor, improved
    {
      ghost var l := end;
      improved, stop, cut, budget, bank := Sweep(ww, nb, ws, o, penalty, budget, floor, bank, stopWhenFeasible, entry, maxRoutes);
      end := Leg(Snap(ws), budget, bank, o.asked, improved, stop, cut);
      LegOn(ww, nb, o.late, t, l, end);
    }
  }

  /** A fresh search: no stamp covers anything yet. */
  lemma FreshIsCalm(ww: WarpWorld, nb: NeighbourLists, ws: WarpSearch, penalty: real)
    requires Indexed(ww, ws) && Unstamped(ws) && Sound(nb, ww.w.inst.n)
    ensures Clocked(ww.w.inst.n, Snap(ws)) && Calm(ww, nb, Snap(ws), penalty)
  {
    hide Exact, Sound, AllOk, Quiet, IsPartner;
    var n, x := ww.w.inst.n, Snap(ws);
    forall c, v | 1 <= c <= n && IsPartner(n, nb, c, v) && Stamped(x, c, v) ensures NothingPays(ww, x, c, v, penalty) {
    }
  }

  // ---------- squeeze_phase ----------

  /** No relocate and no swap tried by the descent pays. */
  ghost predicate LocallyOptimal(ww: WarpWorld, nb: NeighbourLists, x: View, penalty: real)
    requires Sound(nb, ww.w.inst.n)
  {
    forall c, v :: 1 <= c <= ww.w.inst.n && IsPartner(ww.w.inst.n, nb, c, v) ==> NothingPays(ww, x, c, v, penalty)
  }

  /** The repair leg from l: nothing on a warp-free state, else a descent at the dominating weight and one
      more look at the bank. */
  ghost predicate RepairsTo(ww: WarpWorld, nb: NeighbourLists, late: nat -> bool, l: Leg, l': Leg)
    requires Sound(nb, ww.w.inst.n)
  {
    if ZeroWarp(l.x.states) then l' == l
    else exists m :: DescendsTo(ww, nb, late, Terms(REPAIR_PENALTY, 0, true), l, m) && l' == m.(bank := BankAfter(ww, m.x.states, m.bank))
  }

  /** The repair leg: from a state with warp, descend at the dominating penalty until warp-free. Entered
      with every client skipped it changes nothing and spends nothing. */
  method RepairLeg(ww: WarpWorld, nb: NeighbourLists, ws: WarpSearch, o: Oracle, budget0: int, bank0: Bank, ghost entry: real, ghost maxRoutes: int)
    returns (budget: int, bank: Bank, ghost end: Leg)
    requires Consistent(ww) && Sound(nb, ww.w.inst.n) && Indexed(ww, ws) && |ws.routeOf| == ww.w.inst.n + 1 && |ws.states| <= maxRoutes
    requires BankOk(ww.w, PlacedClients(ww, ws.routeOf), entry, maxRoutes, bank0) && Clocked(ww.w.inst.n, Snap(ws))
    modifies ws, o`asked
    ensures Indexed(ww, ws) && |ws.routeOf| == ww.w.inst.n + 1 && PlacedClients(ww, ws.routeOf) == old(PlacedClients(ww, ws.routeOf))
    ensures |ws.states| <= |old(ws.states)|
    ensures BankOk(ww.w, PlacedClients(ww, ws.routeOf), entry, maxRoutes, bank) && bank.best <= bank0.best && budget <= budget0
    ensures end.x == Snap(ws) && end.budget == budget && end.bank == bank && end.at == o.asked
    ensures RepairsTo(ww, nb, o.late, Leg(old(Snap(ws)), budget0, bank0, old(o.asked), false, false, false), end)
    ensures ZeroWarp(ws.states) ==> unchanged(ws) || bank.best <= Cost(ww.w, AsTours(ws.states)) + SCREEN_EPS
    ensures old(ZeroWarp(ws.states) || Converged(ww.w.inst.n, nb, Snap(ws))) ==> unchanged(ws) && budget == budget0 && bank == bank0
  {
    hide Consistent, Sound, Indexed, Cost, PlacedClients, Converged, Calm, Clocked, BankOk, ZeroWarp, DescendsTo, BankAfter;
    budget, bank := budget0, bank0;
    end := Leg(Snap(ws), budget0, bank0, o.asked, false, false, false);
    var ok := SearchFeasible(ws.states);
    if !ok {
      ghost var routeOf := ws.routeOf;
      budget, bank, end := Descend(ww, nb, ws, o, REPAIR_PENALTY, budget, 0, bank, true, entry, maxRoutes);
      SamePlacedClients(ww, routeOf, ws.routeOf);
      bank := MaybeBank(ww, ws, bank, entry, maxRoutes);
      end := end.(bank := bank);
    }
  }

  /** The two legs: explore at the given penalty, leaving a fifth of the budget to repair at the
      dominating one. The stamps survive into the repair leg, so unless the explore leg was cut short by
      deadline or budget, the repair leg leaves its state, bank and budget as they are, and that state is
      locally optimal at the exploring penalty. */
  method ExploreAndRepair(ww: WarpWorld, nb: NeighbourLists, ws: WarpSearch, o: Oracle, penalty: real, workCap: nat, bank0: Bank,
                          ghost entry: real, ghost maxRoutes: int)
    returns (bank: Bank, ghost explored: Leg, ghost end: Leg)
    requires Consistent(ww) && Sound(nb, ww.w.inst.n) && Indexed(ww, ws) && |ws.routeOf| == ww.w.inst.n + 1 && |ws.states| <= maxRoutes
    requires BankOk(ww.w, PlacedClients(ww, ws.routeOf), entry, maxRoutes, bank0)
    requires Clocked(ww.w.inst.n, Snap(ws)) && Calm(ww, nb, Snap(ws), penalty)
    modifies ws, o`asked
    ensures Indexed(ww, ws) && |ws.routeOf| == ww.w.inst.n + 1 && PlacedClients(ww, ws.routeOf) == old(PlacedClients(ww, ws.routeOf))
    ensures |ws.states| <= |old(ws.states)|
    ensures BankOk(ww.w, PlacedClients(ww, ws.routeOf), entry, maxRoutes, bank) && bank.best <= explored.bank.best <= bank0.best
    ensures end.x == Snap(ws) && end.bank == bank && end.at == o.asked && end.budget <= explored.budget <= workCap
    ensures DescendsTo(ww, nb, o.late, Terms(penalty, workCap / 5, false), Leg(old(Snap(ws)), workCap, bank0, old(o.asked), false, false, false), explored)
    ensures RepairsTo(ww, nb, o.late, explored.(improved := false, stop := false, cut := false), end)
    ensures StruckAt(o.late, old(o.asked), explored.at) || explored.budget <= workCap / 5
            || (LocallyOptimal(ww, nb, explored.x, penalty) && end.x == explored.x && end.budget == explored.budget && end.bank == explored.bank)
    ensures ZeroWarp(ws.states) && ws.states != old(ws.states) ==> bank.best <= Cost(ww.w, AsTours(ws.states)) + SCREEN_EPS
  {
    hide Consistent, Sound, Indexed, Cost, PlacedClients, Converged, Calm, Clocked, BankOk, NothingPays, IsPartner, ZeroWarp, DescendsTo, RepairsTo;
    var reserve := workCap / 5;
    var budget;
    budget, bank, explored := Descend(ww, nb, ws, o, penalty, workCap, reserve, bank0, false, entry, maxRoutes);
    ghost var converged := Converged(ww.w.inst.n, nb, Snap(ws));
    if converged { ConvergedIsOptimum(ww, nb, Snap(ws), penalty); }
    budget, bank, end := RepairLeg(ww, nb, ws, o, budget, bank, entry, maxRoutes);
  }

  /** A fresh search over the given tours. */
  ghost predicate StartView(ww: WarpWorld, lists: seq<seq<int>>, penalty: real, x: View) {
    && AreBuilt(ww, lists, penalty, x.states) && Exact(ww.w.inst.n, Lists(x.states), x.routeOf, x.posOf)
    && x.epoch == 1 && |x.routeEpoch| == |x.states| && |x.stamp| == ww.w.inst.n + 1
    && (forall r :: 0 <= r < |x.routeEpoch| ==> x.routeEpoch[r] == 1) && (forall c :: 0 <= c < |x.stamp| ==> x.stamp[c] == 0)
  }

  /** The phase by its legs: nothing without a work cap; else explore and repair from a fresh search over the
      entry routes, and the bank decides. */
  ghost predicate PhaseBy(ww: WarpWorld, nb: NeighbourLists, late: nat -> bool, penalty: real, workCap: int, tours: seq<Tour>, at: nat,
                          start: View, explored: Leg, end: Leg, adopted: bool, routes: seq<seq<int>>, at': nat)
    requires Sound(nb, ww.w.inst.n)
  {
    if workCap <= 0 then !adopted && routes == Routes(tours) && at' == at
    else
      && StartView(ww, Routes(tours), penalty, start)
      && DescendsTo(ww, nb, late, Terms(penalty, workCap / 5, false), Leg(start, workCap, Bank(Cost(ww.w, tours), [], 0), at, false, false, false), explored)
      && RepairsTo(ww, nb, late, explored.(improved := false, stop := false, cut := false), end)
      && at' == end.at && adopted == (|end.bank.routes| > 0) && routes == if adopted then end.bank.routes else Routes(tours)
  }

  ghost predicate PhaseTo(ww: WarpWorld, nb: NeighbourLists, late: nat -> bool, penalty: real, workCap: int, tours: seq<Tour>, at: nat,
                          adopted: bool, routes: seq<seq<int>>, at': nat)
    requires Sound(nb, ww.w.inst.n)
  {
    exists start, explored, end :: PhaseBy(ww, nb, late, penalty, workCap, tours, at, start, explored, end, adopted, routes, at')
  }

  /** squeeze_phase: true exactly when the bank holds something, and then the routes are a warp-free
      solution for the same clients, strictly cheaper than the entry, with no more routes. A warp-free
      final state that a commit reached and that beats the entry clearly is never lost. */
  method SqueezePhase(ww: WarpWorld, nb: NeighbourLists, o: Oracle, tours: seq<Tour>, penalty: real, workCap: int)
    returns (adopted: bool, routes: seq<seq<int>>, ghost start: View, ghost explored: Leg, ghost end: Leg)
    requires Consistent(ww) && Sound(nb, ww.w.inst.n) && Feasible(ww.w, tours)
    modifies o`asked
    ensures PhaseBy(ww, nb, o.late, penalty, workCap, tours, old(o.asked), start, explored, end, adopted, routes, o.asked)
    ensures workCap > 0 ==>
              || StruckAt(o.late, old(o.asked), explored.at) || explored.budget <= workCap / 5
              || (LocallyOptimal(ww, nb, explored.x, penalty) && end.x == explored.x)
    ensures workCap > 0 && ZeroWarp(end.x.states) && end.x.states != start.states && Cost(ww.w, AsTours(end.x.states)) < Cost(ww.w, tours) - 2.0 * SCREEN_EPS ==> adopted
    ensures adopted ==>
              && (forall k :: 0 <= k < |routes| ==> ww.w.price.fold(routes[k]).Some?)
              && Feasible(ww.w, Priced(ww.w, routes)) && |routes| <= |tours|
              && Cost(ww.w, Priced(ww.w, routes)) < Cost(ww.w, tours) - SCREEN_EPS
    ensures adopted && ZeroWarp(end.x.states) && end.x.states != start.states ==> Cost(ww.w, Priced(ww.w, routes)) <= Cost(ww.w, AsTours(end.x.states)) + SCREEN_EPS
  {
    hide Consistent, Sound, Indexed, Cost, Load, PlacedClients, DescendsTo, RepairsTo, LocallyOptimal, AreBuilt, ZeroWarp;
    routes, adopted := Routes(tours), false;
    start := View([], [], [], [], [], 0);
    explored := Leg(start, 0, Bank(0.0, [], 0), 0, false, false, false);
    end := explored;
    if workCap <= 0 { return; }
    var ws := new WarpSearch();
    FeasibleSeparate(ww, tours);
    var ok := InitWarpSearch(ww, ws, routes, penalty);
    if !ok {
      NoWall(ww, tours);
      assert false;
    }
    EntryState(ww, ws, tours);
    ghost var entry := Cost(ww.w, tours);
    start := Snap(ws);
    StartsSo(ww, ws, Routes(tours), penalty);
    var d := FeasibleObjective(ww, ws.states);
    var bank := Bank(d, [], 0);
    FreshIsCalm(ww, nb, ws, penalty);
    bank, explored, end := ExploreAndRepair(ww, nb, ws, o, penalty, workCap, bank, entry, |tours|);
    BankDecides(ww, tours, PlacedClients(ww, ws.routeOf), entry, bank, end.x.states);
    if |bank.routes| == 0 { return; }
    routes, adopted := bank.routes, true;
  }

  lemma StartsSo(ww: WarpWorld, ws: WarpSearch, lists: seq<seq<int>>, penalty: real)
    requires Indexed(ww, ws) && Unstamped(ws) && AreBuilt(ww, lists, penalty, ws.states)
    ensures StartView(ww, lists, penalty, Snap(ws))
  {
    hide Exact, AreBuilt, AllOk;
  }

  /** Feasible tours never hit a wall. */
  lemma NoWall(ww: WarpWorld, tours: seq<Tour>)
    requires Consistent(ww) && Feasible(ww.w, tours)
    ensures forall k :: 0 <= k < |Routes(tours)| ==> ww.warp.build(Routes(tours)[k]).Some?
  {
    hide Load;
    forall k | 0 <= k < |Routes(tours)| ensures ww.warp.build(Routes(tours)[k]).Some? { assert TourOk(ww.w, tours[k]); }
  }

  /** An empty bank has not moved. */
  lemma BankDecides(ww: WarpWorld, tours: seq<Tour>, clients: multiset<int>, entry: real, bank: Bank, states: seq<WarpTour>)
    requires Feasible(ww.w, tours) && clients == Served(tours) && entry == Cost(ww.w, tours) && BankOk(ww.w, clients, entry, |tours|, bank)
    requires |states| <= |tours|
    ensures |bank.routes| == 0 ==> bank.best == entry || states == []
    ensures |bank.routes| > 0 ==>
              && (forall k :: 0 <= k < |bank.routes| ==> ww.w.price.fold(bank.routes[k]).Some?) && Feasible(ww.w, Priced(ww.w, bank.routes))
              && Cost(ww.w, Priced(ww.w, bank.routes)) == bank.best < entry - SCREEN_EPS && |bank.routes| <= |tours|
  {
    hide Cost, Load;
    if |tours| > 0 {
      assert TourOk(ww.w, tours[|tours| - 1]);
      assert tours[|tours| - 1].vertices[0] in Served(tours);
    }
  }

  lemma FeasibleSeparate(ww: WarpWorld, tours: seq<Tour>)
    requires Feasible(ww.w, tours)
    ensures NonEmpty(Routes(tours)) == Routes(tours) && Separate(ww.w.inst.n, Routes(tours)) && WithinCapacity(ww.w, Routes(tours))
    ensures forall k :: 0 <= k < |tours| ==> ww.w.inst.Route(Routes(tours)[k])
  {
    assert Served(tours) + multiset{} == Served(tours);
    HoldsSeparate(ww.w, tours, multiset{});
    HoldsRoutesOf(ww.w, tours);
  }

  lemma HoldsRoutesOf(w: World, tours: seq<Tour>)
    requires ToursOk(w, tours)
    ensures forall k :: 0 <= k < |tours| ==> w.inst.Route(Routes(tours)[k]) && |Routes(tours)[k]| > 0
  {
    forall k | 0 <= k < |tours| ensures w.inst.Route(Routes(tours)[k]) && |Routes(tours)[k]| > 0 { assert TourOk(w, tours[k]); }
  }

  /** The entry state carries the stored objective and all clients. */
  lemma EntryState(ww: WarpWorld, ws: WarpSearch, tours: seq<Tour>)
    requires Indexed(ww, ws) && ToursOk(ww.w, tours) && Lists(ws.states) == Routes(tours)
    ensures |ws.routeOf| == ww.w.inst.n + 1 && PlacedClients(ww, ws.routeOf) == Served(tours)
    ensures |ws.states| == |tours| && AsTours(ws.states) == tours && ZeroWarp(ws.states)
  {
    hide Load, Exact;
    forall k | 0 <= k < |tours| ensures AsTours(ws.states)[k] == tours[k] && ws.states[k].minWarp == 0.0 {
      assert WarpTourOk(ww, ws.states[k]) && TourOk(ww.w, tours[k]);
      assert ws.states[k].vertices == Lists(ws.states)[k] == Routes(tours)[k] == tours[k].vertices;
    }
    ExactServed(ww.w.inst.n, tours, ws.routeOf, ws.posOf);
  }
}
