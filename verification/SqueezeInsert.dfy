/** squeeze_insert (cpp/ls/squeeze.cpp): force a client in at the cheapest penalised position, then
    repair warp-positive routes one at a time until everything is warp-free again, or give up. */
module SqueezeInsertion {
  import opened Common
  import opened Oracles
  import opened Instances
  import opened Insertions
  import opened Neighbours
  import opened SearchStates
  import opened Staleness
  import opened LocalSearch
  import opened Descents
  import opened Repairs
  import opened WarpSearches
  import opened Squeezes

  // ---------- the forced insertion ----------

  /** x prices a position that fits the capacity and hits no wall. */
  predicate ForcedSlot(ww: WarpWorld, states: seq<WarpTour>, c: int, penalty: real, x: Candidate) {
    && 0 <= x.route < |states|
    && var s := states[x.route];
       && 0 <= x.position <= |s.vertices| && s.load + DemandOf(ww.w.inst, c) <= ww.w.inst.capacity
       && ww.warp.splice(s.vertices, x.position, x.position - 1, [c], 0, 0, penalty) == Some(x.delta + Cost1(ww, s, penalty))
  }

  /** Positions the insertion looks at: all of them, or route ends and the seams of neighbours. */
  ghost predicate Position(n: nat, nb: NeighbourLists, states: seq<WarpTour>, routeOf: seq<int>, posOf: seq<int>, c: int, r: int, p: int)
    requires Sound(nb, n) && 1 <= c <= n && |routeOf| == |posOf| == n + 1
  {
    && 0 <= r < |states| && 0 <= p <= |states[r].vertices|
    && (nb.Restricted() ==> p == 0 || p == |states[r].vertices| || SeamOf(routeOf, posOf, nb.List(c), r, p))
  }

  predicate Seam(routeOf: seq<int>, posOf: seq<int>, v: int, r: int, p: int) {
    0 <= v < |routeOf| && v < |posOf| && routeOf[v] == r && (p == posOf[v] || p == posOf[v] + 1)
  }

  ghost predicate SeamOf(routeOf: seq<int>, posOf: seq<int>, list: seq<int>, r: int, p: int) {
    exists v :: v in list && Seam(routeOf, posOf, v, r, p)
  }

  lemma SeamNext(routeOf: seq<int>, posOf: seq<int>, list: seq<int>, k: nat)
    requires k < |list|
    ensures forall r, p :: SeamOf(routeOf, posOf, list[..k + 1], r, p) <==>
                           SeamOf(routeOf, posOf, list[..k], r, p) || Seam(routeOf, posOf, list[k], r, p)
  {
    hide Seam;
    assert forall v :: v in list[..k + 1] <==> v in list[..k] || v == list[k];
  }

  /** best is the cheapest forced slot among the positions seen. */
  ghost predicate BestSeen(ww: WarpWorld, states: seq<WarpTour>, c: int, penalty: real, seen: seq<(int, int)>, best: Option<Candidate>) {
    && (best.Some? ==> ForcedSlot(ww, states, c, penalty, best.value) && (best.value.route, best.value.position) in seen)
    && forall y :: ForcedSlot(ww, states, c, penalty, y) && (y.route, y.position) in seen ==> best.Some? && (y == best.value || Before(best.value, y))
  }

  /** One position further: the earlier of two candidates in the order wins. */
  lemma SeenNext(ww: WarpWorld, states: seq<WarpTour>, c: int, penalty: real, seen: seq<(int, int)>, best: Option<Candidate>, r: int, p: int, found: Option<Candidate>)
    requires BestSeen(ww, states, c, penalty, seen, best)
    requires forall y :: ForcedSlot(ww, states, c, penalty, y) && y.route == r && y.position == p <==> found == Some(y)
    ensures BestSeen(ww, states, c, penalty, seen + [(r, p)], if found.Some? && (best.None? || Before(found.value, best.value)) then found else best)
  {
    hide ForcedSlot;
    assert forall q :: q in seen + [(r, p)] <==> q in seen || q == (r, p);
    assert found.Some? ==> (found.value.route, found.value.position) == (r, p);
  }

  /** The positions whose route has room: those are priced. */
  ghost function Priceable(ww: WarpWorld, states: seq<WarpTour>, c: int, seen: seq<(int, int)>): set<(int, int)> {
    set q | q in seen && 0 <= q.0 < |states| && states[q.0].load + DemandOf(ww.w.inst, c) <= ww.w.inst.capacity
  }

  lemma PriceableNext(ww: WarpWorld, states: seq<WarpTour>, c: int, seen: seq<(int, int)>, q: (int, int))
    requires q !in seen && 0 <= q.0 < |states|
    ensures |Priceable(ww, states, c, seen + [q])| ==
            |Priceable(ww, states, c, seen)| + (if states[q.0].load + DemandOf(ww.w.inst, c) <= ww.w.inst.capacity then 1 else 0)
  {
    var fits := states[q.0].load + DemandOf(ww.w.inst, c) <= ww.w.inst.capacity;
    assert Priceable(ww, states, c, seen + [q]) == Priceable(ww, states, c, seen) + if fits then {q} else {};
  }

  /** consider one position. */
  method Consider(ww: WarpWorld, states: seq<WarpTour>, c: int, penalty: real, r: int, p: int, ghost seen: seq<(int, int)>, best0: Option<Candidate>, budget0: int)
    returns (best: Option<Candidate>, budget: int)
    requires 0 <= r < |states| && 0 <= p <= |states[r].vertices| && (r, p) !in seen && BestSeen(ww, states, c, penalty, seen, best0)
    ensures BestSeen(ww, states, c, penalty, seen + [(r, p)], best)
    ensures budget == budget0 + |Priceable(ww, states, c, seen)| - |Priceable(ww, states, c, seen + [(r, p)])|
  {
    hide BestSeen, Priceable;
    PriceableNext(ww, states, c, seen, (r, p));
    best, budget := best0, budget0;
    var s := states[r];
    var found: Option<Candidate> := None;
    if s.load + DemandOf(ww.w.inst, c) <= ww.w.inst.capacity {
      budget := budget - 1;
      var ev := ww.warp.splice(s.vertices, p, p - 1, [c], 0, 0, penalty);
      if ev.Some? { found := Some(Candidate(ev.value - Cost1(ww, s, penalty), r, p)); }
    }
    SeenNext(ww, states, c, penalty, seen, best, r, p, found);
    if found.Some? && (best.None? || Before(found.value, best.value)) { best := found; }
  }

  /** push: consider a position unless it was seen. */
  method Push(ww: WarpWorld, states: seq<WarpTour>, c: int, penalty: real, r: int, p: int, seen0: seq<(int, int)>, best0: Option<Candidate>, budget0: int)
    returns (seen: seq<(int, int)>, best: Option<Candidate>, budget: int)
    requires 0 <= r < |states| && 0 <= p <= |states[r].vertices| && BestSeen(ww, states, c, penalty, seen0, best0)
    ensures BestSeen(ww, states, c, penalty, seen, best)
    ensures budget == budget0 + |Priceable(ww, states, c, seen0)| - |Priceable(ww, states, c, seen)|
    ensures forall q :: q in seen <==> q in seen0 || q == (r, p)
  {
    hide BestSeen, Priceable;
    seen, best, budget := seen0, best0, budget0;
    if (r, p) in seen { return; }
    best, budget := Consider(ww, states, c, penalty, r, p, seen, best, budget);
    seen := seen + [(r, p)];
  }

  /** The cheapest forced insertion over all the positions of the rule. */
  ghost predicate IsBestForced(ww: WarpWorld, nb: NeighbourLists, states: seq<WarpTour>, routeOf: seq<int>, posOf: seq<int>, c: int, penalty: real,
                               best: Option<Candidate>)
    requires Sound(nb, ww.w.inst.n) && 1 <= c <= ww.w.inst.n && |routeOf| == |posOf| == ww.w.inst.n + 1
  {
    && (best.Some? ==> ForcedSlot(ww, states, c, penalty, best.value)
                       && Position(ww.w.inst.n, nb, states, routeOf, posOf, c, best.value.route, best.value.position))
    && forall y :: ForcedSlot(ww, states, c, penalty, y) && Position(ww.w.inst.n, nb, states, routeOf, posOf, c, y.route, y.position) ==>
         best.Some? && (y == best.value || Before(best.value, y))
  }

  method AllPositions(ww: WarpWorld, states: seq<WarpTour>, c: int, penalty: real, budget0: int)
    returns (ghost seen: seq<(int, int)>, best: Option<Candidate>, budget: int)
    ensures BestSeen(ww, states, c, penalty, seen, best) && budget == budget0 - |Priceable(ww, states, c, seen)|
    ensures forall r, p :: (r, p) in seen <==> 0 <= r < |states| && 0 <= p <= |states[r].vertices|
  {
    hide BestSeen, Priceable;
    seen, best, budget := [], None, budget0;
    NothingSeen(ww, states, c, penalty);
    for r := 0 to |states|
      invariant BestSeen(ww, states, c, penalty, seen, best) && budget == budget0 - |Priceable(ww, states, c, seen)|
      invariant forall q, p :: (q, p) in seen <==> 0 <= q < r && 0 <= p <= |states[q].vertices|
    {
      for p := 0 to |states[r].vertices| + 1
        invariant BestSeen(ww, states, c, penalty, seen, best) && budget == budget0 - |Priceable(ww, states, c, seen)|
        invariant forall q, i :: (q, i) in seen <==> (0 <= q < r && 0 <= i <= |states[q].vertices|) || (q == r && 0 <= i < p)
      {
        best, budget := Consider(ww, states, c, penalty, r, p, seen, best, budget);
        ghost var before := seen;
        seen := seen + [(r, p)];
        assert forall q :: q in seen <==> q in before || q == (r, p);
      }
    }
  }

  lemma NothingSeen(ww: WarpWorld, states: seq<WarpTour>, c: int, penalty: real)
    ensures BestSeen(ww, states, c, penalty, [], None) && |Priceable(ww, states, c, [])| == 0
  {
  }

  method NearPositions(ww: WarpWorld, nb: NeighbourLists, ws: WarpSearch, c: int, penalty: real, budget0: int)
    returns (seen: seq<(int, int)>, best: Option<Candidate>, budget: int)
    requires Sound(nb, ww.w.inst.n) && nb.Restricted() && Indexed(ww, ws) && 1 <= c <= ww.w.inst.n
    requires |ws.routeOf| == |ws.posOf| == ww.w.inst.n + 1
    ensures BestSeen(ww, ws.states, c, penalty, seen, best) && budget == budget0 - |Priceable(ww, ws.states, c, seen)|
    ensures forall r, p :: (r, p) in seen <==> Position(ww.w.inst.n, nb, ws.states, ws.routeOf, ws.posOf, c, r, p)
  {
    hide BestSeen, Indexed, Priceable;
    seen, best, budget := [], None, budget0;
    NothingSeen(ww, ws.states, c, penalty);
    for r := 0 to |ws.states|
      invariant BestSeen(ww, ws.states, c, penalty, seen, best) && budget == budget0 - |Priceable(ww, ws.states, c, seen)|
      invariant forall q, p :: (q, p) in seen <==> 0 <= q < r && (p == 0 || p == |ws.states[q].vertices|)
    {
      seen, best, budget := Push(ww, ws.states, c, penalty, r, 0, seen, best, budget);
      seen, best, budget := Push(ww, ws.states, c, penalty, r, |ws.states[r].vertices|, seen, best, budget);
    }
    var list := nb.List(c);
    for k := 0 to |list|
      invariant BestSeen(ww, ws.states, c, penalty, seen, best) && budget == budget0 - |Priceable(ww, ws.states, c, seen)|
      invariant forall q, p :: (q, p) in seen <==>
                  0 <= q < |ws.states| && (p == 0 || p == |ws.states[q].vertices| || SeamOf(ws.routeOf, ws.posOf, list[..k], q, p))
    {
      assert list[k] in list;
      SeamNext(ws.routeOf, ws.posOf, list, k);
      IndexPlace(ww, ws, list[k]);
      var r := ws.routeOf[list[k]];
      if r >= 0 {
        seen, best, budget := Push(ww, ws.states, c, penalty, r, ws.posOf[list[k]], seen, best, budget);
        seen, best, budget := Push(ww, ws.states, c, penalty, r, ws.posOf[list[k]] + 1, seen, best, budget);
      }
    }
    assert list[..|list|] == list;
    SeamsInside(ww, ws);
  }

  lemma SeamsInside(ww: WarpWorld, ws: WarpSearch)
    requires Indexed(ww, ws)
    ensures forall v, r, p :: r >= 0 && Seam(ws.routeOf, ws.posOf, v, r, p) ==> r < |ws.states| && 0 <= p <= |ws.states[r].vertices|
  {
    forall v, r, p | r >= 0 && Seam(ws.routeOf, ws.posOf, v, r, p) ensures r < |ws.states| && 0 <= p <= |ws.states[r].vertices| {
      assert Sits(Lists(ws.states), v, r, ws.posOf[v]);
    }
  }

  /** The pricings of a forced insertion: one for every position looked at whose route has room. */
  ghost function ForcedPrices(ww: WarpWorld, nb: NeighbourLists, states: seq<WarpTour>, routeOf: seq<int>, posOf: seq<int>, c: int): set<(int, int)>
    requires Sound(nb, ww.w.inst.n) && 1 <= c <= ww.w.inst.n && |routeOf| == |posOf| == ww.w.inst.n + 1
  {
    set r, p | 0 <= r < |states| && 0 <= p <= |states[r].vertices|
               && Position(ww.w.inst.n, nb, states, routeOf, posOf, c, r, p)
               && states[r].load + DemandOf(ww.w.inst, c) <= ww.w.inst.capacity :: (r, p)
  }

  lemma AllPriced(ww: WarpWorld, nb: NeighbourLists, states: seq<WarpTour>, routeOf: seq<int>, posOf: seq<int>, c: int, seen: seq<(int, int)>)
    requires Sound(nb, ww.w.inst.n) && 1 <= c <= ww.w.inst.n && |routeOf| == |posOf| == ww.w.inst.n + 1
    requires forall r, p :: (r, p) in seen <==> Position(ww.w.inst.n, nb, states, routeOf, posOf, c, r, p)
    ensures Priceable(ww, states, c, seen) == ForcedPrices(ww, nb, states, routeOf, posOf, c)
  {
    hide Sound, SeamOf;
    forall q | q in Priceable(ww, states, c, seen) ensures q in ForcedPrices(ww, nb, states, routeOf, posOf, c) {
      assert q == (q.0, q.1) && (q.0, q.1) in seen && Position(ww.w.inst.n, nb, states, routeOf, posOf, c, q.0, q.1);
    }
    forall q | q in ForcedPrices(ww, nb, states, routeOf, posOf, c) ensures q in Priceable(ww, states, c, seen) {
      assert Position(ww.w.inst.n, nb, states, routeOf, posOf, c, q.0, q.1) && q == (q.0, q.1);
    }
  }

  method BestForced(ww: WarpWorld, nb: NeighbourLists, ws: WarpSearch, c: int, penalty: real, budget0: int)
    returns (best: Option<Candidate>, budget: int)
    requires Sound(nb, ww.w.inst.n) && Indexed(ww, ws) && 1 <= c <= ww.w.inst.n
    requires |ws.routeOf| == |ws.posOf| == ww.w.inst.n + 1
    ensures IsBestForced(ww, nb, ws.states, ws.routeOf, ws.posOf, c, penalty, best)
    ensures budget == budget0 - |ForcedPrices(ww, nb, ws.states, ws.routeOf, ws.posOf, c)|
  {
    hide Indexed, ForcedSlot, Priceable, ForcedPrices;
    ForcedInside(ww, ws.states, c, penalty);
    if nb.Restricted() {
      var seen;
      seen, best, budget := NearPositions(ww, nb, ws, c, penalty, budget0);
      AllPriced(ww, nb, ws.states, ws.routeOf, ws.posOf, c, seen);
    } else {
      ghost var seen;
      seen, best, budget := AllPositions(ww, ws.states, c, penalty, budget0);
      AllPriced(ww, nb, ws.states, ws.routeOf, ws.posOf, c, seen);
    }
  }

  lemma ForcedInside(ww: WarpWorld, states: seq<WarpTour>, c: int, penalty: real)
    ensures forall y :: ForcedSlot(ww, states, c, penalty, y) ==> 0 <= y.route < |states| && 0 <= y.position <= |states[y.route].vertices|
  {
  }

  // ---------- placing the client ----------

  /** An unplaced client put into one list and indexed. */
  lemma InsertKeepsExact(n: nat, lists: seq<seq<int>>, routeOf: seq<int>, posOf: seq<int>, r: nat, p: nat, c: int, routeOf': seq<int>, posOf': seq<int>)
    requires Exact(n, lists, routeOf, posOf) && r < |lists| && p <= |lists[r]| && 1 <= c <= n && routeOf[c] < 0
    requires |routeOf'| == |posOf'|
    requires var l := InsertAt(lists[r], p, c);
             OthersKept(l, routeOf, routeOf') && OthersKept(l, posOf, posOf') && IndexedAt(l, r, routeOf', posOf')
    ensures Exact(n, lists[r := InsertAt(lists[r], p, c)], routeOf', posOf')
    ensures PlacedSet(n, routeOf') == PlacedSet(n, routeOf) + {c}
  {
    var l := InsertAt(lists[r], p, c);
    var after := lists[r := l];
    InsertedMembers(lists[r], p, c);
    forall q, i | 0 <= q < |after| && 0 <= i < |after[q]| ensures 1 <= after[q][i] <= n && routeOf'[after[q][i]] == q && posOf'[after[q][i]] == i {
      if q == r {
        assert l[i] in l;
      } else {
        assert after[q][i] == lists[q][i] && lists[q][i] !in lists[r];
      }
    }
    forall v | 0 <= v <= n
      ensures (routeOf'[v] >= 0 <==> routeOf[v] >= 0 || v == c) && (routeOf'[v] >= 0 ==> Sits(after, v, routeOf'[v], posOf'[v]))
    {
      if v in l {
        var i :| 0 <= i < |l| && l[i] == v;
        assert after[r][i] == v;
      } else if routeOf[v] >= 0 {
        assert Sits(lists, v, routeOf[v], posOf[v]);
      }
    }
  }

  lemma InsertedMembers(r: seq<int>, p: nat, c: int)
    requires p <= |r|
    ensures forall v :: v in InsertAt(r, p, c) <==> v in r || v == c
  {
    assert r == r[..p] + r[p..];
    assert InsertAt(r, p, c)[p] == c;
  }

  lemma InsertedDistinct(r: seq<int>, p: nat, c: int)
    requires p <= |r| && Distinct(r) && c !in r
    ensures Distinct(InsertAt(r, p, c))
  {
  }

  /** c sits before position p of route r; that route is rebuilt and opens an epoch. */
  ghost predicate Forced(ww: WarpWorld, x: View, c: int, r: nat, p: nat, penalty: real, x': View)
    requires r < |x.states| && p <= |x.states[r].vertices|
  {
    var t := BuildWarpTour(ww, InsertAt(x.states[r].vertices, p, c), penalty);
    && Exact(ww.w.inst.n, Lists(x'.states), x'.routeOf, x'.posOf) && t.Some? && |x.routeEpoch| == |x.states|
    && x'.states == x.states[r := t.value] && x'.routeEpoch == x.routeEpoch[r := x'.epoch]
    && x'.stamp == x.stamp && x'.epoch == x.epoch + 1
  }

  /** Force c into the best slot: everyone else stays placed, c becomes placed. Only a wall refuses. */
  method ForceIn(ww: WarpWorld, ws: WarpSearch, c: int, x: Candidate, penalty: real) returns (ok: bool)
    requires Consistent(ww) && Indexed(ww, ws) && ww.w.inst.Customer(c) && |ws.routeOf| == ww.w.inst.n + 1 && ws.routeOf[c] < 0
    requires ForcedSlot(ww, ws.states, c, penalty, x)
    modifies ws
    ensures ok <==> BuildWarpTour(ww, InsertAt(old(ws.states)[x.route].vertices, x.position, c), penalty).Some?
    ensures ok ==> Forced(ww, old(Snap(ws)), c, x.route, x.position, penalty, Snap(ws))
    ensures ok ==> Indexed(ww, ws) && |ws.routeOf| == ww.w.inst.n + 1 && |ws.states| == old(|ws.states|)
    ensures ok ==> PlacedSet(ww.w.inst.n, ws.routeOf) == old(PlacedSet(ww.w.inst.n, ws.routeOf)) + {c}
  {
    hide Load, Consistent, OthersKept, IndexedAt, InsertAt, WarpTourOk, Exact, Distinct, PlacedSet;
    var n := ww.w.inst.n;
    var r, p := x.route, x.position;
    var next := InsertAt(ws.states[r].vertices, p, c);
    ghost var lists, routeOf, posOf := Lists(ws.states), ws.routeOf, ws.posOf;
    ForcedFits(ww, ws, c, r, p);
    ok := SetRoute(ww, ws, r, next, penalty);
    if !ok { return; }
    BuiltIsOk(ww, next, penalty);
    InsertKeepsExact(n, lists, routeOf, posOf, r, p, c, ws.routeOf, ws.posOf);
    assert Lists(ws.states) == lists[r := next];
    ExactSizes(n, Lists(ws.states), ws.routeOf, ws.posOf);
    ws.epoch := ws.epoch + 1;
    ws.routeEpoch := ws.routeEpoch[r := ws.epoch];
  }

  lemma ForcedFits(ww: WarpWorld, ws: WarpSearch, c: int, r: nat, p: nat)
    requires Indexed(ww, ws) && ww.w.inst.Customer(c) && |ws.routeOf| == ww.w.inst.n + 1 && ws.routeOf[c] < 0
    requires r < |ws.states| && p <= |ws.states[r].vertices| && ws.states[r].load + DemandOf(ww.w.inst, c) <= ww.w.inst.capacity
    ensures var l := InsertAt(ws.states[r].vertices, p, c);
            && Distinct(l) && Clients(ww.w.inst.n, l) && |l| > 0 && ww.w.inst.Route(l) && Load(ww.w.inst, l) <= ww.w.inst.capacity
            && |ws.posOf| == ww.w.inst.n + 1
  {
    hide Load;
    var vs := ws.states[r].vertices;
    assert WarpTourOk(ww, ws.states[r]);
    assert Lists(ws.states)[r] == vs;
    ListDistinct(ww.w.inst.n, Lists(ws.states), ws.routeOf, ws.posOf, r);
    forall i | 0 <= i < |vs| ensures vs[i] != c { assert ws.routeOf[Lists(ws.states)[r][i]] == r; }
    InsertedDistinct(vs, p, c);
    InsertedLoad(ww.w, vs, p, c);
    InsertedRoute(ww.w, vs, p, c);
  }

  // ---------- the confined repair ----------

  datatype RepairMove = RepairMove(isSwap: bool, i: nat, r2: nat, p: nat, delta: real)

  /** A move out of route r that keeps capacity: relocate position i before p of r2, or swap (r, i)
      with (r2, p). */
  ghost predicate RepairFits(ww: WarpWorld, states: seq<WarpTour>, r: nat, m: RepairMove) {
    && r < |states| && m.r2 < |states| && m.r2 != r && m.i < |states[r].vertices| && m.delta < -SCREEN_EPS
    && var u := states[r].vertices[m.i];
       if m.isSwap then
         && m.p < |states[m.r2].vertices|
         && states[r].load - DemandOf(ww.w.inst, u) + DemandOf(ww.w.inst, states[m.r2].vertices[m.p]) <= ww.w.inst.capacity
         && states[m.r2].load - DemandOf(ww.w.inst, states[m.r2].vertices[m.p]) + DemandOf(ww.w.inst, u) <= ww.w.inst.capacity
       else
         m.p <= |states[m.r2].vertices| && states[m.r2].load + DemandOf(ww.w.inst, u) <= ww.w.inst.capacity
  }

  /** The better of a found move and a new candidate. */
  function Improve(best: Option<RepairMove>, m: RepairMove): Option<RepairMove> {
    if m.delta < -SCREEN_EPS && (best.None? || m.delta < best.value.delta) then Some(m) else best
  }

  /** Relocates of stop i of route r before and behind position j of r2. */
  function RepairRelocates(ww: WarpWorld, states: seq<WarpTour>, r: nat, i: nat, r2: nat, j: nat, removal: Option<real>, penalty: real): seq<RepairMove>
    requires r < |states| && i < |states[r].vertices| && r2 < |states|
  {
    var A, B := states[r].vertices, states[r2].vertices;
    var base := Cost1(ww, states[r], penalty) + Cost1(ww, states[r2], penalty);
    var before, behind := ww.warp.splice(B, j, j - 1, A, i, i, penalty), ww.warp.splice(B, j + 1, j, A, i, i, penalty);
    if removal.None? || states[r2].load + DemandOf(ww.w.inst, A[i]) > ww.w.inst.capacity then []
    else
      (if before.Some? then [RepairMove(false, i, r2, j, (removal.value + before.value) - base)] else [])
      + (if behind.Some? then [RepairMove(false, i, r2, j + 1, (removal.value + behind.value) - base)] else [])
  }

  /** The swap of stop i of route r with position j of r2. */
  function RepairSwaps(ww: WarpWorld, states: seq<WarpTour>, r: nat, i: nat, r2: nat, j: nat, penalty: real): seq<RepairMove>
    requires r < |states| && i < |states[r].vertices| && r2 < |states| && j < |states[r2].vertices|
  {
    var A, B := states[r].vertices, states[r2].vertices;
    var base := Cost1(ww, states[r], penalty) + Cost1(ww, states[r2], penalty);
    var e1, e2 := ww.warp.splice(A, i, i, B, j, j, penalty), ww.warp.splice(B, j, j, A, i, i, penalty);
    if states[r].load - DemandOf(ww.w.inst, A[i]) + DemandOf(ww.w.inst, B[j]) > ww.w.inst.capacity
       || states[r2].load - DemandOf(ww.w.inst, B[j]) + DemandOf(ww.w.inst, A[i]) > ww.w.inst.capacity || e1.None? || e2.None? then []
    else [RepairMove(true, i, r2, j, (e1.value + e2.value) - base)]
  }

  /** The moves of stop i of route r against one partner v. */
  function RepairMoves(ww: WarpWorld, states: seq<WarpTour>, routeOf: seq<int>, posOf: seq<int>, r: nat, i: nat, v: int,
                       removal: Option<real>, penalty: real): seq<RepairMove>
    requires r < |states| && i < |states[r].vertices|
  {
    if v < 0 || v >= |routeOf| || v >= |posOf| then [] else
    var r2, j := routeOf[v], posOf[v];
    if r2 < 0 || r2 == r || r2 >= |states| || j < 0 || j >= |states[r2].vertices| then []
    else RepairRelocates(ww, states, r, i, r2, j, removal, penalty) + RepairSwaps(ww, states, r, i, r2, j, penalty)
  }

  /** best is no worse than every strictly improving move listed. */
  predicate Beats(best: Option<RepairMove>, moves: seq<RepairMove>) {
    forall k :: 0 <= k < |moves| && moves[k].delta < -SCREEN_EPS ==> best.Some? && best.value.delta <= moves[k].delta
  }

  /** The move a scan of the list settles on, starting from best0: the first of the best. */
  function Best(best0: Option<RepairMove>, moves: seq<RepairMove>): Option<RepairMove> {
    if |moves| == 0 then best0 else Improve(Best(best0, moves[..|moves| - 1]), moves[|moves| - 1])
  }

  lemma {:induction false} BestSplits(best0: Option<RepairMove>, a: seq<RepairMove>, b: seq<RepairMove>)
    ensures Best(best0, a + b) == Best(Best(best0, a), b)
    decreases |b|
  {
    if |b| == 0 {
      assert a + b == a;
    } else {
      assert (a + b)[..|a + b| - 1] == a + b[..|b| - 1];
      BestSplits(best0, a, b[..|b| - 1]);
    }
  }

  /** Move k improves, everything before it is worse and nothing behind it is better. */
  predicate FirstLeast(moves: seq<RepairMove>, k: nat) {
    && k < |moves| && moves[k].delta < -SCREEN_EPS
    && (forall j :: 0 <= j < k ==> moves[j].delta > moves[k].delta) && forall j :: k <= j < |moves| ==> moves[j].delta >= moves[k].delta
  }

  predicate NoneImproves(moves: seq<RepairMove>) {
    forall k :: 0 <= k < |moves| ==> moves[k].delta >= -SCREEN_EPS
  }

  lemma {:induction false} BestIsFirstLeast(moves: seq<RepairMove>)
    ensures Best(None, moves).None? <==> NoneImproves(moves)
    ensures Best(None, moves).Some? ==> exists k: nat :: k < |moves| && FirstLeast(moves, k) && Best(None, moves) == Some(moves[k])
  {
    hide FirstLeast, NoneImproves;
    if |moves| == 0 {
      NothingImproves(moves);
    } else {
      var init, m := moves[..|moves| - 1], moves[|moves| - 1];
      assert moves == init + [m];
      BestIsFirstLeast(init);
      FirstLeastStarts(init, m);
      if Best(None, init).Some? {
        var k: nat :| k < |init| && FirstLeast(init, k) && Best(None, init) == Some(init[k]);
        FirstLeastGrows(init, m, k);
      }
    }
  }

  lemma NothingImproves(moves: seq<RepairMove>)
    ensures |moves| == 0 ==> NoneImproves(moves)
  {
  }

  lemma FirstLeastGrows(init: seq<RepairMove>, m: RepairMove, k: nat)
    requires FirstLeast(init, k)
    ensures k < |init| && init[k].delta < -SCREEN_EPS && !NoneImproves(init + [m])
    ensures FirstLeast(init + [m], if m.delta < init[k].delta then |init| else k)
  {
    assert (init + [m])[k] == init[k];
  }

  lemma FirstLeastStarts(init: seq<RepairMove>, m: RepairMove)
    ensures NoneImproves(init + [m]) <==> NoneImproves(init) && m.delta >= -SCREEN_EPS
    ensures NoneImproves(init) && m.delta < -SCREEN_EPS ==> FirstLeast(init + [m], |init|)
  {
    assert (init + [m])[|init|] == m;
    assert forall k :: 0 <= k < |init| ==> (init + [m])[k] == init[k];
  }

  lemma BestOne(best0: Option<RepairMove>, m: RepairMove)
    ensures Best(best0, []) == best0 && Best(best0, [m]) == Improve(best0, m)
  {
    assert [m][..0] == [];
  }

  /** Pricings spent on the relocates and on the swap of one pair, and on one partner. */
  function RelocatesCharge(ww: WarpWorld, states: seq<WarpTour>, r: nat, i: nat, r2: nat, removal: Option<real>): nat
    requires r < |states| && i < |states[r].vertices| && r2 < |states|
  {
    if ShiftFits(ww, states[r], i, states[r2], removal) then 2 else 0
  }

  function SwapsCharge(ww: WarpWorld, states: seq<WarpTour>, r: nat, i: nat, r2: nat, j: nat): nat
    requires r < |states| && i < |states[r].vertices| && r2 < |states| && j < |states[r2].vertices|
  {
    var A, B := states[r].vertices, states[r2].vertices;
    if states[r].load - DemandOf(ww.w.inst, A[i]) + DemandOf(ww.w.inst, B[j]) > ww.w.inst.capacity
       || states[r2].load - DemandOf(ww.w.inst, B[j]) + DemandOf(ww.w.inst, A[i]) > ww.w.inst.capacity then 0 else 2
  }

  function MovesCharge(ww: WarpWorld, states: seq<WarpTour>, routeOf: seq<int>, posOf: seq<int>, r: nat, i: nat, v: int, removal: Option<real>): nat
    requires r < |states| && i < |states[r].vertices|
  {
    if v < 0 || v >= |routeOf| || v >= |posOf| then 0 else
    var r2, j := routeOf[v], posOf[v];
    if r2 < 0 || r2 == r || r2 >= |states| || j < 0 || j >= |states[r2].vertices| then 0
    else RelocatesCharge(ww, states, r, i, r2, removal) + SwapsCharge(ww, states, r, i, r2, j)
  }

  /** The moves of one stop against a list of partners, and what pricing them costs. */
  function MovesAgainst(ww: WarpWorld, states: seq<WarpTour>, routeOf: seq<int>, posOf: seq<int>, r: nat, i: nat, list: seq<int>,
                        removal: Option<real>, penalty: real): seq<RepairMove>
    requires r < |states| && i < |states[r].vertices|
  {
    if |list| == 0 then []
    else MovesAgainst(ww, states, routeOf, posOf, r, i, list[..|list| - 1], removal, penalty)
         + RepairMoves(ww, states, routeOf, posOf, r, i, list[|list| - 1], removal, penalty)
  }

  function ChargeAgainst(ww: WarpWorld, states: seq<WarpTour>, routeOf: seq<int>, posOf: seq<int>, r: nat, i: nat, list: seq<int>, removal: Option<real>): nat
    requires r < |states| && i < |states[r].vertices|
  {
    if |list| == 0 then 0
    else ChargeAgainst(ww, states, routeOf, posOf, r, i, list[..|list| - 1], removal) + MovesCharge(ww, states, routeOf, posOf, r, i, list[|list| - 1], removal)
  }

  /** The scan of a route from stop i on, as long as there is budget. */
  function RouteScan(ww: WarpWorld, nb: NeighbourLists, x: View, r: nat, i: nat, penalty: real, best: Option<RepairMove>, budget: int): (Option<RepairMove>, int)
    requires Sound(nb, ww.w.inst.n) && r < |x.states| && Clients(ww.w.inst.n, x.states[r].vertices) && i <= |x.states[r].vertices|
    decreases |x.states[r].vertices| - i
  {
    if i == |x.states[r].vertices| || budget <= 0 then (best, budget)
    else
      var list, removal := PartnerList(ww.w.inst.n, nb, x.states[r].vertices[i]), RemovalCost(ww, x.states[r], i, penalty);
      RouteScan(ww, nb, x, r, i + 1, penalty, Best(best, MovesAgainst(ww, x.states, x.routeOf, x.posOf, r, i, list, removal, penalty)),
                budget - 1 - ChargeAgainst(ww, x.states, x.routeOf, x.posOf, r, i, list, removal))
  }

  method ScanRelocates(ww: WarpWorld, states: seq<WarpTour>, r: nat, i: nat, r2: nat, j: nat, removal: Option<real>, penalty: real,
                       best0: Option<RepairMove>, budget0: int)
    returns (best: Option<RepairMove>, budget: int)
    requires r < |states| && i < |states[r].vertices| && r2 < |states| && j < |states[r2].vertices|
    ensures best == Best(best0, RepairRelocates(ww, states, r, i, r2, j, removal, penalty)) && budget == budget0 - RelocatesCharge(ww, states, r, i, r2, removal)
  {
    hide Load, Best, Improve, Cost1;
    best, budget := best0, budget0;
    ghost var none: seq<RepairMove> := [];
    BestOne(best0, RepairMove(false, 0, 0, 0, 0.0));
    var A, B := states[r].vertices, states[r2].vertices;
    if removal.None? || states[r2].load + DemandOf(ww.w.inst, A[i]) > ww.w.inst.capacity { return; }
    var base := Cost1(ww, states[r], penalty) + Cost1(ww, states[r2], penalty);
    budget := budget - 1;
    var before := ww.warp.splice(B, j, j - 1, A, i, i, penalty);
    ghost var a := if before.Some? then [RepairMove(false, i, r2, j, (removal.value + before.value) - base)] else none;
    if before.Some? {
      var m := RepairMove(false, i, r2, j, (removal.value + before.value) - base);
      BestOne(best, m);
      best := Improve(best, m);
    }
    budget := budget - 1;
    var behind := ww.warp.splice(B, j + 1, j, A, i, i, penalty);
    ghost var b := if behind.Some? then [RepairMove(false, i, r2, j + 1, (removal.value + behind.value) - base)] else none;
    BestOne(best, RepairMove(false, 0, 0, 0, 0.0));
    if behind.Some? {
      var m := RepairMove(false, i, r2, j + 1, (removal.value + behind.value) - base);
      BestOne(best, m);
      best := Improve(best, m);
    }
    BestSplits(best0, a, b);
  }

  method ScanSwap(ww: WarpWorld, states: seq<WarpTour>, r: nat, i: nat, r2: nat, j: nat, penalty: real, best0: Option<RepairMove>, budget0: int)
    returns (best: Option<RepairMove>, budget: int)
    requires r < |states| && i < |states[r].vertices| && r2 < |states| && j < |states[r2].vertices|
    ensures best == Best(best0, RepairSwaps(ww, states, r, i, r2, j, penalty)) && budget == budget0 - SwapsCharge(ww, states, r, i, r2, j)
  {
    hide Load, Best, Improve, Cost1;
    best, budget := best0, budget0;
    var A, B := states[r].vertices, states[r2].vertices;
    BestOne(best0, RepairMove(true, 0, 0, 0, 0.0));
    if states[r].load - DemandOf(ww.w.inst, A[i]) + DemandOf(ww.w.inst, B[j]) > ww.w.inst.capacity
       || states[r2].load - DemandOf(ww.w.inst, B[j]) + DemandOf(ww.w.inst, A[i]) > ww.w.inst.capacity { return; }
    budget := budget - 2;
    var e1 := ww.warp.splice(A, i, i, B, j, j, penalty);
    if e1.None? { return; }
    var e2 := ww.warp.splice(B, j, j, A, i, i, penalty);
    if e2.None? { return; }
    var base := Cost1(ww, states[r], penalty) + Cost1(ww, states[r2], penalty);
    var m := RepairMove(true, i, r2, j, (e1.value + e2.value) - base);
    BestOne(best, m);
    best := Improve(best, m);
  }

  method ScanPartner(ww: WarpWorld, ws: WarpSearch, r: nat, i: nat, v: int, removal: Option<real>, penalty: real, best0: Option<RepairMove>, budget0: int)
    returns (best: Option<RepairMove>, budget: int)
    requires Indexed(ww, ws) && r < |ws.states| && i < |ws.states[r].vertices| && 1 <= v <= ww.w.inst.n
    requires |ws.routeOf| == |ws.posOf| == ww.w.inst.n + 1
    ensures best == Best(best0, RepairMoves(ww, ws.states, ws.routeOf, ws.posOf, r, i, v, removal, penalty))
    ensures budget == budget0 - MovesCharge(ww, ws.states, ws.routeOf, ws.posOf, r, i, v, removal)
  {
    hide Load, Indexed, RepairRelocates, RepairSwaps, RelocatesCharge, SwapsCharge;
    best, budget := best0, budget0;
    IndexPlace(ww, ws, v);
    var r2, j := ws.routeOf[v], ws.posOf[v];
    if r2 < 0 || r2 == r { return; }
    best, budget := ScanRelocates(ww, ws.states, r, i, r2, j, removal, penalty, best, budget);
    best, budget := ScanSwap(ww, ws.states, r, i, r2, j, penalty, best, budget);
    BestSplits(best0, RepairRelocates(ww, ws.states, r, i, r2, j, removal, penalty), RepairSwaps(ww, ws.states, r, i, r2, j, penalty));
  }

  /** The moves of one stop. */
  method ScanStop(ww: WarpWorld, nb: NeighbourLists, ws: WarpSearch, r: nat, i: nat, penalty: real, best0: Option<RepairMove>, budget0: int)
    returns (best: Option<RepairMove>, budget: int)
    requires Indexed(ww, ws) && Sound(nb, ww.w.inst.n) && r < |ws.states| && i < |ws.states[r].vertices|
    requires |ws.routeOf| == |ws.posOf| == ww.w.inst.n + 1 && Clients(ww.w.inst.n, ws.states[r].vertices)
    ensures var list, removal := PartnerList(ww.w.inst.n, nb, ws.states[r].vertices[i]), RemovalCost(ww, ws.states[r], i, penalty);
            && best == Best(best0, MovesAgainst(ww, ws.states, ws.routeOf, ws.posOf, r, i, list, removal, penalty))
            && budget == budget0 - 1 - ChargeAgainst(ww, ws.states, ws.routeOf, ws.posOf, r, i, list, removal)
  {
    hide Indexed, Sound, RepairMoves, IsPartner, RemovalCost, PartnerList, MovesCharge;
    best, budget := best0, budget0 - 1;
    var n := ww.w.inst.n;
    var removal := RemovalCost(ww, ws.states[r], i, penalty);
    var list := Partners(n, nb, ws.states[r].vertices[i]);
    forall j | 0 <= j < |list| ensures 1 <= list[j] <= n { assert list[j] in list; }
    for k := 0 to |list|
      invariant best == Best(best0, MovesAgainst(ww, ws.states, ws.routeOf, ws.posOf, r, i, list[..k], removal, penalty))
      invariant budget == budget0 - 1 - ChargeAgainst(ww, ws.states, ws.routeOf, ws.posOf, r, i, list[..k], removal)
    {
      best, budget := ScanPartner(ww, ws, r, i, list[k], removal, penalty, best, budget);
      assert list[..k + 1][..k] == list[..k] && list[..k + 1][k] == list[k];
      BestSplits(best0, MovesAgainst(ww, ws.states, ws.routeOf, ws.posOf, r, i, list[..k], removal, penalty),
                 RepairMoves(ww, ws.states, ws.routeOf, ws.posOf, r, i, list[k], removal, penalty));
    }
    assert list[..|list|] == list;
  }

  /** best beats every move of the stops from `i` on of route r against their partners. */
  ghost predicate BestRepair(ww: WarpWorld, nb: NeighbourLists, x: View, r: nat, i: nat, penalty: real, best: Option<RepairMove>)
    requires Sound(nb, ww.w.inst.n) && r < |x.states| && Clients(ww.w.inst.n, x.states[r].vertices)
  {
    forall q, v :: i <= q < |x.states[r].vertices| && IsPartner(ww.w.inst.n, nb, x.states[r].vertices[q], v) ==>
      Beats(best, RepairMoves(ww, x.states, x.routeOf, x.posOf, r, q, v, RemovalCost(ww, x.states[r], q, penalty), penalty))
  }

  ghost predicate AllFit(ww: WarpWorld, states: seq<WarpTour>, r: nat, moves: seq<RepairMove>) {
    forall k :: 0 <= k < |moves| && moves[k].delta < -SCREEN_EPS ==> RepairFits(ww, states, r, moves[k])
  }

  lemma MovesFit(ww: WarpWorld, states: seq<WarpTour>, routeOf: seq<int>, posOf: seq<int>, r: nat, i: nat, v: int, removal: Option<real>, penalty: real)
    requires r < |states| && i < |states[r].vertices|
    ensures AllFit(ww, states, r, RepairMoves(ww, states, routeOf, posOf, r, i, v, removal, penalty))
  {
    hide Cost1;
  }

  lemma {:induction false} AgainstFits(ww: WarpWorld, states: seq<WarpTour>, routeOf: seq<int>, posOf: seq<int>, r: nat, i: nat, list: seq<int>, removal: Option<real>, penalty: real)
    requires r < |states| && i < |states[r].vertices|
    ensures AllFit(ww, states, r, MovesAgainst(ww, states, routeOf, posOf, r, i, list, removal, penalty))
    decreases |list|
  {
    hide RepairMoves, RepairFits;
    if |list| > 0 {
      AgainstFits(ww, states, routeOf, posOf, r, i, list[..|list| - 1], removal, penalty);
      MovesFit(ww, states, routeOf, posOf, r, i, list[|list| - 1], removal, penalty);
    }
  }

  /** The settled move is one of the scanned and no worse than any of them. */
  lemma {:induction false} BestBeats(ww: WarpWorld, states: seq<WarpTour>, r: nat, best0: Option<RepairMove>, moves: seq<RepairMove>)
    requires AllFit(ww, states, r, moves) && (best0.Some? ==> RepairFits(ww, states, r, best0.value))
    ensures Beats(Best(best0, moves), moves)
    ensures Best(best0, moves).Some? ==> RepairFits(ww, states, r, Best(best0, moves).value)
    ensures best0.Some? ==> Best(best0, moves).Some? && Best(best0, moves).value.delta <= best0.value.delta
    decreases |moves|
  {
    hide RepairFits;
    if |moves| > 0 { BestBeats(ww, states, r, best0, moves[..|moves| - 1]); }
  }

  lemma {:induction false} BeatsEach(ww: WarpWorld, states: seq<WarpTour>, routeOf: seq<int>, posOf: seq<int>, r: nat, i: nat, list: seq<int>, removal: Option<real>, penalty: real,
                  best: Option<RepairMove>, v: int)
    requires r < |states| && i < |states[r].vertices| && v in list && Beats(best, MovesAgainst(ww, states, routeOf, posOf, r, i, list, removal, penalty))
    ensures Beats(best, RepairMoves(ww, states, routeOf, posOf, r, i, v, removal, penalty))
    decreases |list|
  {
    hide RepairMoves;
    var init, last := list[..|list| - 1], list[|list| - 1];
    var a, b := MovesAgainst(ww, states, routeOf, posOf, r, i, init, removal, penalty), RepairMoves(ww, states, routeOf, posOf, r, i, last, removal, penalty);
    assert forall k :: 0 <= k < |a| ==> a[k] == (a + b)[k];
    assert forall k :: 0 <= k < |b| ==> b[k] == (a + b)[|a| + k];
    if v != last { BeatsEach(ww, states, routeOf, posOf, r, i, init, removal, penalty, best, v); }
  }

  lemma ListsPartners(n: nat, nb: NeighbourLists, c: int)
    requires Sound(nb, n) && 1 <= c <= n
    ensures forall v :: v in PartnerList(n, nb, c) <==> IsPartner(n, nb, c, v)
  {
    if !nb.Restricted() {
      var list := PartnerList(n, nb, c);
      forall v | 1 <= v <= n ensures v in list { assert list[v - 1] == v; }
    }
  }

  /** A scan that the budget does not cut short settles on a move that beats all others. */
  lemma {:induction false} ScanMeaning(ww: WarpWorld, nb: NeighbourLists, x: View, r: nat, i: nat, penalty: real, best: Option<RepairMove>, budget: int)
    requires Sound(nb, ww.w.inst.n) && r < |x.states| && Clients(ww.w.inst.n, x.states[r].vertices) && i <= |x.states[r].vertices|
    requires best.Some? ==> RepairFits(ww, x.states, r, best.value)
    ensures var (found, left) := RouteScan(ww, nb, x, r, i, penalty, best, budget);
            && (found.Some? ==> RepairFits(ww, x.states, r, found.value)) && (left > 0 ==> BestRepair(ww, nb, x, r, i, penalty, found))
            && (best.Some? ==> found.Some? && found.value.delta <= best.value.delta) && left <= budget
    decreases |x.states[r].vertices| - i
  {
    hide RepairFits, MovesAgainst, ChargeAgainst, RemovalCost, PartnerList, RepairMoves, Beats, Best, IsPartner;
    if i < |x.states[r].vertices| && budget > 0 {
      var u := x.states[r].vertices[i];
      var list, removal := PartnerList(ww.w.inst.n, nb, u), RemovalCost(ww, x.states[r], i, penalty);
      var moves := MovesAgainst(ww, x.states, x.routeOf, x.posOf, r, i, list, removal, penalty);
      AgainstFits(ww, x.states, x.routeOf, x.posOf, r, i, list, removal, penalty);
      BestBeats(ww, x.states, r, best, moves);
      var next, after := Best(best, moves), budget - 1 - ChargeAgainst(ww, x.states, x.routeOf, x.posOf, r, i, list, removal);
      ScanMeaning(ww, nb, x, r, i + 1, penalty, next, after);
      var found := RouteScan(ww, nb, x, r, i + 1, penalty, next, after).0;
      BeatsAll(next, found, moves);
      ListsPartners(ww.w.inst.n, nb, u);
      forall v | IsPartner(ww.w.inst.n, nb, u, v) ensures Beats(found, RepairMoves(ww, x.states, x.routeOf, x.posOf, r, i, v, removal, penalty)) {
        BeatsEach(ww, x.states, x.routeOf, x.posOf, r, i, list, removal, penalty, found, v);
      }
    }
  }

  lemma BeatsAll(best: Option<RepairMove>, better: Option<RepairMove>, moves: seq<RepairMove>)
    requires Beats(best, moves) && (best.Some? ==> better.Some? && better.value.delta <= best.value.delta)
    ensures Beats(better, moves)
  {
  }

  /** Best improvement over the members of one warp-positive route and their partners; complete unless
      the budget ran out. */
  method ScanRoute(ww: WarpWorld, nb: NeighbourLists, ws: WarpSearch, r: nat, penalty: real, budget0: int)
    returns (best: Option<RepairMove>, budget: int)
    requires Indexed(ww, ws) && Sound(nb, ww.w.inst.n) && r < |ws.states| && |ws.states[r].vertices| > 0 && budget0 > 0
    requires |ws.routeOf| == |ws.posOf| == ww.w.inst.n + 1 && Clients(ww.w.inst.n, ws.states[r].vertices)
    ensures best.Some? ==> RepairFits(ww, ws.states, r, best.value)
    ensures budget > 0 ==> BestRepair(ww, nb, Snap(ws), r, 0, penalty, best)
    ensures (best, budget) == RouteScan(ww, nb, Snap(ws), r, 0, penalty, None, budget0) && budget < budget0
  {
    hide Indexed, Sound, RepairFits, MovesAgainst, ChargeAgainst, RemovalCost, PartnerList, BestRepair, Best;
    best, budget := None, budget0;
    ScanMeaning(ww, nb, Snap(ws), r, 0, penalty, None, budget0);
    for i := 0 to |ws.states[r].vertices|
      invariant budget <= budget0 && (i > 0 ==> budget < budget0)
      invariant RouteScan(ww, nb, Snap(ws), r, i, penalty, best, budget) == RouteScan(ww, nb, Snap(ws), r, 0, penalty, None, budget0)
    {
      if budget <= 0 { return; }
      best, budget := ScanStop(ww, nb, ws, r, i, penalty, best, budget);
    }
  }

  lemma RepairBalances(ww: WarpWorld, states: seq<WarpTour>, r: nat, m: RepairMove)
    requires AllOk(ww, states) && RepairFits(ww, states, r, m)
    ensures var A, B := states[r].vertices, states[m.r2].vertices;
            var a := if m.isSwap then A[m.i := B[m.p]] else RemoveAt(A, m.i);
            var b := if m.isSwap then B[m.p := A[m.i]] else InsertAt(B, m.p, A[m.i]);
            && PairBalanced(states, r, a, m.r2, b) && ww.w.inst.Route(a) && ww.w.inst.Route(b) && |b| > 0
            && Load(ww.w.inst, a) <= ww.w.inst.capacity && Load(ww.w.inst, b) <= ww.w.inst.capacity
  {
    hide Load, WarpTourOk, PairBalanced, RemoveAt, InsertAt;
    if m.isSwap {
      SwapFits(ww, states, r, m.i, m.r2, m.p);
    } else {
      RelocateFits(ww, states, r, m.i, m.r2, m.p);
    }
  }

  /** The two edited lists of a repair move. */
  function RepairedLists(states: seq<WarpTour>, r: nat, m: RepairMove): (seq<int>, seq<int>)
    requires r < |states| && m.r2 < |states| && m.i < |states[r].vertices| && m.p <= |states[m.r2].vertices|
    requires m.isSwap ==> m.p < |states[m.r2].vertices|
  {
    var A, B := states[r].vertices, states[m.r2].vertices;
    if m.isSwap then (A[m.i := B[m.p]], B[m.p := A[m.i]]) else (RemoveAt(A, m.i), InsertAt(B, m.p, A[m.i]))
  }

  /** Rebuilt from scratch the move still pays. */
  predicate RepairPays(ww: WarpWorld, states: seq<WarpTour>, r: nat, m: RepairMove, penalty: real)
    requires r < |states| && m.r2 < |states| && m.i < |states[r].vertices| && m.p <= |states[m.r2].vertices|
    requires m.isSwap ==> m.p < |states[m.r2].vertices|
  {
    var (a, b) := RepairedLists(states, r, m);
    var t1, t2 := BuildWarpTour(ww, a, penalty), BuildWarpTour(ww, b, penalty);
    && t2.Some? && (|a| > 0 ==> t1.Some?)
    && Cost1(ww, t2.value, penalty) + (if |a| > 0 then Cost1(ww, t1.value, penalty) else 0.0)
       < Cost1(ww, states[r], penalty) + Cost1(ww, states[m.r2], penalty) - SCREEN_EPS
  }

  /** The state after a repair move. */
  ghost predicate RepairMoved(ww: WarpWorld, x: View, r: nat, m: RepairMove, penalty: real, x': View)
    requires r < |x.states| && m.r2 < |x.states| && m.i < |x.states[r].vertices| && m.p <= |x.states[m.r2].vertices|
    requires m.isSwap ==> m.p < |x.states[m.r2].vertices|
  {
    if m.isSwap then Exchanged(ww, x, r, m.i, m.r2, m.p, penalty, x') else Shifted(ww, x, r, m.i, m.r2, m.p, penalty, x')
  }

  /** Commit the selected move through the fold, if rebuilt it still pays. */
  method CommitRepair(ww: WarpWorld, ws: WarpSearch, r: nat, m: RepairMove, penalty: real, budget0: int) returns (ok: bool, budget: int)
    requires Consistent(ww) && Indexed(ww, ws) && RepairFits(ww, ws.states, r, m)
    modifies ws
    ensures ok ==> Outcome(ww, ws, penalty, true)
    ensures ok && old(|ws.states[r].vertices|) > 1 ==> |ws.states| == old(|ws.states|)
    ensures ok <==> RepairPays(ww, old(ws.states), r, m, penalty)
    ensures ok ==> RepairMoved(ww, old(Snap(ws)), r, m, penalty, Snap(ws))
    ensures !ok ==> unchanged(ws)
    ensures budget == budget0 - (if m.isSwap || old(|ws.states[r].vertices|) > 1 then 2 else 1)
  {
    hide Load, Consistent, PenalisedTotal, Exact, WarpTourOk, PairBalanced, SamePlaced, RemoveAt, InsertAt, BuildWarpTour, Cost1, Exchanged, Shifted, SwapErase;
    ghost var x := Snap(ws);
    RemovedSize(ws.states[r].vertices, m.i);
    RepairBalances(ww, ws.states, r, m);
    var s1, s2 := ws.states[r], ws.states[m.r2];
    var before := Cost1(ww, s1, penalty) + Cost1(ww, s2, penalty);
    var u := s1.vertices[m.i];
    var n1, n2: seq<int>;
    if m.isSwap {
      n1, n2 := s1.vertices[m.i := s2.vertices[m.p]], s2.vertices[m.p := u];
    } else {
      n1, n2 := RemoveAt(s1.vertices, m.i), InsertAt(s2.vertices, m.p, u);
    }
    budget := budget0 - (if |n1| > 0 then 2 else 1);
    var t2 := BuildWarpTour(ww, n2, penalty);
    if t2.None? { return false, budget; }
    BuiltIsOk(ww, n2, penalty);
    var after := Cost1(ww, t2.value, penalty);
    var t1: Option<WarpTour> := None;
    if |n1| > 0 {
      t1 := BuildWarpTour(ww, n1, penalty);
      if t1.None? { return false, budget; }
      BuiltIsOk(ww, n1, penalty);
      after := after + Cost1(ww, t1.value, penalty);
    }
    if !(after < before - SCREEN_EPS) { return false, budget; }
    RelocateAdvances(ww, ws.states, r, t1, m.r2, t2.value, penalty);
    CommitRelocate(ww, ws, r, t1, m.r2, t2.value, penalty);
    if m.isSwap {
      SwapExchanges(ww, x, r, m.i, m.r2, m.p, penalty, t1.value, t2.value, Snap(ws));
    } else {
      RelocateShifts(ww, x, r, m.i, m.r2, m.p, penalty, t1, t2.value, Snap(ws));
    }
    return true, budget;
  }

  /** The routes with warp, in order. */
  function BadRoutes(states: seq<WarpTour>): (bad: seq<nat>)
    ensures forall j: nat :: j in bad <==> j < |states| && states[j].minWarp != 0.0
  {
    if |states| == 0 then []
    else BadRoutes(states[..|states| - 1]) + if states[|states| - 1].minWarp != 0.0 then [|states| - 1] else []
  }

  lemma SomeBad(states: seq<WarpTour>)
    requires !ZeroWarp(states)
    ensures |BadRoutes(states)| > 0
  {
    var j: nat :| j < |states| && states[j].minWarp != 0.0;
    assert j in BadRoutes(states);
  }

  /** A random warp-positive route. */
  method PickBad(states: seq<WarpTour>, o: Oracle) returns (r: nat)
    requires !ZeroWarp(states)
    modifies o`drawn
    ensures |BadRoutes(states)| > 0 && r == BadRoutes(states)[o.draws(old(o.drawn)) % |BadRoutes(states)|] && o.drawn == old(o.drawn) + 1
    ensures r < |states| && states[r].minWarp != 0.0
  {
    var bad: seq<nat> := [];
    for k := 0 to |states|
      invariant bad == BadRoutes(states[..k])
    {
      assert states[..k + 1][..k] == states[..k];
      if states[k].minWarp != 0.0 { bad := bad + [k]; }
    }
    assert states[..|states|] == states;
    SomeBad(states);
    var pick := o.Draw(|bad|);
    r := bad[pick];
    assert r in BadRoutes(states);
  }

  /** Every client is feasible in a route of its own. */
  ghost predicate AllServableAlone(w: World) {
    forall c :: w.inst.Customer(c) ==> w.price.fold([c]).Some?
  }

  /** Then a route with warp has more than one stop. */
  lemma WarpNeedsTwo(ww: WarpWorld, t: WarpTour)
    requires WarpTourOk(ww, t) && t.minWarp != 0.0 && AllServableAlone(ww.w)
    ensures |t.vertices| > 1
  {
    var u := t.vertices[0];
    assert ww.w.inst.Customer(u) && t.vertices != [u];
  }

  /** How a repair ends: the state reached, the budget left, the draws taken and whether it is warp-free. */
  datatype Mended = Mended(x: View, budget: int, drawn: nat, ok: bool)

  /** The repair from x on: warp-free, or out of budget, or the best move of a random route with warp is
      missing or does not pay, or it is committed and the repair goes on. */
  ghost predicate Mends(ww: WarpWorld, nb: NeighbourLists, draws: nat -> nat, penalty: real, x: View, budget: int, drawn: nat, end: Mended)
    requires Sound(nb, ww.w.inst.n)
    decreases budget
  {
    var bad := BadRoutes(x.states);
    if |bad| == 0 then end == Mended(x, budget, drawn, true)
    else if budget <= 0 then end == Mended(x, budget, drawn, false)
    else
      var r := bad[draws(drawn) % |bad|];
      assert r in bad;
      && Clients(ww.w.inst.n, x.states[r].vertices)
      && var (best, left) := RouteScan(ww, nb, x, r, 0, penalty, None, budget);
         if best.None? then end == Mended(x, left, drawn + 1, false)
         else
           var m := best.value;
           var after := left - if m.isSwap || |x.states[r].vertices| > 1 then 2 else 1;
           && RepairFits(ww, x.states, r, m)
           && if !RepairPays(ww, x.states, r, m, penalty) then end == Mended(x, after, drawn + 1, false)
              else exists x' :: RepairMoved(ww, x, r, m, penalty, x') && after < budget && Mends(ww, nb, draws, penalty, x', after, drawn + 1, end)
  }

  lemma NoBad(states: seq<WarpTour>)
    ensures ZeroWarp(states) <==> |BadRoutes(states)| == 0
  {
    if !ZeroWarp(states) { SomeBad(states); }
    if |BadRoutes(states)| > 0 { assert BadRoutes(states)[0] in BadRoutes(states); }
  }

  /** One turn of the repair. */
  lemma MendsOn(ww: WarpWorld, nb: NeighbourLists, draws: nat -> nat, penalty: real, x: View, budget: int, drawn: nat, r: nat, best: Option<RepairMove>, left: int)
    requires Sound(nb, ww.w.inst.n) && budget > 0 && |BadRoutes(x.states)| > 0 && r == BadRoutes(x.states)[draws(drawn) % |BadRoutes(x.states)|]
    requires r < |x.states| && Clients(ww.w.inst.n, x.states[r].vertices) && (best, left) == RouteScan(ww, nb, x, r, 0, penalty, None, budget)
    requires best.Some? ==> RepairFits(ww, x.states, r, best.value)
    ensures best.None? ==> Mends(ww, nb, draws, penalty, x, budget, drawn, Mended(x, left, drawn + 1, false))
    ensures best.Some? ==>
              var m := best.value;
              var after := left - if m.isSwap || |x.states[r].vertices| > 1 then 2 else 1;
              && (!RepairPays(ww, x.states, r, m, penalty) ==> Mends(ww, nb, draws, penalty, x, budget, drawn, Mended(x, after, drawn + 1, false)))
              && forall x', end :: RepairMoved(ww, x, r, m, penalty, x') && Mends(ww, nb, draws, penalty, x', after, drawn + 1, end) ==>
                   RepairPays(ww, x.states, r, m, penalty) && after < budget ==> Mends(ww, nb, draws, penalty, x, budget, drawn, end)
  {
    hide Sound, RouteScan, RepairPays, RepairMoved, BadRoutes;
    assert r in BadRoutes(x.states);
  }

  /** One turn: the best move of a random route with warp, if there is one and rebuilt it pays. */
  method RepairOnce(ww: WarpWorld, nb: NeighbourLists, ws: WarpSearch, o: Oracle, penalty: real, budget0: int) returns (ok: bool, budget: int)
    requires Consistent(ww) && Indexed(ww, ws) && Sound(nb, ww.w.inst.n) && !ZeroWarp(ws.states) && budget0 > 0
    modifies ws, o`drawn
    ensures !ok ==> Mends(ww, nb, o.draws, penalty, old(Snap(ws)), budget0, old(o.drawn), Mended(Snap(ws), budget, o.drawn, false))
    ensures ok ==> forall end :: Mends(ww, nb, o.draws, penalty, Snap(ws), budget, o.drawn, end) ==>
                     Mends(ww, nb, o.draws, penalty, old(Snap(ws)), budget0, old(o.drawn), end)
    ensures ok ==> Indexed(ww, ws) && SamePlaced(old(ws.routeOf), ws.routeOf) && |ws.states| <= old(|ws.states|)
    ensures ok && AllServableAlone(ww.w) ==> |ws.states| == old(|ws.states|)
    ensures budget < budget0
  {
    hide Consistent, Sound, ZeroWarp, Indexed, AllServableAlone, Mends, BadRoutes, RouteScan, RepairPays, RepairMoved, RepairFits, PenalisedTotal;
    ghost var x := Snap(ws);
    var r := PickBad(ws.states, o);
    IndexedRoute(ww, ws, r);
    if AllServableAlone(ww.w) { WarpNeedsTwo(ww, ws.states[r]); }
    var best;
    best, budget := ScanRoute(ww, nb, ws, r, penalty, budget0);
    MendsOn(ww, nb, o.draws, penalty, x, budget0, old(o.drawn), r, best, budget);
    if best.None? { return false, budget; }
    FitsInside(ww, ws.states, r, best.value);
    ok, budget := CommitRepair(ww, ws, r, best.value, penalty, budget);
  }

  /** Repair until warp-free; false when stuck or out of budget. A route can only be emptied when some
      client cannot be served alone. */
  method RepairAll(ww: WarpWorld, nb: NeighbourLists, ws: WarpSearch, o: Oracle, penalty: real, budget0: int) returns (ok: bool, budget: int)
    requires Consistent(ww) && Indexed(ww, ws) && Sound(nb, ww.w.inst.n)
    modifies ws, o`drawn
    ensures Mends(ww, nb, o.draws, penalty, old(Snap(ws)), budget0, old(o.drawn), Mended(Snap(ws), budget, o.drawn, ok))
    ensures ok ==> Indexed(ww, ws) && ZeroWarp(ws.states) && SamePlaced(old(ws.routeOf), ws.routeOf) && |ws.states| <= old(|ws.states|)
    ensures ok && AllServableAlone(ww.w) ==> |ws.states| == old(|ws.states|)
    ensures budget <= budget0
  {
    hide Consistent, Sound, ZeroWarp, Indexed, AllServableAlone, Mends, BadRoutes, RouteScan, RepairPays, RepairMoved, RepairFits;
    budget := budget0;
    ghost var x0 := Snap(ws);
    var feasible := SearchFeasible(ws.states);
    while !feasible
      invariant Indexed(ww, ws) && SamePlaced(old(ws.routeOf), ws.routeOf) && |ws.states| <= old(|ws.states|)
      invariant AllServableAlone(ww.w) ==> |ws.states| == old(|ws.states|)
      invariant budget <= budget0 && feasible == ZeroWarp(ws.states)
      invariant forall end :: Mends(ww, nb, o.draws, penalty, Snap(ws), budget, o.drawn, end) ==> Mends(ww, nb, o.draws, penalty, x0, budget0, old(o.drawn), end)
      decreases budget
    {
      ghost var x, b, d := Snap(ws), budget, o.drawn;
      MendsEnds(ww, nb, o.draws, penalty, x, b, d);
      if budget <= 0 { return false, budget; }
      ok, budget := RepairOnce(ww, nb, ws, o, penalty, budget);
      if !ok { return; }
      feasible := SearchFeasible(ws.states);
    }
    MendsEnds(ww, nb, o.draws, penalty, Snap(ws), budget, o.drawn);
    return true, budget;
  }

  lemma MendsEnds(ww: WarpWorld, nb: NeighbourLists, draws: nat -> nat, penalty: real, x: View, budget: int, drawn: nat)
    requires Sound(nb, ww.w.inst.n)
    ensures ZeroWarp(x.states) ==> Mends(ww, nb, draws, penalty, x, budget, drawn, Mended(x, budget, drawn, true))
    ensures !ZeroWarp(x.states) && budget <= 0 ==> Mends(ww, nb, draws, penalty, x, budget, drawn, Mended(x, budget, drawn, false))
  {
    hide Sound, BadRoutes, ZeroWarp, RouteScan;
    NoBad(x.states);
  }

  lemma FitsInside(ww: WarpWorld, states: seq<WarpTour>, r: nat, m: RepairMove)
    requires RepairFits(ww, states, r, m)
    ensures r < |states| && m.r2 < |states| && m.i < |states[r].vertices| && m.p <= |states[m.r2].vertices|
    ensures m.isSwap ==> m.p < |states[m.r2].vertices|
  {
  }

  lemma IndexedRoute(ww: WarpWorld, ws: WarpSearch, r: nat)
    requires Indexed(ww, ws) && r < |ws.states|
    ensures WarpTourOk(ww, ws.states[r]) && |ws.states[r].vertices| > 0 && Clients(ww.w.inst.n, ws.states[r].vertices) && |ws.routeOf| == |ws.posOf| == ww.w.inst.n + 1
  {
    assert WarpTourOk(ww, ws.states[r]);
    assert Lists(ws.states)[r] == ws.states[r].vertices;
  }

  // ---------- squeeze_insert ----------

  /** What an insertion leaves: the routes if it placed the client, the budget and the draws taken. */
  datatype Inserted = Inserted(placed: bool, routes: seq<seq<int>>, budget: int, drawn: nat)

  /** A route of the list hits a wall. */
  ghost predicate HitsWall(ww: WarpWorld, lists: seq<seq<int>>) {
    exists k :: 0 <= k < |lists| && |lists[k]| > 0 && ww.warp.build(lists[k]).None?
  }

  /** The insertion from its fresh search on: refused when c alone hits a wall, no position takes it, or
      the rebuilt route hits a wall; else what the repair makes of it. */
  ghost predicate InsertsFrom(ww: WarpWorld, nb: NeighbourLists, draws: nat -> nat, x: View, entry: seq<seq<int>>, c: int, penalty: real,
                              budget: int, drawn: nat, end: Inserted)
    requires Sound(nb, ww.w.inst.n) && 1 <= c <= ww.w.inst.n && |x.routeOf| == |x.posOf| == ww.w.inst.n + 1
  {
    var built := budget - |x.states| - 1;
    if ww.warp.build([c]).None? then end == Inserted(false, entry, built, drawn)
    else exists best ::
      && IsBestForced(ww, nb, x.states, x.routeOf, x.posOf, c, penalty, best)
      && var left := built - |ForcedPrices(ww, nb, x.states, x.routeOf, x.posOf, c)|;
         if best.None? then end == Inserted(false, entry, left, drawn)
         else ForcesThrough(ww, nb, draws, x, entry, c, best.value, penalty, left - 1, drawn, end)
  }

  /** c forced into the slot, and the repair after it. */
  ghost predicate ForcesThrough(ww: WarpWorld, nb: NeighbourLists, draws: nat -> nat, x: View, entry: seq<seq<int>>, c: int, slot: Candidate, penalty: real,
                                budget: int, drawn: nat, end: Inserted)
    requires Sound(nb, ww.w.inst.n)
  {
    && 0 <= slot.route < |x.states| && 0 <= slot.position <= |x.states[slot.route].vertices|
    && if BuildWarpTour(ww, InsertAt(x.states[slot.route].vertices, slot.position, c), penalty).None? then end == Inserted(false, entry, budget, drawn)
       else exists x', m ::
         && Forced(ww, x, c, slot.route, slot.position, penalty, x') && Mends(ww, nb, draws, penalty, x', budget, drawn, m)
         && end == Inserted(m.ok, if m.ok then Lists(m.x.states) else entry, m.budget, m.drawn)
  }

  ghost predicate Inserts(ww: WarpWorld, nb: NeighbourLists, draws: nat -> nat, entry: seq<seq<int>>, c: int, penalty: real, budget: int, drawn: nat, end: Inserted)
    requires Sound(nb, ww.w.inst.n) && 1 <= c <= ww.w.inst.n
  {
    if HitsWall(ww, entry) then end == Inserted(false, entry, budget, drawn)
    else exists x :: StartView(ww, entry, penalty, x) && |x.routeOf| == |x.posOf| == ww.w.inst.n + 1
                     && InsertsFrom(ww, nb, draws, x, entry, c, penalty, budget, drawn, end)
  }

  lemma ForcesEnd(ww: WarpWorld, nb: NeighbourLists, draws: nat -> nat, x: View, entry: seq<seq<int>>, c: int, slot: Candidate, penalty: real,
                  budget: int, drawn: nat, x': View, m: Mended)
    requires Sound(nb, ww.w.inst.n) && 0 <= slot.route < |x.states| && 0 <= slot.position <= |x.states[slot.route].vertices|
    requires Forced(ww, x, c, slot.route, slot.position, penalty, x') && Mends(ww, nb, draws, penalty, x', budget, drawn, m)
    ensures ForcesThrough(ww, nb, draws, x, entry, c, slot, penalty, budget, drawn, Inserted(m.ok, if m.ok then Lists(m.x.states) else entry, m.budget, m.drawn))
  {
    hide Mends, Sound, Exact;
  }

  lemma StartsInserting(ww: WarpWorld, nb: NeighbourLists, draws: nat -> nat, x: View, entry: seq<seq<int>>, c: int, penalty: real,
                        budget: int, drawn: nat, end: Inserted)
    requires Sound(nb, ww.w.inst.n) && 1 <= c <= ww.w.inst.n && |x.routeOf| == |x.posOf| == ww.w.inst.n + 1
    requires StartView(ww, entry, penalty, x) && !HitsWall(ww, entry) && InsertsFrom(ww, nb, draws, x, entry, c, penalty, budget, drawn, end)
    ensures Inserts(ww, nb, draws, entry, c, penalty, budget, drawn, end)
  {
    hide StartView, Sound, InsertsFrom, HitsWall;
  }

  /** squeeze_insert: on success the routes serve exactly one client more, c, all feasible and within
      capacity, and no route was opened; on failure they are the entry routes. When it fails, and what it
      spends, is fixed by the draws. */
  method SqueezeInsert(ww: WarpWorld, nb: NeighbourLists, o: Oracle, tours: seq<Tour>, c: int, penalty: real, budget0: int, ghost pool: multiset<int>)
    returns (placed: bool, routes: seq<seq<int>>, budget: int)
    requires Consistent(ww) && Sound(nb, ww.w.inst.n) && Holds(ww.w, tours, pool + multiset{c})
    modifies o`drawn
    ensures 1 <= c <= ww.w.inst.n && Inserts(ww, nb, o.draws, Routes(tours), c, penalty, budget0, old(o.drawn), Inserted(placed, routes, budget, o.drawn))
    ensures !placed ==> routes == Routes(tours)
    ensures placed ==>
              && (forall k :: 0 <= k < |routes| ==> ww.w.price.fold(routes[k]).Some?)
              && ToursOk(ww.w, Priced(ww.w, routes)) && Served(Priced(ww.w, routes)) == Served(tours) + multiset{c}
              && |routes| <= |tours| && (AllServableAlone(ww.w) ==> |routes| == |tours|)
    ensures budget <= budget0
  {
    hide Consistent, Sound, Indexed, Load, Exact, ForcedSlot, IsBestForced, Cost, Served, AllServableAlone, StartView, AreBuilt, HitsWall, ForcedPrices, InsertsFrom, Inserts;
    placed, routes, budget := false, Routes(tours), budget0;
    ghost var d := o.drawn;
    PoolIsClients(ww.w, tours, pool + multiset{c}, c);
    HoldsSeparate(ww.w, tours, pool + multiset{c});
    HoldsRoutesOf(ww.w, tours);
    var ws := new WarpSearch();
    var ok := InitWarpSearch(ww, ws, routes, penalty);
    WallOrNot(ww, nb, o.draws, routes, c, penalty, budget, d, ws.states, ok);
    if !ok { return; }
    StartsSo(ww, ws, routes, penalty);
    ghost var x := Snap(ws);
    EntryState(ww, ws, tours);
    Unplaced(ww, ws, tours, c, pool);
    placed, routes, budget := InsertIndexed(ww, nb, ws, o, tours, c, penalty, budget);
    StartsInserting(ww, nb, o.draws, x, Routes(tours), c, penalty, budget0, d, Inserted(placed, routes, budget, o.drawn));
  }

  lemma WallOrNot(ww: WarpWorld, nb: NeighbourLists, draws: nat -> nat, entry: seq<seq<int>>, c: int, penalty: real, budget: int, drawn: nat,
                  states: seq<WarpTour>, ok: bool)
    requires Sound(nb, ww.w.inst.n) && 1 <= c <= ww.w.inst.n
    requires if ok then AreBuilt(ww, entry, penalty, states) else exists k :: 0 <= k < |entry| && |entry[k]| > 0 && ww.warp.build(entry[k]).None?
    ensures ok <==> !HitsWall(ww, entry)
    ensures !ok ==> Inserts(ww, nb, draws, entry, c, penalty, budget, drawn, Inserted(false, entry, budget, drawn))
  {
    hide Sound, Load;
  }

  /** The insertion on the indexed entry state. */
  method InsertIndexed(ww: WarpWorld, nb: NeighbourLists, ws: WarpSearch, o: Oracle, tours: seq<Tour>, c: int, penalty: real, budget0: int)
    returns (placed: bool, routes: seq<seq<int>>, budget: int)
    requires Consistent(ww) && Sound(nb, ww.w.inst.n) && Indexed(ww, ws) && ww.w.inst.Customer(c) && |ws.routeOf| == |ws.posOf| == ww.w.inst.n + 1
    requires ws.routeOf[c] < 0 && PlacedClients(ww, ws.routeOf) == Served(tours) && |ws.states| == |tours|
    modifies ws, o`drawn
    ensures InsertsFrom(ww, nb, o.draws, old(Snap(ws)), Routes(tours), c, penalty, budget0, old(o.drawn), Inserted(placed, routes, budget, o.drawn))
    ensures !placed ==> routes == Routes(tours)
    ensures placed ==>
              && (forall k :: 0 <= k < |routes| ==> ww.w.price.fold(routes[k]).Some?)
              && ToursOk(ww.w, Priced(ww.w, routes)) && Served(Priced(ww.w, routes)) == Served(tours) + multiset{c}
              && |routes| <= |tours| && (AllServableAlone(ww.w) ==> |routes| == |tours|)
    ensures budget <= budget0
  {
    hide Consistent, Sound, Indexed, Load, Exact, ForcedSlot, IsBestForced, Cost, Served, AllServableAlone, ForcedPrices, ForcesThrough, Forced, Mends, BuildWarpTour;
    placed, routes, budget := false, Routes(tours), budget0;
    ghost var x, d, entry := Snap(ws), o.drawn, ws.routeOf;
    budget := budget - |ws.states| - 1;
    var single := ww.warp.build([c]);
    if single.None? { return; }
    var best;
    best, budget := BestForced(ww, nb, ws, c, penalty, budget);
    if best.None? { return; }
    BestIsForced(ww, nb, ws.states, ws.routeOf, ws.posOf, c, penalty, best.value);
    ForcedInside(ww, ws.states, c, penalty);
    budget := budget - 1;
    ghost var left := budget;
    var ok := ForceIn(ww, ws, c, best.value, penalty);
    if !ok {
      WallRefuses(ww, nb, o.draws, x, Routes(tours), c, best.value, penalty, left, d);
      return;
    }
    ghost var x1 := Snap(ws);
    ok, budget := RepairAll(ww, nb, ws, o, penalty, budget);
    ForcesEnd(ww, nb, o.draws, x, Routes(tours), c, best.value, penalty, left, d, x1, Mended(Snap(ws), budget, o.drawn, ok));
    if !ok { return; }
    SamePlacedClients(ww, x1.routeOf, ws.routeOf);
    ZeroWarpSolves(ww, ws);
    OneMore(ww, entry, x1.routeOf, c);
    return true, Lists(ws.states), budget;
  }

  lemma WallRefuses(ww: WarpWorld, nb: NeighbourLists, draws: nat -> nat, x: View, entry: seq<seq<int>>, c: int, slot: Candidate, penalty: real, budget: int, drawn: nat)
    requires Sound(nb, ww.w.inst.n) && 0 <= slot.route < |x.states| && 0 <= slot.position <= |x.states[slot.route].vertices|
    requires BuildWarpTour(ww, InsertAt(x.states[slot.route].vertices, slot.position, c), penalty).None?
    ensures ForcesThrough(ww, nb, draws, x, entry, c, slot, penalty, budget, drawn, Inserted(false, entry, budget, drawn))
  {
    hide Sound;
  }

  lemma BestIsForced(ww: WarpWorld, nb: NeighbourLists, states: seq<WarpTour>, routeOf: seq<int>, posOf: seq<int>, c: int, penalty: real, x: Candidate)
    requires Sound(nb, ww.w.inst.n) && 1 <= c <= ww.w.inst.n && |routeOf| == |posOf| == ww.w.inst.n + 1
    requires IsBestForced(ww, nb, states, routeOf, posOf, c, penalty, Some(x))
    ensures ForcedSlot(ww, states, c, penalty, x)
  {
  }

  /** A pooled client is not placed. */
  lemma Unplaced(ww: WarpWorld, ws: WarpSearch, tours: seq<Tour>, c: int, pool: multiset<int>)
    requires Indexed(ww, ws) && Holds(ww.w, tours, pool + multiset{c}) && ww.w.inst.Customer(c) && |ws.routeOf| == ww.w.inst.n + 1
    requires PlacedClients(ww, ws.routeOf) == Served(tours)
    ensures ws.routeOf[c] < 0 && |ws.posOf| == ww.w.inst.n + 1
  {
    hide Served;
    assert (Served(tours) + (pool + multiset{c}))[c] == AllClients(ww.w.inst.n)[c] <= 1;
    assert c in PlacedSet(ww.w.inst.n, ws.routeOf) <==> c in Served(tours);
  }

  lemma OneMore(ww: WarpWorld, entry: seq<int>, forced: seq<int>, c: int)
    requires |entry| == |forced| == ww.w.inst.n + 1 && 1 <= c <= ww.w.inst.n && entry[c] < 0
    requires PlacedSet(ww.w.inst.n, forced) == PlacedSet(ww.w.inst.n, entry) + {c}
    ensures PlacedClients(ww, forced) == PlacedClients(ww, entry) + multiset{c}
  {
  }
}
