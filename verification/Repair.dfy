/** The repair step shared by the kick and the fleet descent (cpp/ls/perturb.cpp,
    cpp/ls/fleet_descent.cpp): rank the insertions of one client over all routes, commit the best one
    the fold accepts. Routes and a pool of unplaced clients together hold every client once. */
module Repairs {
  import opened Common
  import opened Oracles
  import opened Instances
  import opened Insertions
  import opened SearchStates
  import opened Staleness
  import opened LocalSearch

  // ---------- a smallest route ----------

  ghost predicate IsSmallest(tours: seq<Tour>, k: int) {
    0 <= k < |tours| && forall j :: 0 <= j < |tours| ==> |tours[k].vertices| <= |tours[j].vertices|
  }

  /** The smallest routes, in order. */
  ghost predicate AreSmallest(tours: seq<Tour>, ties: seq<nat>) {
    && (forall k: nat :: k in ties <==> IsSmallest(tours, k))
    && forall i, j :: 0 <= i < j < |ties| ==> ties[i] < ties[j]
  }

  /** The draw picks k among them. */
  ghost predicate PicksSmallest(tours: seq<Tour>, draw: nat, k: nat) {
    exists ties :: AreSmallest(tours, ties) && |ties| > 0 && k == ties[draw % |ties|]
  }

  /** A smallest route, ties settled by one draw. */
  method SmallestRoute(tours: seq<Tour>, o: Oracle) returns (k: nat)
    requires |tours| > 0
    modifies o`drawn
    ensures IsSmallest(tours, k) && PicksSmallest(tours, o.draws(old(o.drawn)), k) && o.drawn == old(o.drawn) + 1
  {
    var least := |tours[0].vertices|;
    ghost var at := 0;
    for j := 0 to |tours|
      invariant at < |tours| && |tours[at].vertices| == least
      invariant forall i :: 0 <= i < j ==> least <= |tours[i].vertices|
    {
      if |tours[j].vertices| < least { least, at := |tours[j].vertices|, j; }
    }
    var ties: seq<nat> := [];
    for j := 0 to |tours|
      invariant forall i: nat :: i in ties <==> i < j && |tours[i].vertices| == least
      invariant forall i :: 0 <= i < |ties| ==> ties[i] < j
      invariant forall i, l :: 0 <= i < l < |ties| ==> ties[i] < ties[l]
    {
      if |tours[j].vertices| == least { ties := ties + [j]; }
    }
    assert at in ties;
    assert AreSmallest(tours, ties);
    var pick := o.Draw(|ties|);
    assert ties[pick] in ties;
    k := ties[pick];
  }

  // ---------- routes and pool ----------

  /** Every client is in exactly one route or exactly once in the pool. */
  ghost predicate Holds(w: World, tours: seq<Tour>, pool: multiset<int>) {
    ToursOk(w, tours) && Served(tours) + pool == AllClients(w.inst.n)
  }

  /** Every client fits a vehicle on its own. */
  predicate FitsAlone(w: World, c: int) {
    w.inst.Customer(c) && DemandOf(w.inst, c) <= w.inst.capacity
  }

  lemma {:induction false} MemberLoad(w: World, r: seq<int>, c: int)
    requires c in r
    ensures DemandOf(w.inst, c) <= Load(w.inst, r)
    decreases |r|
  {
    var n := |r| - 1;
    LoadNonNegative(w, r[..n]);
    if c != r[n] {
      assert c in r[..n];
      MemberLoad(w, r[..n], c);
    }
  }

  lemma FeasibleFitsAll(w: World, tours: seq<Tour>)
    requires Feasible(w, tours)
    ensures forall c :: w.inst.Customer(c) ==> FitsAlone(w, c)
  {
    forall c | w.inst.Customer(c) ensures FitsAlone(w, c) {
      assert IsClient(w.inst.n, c) && c in ClientSet(w.inst.n) && c in AllClients(w.inst.n);
      var k := ServedBy(tours, c);
      assert TourOk(w, tours[k]);
      MemberLoad(w, tours[k].vertices, c);
    }
  }

  lemma PoolIsClients(w: World, tours: seq<Tour>, pool: multiset<int>, c: int)
    requires Holds(w, tours, pool) && c in pool
    ensures w.inst.Customer(c) && pool[c] == 1
  {
    assert c in AllClients(w.inst.n);
    assert pool[c] <= AllClients(w.inst.n)[c];
  }

  // ---------- ranked insertions ----------

  /** x names a position where the ranking finds the insertion feasible and the capacity fits. */
  predicate IsSlot(w: World, tours: seq<Tour>, c: int, x: Candidate) {
    && 0 <= x.route < |tours|
    && var t := tours[x.route];
       && t.load + DemandOf(w.inst, c) <= w.inst.capacity && 0 <= x.position <= |t.vertices|
       && PrefixReaches(w, t.vertices, x.position)
       && w.price.insert(t.vertices, x.position, c) == Some(x.delta + t.duration)
  }

  method SlotsOf(w: World, tours: seq<Tour>, b: nat, c: int) returns (out: seq<Candidate>)
    requires b < |tours|
    ensures forall x :: x in out <==> x.route == b && IsSlot(w, tours, c, x)
    ensures forall i, j :: 0 <= i < j < |out| ==> out[i].position < out[j].position
  {
    var t := tours[b];
    out := [];
    if t.load + DemandOf(w.inst, c) > w.inst.capacity { return; }
    var p := 0;
    while p <= |t.vertices|
      invariant 0 <= p <= |t.vertices| + 1 && (p > 0 ==> PrefixReaches(w, t.vertices, p - 1))
      invariant forall x :: x in out <==> x.route == b && x.position < p && IsSlot(w, tours, c, x)
      invariant forall i, j :: 0 <= i < j < |out| ==> out[i].position < out[j].position
    {
      if p > 0 && !w.price.alive(t.vertices, p) { return; }
      ghost var before := out;
      var d := w.price.insert(t.vertices, p, c);
      if d.Some? { out := out + [Candidate(d.value - t.duration, b, p)]; }
      assert forall x :: x in out <==> x in before || (d.Some? && x == Candidate(d.value - t.duration, b, p));
      p := p + 1;
    }
  }

  /** insertion_candidates: every slot of every route, best first. */
  method RankedInsertions(w: World, tours: seq<Tour>, c: int) returns (out: seq<Candidate>)
    ensures Sorted(out) && forall x :: x in out <==> IsSlot(w, tours, c, x)
  {
    hide IsSlot;
    SlotRoute(w, tours, c);
    out := [];
    for b := 0 to |tours|
      invariant forall i, j :: 0 <= i < j < |out| ==> out[i] != out[j]
      invariant forall x: Candidate :: x in out <==> x.route < b && IsSlot(w, tours, c, x)
    {
      var more := SlotsOf(w, tours, b, c);
      ghost var before := out;
      out := out + more;
      assert forall x :: x in out <==> x in before || x in more;
      forall i, j | 0 <= i < j < |out| ensures out[i] != out[j] {
        assert forall k :: 0 <= k < |before| ==> out[k] in before;
        assert forall k :: |before| <= k < |out| ==> out[k] in more;
      }
    }
    out := SortCandidates(out);
  }

  lemma SlotRoute(w: World, tours: seq<Tour>, c: int)
    ensures forall x :: IsSlot(w, tours, c, x) ==> 0 <= x.route < |tours|
  {
  }

  // ---------- placing a client ----------

  function EditedAt(tours: seq<Tour>, c: int, x: Candidate): seq<int>
    requires 0 <= x.route < |tours| && 0 <= x.position <= |tours[x.route].vertices|
  {
    InsertAt(tours[x.route].vertices, x.position, c)
  }

  function Rebuilt(w: World, r: seq<int>): Tour
    requires w.price.fold(r).Some?
  {
    Tour(r, w.price.fold(r).value, Load(w.inst, r))
  }

  /** The best slot the fold accepts. */
  ghost predicate IsBestPlace(w: World, tours: seq<Tour>, c: int, x: Candidate) {
    && IsSlot(w, tours, c, x) && w.price.fold(EditedAt(tours, c, x)).Some?
    && forall y :: IsSlot(w, tours, c, y) && Before(y, x) ==> w.price.fold(EditedAt(tours, c, y)).None?
  }

  function PlaceAt(w: World, tours: seq<Tour>, c: int, x: Candidate): seq<Tour>
    requires IsSlot(w, tours, c, x) && w.price.fold(EditedAt(tours, c, x)).Some?
  {
    tours[x.route := Rebuilt(w, EditedAt(tours, c, x))]
  }

  ghost predicate NoPlace(w: World, tours: seq<Tour>, c: int) {
    forall y :: IsSlot(w, tours, c, y) ==> w.price.fold(EditedAt(tours, c, y)).None?
  }

  lemma HasPlace(w: World, tours: seq<Tour>, c: int, x: Candidate)
    requires IsBestPlace(w, tours, c, x)
    ensures !NoPlace(w, tours, c)
  {
  }

  /** All slots, best first. */
  ghost predicate AreSlots(w: World, tours: seq<Tour>, c: int, cands: seq<Candidate>) {
    Sorted(cands) && forall x :: x in cands <==> IsSlot(w, tours, c, x)
  }

  /** Pricings spent: one for every slot, one for every rebuild up to the accepted one. */
  ghost predicate PlacePrice(w: World, tours: seq<Tour>, c: int, placed: bool, at: Candidate, priced: nat) {
    exists cands ::
      && AreSlots(w, tours, c, cands)
      && if placed then exists k :: 0 <= k < |cands| && cands[k] == at && priced == |cands| + k + 1
         else priced == 2 * |cands|
  }

  /** Rank, then commit the first candidate the fold agrees with; priced counts the pricings spent. */
  method PlaceBest(w: World, ss: SearchState, c: int) returns (placed: bool, priced: nat, ghost at: Candidate)
    modifies ss`tours
    ensures placed ==> priced > 0
    ensures PlacePrice(w, old(ss.tours), c, placed, at, priced)
    ensures placed ==> IsBestPlace(w, old(ss.tours), c, at) && ss.tours == PlaceAt(w, old(ss.tours), c, at)
    ensures !placed ==> ss.tours == old(ss.tours) && NoPlace(w, ss.tours, c)
  {
    hide PrefixReaches, Load;
    var cands := RankedInsertions(w, ss.tours, c);
    at := Candidate(0.0, 0, 0);
    priced := |cands|;
    for k := 0 to |cands|
      invariant ss.tours == old(ss.tours) && priced == |cands| + k && AreSlots(w, ss.tours, c, cands)
      invariant forall j :: 0 <= j < k ==> IsSlot(w, ss.tours, c, cands[j]) && w.price.fold(EditedAt(ss.tours, c, cands[j])).None?
    {
      var x := cands[k];
      assert x in cands;
      var next := InsertAt(ss.tours[x.route].vertices, x.position, c);
      priced := priced + 1;
      if w.price.fold(next).Some? {
        FirstIsBest(w, ss.tours, c, cands, k);
        at := x;
        assert cands[k] == at;
        ss.tours := ss.tours[x.route := Rebuilt(w, next)];
        return true, priced, at;
      }
    }
    forall y | IsSlot(w, ss.tours, c, y) ensures w.price.fold(EditedAt(ss.tours, c, y)).None? {
      assert y in cands;
    }
    return false, priced, at;
  }

  lemma FirstIsBest(w: World, tours: seq<Tour>, c: int, cands: seq<Candidate>, k: nat)
    requires Sorted(cands) && (forall x :: x in cands <==> IsSlot(w, tours, c, x)) && k < |cands|
    requires forall j :: 0 <= j < k ==> IsSlot(w, tours, c, cands[j]) && w.price.fold(EditedAt(tours, c, cands[j])).None?
    requires IsSlot(w, tours, c, cands[k]) && w.price.fold(EditedAt(tours, c, cands[k])).Some?
    ensures IsBestPlace(w, tours, c, cands[k])
  {
    hide IsSlot, EditedAt;
    SlotInside(w, tours, c);
    forall y | IsSlot(w, tours, c, y) && Before(y, cands[k]) ensures w.price.fold(EditedAt(tours, c, y)).None? {
      assert y in cands;
      var j :| 0 <= j < |cands| && cands[j] == y;
      assert forall i :: k < i < |cands| ==> Before(cands[k], cands[i]);
    }
  }

  lemma SlotInside(w: World, tours: seq<Tour>, c: int)
    ensures forall x :: IsSlot(w, tours, c, x) ==> 0 <= x.route < |tours| && 0 <= x.position <= |tours[x.route].vertices|
  {
  }

  /** Placing a pooled client: it leaves the pool, everything else is kept. */
  lemma PlaceKeeps(w: World, tours: seq<Tour>, pool: multiset<int>, c: int, x: Candidate)
    requires Holds(w, tours, pool + multiset{c}) && IsSlot(w, tours, c, x) && w.price.fold(EditedAt(tours, c, x)).Some?
    ensures Holds(w, PlaceAt(w, tours, c, x), pool)
  {
    hide PrefixReaches, Load, Served, AllClients, InsertAt;
    var t := tours[x.route];
    var r := EditedAt(tours, c, x);
    PoolIsClients(w, tours, pool + multiset{c}, c);
    assert TourOk(w, t);
    InsertedLoad(w, t.vertices, x.position, c);
    InsertedRoute(w, t.vertices, x.position, c);
    ReplaceSums(tours, x.route, Rebuilt(w, r));
    var s0, s1, m := Served(tours), Served(PlaceAt(w, tours, c, x)), multiset(t.vertices);
    assert s1 + m == s0 + (m + multiset{c});
    assert (s1 + pool) + m == (s1 + m) + pool == (s0 + (pool + multiset{c})) + m;
    Cancel(s1 + pool, s0 + (pool + multiset{c}), m);
  }

  lemma InsertedRoute(w: World, r: seq<int>, p: nat, c: int)
    requires w.inst.Route(r) && w.inst.Customer(c) && p <= |r|
    ensures w.inst.Route(InsertAt(r, p, c)) && |InsertAt(r, p, c)| == |r| + 1 && c in InsertAt(r, p, c)
  {
    assert InsertAt(r, p, c)[p] == c;
  }

  /** A singleton route for a pooled client. */
  lemma OpenKeeps(w: World, tours: seq<Tour>, pool: multiset<int>, c: int)
    requires Holds(w, tours, pool + multiset{c}) && FitsAlone(w, c) && w.price.fold([c]).Some?
    ensures Holds(w, tours + [Rebuilt(w, [c])], pool)
  {
    LoadOne(w.inst, c);
    AppendSums(tours, Rebuilt(w, [c]));
    assert multiset([c]) == multiset{c};
    assert (Served(tours) + multiset{c}) + pool == Served(tours) + (pool + multiset{c});
  }

  // ---------- all-or-nothing undo ----------

  /** Rebuild the whole state from its vertex lists. */
  method RestoreStates(w: World, ss: SearchState, snapshot: seq<seq<int>>)
    modifies ss`tours
    ensures |ss.tours| == |snapshot|
    ensures forall k :: 0 <= k < |snapshot| && w.price.fold(snapshot[k]).Some? ==> ss.tours[k] == Rebuilt(w, snapshot[k])
  {
    ss.tours := seq(|snapshot|, _ => NO_TOUR);
    for k := 0 to |snapshot|
      invariant |ss.tours| == |snapshot|
      invariant forall j :: 0 <= j < k && w.price.fold(snapshot[j]).Some? ==> ss.tours[j] == Rebuilt(w, snapshot[j])
    {
      var d := w.price.fold(snapshot[k]);
      if d.Some? { ss.tours := ss.tours[k := Rebuilt(w, snapshot[k])]; }
    }
  }

  /** The rebuild is exact: the fold is deterministic and the old tours were correctly priced. */
  lemma RestoredIsOld(w: World, old_: seq<Tour>, tours: seq<Tour>)
    requires ToursOk(w, old_) && |tours| == |old_|
    requires forall k :: 0 <= k < |old_| && w.price.fold(Routes(old_)[k]).Some? ==> tours[k] == Rebuilt(w, Routes(old_)[k])
    ensures tours == old_
  {
    forall k | 0 <= k < |old_| ensures tours[k] == old_[k] {
      assert TourOk(w, old_[k]);
      assert Routes(old_)[k] == old_[k].vertices;
    }
  }
}
