/** The live state of the local search (cpp/ls/ls.h) and its commit path (cpp/ls/local_search.cpp).
    Pricing is any deterministic function of vertex lists: the theorems of the search layer hold for
    every ranking, exact or rounded; ExactPricing instantiates it with the proved evaluators. */
module SearchStates {
  import opened Common
  import opened Instances

  /** fold prices a route (None: infeasible); the other four rank edits of stored routes.
      splice(r1, i1, j1, r2, i2, j2) and intra(r, i, p) follow evaluate_splice and
      evaluate_intra_relocate; insert(r, p, c) is the shared-prefix insertion ranking and
      alive(r, p) says that the prefix of r before position p is not empty. */
  datatype Pricing = Pricing(
    fold: seq<int> -> Option<real>,
    splice: (seq<int>, int, int, seq<int>, int, int) -> Option<real>,
    intra: (seq<int>, int, int) -> Option<real>,
    insert: (seq<int>, int, int) -> Option<real>,
    alive: (seq<int>, int) -> bool)

  datatype World = World(inst: Problem, price: Pricing)

  /** A stored route: vertices, the fold's duration, the demand sum. */
  datatype Tour = Tour(vertices: seq<int>, duration: real, load: int)

  const NO_TOUR := Tour([], 0.0, 0)

  /** build_route_state; the empty list stands for a dropped route. */
  function Candidate(w: World, r: seq<int>): Option<Tour> {
    if |r| == 0 then Some(NO_TOUR)
    else
      var d := w.price.fold(r);
      if d.None? then None else Some(Tour(r, d.value, Load(w.inst, r)))
  }

  ghost predicate TourOk(w: World, t: Tour) {
    && |t.vertices| > 0 && w.inst.Route(t.vertices)
    && w.price.fold(t.vertices) == Some(t.duration)
    && t.load == Load(w.inst, t.vertices) && t.load <= w.inst.capacity
  }

  // ---------- sums over tours ----------

  ghost function Served(tours: seq<Tour>): multiset<int> {
    if |tours| == 0 then multiset{} else Served(tours[..|tours| - 1]) + multiset(tours[|tours| - 1].vertices)
  }

  function Durations(tours: seq<Tour>): real {
    if |tours| == 0 then 0.0 else Durations(tours[..|tours| - 1]) + tours[|tours| - 1].duration
  }

  /** F per route. */
  function Fee(w: World, routes: int): real {
    w.inst.fixedCost * routes as real
  }

  /** The objective: duration sum plus F per route. */
  function Cost(w: World, tours: seq<Tour>): real {
    Durations(tours) + Fee(w, |tours|)
  }

  lemma {:induction false} ReplaceSums(tours: seq<Tour>, k: nat, t: Tour)
    requires k < |tours|
    ensures Served(tours[k := t]) + multiset(tours[k].vertices) == Served(tours) + multiset(t.vertices)
    ensures Durations(tours[k := t]) == Durations(tours) - tours[k].duration + t.duration
    decreases |tours|
  {
    var n := |tours| - 1;
    if k < n {
      var u := tours[k := t];
      ReplaceSums(tours[..n], k, t);
      assert u[..n] == tours[..n][k := t] && u[n] == tours[n];
      var last, a := multiset(tours[n].vertices), multiset(tours[k].vertices);
      assert tours[..n][k] == tours[k];
      assert (Served(u[..n]) + last) + a == (Served(u[..n]) + a) + last;
      assert (Served(tours[..n]) + last) + multiset(t.vertices) == (Served(tours[..n]) + multiset(t.vertices)) + last;
    } else {
      assert tours[k := t][..n] == tours[..n];
    }
  }

  function Erase<T>(s: seq<T>, k: nat): seq<T>
    requires k < |s|
  {
    s[..k] + s[k + 1..]
  }

  /** Erasing before the end keeps the last element. */
  lemma EraseEarlier<T>(s: seq<T>, k: nat)
    requires k < |s| - 1
    ensures var e := Erase(s, k); |e| == |s| - 1 && e[|e| - 1] == s[|s| - 1] && e[..|e| - 1] == Erase(s[..|s| - 1], k)
  {
  }

  lemma Regroup(a: multiset<int>, b: multiset<int>, c: multiset<int>)
    ensures (a + b) + c == (a + c) + b
  {
  }

  lemma {:induction false} EraseSums(tours: seq<Tour>, k: nat)
    requires k < |tours|
    ensures Served(Erase(tours, k)) + multiset(tours[k].vertices) == Served(tours)
    ensures Durations(Erase(tours, k)) == Durations(tours) - tours[k].duration
    decreases |tours|
  {
    var n := |tours| - 1;
    if k < n {
      hide Erase;
      EraseSums(tours[..n], k);
      EraseEarlier(tours, k);
      Regroup(Served(Erase(tours[..n], k)), multiset(tours[n].vertices), multiset(tours[k].vertices));
    } else {
      assert Erase(tours, k) == tours[..n];
    }
  }

  lemma {:induction false} AppendSums(tours: seq<Tour>, t: Tour)
    ensures Served(tours + [t]) == Served(tours) + multiset(t.vertices)
    ensures Durations(tours + [t]) == Durations(tours) + t.duration
  {
    assert (tours + [t])[..|tours|] == tours;
  }

  lemma {:induction false} ServedBy(tours: seq<Tour>, v: int) returns (k: nat)
    requires v in Served(tours)
    ensures k < |tours| && v in tours[k].vertices
    decreases |tours|
  {
    var n := |tours| - 1;
    if v in tours[n].vertices {
      k := n;
    } else {
      k := ServedBy(tours[..n], v);
    }
  }

  predicate IsClient(n: nat, v: int) { 1 <= v <= n }

  ghost function ClientSet(n: nat): set<int> {
    set v | 1 <= v <= n && IsClient(n, v)
  }

  ghost function AllClients(n: nat): multiset<int> {
    multiset(ClientSet(n))
  }

  // ---------- the state ----------

  /** Values of a SearchState: touched[v] and tested[op][v] are epochs. */
  datatype State = State(tours: seq<Tour>, touched: seq<int>, tested: seq<seq<int>>, epoch: int)

  ghost predicate StampsOk(n: nat, s: State) {
    && |s.touched| == n + 1 && |s.tested| == 4 && (forall o :: 0 <= o < 4 ==> |s.tested[o]| == n + 1)
    && (forall v :: 0 <= v <= n ==> 0 <= s.touched[v] <= s.epoch)
    && (forall o, v :: 0 <= o < 4 && 0 <= v <= n ==> 0 <= s.tested[o][v] <= s.epoch)
  }

  ghost predicate ToursOk(w: World, tours: seq<Tour>) {
    forall k :: 0 <= k < |tours| ==> TourOk(w, tours[k])
  }

  /** What every operation keeps: each client in exactly one route, every route feasible, non-empty,
      within capacity and correctly priced and loaded. */
  ghost predicate Feasible(w: World, tours: seq<Tour>) {
    ToursOk(w, tours) && Served(tours) == AllClients(w.inst.n)
  }

  ghost predicate StateOk(w: World, s: State) {
    StampsOk(w.inst.n, s) && Feasible(w, s.tours)
  }

  class SearchState {
    var tours: seq<Tour>
    var touched: seq<int>
    var tested: seq<seq<int>>
    var epoch: int

    constructor ()
      ensures tours == []
    {
      tours, touched, tested, epoch := [], [], [], 1;
    }

    function View(): State
      reads this
    {
      State(tours, touched, tested, epoch)
    }
  }

  // ---------- commit_two ----------

  /** Repriced sum plus F per surviving route against the stored sum plus F per stored route. */
  predicate Accepts(w: World, oldSum: real, oldRoutes: int, ca: Tour, cb: Tour) {
    var newRoutes := (if |ca.vertices| > 0 then 1 else 0) + (if |cb.vertices| > 0 then 1 else 0);
    ca.duration + cb.duration + Fee(w, newRoutes) < oldSum + Fee(w, oldRoutes)
  }

  /** Whether commit_two takes the edit of routes a and b; with a == b there is no second route. */
  predicate Commits(w: World, tours: seq<Tour>, a: nat, newA: seq<int>, b: nat, newB: seq<int>)
    requires a < |tours| && b < |tours|
  {
    var ca, cb := Candidate(w, newA), if a == b then Some(NO_TOUR) else Candidate(w, newB);
    && ca.Some? && cb.Some?
    && Accepts(w, tours[a].duration + (if a == b then 0.0 else tours[b].duration), if a == b then 1 else 2, ca.value, cb.value)
  }

  /** Drop position k when it holds an emptied route. */
  function DropIf<T>(s: seq<T>, k: nat, gone: bool): seq<T>
    requires k < |s|
  {
    if gone then Erase(s, k) else s
  }

  /** Replace positions a and b, then drop the emptied ones, higher index first. */
  function EditTwo<T>(s: seq<T>, a: nat, xa: T, goneA: bool, b: nat, xb: T, goneB: bool): seq<T>
    requires a < |s| && b < |s|
  {
    if a == b then DropIf(s[a := xa], a, goneA)
    else
      var t := s[a := xa][b := xb];
      if a < b then DropIf(DropIf(t, b, goneB), a, goneA) else DropIf(DropIf(t, a, goneA), b, goneB)
  }

  function Stamp(touched: seq<int>, verts: seq<int>, epoch: int): (r: seq<int>)
    ensures |r| == |touched|
    ensures forall v :: 0 <= v < |r| ==> r[v] == if v in verts then epoch else touched[v]
  {
    seq(|touched|, v requires 0 <= v < |touched| => if v in verts then epoch else touched[v])
  }

  /** The state after a commit. */
  function Committed(w: World, s: State, a: nat, newA: seq<int>, b: nat, newB: seq<int>): State
    requires a < |s.tours| && b < |s.tours| && Commits(w, s.tours, a, newA, b, newB)
  {
    var ca, cb := Candidate(w, newA).value, if a == b then NO_TOUR else Candidate(w, newB).value;
    State(EditTwo(s.tours, a, ca, |ca.vertices| == 0, b, cb, |cb.vertices| == 0),
          Stamp(Stamp(s.touched, ca.vertices, s.epoch + 1), cb.vertices, s.epoch + 1),
          s.tested, s.epoch + 1)
  }

  method StampAll(ss: SearchState, verts: seq<int>, e: int)
    requires forall k :: 0 <= k < |verts| ==> 0 <= verts[k] < |ss.touched|
    modifies ss`touched
    ensures ss.touched == Stamp(old(ss.touched), verts, e)
  {
    for k := 0 to |verts|
      invariant ss.touched == Stamp(old(ss.touched), verts[..k], e)
    {
      ss.touched := ss.touched[verts[k] := e];
      assert verts[..k + 1] == verts[..k] + [verts[k]];
    }
    assert verts[..|verts|] == verts;
  }

  /** commit_two: the fold is the accountant; a refused edit changes nothing. */
  method CommitTwo(w: World, ss: SearchState, a: nat, newA: seq<int>, b: nat, newB: seq<int>) returns (ok: bool)
    requires a < |ss.tours| && b < |ss.tours| && |ss.touched| == w.inst.n + 1
    requires w.inst.Route(newA) && w.inst.Route(newB)
    modifies ss
    ensures ok == old(Commits(w, ss.tours, a, newA, b, newB))
    ensures !ok ==> ss.View() == old(ss.View())
    ensures ok ==> ss.View() == old(Committed(w, ss.View(), a, newA, b, newB))
  {
    var oldSum := ss.tours[a].duration + (if b == a then 0.0 else ss.tours[b].duration);
    var oldRoutes := if b == a then 1 else 2;
    var candA, candB := Candidate(w, newA), Some(NO_TOUR);
    if candA.None? { return false; }
    if b != a {
      candB := Candidate(w, newB);
      if candB.None? { return false; }
    }
    if !Accepts(w, oldSum, oldRoutes, candA.value, candB.value) { return false; }
    var goneA, goneB := |candA.value.vertices| == 0, |candB.value.vertices| == 0;
    ss.epoch := ss.epoch + 1;
    StampAll(ss, candA.value.vertices, ss.epoch);
    StampAll(ss, candB.value.vertices, ss.epoch);
    if a == b {
      ss.tours := ss.tours[a := candA.value];
      if goneA { ss.tours := Erase(ss.tours, a); }
    } else {
      ss.tours := ss.tours[a := candA.value];
      ss.tours := ss.tours[b := candB.value];
      var high, low := if a < b then b else a, if a < b then a else b;
      if (if a < b then goneB else goneA) { ss.tours := Erase(ss.tours, high); }
      if (if a < b then goneA else goneB) { ss.tours := Erase(ss.tours, low); }
    }
    return true;
  }

  // ---------- what a commit keeps ----------

  /** A drop removes a tour that weighs nothing. */
  lemma DropSums(tours: seq<Tour>, k: nat, gone: bool)
    requires k < |tours| && (gone ==> tours[k] == NO_TOUR)
    ensures Served(DropIf(tours, k, gone)) == Served(tours)
    ensures Durations(DropIf(tours, k, gone)) == Durations(tours)
    ensures |DropIf(tours, k, gone)| == |tours| - (if gone then 1 else 0)
  {
    if gone {
      EraseSums(tours, k);
      assert multiset(tours[k].vertices) == multiset{};
    }
  }

  lemma EditTwoSums(tours: seq<Tour>, a: nat, ta: Tour, b: nat, tb: Tour)
    requires a < |tours| && b < |tours| && a != b
    requires (|ta.vertices| == 0 ==> ta == NO_TOUR) && (|tb.vertices| == 0 ==> tb == NO_TOUR)
    ensures var r := EditTwo(tours, a, ta, |ta.vertices| == 0, b, tb, |tb.vertices| == 0);
            && Served(r) + (multiset(tours[a].vertices) + multiset(tours[b].vertices)) == Served(tours) + (multiset(ta.vertices) + multiset(tb.vertices))
            && Durations(r) == Durations(tours) - tours[a].duration - tours[b].duration + ta.duration + tb.duration
            && |r| == |tours| - 2 + (if |ta.vertices| > 0 then 1 else 0) + (if |tb.vertices| > 0 then 1 else 0)
  {
    var goneA, goneB := |ta.vertices| == 0, |tb.vertices| == 0;
    ReplaceSums(tours, a, ta);
    var t1 := tours[a := ta];
    ReplaceSums(t1, b, tb);
    var t2 := t1[b := tb];
    assert t1[b] == tours[b] && t2[a] == ta && t2[b] == tb;
    var ma, mb, na, nb := multiset(tours[a].vertices), multiset(tours[b].vertices), multiset(ta.vertices), multiset(tb.vertices);
    TwoReplaced(Served(tours), Served(t1), Served(t2), ma, mb, na, nb);
    if a < b {
      DropSums(t2, b, goneB);
      var t3 := DropIf(t2, b, goneB);
      assert t3[a] == ta;
      DropSums(t3, a, goneA);
    } else {
      DropSums(t2, a, goneA);
      var t3 := DropIf(t2, a, goneA);
      assert t3[b] == tb;
      DropSums(t3, b, goneB);
    }
  }

  lemma TwoReplaced(s0: multiset<int>, s1: multiset<int>, s2: multiset<int>, ma: multiset<int>, mb: multiset<int>, na: multiset<int>, nb: multiset<int>)
    requires s1 + ma == s0 + na && s2 + mb == s1 + nb
    ensures s2 + (ma + mb) == s0 + (na + nb)
  {
    assert s2 + (ma + mb) == (s2 + mb) + ma == (s1 + nb) + ma == (s1 + ma) + nb == (s0 + na) + nb;
  }

  lemma EditOneSums(tours: seq<Tour>, a: nat, ta: Tour)
    requires a < |tours| && (|ta.vertices| == 0 ==> ta == NO_TOUR)
    ensures var r := EditTwo(tours, a, ta, |ta.vertices| == 0, a, NO_TOUR, true);
            && Served(r) + multiset(tours[a].vertices) == Served(tours) + multiset(ta.vertices)
            && Durations(r) == Durations(tours) - tours[a].duration + ta.duration
            && |r| == |tours| - 1 + (if |ta.vertices| > 0 then 1 else 0)
  {
    ReplaceSums(tours, a, ta);
    DropSums(tours[a := ta], a, |ta.vertices| == 0);
  }

  /** An edit that redistributes the clients of the routes it touches. */
  ghost predicate Redistributes(w: World, tours: seq<Tour>, a: nat, newA: seq<int>, b: nat, newB: seq<int>)
    requires a < |tours| && b < |tours|
  {
    && w.inst.Route(newA) && w.inst.Route(newB) && Load(w.inst, newA) <= w.inst.capacity && Load(w.inst, newB) <= w.inst.capacity
    && (if a == b then newB == [] && multiset(newA) == multiset(tours[a].vertices)
        else multiset(newA) + multiset(newB) == multiset(tours[a].vertices) + multiset(tours[b].vertices))
  }

  lemma CandidateOk(w: World, r: seq<int>)
    requires Candidate(w, r).Some? && w.inst.Route(r) && Load(w.inst, r) <= w.inst.capacity
    ensures Candidate(w, r).value.vertices == r
    ensures |r| == 0 ==> Candidate(w, r).value == NO_TOUR
    ensures |r| > 0 ==> TourOk(w, Candidate(w, r).value)
  {
  }

  /** Where position k of an edited list was before the drops. */
  function EditPos(a: nat, goneA: bool, b: nat, goneB: bool, k: nat): nat {
    if a == b then (if goneA && k >= a then k + 1 else k)
    else
      var hi, lo := if a < b then b else a, if a < b then a else b;
      var gh, gl := if a < b then goneB else goneA, if a < b then goneA else goneB;
      var k1 := if gl && k >= lo then k + 1 else k;
      if gh && k1 >= hi then k1 + 1 else k1
  }

  lemma DropIfAt<T>(s: seq<T>, k: nat, gone: bool, i: nat)
    requires k < |s| && i < |DropIf(s, k, gone)|
    ensures var j := if gone && i >= k then i + 1 else i;
            j < |s| && (gone ==> j != k) && DropIf(s, k, gone)[i] == s[j]
  {
  }

  lemma EditPosIs<T>(s: seq<T>, a: nat, xa: T, goneA: bool, b: nat, xb: T, goneB: bool, k: nat)
    requires a < |s| && b < |s| && k < |EditTwo(s, a, xa, goneA, b, xb, goneB)|
    ensures var j := EditPos(a, goneA, b, goneB, k);
            && j < |s| && (goneA ==> j != a) && (a != b && goneB ==> j != b)
            && EditTwo(s, a, xa, goneA, b, xb, goneB)[k] == if j == b && a != b then xb else if j == a then xa else s[j]
  {
    hide DropIf;
    if a == b {
      DropIfAt(s[a := xa], a, goneA, k);
    } else {
      var t := s[a := xa][b := xb];
      var hi, lo := if a < b then b else a, if a < b then a else b;
      var gh, gl := if a < b then goneB else goneA, if a < b then goneA else goneB;
      DropIfSize(t, hi, gh);
      DropIfAt(DropIf(t, hi, gh), lo, gl, k);
      DropIfAt(t, hi, gh, if gl && k >= lo then k + 1 else k);
    }
  }

  lemma DropIfSize<T>(s: seq<T>, k: nat, gone: bool)
    requires k < |s|
    ensures |DropIf(s, k, gone)| == |s| - (if gone then 1 else 0)
  {
  }

  /** Survivors of an edit are old tours or the two new ones. */
  lemma EditTwoMembers<T>(s: seq<T>, a: nat, xa: T, goneA: bool, b: nat, xb: T, goneB: bool, k: nat)
    requires a < |s| && b < |s| && k < |EditTwo(s, a, xa, goneA, b, xb, goneB)|
    ensures var r := EditTwo(s, a, xa, goneA, b, xb, goneB);
            (r[k] == xa && !goneA) || (a != b && r[k] == xb && !goneB) || exists j :: 0 <= j < |s| && j != a && j != b && r[k] == s[j]
  {
    hide EditTwo, EditPos;
    EditPosIs(s, a, xa, goneA, b, xb, goneB, k);
  }

  /** A commit keeps the state feasible and strictly lowers the objective; it never opens a route. */
  lemma CommitKeeps(w: World, s: State, a: nat, newA: seq<int>, b: nat, newB: seq<int>)
    requires StateOk(w, s) && a < |s.tours| && b < |s.tours|
    requires Commits(w, s.tours, a, newA, b, newB) && Redistributes(w, s.tours, a, newA, b, newB)
    ensures var s' := Committed(w, s, a, newA, b, newB);
            StateOk(w, s') && Cost(w, s'.tours) < Cost(w, s.tours) && |s'.tours| <= |s.tours|
  {
    var ca, cb := Candidate(w, newA).value, if a == b then NO_TOUR else Candidate(w, newB).value;
    CandidateOk(w, newA);
    if a != b { CandidateOk(w, newB); }
    var s' := Committed(w, s, a, newA, b, newB);
    CommitSums(w, s, a, newA, b, newB);
    forall k | 0 <= k < |s'.tours| ensures TourOk(w, s'.tours[k]) {
      EditTwoMembers(s.tours, a, ca, |ca.vertices| == 0, b, cb, |cb.vertices| == 0, k);
    }
  }

  lemma CommitSums(w: World, s: State, a: nat, newA: seq<int>, b: nat, newB: seq<int>)
    requires a < |s.tours| && b < |s.tours|
    requires Commits(w, s.tours, a, newA, b, newB) && Redistributes(w, s.tours, a, newA, b, newB)
    ensures var s' := Committed(w, s, a, newA, b, newB);
            Served(s'.tours) == Served(s.tours) && Cost(w, s'.tours) < Cost(w, s.tours) && |s'.tours| <= |s.tours|
  {
    hide Fee, EditTwo, Served, Durations;
    var ca, cb := Candidate(w, newA).value, if a == b then NO_TOUR else Candidate(w, newB).value;
    CandidateOk(w, newA);
    var s' := Committed(w, s, a, newA, b, newB);
    if a == b {
      EditOneSums(s.tours, a, ca);
      Cancel(Served(s'.tours), Served(s.tours), multiset(newA));
      PriceShift(w, |s.tours|, |s'.tours|, 1, if |newA| > 0 then 1 else 0);
    } else {
      CandidateOk(w, newB);
      EditTwoSums(s.tours, a, ca, b, cb);
      Cancel(Served(s'.tours), Served(s.tours), multiset(newA) + multiset(newB));
      PriceShift(w, |s.tours|, |s'.tours|, 2, (if |newA| > 0 then 1 else 0) + (if |newB| > 0 then 1 else 0));
    }
  }

  lemma Cancel(x: multiset<int>, y: multiset<int>, m: multiset<int>)
    requires x + m == y + m
    ensures x == y
  {
    assert (x + m) - m == x && (y + m) - m == y;
  }

  lemma PriceShift(w: World, before: int, after: int, old_: int, new_: int)
    requires after == before - old_ + new_
    ensures Fee(w, after) == Fee(w, before) - Fee(w, old_) + Fee(w, new_)
  {
    var f := w.inst.fixedCost;
    assert f * (before - old_ + new_) as real == f * before as real - f * old_ as real + f * new_ as real;
  }
}
