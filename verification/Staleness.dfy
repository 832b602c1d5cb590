/** The promising-set rule of the local search (cpp/ls/local_search.cpp, cpp/ls/ls.h): which moves a
    pass looks at, what would make it commit one, and why the moves it skips were already rejected. */
module Staleness {
  import opened Common
  import opened Instances
  import opened Neighbours
  import opened SearchStates

  const SCREEN_EPS := 0.000000001

  /** Moves by route index and position. Relocate takes position i of a before position p of b;
      Intra moves position i of a before position p; Swap exchanges two stops; TwoOpt exchanges the
      tails behind positions i and j. */
  datatype Move =
    | Relocate(a: nat, i: nat, b: nat, p: nat)
    | Intra(a: nat, i: nat, p: nat)
    | Swap(a: nat, i: nat, b: nat, j: nat)
    | TwoOpt(a: nat, i: nat, b: nat, j: nat)

  /** Operator index into `tested`. */
  function OpOf(m: Move): nat {
    match m
    case Relocate(_, _, _, _) => 0
    case Intra(_, _, _) => 1
    case Swap(_, _, _, _) => 2
    case TwoOpt(_, _, _, _) => 3
  }

  function OtherRoute(m: Move): nat {
    if m.Intra? then m.a else m.b
  }

  predicate ValidMove(routes: seq<seq<int>>, m: Move) {
    m.a < |routes| && m.i < |routes[m.a]| && OtherRoute(m) < |routes| &&
    match m
    case Relocate(a, i, b, p) => a != b && p <= |routes[b]|
    case Intra(a, i, p) => p <= |routes[a]| && p != i && p != i + 1
    case Swap(a, i, b, j) => a < b && j < |routes[b]|
    case TwoOpt(a, i, b, j) => a < b && j < |routes[b]| && !(i == |routes[a]| - 1 && j == |routes[b]| - 1)
  }

  // ---------- the edited routes ----------

  /** erase at i, then insert before the shifted position. */
  function MoveWithin(r: seq<int>, i: nat, p: nat): seq<int>
    requires i < |r| && p <= |r| && p != i
  {
    InsertAt(RemoveAt(r, i), if p < i then p else p - 1, r[i])
  }

  function NewA(m: Move, A: seq<int>, B: seq<int>): seq<int>
    requires m.i < |A| && (m.Intra? ==> m.p <= |A| && m.p != m.i) && (m.Swap? || m.TwoOpt? ==> m.j < |B|)
  {
    match m
    case Relocate(_, i, _, _) => RemoveAt(A, i)
    case Intra(_, i, p) => MoveWithin(A, i, p)
    case Swap(_, i, _, j) => A[i := B[j]]
    case TwoOpt(_, i, _, j) => A[..i + 1] + B[j + 1..]
  }

  function NewB(m: Move, A: seq<int>, B: seq<int>): seq<int>
    requires m.i < |A| && (m.Relocate? ==> m.p <= |B|) && (m.Swap? || m.TwoOpt? ==> m.j < |B|)
  {
    match m
    case Relocate(_, i, _, p) => InsertAt(B, p, A[i])
    case Intra(_, _, _) => []
    case Swap(_, i, _, j) => B[j := A[i]]
    case TwoOpt(_, i, _, j) => B[..j + 1] + A[i + 1..]
  }

  // ---------- screening ----------

  function Dur(w: World, r: seq<int>): real {
    var d := w.price.fold(r); if d.Some? then d.value else 0.0
  }

  /** deletion_rankings: 0 when the route empties, None when the removal ranks infeasible. */
  function DeletionRank(w: World, A: seq<int>, i: nat): Option<real> {
    if |A| == 1 then Some(0.0) else w.price.splice(A, i, i, A, 1, 0)
  }

  /** The shared prefix reaches position p. */
  predicate PrefixReaches(w: World, B: seq<int>, p: nat) {
    forall q :: 0 < q <= p ==> w.price.alive(B, q)
  }

  predicate ScreensRelocate(w: World, A: seq<int>, i: nat, B: seq<int>, p: nat)
    requires i < |A| && p <= |B|
  {
    var c := A[i];
    var del, ins := DeletionRank(w, A, i), w.price.insert(B, p, c);
    var credit := if |A| == 1 then w.inst.fixedCost else 0.0;
    && PrefixReaches(w, B, p)
    && Load(w.inst, B) + DemandOf(w.inst, c) <= w.inst.capacity
    && del.Some? && Dur(w, A) - del.value + credit > SCREEN_EPS
    && ins.Some? && (ins.value - Dur(w, B)) - (Dur(w, A) - del.value) - credit < -SCREEN_EPS
  }

  predicate ScreensIntra(w: World, A: seq<int>, i: nat, p: nat) {
    var e := w.price.intra(A, i, p);
    e.Some? && e.value - Dur(w, A) < -SCREEN_EPS
  }

  /** Two ranked routes that together beat the stored pair. */
  predicate PairImproves(w: World, A: seq<int>, B: seq<int>, ea: Option<real>, eb: Option<real>) {
    ea.Some? && eb.Some? && (ea.value - Dur(w, A)) + (eb.value - Dur(w, B)) < -SCREEN_EPS
  }

  predicate ScreensSwap(w: World, A: seq<int>, i: nat, B: seq<int>, j: nat)
    requires i < |A| && j < |B|
  {
    && Load(w.inst, A) - DemandOf(w.inst, A[i]) + DemandOf(w.inst, B[j]) <= w.inst.capacity
    && Load(w.inst, B) - DemandOf(w.inst, B[j]) + DemandOf(w.inst, A[i]) <= w.inst.capacity
    && PairImproves(w, A, B, w.price.splice(A, i, i, B, j, j), w.price.splice(B, j, j, A, i, i))
  }

  predicate ScreensTwoOpt(w: World, A: seq<int>, i: nat, B: seq<int>, j: nat)
    requires i < |A| && j < |B|
  {
    var headA, headB := Load(w.inst, A[..i + 1]), Load(w.inst, B[..j + 1]);
    && headA + (Load(w.inst, B) - headB) <= w.inst.capacity
    && headB + (Load(w.inst, A) - headA) <= w.inst.capacity
    && PairImproves(w, A, B, w.price.splice(A, i + 1, |A| - 1, B, j + 1, |B| - 1), w.price.splice(B, j + 1, |B| - 1, A, i + 1, |A| - 1))
  }

  predicate Screens(w: World, m: Move, A: seq<int>, B: seq<int>)
    requires m.i < |A| && (m.Relocate? ==> m.p <= |B|) && (m.Swap? || m.TwoOpt? ==> m.j < |B|)
  {
    match m
    case Relocate(_, i, _, p) => ScreensRelocate(w, A, i, B, p)
    case Intra(_, i, p) => ScreensIntra(w, A, i, p)
    case Swap(_, i, _, j) => ScreensSwap(w, A, i, B, j)
    case TwoOpt(_, i, _, j) => ScreensTwoOpt(w, A, i, B, j)
  }

  /** The fold accepts the edit of routes A and B. */
  predicate FoldTakes(w: World, m: Move, A: seq<int>, B: seq<int>)
    requires m.i < |A| && (m.Relocate? ==> m.p <= |B|) && (m.Swap? || m.TwoOpt? ==> m.j < |B|) && (m.Intra? ==> m.p <= |A| && m.p != m.i)
  {
    var ca, cb := Candidate(w, NewA(m, A, B)), Candidate(w, NewB(m, A, B));
    && ca.Some? && cb.Some?
    && Accepts(w, Dur(w, A) + (if m.Intra? then 0.0 else Dur(w, B)), if m.Intra? then 1 else 2, ca.value, cb.value)
  }

  /** A pass that looks at the move commits it: the ranking passes the screen and the fold agrees.
      Only the two vertex lists matter. */
  predicate Takes(w: World, routes: seq<seq<int>>, m: Move)
    requires ValidMove(routes, m)
  {
    var A, B := routes[m.a], routes[OtherRoute(m)];
    Screens(w, m, A, B) && FoldTakes(w, m, A, B)
  }

  // ---------- justification and retesting ----------

  function At0(r: seq<int>, k: int): int {
    if 0 <= k < |r| then r[k] else 0
  }

  /** Granular justification: a created arc joins neighbours, or the two exchanged clients are neighbours. */
  predicate Justified(n: nat, nb: NeighbourLists, routes: seq<seq<int>>, m: Move)
    requires Sound(nb, n) && ValidMove(routes, m) && OnClients(n, routes)
  {
    var A, B := routes[m.a], routes[OtherRoute(m)];
    match m
    case Relocate(_, i, _, p) =>
      nb.IsNeighbour(A[i], At0(B, p - 1)) || (p < |B| && nb.IsNeighbour(A[i], B[p]))
    case Intra(_, _, _) => true
    case Swap(_, i, _, j) => nb.IsNeighbour(A[i], B[j])
    case TwoOpt(_, i, _, j) =>
      (j + 1 < |B| && nb.IsNeighbour(A[i], B[j + 1])) || (i + 1 < |A| && nb.IsNeighbour(B[j], A[i + 1]))
  }

  predicate Squared(nb: NeighbourLists, n: nat) {
    |nb.adjacent| == n + 1 && forall v :: 0 <= v <= n ==> |nb.adjacent[v]| == n + 1
  }

  /** Stops k and k + 1 of the list are neighbours. */
  predicate NearArc(nb: NeighbourLists, r: seq<int>, k: int)
    requires forall j :: 0 <= j < |r| ==> 0 <= r[j] < |nb.adjacent| && |nb.adjacent[r[j]]| == |nb.adjacent|
  {
    0 <= k && k + 1 < |r| && nb.IsNeighbour(r[k], r[k + 1])
  }

  /** Under restricted lists a relocate is justified exactly when an arc it creates joins neighbours; the arcs
      are read off the edited route. */
  lemma JustifiedRelocate(n: nat, nb: NeighbourLists, routes: seq<seq<int>>, a: nat, i: nat, b: nat, p: nat)
    requires var m := Relocate(a, i, b, p); Sound(nb, n) && nb.Restricted() && ValidMove(routes, m) && OnClients(n, routes)
    ensures var m := Relocate(a, i, b, p);
            var edited := NewB(m, routes[a], routes[b]);
            && (forall k :: 0 <= k < |edited| ==> 1 <= edited[k] <= n) && Squared(nb, n)
            && (Justified(n, nb, routes, m) <==> NearArc(nb, edited, p - 1) || NearArc(nb, edited, p))
  {
    hide NearArc;
    RelocateNearArc(n, nb, routes[a], i, routes[b], p);
  }

  /** A tail exchange exactly when one of the two arcs at the cuts does. */
  lemma JustifiedTailExchange(n: nat, nb: NeighbourLists, routes: seq<seq<int>>, a: nat, i: nat, b: nat, j: nat)
    requires var m := TwoOpt(a, i, b, j); Sound(nb, n) && nb.Restricted() && ValidMove(routes, m) && OnClients(n, routes)
    ensures var m := TwoOpt(a, i, b, j);
            var x, y := NewA(m, routes[a], routes[b]), NewB(m, routes[a], routes[b]);
            && (forall k :: 0 <= k < |x| ==> 1 <= x[k] <= n) && (forall k :: 0 <= k < |y| ==> 1 <= y[k] <= n) && Squared(nb, n)
            && (Justified(n, nb, routes, m) <==> NearArc(nb, x, i) || NearArc(nb, y, j))
  {
    hide NearArc;
    TailNearArc(n, nb, routes[a], i, routes[b], j);
  }

  lemma RelocateNearArc(n: nat, nb: NeighbourLists, A: seq<int>, i: nat, B: seq<int>, p: nat)
    requires Sound(nb, n) && nb.Restricted() && i < |A| && p <= |B|
    requires (forall j :: 0 <= j < |A| ==> 1 <= A[j] <= n) && forall j :: 0 <= j < |B| ==> 1 <= B[j] <= n
    ensures var a, b, u := RemoveAt(A, i), InsertAt(B, p, A[i]), A[i];
            && (forall j :: 0 <= j < |a| ==> 1 <= a[j] <= n) && (forall j :: 0 <= j < |b| ==> 1 <= b[j] <= n) && Squared(nb, n)
            && (nb.IsNeighbour(u, At0(B, p - 1)) || (p < |B| && nb.IsNeighbour(u, B[p])) <==> NearArc(nb, b, p - 1) || NearArc(nb, b, p))
  {
    var u, b := A[i], InsertAt(B, p, A[i]);
    if p > 0 { assert b[p - 1] == B[p - 1] && b[p] == u && nb.adjacent[u][B[p - 1]] == nb.adjacent[B[p - 1]][u]; }
    assert !nb.adjacent[0][u] && nb.adjacent[u][0] == nb.adjacent[0][u];
    if p < |B| { assert b[p + 1] == B[p] && b[p] == u; }
  }

  lemma TailNearArc(n: nat, nb: NeighbourLists, A: seq<int>, i: nat, B: seq<int>, j: nat)
    requires Sound(nb, n) && nb.Restricted() && i < |A| && j < |B|
    requires (forall k :: 0 <= k < |A| ==> 1 <= A[k] <= n) && forall k :: 0 <= k < |B| ==> 1 <= B[k] <= n
    ensures var a, b := A[..i + 1] + B[j + 1..], B[..j + 1] + A[i + 1..];
            && (forall k :: 0 <= k < |a| ==> 1 <= a[k] <= n) && (forall k :: 0 <= k < |b| ==> 1 <= b[k] <= n) && Squared(nb, n)
            && ((j + 1 < |B| && nb.IsNeighbour(A[i], B[j + 1])) || (i + 1 < |A| && nb.IsNeighbour(B[j], A[i + 1])) <==> NearArc(nb, a, i) || NearArc(nb, b, j))
  {
    var a, b := A[..i + 1] + B[j + 1..], B[..j + 1] + A[i + 1..];
    if j + 1 < |B| { assert a[i] == A[i] && a[i + 1] == B[j + 1]; }
    if i + 1 < |A| { assert b[j] == B[j] && b[j + 1] == A[i + 1]; }
  }

  ghost predicate OnClients(n: nat, routes: seq<seq<int>>) {
    forall k, i :: 0 <= k < |routes| && 0 <= i < |routes[k]| ==> 1 <= routes[k][i] <= n
  }

  /** compute_retest for one client. */
  ghost predicate Retest(n: nat, nb: NeighbourLists, touched: seq<int>, lt: seq<int>, op: nat, c: int)
    requires Sound(nb, n) && |touched| == |lt| == n + 1 && 1 <= c <= n
  {
    || touched[c] > lt[c]
    || (op != 1 && if nb.Restricted() then exists v :: v in nb.List(c) && touched[v] > lt[c]
                   else exists v :: 1 <= v <= n && touched[v] > lt[c])
  }

  /** The pass looks at the move: one of its key clients is retested. */
  ghost predicate Enumerated(n: nat, nb: NeighbourLists, routes: seq<seq<int>>, s: State, m: Move)
    requires Sound(nb, n) && ValidMove(routes, m) && OnClients(n, routes) && StampsOk(n, s)
  {
    var A, op := routes[m.a], OpOf(m);
    || Retest(n, nb, s.touched, s.tested[op], op, A[m.i])
    || (m.TwoOpt? && m.i + 1 < |A| && Retest(n, nb, s.touched, s.tested[op], op, A[m.i + 1]))
  }

  function Routes(tours: seq<Tour>): seq<seq<int>> {
    seq(|tours|, k requires 0 <= k < |tours| => tours[k].vertices)
  }

  lemma RoutesOnClients(w: World, tours: seq<Tour>)
    requires ToursOk(w, tours)
    ensures OnClients(w.inst.n, Routes(tours))
  {
    forall k, i | 0 <= k < |tours| && 0 <= i < |tours[k].vertices| ensures 1 <= tours[k].vertices[i] <= w.inst.n {
      assert TourOk(w, tours[k]);
      assert w.inst.Customer(tours[k].vertices[i]);
    }
  }

  /** The certificate: every justified move the next pass would skip is one it would not take. */
  ghost predicate Certified(w: World, nb: NeighbourLists, s: State)
    requires Sound(nb, w.inst.n) && StateOk(w, s)
  {
    RoutesOnClients(w, s.tours);
    var routes := Routes(s.tours);
    forall m :: ValidMove(routes, m) && Justified(w.inst.n, nb, routes, m) && !Enumerated(w.inst.n, nb, routes, s, m) ==>
      !Takes(w, routes, m)
  }

  /** No justified move of the operator would be taken. */
  ghost predicate Exhausted(w: World, nb: NeighbourLists, tours: seq<Tour>, op: nat)
    requires Sound(nb, w.inst.n) && ToursOk(w, tours)
  {
    RoutesOnClients(w, tours);
    var routes := Routes(tours);
    forall m :: ValidMove(routes, m) && OpOf(m) == op && Justified(w.inst.n, nb, routes, m) ==> !Takes(w, routes, m)
  }

  // ---------- steps that keep the certificate ----------

  /** s' comes from s by some surgery: src[k] names the old route that route k still is, or is -1 for
      a route all of whose clients were touched after everything in s. Old routes keep their order. */
  ghost predicate Carries(n: nat, s: State, s': State, src: seq<int>) {
    && StampsOk(n, s) && StampsOk(n, s') && s'.tested == s.tested
    && (forall v :: 0 <= v <= n ==> s.touched[v] <= s'.touched[v])
    && |src| == |s'.tours|
    && (forall k :: 0 <= k < |src| ==>
          if src[k] < 0 then forall v :: v in s'.tours[k].vertices && 0 <= v <= n ==> s'.touched[v] > s.epoch
          else src[k] < |s.tours| && s'.tours[k] == s.tours[src[k]])
    && (forall k, l :: 0 <= k < l < |src| && src[k] >= 0 && src[l] >= 0 ==> src[k] < src[l])
  }

  /** A client that is not retested lives in an untouched route. */
  lemma NotRetestedIsOld(w: World, nb: NeighbourLists, s: State, s': State, src: seq<int>, op: nat, k: nat, i: nat)
    requires Sound(nb, w.inst.n) && Carries(w.inst.n, s, s', src) && ToursOk(w, s'.tours) && op < 4
    requires k < |s'.tours| && i < |s'.tours[k].vertices| && w.inst.Customer(s'.tours[k].vertices[i])
    requires !Retest(w.inst.n, nb, s'.touched, s'.tested[op], op, s'.tours[k].vertices[i])
    ensures src[k] >= 0
    ensures !Retest(w.inst.n, nb, s.touched, s.tested[op], op, s'.tours[k].vertices[i])
  {
    var n, c := w.inst.n, s'.tours[k].vertices[i];
    if op != 1 && nb.Restricted() {
      assert forall v :: v in nb.List(c) ==> 1 <= v <= n;
    }
  }

  /** ... and so does every neighbour of it, for the operators with a neighbour term. */
  lemma NeighbourIsOld(w: World, nb: NeighbourLists, s: State, s': State, src: seq<int>, op: nat, c: int, k: nat, j: nat)
    requires Sound(nb, w.inst.n) && Carries(w.inst.n, s, s', src) && ToursOk(w, s'.tours) && op < 4 && op != 1
    requires w.inst.Customer(c) && k < |s'.tours| && j < |s'.tours[k].vertices| && w.inst.Customer(s'.tours[k].vertices[j])
    requires nb.IsNeighbour(c, s'.tours[k].vertices[j]) && !Retest(w.inst.n, nb, s'.touched, s'.tested[op], op, c)
    ensures src[k] >= 0
  {
    var v := s'.tours[k].vertices[j];
    assert nb.Restricted() ==> v in nb.List(c);
    assert s'.touched[v] <= s'.tested[op][c] <= s.epoch;
    assert v in s'.tours[k].vertices;
  }

  /** The arc that justifies a move joins a client of the move to a stop of the other route. */
  lemma JustifyingArc(w: World, nb: NeighbourLists, tours: seq<Tour>, m: Move) returns (key: nat, j: nat)
    requires Sound(nb, w.inst.n) && nb.Restricted() && ToursOk(w, tours)
    requires OnClients(w.inst.n, Routes(tours)) && ValidMove(Routes(tours), m) && !m.Intra? && Justified(w.inst.n, nb, Routes(tours), m)
    ensures key < |tours[m.a].vertices| && j < |tours[m.b].vertices|
    ensures key == m.i || (m.TwoOpt? && key == m.i + 1)
    ensures nb.IsNeighbour(tours[m.a].vertices[key], tours[m.b].vertices[j])
  {
    var A, B := Routes(tours)[m.a], Routes(tours)[m.b];
    key, j := m.i, 0;
    var c := A[m.i];
    assert nb.adjacent[c][0] == nb.adjacent[0][c];
    match m
    case Relocate(_, i, _, p) =>
      j := if p < |B| && nb.IsNeighbour(c, B[p]) then p else p - 1;
    case Swap(_, i, _, k) =>
      j := k;
    case TwoOpt(_, i, _, k) =>
      if k + 1 < |B| && nb.IsNeighbour(c, B[k + 1]) {
        j := k + 1;
      } else {
        key, j := i + 1, k;
        assert nb.adjacent[B[k]][A[i + 1]] == nb.adjacent[A[i + 1]][B[k]];
      }
    case Intra(_, _, _) =>
  }

  lemma CustomerAt(w: World, tours: seq<Tour>, k: nat, i: nat)
    requires ToursOk(w, tours) && k < |tours| && i < |tours[k].vertices|
    ensures w.inst.Customer(tours[k].vertices[i])
  {
    assert TourOk(w, tours[k]);
  }

  /** The other route of a justified, skipped move is an old route too. */
  lemma OtherIsOld(w: World, nb: NeighbourLists, s: State, s': State, src: seq<int>, m: Move)
    requires Sound(nb, w.inst.n) && StateOk(w, s') && Carries(w.inst.n, s, s', src)
    requires OnClients(w.inst.n, Routes(s'.tours)) && ValidMove(Routes(s'.tours), m) && !m.Intra?
    requires Justified(w.inst.n, nb, Routes(s'.tours), m) && !Enumerated(w.inst.n, nb, Routes(s'.tours), s', m)
    ensures src[m.b] >= 0
  {
    hide Served, AllClients, Carries, Sound, Justified, TourOk;
    var tours := s'.tours;
    var key, j := m.i, 0;
    if nb.Restricted() { key, j := JustifyingArc(w, nb, tours, m); } else { NonEmptyTour(w, nb, tours, m.b); }
    CustomerAt(w, tours, m.a, key);
    CustomerAt(w, tours, m.b, j);
    NeighbourIsOld(w, nb, s, s', src, OpOf(m), tours[m.a].vertices[key], m.b, j);
  }

  lemma NonEmptyTour(w: World, nb: NeighbourLists, tours: seq<Tour>, k: nat)
    requires Sound(nb, w.inst.n) && !nb.Restricted() && ToursOk(w, tours) && k < |tours|
    ensures nb.k == 0 && |tours[k].vertices| > 0
  {
    assert TourOk(w, tours[k]);
  }

  /** The same move on the routes it was before. */
  function Back(m: Move, a: nat, b: nat): Move {
    match m
    case Relocate(_, i, _, p) => Relocate(a, i, b, p)
    case Intra(_, i, p) => Intra(a, i, p)
    case Swap(_, i, _, j) => Swap(a, i, b, j)
    case TwoOpt(_, i, _, j) => TwoOpt(a, i, b, j)
  }

  /** Soundness of staleness: whatever a carrying step does, a move it makes nobody retest was
      already one that would not be taken, on the same two vertex lists. */
  lemma CarriesCertified(w: World, nb: NeighbourLists, s: State, s': State, src: seq<int>)
    requires Sound(nb, w.inst.n) && StateOk(w, s) && StateOk(w, s') && Carries(w.inst.n, s, s', src)
    requires Certified(w, nb, s)
    ensures Certified(w, nb, s')
  {
    hide Takes, StampsOk, Served, AllClients;
    RoutesOnClients(w, s.tours);
    RoutesOnClients(w, s'.tours);
    var n, routes, routes' := w.inst.n, Routes(s.tours), Routes(s'.tours);
    forall m | ValidMove(routes', m) && Justified(n, nb, routes', m) && !Enumerated(n, nb, routes', s', m)
      ensures !Takes(w, routes', m)
    {
      SkippedWasRejected(w, nb, s, s', src, m);
    }
  }

  lemma SkippedWasRejected(w: World, nb: NeighbourLists, s: State, s': State, src: seq<int>, m: Move)
    requires Sound(nb, w.inst.n) && StateOk(w, s) && StateOk(w, s') && Carries(w.inst.n, s, s', src)
    requires Certified(w, nb, s)
    requires OnClients(w.inst.n, Routes(s'.tours)) && ValidMove(Routes(s'.tours), m)
    requires Justified(w.inst.n, nb, Routes(s'.tours), m) && !Enumerated(w.inst.n, nb, Routes(s'.tours), s', m)
    ensures !Takes(w, Routes(s'.tours), m)
  {
    hide Screens, FoldTakes, Served, AllClients, Retest, Justified, Enumerated, Carries, TourOk;
    RoutesOnClients(w, s.tours);
    var routes := Routes(s.tours);
    MoverIsOld(w, nb, s, s', src, m);
    if !m.Intra? { OtherIsOld(w, nb, s, s', src, m); }
    var a, b := SkippedBack(w, nb, s, s', src, m);
    var m0 := Back(m, a, b);
    assert !Takes(w, routes, m0);
    BackFields(m, a, b);
    SameLists(w, m, a, b, routes[a], routes[b]);
  }

  lemma BackFields(m: Move, a: nat, b: nat)
    ensures var m0 := Back(m, a, b); m0.a == a && (!m.Intra? ==> OtherRoute(m0) == b) && (m.Intra? ==> OtherRoute(m0) == a)
  {
  }

  /** The moving client's route, and for a cut its next client, were not touched. */
  lemma MoverIsOld(w: World, nb: NeighbourLists, s: State, s': State, src: seq<int>, m: Move)
    requires Sound(nb, w.inst.n) && StateOk(w, s') && Carries(w.inst.n, s, s', src)
    requires OnClients(w.inst.n, Routes(s'.tours)) && ValidMove(Routes(s'.tours), m) && !Enumerated(w.inst.n, nb, Routes(s'.tours), s', m)
    ensures var op, verts := OpOf(m), s'.tours[m.a].vertices;
            && src[m.a] >= 0
            && !Retest(w.inst.n, nb, s.touched, s.tested[op], op, verts[m.i])
            && (m.TwoOpt? && m.i + 1 < |verts| ==> !Retest(w.inst.n, nb, s.touched, s.tested[op], op, verts[m.i + 1]))
  {
    hide Served, AllClients, Retest, Sound, TourOk;
    var op, verts := OpOf(m), s'.tours[m.a].vertices;
    CustomerAt(w, s'.tours, m.a, m.i);
    NotRetestedIsOld(w, nb, s, s', src, op, m.a, m.i);
    if m.TwoOpt? && m.i + 1 < |verts| {
      CustomerAt(w, s'.tours, m.a, m.i + 1);
      NotRetestedIsOld(w, nb, s, s', src, op, m.a, m.i + 1);
    }
  }

  /** The same move, on the same lists, was valid, justified and skipped before. */
  lemma SkippedBack(w: World, nb: NeighbourLists, s: State, s': State, src: seq<int>, m: Move) returns (a: nat, b: nat)
    requires Sound(nb, w.inst.n) && StateOk(w, s) && StateOk(w, s') && Carries(w.inst.n, s, s', src)
    requires OnClients(w.inst.n, Routes(s'.tours)) && OnClients(w.inst.n, Routes(s.tours)) && ValidMove(Routes(s'.tours), m)
    requires Justified(w.inst.n, nb, Routes(s'.tours), m)
    requires src[m.a] >= 0 && (!m.Intra? ==> src[m.b] >= 0)
    requires var op, verts := OpOf(m), s'.tours[m.a].vertices;
             && !Retest(w.inst.n, nb, s.touched, s.tested[op], op, verts[m.i])
             && (m.TwoOpt? && m.i + 1 < |verts| ==> !Retest(w.inst.n, nb, s.touched, s.tested[op], op, verts[m.i + 1]))
    ensures var routes, routes', m0 := Routes(s.tours), Routes(s'.tours), Back(m, a, b);
            && a < |routes| && b < |routes| && routes[a] == routes'[m.a] && routes[b] == routes'[OtherRoute(m)]
            && ValidMove(routes, m0) && Justified(w.inst.n, nb, routes, m0) && !Enumerated(w.inst.n, nb, routes, s, m0)
  {
    hide Served, AllClients, Retest, Sound, TourOk, ToursOk;
    a := src[m.a];
    b := if m.Intra? then a else src[m.b];
  }

  /** Screening and acceptance read only the two lists, never the indices. */
  lemma SameLists(w: World, m: Move, a: nat, b: nat, A: seq<int>, B: seq<int>)
    requires m.i < |A| && (m.Relocate? ==> m.p <= |B|) && (m.Swap? || m.TwoOpt? ==> m.j < |B|) && (m.Intra? ==> m.p <= |A| && m.p != m.i)
    ensures Screens(w, Back(m, a, b), A, B) == Screens(w, m, A, B)
    ensures FoldTakes(w, Back(m, a, b), A, B) == FoldTakes(w, m, A, B)
  {
    hide ScreensRelocate, ScreensIntra, ScreensSwap, ScreensTwoOpt, Candidate, Accepts, MoveWithin, InsertAt, RemoveAt, Dur;
  }

  // ---------- commits, marks, clean passes ----------

  lemma EditPosIncreases(a: nat, goneA: bool, b: nat, goneB: bool, k: nat, l: nat)
    requires k < l
    ensures EditPos(a, goneA, b, goneB, k) < EditPos(a, goneA, b, goneB, l)
  {
  }

  /** Old indices of the surviving routes of a commit; -1 for the rebuilt ones. */
  function CommitSources(len: nat, a: nat, goneA: bool, b: nat, goneB: bool): seq<int> {
    seq(len, k requires 0 <= k < len =>
      var j := EditPos(a, goneA, b, goneB, k); if j == a || j == b then -1 else j)
  }

  /** A commit is a carrying step: it touches every client of the routes it rebuilds. */
  lemma CommitCarries(w: World, s: State, a: nat, newA: seq<int>, b: nat, newB: seq<int>) returns (src: seq<int>)
    requires StateOk(w, s) && a < |s.tours| && b < |s.tours|
    requires Commits(w, s.tours, a, newA, b, newB) && Redistributes(w, s.tours, a, newA, b, newB)
    ensures Carries(w.inst.n, s, Committed(w, s, a, newA, b, newB), src)
  {
    hide Served, AllClients, Durations, Accepts, EditTwo;
    var ca, cb := Candidate(w, newA).value, if a == b then NO_TOUR else Candidate(w, newB).value;
    var goneA, goneB := |ca.vertices| == 0, |cb.vertices| == 0;
    var s' := Committed(w, s, a, newA, b, newB);
    CommitKeeps(w, s, a, newA, b, newB);
    src := CommitSources(|s'.tours|, a, goneA, b, goneB);
    forall k | 0 <= k < |src|
      ensures if src[k] < 0 then forall v :: v in s'.tours[k].vertices && 0 <= v <= w.inst.n ==> s'.touched[v] > s.epoch
              else src[k] < |s.tours| && s'.tours[k] == s.tours[src[k]]
    {
      EditPosIs(s.tours, a, ca, goneA, b, cb, goneB, k);
    }
    forall k, l | 0 <= k < l < |src| && src[k] >= 0 && src[l] >= 0 ensures src[k] < src[l] {
      EditPosIncreases(a, goneA, b, goneB, k, l);
    }
  }

  /** A commit keeps the certificate, for any lists. */
  lemma CommitCertifies(w: World, nb: NeighbourLists, s: State, a: nat, newA: seq<int>, b: nat, newB: seq<int>)
    requires Sound(nb, w.inst.n) && StateOk(w, s) && a < |s.tours| && b < |s.tours|
    requires Commits(w, s.tours, a, newA, b, newB) && Redistributes(w, s.tours, a, newA, b, newB)
    requires Certified(w, nb, s)
    ensures StateOk(w, Committed(w, s, a, newA, b, newB)) && Certified(w, nb, Committed(w, s, a, newA, b, newB))
  {
    hide Certified, Carries, Commits, Redistributes, StateOk;
    CommitKeeps(w, s, a, newA, b, newB);
    var src := CommitCarries(w, s, a, newA, b, newB);
    CarriesCertified(w, nb, s, Committed(w, s, a, newA, b, newB), src);
  }

  /** mark_all_touched: a new epoch, every client touched. */
  function AllTouched(s: State): State {
    s.(epoch := s.epoch + 1,
       touched := seq(|s.touched|, v requires 0 <= v < |s.touched| => if v == 0 then s.touched[0] else s.epoch + 1))
  }

  /** When every client is touched after its stamps nothing is skipped, whatever the lists. */
  ghost predicate EverythingFresh(n: nat, s: State) {
    StampsOk(n, s) && forall o, v :: 0 <= o < 4 && 1 <= v <= n ==> s.touched[v] > s.tested[o][v]
  }

  lemma FreshCertifies(w: World, nb: NeighbourLists, s: State)
    requires Sound(nb, w.inst.n) && StateOk(w, s) && EverythingFresh(w.inst.n, s)
    ensures Certified(w, nb, s)
  {
    hide Takes, Justified;
    RoutesOnClients(w, s.tours);
    var routes := Routes(s.tours);
    forall m | ValidMove(routes, m) && Justified(w.inst.n, nb, routes, m) ensures Enumerated(w.inst.n, nb, routes, s, m) {
      assert s.touched[routes[m.a][m.i]] > s.tested[OpOf(m)][routes[m.a][m.i]];
    }
  }

  lemma AllTouchedCertifies(w: World, nb: NeighbourLists, s: State)
    requires Sound(nb, w.inst.n) && StateOk(w, s)
    ensures StateOk(w, AllTouched(s)) && EverythingFresh(w.inst.n, AllTouched(s)) && Certified(w, nb, AllTouched(s))
  {
    FreshCertifies(w, nb, AllTouched(s));
  }

  /** Stamp the clients a clean pass retested. */
  ghost function Stamped(n: nat, nb: NeighbourLists, s: State, op: nat): State
    requires Sound(nb, n) && StampsOk(n, s) && op < 4
  {
    s.(tested := s.tested[op := seq(n + 1, c requires 0 <= c <= n =>
      if c >= 1 && Retest(n, nb, s.touched, s.tested[op], op, c) then s.epoch else s.tested[op][c])])
  }

  /** The lists of the certificate allow no more than the lists of the pass: the same lists, or the
      pass is exhaustive. */
  predicate Coarser(cert: NeighbourLists, nb: NeighbourLists) {
    cert == nb || nb.k == 0
  }

  /** A clean pass over (possibly wider) lists keeps the certificate of the granular lists: a move it
      looked at was rejected just now, any other move was certified before. */
  lemma CleanPassCertifies(w: World, cert: NeighbourLists, nb: NeighbourLists, s: State, op: nat)
    requires Sound(cert, w.inst.n) && Sound(nb, w.inst.n) && Coarser(cert, nb) && StateOk(w, s) && op < 4
    requires Certified(w, cert, s) && Exhausted(w, nb, s.tours, op)
    ensures StateOk(w, Stamped(w.inst.n, nb, s, op)) && Certified(w, cert, Stamped(w.inst.n, nb, s, op))
  {
    hide Takes, Served, AllClients;
    var n, s' := w.inst.n, Stamped(w.inst.n, nb, s, op);
    RoutesOnClients(w, s.tours);
    var routes := Routes(s.tours);
    forall m | ValidMove(routes, m) && Justified(n, cert, routes, m) && !Enumerated(n, cert, routes, s', m)
      ensures !Takes(w, routes, m)
    {
      WiderJustifies(w, cert, nb, routes, m);
      if OpOf(m) != op {
        assert !Enumerated(n, cert, routes, s, m);
      }
    }
  }

  lemma WiderJustifies(w: World, cert: NeighbourLists, nb: NeighbourLists, routes: seq<seq<int>>, m: Move)
    requires Sound(cert, w.inst.n) && Sound(nb, w.inst.n) && Coarser(cert, nb)
    requires OnClients(w.inst.n, routes) && ValidMove(routes, m) && Justified(w.inst.n, cert, routes, m)
    ensures Justified(w.inst.n, nb, routes, m)
  {
  }
}
