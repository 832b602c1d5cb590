/** The operator passes and the descent of the local search (cpp/ls/local_search.cpp). Every pass
    either commits one justified move it was allowed to look at, or ends with a proof that its
    operator has no justified move left; the descent runs them to a common fixed point. */
module LocalSearch {
  import opened Instances
  import opened Neighbours
  import opened SearchStates
  import opened Staleness

  // ---------- one move ----------

  predicate CommitsMove(w: World, s: State, m: Move)
    requires ValidMove(Routes(s.tours), m)
  {
    var A, B := s.tours[m.a].vertices, s.tours[OtherRoute(m)].vertices;
    Commits(w, s.tours, m.a, NewA(m, A, B), OtherRoute(m), NewB(m, A, B))
  }

  /** The state after a committed move. */
  function AfterMove(w: World, s: State, m: Move): State
    requires ValidMove(Routes(s.tours), m) && CommitsMove(w, s, m)
  {
    var A, B := s.tours[m.a].vertices, s.tours[OtherRoute(m)].vertices;
    Committed(w, s, m.a, NewA(m, A, B), OtherRoute(m), NewB(m, A, B))
  }

  /** On a correctly priced state the fold's verdict on two lists is commit_two's. */
  lemma FoldDecides(w: World, s: State, m: Move)
    requires ToursOk(w, s.tours) && ValidMove(Routes(s.tours), m)
    ensures CommitsMove(w, s, m) == FoldTakes(w, m, s.tours[m.a].vertices, s.tours[OtherRoute(m)].vertices)
  {
    hide NewA, Accepts, Load, Fee;
    assert TourOk(w, s.tours[m.a]) && TourOk(w, s.tours[OtherRoute(m)]);
  }

  // ---------- what a move does to clients and loads ----------

  lemma InsertedLoad(w: World, r: seq<int>, p: nat, c: int)
    requires p <= |r|
    ensures Load(w.inst, InsertAt(r, p, c)) == Load(w.inst, r) + DemandOf(w.inst, c)
    ensures multiset(InsertAt(r, p, c)) == multiset(r) + multiset{c}
  {
    hide Load, DemandOf;
    assert r == r[..p] + r[p..];
    LoadAround(w, r[..p], c, r[p..]);
  }

  lemma RemovedClients(r: seq<int>, i: nat)
    requires i < |r|
    ensures multiset(RemoveAt(r, i)) + multiset{r[i]} == multiset(r)
  {
    assert r == r[..i] + ([r[i]] + r[i + 1..]);
  }

  lemma RemovedLoad(w: World, r: seq<int>, i: nat)
    requires i < |r|
    ensures Load(w.inst, RemoveAt(r, i)) == Load(w.inst, r) - DemandOf(w.inst, r[i])
    ensures multiset(RemoveAt(r, i)) + multiset{r[i]} == multiset(r)
  {
    hide Load, DemandOf, RemoveAt;
    RemovedClients(r, i);
    RemovedOnlyLoad(w, r, i);
  }

  lemma RemovedOnlyLoad(w: World, r: seq<int>, i: nat)
    requires i < |r|
    ensures Load(w.inst, RemoveAt(r, i)) == Load(w.inst, r) - DemandOf(w.inst, r[i])
  {
    hide Load, DemandOf;
    LoadAround(w, r[..i], r[i], r[i + 1..]);
    assert r == r[..i] + [r[i]] + r[i + 1..];
  }

  lemma LoadAround(w: World, a: seq<int>, x: int, b: seq<int>)
    ensures Load(w.inst, a + [x] + b) == Load(w.inst, a + b) + DemandOf(w.inst, x)
  {
    hide Load, DemandOf;
    LoadConcat(w.inst, a, b);
    LoadConcat(w.inst, a, [x]);
    LoadConcat(w.inst, a + [x], b);
    LoadOne(w.inst, x);
  }

  lemma ReplacedLoad(w: World, r: seq<int>, i: nat, c: int)
    requires i < |r|
    ensures Load(w.inst, r[i := c]) == Load(w.inst, r) - DemandOf(w.inst, r[i]) + DemandOf(w.inst, c)
    ensures multiset(r[i := c]) + multiset{r[i]} == multiset(r) + multiset{c}
  {
    assert RemoveAt(r[i := c], i) == RemoveAt(r, i);
    RemovedLoad(w, r, i);
    RemovedLoad(w, r[i := c], i);
    var rest := multiset(RemoveAt(r, i));
    assert multiset(r[i := c]) == rest + multiset{c};
  }

  lemma CutLoad(w: World, r: seq<int>, k: nat)
    requires k <= |r|
    ensures Load(w.inst, r) == Load(w.inst, r[..k]) + Load(w.inst, r[k..])
    ensures multiset(r) == multiset(r[..k]) + multiset(r[k..])
  {
    assert r == r[..k] + r[k..];
    LoadConcat(w.inst, r[..k], r[k..]);
  }

  lemma {:induction false} LoadNonNegative(w: World, r: seq<int>)
    ensures Load(w.inst, r) >= 0
    decreases |r|
  {
    if |r| > 0 { LoadNonNegative(w, r[..|r| - 1]); }
  }

  lemma DemandPositive(w: World, v: int)
    ensures DemandOf(w.inst, v) >= 0
  {
  }

  lemma RelocateBalances(w: World, A: seq<int>, i: nat, B: seq<int>, p: nat)
    requires i < |A| && p <= |B| && w.inst.Route(A) && w.inst.Route(B)
    ensures var a, b := RemoveAt(A, i), InsertAt(B, p, A[i]);
            && w.inst.Route(a) && w.inst.Route(b) && multiset(a) + multiset(b) == multiset(A) + multiset(B)
            && Load(w.inst, a) <= Load(w.inst, A) && Load(w.inst, b) == Load(w.inst, B) + DemandOf(w.inst, A[i])
  {
    hide Load, RemoveAt, InsertAt;
    RemovedLoad(w, A, i);
    RemovedRoute(w, A, i);
    DemandPositive(w, A[i]);
    InsertedLoad(w, B, p, A[i]);
    InsertedCustomers(w, B, p, A[i]);
    var a, b, c := multiset(RemoveAt(A, i)), multiset(B), multiset{A[i]};
    assert a + (b + c) == (a + c) + b;
  }

  lemma IntraBalances(w: World, A: seq<int>, i: nat, p: nat)
    requires i < |A| && p <= |A| && p != i && w.inst.Route(A)
    ensures var a := MoveWithin(A, i, p);
            w.inst.Route(a) && multiset(a) == multiset(A) && Load(w.inst, a) == Load(w.inst, A)
  {
    hide Load, RemoveAt, InsertAt;
    RemovedLoad(w, A, i);
    RemovedRoute(w, A, i);
    var q := if p < i then p else p - 1;
    InsertedLoad(w, RemoveAt(A, i), q, A[i]);
    InsertedCustomers(w, RemoveAt(A, i), q, A[i]);
  }

  lemma RemovedRoute(w: World, r: seq<int>, i: nat)
    requires i < |r| && w.inst.Route(r)
    ensures w.inst.Route(RemoveAt(r, i)) && |RemoveAt(r, i)| == |r| - 1 && w.inst.Customer(r[i])
  {
  }

  lemma InsertedCustomers(w: World, r: seq<int>, p: nat, c: int)
    requires p <= |r| && w.inst.Route(r) && w.inst.Customer(c)
    ensures w.inst.Route(InsertAt(r, p, c))
  {
  }

  lemma SwapBalances(w: World, A: seq<int>, i: nat, B: seq<int>, j: nat)
    requires i < |A| && j < |B| && w.inst.Route(A) && w.inst.Route(B)
    ensures var a, b := A[i := B[j]], B[j := A[i]];
            && w.inst.Route(a) && w.inst.Route(b) && multiset(a) + multiset(b) == multiset(A) + multiset(B)
            && Load(w.inst, a) == Load(w.inst, A) - DemandOf(w.inst, A[i]) + DemandOf(w.inst, B[j])
            && Load(w.inst, b) == Load(w.inst, B) - DemandOf(w.inst, B[j]) + DemandOf(w.inst, A[i])
  {
    ReplacedLoad(w, A, i, B[j]);
    ReplacedLoad(w, B, j, A[i]);
    var a, b, x, y := multiset(A[i := B[j]]), multiset(B[j := A[i]]), multiset{A[i]}, multiset{B[j]};
    assert (a + b) + (x + y) == (a + x) + (b + y) == (multiset(A) + y) + (multiset(B) + x) == (multiset(A) + multiset(B)) + (x + y);
    Cancel(a + b, multiset(A) + multiset(B), x + y);
  }

  lemma TailsBalance(w: World, A: seq<int>, i: nat, B: seq<int>, j: nat)
    requires i <= |A| && j <= |B| && w.inst.Route(A) && w.inst.Route(B)
    ensures var a, b := A[..i] + B[j..], B[..j] + A[i..];
            && w.inst.Route(a) && w.inst.Route(b) && multiset(a) + multiset(b) == multiset(A) + multiset(B)
            && Load(w.inst, a) == Load(w.inst, A[..i]) + (Load(w.inst, B) - Load(w.inst, B[..j]))
            && Load(w.inst, b) == Load(w.inst, B[..j]) + (Load(w.inst, A) - Load(w.inst, A[..i]))
  {
    CutLoad(w, A, i);
    CutLoad(w, B, j);
    LoadConcat(w.inst, A[..i], B[j..]);
    LoadConcat(w.inst, B[..j], A[i..]);
  }

  /** A move that passes its screen redistributes the clients of its routes within capacity. */
  lemma ScreenedBalances(w: World, s: State, m: Move)
    requires ToursOk(w, s.tours) && ValidMove(Routes(s.tours), m)
    requires Screens(w, m, s.tours[m.a].vertices, s.tours[OtherRoute(m)].vertices)
    ensures var A, B := s.tours[m.a].vertices, s.tours[OtherRoute(m)].vertices;
            Redistributes(w, s.tours, m.a, NewA(m, A, B), OtherRoute(m), NewB(m, A, B))
  {
    hide Screens, Load, NewA, NewB, ToursOk, Redistributes;
    var A, B := s.tours[m.a].vertices, s.tours[OtherRoute(m)].vertices;
    TwoTours(w, s, m);
    ScreenedCapacity(w, m, A, B);
    match m
    case Relocate(_, _, _, _) => RelocateRedistributes(w, s, m, A, B);
    case Intra(_, _, _) => IntraRedistributes(w, s, m, A, B);
    case Swap(_, _, _, _) => SwapRedistributes(w, s, m, A, B);
    case TwoOpt(_, _, _, _) => TailsRedistribute(w, s, m, A, B);
  }

  lemma TwoTours(w: World, s: State, m: Move)
    requires ToursOk(w, s.tours) && ValidMove(Routes(s.tours), m)
    ensures TourOk(w, s.tours[m.a]) && TourOk(w, s.tours[OtherRoute(m)])
  {
  }

  ghost predicate OfTours(w: World, s: State, m: Move, A: seq<int>, B: seq<int>) {
    && m.a < |s.tours| && OtherRoute(m) < |s.tours| && ValidMove(Routes(s.tours), m)
    && A == s.tours[m.a].vertices && B == s.tours[OtherRoute(m)].vertices
    && w.inst.Route(A) && w.inst.Route(B) && Load(w.inst, A) <= w.inst.capacity && Load(w.inst, B) <= w.inst.capacity
  }

  lemma RelocateRedistributes(w: World, s: State, m: Move, A: seq<int>, B: seq<int>)
    requires m.Relocate? && OfTours(w, s, m, A, B) && Load(w.inst, B) + DemandOf(w.inst, A[m.i]) <= w.inst.capacity
    ensures Redistributes(w, s.tours, m.a, NewA(m, A, B), OtherRoute(m), NewB(m, A, B))
  {
    hide Load, RemoveAt, InsertAt;
    RelocateBalances(w, A, m.i, B, m.p);
  }

  lemma IntraRedistributes(w: World, s: State, m: Move, A: seq<int>, B: seq<int>)
    requires m.Intra? && OfTours(w, s, m, A, B)
    ensures Redistributes(w, s.tours, m.a, NewA(m, A, B), OtherRoute(m), NewB(m, A, B))
  {
    hide Load, MoveWithin;
    IntraBalances(w, A, m.i, m.p);
    EmptyFits(w, A);
  }

  lemma SwapRedistributes(w: World, s: State, m: Move, A: seq<int>, B: seq<int>)
    requires m.Swap? && OfTours(w, s, m, A, B)
    requires Load(w.inst, A) - DemandOf(w.inst, A[m.i]) + DemandOf(w.inst, B[m.j]) <= w.inst.capacity
    requires Load(w.inst, B) - DemandOf(w.inst, B[m.j]) + DemandOf(w.inst, A[m.i]) <= w.inst.capacity
    ensures Redistributes(w, s.tours, m.a, NewA(m, A, B), OtherRoute(m), NewB(m, A, B))
  {
    hide Load;
    SwapBalances(w, A, m.i, B, m.j);
  }

  lemma TailsRedistribute(w: World, s: State, m: Move, A: seq<int>, B: seq<int>)
    requires m.TwoOpt? && OfTours(w, s, m, A, B)
    requires Load(w.inst, A[..m.i + 1]) + (Load(w.inst, B) - Load(w.inst, B[..m.j + 1])) <= w.inst.capacity
    requires Load(w.inst, B[..m.j + 1]) + (Load(w.inst, A) - Load(w.inst, A[..m.i + 1])) <= w.inst.capacity
    ensures Redistributes(w, s.tours, m.a, NewA(m, A, B), OtherRoute(m), NewB(m, A, B))
  {
    hide Load;
    TailsBalance(w, A, m.i + 1, B, m.j + 1);
  }

  /** The capacity part of the screens. */
  lemma ScreenedCapacity(w: World, m: Move, A: seq<int>, B: seq<int>)
    requires m.i < |A| && (m.Relocate? ==> m.p <= |B|) && (m.Swap? || m.TwoOpt? ==> m.j < |B|) && Screens(w, m, A, B)
    ensures m.Relocate? ==> Load(w.inst, B) + DemandOf(w.inst, A[m.i]) <= w.inst.capacity
    ensures m.Swap? ==> Load(w.inst, A) - DemandOf(w.inst, A[m.i]) + DemandOf(w.inst, B[m.j]) <= w.inst.capacity
    ensures m.Swap? ==> Load(w.inst, B) - DemandOf(w.inst, B[m.j]) + DemandOf(w.inst, A[m.i]) <= w.inst.capacity
    ensures m.TwoOpt? ==> Load(w.inst, A[..m.i + 1]) + (Load(w.inst, B) - Load(w.inst, B[..m.j + 1])) <= w.inst.capacity
    ensures m.TwoOpt? ==> Load(w.inst, B[..m.j + 1]) + (Load(w.inst, A) - Load(w.inst, A[..m.i + 1])) <= w.inst.capacity
  {
    hide Dur, PairImproves, Load, ScreensIntra, PrefixReaches, DeletionRank;
  }

  lemma EmptyFits(w: World, r: seq<int>)
    requires Load(w.inst, r) <= w.inst.capacity
    ensures Load(w.inst, []) <= w.inst.capacity
  {
    LoadNonNegative(w, r);
  }

  // ---------- compute_retest and stamp_clean_pass ----------

  ghost predicate IsRetest(n: nat, nb: NeighbourLists, s: State, op: nat, retest: seq<bool>)
    requires Sound(nb, n) && StampsOk(n, s) && op < 4
  {
    |retest| == n + 1 && forall c :: 1 <= c <= n ==> (retest[c] <==> Retest(n, nb, s.touched, s.tested[op], op, c))
  }

  /** Some listed client was touched after the stamp. */
  method AnyTouched(touched: seq<int>, list: seq<int>, stamp: int) returns (hit: bool)
    requires forall k :: 0 <= k < |list| ==> 0 <= list[k] < |touched|
    ensures hit <==> exists v :: v in list && touched[v] > stamp
  {
    for k := 0 to |list|
      invariant forall j :: 0 <= j < k ==> touched[list[j]] <= stamp
    {
      if touched[list[k]] > stamp { return true; }
    }
    return false;
  }

  /** compute_retest. */
  method ComputeRetest(n: nat, nb: NeighbourLists, ss: SearchState, op: nat) returns (retest: seq<bool>)
    requires Sound(nb, n) && StampsOk(n, ss.View()) && op < 4
    ensures IsRetest(n, nb, ss.View(), op, retest)
  {
    var lt := ss.tested[op];
    var maxTouched := 0;
    if op != 1 && !nb.Restricted() {
      for c := 1 to n + 1
        invariant maxTouched >= 0 && forall v :: 1 <= v < c ==> ss.touched[v] <= maxTouched
        invariant maxTouched == 0 || exists v :: 1 <= v < c && ss.touched[v] == maxTouched
      {
        if ss.touched[c] > maxTouched { maxTouched := ss.touched[c]; }
      }
    }
    retest := seq(n + 1, _ => false);
    for c := 1 to n + 1
      invariant |retest| == n + 1
      invariant forall v :: 1 <= v < c ==> (retest[v] <==> Retest(n, nb, ss.touched, lt, op, v))
    {
      var hit := ss.touched[c] > lt[c];
      if !hit && op != 1 {
        if nb.Restricted() {
          var list := nb.List(c);
          assert forall k :: 0 <= k < |list| ==> list[k] in nb.List(c);
          hit := AnyTouched(ss.touched, list, lt[c]);
        } else {
          hit := maxTouched > lt[c];
        }
      }
      retest := retest[c := hit];
    }
  }

  /** stamp_clean_pass: certify the clients this pass looked at. */
  method StampCleanPass(n: nat, nb: NeighbourLists, ss: SearchState, op: nat, retest: seq<bool>, passEpoch: int)
    requires Sound(nb, n) && StampsOk(n, ss.View()) && op < 4 && IsRetest(n, nb, ss.View(), op, retest)
    requires passEpoch == ss.epoch
    modifies ss`tested
    ensures ss.View() == Stamped(n, nb, old(ss.View()), op)
  {
    var lt := ss.tested[op];
    for c := 1 to n + 1
      invariant |lt| == n + 1
      invariant forall v :: 0 <= v <= n ==> lt[v] == if 1 <= v < c && retest[v] then passEpoch else ss.tested[op][v]
    {
      if retest[c] { lt := lt[c := passEpoch]; }
    }
    assert lt == Stamped(n, nb, ss.View(), op).tested[op];
    ss.tested := ss.tested[op := lt];
  }

  // ---------- trying one candidate ----------

  /** The lists and the state a pass starts from. */
  ghost predicate PassInput(w: World, nb: NeighbourLists, s: State) {
    Sound(nb, w.inst.n) && StateOk(w, s)
  }

  /** s' is s after a justified move that screen and fold both take. */
  ghost predicate Took(w: World, nb: NeighbourLists, s: State, s': State, m: Move)
    requires PassInput(w, nb, s)
  {
    RoutesOnClients(w, s.tours);
    && ValidMove(Routes(s.tours), m) && Justified(w.inst.n, nb, Routes(s.tours), m)
    && Takes(w, Routes(s.tours), m) && CommitsMove(w, s, m) && s' == AfterMove(w, s, m)
  }

  /** A move a pass has to look at and would take. */
  ghost predicate Open(w: World, nb: NeighbourLists, s: State, m: Move)
    requires PassInput(w, nb, s)
  {
    RoutesOnClients(w, s.tours);
    && ValidMove(Routes(s.tours), m) && Justified(w.inst.n, nb, Routes(s.tours), m)
    && Enumerated(w.inst.n, nb, Routes(s.tours), s, m) && Takes(w, Routes(s.tours), m)
  }

  /** The place of a move in the scan of its pass: receiver, position, donor, stop for a relocate; routes,
      then positions for the others. */
  function Key(m: Move): (nat, nat, nat, nat) {
    match m
    case Relocate(a, i, b, p) => (b, p, a, i)
    case Intra(a, i, p) => (a, i, p, 0)
    case Swap(a, i, b, j) => (a, b, i, j)
    case TwoOpt(a, i, b, j) => (a, b, i, j)
  }

  /** x is looked at before m by the same pass. */
  predicate Sooner(x: Move, m: Move) {
    var k, l := Key(x), Key(m);
    OpOf(x) == OpOf(m) &&
    (k.0 < l.0 || (k.0 == l.0 && (k.1 < l.1 || (k.1 == l.1 && (k.2 < l.2 || (k.2 == l.2 && k.3 < l.3))))))
  }

  /** x agrees with m in the first `level` parts of the key. */
  predicate SamePart(x: Move, m: Move, level: nat) {
    var k, l := Key(x), Key(m);
    OpOf(x) == OpOf(m) && (level > 0 ==> k.0 == l.0) && (level > 1 ==> k.1 == l.1) && (level > 2 ==> k.2 == l.2) && (level > 3 ==> k.3 == l.3)
  }

  function Part(m: Move, level: nat): nat {
    var k := Key(m);
    if level == 0 then k.0 else if level == 1 then k.1 else if level == 2 then k.2 else k.3
  }

  /** No move that shares the first parts of the key and is looked at before m is open. */
  ghost predicate NoneSooner(w: World, nb: NeighbourLists, s: State, m: Move, level: nat)
    requires PassInput(w, nb, s)
  {
    forall x :: SamePart(x, m, level) && Sooner(x, m) ==> !Open(w, nb, s, x)
  }

  /** Of the moves that share the first parts of m's key, none with a next part below `upto` is open. */
  ghost predicate ClearTo(w: World, nb: NeighbourLists, s: State, m: Move, level: nat, upto: nat)
    requires PassInput(w, nb, s)
  {
    forall x :: SamePart(x, m, level) && Part(x, level) < upto ==> !Open(w, nb, s, x)
  }

  /** None at all is. */
  ghost predicate Clear(w: World, nb: NeighbourLists, s: State, m: Move, level: nat)
    requires PassInput(w, nb, s)
  {
    forall x :: SamePart(x, m, level) ==> !Open(w, nb, s, x)
  }

  lemma ClearStart(w: World, nb: NeighbourLists, s: State, m: Move, level: nat)
    requires PassInput(w, nb, s)
    ensures ClearTo(w, nb, s, m, level, 0)
  {
    hide Open, PassInput;
  }

  /** m stands for the next part. */
  lemma ClearOn(w: World, nb: NeighbourLists, s: State, m: Move, level: nat)
    requires PassInput(w, nb, s) && level < 4 && ClearTo(w, nb, s, m, level, Part(m, level))
    requires if level < 3 then Clear(w, nb, s, m, level + 1) else !Open(w, nb, s, m)
    ensures ClearTo(w, nb, s, m, level, Part(m, level) + 1)
  {
    hide Open, PassInput;
    if level == 3 {
      forall x | SamePart(x, m, 3) && Part(x, 3) == Part(m, 3) ensures x == m { }
    }
  }

  lemma ClearFirst(w: World, nb: NeighbourLists, s: State, m: Move, level: nat)
    requires PassInput(w, nb, s) && level < 4 && ClearTo(w, nb, s, m, level, Part(m, level)) && (level < 3 ==> NoneSooner(w, nb, s, m, level + 1))
    ensures NoneSooner(w, nb, s, m, level)
  {
    hide Open, PassInput;
  }

  /** The moves of m's row are the same for any two moves that share its parts. */
  lemma ClearSame(w: World, nb: NeighbourLists, s: State, m: Move, m': Move, level: nat, upto: nat)
    requires PassInput(w, nb, s) && SamePart(m, m', level)
    ensures ClearTo(w, nb, s, m, level, upto) <==> ClearTo(w, nb, s, m', level, upto)
    ensures Clear(w, nb, s, m, level) <==> Clear(w, nb, s, m', level)
  {
    hide Open, PassInput;
  }

  /** What is past the last part is not a move. */
  lemma ClearEnd(w: World, nb: NeighbourLists, s: State, m: Move, level: nat, upto: nat)
    requires PassInput(w, nb, s) && ClearTo(w, nb, s, m, level, upto)
    requires forall x :: SamePart(x, m, level) && ValidMove(Routes(s.tours), x) ==> Part(x, level) < upto
    ensures Clear(w, nb, s, m, level)
  {
    hide PassInput;
    OpenIsValid(w, nb, s);
    hide Open;
  }

  /** m is open and no move looked at before it is. */
  ghost predicate FirstOpen(w: World, nb: NeighbourLists, s: State, m: Move)
    requires PassInput(w, nb, s)
  {
    Open(w, nb, s, m) && NoneSooner(w, nb, s, m, 0)
  }

  /** The pass took its first open move. */
  ghost predicate TookFirst(w: World, nb: NeighbourLists, s: State, s': State, op: nat)
    requires PassInput(w, nb, s)
  {
    exists m :: OpOf(m) == op && FirstOpen(w, nb, s, m) && Took(w, nb, s, s', m)
  }

  ghost predicate Tried(w: World, nb: NeighbourLists, s: State, s': State, m: Move, done: bool)
    requires PassInput(w, nb, s)
  {
    if done then Open(w, nb, s, m) && Took(w, nb, s, s', m) else s' == s && !Open(w, nb, s, m)
  }

  method CommitMove(w: World, nb: NeighbourLists, ss: SearchState, m: Move) returns (done: bool)
    requires PassInput(w, nb, ss.View()) && OnClients(w.inst.n, Routes(ss.tours)) && ValidMove(Routes(ss.tours), m)
    requires Justified(w.inst.n, nb, Routes(ss.tours), m) && Enumerated(w.inst.n, nb, Routes(ss.tours), ss.View(), m)
    requires Screens(w, m, ss.tours[m.a].vertices, ss.tours[OtherRoute(m)].vertices)
    modifies ss
    ensures Tried(w, nb, old(ss.View()), ss.View(), m, done)
  {
    hide Screens, Justified, Served, AllClients, Commits, Committed, FoldTakes, NewA, NewB, Enumerated;
    ghost var s := ss.View();
    var A, B := ss.tours[m.a].vertices, ss.tours[OtherRoute(m)].vertices;
    FoldDecides(w, s, m);
    ScreenedBalances(w, s, m);
    done := CommitTwo(w, ss, m.a, NewA(m, A, B), OtherRoute(m), NewB(m, A, B));
  }

  method TryRelocate(w: World, nb: NeighbourLists, ss: SearchState, retest: seq<bool>, a: nat, i: nat, b: nat, p: nat) returns (done: bool)
    requires PassInput(w, nb, ss.View()) && IsRetest(w.inst.n, nb, ss.View(), 0, retest)
    requires ValidMove(Routes(ss.tours), Relocate(a, i, b, p)) && PrefixReaches(w, ss.tours[b].vertices, p)
    modifies ss
    ensures Tried(w, nb, old(ss.View()), ss.View(), Relocate(a, i, b, p), done)
  {
    hide Served, AllClients, FoldTakes, Retest, StampsOk, PrefixReaches, Load;
    RoutesOnClients(w, ss.tours);
    assert TourOk(w, ss.tours[a]) && TourOk(w, ss.tours[b]);
    var donor, recv := ss.tours[a], ss.tours[b];
    var c := donor.vertices[i];
    if !retest[c] { return false; }
    var before := if p > 0 then recv.vertices[p - 1] else 0;
    var succ := if p < |recv.vertices| then recv.vertices[p] else 0;
    if !nb.IsNeighbour(c, before) && !(p < |recv.vertices| && nb.IsNeighbour(c, succ)) { return false; }
    if recv.load + w.inst.demands[c] > w.inst.capacity { return false; }
    var credit := if |donor.vertices| == 1 then w.inst.fixedCost else 0.0;
    var del := DeletionRank(w, donor.vertices, i);
    if del.None? { return false; }
    var gain := donor.duration - del.value;
    if !(gain + credit > SCREEN_EPS) { return false; }
    var ins := w.price.insert(recv.vertices, p, c);
    if ins.None? { return false; }
    var delta := (ins.value - recv.duration) - gain - credit;
    if !(delta < -SCREEN_EPS) { return false; }
    done := CommitMove(w, nb, ss, Relocate(a, i, b, p));
  }

  method TryIntra(w: World, nb: NeighbourLists, ss: SearchState, retest: seq<bool>, a: nat, i: nat, p: nat) returns (done: bool)
    requires PassInput(w, nb, ss.View()) && IsRetest(w.inst.n, nb, ss.View(), 1, retest)
    requires ValidMove(Routes(ss.tours), Intra(a, i, p))
    modifies ss
    ensures Tried(w, nb, old(ss.View()), ss.View(), Intra(a, i, p), done)
  {
    hide Served, AllClients, FoldTakes, Retest, StampsOk, Load;
    RoutesOnClients(w, ss.tours);
    assert TourOk(w, ss.tours[a]);
    var route := ss.tours[a];
    if !retest[route.vertices[i]] { return false; }
    var e := w.price.intra(route.vertices, i, p);
    if e.None? { return false; }
    if !(e.value - route.duration < -SCREEN_EPS) { return false; }
    done := CommitMove(w, nb, ss, Intra(a, i, p));
  }

  method TrySwap(w: World, nb: NeighbourLists, ss: SearchState, retest: seq<bool>, a: nat, i: nat, b: nat, j: nat) returns (done: bool)
    requires PassInput(w, nb, ss.View()) && IsRetest(w.inst.n, nb, ss.View(), 2, retest)
    requires ValidMove(Routes(ss.tours), Swap(a, i, b, j))
    modifies ss
    ensures Tried(w, nb, old(ss.View()), ss.View(), Swap(a, i, b, j), done)
  {
    hide Served, AllClients, FoldTakes, Retest, StampsOk, Load;
    RoutesOnClients(w, ss.tours);
    assert TourOk(w, ss.tours[a]) && TourOk(w, ss.tours[b]);
    var ra, rb := ss.tours[a], ss.tours[b];
    var c1, c2 := ra.vertices[i], rb.vertices[j];
    if !retest[c1] { return false; }
    if !nb.IsNeighbour(c1, c2) { return false; }
    if ra.load - w.inst.demands[c1] + w.inst.demands[c2] > w.inst.capacity
       || rb.load - w.inst.demands[c2] + w.inst.demands[c1] > w.inst.capacity { return false; }
    var ea := w.price.splice(ra.vertices, i, i, rb.vertices, j, j);
    if ea.None? { return false; }
    var eb := w.price.splice(rb.vertices, j, j, ra.vertices, i, i);
    if eb.None? { return false; }
    var delta := (ea.value - ra.duration) + (eb.value - rb.duration);
    if !(delta < -SCREEN_EPS) { return false; }
    done := CommitMove(w, nb, ss, Swap(a, i, b, j));
  }

  /** Prefix demand loads: loads[k] is the load of r[..k + 1]. */
  method PrefixLoads(w: World, r: seq<int>) returns (loads: seq<int>)
    requires w.inst.Route(r)
    ensures |loads| == |r| && forall k :: 0 <= k < |r| ==> loads[k] == Load(w.inst, r[..k + 1])
  {
    loads := [];
    var acc := 0;
    for k := 0 to |r|
      invariant |loads| == k && acc == Load(w.inst, r[..k])
      invariant forall q :: 0 <= q < k ==> loads[q] == Load(w.inst, r[..q + 1])
    {
      acc := acc + w.inst.demands[r[k]];
      assert r[..k + 1][..k] == r[..k];
      loads := loads + [acc];
    }
  }

  method TryTwoOpt(w: World, nb: NeighbourLists, ss: SearchState, retest: seq<bool>, a: nat, i: nat, b: nat, j: nat, headA: int, headB: int) returns (done: bool)
    requires PassInput(w, nb, ss.View()) && IsRetest(w.inst.n, nb, ss.View(), 3, retest)
    requires ValidMove(Routes(ss.tours), TwoOpt(a, i, b, j))
    requires headA == Load(w.inst, ss.tours[a].vertices[..i + 1]) && headB == Load(w.inst, ss.tours[b].vertices[..j + 1])
    modifies ss
    ensures Tried(w, nb, old(ss.View()), ss.View(), TwoOpt(a, i, b, j), done)
  {
    hide Served, AllClients, FoldTakes, Retest, StampsOk, Load;
    RoutesOnClients(w, ss.tours);
    assert TourOk(w, ss.tours[a]) && TourOk(w, ss.tours[b]);
    var ra, rb := ss.tours[a], ss.tours[b];
    var ai, bj := ra.vertices[i], rb.vertices[j];
    var aiNext := if i + 1 < |ra.vertices| then ra.vertices[i + 1] else 0;
    if !retest[ai] && !(aiNext != 0 && retest[aiNext]) { return false; }
    var bjNext := if j + 1 < |rb.vertices| then rb.vertices[j + 1] else 0;
    if !(bjNext != 0 && nb.IsNeighbour(ai, bjNext)) && !(aiNext != 0 && nb.IsNeighbour(bj, aiNext)) { return false; }
    if headA + (rb.load - headB) > w.inst.capacity || headB + (ra.load - headA) > w.inst.capacity { return false; }
    var ea := w.price.splice(ra.vertices, i + 1, |ra.vertices| - 1, rb.vertices, j + 1, |rb.vertices| - 1);
    if ea.None? { return false; }
    var eb := w.price.splice(rb.vertices, j + 1, |rb.vertices| - 1, ra.vertices, i + 1, |ra.vertices| - 1);
    if eb.None? { return false; }
    var delta := (ea.value - ra.duration) + (eb.value - rb.duration);
    if !(delta < -SCREEN_EPS) { return false; }
    done := CommitMove(w, nb, ss, TwoOpt(a, i, b, j));
  }

  // ---------- the passes ----------

  /** Nothing in the given set of moves is open. */
  ghost predicate Clean(w: World, nb: NeighbourLists, s: State, op: nat)
    requires PassInput(w, nb, s)
  {
    forall m: Move :: OpOf(m) == op ==> !Open(w, nb, s, m)
  }

  method RelocateFrom(w: World, nb: NeighbourLists, ss: SearchState, retest: seq<bool>, a: nat, b: nat, p: nat) returns (done: bool, ghost m: Move)
    requires PassInput(w, nb, ss.View()) && IsRetest(w.inst.n, nb, ss.View(), 0, retest)
    requires a < |ss.tours| && b < |ss.tours| && a != b && p <= |ss.tours[b].vertices| && PrefixReaches(w, ss.tours[b].vertices, p)
    modifies ss
    ensures done ==> SamePart(m, Relocate(a, 0, b, p), 3) && Open(w, nb, old(ss.View()), m) && Took(w, nb, old(ss.View()), ss.View(), m) && NoneSooner(w, nb, old(ss.View()), m, 3)
    ensures !done ==> ss.View() == old(ss.View()) && Clear(w, nb, ss.View(), Relocate(a, 0, b, p), 3)
  {
    hide PassInput, IsRetest, PrefixReaches, Open, Took, Load, NoneSooner, Clear, ClearTo;
    ghost var s := ss.View();
    done, m := false, Relocate(a, 0, b, p);
    ClearStart(w, nb, s, m, 3);
    for i := 0 to |ss.tours[a].vertices|
      invariant ss.View() == s && ClearTo(w, nb, s, Relocate(a, 0, b, p), 3, i)
    {
      m := Relocate(a, i, b, p);
      ClearSame(w, nb, s, Relocate(a, 0, b, p), m, 3, i);
      done := TryRelocate(w, nb, ss, retest, a, i, b, p);
      if done { ClearFirst(w, nb, s, m, 3); return; }
      ClearOn(w, nb, s, m, 3);
      ClearSame(w, nb, s, Relocate(a, 0, b, p), m, 3, i + 1);
    }
    ClearEnd(w, nb, s, Relocate(a, 0, b, p), 3, |ss.tours[a].vertices|);
  }

  lemma OpenIsValid(w: World, nb: NeighbourLists, s: State)
    requires PassInput(w, nb, s)
    ensures forall m :: Open(w, nb, s, m) ==> ValidMove(Routes(s.tours), m)
  {
  }

  lemma PassRoutes(w: World, nb: NeighbourLists, s: State)
    requires PassInput(w, nb, s)
    ensures forall k :: 0 <= k < |s.tours| ==> w.inst.Route(s.tours[k].vertices)
  {
    forall k | 0 <= k < |s.tours| ensures w.inst.Route(s.tours[k].vertices) { assert TourOk(w, s.tours[k]); }
  }

  method RelocateAt(w: World, nb: NeighbourLists, ss: SearchState, retest: seq<bool>, b: nat, p: nat) returns (done: bool, ghost m: Move)
    requires PassInput(w, nb, ss.View()) && IsRetest(w.inst.n, nb, ss.View(), 0, retest)
    requires b < |ss.tours| && p <= |ss.tours[b].vertices| && PrefixReaches(w, ss.tours[b].vertices, p)
    modifies ss
    ensures done ==> SamePart(m, Relocate(0, 0, b, p), 2) && Open(w, nb, old(ss.View()), m) && Took(w, nb, old(ss.View()), ss.View(), m) && NoneSooner(w, nb, old(ss.View()), m, 2)
    ensures !done ==> ss.View() == old(ss.View()) && Clear(w, nb, ss.View(), Relocate(0, 0, b, p), 2)
  {
    hide PassInput, IsRetest, PrefixReaches, Open, Took, Load, NoneSooner, Clear, ClearTo;
    ghost var s := ss.View();
    done, m := false, Relocate(0, 0, b, p);
    ClearStart(w, nb, s, m, 2);
    for a := 0 to |ss.tours|
      invariant ss.View() == s && !done && ClearTo(w, nb, s, Relocate(0, 0, b, p), 2, a)
    {
      ghost var here := Relocate(a, 0, b, p);
      ClearSame(w, nb, s, Relocate(0, 0, b, p), here, 2, a);
      if a != b {
        done, m := RelocateFrom(w, nb, ss, retest, a, b, p);
        if done {
          ClearSame(w, nb, s, here, m, 2, a);
          ClearFirst(w, nb, s, m, 2);
          return;
        }
      } else {
        OwnRoute(w, nb, s, here);
      }
      ClearOn(w, nb, s, here, 2);
      ClearSame(w, nb, s, Relocate(0, 0, b, p), here, 2, a + 1);
    }
    ClearEnd(w, nb, s, Relocate(0, 0, b, p), 2, |ss.tours|);
  }

  /** A relocate never stays in its route. */
  lemma OwnRoute(w: World, nb: NeighbourLists, s: State, m: Move)
    requires PassInput(w, nb, s) && m.Relocate? && m.a == m.b
    ensures Clear(w, nb, s, m, 3)
  {
    hide PassInput;
    OpenIsValid(w, nb, s);
    hide Open;
  }

  /** One receiver: the shared prefix advances with the position and ends the scan when it empties. */
  method RelocateInto(w: World, nb: NeighbourLists, ss: SearchState, retest: seq<bool>, b: nat) returns (done: bool, ghost m: Move)
    requires PassInput(w, nb, ss.View()) && IsRetest(w.inst.n, nb, ss.View(), 0, retest)
    requires b < |ss.tours|
    modifies ss
    ensures done ==> SamePart(m, Relocate(0, 0, b, 0), 1) && Open(w, nb, old(ss.View()), m) && Took(w, nb, old(ss.View()), ss.View(), m) && NoneSooner(w, nb, old(ss.View()), m, 1)
    ensures !done ==> ss.View() == old(ss.View()) && Clear(w, nb, ss.View(), Relocate(0, 0, b, 0), 1)
  {
    hide PassInput, IsRetest, PrefixReaches, Open, Took, Load, NoneSooner, Clear, ClearTo;
    ghost var s := ss.View();
    var B := ss.tours[b].vertices;
    PrefixStep(w, B);
    done, m := false, Relocate(0, 0, b, 0);
    ClearStart(w, nb, s, m, 1);
    for p := 0 to |B| + 1
      invariant ss.View() == s && !done && (p > 0 ==> PrefixReaches(w, B, p - 1)) && ClearTo(w, nb, s, Relocate(0, 0, b, 0), 1, p)
    {
      if p > 0 && !w.price.alive(B, p) {
        DeadPrefix(w, nb, s, b, p);
        return;
      }
      ghost var here := Relocate(0, 0, b, p);
      ClearSame(w, nb, s, Relocate(0, 0, b, 0), here, 1, p);
      done, m := RelocateAt(w, nb, ss, retest, b, p);
      if done {
        ClearSame(w, nb, s, here, m, 1, p);
        ClearFirst(w, nb, s, m, 1);
        return;
      }
      ClearOn(w, nb, s, here, 1);
      ClearSame(w, nb, s, Relocate(0, 0, b, 0), here, 1, p + 1);
    }
    ClearEnd(w, nb, s, Relocate(0, 0, b, 0), 1, |B| + 1);
  }

  lemma PrefixStep(w: World, B: seq<int>)
    ensures PrefixReaches(w, B, 0)
    ensures forall p: nat :: PrefixReaches(w, B, p) && w.price.alive(B, p + 1) ==> PrefixReaches(w, B, p + 1)
  {
  }

  /** Past a dead prefix no relocate into the route passes its screen. */
  lemma DeadPrefix(w: World, nb: NeighbourLists, s: State, b: nat, p: nat)
    requires PassInput(w, nb, s) && b < |s.tours| && p > 0 && !w.price.alive(s.tours[b].vertices, p)
    requires ClearTo(w, nb, s, Relocate(0, 0, b, 0), 1, p)
    ensures Clear(w, nb, s, Relocate(0, 0, b, 0), 1)
  {
    hide Justified, Enumerated, FoldTakes, DeletionRank, Load, StateOk;
    assert forall m: Move :: m.Relocate? && m.b == b && m.p >= p ==> !Open(w, nb, s, m);
  }

  /** A clean scan of everything the pass may look at leaves nothing to take: what it skipped is
      covered by the certificate. */
  lemma CleanIsExhausted(w: World, nb: NeighbourLists, s: State, op: nat)
    requires PassInput(w, nb, s) && Certified(w, nb, s) && Clean(w, nb, s, op)
    ensures Exhausted(w, nb, s.tours, op)
  {
    hide Takes, Justified, Enumerated, Served, AllClients;
    RoutesOnClients(w, s.tours);
    forall m | ValidMove(Routes(s.tours), m) && OpOf(m) == op && Justified(w.inst.n, nb, Routes(s.tours), m)
      ensures !Takes(w, Routes(s.tours), m)
    {
      assert !Open(w, nb, s, m);
    }
  }

  /** Too few routes for a relocate pass to look at anything: it does not even stamp. */
  predicate Idle(s: State, op: nat) { op == 0 && |s.tours| < 2 }

  /** What a pass leaves behind: its first open move committed, or the tours untouched, its operator
      exhausted and the clients it looked at stamped. */
  ghost predicate PassOutcome(w: World, nb: NeighbourLists, s: State, s': State, op: nat, improved: bool)
    requires PassInput(w, nb, s) && op < 4
  {
    if improved then TookFirst(w, nb, s, s', op)
    else s' == (if Idle(s, op) then s else Stamped(w.inst.n, nb, s, op)) && Clean(w, nb, s, op) && Exhausted(w, nb, s.tours, op)
  }

  lemma NothingToStamp(w: World, nb: NeighbourLists, s: State, op: nat, retest: seq<bool>)
    requires PassInput(w, nb, s) && op < 4 && IsRetest(w.inst.n, nb, s, op, retest)
    requires forall c :: 1 <= c <= w.inst.n ==> !retest[c]
    ensures Stamped(w.inst.n, nb, s, op) == s
  {
    hide Retest, Served, AllClients;
    assert Stamped(w.inst.n, nb, s, op).tested[op] == s.tested[op];
  }

  lemma NobodyRetested(w: World, nb: NeighbourLists, s: State, op: nat, retest: seq<bool>)
    requires PassInput(w, nb, s) && op < 4 && IsRetest(w.inst.n, nb, s, op, retest)
    requires forall c :: 1 <= c <= w.inst.n ==> !retest[c]
    ensures Clean(w, nb, s, op) && Stamped(w.inst.n, nb, s, op) == s
  {
    NothingToStamp(w, nb, s, op, retest);
    hide Takes, Justified, Retest, Served, AllClients;
    RoutesOnClients(w, s.tours);
    forall m: Move | OpOf(m) == op && ValidMove(Routes(s.tours), m) ensures !Enumerated(w.inst.n, nb, Routes(s.tours), s, m) {
      var c := s.tours[m.a].vertices[m.i];
      assert Routes(s.tours)[m.a][m.i] == c && !retest[c];
      if m.TwoOpt? && m.i + 1 < |s.tours[m.a].vertices| {
        assert 1 <= Routes(s.tours)[m.a][m.i + 1] <= w.inst.n;
      }
    }
  }

  method Nobody(n: nat, retest: seq<bool>) returns (nobody: bool)
    requires |retest| == n + 1
    ensures nobody <==> forall c :: 1 <= c <= n ==> !retest[c]
  {
    for c := 1 to n + 1
      invariant forall v :: 1 <= v < c ==> !retest[v]
    {
      if retest[c] { return false; }
    }
    return true;
  }

  /** Stamping a clean pass. */
  method FinishPass(w: World, nb: NeighbourLists, ss: SearchState, op: nat, retest: seq<bool>, passEpoch: int)
    requires PassInput(w, nb, ss.View()) && op < 4 && IsRetest(w.inst.n, nb, ss.View(), op, retest) && passEpoch == ss.epoch
    requires Certified(w, nb, ss.View()) && Clean(w, nb, ss.View(), op) && !Idle(ss.View(), op)
    modifies ss
    ensures PassOutcome(w, nb, old(ss.View()), ss.View(), op, false)
  {
    hide Certified, Clean, Exhausted;
    CleanIsExhausted(w, nb, ss.View(), op);
    StampCleanPass(w.inst.n, nb, ss, op, retest, passEpoch);
  }

  method RelocatePass(w: World, nb: NeighbourLists, ss: SearchState) returns (improved: bool)
    requires PassInput(w, nb, ss.View()) && Certified(w, nb, ss.View())
    modifies ss
    ensures PassOutcome(w, nb, old(ss.View()), ss.View(), 0, improved)
  {
    hide Certified, Exhausted, Open, IsRetest, StateOk, NoneSooner, Took, Clear, ClearTo, Clean, Stamped;
    ghost var s := ss.View();
    var numRoutes := |ss.tours|;
    if numRoutes < 2 {
      FewRoutes(w, nb, s);
      CleanIsExhausted(w, nb, s, 0);
      return false;
    }
    var passEpoch := ss.epoch;
    var retest := Retested(w, nb, ss, 0);
    var nobody := Nobody(w.inst.n, retest);
    if nobody {
      NobodyRetested(w, nb, s, 0, retest);
      CleanIsExhausted(w, nb, s, 0);
      return false;
    }
    ClearStart(w, nb, s, Relocate(0, 0, 0, 0), 0);
    for b := 0 to numRoutes
      invariant ss.View() == s && ClearTo(w, nb, s, Relocate(0, 0, 0, 0), 0, b)
    {
      ghost var m, here := Relocate(0, 0, 0, 0), Relocate(0, 0, b, 0);
      ClearSame(w, nb, s, m, here, 0, b);
      improved, m := RelocateInto(w, nb, ss, retest, b);
      if improved {
        ClearSame(w, nb, s, here, m, 0, b);
        ClearFirst(w, nb, s, m, 0);
        return true;
      }
      ClearOn(w, nb, s, here, 0);
      ClearSame(w, nb, s, Relocate(0, 0, 0, 0), here, 0, b + 1);
    }
    ClearEnd(w, nb, s, Relocate(0, 0, 0, 0), 0, numRoutes);
    ClearIsClean(w, nb, s, Relocate(0, 0, 0, 0));
    FinishPass(w, nb, ss, 0, retest, passEpoch);
    return false;
  }

  lemma FewRoutes(w: World, nb: NeighbourLists, s: State)
    requires PassInput(w, nb, s) && |s.tours| < 2
    ensures Clean(w, nb, s, 0)
  {
    hide PassInput;
    OpenIsValid(w, nb, s);
    hide Open;
  }

  lemma ClearIsClean(w: World, nb: NeighbourLists, s: State, m: Move)
    requires PassInput(w, nb, s) && Clear(w, nb, s, m, 0)
    ensures Clean(w, nb, s, OpOf(m))
  {
    hide PassInput, Open;
  }

  method Retested(w: World, nb: NeighbourLists, ss: SearchState, op: nat) returns (retest: seq<bool>)
    requires PassInput(w, nb, ss.View()) && op < 4
    ensures |retest| == w.inst.n + 1 && IsRetest(w.inst.n, nb, ss.View(), op, retest)
  {
    retest := ComputeRetest(w.inst.n, nb, ss, op);
  }

  method IntraOf(w: World, nb: NeighbourLists, ss: SearchState, retest: seq<bool>, a: nat) returns (done: bool, ghost m: Move)
    requires PassInput(w, nb, ss.View()) && IsRetest(w.inst.n, nb, ss.View(), 1, retest)
    requires a < |ss.tours|
    modifies ss
    ensures done ==> SamePart(m, Intra(a, 0, 0), 1) && Open(w, nb, old(ss.View()), m) && Took(w, nb, old(ss.View()), ss.View(), m) && NoneSooner(w, nb, old(ss.View()), m, 1)
    ensures !done ==> ss.View() == old(ss.View()) && Clear(w, nb, ss.View(), Intra(a, 0, 0), 1)
  {
    hide PassInput, IsRetest, PrefixReaches, Open, Took, Load, NoneSooner, Clear, ClearTo;
    ghost var s := ss.View();
    done, m := false, Intra(a, 0, 0);
    ClearStart(w, nb, s, m, 1);
    var len := |ss.tours[a].vertices|;
    if len < 2 {
      ShortRoute(w, nb, s, a);
      return;
    }
    for i := 0 to len
      invariant ss.View() == s && !done && ClearTo(w, nb, s, Intra(a, 0, 0), 1, i)
    {
      ghost var here := Intra(a, i, 0);
      ClearSame(w, nb, s, Intra(a, 0, 0), here, 1, i);
      done, m := IntraFrom(w, nb, ss, retest, a, i);
      if done {
        ClearSame(w, nb, s, here, m, 1, i);
        ClearFirst(w, nb, s, m, 1);
        return;
      }
      ClearOn(w, nb, s, here, 1);
      ClearSame(w, nb, s, Intra(a, 0, 0), here, 1, i + 1);
    }
    ClearEnd(w, nb, s, Intra(a, 0, 0), 1, len);
  }

  lemma ShortRoute(w: World, nb: NeighbourLists, s: State, a: nat)
    requires PassInput(w, nb, s) && a < |s.tours| && |s.tours[a].vertices| < 2
    ensures Clear(w, nb, s, Intra(a, 0, 0), 1)
  {
    hide PassInput;
    OpenIsValid(w, nb, s);
    hide Open;
  }

  method IntraFrom(w: World, nb: NeighbourLists, ss: SearchState, retest: seq<bool>, a: nat, i: nat) returns (done: bool, ghost m: Move)
    requires PassInput(w, nb, ss.View()) && IsRetest(w.inst.n, nb, ss.View(), 1, retest)
    requires a < |ss.tours| && i < |ss.tours[a].vertices|
    modifies ss
    ensures done ==> SamePart(m, Intra(a, i, 0), 2) && Open(w, nb, old(ss.View()), m) && Took(w, nb, old(ss.View()), ss.View(), m) && NoneSooner(w, nb, old(ss.View()), m, 2)
    ensures !done ==> ss.View() == old(ss.View()) && Clear(w, nb, ss.View(), Intra(a, i, 0), 2)
  {
    hide PassInput, IsRetest, PrefixReaches, Open, Took, Load, NoneSooner, Clear, ClearTo;
    ghost var s := ss.View();
    done, m := false, Intra(a, i, 0);
    ClearStart(w, nb, s, m, 2);
    for p := 0 to |ss.tours[a].vertices| + 1
      invariant ss.View() == s && !done && ClearTo(w, nb, s, Intra(a, i, 0), 2, p)
    {
      m := Intra(a, i, p);
      ClearSame(w, nb, s, Intra(a, i, 0), m, 2, p);
      if p != i && p != i + 1 {
        done := TryIntra(w, nb, ss, retest, a, i, p);
        if done {
          NoRow(w, nb, s, m);
          ClearFirst(w, nb, s, m, 2);
          return;
        }
      } else {
        Staying(w, nb, s, m);
      }
      ClearOnIntra(w, nb, s, m);
      ClearSame(w, nb, s, Intra(a, i, 0), m, 2, p + 1);
    }
    ClearEnd(w, nb, s, Intra(a, i, 0), 2, |ss.tours[a].vertices| + 1);
  }

  /** An intra move is alone in its row. */
  lemma NoRow(w: World, nb: NeighbourLists, s: State, m: Move)
    requires PassInput(w, nb, s) && m.Intra?
    ensures NoneSooner(w, nb, s, m, 3)
  {
    hide Open, PassInput;
  }

  lemma Staying(w: World, nb: NeighbourLists, s: State, m: Move)
    requires PassInput(w, nb, s) && m.Intra? && (m.p == m.i || m.p == m.i + 1)
    ensures !Open(w, nb, s, m)
  {
    hide PassInput;
    OpenIsValid(w, nb, s);
    hide Open;
  }

  lemma ClearOnIntra(w: World, nb: NeighbourLists, s: State, m: Move)
    requires PassInput(w, nb, s) && m.Intra? && !Open(w, nb, s, m) && ClearTo(w, nb, s, m, 2, m.p)
    ensures ClearTo(w, nb, s, m, 2, m.p + 1)
  {
    hide Open, PassInput;
  }

  method IntraPass(w: World, nb: NeighbourLists, ss: SearchState) returns (improved: bool)
    requires PassInput(w, nb, ss.View()) && Certified(w, nb, ss.View())
    modifies ss
    ensures PassOutcome(w, nb, old(ss.View()), ss.View(), 1, improved)
  {
    hide Certified, Exhausted, Open, IsRetest, StateOk, NoneSooner, Took, Clear, ClearTo, Clean;
    ghost var s := ss.View();
    var passEpoch := ss.epoch;
    var retest := Retested(w, nb, ss, 1);
    ClearStart(w, nb, s, Intra(0, 0, 0), 0);
    for a := 0 to |ss.tours|
      invariant ss.View() == s && ClearTo(w, nb, s, Intra(0, 0, 0), 0, a)
    {
      ghost var m, here := Intra(0, 0, 0), Intra(a, 0, 0);
      ClearSame(w, nb, s, m, here, 0, a);
      improved, m := IntraOf(w, nb, ss, retest, a);
      if improved {
        ClearSame(w, nb, s, here, m, 0, a);
        ClearFirst(w, nb, s, m, 0);
        return true;
      }
      ClearOn(w, nb, s, here, 0);
      ClearSame(w, nb, s, Intra(0, 0, 0), here, 0, a + 1);
    }
    ClearEnd(w, nb, s, Intra(0, 0, 0), 0, |ss.tours|);
    ClearIsClean(w, nb, s, Intra(0, 0, 0));
    FinishPass(w, nb, ss, 1, retest, passEpoch);
    return false;
  }

  method SwapRow(w: World, nb: NeighbourLists, ss: SearchState, retest: seq<bool>, a: nat, i: nat, b: nat) returns (done: bool, ghost m: Move)
    requires PassInput(w, nb, ss.View()) && IsRetest(w.inst.n, nb, ss.View(), 2, retest)
    requires a < b < |ss.tours| && i < |ss.tours[a].vertices|
    modifies ss
    ensures done ==> SamePart(m, Swap(a, i, b, 0), 3) && Open(w, nb, old(ss.View()), m) && Took(w, nb, old(ss.View()), ss.View(), m) && NoneSooner(w, nb, old(ss.View()), m, 3)
    ensures !done ==> ss.View() == old(ss.View()) && Clear(w, nb, ss.View(), Swap(a, i, b, 0), 3)
  {
    hide PassInput, IsRetest, PrefixReaches, Open, Took, Load, NoneSooner, Clear, ClearTo;
    ghost var s := ss.View();
    done, m := false, Swap(a, i, b, 0);
    ClearStart(w, nb, s, m, 3);
    for j := 0 to |ss.tours[b].vertices|
      invariant ss.View() == s && ClearTo(w, nb, s, Swap(a, i, b, 0), 3, j)
    {
      m := Swap(a, i, b, j);
      ClearSame(w, nb, s, Swap(a, i, b, 0), m, 3, j);
      done := TrySwap(w, nb, ss, retest, a, i, b, j);
      if done { ClearFirst(w, nb, s, m, 3); return; }
      ClearOn(w, nb, s, m, 3);
      ClearSame(w, nb, s, Swap(a, i, b, 0), m, 3, j + 1);
    }
    ClearEnd(w, nb, s, Swap(a, i, b, 0), 3, |ss.tours[b].vertices|);
  }

  method SwapBetween(w: World, nb: NeighbourLists, ss: SearchState, retest: seq<bool>, a: nat, b: nat) returns (done: bool, ghost m: Move)
    requires PassInput(w, nb, ss.View()) && IsRetest(w.inst.n, nb, ss.View(), 2, retest)
    requires a < b < |ss.tours|
    modifies ss
    ensures done ==> SamePart(m, Swap(a, 0, b, 0), 2) && Open(w, nb, old(ss.View()), m) && Took(w, nb, old(ss.View()), ss.View(), m) && NoneSooner(w, nb, old(ss.View()), m, 2)
    ensures !done ==> ss.View() == old(ss.View()) && Clear(w, nb, ss.View(), Swap(a, 0, b, 0), 2)
  {
    hide PassInput, IsRetest, PrefixReaches, Open, Took, Load, NoneSooner, Clear, ClearTo;
    ghost var s := ss.View();
    done, m := false, Swap(a, 0, b, 0);
    ClearStart(w, nb, s, m, 2);
    for i := 0 to |ss.tours[a].vertices|
      invariant ss.View() == s && !done && ClearTo(w, nb, s, Swap(a, 0, b, 0), 2, i)
    {
      ghost var here := Swap(a, i, b, 0);
      ClearSame(w, nb, s, Swap(a, 0, b, 0), here, 2, i);
      done, m := SwapRow(w, nb, ss, retest, a, i, b);
      if done {
        ClearSame(w, nb, s, here, m, 2, i);
        ClearFirst(w, nb, s, m, 2);
        return;
      }
      ClearOn(w, nb, s, here, 2);
      ClearSame(w, nb, s, Swap(a, 0, b, 0), here, 2, i + 1);
    }
    ClearEnd(w, nb, s, Swap(a, 0, b, 0), 2, |ss.tours[a].vertices|);
  }

  /** Pairs are looked at once, the lower route first. */
  lemma BelowOwn(w: World, nb: NeighbourLists, s: State, m: Move)
    requires PassInput(w, nb, s) && (m.Swap? || m.TwoOpt?)
    ensures ClearTo(w, nb, s, m, 1, m.a + 1)
  {
    hide PassInput;
    OpenIsValid(w, nb, s);
    hide Open;
  }

  lemma ClearLast(w: World, nb: NeighbourLists, s: State, m: Move)
    requires PassInput(w, nb, s) && (m.Swap? || m.TwoOpt?) && m.a < |s.tours|
    requires ClearTo(w, nb, s, m, 1, if m.a + 1 < |s.tours| then |s.tours| else m.a + 1)
    ensures Clear(w, nb, s, m, 1)
  {
    hide PassInput;
    OpenIsValid(w, nb, s);
    hide Open;
  }

  method SwapBetweenFrom(w: World, nb: NeighbourLists, ss: SearchState, retest: seq<bool>, a: nat) returns (done: bool, ghost m: Move)
    requires PassInput(w, nb, ss.View()) && IsRetest(w.inst.n, nb, ss.View(), 2, retest)
    requires a < |ss.tours|
    modifies ss
    ensures done ==> SamePart(m, Swap(a, 0, 0, 0), 1) && Open(w, nb, old(ss.View()), m) && Took(w, nb, old(ss.View()), ss.View(), m) && NoneSooner(w, nb, old(ss.View()), m, 1)
    ensures !done ==> ss.View() == old(ss.View()) && Clear(w, nb, ss.View(), Swap(a, 0, 0, 0), 1)
  {
    hide PassInput, IsRetest, PrefixReaches, Open, Took, Load, NoneSooner, Clear, ClearTo;
    ghost var s := ss.View();
    done, m := false, Swap(a, 0, 0, 0);
    BelowOwn(w, nb, s, Swap(a, 0, 0, 0));
    for b := a + 1 to |ss.tours|
      invariant ss.View() == s && !done && ClearTo(w, nb, s, Swap(a, 0, 0, 0), 1, b)
    {
      ghost var here := Swap(a, 0, b, 0);
      ClearSame(w, nb, s, Swap(a, 0, 0, 0), here, 1, b);
      done, m := SwapBetween(w, nb, ss, retest, a, b);
      if done {
        ClearSame(w, nb, s, here, m, 1, b);
        ClearFirst(w, nb, s, m, 1);
        return;
      }
      ClearOn(w, nb, s, here, 1);
      ClearSame(w, nb, s, Swap(a, 0, 0, 0), here, 1, b + 1);
    }
    ClearLast(w, nb, s, Swap(a, 0, 0, 0));
  }

  method SwapPass(w: World, nb: NeighbourLists, ss: SearchState) returns (improved: bool)
    requires PassInput(w, nb, ss.View()) && Certified(w, nb, ss.View())
    modifies ss
    ensures PassOutcome(w, nb, old(ss.View()), ss.View(), 2, improved)
  {
    hide Certified, Exhausted, Open, IsRetest, StateOk, NoneSooner, Took, Clear, ClearTo, Clean;
    ghost var s := ss.View();
    var passEpoch := ss.epoch;
    var retest := Retested(w, nb, ss, 2);
    ClearStart(w, nb, s, Swap(0, 0, 0, 0), 0);
    for a := 0 to |ss.tours|
      invariant ss.View() == s && ClearTo(w, nb, s, Swap(0, 0, 0, 0), 0, a)
    {
      ghost var m, here := Swap(0, 0, 0, 0), Swap(a, 0, 0, 0);
      ClearSame(w, nb, s, m, here, 0, a);
      improved, m := SwapBetweenFrom(w, nb, ss, retest, a);
      if improved {
        ClearSame(w, nb, s, here, m, 0, a);
        ClearFirst(w, nb, s, m, 0);
        return true;
      }
      ClearOn(w, nb, s, here, 0);
      ClearSame(w, nb, s, Swap(0, 0, 0, 0), here, 0, a + 1);
    }
    ClearEnd(w, nb, s, Swap(0, 0, 0, 0), 0, |ss.tours|);
    ClearIsClean(w, nb, s, Swap(0, 0, 0, 0));
    FinishPass(w, nb, ss, 2, retest, passEpoch);
    return false;
  }

  method TwoOptRow(w: World, nb: NeighbourLists, ss: SearchState, retest: seq<bool>, a: nat, i: nat, b: nat, headA: int, pb: seq<int>) returns (done: bool, ghost m: Move)
    requires PassInput(w, nb, ss.View()) && IsRetest(w.inst.n, nb, ss.View(), 3, retest)
    requires a < b < |ss.tours| && i < |ss.tours[a].vertices| && headA == Load(w.inst, ss.tours[a].vertices[..i + 1])
    requires |pb| == |ss.tours[b].vertices| && forall k :: 0 <= k < |pb| ==> pb[k] == Load(w.inst, ss.tours[b].vertices[..k + 1])
    modifies ss
    ensures done ==> SamePart(m, TwoOpt(a, i, b, 0), 3) && Open(w, nb, old(ss.View()), m) && Took(w, nb, old(ss.View()), ss.View(), m) && NoneSooner(w, nb, old(ss.View()), m, 3)
    ensures !done ==> ss.View() == old(ss.View()) && Clear(w, nb, ss.View(), TwoOpt(a, i, b, 0), 3)
  {
    hide PassInput, IsRetest, PrefixReaches, Open, Took, Load, NoneSooner, Clear, ClearTo;
    ghost var s := ss.View();
    done, m := false, TwoOpt(a, i, b, 0);
    ClearStart(w, nb, s, m, 3);
    var A, B := ss.tours[a].vertices, ss.tours[b].vertices;
    for j := 0 to |B|
      invariant ss.View() == s && !done && ClearTo(w, nb, s, TwoOpt(a, i, b, 0), 3, j)
    {
      m := TwoOpt(a, i, b, j);
      ClearSame(w, nb, s, TwoOpt(a, i, b, 0), m, 3, j);
      if !(i == |A| - 1 && j == |B| - 1) {
        done := TryTwoOpt(w, nb, ss, retest, a, i, b, j, headA, pb[j]);
        if done { ClearFirst(w, nb, s, m, 3); return; }
      } else {
        OpenIsValid(w, nb, s);
      }
      ClearOn(w, nb, s, m, 3);
      ClearSame(w, nb, s, TwoOpt(a, i, b, 0), m, 3, j + 1);
    }
    ClearEnd(w, nb, s, TwoOpt(a, i, b, 0), 3, |B|);
  }

  method TwoOptBetween(w: World, nb: NeighbourLists, ss: SearchState, retest: seq<bool>, a: nat, b: nat) returns (done: bool, ghost m: Move)
    requires PassInput(w, nb, ss.View()) && IsRetest(w.inst.n, nb, ss.View(), 3, retest)
    requires a < b < |ss.tours|
    modifies ss
    ensures done ==> SamePart(m, TwoOpt(a, 0, b, 0), 2) && Open(w, nb, old(ss.View()), m) && Took(w, nb, old(ss.View()), ss.View(), m) && NoneSooner(w, nb, old(ss.View()), m, 2)
    ensures !done ==> ss.View() == old(ss.View()) && Clear(w, nb, ss.View(), TwoOpt(a, 0, b, 0), 2)
  {
    hide PassInput, IsRetest, PrefixReaches, Open, Took, Load, NoneSooner, Clear, ClearTo;
    ghost var s := ss.View();
    done, m := false, TwoOpt(a, 0, b, 0);
    ClearStart(w, nb, s, m, 2);
    PassRoutes(w, nb, s);
    var pa := PrefixLoads(w, ss.tours[a].vertices);
    var pb := PrefixLoads(w, ss.tours[b].vertices);
    for i := 0 to |ss.tours[a].vertices|
      invariant ss.View() == s && !done && ClearTo(w, nb, s, TwoOpt(a, 0, b, 0), 2, i)
    {
      ghost var here := TwoOpt(a, i, b, 0);
      ClearSame(w, nb, s, TwoOpt(a, 0, b, 0), here, 2, i);
      done, m := TwoOptRow(w, nb, ss, retest, a, i, b, pa[i], pb);
      if done {
        ClearSame(w, nb, s, here, m, 2, i);
        ClearFirst(w, nb, s, m, 2);
        return;
      }
      ClearOn(w, nb, s, here, 2);
      ClearSame(w, nb, s, TwoOpt(a, 0, b, 0), here, 2, i + 1);
    }
    ClearEnd(w, nb, s, TwoOpt(a, 0, b, 0), 2, |ss.tours[a].vertices|);
  }

  method TwoOptBetweenFrom(w: World, nb: NeighbourLists, ss: SearchState, retest: seq<bool>, a: nat) returns (done: bool, ghost m: Move)
    requires PassInput(w, nb, ss.View()) && IsRetest(w.inst.n, nb, ss.View(), 3, retest)
    requires a < |ss.tours|
    modifies ss
    ensures done ==> SamePart(m, TwoOpt(a, 0, 0, 0), 1) && Open(w, nb, old(ss.View()), m) && Took(w, nb, old(ss.View()), ss.View(), m) && NoneSooner(w, nb, old(ss.View()), m, 1)
    ensures !done ==> ss.View() == old(ss.View()) && Clear(w, nb, ss.View(), TwoOpt(a, 0, 0, 0), 1)
  {
    hide PassInput, IsRetest, PrefixReaches, Open, Took, Load, NoneSooner, Clear, ClearTo;
    ghost var s := ss.View();
    done, m := false, TwoOpt(a, 0, 0, 0);
    BelowOwn(w, nb, s, TwoOpt(a, 0, 0, 0));
    for b := a + 1 to |ss.tours|
      invariant ss.View() == s && !done && ClearTo(w, nb, s, TwoOpt(a, 0, 0, 0), 1, b)
    {
      ghost var here := TwoOpt(a, 0, b, 0);
      ClearSame(w, nb, s, TwoOpt(a, 0, 0, 0), here, 1, b);
      done, m := TwoOptBetween(w, nb, ss, retest, a, b);
      if done {
        ClearSame(w, nb, s, here, m, 1, b);
        ClearFirst(w, nb, s, m, 1);
        return;
      }
      ClearOn(w, nb, s, here, 1);
      ClearSame(w, nb, s, TwoOpt(a, 0, 0, 0), here, 1, b + 1);
    }
    ClearLast(w, nb, s, TwoOpt(a, 0, 0, 0));
  }

  method TwoOptStarPass(w: World, nb: NeighbourLists, ss: SearchState) returns (improved: bool)
    requires PassInput(w, nb, ss.View()) && Certified(w, nb, ss.View())
    modifies ss
    ensures PassOutcome(w, nb, old(ss.View()), ss.View(), 3, improved)
  {
    hide Certified, Exhausted, Open, IsRetest, StateOk, NoneSooner, Took, Clear, ClearTo, Clean;
    ghost var s := ss.View();
    var passEpoch := ss.epoch;
    var retest := Retested(w, nb, ss, 3);
    ClearStart(w, nb, s, TwoOpt(0, 0, 0, 0), 0);
    for a := 0 to |ss.tours|
      invariant ss.View() == s && ClearTo(w, nb, s, TwoOpt(0, 0, 0, 0), 0, a)
    {
      ghost var m, here := TwoOpt(0, 0, 0, 0), TwoOpt(a, 0, 0, 0);
      ClearSame(w, nb, s, m, here, 0, a);
      improved, m := TwoOptBetweenFrom(w, nb, ss, retest, a);
      if improved {
        ClearSame(w, nb, s, here, m, 0, a);
        ClearFirst(w, nb, s, m, 0);
        return true;
      }
      ClearOn(w, nb, s, here, 0);
      ClearSame(w, nb, s, TwoOpt(0, 0, 0, 0), here, 0, a + 1);
    }
    ClearEnd(w, nb, s, TwoOpt(0, 0, 0, 0), 0, |ss.tours|);
    ClearIsClean(w, nb, s, TwoOpt(0, 0, 0, 0));
    FinishPass(w, nb, ss, 3, retest, passEpoch);
    return false;
  }
}
