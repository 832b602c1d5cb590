/** ls_descend and the entry points around it (cpp/ls/local_search.cpp, cpp/heuristics/greedy_makespan.cpp).
    The deadline is any stream of answers. */
module Descents {
  import opened Common
  import opened Oracles
  import opened Instances
  import opened Neighbours
  import opened SearchStates
  import opened Staleness
  import opened LocalSearch

  // ---------- the objective of a list of routes ----------

  predicate FleetOk(w: World, routes: int) {
    w.inst.vehicles < 0 || routes <= w.inst.vehicles
  }

  function Used(routes: seq<seq<int>>): nat {
    if |routes| == 0 then 0 else Used(routes[..|routes| - 1]) + (if |routes[|routes| - 1]| > 0 then 1 else 0)
  }

  /** The fold over the non-empty routes; None when one is infeasible. */
  function FoldTotal(w: World, routes: seq<seq<int>>): Option<real> {
    if |routes| == 0 then Some(0.0)
    else
      var before, r := FoldTotal(w, routes[..|routes| - 1]), routes[|routes| - 1];
      if |r| == 0 then before
      else if before.None? || w.price.fold(r).None? then None
      else Some(before.value + w.price.fold(r).value)
  }

  /** solution_duration: None when the fleet bound is exceeded or a route is infeasible. */
  function SolutionDuration(w: World, routes: seq<seq<int>>): Option<real> {
    var total := FoldTotal(w, routes);
    if !FleetOk(w, |routes|) || total.None? then None else Some(total.value + Fee(w, Used(routes)))
  }

  method ComputeSolutionDuration(w: World, routes: seq<seq<int>>) returns (value: Option<real>)
    ensures value == SolutionDuration(w, routes)
  {
    if w.inst.vehicles >= 0 && |routes| > w.inst.vehicles { return None; }
    var total, used := 0.0, 0;
    for k := 0 to |routes|
      invariant FoldTotal(w, routes[..k]) == Some(total) && used == Used(routes[..k])
    {
      assert routes[..k + 1][..k] == routes[..k];
      if |routes[k]| > 0 {
        var d := w.price.fold(routes[k]);
        if d.None? {
          InfeasibleStays(w, routes, k + 1);
          return None;
        }
        total, used := total + d.value, used + 1;
      }
    }
    assert routes[..|routes|] == routes;
    return Some(total + Fee(w, used));
  }

  lemma {:induction false} InfeasibleStays(w: World, routes: seq<seq<int>>, k: nat)
    requires k <= |routes| && FoldTotal(w, routes[..k]).None?
    ensures FoldTotal(w, routes).None?
    decreases |routes|
  {
    if k < |routes| {
      assert routes[..|routes| - 1][..k] == routes[..k];
      InfeasibleStays(w, routes[..|routes| - 1], k);
    } else {
      assert routes[..k] == routes;
    }
  }

  /** On live tours the solution duration is the stored objective. */
  lemma {:induction false} StoredObjective(w: World, tours: seq<Tour>)
    requires ToursOk(w, tours)
    ensures FoldTotal(w, Routes(tours)) == Some(Durations(tours)) && Used(Routes(tours)) == |tours|
    decreases |tours|
  {
    if |tours| > 0 {
      var n := |tours| - 1;
      assert TourOk(w, tours[n]);
      assert Routes(tours)[..n] == Routes(tours[..n]);
      StoredObjective(w, tours[..n]);
    }
  }

  /** The value of a live state: its cost, if the fleet bound allows it. */
  function ValueOf(w: World, tours: seq<Tour>): Option<real> {
    if FleetOk(w, |tours|) then Some(Cost(w, tours)) else None
  }

  lemma ValueOfRoutes(w: World, tours: seq<Tour>)
    requires ToursOk(w, tours)
    ensures SolutionDuration(w, Routes(tours)) == ValueOf(w, tours)
  {
    StoredObjective(w, tours);
  }

  // ---------- finitely many arrangements ----------

  ghost function Extended<T>(x: T, y: seq<T>): seq<T> { [x] + y }

  /** All sequences over S of length at most len. */
  ghost function Words<T(!new)>(S: set<T>, len: nat): set<seq<T>> {
    if len == 0 then {[]} else
      var shorter := Words(S, len - 1);
      {[]} + set x, y | x in S && y in shorter :: Extended(x, y)
  }

  lemma {:induction false} InWords<T(!new)>(S: set<T>, len: nat, r: seq<T>)
    requires |r| <= len && forall k :: 0 <= k < |r| ==> r[k] in S
    ensures r in Words(S, len)
    decreases len
  {
    if |r| > 0 {
      InWords(S, len - 1, r[1..]);
      assert r == Extended(r[0], r[1..]);
    }
  }

  /** Every way of placing clients 1..n in at most n routes of at most n stops. */
  ghost function Arrangements(n: nat): set<seq<seq<int>>> {
    Words(Words(ClientSet(n), n), n)
  }

  /** The arrangements whose objective is below a bound: the measure of the descent. */
  ghost function Better(w: World, bound: real): set<seq<seq<int>>> {
    set r | r in Arrangements(w.inst.n) && FoldTotal(w, r).Some? && FoldTotal(w, r).value + Fee(w, Used(r)) < bound
  }

  lemma {:induction false} ClientCount(n: nat)
    ensures |ClientSet(n)| == n && |AllClients(n)| == n
  {
    if n == 0 {
      assert ClientSet(0) == {};
    } else {
      ClientCount(n - 1);
      assert IsClient(n, n) && ClientSet(n) == ClientSet(n - 1) + {n} && n !in ClientSet(n - 1);
    }
  }

  /** Non-empty routes serve at least one client each. */
  lemma {:induction false} ServedCount(w: World, tours: seq<Tour>)
    requires ToursOk(w, tours)
    ensures |tours| <= |Served(tours)|
    ensures forall k :: 0 <= k < |tours| ==> |tours[k].vertices| <= |Served(tours)|
    decreases |tours|
  {
    if |tours| > 0 {
      var n := |tours| - 1;
      assert TourOk(w, tours[n]);
      ServedCount(w, tours[..n]);
      forall k | 0 <= k < |tours| ensures |tours[k].vertices| <= |Served(tours)| {
        if k < n { assert tours[k] == tours[..n][k]; }
      }
    }
  }

  lemma FeasibleIsArranged(w: World, tours: seq<Tour>)
    requires Feasible(w, tours)
    ensures Routes(tours) in Arrangements(w.inst.n)
  {
    hide Words, Served;
    var n := w.inst.n;
    ClientCount(n);
    ServedCount(w, tours);
    forall k | 0 <= k < |tours| ensures tours[k].vertices in Words(ClientSet(n), n) {
      assert TourOk(w, tours[k]);
      forall i | 0 <= i < |tours[k].vertices| ensures tours[k].vertices[i] in ClientSet(n) {
        assert w.inst.Customer(tours[k].vertices[i]) && IsClient(n, tours[k].vertices[i]);
      }
      InWords(ClientSet(n), n, tours[k].vertices);
    }
    InWords(Words(ClientSet(n), n), n, Routes(tours));
  }

  /** A cheaper feasible state leaves strictly fewer arrangements below it. */
  lemma BetterShrinks(w: World, tours: seq<Tour>, bound: real)
    requires Feasible(w, tours) && Cost(w, tours) < bound
    ensures Better(w, Cost(w, tours)) < Better(w, bound)
  {
    hide Arrangements, FoldTotal, Used, Durations, Fee, Served;
    FeasibleIsArranged(w, tours);
    StoredObjective(w, tours);
    assert Routes(tours) in Better(w, bound) && Routes(tours) !in Better(w, Cost(w, tours));
    assert Better(w, Cost(w, tours)) <= Better(w, bound);
  }

  // ---------- the live state between passes ----------

  /** What the search keeps from pass to pass: the state is feasible, and skipping stale clients is
      justified both for the lists in use and for the granular lists the stamps were made under. */
  ghost predicate Ready(w: World, cert: NeighbourLists, nb: NeighbourLists, s: State) {
    && Sound(cert, w.inst.n) && Sound(nb, w.inst.n) && Coarser(cert, nb)
    && StateOk(w, s) && Certified(w, cert, s) && Certified(w, nb, s)
  }

  ghost predicate Improves(w: World, s: State, s': State) {
    Cost(w, s'.tours) < Cost(w, s.tours) && |s'.tours| <= |s.tours|
  }

  lemma MoveAdvances(w: World, cert: NeighbourLists, nb: NeighbourLists, s: State, s': State, op: nat)
    requires Ready(w, cert, nb, s) && PassInput(w, nb, s) && TookFirst(w, nb, s, s', op)
    ensures Ready(w, cert, nb, s') && Improves(w, s, s')
  {
    hide Certified, Justified, FoldTakes, Screens, Redistributes, Commits, Committed, StateOk, Cost, NewA, NewB;
    var m :| OpOf(m) == op && FirstOpen(w, nb, s, m) && Took(w, nb, s, s', m);
    var A, B := s.tours[m.a].vertices, s.tours[OtherRoute(m)].vertices;
    ToursAreOk(w, s);
    ScreenedBalances(w, s, m);
    CommitKeeps(w, s, m.a, NewA(m, A, B), OtherRoute(m), NewB(m, A, B));
    CommitCertifies(w, cert, s, m.a, NewA(m, A, B), OtherRoute(m), NewB(m, A, B));
    CommitCertifies(w, nb, s, m.a, NewA(m, A, B), OtherRoute(m), NewB(m, A, B));
  }

  lemma ToursAreOk(w: World, s: State)
    requires StateOk(w, s)
    ensures ToursOk(w, s.tours) && Feasible(w, s.tours) && StampsOk(w.inst.n, s)
  {
  }

  lemma CleanPassReady(w: World, cert: NeighbourLists, nb: NeighbourLists, s: State, s': State, op: nat)
    requires Ready(w, cert, nb, s) && PassInput(w, nb, s) && op < 4 && PassOutcome(w, nb, s, s', op, false)
    ensures Ready(w, cert, nb, s') && s'.tours == s.tours && Exhausted(w, nb, s.tours, op)
  {
    hide Certified, Exhausted, Stamped, Sound;
    if s' != s {
      CleanPassCertifies(w, cert, nb, s, op);
      CleanPassCertifies(w, nb, nb, s, op);
      StampedTours(w.inst.n, nb, s, op);
    }
  }

  lemma StampedTours(n: nat, nb: NeighbourLists, s: State, op: nat)
    requires Sound(nb, n) && StampsOk(n, s) && op < 4
    ensures Stamped(n, nb, s, op).tours == s.tours
  {
  }

  /** No justified move of any operator would be taken. */
  ghost predicate LocalOptimum(w: World, nb: NeighbourLists, tours: seq<Tour>)
    requires Sound(nb, w.inst.n) && ToursOk(w, tours)
  {
    forall op :: 0 <= op < 4 ==> Exhausted(w, nb, tours, op)
  }

  // ---------- the operator cycle ----------

  /** One pass, or a deadline check that skips it: s' and the cursor after it. Operators after the first
      ask the deadline before they run. */
  ghost predicate Turn(w: World, nb: NeighbourLists, late: nat -> bool, s: State, at: nat, op: nat, s': State, at': nat, improved: bool, cut: bool)
  {
    && PassInput(w, nb, s) && op < 4
    && if op > 0 && late(at) then s' == s && at' == at + 1 && !improved && cut
       else at' == (if op > 0 then at + 1 else at) && !cut && PassOutcome(w, nb, s, s', op, improved)
  }

  /** The operators from `op` on, in order, until one commits or the deadline is found past. */
  ghost predicate Cycle(w: World, nb: NeighbourLists, late: nat -> bool, s: State, at: nat, op: nat, s': State, at': nat, improved: bool, cut: bool)
    decreases 4 - op
  {
    if op >= 4 then s' == s && at' == at && !improved && !cut
    else exists s1, at1, i1, c1 ::
           && Turn(w, nb, late, s, at, op, s1, at1, i1, c1)
           && if i1 || c1 then s' == s1 && at' == at1 && improved == i1 && cut == c1
              else Cycle(w, nb, late, s1, at1, op + 1, s', at', improved, cut)
  }

  /** Where a descent stands before a round. */
  datatype Mark = Mark(s: State, at: nat, improved: bool, cut: bool)

  /** A round runs while the last one improved and the deadline check before it says no. */
  ghost predicate Rounds(w: World, nb: NeighbourLists, late: nat -> bool, marks: seq<Mark>) {
    forall k :: 0 <= k < |marks| - 1 ==>
      && marks[k].improved && !late(marks[k].at)
      && Cycle(w, nb, late, marks[k].s, marks[k].at + 1, 0, marks[k + 1].s, marks[k + 1].at, marks[k + 1].improved, marks[k + 1].cut)
  }

  /** A whole descent from s at cursor `at`: rounds to the first that does not improve, or to the first
      check before a round that finds the deadline past. */
  ghost predicate DescentBy(w: World, nb: NeighbourLists, late: nat -> bool, s: State, at: nat, s': State, at': nat, marks: seq<Mark>) {
    && |marks| > 0 && marks[0] == Mark(s, at, true, false) && Rounds(w, nb, late, marks)
    && var last := marks[|marks| - 1];
       s' == last.s && if last.improved then late(last.at) && at' == last.at + 1 else at' == last.at
  }

  /** The marks so far lead from s0 to s; `at` is the cursor before the next deadline check, if any. */
  ghost predicate MarkedTo(w: World, nb: NeighbourLists, late: nat -> bool, s0: State, at0: nat, marks: seq<Mark>, s: State, at: nat, improved: bool) {
    && |marks| > 0 && marks[0] == Mark(s0, at0, true, false) && Rounds(w, nb, late, marks)
    && var last := marks[|marks| - 1]; last.s == s && last.at == at && last.improved == improved
  }

  lemma MarkStart(w: World, nb: NeighbourLists, late: nat -> bool, s: State, at: nat)
    ensures MarkedTo(w, nb, late, s, at, [Mark(s, at, true, false)], s, at, true)
  {
  }

  lemma MarkOn(w: World, nb: NeighbourLists, late: nat -> bool, s0: State, at0: nat, marks: seq<Mark>, s: State, at: nat, next: Mark)
    requires MarkedTo(w, nb, late, s0, at0, marks, s, at, true) && !late(at)
    requires Cycle(w, nb, late, s, at + 1, 0, next.s, next.at, next.improved, next.cut)
    ensures MarkedTo(w, nb, late, s0, at0, marks + [next], next.s, next.at, next.improved)
  {
    hide Cycle;
  }

  lemma MarkEnd(w: World, nb: NeighbourLists, late: nat -> bool, s0: State, at0: nat, marks: seq<Mark>, s: State, at: nat, improved: bool)
    requires MarkedTo(w, nb, late, s0, at0, marks, s, at, improved) && (improved ==> late(at))
    ensures Descent(w, nb, late, s0, at0, s, if improved then at + 1 else at)
  {
    hide Cycle;
    assert DescentBy(w, nb, late, s0, at0, s, if improved then at + 1 else at, marks);
  }

  ghost predicate Descent(w: World, nb: NeighbourLists, late: nat -> bool, s: State, at: nat, s': State, at': nat) {
    exists marks :: DescentBy(w, nb, late, s, at, s', at', marks)
  }

  /** Two moves of one operator are the same, or one of them is looked at first. */
  lemma SoonerIsTotal(m: Move, x: Move)
    requires OpOf(m) == OpOf(x)
    ensures m == x || Sooner(m, x) || Sooner(x, m)
  {
  }

  /** A pass can end in one way only. */
  lemma PassIsDetermined(w: World, nb: NeighbourLists, s: State, op: nat, a: State, i: bool, b: State, j: bool)
    requires PassInput(w, nb, s) && op < 4 && PassOutcome(w, nb, s, a, op, i) && PassOutcome(w, nb, s, b, op, j)
    ensures a == b && i == j
  {
    hide TookFirst, Clean, Exhausted, Stamped;
    if i { TookIsNotClean(w, nb, s, a, op); }
    if j { TookIsNotClean(w, nb, s, b, op); }
    if i && j { TookIsDetermined(w, nb, s, op, a, b); }
  }

  lemma TookIsNotClean(w: World, nb: NeighbourLists, s: State, s': State, op: nat)
    requires PassInput(w, nb, s) && TookFirst(w, nb, s, s', op)
    ensures !Clean(w, nb, s, op)
  {
    hide Open;
  }

  lemma TookIsDetermined(w: World, nb: NeighbourLists, s: State, op: nat, a: State, b: State)
    requires PassInput(w, nb, s) && TookFirst(w, nb, s, a, op) && TookFirst(w, nb, s, b, op)
    ensures a == b
  {
    hide Open, Sooner, AfterMove, Takes, CommitsMove, Justified;
    var m :| OpOf(m) == op && FirstOpen(w, nb, s, m) && Took(w, nb, s, a, m);
    var x :| OpOf(x) == op && FirstOpen(w, nb, s, x) && Took(w, nb, s, b, x);
    SoonerIsTotal(m, x);
    assert SamePart(m, x, 0) && SamePart(x, m, 0);
  }

  lemma TurnIsDetermined(w: World, nb: NeighbourLists, late: nat -> bool, s: State, at: nat, op: nat, a: State, atA: nat, i: bool, c: bool, b: State, atB: nat, j: bool, d: bool)
    requires Turn(w, nb, late, s, at, op, a, atA, i, c) && Turn(w, nb, late, s, at, op, b, atB, j, d)
    ensures a == b && atA == atB && i == j && c == d
  {
    hide PassInput, PassOutcome;
    if !(op > 0 && late(at)) { PassIsDetermined(w, nb, s, op, a, i, b, j); }
  }

  lemma {:induction false} CycleIsDetermined(w: World, nb: NeighbourLists, late: nat -> bool, s: State, at: nat, op: nat, x: Mark, y: Mark)
    requires Cycle(w, nb, late, s, at, op, x.s, x.at, x.improved, x.cut) && Cycle(w, nb, late, s, at, op, y.s, y.at, y.improved, y.cut)
    ensures x == y
    decreases 4 - op
  {
    hide Turn;
    if op < 4 {
      var a, atA, i, c :| Turn(w, nb, late, s, at, op, a, atA, i, c)
        && if i || c then x == Mark(a, atA, i, c) else Cycle(w, nb, late, a, atA, op + 1, x.s, x.at, x.improved, x.cut);
      var b, atB, j, d :| Turn(w, nb, late, s, at, op, b, atB, j, d)
        && if j || d then y == Mark(b, atB, j, d) else Cycle(w, nb, late, b, atB, op + 1, y.s, y.at, y.improved, y.cut);
      TurnIsDetermined(w, nb, late, s, at, op, a, atA, i, c, b, atB, j, d);
      if !(i || c) { CycleIsDetermined(w, nb, late, a, atA, op + 1, x, y); }
    }
  }

  /** Two descents from one state agree as far as both go. */
  lemma {:induction false} MarksAgree(w: World, nb: NeighbourLists, late: nat -> bool, xs: seq<Mark>, ys: seq<Mark>, k: nat)
    requires Rounds(w, nb, late, xs) && Rounds(w, nb, late, ys) && k < |xs| && k < |ys| && xs[0] == ys[0]
    ensures xs[k] == ys[k]
  {
    hide Cycle;
    if k > 0 {
      MarksAgree(w, nb, late, xs, ys, k - 1);
      assert Cycle(w, nb, late, xs[k - 1].s, xs[k - 1].at + 1, 0, xs[k - 1 + 1].s, xs[k - 1 + 1].at, xs[k - 1 + 1].improved, xs[k - 1 + 1].cut);
      assert Cycle(w, nb, late, ys[k - 1].s, ys[k - 1].at + 1, 0, ys[k - 1 + 1].s, ys[k - 1 + 1].at, ys[k - 1 + 1].improved, ys[k - 1 + 1].cut);
      CycleIsDetermined(w, nb, late, xs[k - 1].s, xs[k - 1].at + 1, 0, xs[k], ys[k]);
    }
  }

  /** The start, the lists, the pricing and the deadline answers determine the whole descent: the tours it
      ends in, every stamp, and the number of checks it made. */
  lemma DescentIsDetermined(w: World, nb: NeighbourLists, late: nat -> bool, s: State, at: nat, a: State, atA: nat, b: State, atB: nat)
    requires Descent(w, nb, late, s, at, a, atA) && Descent(w, nb, late, s, at, b, atB)
    ensures a == b && atA == atB
  {
    hide Cycle, Rounds;
    var xs :| DescentBy(w, nb, late, s, at, a, atA, xs);
    var ys :| DescentBy(w, nb, late, s, at, b, atB, ys);
    var k := if |xs| < |ys| then |xs| - 1 else |ys| - 1;
    MarksAgree(w, nb, late, xs, ys, k);
    if |xs| < |ys| {
      RoundGoesOn(w, nb, late, ys, k);
    } else if |ys| < |xs| {
      RoundGoesOn(w, nb, late, xs, k);
    }
  }

  lemma RoundGoesOn(w: World, nb: NeighbourLists, late: nat -> bool, marks: seq<Mark>, k: nat)
    requires Rounds(w, nb, late, marks) && k < |marks| - 1
    ensures marks[k].improved && !late(marks[k].at)
  {
    hide Cycle;
  }

  /** The turn of one operator: a deadline check first, except for relocate. */
  method TakeTurn(w: World, nb: NeighbourLists, ss: SearchState, o: Oracle, op: nat, ghost cert: NeighbourLists) returns (improved: bool, cut: bool)
    requires Ready(w, cert, nb, ss.View()) && op < 4
    modifies ss, o`asked
    ensures Ready(w, cert, nb, ss.View()) && ToursOk(w, ss.tours)
    ensures Turn(w, nb, o.late, old(ss.View()), old(o.asked), op, ss.View(), o.asked, improved, cut)
    ensures if cut then !improved && StruckAt(o.late, old(o.asked), o.asked) else InTime(o.late, old(o.asked), o.asked)
    ensures if improved then Improves(w, old(ss.View()), ss.View()) else ss.tours == old(ss.tours)
    ensures !improved && !cut ==> Exhausted(w, nb, ss.tours, op)
    ensures improved ==> ToursOk(w, old(ss.tours)) && !Exhausted(w, nb, old(ss.tours), op)
  {
    hide Sound, StateOk, Certified, Exhausted, Coarser, TookFirst;
    ReadyIsInput(w, cert, nb, ss.View());
    ghost var s := ss.View();
    if op > 0 {
      cut := o.Past();
      if cut { return false, true; }
    }
    cut := false;
    match op {
      case 0 => improved := RelocatePass(w, nb, ss);
      case 1 => improved := IntraPass(w, nb, ss);
      case 2 => improved := SwapPass(w, nb, ss);
      case _ => improved := TwoOptStarPass(w, nb, ss);
    }
    if improved {
      MoveAdvances(w, cert, nb, s, ss.View(), op);
      TookIsOpen(w, nb, s, ss.View(), op);
    } else {
      CleanPassReady(w, cert, nb, s, ss.View(), op);
    }
    ReadyIsInput(w, cert, nb, ss.View());
  }

  lemma CycleEnds(w: World, nb: NeighbourLists, late: nat -> bool, s: State, at: nat, op: nat, s1: State, at1: nat, improved: bool, cut: bool)
    requires op < 4 && Turn(w, nb, late, s, at, op, s1, at1, improved, cut) && (improved || cut || op == 3)
    ensures Cycle(w, nb, late, s, at, op, s1, at1, improved, cut)
  {
    hide Turn;
    if !improved && !cut { assert Cycle(w, nb, late, s1, at1, 4, s1, at1, false, false); }
  }

  lemma CycleGoesOn(w: World, nb: NeighbourLists, late: nat -> bool, s: State, at: nat, op: nat, s1: State, at1: nat)
    requires op < 3 && Turn(w, nb, late, s, at, op, s1, at1, false, false)
    ensures forall s', at', i, c :: Cycle(w, nb, late, s1, at1, op + 1, s', at', i, c) ==> Cycle(w, nb, late, s, at, op, s', at', i, c)
  {
    hide Turn;
  }

  /** One round of the operator cycle. */
  method VndRound(w: World, nb: NeighbourLists, ss: SearchState, o: Oracle, ghost cert: NeighbourLists) returns (improved: bool, cut: bool)
    requires Ready(w, cert, nb, ss.View())
    modifies ss, o`asked
    ensures Ready(w, cert, nb, ss.View()) && ToursOk(w, ss.tours)
    ensures Cycle(w, nb, o.late, old(ss.View()), old(o.asked), 0, ss.View(), o.asked, improved, cut)
    ensures if cut then !improved && StruckAt(o.late, old(o.asked), o.asked) else InTime(o.late, old(o.asked), o.asked)
    ensures if improved then Improves(w, old(ss.View()), ss.View()) else ss.tours == old(ss.tours)
    ensures !improved && !cut ==> LocalOptimum(w, nb, ss.tours)
    ensures ToursOk(w, old(ss.tours)) && (LocalOptimum(w, nb, old(ss.tours)) ==> !improved)
  {
    hide Ready, Exhausted, Turn, Cycle;
    ghost var s, at := ss.View(), o.asked;
    ReadyIsInput(w, cert, nb, s);
    improved, cut := TakeTurn(w, nb, ss, o, 0, cert);
    if improved || cut { CycleEnds(w, nb, o.late, s, at, 0, ss.View(), o.asked, improved, cut); return; }
    CycleGoesOn(w, nb, o.late, s, at, 0, ss.View(), o.asked);
    ghost var s1, at1 := ss.View(), o.asked;
    improved, cut := TakeTurn(w, nb, ss, o, 1, cert);
    if improved || cut { CycleEnds(w, nb, o.late, s1, at1, 1, ss.View(), o.asked, improved, cut); return; }
    CycleGoesOn(w, nb, o.late, s1, at1, 1, ss.View(), o.asked);
    ghost var s2, at2 := ss.View(), o.asked;
    improved, cut := TakeTurn(w, nb, ss, o, 2, cert);
    if improved || cut { CycleEnds(w, nb, o.late, s2, at2, 2, ss.View(), o.asked, improved, cut); return; }
    CycleGoesOn(w, nb, o.late, s2, at2, 2, ss.View(), o.asked);
    ghost var s3, at3 := ss.View(), o.asked;
    improved, cut := TakeTurn(w, nb, ss, o, 3, cert);
    CycleEnds(w, nb, o.late, s3, at3, 3, ss.View(), o.asked, improved, cut);
  }

  /** A pass that commits found a justified move to take. */
  lemma TookIsOpen(w: World, nb: NeighbourLists, s: State, s': State, op: nat)
    requires PassInput(w, nb, s) && op < 4 && TookFirst(w, nb, s, s', op)
    ensures ToursOk(w, s.tours) && !Exhausted(w, nb, s.tours, op)
  {
    hide Takes, Justified, CommitsMove, AfterMove;
    var m :| OpOf(m) == op && FirstOpen(w, nb, s, m) && Took(w, nb, s, s', m);
  }

  lemma ReadyIsInput(w: World, cert: NeighbourLists, nb: NeighbourLists, s: State)
    requires Ready(w, cert, nb, s)
    ensures PassInput(w, nb, s) && ToursOk(w, s.tours) && Feasible(w, s.tours)
  {
  }

  lemma ImprovesOn(w: World, s0: State, s: State, s': State)
    requires Improves(w, s, s') && (s.tours == s0.tours || Improves(w, s0, s))
    ensures Improves(w, s0, s') && Cost(w, s'.tours) < Cost(w, s.tours)
  {
    hide Cost;
  }

  /** ls_descend: first-improvement descent, round by round. It terminates because every commit leaves
      fewer cheaper arrangements. Unless a deadline check in it said yes, it ends where no justified move
      would be taken, and such a state it leaves alone. */
  method LsDescend(w: World, nb: NeighbourLists, ss: SearchState, o: Oracle, ghost cert: NeighbourLists) returns (value: Option<real>)
    requires Ready(w, cert, nb, ss.View())
    modifies ss, o`asked
    ensures Ready(w, cert, nb, ss.View()) && ToursOk(w, ss.tours)
    ensures Descent(w, nb, o.late, old(ss.View()), old(o.asked), ss.View(), o.asked)
    ensures ss.tours == old(ss.tours) || Improves(w, old(ss.View()), ss.View())
    ensures value == ValueOf(w, ss.tours)
    ensures LocalOptimum(w, nb, ss.tours) || StruckAt(o.late, old(o.asked), o.asked)
    ensures NoDeadline(o.late) ==> LocalOptimum(w, nb, ss.tours)
    ensures ToursOk(w, old(ss.tours)) && (LocalOptimum(w, nb, old(ss.tours)) ==> ss.tours == old(ss.tours))
  {
    hide Ready, LocalOptimum, Better, Cost, Cycle, MarkedTo, Descent;
    var improved, cut := true, false;
    ghost var s0, at0 := ss.View(), o.asked;
    ghost var marks := [Mark(ss.View(), o.asked, true, false)];
    MarkStart(w, nb, o.late, s0, at0);
    ReadyIsInput(w, cert, nb, ss.View());
    var late := o.Past();
    while improved && !late
      invariant Ready(w, cert, nb, ss.View()) && ToursOk(w, ss.tours)
      invariant ss.tours == old(ss.tours) || Improves(w, s0, ss.View())
      invariant improved ==> o.asked > at0 && late == o.late(o.asked - 1) && InTime(o.late, at0, o.asked - 1)
      invariant MarkedTo(w, nb, o.late, s0, at0, marks, ss.View(), if improved then o.asked - 1 else o.asked, improved)
      invariant !improved && !cut ==> LocalOptimum(w, nb, ss.tours)
      invariant !improved && cut ==> StruckAt(o.late, at0, o.asked)
      invariant !improved ==> !late
      invariant LocalOptimum(w, nb, old(ss.tours)) ==> ss.tours == old(ss.tours)
      decreases Better(w, Cost(w, ss.tours)), improved
    {
      ghost var s, at := ss.View(), o.asked;
      improved, cut := VndRound(w, nb, ss, o, cert);
      MarkOn(w, nb, o.late, s0, at0, marks, s, at - 1, Mark(ss.View(), o.asked, improved, cut));
      marks := marks + [Mark(ss.View(), o.asked, improved, cut)];
      ReadyIsInput(w, cert, nb, ss.View());
      if improved {
        ImprovesOn(w, s0, s, ss.View());
        BetterShrinks(w, ss.tours, Cost(w, s.tours));
        late := o.Past();
      }
    }
    MarkEnd(w, nb, o.late, s0, at0, marks, ss.View(), if improved then o.asked - 1 else o.asked, improved);
    value := ComputeSolutionDuration(w, Routes(ss.tours));
    ValueOfRoutes(w, ss.tours);
  }

  // ---------- entry points ----------

  /** mark_all_touched. */
  method MarkAllTouched(ss: SearchState)
    requires |ss.touched| > 0
    modifies ss`epoch, ss`touched
    ensures ss.View() == AllTouched(old(ss.View()))
  {
    ss.epoch := ss.epoch + 1;
    var touched := ss.touched;
    for c := 1 to |touched|
      invariant |touched| == |ss.touched|
      invariant forall v :: 0 <= v < |touched| ==> touched[v] == if 1 <= v < c then ss.epoch else ss.touched[v]
    {
      touched := touched[c := ss.epoch];
    }
    assert touched == AllTouched(old(ss.View())).touched;
    ss.touched := touched;
  }

  /** After mark_all_touched the stamps certify any lists, so a descent may widen its enumeration. */
  lemma MarkedIsReady(w: World, cert: NeighbourLists, nb: NeighbourLists, s: State)
    requires Sound(cert, w.inst.n) && Sound(nb, w.inst.n) && Coarser(cert, nb) && StateOk(w, s)
    ensures Ready(w, cert, nb, AllTouched(s)) && AllTouched(s).tours == s.tours
  {
    hide Certified, StateOk, AllTouched;
    AllTouchedCertifies(w, cert, s);
    AllTouchedCertifies(w, nb, s);
    AllTouchedTours(s);
  }

  lemma AllTouchedTours(s: State)
    ensures AllTouched(s).tours == s.tours && |AllTouched(s).touched| == |s.touched|
  {
  }

  /** The tours of a list of routes, priced by the fold. */
  function Priced(w: World, routes: seq<seq<int>>): seq<Tour>
    requires forall k :: 0 <= k < |routes| ==> w.price.fold(routes[k]).Some?
  {
    seq(|routes|, k requires 0 <= k < |routes| => Tour(routes[k], w.price.fold(routes[k]).value, Load(w.inst, routes[k])))
  }

  function Fresh(n: nat, tours: seq<Tour>): State {
    State(tours, seq(n + 1, _ => 1), seq(4, _ => seq(n + 1, _ => 0)), 1)
  }

  /** init_search_state: refuses exactly the lists with an infeasible route. */
  method InitSearchState(w: World, routes: seq<seq<int>>, ss: SearchState) returns (ok: bool)
    modifies ss
    ensures ok <==> forall k :: 0 <= k < |routes| ==> w.price.fold(routes[k]).Some?
    ensures ok ==> ss.View() == Fresh(w.inst.n, Priced(w, routes))
  {
    ss.tours := [];
    for k := 0 to |routes|
      invariant |ss.tours| == k
      invariant forall j :: 0 <= j < k ==> w.price.fold(routes[j]).Some? && ss.tours[j] == Tour(routes[j], w.price.fold(routes[j]).value, Load(w.inst, routes[j]))
    {
      var d := w.price.fold(routes[k]);
      if d.None? { return false; }
      ss.tours := ss.tours + [Tour(routes[k], d.value, Load(w.inst, routes[k]))];
    }
    ss.touched, ss.tested, ss.epoch := seq(w.inst.n + 1, _ => 1), seq(4, _ => seq(w.inst.n + 1, _ => 0)), 1;
    assert ss.tours == Priced(w, routes);
    return true;
  }

  /** A fresh state over feasible tours is ready under any lists. */
  lemma FreshIsReady(w: World, cert: NeighbourLists, nb: NeighbourLists, tours: seq<Tour>)
    requires Sound(cert, w.inst.n) && Sound(nb, w.inst.n) && Coarser(cert, nb) && Feasible(w, tours)
    ensures Ready(w, cert, nb, Fresh(w.inst.n, tours))
  {
    hide Certified, Feasible;
    FreshCertifies(w, cert, Fresh(w.inst.n, tours));
    FreshCertifies(w, nb, Fresh(w.inst.n, tours));
  }
}
