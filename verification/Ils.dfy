/** The iterated local search (cpp/heuristics/ils.cpp): publication guard, late acceptance with
    snapshot restore, restart to best, fleet-descent triggers, route-count cap. Every method is tied to its
    relation in SearchSteps; the streams of deadline answers, draws and work triggers are arbitrary. */
module IteratedSearch {
  import opened Common
  import opened Oracles
  import opened Instances
  import opened Neighbours
  import opened SearchStates
  import opened Staleness
  import opened Descents
  import opened Repairs
  import Perturbation
  import opened WarpSearches
  import opened Squeezes
  import FleetDescents
  import opened Construction
  import opened Seeds
  import opened SearchSteps

  // ---------- the publication stream ----------

  /** Every incumbent is priced by its own routes and respects the cap; values strictly decrease;
      published is the last value. */
  ghost predicate StreamOk(w: World, p: Params, incumbents: seq<Incumbent>, published: Option<real>) {
    && published == (if |incumbents| == 0 then None else Some(incumbents[|incumbents| - 1].value))
    && (forall i :: 0 <= i < |incumbents| ==>
          SolutionDuration(w, incumbents[i].routes) == Some(incumbents[i].value) && !OverCap(w, p, |incumbents[i].routes|))
    && (forall i, j :: 0 <= i < j < |incumbents| ==> incumbents[j].value < incumbents[i].value)
  }

  /** How the stream relates to the best solution: they agree, except that an over-cap best is never
      published and that a split seed may end above the greedy seed already published. */
  ghost predicate Agrees(w: World, p: Params, split: bool, incumbents: seq<Incumbent>, best: real, routes: seq<seq<int>>) {
    if split then !CapActive(w, p) && |incumbents| > 0 && incumbents[|incumbents| - 1].value <= best
    else if OverCap(w, p, |routes|) then incumbents == []
    else |incumbents| > 0 && incumbents[|incumbents| - 1] == Incumbent(best, routes)
  }

  ghost predicate BestOk(w: World, routes: seq<seq<int>>, best: real) {
    Solves(w, AllClients(w.inst.n), routes, best) && FleetOk(w, |routes|)
  }

  class Run {
    const ss: SearchState
    var curr: real
    var best: real
    var routes: seq<seq<int>>
    var published: Option<real>
    var incumbents: seq<Incumbent>
    var pcount: seq<int>
    var history: seq<Option<real>>
    var historyIdx: nat
    var initCost: real
    var noImprovement: int
    ghost var split: bool

    constructor (n: nat)
      ensures fresh(ss) && incumbents == [] && published == None && routes == [] && !split
      ensures pcount == Zeros(n + 1)
    {
      ss := new SearchState();
      curr, best, routes, published, incumbents := 0.0, 0.0, [], None, [];
      pcount := Zeros(n + 1);
      history, historyIdx, initCost, noImprovement, split := [], 0, 0.0, 0, false;
    }

    /** publish: the single publication point. */
    method Publish(w: World, p: Params, value: real, candidate: seq<seq<int>>)
      modifies `published, `incumbents
      ensures if OverCap(w, p, |candidate|) || (old(published).Some? && value >= old(published).value)
              then published == old(published) && incumbents == old(incumbents)
              else published == Some(value) && incumbents == old(incumbents) + [Incumbent(value, candidate)]
      ensures published == PublishedAfter(w, p, old(published), value, candidate)
      ensures incumbents == StreamAfter(w, p, old(published), old(incumbents), value, candidate)
    {
      if w.inst.fixedCost > 0.0 && p.kCap > 0 && |candidate| > p.kCap { return; }
      if published.Some? && !(value < published.value) { return; }
      published := Some(value);
      incumbents := incumbents + [Incumbent(value, candidate)];
    }
  }

  lemma PublishKeeps(w: World, p: Params, incumbents: seq<Incumbent>, published: Option<real>, value: real, routes: seq<seq<int>>)
    requires StreamOk(w, p, incumbents, published) && SolutionDuration(w, routes) == Some(value)
    requires !OverCap(w, p, |routes|) && (published.Some? ==> value < published.value)
    ensures StreamOk(w, p, incumbents + [Incumbent(value, routes)], Some(value))
  {
    hide SolutionDuration;
    assert forall i :: 0 <= i < |incumbents| ==> incumbents[i].value >= incumbents[|incumbents| - 1].value;
  }

  /** The live tours as a published solution. */
  lemma LiveSolves(w: World, tours: seq<Tour>)
    requires Feasible(w, tours) && FleetOk(w, |tours|)
    ensures BestOk(w, Routes(tours), Cost(w, tours)) && SolutionDuration(w, Routes(tours)) == Some(Cost(w, tours))
    ensures |Routes(tours)| == |tours|
  {
    hide Load, Served, Cost;
    forall k | 0 <= k < |tours| ensures w.price.fold(Routes(tours)[k]) == Some(tours[k].duration) && tours[k].load == Load(w.inst, tours[k].vertices) {
      assert TourOk(w, tours[k]);
    }
    assert Priced(w, Routes(tours)) == tours;
    ValueOfRoutes(w, tours);
  }

  /** The stage a run has reached. */
  ghost function Standing(run: Run, o: Oracle): Stage
    reads run, run.ss, o
  {
    Stage(run.ss.View(), run.curr, run.best, run.routes, run.published, run.incumbents, run.pcount, run.history, run.historyIdx,
          run.initCost, run.noImprovement, o.asked, o.drawn, o.looked)
  }

  function SettingOf(ww: WarpWorld, nb: NeighbourLists, p: Params, o: Oracle): Setting {
    Setting(ww, nb, p, o.late, o.draws, o.fires)
  }

  /** The books: the best solution and the stream. */
  ghost predicate Books(w: World, p: Params, run: Run)
    reads run
  {
    && |run.pcount| == w.inst.n + 1 && BestOk(w, run.routes, run.best)
    && StreamOk(w, p, run.incumbents, run.published) && Agrees(w, p, run.split, run.incumbents, run.best, run.routes)
  }

  /** Everything but the current value: the books, the live state with its stamps, and the cap. */
  ghost predicate Base(w: World, nb: NeighbourLists, p: Params, run: Run)
    reads run, run.ss
  {
    && Books(w, p, run) && Ready(w, nb, nb, run.ss.View()) && FleetOk(w, |run.ss.tours|)
    && (|run.incumbents| > 0 ==> !OverCap(w, p, |run.ss.tours|))
  }

  /** The loop invariant: the current value prices the live state and is never below the best; the
      acceptance history holds no value below the best. */
  ghost predicate Live(w: World, nb: NeighbourLists, p: Params, run: Run)
    reads run, run.ss
  {
    && Base(w, nb, p, run) && run.curr == Cost(w, run.ss.tours) && run.best <= run.curr
    && |run.history| > 0 && run.best <= run.initCost
    && forall k :: 0 <= k < |run.history| && run.history[k].Some? ==> run.best <= run.history[k].value
  }

  lemma BaseIsFeasible(w: World, nb: NeighbourLists, p: Params, run: Run)
    requires Base(w, nb, p, run)
    ensures StateOk(w, run.ss.View()) && Feasible(w, run.ss.tours) && ToursOk(w, run.ss.tours) && Sound(nb, w.inst.n)
    ensures FleetOk(w, |run.ss.tours|) && Ready(w, nb, nb, run.ss.View()) && |run.pcount| == w.inst.n + 1
  {
  }

  /** A cheaper live state becomes the best solution and is published if the cap allows. */
  method NewBest(w: World, p: Params, run: Run, cand: real)
    requires Feasible(w, run.ss.tours) && FleetOk(w, |run.ss.tours|) && cand == Cost(w, run.ss.tours) && cand < run.best
    requires StreamOk(w, p, run.incumbents, run.published) && Agrees(w, p, run.split, run.incumbents, run.best, run.routes)
    requires |run.incumbents| > 0 ==> !OverCap(w, p, |run.ss.tours|)
    modifies run`best, run`routes, run`published, run`incumbents
    ensures run.best == cand && run.routes == Routes(run.ss.tours) && BestOk(w, run.routes, run.best)
    ensures StreamOk(w, p, run.incumbents, run.published) && Agrees(w, p, run.split, run.incumbents, run.best, run.routes)
    ensures |run.incumbents| > 0 ==> !OverCap(w, p, |run.ss.tours|)
    ensures run.published == PublishedAfter(w, p, old(run.published), cand, run.routes)
    ensures run.incumbents == StreamAfter(w, p, old(run.published), old(run.incumbents), cand, run.routes)
  {
    hide Feasible, Cost, BestOk, SolutionDuration, CapActive;
    LiveSolves(w, run.ss.tours);
    run.best := cand;
    run.routes := Routes(run.ss.tours);
    ghost var incumbents, published := run.incumbents, run.published;
    run.Publish(w, p, cand, run.routes);
    if !OverCap(w, p, |run.routes|) && (published.Some? ==> cand < published.value) {
      PublishKeeps(w, p, incumbents, published, cand, run.routes);
    }
  }

  /** The live state becomes the best solution if it is cheaper. */
  method Record(w: World, p: Params, run: Run, cand: real, ghost o: Oracle)
    requires Feasible(w, run.ss.tours) && FleetOk(w, |run.ss.tours|) && cand == Cost(w, run.ss.tours) && Books(w, p, run)
    requires |run.incumbents| > 0 ==> !OverCap(w, p, |run.ss.tours|)
    modifies run`best, run`routes, run`published, run`incumbents
    ensures Standing(run, o) == Recorded(w, p, old(Standing(run, o)))
    ensures Books(w, p, run) && (|run.incumbents| > 0 ==> !OverCap(w, p, |run.ss.tours|))
    ensures run.best == if cand < old(run.best) then cand else old(run.best)
    ensures !(cand < old(run.best)) ==> run.routes == old(run.routes) && run.incumbents == old(run.incumbents)
  {
    hide Feasible, Cost, BestOk, CapActive, StreamOk, Agrees, PublishedAfter, StreamAfter;
    if cand < run.best { NewBest(w, p, run, cand); }
  }

  // ---------- basins ----------

  lemma FewerRoutesFit(w: World, p: Params, before: int, after: int)
    requires after <= before
    ensures FleetOk(w, before) ==> FleetOk(w, after)
    ensures !OverCap(w, p, before) ==> !OverCap(w, p, after)
  {
  }

  /** mark_all_touched, then one descent. */
  method MarkAndDescend(w: World, nb: NeighbourLists, lists: NeighbourLists, ss: SearchState, o: Oracle) returns (value: real)
    requires Sound(nb, w.inst.n) && Sound(lists, w.inst.n) && Coarser(nb, lists) && StateOk(w, ss.View()) && FleetOk(w, |ss.tours|)
    modifies ss, o`asked
    ensures MarkedDescent(w, lists, o.late, old(ss.View()), old(o.asked), ss.View(), o.asked)
    ensures Ready(w, nb, nb, ss.View()) && StateOk(w, ss.View()) && FleetOk(w, |ss.tours|) && value == Cost(w, ss.tours)
    ensures ss.tours == old(ss.tours) || Improves(w, old(ss.View()), ss.View())
  {
    hide Sound, StateOk, Cost, LocalOptimum, Certified, Descent;
    StampSize(w, ss.View());
    MarkedIsReady(w, nb, lists, ss.View());
    MarkAllTouched(ss);
    var v := LsDescend(w, lists, ss, o, nb);
    value := v.value;
    if lists.k == 0 && lists != nb { ReadyCert(w, nb, lists, ss.View()); }
  }

  lemma ReadyCert(w: World, nb: NeighbourLists, lists: NeighbourLists, s: State)
    requires Ready(w, nb, lists, s)
    ensures Ready(w, nb, nb, s) && StateOk(w, s)
  {
    hide Certified, StateOk, Sound;
  }

  lemma StampSize(w: World, s: State)
    requires StateOk(w, s)
    ensures |s.touched| == w.inst.n + 1
  {
  }

  /** The exhaustive polish, if it is enabled and in time. */
  method Polish(w: World, nb: NeighbourLists, p: Params, ss: SearchState, o: Oracle, value0: real) returns (value: real)
    requires Sound(nb, w.inst.n) && Ready(w, nb, nb, ss.View()) && StateOk(w, ss.View()) && FleetOk(w, |ss.tours|) && value0 == Cost(w, ss.tours)
    modifies ss, o`asked
    ensures Polished(w, p, o.late, old(ss.View()), old(o.asked), ss.View(), o.asked)
    ensures Ready(w, nb, nb, ss.View()) && StateOk(w, ss.View()) && FleetOk(w, |ss.tours|) && value == Cost(w, ss.tours)
    ensures (ss.tours == old(ss.tours) && value == value0) || Improves(w, old(ss.View()), ss.View())
    ensures !p.exhaustiveOnBest ==> ss.View() == old(ss.View()) && value == value0
  {
    hide Sound, StateOk, Cost, Certified, Ready, MarkedDescent;
    value := value0;
    if p.exhaustiveOnBest {
      var late := o.Past();
      if !late {
        ExhaustiveIsSound(w);
        value := MarkAndDescend(w, nb, EXHAUSTIVE, ss, o);
      }
    }
  }

  /** The full basin treatment: granular descent, then an exhaustive polish. */
  method Basin(w: World, nb: NeighbourLists, p: Params, ss: SearchState, o: Oracle) returns (value: real)
    requires Sound(nb, w.inst.n) && StateOk(w, ss.View()) && FleetOk(w, |ss.tours|)
    modifies ss, o`asked
    ensures BasinTo(w, nb, p, o.late, old(ss.View()), old(o.asked), ss.View(), o.asked)
    ensures Ready(w, nb, nb, ss.View()) && StateOk(w, ss.View()) && FleetOk(w, |ss.tours|) && value == Cost(w, ss.tours)
    ensures ss.tours == old(ss.tours) || Improves(w, old(ss.View()), ss.View())
  {
    hide Sound, StateOk, Cost, Certified, Ready, MarkedDescent, Polished;
    value := MarkAndDescend(w, nb, nb, ss, o);
    value := Polish(w, nb, p, ss, o, value);
  }

  lemma ExhaustiveIsSound(w: World)
    ensures Sound(EXHAUSTIVE, w.inst.n)
  {
  }

  /** try_squeeze: a penalised polish on a copy, adopted only when strictly better. */
  method TrySqueeze(ww: WarpWorld, nb: NeighbourLists, p: Params, ss: SearchState, o: Oracle) returns (adopted: bool)
    requires Consistent(ww) && Sound(nb, ww.w.inst.n) && StateOk(ww.w, ss.View()) && FleetOk(ww.w, |ss.tours|)
    modifies ss, o`asked
    ensures SqueezesTo(ww, nb, p, o.late, old(ss.View()), old(o.asked), adopted, ss.View(), o.asked)
    ensures StateOk(ww.w, ss.View()) && FleetOk(ww.w, |ss.tours|)
    ensures if adopted then Improves(ww.w, old(ss.View()), ss.View()) else ss.View() == old(ss.View())
  {
    hide Consistent, Sound, Cost, Served, AllClients, Load, PhaseBy;
    ghost var start, explored, end;
    var routes;
    adopted, routes, start, explored, end := SqueezePhase(ww, nb, o, ss.tours, p.sqPenalty, p.sqWorkCap);
    assert PhaseTo(ww, nb, o.late, p.sqPenalty, p.sqWorkCap, ss.tours, old(o.asked), adopted, routes, o.asked);
    if !adopted { return; }
    FreshIsOk(ww.w, Priced(ww.w, routes));
    var ok := InitSearchState(ww.w, routes, ss);
  }

  lemma FreshIsOk(w: World, tours: seq<Tour>)
    requires Feasible(w, tours)
    ensures StateOk(w, Fresh(w.inst.n, tours)) && EverythingFresh(w.inst.n, Fresh(w.inst.n, tours))
  {
  }

  // ---------- the fleet-descent phase ----------

  /** Up to fdAttempts dissolve attempts on the live state, within the trigger's work budget. */
  method Attempts(ww: WarpWorld, nb: NeighbourLists, p: Params, run: Run, o: Oracle) returns (dropped: bool)
    requires Consistent(ww) && Sound(nb, ww.w.inst.n) && StateOk(ww.w, run.ss.View()) && |run.pcount| == ww.w.inst.n + 1
    modifies run`pcount, run.ss`tours, o`asked, o`drawn
    ensures FleetTry(SettingOf(ww, nb, p, o), old(Standing(run, o)), dropped, Standing(run, o))
    ensures StateOk(ww.w, run.ss.View()) && |run.pcount| == ww.w.inst.n + 1
    ensures if dropped then |run.ss.tours| < old(|run.ss.tours|) else run.ss.View() == old(run.ss.View())
  {
    hide Consistent, Sound, StateOk, AttemptsTo, FleetDescents.Shrinks;
    var budget: Option<int> := if p.fdWorkCap > 0 then Some(p.fdWorkCap) else None;
    ghost var g0 := FleetDescents.Shrunk(false, run.ss.tours, run.pcount, budget, o.drawn, o.asked);
    ghost var end := g0;
    dropped := false;
    var a: nat := 0;
    AttemptsEnd(ww, nb, p, o.draws, o.late, a, g0);
    while a < p.fdAttempts && !dropped && !(budget.Some? && budget.value <= 0)
      invariant StateOk(ww.w, run.ss.View()) && |run.pcount| == ww.w.inst.n + 1
      invariant if dropped then |run.ss.tours| < old(|run.ss.tours|) else run.ss.View() == old(run.ss.View())
      invariant run.ss.View() == old(run.ss.View()).(tours := run.ss.tours)
      invariant end == FleetDescents.Shrunk(dropped, run.ss.tours, run.pcount, budget, o.drawn, o.asked)
      invariant if dropped then AttemptsTo(ww, nb, p, o.draws, o.late, 0, g0, end)
                else forall g' :: AttemptsTo(ww, nb, p, o.draws, o.late, a, end, g') ==> AttemptsTo(ww, nb, p, o.draws, o.late, 0, g0, g')
      decreases p.fdAttempts - a, !dropped
    {
      ghost var g := end;
      AttemptsEnd(ww, nb, p, o.draws, o.late, a, g);
      var late := o.Past();
      end := g.(at := o.asked);
      if late {
        assert FleetTry(SettingOf(ww, nb, p, o), old(Standing(run, o)), false, Standing(run, o));
        return;
      }
      var pcount, pops;
      ghost var victim, drain;
      dropped, pcount, budget, pops, victim, drain := FleetDescents.FleetDescent(ww, nb, run.ss, o, p.descent, run.pcount, budget);
      run.pcount := pcount;
      end := FleetDescents.Shrunk(dropped, run.ss.tours, run.pcount, budget, o.drawn, o.asked);
      AttemptOn(ww, nb, p, o.draws, o.late, a, g, victim, drain, end);
      a := a + 1;
    }
    if !dropped { AttemptsEnd(ww, nb, p, o.draws, o.late, a, end); }
  }

  lemma AttemptsEnd(ww: WarpWorld, nb: NeighbourLists, p: Params, draws: nat -> nat, late: nat -> bool, a: nat, g: FleetDescents.Shrunk)
    requires Sound(nb, ww.w.inst.n)
    ensures a >= p.fdAttempts || (g.work.Some? && g.work.value <= 0) ==> AttemptsTo(ww, nb, p, draws, late, a, g, g)
    ensures a < p.fdAttempts && !(g.work.Some? && g.work.value <= 0) && late(g.at) ==> AttemptsTo(ww, nb, p, draws, late, a, g, g.(at := g.at + 1))
  {
    hide Sound, AttemptBy;
  }

  /** The state after a basin: priced, and no more routes than before. */
  ghost predicate Settled(w: World, nb: NeighbourLists, ss: SearchState, cand: real, maxRoutes: int)
    reads ss
  {
    && Ready(w, nb, nb, ss.View()) && StateOk(w, ss.View()) && FleetOk(w, |ss.tours|)
    && cand == Cost(w, ss.tours) && |ss.tours| <= maxRoutes
  }

  /** A squeeze of the live state and, when it pays, a basin. */
  method SqueezeBasin(ww: WarpWorld, nb: NeighbourLists, p: Params, ss: SearchState, o: Oracle, on: bool, ghost maxRoutes: int) returns (cand: Option<real>)
    requires Consistent(ww) && Sound(nb, ww.w.inst.n) && StateOk(ww.w, ss.View()) && FleetOk(ww.w, |ss.tours|) && |ss.tours| <= maxRoutes
    modifies ss, o`asked
    ensures SqueezedBasin(ww, nb, p, o.late, on, old(ss.View()), old(o.asked), cand.Some?, ss.View(), o.asked)
    ensures if cand.Some? then Settled(ww.w, nb, ss, cand.value, maxRoutes) else ss.View() == old(ss.View())
  {
    hide Consistent, Sound, StateOk, Cost, Ready, SqueezesTo, BasinTo, SqueezedBasin;
    SqueezeSkipped(ww, nb, p, o.late, on, ss.View(), o.asked);
    ghost var s, at := ss.View(), o.asked;
    cand := None;
    if !on { return; }
    var late := o.Past();
    if late { return; }
    var adopted := TrySqueeze(ww, nb, p, ss, o);
    ghost var m, k := ss.View(), o.asked;
    if adopted {
      var v := Basin(ww.w, nb, p, ss, o);
      cand := Some(v);
    }
    SqueezeTaken(ww, nb, p, o.late, s, at, adopted, m, k, ss.View(), o.asked);
  }

  lemma SqueezeSkipped(ww: WarpWorld, nb: NeighbourLists, p: Params, late: nat -> bool, on: bool, s: State, at: nat)
    requires Sound(nb, ww.w.inst.n)
    ensures !on ==> SqueezedBasin(ww, nb, p, late, on, s, at, false, s, at)
    ensures on && late(at) ==> SqueezedBasin(ww, nb, p, late, on, s, at, false, s, at + 1)
  {
  }

  lemma SqueezeTaken(ww: WarpWorld, nb: NeighbourLists, p: Params, late: nat -> bool, s: State, at: nat, adopted: bool, m: State, k: nat, s': State, at': nat)
    requires Sound(nb, ww.w.inst.n) && !late(at) && SqueezesTo(ww, nb, p, late, s, at + 1, adopted, m, k)
    requires if adopted then BasinTo(ww.w, nb, p, late, m, k, s', at') else s' == m && at' == k
    ensures SqueezedBasin(ww, nb, p, late, true, s, at, adopted, s', at')
  {
    hide SqueezesTo, BasinTo, Sound;
  }

  /** After a drop: basin, and a squeeze with another basin when it pays. */
  method AfterDrop(ww: WarpWorld, nb: NeighbourLists, p: Params, ss: SearchState, o: Oracle, ghost maxRoutes: int) returns (cand: real)
    requires Consistent(ww) && Sound(nb, ww.w.inst.n) && StateOk(ww.w, ss.View()) && FleetOk(ww.w, |ss.tours|) && |ss.tours| <= maxRoutes
    modifies ss, o`asked
    ensures AfterTry(SettingOf(ww, nb, p, o), old(ss.View()), old(o.asked), true, true, ss.View(), o.asked)
    ensures Settled(ww.w, nb, ss, cand, maxRoutes)
  {
    hide Consistent, Sound, StateOk, Cost, Ready, BasinTo, SqueezedBasin;
    cand := Basin(ww.w, nb, p, ss, o);
    ghost var m, k := ss.View(), o.asked;
    var on := p.sqWorkCap > 0;
    var next := SqueezeBasin(ww, nb, p, ss, o, on, maxRoutes);
    assert SqueezedBasin(ww, nb, p, o.late, on, m, k, next.Some?, ss.View(), o.asked);
    assert SqueezedOnce(SettingOf(ww, nb, p, o), m, k, ss.View(), o.asked);
    if next.Some? { cand := next.value; }
  }

  /** Without a drop: a squeeze of the live state; None when it banks nothing. */
  method WithoutDrop(ww: WarpWorld, nb: NeighbourLists, p: Params, ss: SearchState, o: Oracle, ghost maxRoutes: int) returns (cand: Option<real>)
    requires Consistent(ww) && Sound(nb, ww.w.inst.n) && StateOk(ww.w, ss.View()) && FleetOk(ww.w, |ss.tours|) && |ss.tours| <= maxRoutes
    modifies ss, o`asked
    ensures AfterTry(SettingOf(ww, nb, p, o), old(ss.View()), old(o.asked), false, cand.Some?, ss.View(), o.asked)
    ensures if cand.Some? then Settled(ww.w, nb, ss, cand.value, maxRoutes) else ss.View() == old(ss.View())
  {
    hide Consistent, Sound, StateOk, Cost, Ready, SqueezedBasin;
    cand := SqueezeBasin(ww, nb, p, ss, o, FdArmed(ww.w, p) && p.sqWorkCap > 0 && p.sqOnNodrop, maxRoutes);
  }

  /** run_fleet_descent: None leaves the live state as it was; otherwise the returned value prices the
      new live state, which has no more routes. */
  method RunFleetDescent(ww: WarpWorld, nb: NeighbourLists, p: Params, run: Run, o: Oracle) returns (cand: Option<real>)
    requires Consistent(ww) && Base(ww.w, nb, p, run) && Sound(nb, ww.w.inst.n)
    modifies run`pcount, run`best, run`routes, run`published, run`incumbents, run.ss, o`asked, o`drawn
    ensures FleetPhase(SettingOf(ww, nb, p, o), old(Standing(run, o)), cand.Some?, Standing(run, o))
    ensures Base(ww.w, nb, p, run) && |run.ss.tours| <= old(|run.ss.tours|) && run.best <= old(run.best)
    ensures if cand.Some? then cand.value == Cost(ww.w, run.ss.tours) && run.best <= cand.value
            else run.ss.View() == old(run.ss.View()) && run.best == old(run.best)
  {
    hide Consistent, Sound, StateOk, Cost, Ready, BestOk, Agrees, StreamOk, FleetTry, AfterTry, Recorded, Feasible, FleetPhase, CapActive;
    BaseIsFeasible(ww.w, nb, p, run);
    ghost var k0, x0 := |run.ss.tours|, Standing(run, o);
    var dropped := Attempts(ww, nb, p, run, o);
    ghost var y := Standing(run, o);
    FewerRoutesFit(ww.w, p, k0, |run.ss.tours|);
    cand := AfterAttempts(ww, nb, p, run.ss, o, dropped, k0);
    ghost var s', at' := run.ss.View(), o.asked;
    assert Standing(run, o) == y.(s := s', asked := at');
    if cand.Some? {
      FewerRoutesFit(ww.w, p, k0, |run.ss.tours|);
      StateFeasible(ww.w, run.ss.View());
      Record(ww.w, p, run, cand.value, o);
    }
    PhaseEnds(SettingOf(ww, nb, p, o), x0, dropped, y, cand.Some?, s', at');
  }

  /** What follows the attempts. */
  method AfterAttempts(ww: WarpWorld, nb: NeighbourLists, p: Params, ss: SearchState, o: Oracle, dropped: bool, ghost maxRoutes: int) returns (cand: Option<real>)
    requires Consistent(ww) && Sound(nb, ww.w.inst.n) && StateOk(ww.w, ss.View()) && FleetOk(ww.w, |ss.tours|) && |ss.tours| <= maxRoutes
    modifies ss, o`asked
    ensures AfterTry(SettingOf(ww, nb, p, o), old(ss.View()), old(o.asked), dropped, cand.Some?, ss.View(), o.asked)
    ensures if cand.Some? then Settled(ww.w, nb, ss, cand.value, maxRoutes) else !dropped && ss.View() == old(ss.View())
  {
    hide Consistent, Sound, StateOk, AfterTry, FleetOk, Settled;
    if dropped {
      var v := AfterDrop(ww, nb, p, ss, o, maxRoutes);
      cand := Some(v);
    } else {
      cand := WithoutDrop(ww, nb, p, ss, o, maxRoutes);
    }
  }

  lemma PhaseEnds(t: Setting, x: Stage, dropped: bool, y: Stage, found: bool, s': State, at': nat)
    requires t.Ok() && FleetTry(t, x, dropped, y) && AfterTry(t, y.s, y.asked, dropped, found, s', at')
    ensures FleetPhase(t, x, found, if found then Recorded(t.ww.w, t.p, y.(s := s', asked := at')) else y.(s := s', asked := at'))
  {
    hide FleetTry, AfterTry, Recorded, Sound;
  }

  lemma StateFeasible(w: World, s: State)
    requires StateOk(w, s)
    ensures Feasible(w, s.tours)
  {
  }

  /** A trigger of the phase inside the loop: curr keeps pricing whatever the live state is. */
  method Trigger(ww: WarpWorld, nb: NeighbourLists, p: Params, run: Run, o: Oracle)
    requires Consistent(ww) && Live(ww.w, nb, p, run) && Sound(nb, ww.w.inst.n)
    modifies run`pcount, run`best, run`routes, run`published, run`incumbents, run`curr, run.ss, o`asked, o`drawn
    ensures TriggerTo(SettingOf(ww, nb, p, o), old(Standing(run, o)), Standing(run, o))
    ensures Live(ww.w, nb, p, run) && |run.ss.tours| <= old(|run.ss.tours|) && run.best <= old(run.best)
  {
    hide Consistent, Ready, BestOk, StreamOk, Agrees, Cost, FleetPhase, Sound;
    var cand := RunFleetDescent(ww, nb, p, run, o);
    ghost var y := Standing(run, o);
    if cand.Some? { run.curr := cand.value; }
    assert FleetPhase(SettingOf(ww, nb, p, o), old(Standing(run, o)), cand.Some?, y);
  }

  /** A trigger behind a condition, if it is in time. */
  method TriggerIf(ww: WarpWorld, nb: NeighbourLists, p: Params, run: Run, o: Oracle, on: bool)
    requires Consistent(ww) && Live(ww.w, nb, p, run) && Sound(nb, ww.w.inst.n)
    modifies run`pcount, run`best, run`routes, run`published, run`incumbents, run`curr, run.ss, o`asked, o`drawn
    ensures GuardedTrigger(SettingOf(ww, nb, p, o), on, old(Standing(run, o)), Standing(run, o))
    ensures Live(ww.w, nb, p, run) && |run.ss.tours| <= old(|run.ss.tours|) && run.best <= old(run.best)
  {
    hide Consistent, Live, TriggerTo, Sound;
    if !on { return; }
    var late := o.Past();
    if late { return; }
    assert Standing(run, o) == old(Standing(run, o)).(asked := o.asked);
    Trigger(ww, nb, p, run, o);
  }

  // ---------- snapshot and restore ----------

  /** restore_snapshot: rebuild only the routes that differ; the stamps travel with the solution. */
  method RestoreSnapshot(w: World, ss: SearchState, snap: Snapshot)
    modifies ss
    ensures ss.touched == snap.touched && ss.tested == snap.tested && ss.epoch == snap.epoch && |ss.tours| == |snap.vertices|
    ensures forall k :: 0 <= k < |snap.vertices| ==>
              if k < old(|ss.tours|) && old(ss.tours)[k].vertices == snap.vertices[k] then ss.tours[k] == old(ss.tours)[k]
              else |snap.vertices[k]| > 0 && w.price.fold(snap.vertices[k]).Some? ==> ss.tours[k] == Rebuilt(w, snap.vertices[k])
  {
    var m := |snap.vertices|;
    var tours := if |ss.tours| >= m then ss.tours[..m] else ss.tours + seq(m - |ss.tours|, _ => NO_TOUR);
    ghost var entry := tours;
    for k := 0 to m
      invariant |tours| == m && forall j :: k <= j < m ==> tours[j] == entry[j]
      invariant forall j :: 0 <= j < k ==>
                  if entry[j].vertices == snap.vertices[j] then tours[j] == entry[j]
                  else w.price.fold(snap.vertices[j]).Some? ==> tours[j] == Rebuilt(w, snap.vertices[j])
    {
      if tours[k].vertices != snap.vertices[k] {
        var d := w.price.fold(snap.vertices[k]);
        if d.Some? { tours := tours[k := Rebuilt(w, snap.vertices[k])]; }
      }
    }
    ss.tours, ss.touched, ss.tested, ss.epoch := tours, snap.touched, snap.tested, snap.epoch;
    assert forall k :: |old(ss.tours)| <= k < m ==> entry[k] == NO_TOUR;
  }

  /** Restoring over correctly priced tours brings back exactly the snapshot's state. */
  lemma RestoredIsSnapshot(w: World, s0: State, before: seq<Tour>, s: State)
    requires ToursOk(w, s0.tours) && ToursOk(w, before)
    requires var snap := TakeSnapshot(s0);
             && s.touched == snap.touched && s.tested == snap.tested && s.epoch == snap.epoch && |s.tours| == |snap.vertices|
             && forall k :: 0 <= k < |snap.vertices| ==>
                  if k < |before| && before[k].vertices == snap.vertices[k] then s.tours[k] == before[k]
                  else |snap.vertices[k]| > 0 && w.price.fold(snap.vertices[k]).Some? ==> s.tours[k] == Rebuilt(w, snap.vertices[k])
    ensures s == s0
  {
    hide Load;
    forall k | 0 <= k < |s0.tours| ensures s.tours[k] == s0.tours[k] {
      assert TourOk(w, s0.tours[k]);
      if k < |before| { assert TourOk(w, before[k]); }
    }
  }

  method Restore(w: World, ss: SearchState, snap: Snapshot, ghost s0: State)
    requires snap == TakeSnapshot(s0) && ToursOk(w, s0.tours) && ToursOk(w, ss.tours)
    modifies ss
    ensures ss.View() == s0
  {
    hide TakeSnapshot, ToursOk;
    ghost var before := ss.tours;
    RestoreSnapshot(w, ss, snap);
    RestoredIsSnapshot(w, s0, before, ss.View());
  }

  // ---------- one iteration ----------

  /** The kick and the granular descent after it. */
  method KickAndDescend(w: World, nb: NeighbourLists, p: Params, ss: SearchState, o: Oracle) returns (cand: real)
    requires Ready(w, nb, nb, ss.View()) && StateOk(w, ss.View()) && Sound(nb, w.inst.n) && FleetOk(w, |ss.tours|)
    modifies ss, o`asked, o`drawn
    ensures KickDescent(w, nb, p, o.draws, o.late, old(ss.View()), old(o.drawn), old(o.asked), ss.View(), o.drawn, o.asked)
    ensures Ready(w, nb, nb, ss.View()) && StateOk(w, ss.View()) && FleetOk(w, |ss.tours|) && cand == Cost(w, ss.tours)
  {
    hide Sound, StateOk, Cost, Certified, Carries, LocalOptimum, Ready, Descent, Perturbation.PerturbsTo, Perturbation.KickSize, Perturbation.KickStamped;
    ghost var s := ss.View();
    ghost var src, removed;
    var outcome;
    outcome, src, removed := Perturbation.Perturb(w, nb, ss, o, p.kick);
    ghost var m := ss.View();
    if outcome.applied { Perturbation.KickCertifies(w, nb, nb, s, ss.View(), src); }
    ghost var before := |ss.tours|;
    var v := LsDescend(w, nb, ss, o, nb);
    assert Perturbation.PerturbsTo(w, nb, p.kick, o.draws, s, old(o.drawn), outcome, removed, m, o.drawn);
    FewerRoutesFit(w, p, before, |ss.tours|);
    ReadyCert(w, nb, nb, ss.View());
    cand := v.value;
  }

  /** Late acceptance with the cap guard: accept the candidate, or restore the snapshot. */
  method AcceptOrRestore(w: World, nb: NeighbourLists, p: Params, run: Run, cand: real, capReject: bool, snap: Snapshot, ghost s0: State)
    requires Books(w, p, run) && Ready(w, nb, nb, run.ss.View()) && FleetOk(w, |run.ss.tours|) && cand == Cost(w, run.ss.tours) && ToursOk(w, run.ss.tours)
    requires |run.incumbents| > 0 && !capReject ==> !OverCap(w, p, |run.ss.tours|)
    requires snap == TakeSnapshot(s0) && ToursOk(w, s0.tours) && Ready(w, nb, nb, s0) && FleetOk(w, |s0.tours|)
    requires run.curr == Cost(w, s0.tours) && run.best <= run.curr && |run.history| > 0 && run.best <= run.initCost
    requires |run.incumbents| > 0 && (capReject || !(cand < run.curr)) ==> !OverCap(w, p, |s0.tours|)
    requires !capReject ==> run.best <= cand
    requires forall k :: 0 <= k < |run.history| && run.history[k].Some? ==> run.best <= run.history[k].value
    modifies run`curr, run`history, run`historyIdx, run.ss
    ensures Live(w, nb, p, run)
    ensures var slot := old(run.historyIdx) % |old(run.history)|;
            var late := if old(run.history)[slot].None? then old(run.initCost) else old(run.history)[slot].value;
            var accepted := !capReject && (cand < late || cand < old(run.curr));
            && run.curr == (if accepted then cand else old(run.curr))
            && run.ss.View() == (if accepted then old(run.ss.View()) else s0)
            && run.history == (if run.curr < late || old(run.history)[slot].None? then old(run.history)[slot := Some(run.curr)] else old(run.history))
            && run.historyIdx == old(run.historyIdx) + 1
  {
    hide Ready, BestOk, StreamOk, Agrees, Cost, ToursOk, TakeSnapshot;
    var slot := run.historyIdx % |run.history|;
    var slotEmpty := run.history[slot].None?;
    var late := if slotEmpty then run.initCost else run.history[slot].value;
    if !capReject && (cand < late || cand < run.curr) {
      run.curr := cand;
    } else {
      Restore(w, run.ss, snap, s0);
    }
    if run.curr < late || slotEmpty { run.history := run.history[slot := Some(run.curr)]; }
    run.historyIdx := run.historyIdx + 1;
  }

  /** A candidate below the best: polish it exhaustively, then record and publish it. */
  method Improve(w: World, nb: NeighbourLists, p: Params, run: Run, o: Oracle, cand0: real) returns (cand: real)
    requires Books(w, p, run) && Sound(nb, w.inst.n) && Ready(w, nb, nb, run.ss.View()) && StateOk(w, run.ss.View()) && FleetOk(w, |run.ss.tours|)
    requires cand0 == Cost(w, run.ss.tours) && cand0 < run.best
    requires |run.incumbents| > 0 ==> !OverCap(w, p, |run.ss.tours|)
    modifies run`best, run`routes, run`published, run`incumbents, run.ss, o`asked
    ensures Polished(w, p, o.late, old(run.ss.View()), old(o.asked), run.ss.View(), o.asked)
    ensures Standing(run, o) == Recorded(w, p, old(Standing(run, o)).(s := run.ss.View(), asked := o.asked))
    ensures Books(w, p, run) && Ready(w, nb, nb, run.ss.View()) && StateOk(w, run.ss.View()) && FleetOk(w, |run.ss.tours|)
    ensures |run.ss.tours| <= old(|run.ss.tours|) && cand == Cost(w, run.ss.tours) && cand <= cand0 && run.best == cand
    ensures |run.incumbents| > 0 ==> !OverCap(w, p, |run.ss.tours|)
  {
    hide Ready, BestOk, StreamOk, Agrees, Cost, StateOk, Sound, Feasible, Polished, Recorded;
    ghost var k0 := |run.ss.tours|;
    cand := Polish(w, nb, p, run.ss, o, cand0);
    FewerRoutesFit(w, p, k0, |run.ss.tours|);
    StateFeasible(w, run.ss.View());
    Record(w, p, run, cand, o);
  }

  /** One kick of the loop. */
  method Iterate(ww: WarpWorld, nb: NeighbourLists, p: Params, run: Run, o: Oracle)
    requires Live(ww.w, nb, p, run) && Sound(nb, ww.w.inst.n)
    modifies run, run.ss, o`asked, o`drawn
    ensures IterateTo(SettingOf(ww, nb, p, o), old(Standing(run, o)), Standing(run, o))
    ensures Live(ww.w, nb, p, run) && run.best <= old(run.best) && run.split == old(run.split)
    ensures CapActive(ww.w, p) && old(|run.ss.tours|) <= p.kCap ==> |run.ss.tours| <= p.kCap
    ensures CapActive(ww.w, p) && old(|run.ss.tours|) > p.kCap ==> |run.ss.tours| <= old(|run.ss.tours|)
  {
    hide Ready, BestOk, StreamOk, Agrees, Cost, ToursOk, TakeSnapshot, Feasible, StateOk, Sound, FleetOk, KickDescent, Polished, Recorded, Accepted, IterateTo;
    var w := ww.w;
    BaseIsFeasible(w, nb, p, run);
    ghost var s0, x := run.ss.View(), Standing(run, o);
    ghost var t := SettingOf(ww, nb, p, o);
    var snap := TakeSnapshot(run.ss.View());
    var kBefore := |run.ss.tours|;
    var cand := KickAndDescend(w, nb, p, run.ss, o);
    var kAfter := |run.ss.tours|;
    var capReject := CapActive(w, p) && kAfter > (if kBefore > p.kCap then kBefore else p.kCap);
    run.noImprovement := run.noImprovement + 1;
    ghost var y := Standing(run, o);
    ghost var z := Conclude(ww, nb, p, run, o, cand, capReject, snap, s0);
    IterationEnds(t, x, y, z, Standing(run, o));
  }

  /** A candidate below the best, unless the cap rejects it. */
  method ImproveIfBelow(w: World, nb: NeighbourLists, p: Params, run: Run, o: Oracle, cand0: real, capReject: bool) returns (cand: real)
    requires Books(w, p, run) && Sound(nb, w.inst.n) && Ready(w, nb, nb, run.ss.View()) && StateOk(w, run.ss.View()) && FleetOk(w, |run.ss.tours|)
    requires cand0 == Cost(w, run.ss.tours)
    requires |run.incumbents| > 0 && !capReject ==> !OverCap(w, p, |run.ss.tours|)
    modifies run`best, run`routes, run`published, run`incumbents, run`noImprovement, run.ss, o`asked
    ensures var y := old(Standing(run, o));
            if !capReject && cand0 < y.best then
              && Polished(w, p, o.late, y.s, y.asked, run.ss.View(), o.asked)
              && Standing(run, o) == Recorded(w, p, y.(noImprovement := 0, s := run.ss.View(), asked := o.asked))
              && run.best == cand <= cand0 && (|run.incumbents| > 0 ==> !OverCap(w, p, |run.ss.tours|))
            else Standing(run, o) == y && cand == cand0
    ensures Books(w, p, run) && Ready(w, nb, nb, run.ss.View()) && StateOk(w, run.ss.View()) && FleetOk(w, |run.ss.tours|)
    ensures |run.ss.tours| <= old(|run.ss.tours|) && cand == Cost(w, run.ss.tours) && run.best <= old(run.best)
  {
    hide BestOk, StreamOk, Agrees, Ready, Cost, StateOk, Sound, FleetOk, Polished, Recorded, OverCap;
    cand := cand0;
    ghost var y := Standing(run, o);
    if !capReject && cand < run.best {
      run.noImprovement := 0;
      assert Standing(run, o) == y.(noImprovement := 0);
      cand := Improve(w, nb, p, run, o, cand);
    }
  }

  /** The second half of an iteration: polish and record a candidate below the best, then accept or restore. */
  method Conclude(ww: WarpWorld, nb: NeighbourLists, p: Params, run: Run, o: Oracle, cand0: real, capReject: bool, snap: Snapshot, ghost s0: State) returns (ghost z: Stage)
    requires Books(ww.w, p, run) && Sound(nb, ww.w.inst.n) && Ready(ww.w, nb, nb, run.ss.View()) && StateOk(ww.w, run.ss.View())
    requires FleetOk(ww.w, |run.ss.tours|) && cand0 == Cost(ww.w, run.ss.tours)
    requires snap == TakeSnapshot(s0) && ToursOk(ww.w, s0.tours) && Ready(ww.w, nb, nb, s0) && FleetOk(ww.w, |s0.tours|)
    requires run.curr == Cost(ww.w, s0.tours) && run.best <= run.curr && |run.history| > 0 && run.best <= run.initCost
    requires |run.incumbents| > 0 ==> !OverCap(ww.w, p, |s0.tours|)
    requires capReject == CapRejects(ww.w, p, |s0.tours|, |run.ss.tours|)
    requires forall k :: 0 <= k < |run.history| && run.history[k].Some? ==> run.best <= run.history[k].value
    modifies run`best, run`routes, run`published, run`incumbents, run`curr, run`history, run`historyIdx, run`noImprovement, run.ss, o`asked
    ensures Live(ww.w, nb, p, run) && run.best <= old(run.best)
    ensures |run.ss.tours| <= old(|run.ss.tours|) || |run.ss.tours| == |s0.tours|
    ensures capReject ==> |run.ss.tours| == |s0.tours|
    ensures |z.history| > 0 && Standing(run, o) == Accepted(z, Cost(ww.w, z.s.tours), capReject, s0)
    ensures var y := old(Standing(run, o));
            if !capReject && Cost(ww.w, y.s.tours) < y.best then
              Polished(ww.w, p, o.late, y.s, y.asked, z.s, z.asked) && z == Recorded(ww.w, p, y.(noImprovement := 0, s := z.s, asked := z.asked))
            else z == y
  {
    hide Ready, BestOk, StreamOk, Agrees, Cost, ToursOk, TakeSnapshot, Feasible, StateOk, Sound, FleetOk, Polished, Recorded, Accepted;
    var cand := ImproveIfBelow(ww.w, nb, p, run, o, cand0, capReject);
    z := Standing(run, o);
    StateFeasible(ww.w, run.ss.View());
    FeasibleTours(ww.w, run.ss.tours);
    AcceptOrRestore(ww.w, nb, p, run, cand, capReject, snap, s0);
    AcceptedBy(z, Standing(run, o), cand, capReject, s0);
  }

  lemma AcceptedBy(z: Stage, x': Stage, cand: real, capReject: bool, s0: State)
    requires |z.history| > 0 && x' == z.(s := x'.s, curr := x'.curr, history := x'.history, historyIdx := z.historyIdx + 1)
    requires var slot := z.historyIdx % |z.history|;
             var late := if z.history[slot].None? then z.initCost else z.history[slot].value;
             var accepted := !capReject && (cand < late || cand < z.curr);
             && x'.curr == (if accepted then cand else z.curr) && x'.s == (if accepted then z.s else s0)
             && x'.history == (if x'.curr < late || z.history[slot].None? then z.history[slot := Some(x'.curr)] else z.history)
    ensures x' == Accepted(z, cand, capReject, s0)
  {
  }

  lemma IterationEnds(t: Setting, x: Stage, y: Stage, z: Stage, x': Stage)
    requires t.Ok() && KickDescent(t.ww.w, t.nb, t.p, t.draws, t.late, x.s, x.drawn, x.asked, y.s, y.drawn, y.asked)
    requires y == x.(s := y.s, drawn := y.drawn, asked := y.asked, noImprovement := x.noImprovement + 1) && |y.history| > 0 && |z.history| > 0
    requires var w, capReject := t.ww.w, CapRejects(t.ww.w, t.p, |x.s.tours|, |y.s.tours|);
             && (if !capReject && Cost(w, y.s.tours) < y.best then
                   && Polished(w, t.p, t.late, y.s, y.asked, z.s, z.asked)
                   && z == Recorded(w, t.p, y.(noImprovement := 0, s := z.s, asked := z.asked))
                 else z == y)
             && x' == Accepted(z, Cost(w, z.s.tours), capReject, x.s)
    ensures IterateTo(t, x, x')
  {
    hide KickDescent, Polished, Recorded, Accepted, Cost, Sound;
    assert Concludes(t, x.s, y, x');
  }

  lemma FeasibleTours(w: World, tours: seq<Tour>)
    requires Feasible(w, tours)
    ensures ToursOk(w, tours)
  {
  }

  // ---------- the loop ----------

  lemma BestIsFeasible(w: World, nb: NeighbourLists, p: Params, run: Run)
    requires Sound(nb, w.inst.n) && Books(w, p, run)
    ensures forall k :: 0 <= k < |run.routes| ==> w.price.fold(run.routes[k]).Some?
    ensures var tours := Priced(w, run.routes);
            && Feasible(w, tours) && Cost(w, tours) == run.best && |tours| == |run.routes| && FleetOk(w, |tours|)
            && Ready(w, nb, nb, Fresh(w.inst.n, tours))
    ensures |run.incumbents| > 0 ==> !OverCap(w, p, |run.routes|)
  {
    hide Cost, Sound, Ready, Served;
    FreshIsReady(w, nb, nb, Priced(w, run.routes));
  }

  /** Restart to best: a fresh state over the best routes. */
  method BackToBest(w: World, nb: NeighbourLists, p: Params, run: Run) returns (ok: bool)
    requires Live(w, nb, p, run) && Sound(nb, w.inst.n)
    modifies run`curr, run.ss
    ensures ok && Live(w, nb, p, run) && run.curr == run.best && Routes(run.ss.tours) == run.routes
    ensures AllPrice(w, run.routes) && run.ss.View() == Fresh(w.inst.n, Priced(w, run.routes))
  {
    hide Ready, BestOk, StreamOk, Agrees, Cost, Feasible, Sound, Priced, Fresh, Routes;
    BestIsFeasible(w, nb, p, run);
    ok := InitSearchState(w, run.routes, run.ss);
    FreshTours(w.inst.n, Priced(w, run.routes));
    RoutesOfPriced(w, run.routes);
    run.curr := run.best;
  }

  lemma RoutesOfPriced(w: World, routes: seq<seq<int>>)
    requires forall k :: 0 <= k < |routes| ==> w.price.fold(routes[k]).Some?
    ensures Routes(Priced(w, routes)) == routes
  {
  }

  lemma FreshTours(n: nat, tours: seq<Tour>)
    ensures Fresh(n, tours).tours == tours
  {
  }

  /** ... then a fleet-descent phase on it and a cleared history. */
  method Restart(ww: WarpWorld, nb: NeighbourLists, p: Params, run: Run, o: Oracle) returns (ok: bool)
    requires Consistent(ww) && Live(ww.w, nb, p, run) && Sound(nb, ww.w.inst.n)
    modifies run, run.ss, o`asked, o`drawn
    ensures RestartTo(SettingOf(ww, nb, p, o), old(Standing(run, o)), Standing(run, o))
    ensures ok && Live(ww.w, nb, p, run) && run.best <= old(run.best) && run.split == old(run.split)
  {
    hide Consistent, Sound, Base, Cost, GuardedTrigger, Fresh, Priced;
    ghost var t, x := SettingOf(ww, nb, p, o), Standing(run, o);
    ok := BackToBest(ww.w, nb, p, run);
    ghost var x1 := Standing(run, o);
    TriggerIf(ww, nb, p, run, o, FdArmed(ww.w, p));
    ghost var y := Standing(run, o);
    ClearHistory(ww.w, nb, p, run);
    RestartEnds(t, x, x1, y, Standing(run, o));
  }

  lemma RestartEnds(t: Setting, x: Stage, x1: Stage, y: Stage, x': Stage)
    requires t.Ok() && AllPrice(t.ww.w, x.routes) && x1 == x.(s := Fresh(t.ww.w.inst.n, Priced(t.ww.w, x.routes)), curr := x.best)
    requires GuardedTrigger(t, FdArmed(t.ww.w, t.p), x1, y) && x' == y.(history := Blank(|y.history|), historyIdx := 0, noImprovement := 0)
    ensures RestartTo(t, x, x')
  {
    hide GuardedTrigger, Fresh, Priced, Sound;
  }

  method ClearHistory(w: World, nb: NeighbourLists, p: Params, run: Run)
    requires Live(w, nb, p, run)
    modifies run`history, run`historyIdx, run`noImprovement
    ensures Live(w, nb, p, run) && run.noImprovement == 0 && run.historyIdx == 0
    ensures run.history == Blank(|old(run.history)|)
  {
    hide Ready, BestOk, StreamOk, Agrees, Cost;
    run.history := Blank(|run.history|);
    run.historyIdx := 0;
    run.noImprovement := 0;
  }

  /** Nothing was recorded or published. */
  twostate predicate SameBooks(run: Run)
    reads run
  {
    run.best == old(run.best) && run.routes == old(run.routes) && run.incumbents == old(run.incumbents)
  }

  /** The restart of an iteration, if it is due. */
  method RestartIfDue(ww: WarpWorld, nb: NeighbourLists, p: Params, run: Run, o: Oracle) returns (ok: bool)
    requires Consistent(ww) && Live(ww.w, nb, p, run) && Sound(nb, ww.w.inst.n)
    modifies run, run.ss, o`asked, o`drawn, o`looked
    ensures RestartTurn(SettingOf(ww, nb, p, o), old(Standing(run, o)), Standing(run, o))
    ensures ok && Live(ww.w, nb, p, run) && run.best <= old(run.best) && run.split == old(run.split)
  {
    hide Consistent, Sound, Live, RestartTo;
    ok := true;
    var workRestart := o.Fires();
    assert Standing(run, o) == old(Standing(run, o)).(looked := o.looked);
    if run.noImprovement == p.restartNoImprovement || workRestart { ok := Restart(ww, nb, p, run, o); }
  }

  /** The trigger by work, if armed. */
  method WorkTrigger(ww: WarpWorld, nb: NeighbourLists, p: Params, run: Run, o: Oracle)
    requires Consistent(ww) && Live(ww.w, nb, p, run) && Sound(nb, ww.w.inst.n)
    modifies run`pcount, run`best, run`routes, run`published, run`incumbents, run`curr, run.ss, o`asked, o`drawn, o`looked
    ensures WorkTurn(SettingOf(ww, nb, p, o), old(Standing(run, o)), Standing(run, o))
    ensures Live(ww.w, nb, p, run) && run.best <= old(run.best)
  {
    hide Consistent, Sound, Live, GuardedTrigger;
    if FdArmed(ww.w, p) {
      var fire := o.Fires();
      assert Standing(run, o) == old(Standing(run, o)).(looked := o.looked);
      TriggerIf(ww, nb, p, run, o, fire);
    }
  }

  /** One turn of the main loop. */
  method OneTurn(ww: WarpWorld, nb: NeighbourLists, p: Params, run: Run, o: Oracle, iteration: nat) returns (ok: bool)
    requires Consistent(ww) && Live(ww.w, nb, p, run) && Sound(nb, ww.w.inst.n)
    modifies run, run.ss, o`asked, o`drawn, o`looked
    ensures TurnTo(SettingOf(ww, nb, p, o), iteration, old(Standing(run, o)), Standing(run, o))
    ensures ok && Live(ww.w, nb, p, run) && run.best <= old(run.best) && run.split == old(run.split)
  {
    hide Consistent, Sound, Live, RestartTurn, GuardedTrigger, WorkTurn, IterateTo;
    ok := RestartIfDue(ww, nb, p, run, o);
    ghost var y := Standing(run, o);
    TriggerIf(ww, nb, p, run, o, FdArmed(ww.w, p) && p.fdPeriod > 0 && iteration > 0 && iteration % p.fdPeriod == 0);
    ghost var z := Standing(run, o);
    WorkTrigger(ww, nb, p, run, o);
    ghost var v := Standing(run, o);
    Iterate(ww, nb, p, run, o);
    TurnEnds(SettingOf(ww, nb, p, o), iteration, old(Standing(run, o)), y, z, v, Standing(run, o));
  }

  lemma TurnEnds(t: Setting, iteration: nat, x: Stage, y: Stage, z: Stage, v: Stage, x': Stage)
    requires t.Ok() && RestartTurn(t, x, y) && WorkTurn(t, z, v) && IterateTo(t, v, x')
    requires GuardedTrigger(t, FdArmed(t.ww.w, t.p) && t.p.fdPeriod > 0 && iteration > 0 && iteration % t.p.fdPeriod == 0, y, z)
    ensures TurnTo(t, iteration, x, x')
  {
    hide RestartTurn, WorkTurn, IterateTo, GuardedTrigger, Sound;
  }

  /** The main loop. Without a deadline it runs all its iterations. */
  method Loop(ww: WarpWorld, nb: NeighbourLists, p: Params, run: Run, o: Oracle) returns (iterations: nat)
    requires Consistent(ww) && Live(ww.w, nb, p, run) && Sound(nb, ww.w.inst.n)
    modifies run, run.ss, o`asked, o`drawn, o`looked
    ensures LoopTo(SettingOf(ww, nb, p, o), 0, old(Standing(run, o)), iterations, Standing(run, o))
    ensures Live(ww.w, nb, p, run) && run.best <= old(run.best) && run.split == old(run.split)
    ensures p.maxIterations <= 0 ==> SameBooks(run)
    ensures NoDeadline(o.late) ==> iterations == if p.maxIterations > 0 then p.maxIterations else 0
  {
    hide Consistent, Live, Sound, TurnTo, LoopTo;
    iterations := 0;
    ghost var t, x0 := SettingOf(ww, nb, p, o), Standing(run, o);
    while iterations < p.maxIterations
      invariant Live(ww.w, nb, p, run) && run.best <= old(run.best) && run.split == old(run.split)
      invariant iterations == 0 ==> SameBooks(run)
      invariant p.maxIterations <= 0 ==> iterations == 0
      invariant iterations == 0 || iterations <= p.maxIterations
      invariant forall total, x' :: LoopTo(t, iterations, Standing(run, o), total, x') ==> LoopTo(t, 0, x0, total, x')
    {
      ghost var x := Standing(run, o);
      LoopEnds(t, iterations, x);
      var late := o.Past();
      assert Standing(run, o) == x.(asked := x.asked + 1);
      if late { return; }
      var ok := OneTurn(ww, nb, p, run, o, iterations);
      LoopOn(t, iterations, x, Standing(run, o));
      iterations := iterations + 1;
    }
    LoopEnds(t, iterations, Standing(run, o));
  }

  lemma LoopEnds(t: Setting, iteration: nat, x: Stage)
    requires t.Ok()
    ensures iteration >= t.p.maxIterations ==> LoopTo(t, iteration, x, iteration, x)
    ensures iteration < t.p.maxIterations && t.late(x.asked) ==> LoopTo(t, iteration, x, iteration, x.(asked := x.asked + 1))
  {
    hide LoopTurn, Sound;
  }

  /** The seed drain: back-to-back phases while the live state is above the cap and shrinking. */
  method SeedDrain(ww: WarpWorld, nb: NeighbourLists, p: Params, run: Run, o: Oracle)
    requires Consistent(ww) && Live(ww.w, nb, p, run) && Sound(nb, ww.w.inst.n)
    modifies run`pcount, run`best, run`routes, run`published, run`incumbents, run`curr, run.ss, o`asked, o`drawn
    ensures DrainsSeed(SettingOf(ww, nb, p, o), old(Standing(run, o)), Standing(run, o))
    ensures Live(ww.w, nb, p, run) && (ww.w.inst.fixedCost <= 0.0 ==> SameBooks(run)) && run.best <= old(run.best)
  {
    hide Consistent, Live, Sound, SeedDrainTo, TriggerTo;
    if !(FdArmed(ww.w, p) && CapActive(ww.w, p)) { return; }
    ghost var t, x0 := SettingOf(ww, nb, p, o), Standing(run, o);
    while |run.ss.tours| > p.kCap
      invariant Live(ww.w, nb, p, run) && ww.w.inst.fixedCost > 0.0 && run.best <= old(run.best)
      invariant forall x' :: SeedDrainTo(t, Standing(run, o), x') ==> SeedDrainTo(t, x0, x')
      decreases |run.ss.tours|
    {
      ghost var x := Standing(run, o);
      SeedDrainEnds(t, x);
      var late := o.Past();
      assert Standing(run, o) == x.(asked := x.asked + 1);
      if late { return; }
      var kPre := |run.ss.tours|;
      Trigger(ww, nb, p, run, o);
      SeedDrainOn(t, x, Standing(run, o));
      if |run.ss.tours| >= kPre { return; }
    }
    SeedDrainEnds(t, Standing(run, o));
  }

  lemma SeedDrainEnds(t: Setting, x: Stage)
    requires t.Ok()
    ensures |x.s.tours| <= t.p.kCap ==> SeedDrainTo(t, x, x)
    ensures |x.s.tours| > t.p.kCap && t.late(x.asked) ==> SeedDrainTo(t, x, x.(asked := x.asked + 1))
  {
    hide TriggerTo, Sound;
  }

  // ---------- seeding ----------

  /** How the stream stands when the search starts from a seed. */
  ghost predicate Seeded(w: World, p: Params, warm: bool, split: bool, incumbents: seq<Incumbent>, seed: seq<seq<int>>) {
    if split then !CapActive(w, p) && |incumbents| > 0
    else if warm || OverCap(w, p, |seed|) then incumbents == []
    else |incumbents| > 0 && incumbents[|incumbents| - 1].routes == seed
         && SolutionDuration(w, seed) == Some(incumbents[|incumbents| - 1].value)
  }

  ghost predicate GoodSeed(w: World, routes: seq<seq<int>>) {
    PartitionOf(w.inst.n, routes) && WithinCapacity(w, routes) && FleetOk(w, |routes|)
  }

  /** The seed is a proper split of the greedy routes, published after them if it is cheaper. */
  ghost predicate SplitStartBy(w: World, p: Params, greedy: seq<seq<int>>, seed: seq<seq<int>>, incumbents: seq<Incumbent>) {
    var v, v' := SolutionDuration(w, greedy), SolutionDuration(w, seed);
    && RunOutcome(w, false, true, greedy) && SplitsTo(w, greedy, SplitTarget(p, |greedy|), seed) && |seed| > |greedy|
    && v.Some? && v'.Some?
    && incumbents == [Incumbent(v.value, greedy)] + (if v'.value < v.value then [Incumbent(v'.value, seed)] else [])
  }

  /** Nothing came of the splitting: the greedy routes cannot be cut further, or the cut ones do not price. */
  ghost predicate NotSplit(w: World, p: Params) {
    exists greedy, cut ::
      && RunOutcome(w, false, true, greedy) && SplitsTo(w, greedy, SplitTarget(p, |greedy|), cut)
      && (|cut| <= |greedy| || SolutionDuration(w, cut).None?)
  }

  ghost predicate SplitStart(w: World, p: Params, seed: seq<seq<int>>, incumbents: seq<Incumbent>) {
    exists greedy :: SplitStartBy(w, p, greedy, seed, incumbents)
  }

  /** A greedy seed that prices, published at once; under plain Duration it may be split further. */
  method GreedySeed(w: World, p: Params, run: Run) returns (ok: bool, seed: seq<seq<int>>)
    requires run.incumbents == [] && run.published == None && !run.split
    modifies run`published, run`incumbents, run`split
    ensures SeedTo(w, p, [], ok, run.split, seed, run.published, run.incumbents)
    ensures StreamOk(w, p, run.incumbents, run.published)
    ensures ok ==> GoodSeed(w, seed) && (forall k :: 0 <= k < |seed| ==> w.price.fold(seed[k]).Some?)
    ensures ok ==> Seeded(w, p, false, run.split, run.incumbents, seed)
    ensures !ok ==> run.incumbents == [] && !run.split && w.inst.n > 0
    ensures run.split ==> w.inst.fixedCost == 0.0 && p.seedKFactor > 1.0
    ensures ok && run.split ==> w.inst.n >= 1 && SplitStart(w, p, seed, run.incumbents)
    ensures ok && !run.split && w.inst.fixedCost == 0.0 && p.seedKFactor > 1.0 ==> NotSplit(w, p)
  {
    hide PartitionOf, WithinCapacity, SolutionDuration, GreedyFeasible, RoutesFollow, PathFollows, SplitsTo, SeedTo, PublishedAfter, StreamAfter;
    ok, seed := Construct(w, false);
    ghost var built, greedy := ok, seed;
    StuckMeansClients(w, seed);
    if !ok { GreedyFails(w, p, built, greedy, seed); return; }
    var value := ComputeSolutionDuration(w, seed);
    SeedPrices(w, seed);
    if value.None? { GreedyFails(w, p, built, greedy, seed); return false, seed; }
    run.Publish(w, p, value.value, seed);
    ghost var pub, inc := run.published, run.incumbents;
    if !(w.inst.fixedCost == 0.0 && p.seedKFactor > 1.0) {
      GreedyStands(w, p, greedy, greedy, pub, inc);
      return;
    }
    var target := SplitTarget(p, |seed|);
    var any, routes := SplitToK(w, seed, target);
    GreedyStands(w, p, greedy, routes, pub, inc);
    if any {
      var v := ComputeSolutionDuration(w, routes);
      PartitionHasFleet(w, routes);
      if v.Some? {
        run.split := true;
        ghost var incumbents, published := run.incumbents, run.published;
        run.Publish(w, p, v.value, routes);
        if v.value < published.value { PublishKeeps(w, p, incumbents, published, v.value, routes); }
        ClientsExist(w, routes);
        assert SplitStartBy(w, p, seed, routes, run.incumbents);
        GreedySplits(w, p, greedy, routes, pub, inc, run.published, run.incumbents);
        seed := routes;
      }
    }
  }

  lemma GreedyFails(w: World, p: Params, built: bool, greedy: seq<seq<int>>, seed: seq<seq<int>>)
    requires RunOutcome(w, false, built, greedy) && (!built || SolutionDuration(w, greedy).None?)
    ensures SeedTo(w, p, [], false, false, seed, None, [])
  {
    hide RunOutcome, SolutionDuration;
    assert GreedyTo(w, p, built, greedy, false, false, seed, None, []);
  }

  lemma GreedyStands(w: World, p: Params, greedy: seq<seq<int>>, cut: seq<seq<int>>, pub: Option<real>, inc: seq<Incumbent>)
    requires RunOutcome(w, false, true, greedy) && SolutionDuration(w, greedy).Some?
    requires pub == PublishedAfter(w, p, None, SolutionDuration(w, greedy).value, greedy)
    requires inc == StreamAfter(w, p, None, [], SolutionDuration(w, greedy).value, greedy)
    requires w.inst.fixedCost == 0.0 && p.seedKFactor > 1.0 ==> SplitsTo(w, greedy, SplitTarget(p, |greedy|), cut)
    ensures !(w.inst.fixedCost == 0.0 && p.seedKFactor > 1.0 && |cut| > |greedy| && SolutionDuration(w, cut).Some?) ==>
              SeedTo(w, p, [], true, false, greedy, pub, inc)
  {
    hide RunOutcome, SolutionDuration, SplitsTo, PublishedAfter, StreamAfter;
    if !(w.inst.fixedCost == 0.0 && p.seedKFactor > 1.0 && |cut| > |greedy| && SolutionDuration(w, cut).Some?) {
      assert GreedyTo(w, p, true, greedy, true, false, greedy, pub, inc);
    }
  }

  lemma GreedySplits(w: World, p: Params, greedy: seq<seq<int>>, cut: seq<seq<int>>, pub: Option<real>, inc: seq<Incumbent>, pub': Option<real>, inc': seq<Incumbent>)
    requires RunOutcome(w, false, true, greedy) && SolutionDuration(w, greedy).Some? && w.inst.fixedCost == 0.0 && p.seedKFactor > 1.0
    requires pub == PublishedAfter(w, p, None, SolutionDuration(w, greedy).value, greedy)
    requires inc == StreamAfter(w, p, None, [], SolutionDuration(w, greedy).value, greedy)
    requires SplitsTo(w, greedy, SplitTarget(p, |greedy|), cut) && |cut| > |greedy| && SolutionDuration(w, cut).Some?
    requires pub' == PublishedAfter(w, p, pub, SolutionDuration(w, cut).value, cut) && inc' == StreamAfter(w, p, pub, inc, SolutionDuration(w, cut).value, cut)
    ensures SeedTo(w, p, [], true, true, cut, pub', inc')
  {
    hide RunOutcome, SolutionDuration, SplitsTo, PublishedAfter, StreamAfter;
    assert GreedyTo(w, p, true, greedy, true, true, cut, pub', inc');
  }

  lemma StuckMeansClients(w: World, routes: seq<seq<int>>)
    ensures w.inst.n == 0 ==> NobodyLeft(w.inst.n, routes)
  {
    FreeMeansUnused(w.inst.n, routes);
  }

  lemma PartitionHasFleet(w: World, routes: seq<seq<int>>)
    ensures SolutionDuration(w, routes).Some? ==> FleetOk(w, |routes|)
  {
  }

  lemma SeedPrices(w: World, seed: seq<seq<int>>)
    requires PartitionOf(w.inst.n, seed) && GreedyFeasible(w, seed)
    ensures WithinCapacity(w, seed)
    ensures SolutionDuration(w, seed).Some? ==> FleetOk(w, |seed|) && forall k :: 0 <= k < |seed| ==> w.price.fold(seed[k]).Some?
    ensures SolutionDuration(w, seed).None? ==> w.inst.n > 0
  {
    hide Load, Chain, DepotReturnFeasible;
    if SolutionDuration(w, seed).Some? { TotalMeansFolds(w, seed); }
    if w.inst.n == 0 { NoRoutesWithoutClients(w, seed); }
  }

  lemma NoRoutesWithoutClients(w: World, routes: seq<seq<int>>)
    requires w.inst.n == 0 && PartitionOf(w.inst.n, routes)
    ensures routes == []
  {
    if |routes| > 0 { ClientsExist(w, routes); }
  }

  // ---------- solve_ils ----------

  /** The stream after the opening publication agrees with the first best solution. */
  lemma OpeningAgrees(w: World, p: Params, warm: bool, split: bool, incumbents: seq<Incumbent>, published: Option<real>, seed: seq<seq<int>>,
                      tours: seq<Tour>, incumbents': seq<Incumbent>, published': Option<real>)
    requires (forall k :: 0 <= k < |seed| ==> w.price.fold(seed[k]).Some?) && Feasible(w, Priced(w, seed)) && FleetOk(w, |seed|)
    requires Routes(Priced(w, seed)) == seed
    requires Feasible(w, tours) && |tours| <= |seed| && (tours == Priced(w, seed) || Cost(w, tours) < Cost(w, Priced(w, seed)))
    requires StreamOk(w, p, incumbents, published) && Seeded(w, p, warm, split, incumbents, seed)
    requires if OverCap(w, p, |tours|) || (published.Some? && Cost(w, tours) >= published.value)
             then published' == published && incumbents' == incumbents
             else published' == Some(Cost(w, tours)) && incumbents' == incumbents + [Incumbent(Cost(w, tours), Routes(tours))]
    ensures StreamOk(w, p, incumbents', published') && Agrees(w, p, split, incumbents', Cost(w, tours), Routes(tours))
    ensures |incumbents'| > 0 ==> !OverCap(w, p, |tours|)
  {
    hide Feasible, Cost, CapActive, SolutionDuration, BestOk, Priced;
    LiveSolves(w, Priced(w, seed));
    FewerRoutesFit(w, p, |seed|, |tours|);
    LiveSolves(w, tours);
    if !OverCap(w, p, |tours|) && (published.Some? ==> Cost(w, tours) < published.value) {
      PublishKeeps(w, p, incumbents, published, Cost(w, tours), Routes(tours));
    }
  }

  /** No justified move improves the seed. */
  ghost predicate SeedIsOptimal(w: World, nb: NeighbourLists, seed: seq<seq<int>>) {
    && Sound(nb, w.inst.n) && (forall k :: 0 <= k < |seed| ==> w.price.fold(seed[k]).Some?)
    && ToursOk(w, Priced(w, seed)) && LocalOptimum(w, nb, Priced(w, seed))
  }

  /** The first descent from the seed. */
  method FirstDescent(w: World, nb: NeighbourLists, ss: SearchState, o: Oracle, seed: seq<seq<int>>) returns (value: real)
    requires Sound(nb, w.inst.n) && GoodSeed(w, seed) && forall k :: 0 <= k < |seed| ==> w.price.fold(seed[k]).Some?
    requires ss.View() == Fresh(w.inst.n, Priced(w, seed))
    modifies ss, o`asked
    ensures Descent(w, nb, o.late, Fresh(w.inst.n, Priced(w, seed)), old(o.asked), ss.View(), o.asked)
    ensures Feasible(w, Priced(w, seed)) && Routes(Priced(w, seed)) == seed
    ensures Ready(w, nb, nb, ss.View()) && Feasible(w, ss.tours) && FleetOk(w, |ss.tours|) && value == Cost(w, ss.tours)
    ensures |ss.tours| <= |seed| && (ss.tours == Priced(w, seed) || Cost(w, ss.tours) < Cost(w, Priced(w, seed)))
    ensures SeedIsOptimal(w, nb, seed) ==> ss.tours == Priced(w, seed)
  {
    hide PartitionOf, WithinCapacity, Cost, Ready, Sound, Feasible, LocalOptimum, Priced, Descent;
    PartitionIsFeasible(w, seed);
    FreshIsReady(w, nb, nb, Priced(w, seed));
    PricedSize(w, seed);
    var v := LsDescend(w, nb, ss, o, nb);
    ReadyIsInput(w, nb, nb, ss.View());
    value := v.value;
  }

  /** It sets the best solution and completes the opening of the stream. */
  method Open(ww: WarpWorld, nb: NeighbourLists, p: Params, run: Run, o: Oracle, seed: seq<seq<int>>, ghost warm: bool, ghost w: World)
    requires w == ww.w && Sound(nb, w.inst.n) && run.pcount == Zeros(w.inst.n + 1) && o.asked == o.drawn == o.looked == 0 && StreamOk(w, p, run.incumbents, run.published)
    requires (forall k :: 0 <= k < |seed| ==> w.price.fold(seed[k]).Some?) && GoodSeed(w, seed)
    requires Seeded(w, p, warm, run.split, run.incumbents, seed)
    requires run.ss.View() == Fresh(w.inst.n, Priced(w, seed))
    modifies run, run.ss, o`asked
    ensures OpensTo(SettingOf(ww, nb, p, o), seed, old(run.published), old(run.incumbents), Standing(run, o))
    ensures Live(w, nb, p, run) && run.split == old(run.split)
    ensures SeedIsOptimal(w, nb, seed) && old(run.published) != None && Cost(w, Priced(w, seed)) >= old(run.published).value ==>
              run.routes == seed && run.best == Cost(w, Priced(w, seed)) && run.incumbents == old(run.incumbents)
  {
    hide PartitionOf, WithinCapacity, Cost, Ready, BestOk, Sound, Feasible, OverCap, StreamOk, Agrees, Seeded, Priced, Fresh, Routes, FleetOk, GoodSeed, SeedIsOptimal, Descent, PublishedAfter, StreamAfter, OpensTo, Live, SolutionDuration;
    SeedFits(w, seed);
    ghost var published, incumbents := run.published, run.incumbents;
    run.curr := FirstDescent(ww.w, nb, run.ss, o, seed);
    OpenBooks(ww.w, p, run, seed, warm);
    BlankIs(ww.w.inst.n + 1);
    OpenHistory(ww.w, nb, p, run);
    OpenedBy(SettingOf(ww, nb, p, o), seed, published, incumbents, Standing(run, o));
  }

  /** An empty acceptance history that starts from the current value. */
  method OpenHistory(w: World, nb: NeighbourLists, p: Params, run: Run)
    requires Books(w, p, run) && Ready(w, nb, nb, run.ss.View()) && FleetOk(w, |run.ss.tours|) && run.curr == Cost(w, run.ss.tours) && run.best == run.curr
    requires |run.incumbents| > 0 ==> !OverCap(w, p, |run.ss.tours|)
    modifies run`initCost, run`history, run`historyIdx, run`noImprovement
    ensures Live(w, nb, p, run)
    ensures run.initCost == run.curr && run.history == Blank(if p.historyLength > 0 then p.historyLength else 1) && run.historyIdx == 0 && run.noImprovement == 0
  {
    hide Ready, BestOk, StreamOk, Agrees, Cost, FleetOk, OverCap;
    run.initCost := run.curr;
    run.history := Blank(if p.historyLength > 0 then p.historyLength else 1);
    run.historyIdx, run.noImprovement := 0, 0;
    BlankIs(|run.history|);
  }

  lemma OpenedBy(t: Setting, seed: seq<seq<int>>, published: Option<real>, incumbents: seq<Incumbent>, x: Stage)
    requires t.Ok() && (forall k :: 0 <= k < |seed| ==> t.ww.w.price.fold(seed[k]).Some?)
    requires Descent(t.ww.w, t.nb, t.late, Fresh(t.ww.w.inst.n, Priced(t.ww.w, seed)), 0, x.s, x.asked)
    requires x.curr == x.best == x.initCost == Cost(t.ww.w, x.s.tours) && x.routes == Routes(x.s.tours) && x.pcount == Zeros(t.ww.w.inst.n + 1)
    requires x.published == PublishedAfter(t.ww.w, t.p, published, x.best, x.routes)
    requires x.incumbents == StreamAfter(t.ww.w, t.p, published, incumbents, x.best, x.routes)
    requires x.history == Blank(if t.p.historyLength > 0 then t.p.historyLength else 1) && x.historyIdx == 0 && x.noImprovement == 0
    requires x.drawn == 0 && x.looked == 0
    ensures OpensTo(t, seed, published, incumbents, x)
  {
    hide Descent, Cost, Fresh, Priced, Routes, PublishedAfter, StreamAfter, Sound;
  }

  lemma BlankIs(n: nat)
    ensures |Blank(n)| == n && forall k :: 0 <= k < n ==> Blank(n)[k].None?
    ensures |Zeros(n)| == n
  {
  }

  /** The first best solution and its publication. */
  method OpenBooks(w: World, p: Params, run: Run, seed: seq<seq<int>>, ghost warm: bool)
    requires (forall k :: 0 <= k < |seed| ==> w.price.fold(seed[k]).Some?) && Feasible(w, Priced(w, seed)) && FleetOk(w, |seed|)
    requires Routes(Priced(w, seed)) == seed
    requires var tours := run.ss.tours;
             && Feasible(w, tours) && FleetOk(w, |tours|) && |tours| <= |seed| && run.curr == Cost(w, tours)
             && (tours == Priced(w, seed) || Cost(w, tours) < Cost(w, Priced(w, seed)))
    requires StreamOk(w, p, run.incumbents, run.published) && Seeded(w, p, warm, run.split, run.incumbents, seed)
    modifies run`best, run`routes, run`published, run`incumbents
    ensures run.best == run.curr && BestOk(w, run.routes, run.best)
    ensures StreamOk(w, p, run.incumbents, run.published) && Agrees(w, p, run.split, run.incumbents, run.best, run.routes)
    ensures |run.incumbents| > 0 ==> !OverCap(w, p, |run.ss.tours|)
    ensures run.routes == Routes(run.ss.tours)
    ensures run.published == PublishedAfter(w, p, old(run.published), run.best, run.routes)
    ensures run.incumbents == StreamAfter(w, p, old(run.published), old(run.incumbents), run.best, run.routes)
    ensures old(run.published).Some? && run.curr >= old(run.published).value ==> run.incumbents == old(run.incumbents)
  {
    hide Cost, BestOk, Feasible, OverCap, StreamOk, Agrees, Seeded, Priced, Routes, FleetOk;
    ghost var incumbents, published := run.incumbents, run.published;
    LiveSolves(w, run.ss.tours);
    run.best := run.curr;
    run.routes := Routes(run.ss.tours);
    run.Publish(w, p, run.best, run.routes);
    OpeningAgrees(w, p, warm, run.split, incumbents, published, seed, run.ss.tours, run.incumbents, run.published);
  }

  /** The exhaustive polish of the first best solution; the acceptance history starts from its value. */
  method InitialPolish(w: World, nb: NeighbourLists, p: Params, run: Run, o: Oracle)
    requires Live(w, nb, p, run) && Sound(nb, w.inst.n)
    modifies run`curr, run`best, run`routes, run`published, run`incumbents, run`initCost, run.ss, o`asked
    ensures forall t: Setting :: t.ww.w == w && t.p == p && t.late == o.late ==> PolishTo(t, old(Standing(run, o)), Standing(run, o))
    ensures Live(w, nb, p, run) && run.best <= old(run.best) && run.initCost == run.curr
    ensures !p.exhaustiveOnBest ==> SameBooks(run)
  {
    hide Ready, BestOk, StreamOk, Agrees, Cost, StateOk, Sound, Feasible, Polished, Recorded;
    BaseIsFeasible(w, nb, p, run);
    ghost var k0, x := |run.ss.tours|, Standing(run, o);
    run.curr := Polish(w, nb, p, run.ss, o, run.curr);
    FewerRoutesFit(w, p, k0, |run.ss.tours|);
    run.initCost := run.curr;
    ghost var s', at' := run.ss.View(), o.asked;
    assert Standing(run, o) == x.(s := s', asked := at', curr := Cost(w, s'.tours), initCost := Cost(w, s'.tours));
    StateFeasible(w, run.ss.View());
    Record(w, p, run, run.curr, o);
    assert Polished(w, p, o.late, x.s, x.asked, s', at');
  }

  lemma SeedFits(w: World, seed: seq<seq<int>>)
    requires GoodSeed(w, seed)
    ensures FleetOk(w, |seed|)
  {
  }

  lemma PricedSize(w: World, seed: seq<seq<int>>)
    requires forall k :: 0 <= k < |seed| ==> w.price.fold(seed[k]).Some?
    ensures |Priced(w, seed)| == |seed|
  {
  }

  /** solve_ils. The stream is strictly decreasing, every incumbent is priced by its own routes and
      within the cap; a non-empty result is a feasible solution at its stated value, within cap and
      fleet. Unless a split seed was used, the result is the last incumbent, and it is non-empty
      exactly when something was published, provided there is a client at all. */
  method SolveIls(ww: WarpWorld, p: Params, late: nat -> bool, draws: nat -> nat, fires: nat -> bool, initial: seq<seq<int>>)
    returns (result: Result, iterations: nat, ghost split: bool, ghost seed: seq<seq<int>>, ghost nb: NeighbourLists)
    requires Consistent(ww)
    requires |initial| > 0 ==> GoodSeed(ww.w, initial)
    ensures SolvesTo(ww, p, late, draws, fires, initial, split, iterations, result)
    ensures NoDeadline(late) && |result.routes| > 0 ==> iterations == if p.maxIterations > 0 then p.maxIterations else 0
    ensures exists published :: StreamOk(ww.w, p, result.incumbents, published)
    ensures |result.routes| > 0 ==>
              && result.value.Some? && BestOk(ww.w, result.routes, result.value.value) && !OverCap(ww.w, p, |result.routes|)
    ensures split ==> |initial| == 0 && ww.w.inst.fixedCost == 0.0 && p.seedKFactor > 1.0
    ensures (!split || |initial| > 0 || ww.w.inst.fixedCost > 0.0 || p.seedKFactor <= 1.0) && |result.routes| > 0 ==>
              |result.incumbents| > 0 && result.incumbents[|result.incumbents| - 1] == Incumbent(result.value.value, result.routes)
    ensures split ==> |result.incumbents| > 0 && |result.routes| > 0 && result.incumbents[|result.incumbents| - 1].value <= result.value.value
    ensures |initial| == 0 && !split && ww.w.inst.fixedCost == 0.0 && p.seedKFactor > 1.0 && |result.routes| > 0 ==> NotSplit(ww.w, p)
    ensures split && p.maxIterations <= 0 && !p.exhaustiveOnBest ==> OpeningOnly(ww.w, p, seed, nb, result)
    ensures !split ==> ((|result.routes| > 0 <==> |result.incumbents| > 0) <==> ww.w.inst.n >= 1)
  {
    hide Consistent, SplitStart, NotSplit, ListsOf, SeedIsOptimal, StreamOk, BestOk, PartitionOf, WithinCapacity, SolutionDuration, Sound, Live,
         SeedTo, SearchTo, SolvesTo, AllPrice, OpensTo, PolishTo, DrainsSeed, LoopTo;
    var w := ww.w;
    var run := new Run(w.inst.n);
    var o := new Oracle(late, draws, fires);
    split, iterations := false, 0;
    var start := initial;
    seed, nb := start, EXHAUSTIVE;
    EmptyStream(w, p);
    if |initial| > 0 {
      ClientsExist(w, initial);
      WarmSeed(w, p, initial);
    } else {
      var greedy;
      greedy, start := GreedySeed(w, p, run);
      if !greedy {
        SolvesNothing(ww, p, late, draws, fires, initial, false, run.split, start, run.published, run.incumbents);
        return Result([], None, run.incumbents), 0, false, start, nb;
      }
    }
    var lists := BuildNeighbourLists(w.inst, p.numNeighbours, p.weightWait);
    seed, nb := start, lists;
    var ok := InitSearchState(w, start, run.ss);
    SeedPricesIff(w, start, ok);
    if !ok {
      SolvesNothing(ww, p, late, draws, fires, initial, true, run.split, start, run.published, run.incumbents);
      return Result([], None, run.incumbents), 0, false, seed, nb;
    }
    ghost var opening, published := run.incumbents, run.published;
    if run.split { SplitSeedIsAbove(w, p, seed, run.incumbents, run.published); }
    iterations := Search(ww, lists, p, run, o, start, |initial| > 0);
    split := run.split;
    SolvesBy(ww, lists, p, late, draws, fires, initial, split, seed, published, opening, iterations, run, o);
    LiveBooks(w, lists, p, run);
    if CapActive(w, p) && |run.routes| > p.kCap { return Result([], None, run.incumbents), iterations, split, seed, nb; }
    return Result(run.routes, Some(run.best), run.incumbents), iterations, split, seed, nb;
  }

  /** The search from a priced seed on. */
  method Search(ww: WarpWorld, nb: NeighbourLists, p: Params, run: Run, o: Oracle, seed: seq<seq<int>>, ghost warm: bool) returns (iterations: nat)
    requires Consistent(ww) && Sound(nb, ww.w.inst.n) && run.pcount == Zeros(ww.w.inst.n + 1) && o.asked == o.drawn == o.looked == 0
    requires StreamOk(ww.w, p, run.incumbents, run.published)
    requires (forall k :: 0 <= k < |seed| ==> ww.w.price.fold(seed[k]).Some?) && GoodSeed(ww.w, seed)
    requires Seeded(ww.w, p, warm, run.split, run.incumbents, seed) && run.ss.View() == Fresh(ww.w.inst.n, Priced(ww.w, seed))
    modifies run, run.ss, o`asked, o`drawn, o`looked
    ensures Searched(SettingOf(ww, nb, p, o), seed, old(run.published), old(run.incumbents), iterations, Standing(run, o))
    ensures Live(ww.w, nb, p, run) && run.split == old(run.split)
    ensures NoDeadline(o.late) ==> iterations == if p.maxIterations > 0 then p.maxIterations else 0
    ensures SeedIsOptimal(ww.w, nb, seed) && old(run.published) != None && Cost(ww.w, Priced(ww.w, seed)) >= old(run.published).value
            && p.maxIterations <= 0 && !p.exhaustiveOnBest && ww.w.inst.fixedCost <= 0.0 ==>
              run.routes == seed && run.best == Cost(ww.w, Priced(ww.w, seed)) && run.incumbents == old(run.incumbents)
  {
    hide Consistent, SeedIsOptimal, StreamOk, GoodSeed, Sound, Live, Seeded, Fresh, Priced, Cost, OpensTo, PolishTo, DrainsSeed, LoopTo;
    Open(ww, nb, p, run, o, seed, warm, ww.w);
    ghost var a := Standing(run, o);
    InitialPolish(ww.w, nb, p, run, o);
    ghost var b := Standing(run, o);
    SeedDrain(ww, nb, p, run, o);
    ghost var c := Standing(run, o);
    iterations := Loop(ww, nb, p, run, o);
    SearchedBy(SettingOf(ww, nb, p, o), seed, old(run.published), old(run.incumbents), a, b, c, iterations, Standing(run, o));
  }

  lemma SearchedBy(t: Setting, seed: seq<seq<int>>, published: Option<real>, incumbents: seq<Incumbent>, a: Stage, b: Stage, c: Stage, iterations: nat, x: Stage)
    requires t.Ok() && OpensTo(t, seed, published, incumbents, a) && PolishTo(t, a, b) && DrainsSeed(t, b, c) && LoopTo(t, 0, c, iterations, x)
    ensures Searched(t, seed, published, incumbents, iterations, x)
  {
    hide OpensTo, PolishTo, DrainsSeed, LoopTo, Sound;
  }

  lemma SolvesBy(ww: WarpWorld, nb: NeighbourLists, p: Params, late: nat -> bool, draws: nat -> nat, fires: nat -> bool, initial: seq<seq<int>>, split: bool,
                 seed: seq<seq<int>>, published: Option<real>, incumbents: seq<Incumbent>, iterations: nat, run: Run, o: Oracle)
    requires o.late == late && o.draws == draws && o.fires == fires
    requires SeedTo(ww.w, p, initial, true, split, seed, published, incumbents) && AllPrice(ww.w, seed)
    requires ListsOf(ww.w.inst, p.numNeighbours, p.weightWait, nb) && Sound(nb, ww.w.inst.n)
    requires Searched(SettingOf(ww, nb, p, o), seed, published, incumbents, iterations, Standing(run, o))
    ensures SolvesTo(ww, p, late, draws, fires, initial, split, iterations, ResultOf(ww.w, p, Standing(run, o)))
  {
    hide SeedTo, AllPrice, ListsOf, Sound, Searched;
    var t := SettingOf(ww, nb, p, o);
    assert SearchTo(t, seed, published, incumbents, iterations, ResultOf(ww.w, p, Standing(run, o)));
  }

  lemma SolvesNothing(ww: WarpWorld, p: Params, late: nat -> bool, draws: nat -> nat, fires: nat -> bool, initial: seq<seq<int>>, ok: bool, split: bool,
                      seed: seq<seq<int>>, published: Option<real>, incumbents: seq<Incumbent>)
    requires SeedTo(ww.w, p, initial, ok, split, seed, published, incumbents) && (!ok || !AllPrice(ww.w, seed))
    ensures SolvesTo(ww, p, late, draws, fires, initial, split, 0, Result([], None, incumbents))
  {
    hide SeedTo, AllPrice, ListsOf, Sound, SearchTo;
  }

  lemma WarmSeed(w: World, p: Params, initial: seq<seq<int>>)
    requires |initial| > 0
    ensures SeedTo(w, p, initial, true, false, initial, None, [])
  {
  }

  lemma SeedPricesIff(w: World, seed: seq<seq<int>>, ok: bool)
    requires ok <==> forall k :: 0 <= k < |seed| ==> w.price.fold(seed[k]).Some?
    ensures ok <==> AllPrice(w, seed)
  {
  }

  /** A run of no iterations and no polish from a split seed: if the seed is locally optimal under the
      lists of the instance, it is the result, whatever was published before it. */
  ghost predicate OpeningOnly(w: World, p: Params, seed: seq<seq<int>>, nb: NeighbourLists, result: Result) {
    && ListsOf(w.inst, p.numNeighbours, p.weightWait, nb)
    && exists opening ::
         && SplitStart(w, p, seed, opening)
         && (SeedIsOptimal(w, nb, seed) ==> result == Result(seed, SolutionDuration(w, seed), opening))
  }

  /** What was published before the first descent is not above the split seed. */
  lemma SplitSeedIsAbove(w: World, p: Params, seed: seq<seq<int>>, incumbents: seq<Incumbent>, published: Option<real>)
    requires SplitStart(w, p, seed, incumbents) && StreamOk(w, p, incumbents, published) && GoodSeed(w, seed)
    requires forall k :: 0 <= k < |seed| ==> w.price.fold(seed[k]).Some?
    ensures published.Some? && Cost(w, Priced(w, seed)) >= published.value && SolutionDuration(w, seed) == Some(Cost(w, Priced(w, seed)))
  {
    hide PartitionOf, WithinCapacity, Cost, Feasible, SolutionDuration, SplitsTo, RunOutcome, Priced;
    var greedy :| SplitStartBy(w, p, greedy, seed, incumbents);
    PartitionIsFeasible(w, seed);
    PricedSize(w, seed);
    LiveSolves(w, Priced(w, seed));
  }

  lemma EmptyStream(w: World, p: Params)
    ensures StreamOk(w, p, [], None)
  {
  }

  lemma ClientsExist(w: World, routes: seq<seq<int>>)
    requires |routes| > 0 && PartitionOf(w.inst.n, routes)
    ensures w.inst.n >= 1
  {
    assert Clients(w.inst.n, routes[0]) && 1 <= routes[0][0] <= w.inst.n;
  }

  /** What the invariant says at the end. */
  lemma LiveBooks(w: World, nb: NeighbourLists, p: Params, run: Run)
    requires Live(w, nb, p, run)
    ensures StreamOk(w, p, run.incumbents, run.published) && BestOk(w, run.routes, run.best)
    ensures Agrees(w, p, run.split, run.incumbents, run.best, run.routes)
    ensures |run.routes| > 0 <==> w.inst.n >= 1
  {
    hide Ready, Load;
    var tours := Priced(w, run.routes);
    if |tours| > 0 {
      assert TourOk(w, tours[0]) && w.inst.Customer(tours[0].vertices[0]);
    } else {
      ClientCount(w.inst.n);
    }
  }
}
