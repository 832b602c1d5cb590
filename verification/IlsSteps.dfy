/** The iterated local search step by step (cpp/heuristics/ils.cpp): where a run stands, and for every step
    of the search the relation between the stage before it and the stage after it. The streams of deadline
    answers, random draws and work triggers fix everything. */
module SearchSteps {
  import opened Common
  import opened Neighbours
  import opened SearchStates
  import opened Staleness
  import opened Descents
  import Perturbation
  import opened WarpSearches
  import opened Squeezes
  import FleetDescents
  import opened Construction
  import opened Seeds

  datatype Params = Params(
    maxIterations: int, numNeighbours: int, weightWait: real, kick: Perturbation.Params, historyLength: int,
    restartNoImprovement: int, exhaustiveOnBest: bool,
    fdAttempts: int, fdWorkCap: int, fdPeriod: int, descent: FleetDescents.Params,
    sqWorkCap: int, sqPenalty: real, sqOnNodrop: bool, kCap: int, seedKFactor: real)

  /** A published solution, as handed to the incumbent hook. */
  datatype Incumbent = Incumbent(value: real, routes: seq<seq<int>>)

  predicate CapActive(w: World, p: Params) { w.inst.fixedCost > 0.0 && p.kCap > 0 }

  predicate OverCap(w: World, p: Params, k: int) { CapActive(w, p) && k > p.kCap }

  datatype Result = Result(routes: seq<seq<int>>, value: Option<real>, incumbents: seq<Incumbent>)

  /** Where a run stands: the live state, the values and books of the search, the three stream cursors. */
  datatype Stage = Stage(s: State, curr: real, best: real, routes: seq<seq<int>>, published: Option<real>, incumbents: seq<Incumbent>,
                         pcount: seq<int>, history: seq<Option<real>>, historyIdx: nat, initCost: real, noImprovement: int,
                         asked: nat, drawn: nat, looked: nat)

  /** What a search runs with: the pricing, the lists of the instance, the parameters, the streams. */
  datatype Setting = Setting(ww: WarpWorld, nb: NeighbourLists, p: Params, late: nat -> bool, draws: nat -> nat, fires: nat -> bool) {
    ghost predicate Ok() { Sound(nb, ww.w.inst.n) }
  }

  function Zeros(n: nat): seq<int> { seq(n, _ => 0) }

  function Blank(n: nat): seq<Option<real>> { seq(n, _ => None) }

  // ---------- publication ----------

  /** publish: an over-cap or no better solution leaves the stream alone. */
  predicate Publishable(w: World, p: Params, published: Option<real>, value: real, k: int) {
    !OverCap(w, p, k) && (published.Some? ==> value < published.value)
  }

  function StreamAfter(w: World, p: Params, published: Option<real>, incumbents: seq<Incumbent>, value: real, routes: seq<seq<int>>): seq<Incumbent> {
    if Publishable(w, p, published, value, |routes|) then incumbents + [Incumbent(value, routes)] else incumbents
  }

  function PublishedAfter(w: World, p: Params, published: Option<real>, value: real, routes: seq<seq<int>>): Option<real> {
    if Publishable(w, p, published, value, |routes|) then Some(value) else published
  }

  /** The live state becomes the best solution if it is cheaper, and is handed to the publication point. */
  function Recorded(w: World, p: Params, x: Stage): Stage {
    var cand, routes := Cost(w, x.s.tours), Routes(x.s.tours);
    if cand < x.best then
      x.(best := cand, routes := routes, published := PublishedAfter(w, p, x.published, cand, routes),
         incumbents := StreamAfter(w, p, x.published, x.incumbents, cand, routes))
    else x
  }

  // ---------- basins ----------

  /** mark_all_touched, then a descent. */
  ghost predicate MarkedDescent(w: World, lists: NeighbourLists, late: nat -> bool, s: State, at: nat, s': State, at': nat) {
    Descent(w, lists, late, AllTouched(s), at, s', at')
  }

  /** The exhaustive polish, if it is enabled and the deadline is not past. */
  ghost predicate Polished(w: World, p: Params, late: nat -> bool, s: State, at: nat, s': State, at': nat) {
    if !p.exhaustiveOnBest then s' == s && at' == at
    else if late(at) then s' == s && at' == at + 1
    else MarkedDescent(w, EXHAUSTIVE, late, s, at + 1, s', at')
  }

  /** Descent and polish. */
  ghost predicate BasinTo(w: World, nb: NeighbourLists, p: Params, late: nat -> bool, s: State, at: nat, s': State, at': nat) {
    exists m, k :: MarkedDescent(w, nb, late, s, at, m, k) && Polished(w, p, late, m, k, s', at')
  }

  predicate AllPrice(w: World, routes: seq<seq<int>>) {
    forall k :: 0 <= k < |routes| ==> w.price.fold(routes[k]).Some?
  }

  /** try_squeeze. */
  ghost predicate SqueezesTo(ww: WarpWorld, nb: NeighbourLists, p: Params, late: nat -> bool, s: State, at: nat, adopted: bool, s': State, at': nat)
    requires Sound(nb, ww.w.inst.n)
  {
    exists routes ::
      && PhaseTo(ww, nb, late, p.sqPenalty, p.sqWorkCap, s.tours, at, adopted, routes, at')
      && if adopted then AllPrice(ww.w, routes) && s' == Fresh(ww.w.inst.n, Priced(ww.w, routes)) else s' == s
  }

  /** try_squeeze and, when it adopts, a basin; skipped when off or past the deadline. */
  ghost predicate SqueezedBasin(ww: WarpWorld, nb: NeighbourLists, p: Params, late: nat -> bool, on: bool, s: State, at: nat, adopted: bool, s': State, at': nat)
    requires Sound(nb, ww.w.inst.n)
  {
    if !on then !adopted && s' == s && at' == at
    else if late(at) then !adopted && s' == s && at' == at + 1
    else SqueezedFrom(ww, nb, p, late, s, at + 1, adopted, s', at')
  }

  ghost predicate SqueezedFrom(ww: WarpWorld, nb: NeighbourLists, p: Params, late: nat -> bool, s: State, at: nat, adopted: bool, s': State, at': nat)
    requires Sound(nb, ww.w.inst.n)
  {
    exists m, k :: SqueezesTo(ww, nb, p, late, s, at, adopted, m, k)
                   && if adopted then BasinTo(ww.w, nb, p, late, m, k, s', at') else s' == m && at' == k
  }

  // ---------- the fleet-descent phase ----------

  predicate FdArmed(w: World, p: Params) { w.inst.fixedCost > 0.0 && p.fdAttempts > 0 }

  /** The dissolve attempts from the a-th on: until one drops a route, the work runs out or the deadline is past. */
  ghost predicate AttemptsTo(ww: WarpWorld, nb: NeighbourLists, p: Params, draws: nat -> nat, late: nat -> bool, a: nat, g: FleetDescents.Shrunk, g': FleetDescents.Shrunk)
    requires Sound(nb, ww.w.inst.n)
    decreases p.fdAttempts - a
  {
    if a >= p.fdAttempts || (g.work.Some? && g.work.value <= 0) then g' == g
    else if late(g.at) then g' == g.(at := g.at + 1)
    else exists victim, end, r ::
           && AttemptBy(ww, nb, p, draws, late, g, victim, end, r)
           && if r.dropped then g' == r else AttemptsTo(ww, nb, p, draws, late, a + 1, r, g')
  }

  /** One attempt, after the deadline check. */
  ghost predicate AttemptBy(ww: WarpWorld, nb: NeighbourLists, p: Params, draws: nat -> nat, late: nat -> bool, g: FleetDescents.Shrunk,
                            victim: nat, end: FleetDescents.DrainEnd, r: FleetDescents.Shrunk)
    requires Sound(nb, ww.w.inst.n)
  {
    FleetDescents.Shrinks(ww, nb, draws, late, p.descent, g.tours, g.pcount, g.work, g.drawn, g.at + 1, victim, end, r)
  }

  lemma AttemptOn(ww: WarpWorld, nb: NeighbourLists, p: Params, draws: nat -> nat, late: nat -> bool, a: nat, g: FleetDescents.Shrunk,
                  victim: nat, end: FleetDescents.DrainEnd, r: FleetDescents.Shrunk)
    requires Sound(nb, ww.w.inst.n) && a < p.fdAttempts && !(g.work.Some? && g.work.value <= 0) && !late(g.at)
    requires AttemptBy(ww, nb, p, draws, late, g, victim, end, r)
    ensures if r.dropped then AttemptsTo(ww, nb, p, draws, late, a, g, r)
            else forall g' :: AttemptsTo(ww, nb, p, draws, late, a + 1, r, g') ==> AttemptsTo(ww, nb, p, draws, late, a, g, g')
  {
    hide AttemptBy, Sound;
  }

  /** The attempts as one step of the live tours, the difficulty counts and the cursors. */
  ghost predicate FleetTry(t: Setting, x: Stage, dropped: bool, x': Stage)
    requires t.Ok()
  {
    exists g: FleetDescents.Shrunk ::
      && AttemptsTo(t.ww, t.nb, t.p, t.draws, t.late, 0,
                    FleetDescents.Shrunk(false, x.s.tours, x.pcount, if t.p.fdWorkCap > 0 then Some(t.p.fdWorkCap) else None, x.drawn, x.asked), g)
      && dropped == g.dropped && x' == x.(s := x.s.(tours := g.tours), pcount := g.pcount, drawn := g.drawn, asked := g.at)
  }

  /** A squeezed basin, if squeezing is enabled. */
  ghost predicate SqueezedOnce(t: Setting, s: State, at: nat, s': State, at': nat)
    requires t.Ok()
  {
    || SqueezedBasin(t.ww, t.nb, t.p, t.late, t.p.sqWorkCap > 0, s, at, true, s', at')
    || SqueezedBasin(t.ww, t.nb, t.p, t.late, t.p.sqWorkCap > 0, s, at, false, s', at')
  }

  /** What follows the attempts: after a drop a basin and a squeezed basin; without one a squeezed basin if
      the parameters ask for it. */
  ghost predicate AfterTry(t: Setting, s: State, at: nat, dropped: bool, found: bool, s': State, at': nat)
    requires t.Ok()
  {
    if dropped then
      found && exists m, k :: BasinTo(t.ww.w, t.nb, t.p, t.late, s, at, m, k) && SqueezedOnce(t, m, k, s', at')
    else SqueezedBasin(t.ww, t.nb, t.p, t.late, FdArmed(t.ww.w, t.p) && t.p.sqWorkCap > 0 && t.p.sqOnNodrop, s, at, found, s', at')
  }

  /** run_fleet_descent. */
  ghost predicate FleetPhase(t: Setting, x: Stage, found: bool, x': Stage)
    requires t.Ok()
  {
    exists dropped, y, s', at' ::
      && FleetTry(t, x, dropped, y) && AfterTry(t, y.s, y.asked, dropped, found, s', at')
      && x' == (if found then Recorded(t.ww.w, t.p, y.(s := s', asked := at')) else y.(s := s', asked := at'))
  }

  /** A trigger: the current value follows the live state. */
  ghost predicate TriggerTo(t: Setting, x: Stage, x': Stage)
    requires t.Ok()
  {
    exists found, y :: FleetPhase(t, x, found, y) && x' == if found then y.(curr := Cost(t.ww.w, y.s.tours)) else y
  }

  /** A trigger behind a condition and a deadline check. */
  ghost predicate GuardedTrigger(t: Setting, on: bool, x: Stage, x': Stage)
    requires t.Ok()
  {
    if !on then x' == x
    else if t.late(x.asked) then x' == x.(asked := x.asked + 1)
    else TriggerTo(t, x.(asked := x.asked + 1), x')
  }

  // ---------- one iteration ----------

  datatype Snapshot = Snapshot(vertices: seq<seq<int>>, touched: seq<int>, tested: seq<seq<int>>, epoch: int)

  function TakeSnapshot(s: State): Snapshot {
    Snapshot(Routes(s.tours), s.touched, s.tested, s.epoch)
  }

  /** A kick and the descent after it. */
  ghost predicate KickDescent(w: World, nb: NeighbourLists, p: Params, draws: nat -> nat, late: nat -> bool, s: State, drawn: nat, asked: nat,
                              s': State, drawn': nat, asked': nat)
    requires Sound(nb, w.inst.n)
  {
    exists outcome, removed, m :: Perturbation.PerturbsTo(w, nb, p.kick, draws, s, drawn, outcome, removed, m, drawn') && Descent(w, nb, late, m, asked, s', asked')
  }

  /** The candidate has too many routes: more than the cap and more than before the kick. */
  predicate CapRejects(w: World, p: Params, before: int, after: int) {
    CapActive(w, p) && after > (if before > p.kCap then before else p.kCap)
  }

  /** Late acceptance: the candidate, or the state before the kick; the history slot follows. */
  function Accepted(x: Stage, cand: real, capReject: bool, s0: State): Stage
    requires |x.history| > 0
  {
    var slot := x.historyIdx % |x.history|;
    var late := if x.history[slot].None? then x.initCost else x.history[slot].value;
    var y := if !capReject && (cand < late || cand < x.curr) then x.(curr := cand) else x.(s := s0);
    y.(history := if y.curr < late || x.history[slot].None? then x.history[slot := Some(y.curr)] else x.history, historyIdx := x.historyIdx + 1)
  }

  /** One kick of the loop: a candidate below the best is polished and recorded; then late acceptance. */
  ghost predicate IterateTo(t: Setting, x: Stage, x': Stage)
    requires t.Ok()
  {
    exists y: Stage ::
      && KickDescent(t.ww.w, t.nb, t.p, t.draws, t.late, x.s, x.drawn, x.asked, y.s, y.drawn, y.asked)
      && y == x.(s := y.s, drawn := y.drawn, asked := y.asked, noImprovement := x.noImprovement + 1)
      && Concludes(t, x.s, y, x')
  }

  ghost predicate Concludes(t: Setting, s0: State, y: Stage, x': Stage)
    requires t.Ok()
  {
    var w, capReject := t.ww.w, CapRejects(t.ww.w, t.p, |s0.tours|, |y.s.tours|);
    && |y.history| > 0
    && if !capReject && Cost(w, y.s.tours) < y.best then
         exists s', at' :: Polished(w, t.p, t.late, y.s, y.asked, s', at')
                           && x' == Accepted(Recorded(w, t.p, y.(noImprovement := 0, s := s', asked := at')), Cost(w, s'.tours), false, s0)
       else x' == Accepted(y, Cost(w, y.s.tours), capReject, s0)
  }

  // ---------- the loop ----------

  /** Restart to best: a fresh state over the best routes, a fleet-descent phase on it, a cleared history. */
  ghost predicate RestartTo(t: Setting, x: Stage, x': Stage)
    requires t.Ok()
  {
    && AllPrice(t.ww.w, x.routes)
    && exists y :: GuardedTrigger(t, FdArmed(t.ww.w, t.p), x.(s := Fresh(t.ww.w.inst.n, Priced(t.ww.w, x.routes)), curr := x.best), y)
                   && x' == y.(history := Blank(|y.history|), historyIdx := 0, noImprovement := 0)
  }

  /** The restart of an iteration, if it is due. */
  ghost predicate RestartTurn(t: Setting, x: Stage, x': Stage)
    requires t.Ok()
  {
    var y := x.(looked := x.looked + 1);
    if x.noImprovement == t.p.restartNoImprovement || t.fires(x.looked) then RestartTo(t, y, x') else x' == y
  }

  /** The trigger by work, if armed. */
  ghost predicate WorkTurn(t: Setting, x: Stage, x': Stage)
    requires t.Ok()
  {
    if !FdArmed(t.ww.w, t.p) then x' == x else GuardedTrigger(t, t.fires(x.looked), x.(looked := x.looked + 1), x')
  }

  /** One turn of the loop: restart, trigger by period, trigger by work, kick. */
  ghost predicate TurnTo(t: Setting, iteration: nat, x: Stage, x': Stage)
    requires t.Ok()
  {
    exists y, z, v ::
      && RestartTurn(t, x, y)
      && GuardedTrigger(t, FdArmed(t.ww.w, t.p) && t.p.fdPeriod > 0 && iteration > 0 && iteration % t.p.fdPeriod == 0, y, z)
      && WorkTurn(t, z, v) && IterateTo(t, v, x')
  }

  /** A turn after its deadline check. */
  ghost predicate LoopTurn(t: Setting, iteration: nat, x: Stage, x': Stage)
    requires t.Ok()
  {
    !t.late(x.asked) && TurnTo(t, iteration, x.(asked := x.asked + 1), x')
  }

  /** The loop from an iteration on, up to the last one or to a deadline check that says yes. */
  ghost predicate LoopTo(t: Setting, iteration: nat, x: Stage, iterations: nat, x': Stage)
    requires t.Ok()
    decreases t.p.maxIterations - iteration
  {
    if iteration >= t.p.maxIterations then iterations == iteration && x' == x
    else if t.late(x.asked) then iterations == iteration && x' == x.(asked := x.asked + 1)
    else exists y :: LoopTurn(t, iteration, x, y) && LoopTo(t, iteration + 1, y, iterations, x')
  }

  lemma LoopOn(t: Setting, iteration: nat, x: Stage, y: Stage)
    requires t.Ok() && iteration < t.p.maxIterations && LoopTurn(t, iteration, x, y)
    ensures forall iterations, x' :: LoopTo(t, iteration + 1, y, iterations, x') ==> LoopTo(t, iteration, x, iterations, x')
  {
    hide TurnTo;
  }

  /** Stages linked by turns. */
  ghost predicate Turns(t: Setting, iteration: nat, turns: seq<Stage>)
    requires t.Ok()
  {
    forall k :: 0 <= k < |turns| - 1 ==> LoopTurn(t, iteration + k, turns[k], turns[k + 1])
  }

  /** A loop is as many turns as it reports, and stops short of the last iteration only on a deadline check
      that says yes. */
  lemma {:induction false} LoopIsTurns(t: Setting, iteration: nat, x: Stage, iterations: nat, x': Stage) returns (turns: seq<Stage>)
    requires t.Ok() && LoopTo(t, iteration, x, iterations, x')
    ensures iterations >= iteration && |turns| == iterations - iteration + 1 && turns[0] == x && Turns(t, iteration, turns)
    ensures iterations == iteration || iterations <= t.p.maxIterations
    ensures var last := turns[|turns| - 1];
            if iterations < t.p.maxIterations then t.late(last.asked) && x' == last.(asked := last.asked + 1) else x' == last
    decreases t.p.maxIterations - iteration
  {
    hide LoopTurn, Turns;
    if iteration >= t.p.maxIterations || t.late(x.asked) {
      turns := [x];
      OneStage(t, iteration, x);
    } else {
      var y :| LoopTurn(t, iteration, x, y) && LoopTo(t, iteration + 1, y, iterations, x');
      var rest := LoopIsTurns(t, iteration + 1, y, iterations, x');
      turns := [x] + rest;
      TurnsOn(t, iteration, x, rest);
      assert turns[|turns| - 1] == rest[|rest| - 1];
    }
  }

  lemma OneStage(t: Setting, iteration: nat, x: Stage)
    requires t.Ok()
    ensures Turns(t, iteration, [x])
  {
  }

  lemma TurnsOn(t: Setting, iteration: nat, x: Stage, rest: seq<Stage>)
    requires t.Ok() && |rest| > 0 && LoopTurn(t, iteration, x, rest[0]) && Turns(t, iteration + 1, rest)
    ensures Turns(t, iteration, [x] + rest)
  {
    hide LoopTurn;
    var turns := [x] + rest;
    forall k | 0 <= k < |turns| - 1 ensures LoopTurn(t, iteration + k, turns[k], turns[k + 1]) {
      if k > 0 {
        assert turns[k] == rest[k - 1] && turns[k + 1] == rest[k];
        assert iteration + k == iteration + 1 + (k - 1);
      }
    }
  }

  // ---------- before the loop ----------

  /** The first descent and the first best solution. */
  ghost predicate OpensTo(t: Setting, seed: seq<seq<int>>, published: Option<real>, incumbents: seq<Incumbent>, x: Stage)
    requires t.Ok()
  {
    var w := t.ww.w;
    var c, routes := Cost(w, x.s.tours), Routes(x.s.tours);
    && AllPrice(w, seed) && Descent(w, t.nb, t.late, Fresh(w.inst.n, Priced(w, seed)), 0, x.s, x.asked)
    && x == Stage(x.s, c, c, routes, PublishedAfter(w, t.p, published, c, routes), StreamAfter(w, t.p, published, incumbents, c, routes),
                  Zeros(w.inst.n + 1), Blank(if t.p.historyLength > 0 then t.p.historyLength else 1), 0, c, 0, x.asked, 0, 0)
  }

  /** The exhaustive polish of the first best solution. */
  ghost predicate PolishTo(t: Setting, x: Stage, x': Stage) {
    var w := t.ww.w;
    exists s', at' :: Polished(w, t.p, t.late, x.s, x.asked, s', at')
                      && x' == Recorded(w, t.p, x.(s := s', asked := at', curr := Cost(w, s'.tours), initCost := Cost(w, s'.tours)))
  }

  /** The seed drain: phases while above the cap, in time and shrinking. */
  ghost predicate SeedDrainTo(t: Setting, x: Stage, x': Stage)
    requires t.Ok()
    decreases |x.s.tours|
  {
    if |x.s.tours| <= t.p.kCap then x' == x
    else if t.late(x.asked) then x' == x.(asked := x.asked + 1)
    else exists y :: TriggerTo(t, x.(asked := x.asked + 1), y) && if |y.s.tours| < |x.s.tours| then SeedDrainTo(t, y, x') else x' == y
  }

  lemma SeedDrainOn(t: Setting, x: Stage, y: Stage)
    requires t.Ok() && |x.s.tours| > t.p.kCap && !t.late(x.asked) && TriggerTo(t, x.(asked := x.asked + 1), y)
    ensures if |y.s.tours| < |x.s.tours| then forall x' :: SeedDrainTo(t, y, x') ==> SeedDrainTo(t, x, x') else SeedDrainTo(t, x, y)
  {
    hide TriggerTo;
  }

  ghost predicate DrainsSeed(t: Setting, x: Stage, x': Stage)
    requires t.Ok()
  {
    if FdArmed(t.ww.w, t.p) && CapActive(t.ww.w, t.p) then SeedDrainTo(t, x, x') else x' == x
  }

  /** The count the greedy seed is split up to. */
  function SplitTarget(p: Params, k: nat): int { (p.seedKFactor * k as real).Floor }

  /** The seed: the given routes; else the greedy ones, published at once, split further under plain Duration
      where a cut adds a route and prices. */
  ghost predicate SeedTo(w: World, p: Params, initial: seq<seq<int>>, ok: bool, split: bool, seed: seq<seq<int>>, published: Option<real>, incumbents: seq<Incumbent>) {
    if |initial| > 0 then ok && !split && seed == initial && published == None && incumbents == []
    else exists built, greedy :: RunOutcome(w, false, built, greedy) && GreedyTo(w, p, built, greedy, ok, split, seed, published, incumbents)
  }

  ghost predicate GreedyTo(w: World, p: Params, built: bool, greedy: seq<seq<int>>, ok: bool, split: bool, seed: seq<seq<int>>,
                           published: Option<real>, incumbents: seq<Incumbent>) {
    var v := SolutionDuration(w, greedy);
    if !built || v.None? then !ok && !split && published == None && incumbents == []
    else
      var pub, inc := PublishedAfter(w, p, None, v.value, greedy), StreamAfter(w, p, None, [], v.value, greedy);
      && ok
      && if !(w.inst.fixedCost == 0.0 && p.seedKFactor > 1.0) then !split && seed == greedy && published == pub && incumbents == inc
         else exists cut :: SplitsTo(w, greedy, SplitTarget(p, |greedy|), cut) &&
                var v' := SolutionDuration(w, cut);
                if |cut| > |greedy| && v'.Some? then
                  split && seed == cut && published == PublishedAfter(w, p, pub, v'.value, cut) && incumbents == StreamAfter(w, p, pub, inc, v'.value, cut)
                else !split && seed == greedy && published == pub && incumbents == inc
  }

  /** The search from a seed on: opening, polish, seed drain, loop. */
  ghost predicate Searched(t: Setting, seed: seq<seq<int>>, published: Option<real>, incumbents: seq<Incumbent>, iterations: nat, x: Stage)
    requires t.Ok()
  {
    exists a, b, c :: OpensTo(t, seed, published, incumbents, a) && PolishTo(t, a, b) && DrainsSeed(t, b, c) && LoopTo(t, 0, c, iterations, x)
  }

  /** What the search hands back; a best solution over the cap is no result. */
  ghost predicate SearchTo(t: Setting, seed: seq<seq<int>>, published: Option<real>, incumbents: seq<Incumbent>, iterations: nat, result: Result)
    requires t.Ok()
  {
    exists x :: Searched(t, seed, published, incumbents, iterations, x) && result == ResultOf(t.ww.w, t.p, x)
  }

  function ResultOf(w: World, p: Params, x: Stage): Result {
    if CapActive(w, p) && |x.routes| > p.kCap then Result([], None, x.incumbents) else Result(x.routes, Some(x.best), x.incumbents)
  }

  /** solve_ils. */
  ghost predicate SolvesTo(ww: WarpWorld, p: Params, late: nat -> bool, draws: nat -> nat, fires: nat -> bool, initial: seq<seq<int>>,
                           split: bool, iterations: nat, result: Result) {
    exists ok, seed, published, incumbents ::
      && SeedTo(ww.w, p, initial, ok, split, seed, published, incumbents)
      && if !ok || !AllPrice(ww.w, seed) then iterations == 0 && result == Result([], None, incumbents)
         else exists nb :: ListsOf(ww.w.inst, p.numNeighbours, p.weightWait, nb) && Sound(nb, ww.w.inst.n)
                           && SearchTo(Setting(ww, nb, p, late, draws, fires), seed, published, incumbents, iterations, result)
  }
}
