/** Soundness of staleness over whole runs: every state the search can reach, by any mix of commits,
    clean passes, kicks, restores, marks and fresh starts, skips only moves it would not take. */
module SearchRuns {
  import opened Neighbours
  import opened SearchStates
  import opened Staleness
  import opened Descents

  /** How one state follows from the run so far. */
  datatype Step =
    | Commit(a: nat, newA: seq<int>, b: nat, newB: seq<int>)
    | CleanPass(lists: NeighbourLists, op: nat)
    | Surgery(src: seq<int>)
    | Restore(k: nat)
    | MarkAll
    | FreshStart(tours: seq<Tour>)

  /** A run: its states and the step that led to each state after the first. */
  datatype Run = Run(states: seq<State>, steps: seq<Step>)

  /** What each step does. A clean pass proves its operator exhausted under its own lists, the granular
      ones or the exhaustive ones; a restore brings back any earlier state, stamps included. */
  ghost predicate StepOk(w: World, nb: NeighbourLists, run: Run, k: nat)
    requires Sound(nb, w.inst.n) && |run.states| == |run.steps| + 1 && k < |run.steps|
    requires StateOk(w, run.states[k])
  {
    var s, s' := run.states[k], run.states[k + 1];
    match run.steps[k]
    case Commit(a, newA, b, newB) =>
      && a < |s.tours| && b < |s.tours|
      && Commits(w, s.tours, a, newA, b, newB) && Redistributes(w, s.tours, a, newA, b, newB)
      && s' == Committed(w, s, a, newA, b, newB)
    case CleanPass(lists, op) =>
      && Sound(lists, w.inst.n) && Coarser(nb, lists) && op < 4
      && Exhausted(w, lists, s.tours, op) && s' == Stamped(w.inst.n, lists, s, op)
    case Surgery(src) => StateOk(w, s') && Carries(w.inst.n, s, s', src)
    case Restore(i) => i <= k && s' == run.states[i]
    case MarkAll => s' == AllTouched(s)
    case FreshStart(tours) => Feasible(w, tours) && s' == Fresh(w.inst.n, tours)
  }

  ghost predicate Covered(w: World, nb: NeighbourLists, s: State)
    requires Sound(nb, w.inst.n)
  {
    StateOk(w, s) && Certified(w, nb, s)
  }

  /** The first k + 1 states of a run that starts fresh and takes legal steps. */
  ghost predicate IsRun(w: World, nb: NeighbourLists, run: Run, k: nat)
    requires Sound(nb, w.inst.n)
    decreases k
  {
    && |run.states| == |run.steps| + 1 && k < |run.states|
    && if k == 0 then (exists tours :: Feasible(w, tours) && run.states[0] == Fresh(w.inst.n, tours))
       else IsRun(w, nb, run, k - 1) && StateOk(w, run.states[k - 1]) && StepOk(w, nb, run, k - 1)
  }

  lemma OneStep(w: World, nb: NeighbourLists, run: Run, k: nat)
    requires Sound(nb, w.inst.n) && |run.states| == |run.steps| + 1 && k < |run.steps|
    requires forall i :: 0 <= i <= k ==> Covered(w, nb, run.states[i])
    requires StateOk(w, run.states[k]) && StepOk(w, nb, run, k)
    ensures Covered(w, nb, run.states[k + 1])
  {
    hide Certified, StateOk, Carries, Commits, Redistributes, Committed, Exhausted, Stamped, AllTouched, Sound, Feasible;
    var s, s' := run.states[k], run.states[k + 1];
    assert Covered(w, nb, s);
    match run.steps[k]
    case Commit(a, newA, b, newB) => CommitCertifies(w, nb, s, a, newA, b, newB);
    case CleanPass(lists, op) => CleanPassCertifies(w, nb, lists, s, op);
    case Surgery(src) => CarriesCertified(w, nb, s, s', src);
    case Restore(i) => assert Covered(w, nb, run.states[i]);
    case MarkAll => AllTouchedCertifies(w, nb, s);
    case FreshStart(tours) => FreshIsCovered(w, nb, tours);
  }

  lemma FreshIsCovered(w: World, nb: NeighbourLists, tours: seq<Tour>)
    requires Sound(nb, w.inst.n) && Feasible(w, tours)
    ensures Covered(w, nb, Fresh(w.inst.n, tours))
  {
    hide Certified, Feasible;
    FreshCertifies(w, nb, Fresh(w.inst.n, tours));
  }

  /** Every reachable state is feasible and certified: a justified move whose key clients are not
      retested would not be taken on its two route lists. */
  lemma {:induction false} EveryRunIsCertified(w: World, nb: NeighbourLists, run: Run, k: nat)
    requires Sound(nb, w.inst.n) && IsRun(w, nb, run, k)
    ensures forall i :: 0 <= i <= k ==> Covered(w, nb, run.states[i])
    decreases k
  {
    hide Covered, StepOk, Feasible, StateOk;
    if k == 0 {
      var tours :| Feasible(w, tours) && run.states[0] == Fresh(w.inst.n, tours);
      FreshIsCovered(w, nb, tours);
    } else {
      EveryRunIsCertified(w, nb, run, k - 1);
      OneStep(w, nb, run, k - 1);
    }
  }
}
