/** A split seed the search cannot mend (cpp/heuristics/ils.cpp): the greedy route is published, its split
    is dearer, and no justified move leads back. */
module SplitSeeds {
  import opened Common
  import opened Pwlfs
  import opened Composition
  import opened Instances
  import opened Neighbours
  import opened SearchStates
  import opened Staleness
  import opened Descents
  import opened Construction
  import opened Seeds
  import opened ExactPrices
  import opened WarpEvaluation
  import opened Timetables
  import opened SearchSteps
  import opened IteratedSearch

  /** Two pairs of close clients; everything else is far apart. */
  function Miles(i: int, j: int): real {
    if i == 0 || j == 0 then 10.0 else if i + j == 3 || i + j == 7 then 1.0 else 5.0
  }

  const DUE := [100.0, 100.0, 100.0, 100.0, 100.0]

  function Twins(): (inst: Problem)
    ensures Timetable(inst, Miles) && inst.n == 4 && inst.latest == DUE && inst.horizonEnd == 100.0 && inst.fixedCost == 0.0
  {
    TableIsTimetable(4, Miles, DUE, 100.0, 0.0);
    Table(4, Miles, DUE, 100.0, 0.0)
  }

  ghost function TwinWorld(): (w: World)
    ensures w.inst == Twins()
  {
    ExactWorld(Twins())
  }

  const GREEDY: seq<seq<int>> := [[1, 2, 3, 4]]

  const SEED: seq<seq<int>> := [[1, 2], [3, 4]]

  // ---------- prices ----------

  lemma FoldOf(r: seq<int>, length: real, late: real, tEnd: real)
    requires Horizon(Twins(), tEnd) && Prices(ExactSqueeze(Twins(), tEnd), r, 1.0, length, late)
    ensures TwinWorld().price.fold(r) == if late == 0.0 then Some(length) else None
  {
    hide Twins, Horizon;
  }

  lemma PriceList()
    ensures var f := TwinWorld().price.fold;
            && f([1, 2, 3, 4]) == Some(27.0) && f([1, 2]) == Some(21.0) && f([3, 4]) == Some(21.0) && f([2, 1]) == Some(21.0) && f([4, 3]) == Some(21.0)
            && f([1]) == Some(20.0) && f([2, 3, 4]) == Some(26.0) && f([1, 2, 3]) == Some(26.0) && f([4]) == Some(20.0)
  {
    hide Twins, Horizon, ExactSqueeze, Prices, Timetable, TwinWorld, IsWarpHorizon;
    var tEnd := TwinHorizon();
    Price4(Twins(), Miles, 1, 2, 3, 4, 1.0, tEnd);
    Price2(Twins(), Miles, 1, 2, 1.0, tEnd);
    Price2(Twins(), Miles, 3, 4, 1.0, tEnd);
    Price2(Twins(), Miles, 2, 1, 1.0, tEnd);
    Price2(Twins(), Miles, 4, 3, 1.0, tEnd);
    Price1(Twins(), Miles, 1, 1.0, tEnd);
    Price3(Twins(), Miles, 2, 3, 4, 1.0, tEnd);
    Price3(Twins(), Miles, 1, 2, 3, 1.0, tEnd);
    Price1(Twins(), Miles, 4, 1.0, tEnd);
    FoldOf([1, 2, 3, 4], 27.0, 0.0, tEnd);
    FoldOf([1, 2], 21.0, 0.0, tEnd);
    FoldOf([3, 4], 21.0, 0.0, tEnd);
    FoldOf([2, 1], 21.0, 0.0, tEnd);
    FoldOf([4, 3], 21.0, 0.0, tEnd);
    FoldOf([1], 20.0, 0.0, tEnd);
    FoldOf([2, 3, 4], 26.0, 0.0, tEnd);
    FoldOf([1, 2, 3], 26.0, 0.0, tEnd);
    FoldOf([4], 20.0, 0.0, tEnd);
  }

  lemma TwinHorizon() returns (tEnd: real)
    ensures Horizon(Twins(), tEnd)
  {
    tEnd := 200.0;
    var inst := Twins();
    forall i, j | inst.Vertex(i) && inst.Vertex(j)
      ensures forall k :: 0 <= k < |inst.arcs[i][j].ys| ==> inst.arcs[i][j].ys[k] <= tEnd
    {
      assert inst.arcs[i][j] == ArcBetween(Miles, i, j, 100.0);
    }
  }

  // ---------- the greedy run ----------

  /** Nobody free is closer, and ties go to the smaller id. */
  predicate Nearest1(free: seq<bool>, cur: int, next: int)
    requires |free| == 5
  {
    forall u :: 1 <= u <= 4 && free[u] && u != next ==> Miles(cur, next) < Miles(cur, u) || (Miles(cur, next) == Miles(cur, u) && next < u)
  }

  ghost function KeysAt(inst: Problem, cur: int, t: real): seq<Option<real>>
    requires inst.Vertex(cur)
  {
    seq(inst.n + 1, v requires 0 <= v < inst.n + 1 => ReadyNext(inst, cur, v, t))
  }

  lemma GoesTo(free: seq<bool>, cur: int, t: real, next: int)
    requires |free| == 5 && 0 <= cur <= 4 && !free[0] && !free[cur] && 0.0 <= t <= 50.0 && 1 <= next <= 4 && free[next] && Nearest1(free, cur, next)
    ensures Decides(TwinWorld(), false, Point(free, cur, t, 0), Some(next))
  {
    hide Twins, ReadyNext, DepotReturnFeasible, Timetable, Load;
    var w, inst := TwinWorld(), Twins();
    forall v | 1 <= v <= 4 && v != cur ensures ReadyNext(inst, cur, v, t) == Some(t + Miles(cur, v)) { SteadyReady(inst, Miles, cur, v, t); }
    SteadyReady(inst, Miles, next, 0, t + Miles(cur, next));
    NoLoads();
    StartsAtZero();
    var keys := KeysAt(inst, cur, t);
    forall u | Direct(inst, free, cur, t, u) && u != next ensures KeyBefore(keys, next, u) { }
    assert DecidesBy(w, false, Point(free, cur, t, 0), keys, Some(next), Some(next));
  }

  lemma Closes(free: seq<bool>, cur: int, t: real)
    requires |free| == 5 && 0 <= cur <= 4 && (forall v :: 0 <= v <= 4 ==> !free[v]) && 0.0 <= t
    ensures Decides(TwinWorld(), false, Point(free, cur, t, 0), None)
  {
    hide Twins, ReadyNext, DepotReturnFeasible, Timetable, Load;
    var w, inst := TwinWorld(), Twins();
    StartsAtZero();
    assert DecidesBy(w, false, Point(free, cur, t, 0), KeysAt(inst, cur, t), None, None);
  }

  lemma NoLoads()
    ensures Twins().capacity >= 0 && (forall v :: DemandOf(Twins(), v) == 0) && forall r :: Load(Twins(), r) == 0
  {
    hide Twins;
    forall r ensures Load(Twins(), r) == 0 { NoLoad(Twins(), Miles, r); }
  }

  lemma StartsAtZero()
    ensures Twins().horizonStart == 0.0 && DepartureLow(Twins()) == 0.0
  {
    hide Twins;
    assert Twins().Vertex(0);
  }

  lemma ChainStep(from: int, stops: seq<int>, t: real)
    requires 0 <= from <= 4 && Twins().Route(stops) && |stops| > 0 && from != stops[0] && 0.0 <= t <= 50.0
    ensures Chain(Twins(), from, stops, t) == Chain(Twins(), stops[0], stops[1..], t + Miles(from, stops[0]))
  {
    hide Twins, ReadyNext, Timetable;
    SteadyReady(Twins(), Miles, from, stops[0], t);
  }

  const LINE: seq<int> := [1, 2, 3, 4]

  /** When the greedy vehicle is ready after p stops. */
  function Clock(p: nat): real {
    if p == 0 then 0.0 else if p == 1 then 10.0 else if p == 2 then 11.0 else if p == 3 then 16.0 else 17.0
  }

  lemma Clocks(p: nat)
    requires p <= 4
    ensures Twins().Route(LINE) && Chain(Twins(), 0, LINE[..p], 0.0) == Some(Clock(p))
  {
    hide Twins, Chain;
    var r := LINE[..p];
    assert Twins().Route(LINE);
    EmptyChain();
    if p > 0 { ChainStep(0, r, 0.0); }
    if p > 1 { ChainStep(1, r[1..], 10.0); assert r[1..][1..] == r[2..]; }
    if p > 2 { ChainStep(2, r[2..], 11.0); assert r[2..][1..] == r[3..]; }
    if p > 3 { ChainStep(3, r[3..], 16.0); assert r[3..][1..] == r[4..]; }
    assert r[p..] == [];
  }

  lemma EmptyChain()
    ensures forall v, t :: Twins().Vertex(v) ==> Chain(Twins(), v, [], t) == Some(t)
  {
    hide Twins;
  }

  /** Who is free after p stops. */
  function FreeNow(p: nat): seq<bool> {
    seq(5, v => v != 0 && v > p)
  }

  lemma PointIs(p: nat)
    requires p <= 4
    ensures Twins().Route(LINE) && FreeAfter(4, []) == FreeNow(0)
    ensures PointAt(TwinWorld(), FreeAfter(4, []), LINE, p) == Some(Point(FreeNow(p), p, Clock(p), 0))
  {
    hide Twins, Chain, Load;
    Clocks(p);
    NoLoads();
    StartsAtZero();
    assert FreeAfter(4, []) == FreeNow(0);
    assert Last(0, LINE[..p]) == p;
    assert Minus(FreeNow(0), LINE[..p]) == FreeNow(p) by {
      forall v | 0 <= v < 5 ensures v in LINE[..p] <==> 1 <= v <= p { assert 1 <= v <= p ==> LINE[..p][v - 1] == v; }
    }
  }

  lemma GreedyFollows()
    ensures PathFollows(TwinWorld(), false, FreeAfter(4, []), LINE)
  {
    hide Twins, Decides, PointAt, Load;
    var w := TwinWorld();
    PointIs(0);
    StartsAtZero();
    forall p: nat | p <= 4
      ensures PointAt(w, FreeAfter(4, []), LINE, p).Some? && PointOk(w, PointAt(w, FreeAfter(4, []), LINE, p).value)
      ensures Decides(w, false, PointAt(w, FreeAfter(4, []), LINE, p).value, if p < 4 then Some(LINE[p]) else None)
    {
      PointIs(p);
      if p < 4 { GoesTo(FreeNow(p), p, Clock(p), p + 1); } else { Closes(FreeNow(4), 4, 17.0); }
    }
  }

  /** The direct construction returns the one route, and nothing else. */
  lemma GreedyIs(ok: bool, routes: seq<seq<int>>)
    ensures RunOutcome(TwinWorld(), false, true, GREEDY)
    ensures RunOutcome(TwinWorld(), false, ok, routes) ==> ok && routes == GREEDY
  {
    hide Twins, PathFollows, RunOutcome;
    GreedyRuns();
    if RunOutcome(TwinWorld(), false, ok, routes) { ConstructionsCoincide(TwinWorld(), false, ok, routes, true, GREEDY); }
  }

  lemma GreedyRuns()
    ensures RunOutcome(TwinWorld(), false, true, GREEDY)
  {
    hide Twins, PathFollows;
    GreedyFollows();
    PointIs(4);
    assert GREEDY[..0] == [];
    forall v | 1 <= v <= 4 ensures !FreeAfter(4, GREEDY)[v] { assert LINE[v - 1] == v; }
  }

  // ---------- the split ----------

  lemma Cuts()
    ensures LINE[..1] == [1] && LINE[1..] == [2, 3, 4] && LINE[..2] == [1, 2] && LINE[2..] == [3, 4] && LINE[..3] == [1, 2, 3] && LINE[3..] == [4]
    ensures SplitAt(GREEDY, 0, 2) == SEED
  {
  }

  lemma CheapestCut(x: Split)
    ensures IsCheapest(TwinWorld(), GREEDY, x) <==> x == Split(15.0, 0, 2)
  {
    hide Twins, TwinWorld;
    PriceList();
    Cuts();
    var w, best := TwinWorld(), Split(15.0, 0, 2);
    assert IsSplit(w, GREEDY, best);
    forall y | IsSplit(w, GREEDY, y) ensures y == best || SplitBefore(best, y) {
      assert y.pos == 1 || y.pos == 2 || y.pos == 3;
    }
  }

  /** Splitting to two routes gives the pairs, and nothing else. */
  lemma SplitIs(to: seq<seq<int>>)
    ensures SplitsTo(TwinWorld(), GREEDY, 2, to) <==> to == SEED
  {
    hide Twins, TwinWorld;
    var w, best := TwinWorld(), Split(15.0, 0, 2);
    CheapestCut(best);
    CutsAre(w, GREEDY, best);
    Cuts();
    assert SplitsTo(w, SEED, 2, to) <==> to == SEED;
    if SplitsTo(w, GREEDY, 2, to) {
      var x :| IsCheapest(w, GREEDY, x) && SplitsTo(w, SplitAt(GREEDY, x.route, x.pos), 2, to);
      CheapestCut(x);
    }
  }

  lemma Objectives()
    ensures SolutionDuration(TwinWorld(), GREEDY) == Some(27.0) && SolutionDuration(TwinWorld(), SEED) == Some(42.0)
  {
    hide Twins, TwinWorld;
    PriceList();
    var w := TwinWorld();
    assert w.inst == Twins();
    assert GREEDY[..0] == [] && SEED[..1] == [[1, 2]] && [[1, 2]][..0] == [];
    assert FoldTotal(w, []) == Some(0.0) && FoldTotal(w, [[1, 2]]) == Some(21.0);
  }

  // ---------- the neighbours ----------

  lemma TwinArc(i: int, j: int)
    requires 1 <= i <= 4 && 1 <= j <= 4 && i != j
    ensures var a := Twins().arcs[i][j];
            && !IsEmpty(a) && a.xs[0] == 0.0 && a.xs[|a.xs| - 1] == 100.0
            && forall t :: InDom(a, t) ==> 0.0 <= t && Eval(a, t) - t == Miles(i, j)
    ensures EdgeLow(Twins(), i, j) == 0.0 && EdgeHigh(Twins(), i, j) == 100.0
  {
    hide Eval;
    var inst := Twins();
    assert inst.arcs[i][j] == ArcBetween(Miles, i, j, 100.0);
    forall t | InDom(inst.arcs[i][j], t) ensures Eval(inst.arcs[i][j], t) - t == Miles(i, j) { ArcIsSteady(Miles(i, j), 100.0, t); }
  }

  lemma TwinProximity(i: int, j: int, p: Option<real>)
    requires 1 <= i <= 4 && 1 <= j <= 4 && i != j && IsProximity(Twins(), i, j, 0.0, p)
    ensures p == Some(Miles(i, j))
  {
    hide Twins, Eval;
    TwinArc(i, j);
    var a := Twins().arcs[i][j];
    assert InDom(a, 0.0);
    assert EdgeOpen(Twins(), i, j);
    var m :| IsLeastTravel(a, 0.0, 100.0, m) && p.value == m + 0.0 * Max(0.0, Twins().earliest[j] - Eval(a, 100.0));
  }

  lemma TwinMatrix(prox: seq<Row>)
    requires IsProximityMatrix(Twins(), 0.0, prox)
    ensures Square(prox, 4) && forall i, j :: 1 <= i <= 4 && 1 <= j <= 4 && i != j ==> prox[i][j] == Some(Miles(i, j))
  {
    hide Twins, IsProximity;
    forall i, j | 1 <= i <= 4 && 1 <= j <= 4 && i != j ensures prox[i][j] == Some(Miles(i, j)) {
      assert Cell(prox, i, j) == prox[i][j];
      var p, q :| IsProximity(Twins(), i, j, 0.0, p) && IsProximity(Twins(), j, i, 0.0, q) && prox[i][j] == MinOption(p, q);
      TwinProximity(i, j, p);
      TwinProximity(j, i, q);
    }
  }

  function Mate(i: int): int {
    if i == 1 then 2 else if i == 2 then 1 else if i == 3 then 4 else 3
  }

  lemma NearestIsMate(prox: seq<Row>, i: int, j: int)
    requires Square(prox, 4) && 1 <= i <= 4 && 0 <= j <= 4
    requires forall i, j :: 1 <= i <= 4 && 1 <= j <= 4 && i != j ==> prox[i][j] == Some(Miles(i, j))
    ensures Nearest(prox, 1, i, j) ==> j == Mate(i)
  {
    if 1 <= j && j != i && j != Mate(i) {
      assert Mate(i) in CloserSet(prox[i], i, j);
      Subset({Mate(i)}, CloserSet(prox[i], i, j));
    }
  }

  /** With one neighbour each, only mates are neighbours. */
  lemma OnlyMates(nb: NeighbourLists)
    requires ListsOf(Twins(), 1, 0.0, nb)
    ensures Sound(nb, 4) && nb.Restricted()
    ensures forall a, b :: 1 <= a <= 4 && 1 <= b <= 4 && nb.IsNeighbour(a, b) ==> b == Mate(a)
  {
    hide Twins, IsPairProximity, Nearest;
    var prox :| IsProximityMatrix(Twins(), 0.0, prox) && IsUnion(prox, 4, 1, nb.adjacent);
    TwinMatrix(prox);
    forall a, b | 1 <= a <= 4 && 1 <= b <= 4 && nb.IsNeighbour(a, b) ensures b == Mate(a) {
      assert Cell(nb.adjacent, a, b) == nb.adjacent[a][b];
      NearestIsMate(prox, a, b);
      NearestIsMate(prox, b, a);
    }
  }

  // ---------- the split is locally optimal ----------

  lemma SeedIsPartition()
    ensures PartitionOf(4, SEED)
  {
    assert 1 in SEED[0] && 2 in SEED[0] && 3 in SEED[1] && 4 in SEED[1];
    forall v | 1 <= v <= 4 ensures InSome(SEED, v) { assert v == 1 || v == 2 || v == 3 || v == 4; }
  }

  lemma SeedTours()
    ensures var w := TwinWorld();
            && (forall k :: 0 <= k < |SEED| ==> w.price.fold(SEED[k]).Some?)
            && ToursOk(w, Priced(w, SEED)) && Routes(Priced(w, SEED)) == SEED
  {
    hide Twins, TwinWorld, PartitionOf, Load, Timetable;
    var w := TwinWorld();
    PriceList();
    NoLoads();
    SeedIsPartition();
    assert w.inst == Twins();
    PartitionIsFeasible(w, SEED);
  }

  /** Turning a pair round changes nothing. */
  lemma TurningIsIdle(m: Move)
    requires m.Intra? && ValidMove(SEED, m)
    ensures !Takes(TwinWorld(), SEED, m)
  {
    hide Twins, ExactFold, FoldTakes, PrefixAlive;
    PriceList();
    var A := SEED[m.a];
    ExactMove(A, m.i, m.p);
    assert A[..1] == [A[0]] && A[1..] == [A[1]];
    assert MoveWithin(A, m.i, m.p) == [A[1], A[0]];
    TwinRanks(A, m.i, m.p);
  }

  lemma TwinRanks(A: seq<int>, i: nat, p: nat)
    requires i < |A| && p <= |A| && p != i && p != i + 1
    ensures var w := TwinWorld(); w.price.intra(A, i, p) == w.price.fold(MoveWithin(A, i, p)) || w.price.intra(A, i, p).None?
  {
    hide Twins, ExactFold;
    ExactMove(A, i, p);
  }

  lemma SplitIsOptimal(nb: NeighbourLists)
    requires ListsOf(Twins(), 1, 0.0, nb)
    ensures SeedIsOptimal(TwinWorld(), nb, SEED)
  {
    hide Twins, TwinWorld, ListsOf, Takes, ToursOk, Sound, Justified, Priced;
    var w := TwinWorld();
    assert w.inst == Twins();
    OnlyMates(nb);
    SeedTours();
    var tours := Priced(w, SEED);
    RoutesOnClients(w, tours);
    forall m | ValidMove(SEED, m) && Justified(4, nb, SEED, m) ensures !Takes(w, SEED, m) {
      if m.Intra? {
        TurningIsIdle(m);
      } else {
        var key, j := JustifyingArc(w, nb, tours, m);
        assert false;
      }
    }
  }

  // ---------- the whole run ----------

  /** Splitting the greedy seed in two and stopping there. */
  ghost predicate OpeningParams(p: Params) {
    p.numNeighbours == 1 && p.weightWait == 0.0 && p.seedKFactor == 2.0 && p.maxIterations <= 0 && !p.exhaustiveOnBest
  }

  /** The split happens, and the run publishes 27 and returns 42. */
  lemma ResultIsAbove(p: Params, seed: seq<seq<int>>, nb: NeighbourLists, result: Result)
    requires OpeningParams(p)
    ensures !NotSplit(TwinWorld(), p)
    ensures OpeningOnly(TwinWorld(), p, seed, nb, result) ==> result == Result(SEED, Some(42.0), [Incumbent(27.0, GREEDY)])
  {
    hide Twins, TwinWorld, RunOutcome, SplitsTo, SeedIsOptimal, SolutionDuration;
    var w := TwinWorld();
    assert w.inst == Twins();
    assert SplitTarget(p, 1) == 2;
    Objectives();
    forall greedy, to | RunOutcome(w, false, true, greedy) && SplitsTo(w, greedy, SplitTarget(p, |greedy|), to) ensures greedy == GREEDY && to == SEED {
      GreedyIs(true, greedy);
      SplitIs(to);
    }
    if OpeningOnly(w, p, seed, nb, result) {
      SplitIsOptimal(nb);
      var opening :| SplitStart(w, p, seed, opening) && (SeedIsOptimal(w, nb, seed) ==> result == Result(seed, SolutionDuration(w, seed), opening));
      var greedy :| SplitStartBy(w, p, greedy, seed, opening);
    }
  }
}
