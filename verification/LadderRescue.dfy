/** Why a fleet descent with the squeeze ladder can lose more than one route (cpp/ls/fleet_descent.cpp,
    cpp/ls/squeeze.cpp): where the direct drive to a client is too long, its route of one stop can be
    warp-positive, and the repair may empty it. */
module LadderRescues {
  import opened Common
  import opened Instances
  import opened Insertions
  import opened Neighbours
  import opened SearchStates
  import opened Staleness
  import opened Descents
  import opened Repairs
  import opened WarpSearches
  import opened Squeezes
  import opened SqueezeInsertion
  import opened Construction
  import opened Seeds
  import opened WarpEvaluation
  import opened Timetables

  const WEIGHT := 10.0

  /** Client 3 is due at 10, a drive of 15 away from the depot but reached at 3 by way of 2 and 1. */
  function Miles(i: int, j: int): real {
    match (i, j)
    case (0, 1) => 20.0
    case (0, 3) => 15.0
    case (3, 1) => 15.0
    case (0, 2) => 1.0
    case (0, 4) => 1.0
    case (2, 1) => 1.0
    case (1, 3) => 1.0
    case (4, 3) => 1.0
    case (_, 0) => 1.0
    case _ => 50.0
  }

  const DUE := [100.0, 30.0, 100.0, 10.0, 100.0]

  function Valley(): (inst: Problem)
    ensures Timetable(inst, Miles) && inst.n == 4 && inst.latest == DUE && inst.fixedCost == 100.0
  {
    TableIsTimetable(4, Miles, DUE, 100.0, 100.0);
    Table(4, Miles, DUE, 100.0, 100.0)
  }

  ghost function Squeeze(tEnd: real): WarpWorld
    requires Horizon(Valley(), tEnd)
  {
    ExactSqueeze(Valley(), tEnd)
  }

  lemma SqueezeValley(tEnd: real)
    requires Horizon(Valley(), tEnd)
    ensures Squeeze(tEnd).w.inst == Valley()
  {
    hide Valley, Horizon;
  }

  /** Length and lateness of the routes that matter. */
  lemma PriceList(tEnd: real)
    requires Horizon(Valley(), tEnd)
    ensures var ww := Squeeze(tEnd);
            && Prices(ww, [1], WEIGHT, 21.0, 0.0) && Prices(ww, [2], WEIGHT, 2.0, 0.0) && Prices(ww, [3], WEIGHT, 16.0, 5.0)
            && Prices(ww, [4, 3], WEIGHT, 3.0, 0.0) && Prices(ww, [3, 1], WEIGHT, 31.0, 5.0) && Prices(ww, [1, 3], WEIGHT, 22.0, 11.0)
            && Prices(ww, [3, 2], WEIGHT, 66.0, 5.0) && Prices(ww, [2, 3], WEIGHT, 52.0, 41.0) && Prices(ww, [2, 1], WEIGHT, 3.0, 0.0)
            && Prices(ww, [1, 2], WEIGHT, 71.0, 0.0) && Prices(ww, [2, 1, 3], WEIGHT, 4.0, 0.0)
            && Prices(ww, [3, 2, 1], WEIGHT, 67.0, 36.0) && Prices(ww, [2, 3, 1], WEIGHT, 67.0, 41.0)
    ensures var inst := Valley();
            && Drivable(inst, [1]) && Drivable(inst, [2]) && Drivable(inst, [3]) && Drivable(inst, [4, 3]) && Drivable(inst, [3, 1])
            && Drivable(inst, [1, 3]) && Drivable(inst, [3, 2]) && Drivable(inst, [2, 3]) && Drivable(inst, [2, 1]) && Drivable(inst, [1, 2])
            && Drivable(inst, [2, 1, 3]) && Drivable(inst, [3, 2, 1]) && Drivable(inst, [2, 3, 1])
  {
    hide Valley, Prices, ExactSqueeze, Timetable, Horizon, Drivable;
    Price1(Valley(), Miles, 1, WEIGHT, tEnd);
    Price1(Valley(), Miles, 2, WEIGHT, tEnd);
    Price1(Valley(), Miles, 3, WEIGHT, tEnd);
    Price2(Valley(), Miles, 4, 3, WEIGHT, tEnd);
    Price2(Valley(), Miles, 3, 1, WEIGHT, tEnd);
    Price2(Valley(), Miles, 1, 3, WEIGHT, tEnd);
    Price2(Valley(), Miles, 3, 2, WEIGHT, tEnd);
    Price2(Valley(), Miles, 2, 3, WEIGHT, tEnd);
    Price2(Valley(), Miles, 2, 1, WEIGHT, tEnd);
    Price2(Valley(), Miles, 1, 2, WEIGHT, tEnd);
    Price3(Valley(), Miles, 2, 1, 3, WEIGHT, tEnd);
    Price3(Valley(), Miles, 3, 2, 1, WEIGHT, tEnd);
    Price3(Valley(), Miles, 2, 3, 1, WEIGHT, tEnd);
  }

  ghost function Built(tEnd: real, r: seq<int>): WarpTour
    requires Horizon(Valley(), tEnd)
  {
    var t := BuildWarpTour(Squeeze(tEnd), r, WEIGHT);
    if t.Some? then t.value else WarpTour(r, 0.0, 0.0, 0)
  }

  lemma BuiltOne(tEnd: real, r: seq<int>, length: real, late: real)
    requires Horizon(Valley(), tEnd) && Prices(Squeeze(tEnd), r, WEIGHT, length, late)
    ensures var t := Built(tEnd, r);
            && BuildWarpTour(Squeeze(tEnd), r, WEIGHT) == Some(t) && t.vertices == r && t.load == 0 && t.minWarp == late
            && Cost1(Squeeze(tEnd), t, WEIGHT) == length + 9.0 * late
  {
    hide Valley, ExactSqueeze, Horizon;
  }

  lemma BuiltIs(tEnd: real)
    requires Horizon(Valley(), tEnd)
    ensures forall r :: r in [[1], [2], [3], [3, 1], [2, 1], [2, 1, 3]] ==>
              Built(tEnd, r).vertices == r && Built(tEnd, r).load == 0 && BuildWarpTour(Squeeze(tEnd), r, WEIGHT) == Some(Built(tEnd, r))
    ensures Built(tEnd, [2]).minWarp == Built(tEnd, [2, 1]).minWarp == Built(tEnd, [2, 1, 3]).minWarp == 0.0
    ensures Built(tEnd, [3, 1]).minWarp == Built(tEnd, [3]).minWarp == 5.0
  {
    hide Valley, ExactSqueeze, Horizon, Prices, BuildWarpTour, Built, Cost1;
    PriceList(tEnd);
    BuiltOne(tEnd, [1], 21.0, 0.0);
    BuiltOne(tEnd, [2], 2.0, 0.0);
    BuiltOne(tEnd, [3], 16.0, 5.0);
    BuiltOne(tEnd, [3, 1], 31.0, 5.0);
    BuiltOne(tEnd, [2, 1], 3.0, 0.0);
    BuiltOne(tEnd, [2, 1, 3], 4.0, 0.0);
  }

  // ---------- the moves of the repair in closed form ----------

  lemma SteadyRelocates(tEnd: real, states: seq<WarpTour>, r: nat, i: nat, r2: nat, j: nat, removal: real, before: seq<int>, behind: seq<int>)
    requires Horizon(Valley(), tEnd) && r < |states| && r2 < |states| && i < |states[r].vertices| && j < |states[r2].vertices|
    requires states[r2].load == 0 && Drivable(Valley(), before) && Drivable(Valley(), behind)
    requires before == InsertAt(states[r2].vertices, j, states[r].vertices[i]) && behind == InsertAt(states[r2].vertices, j + 1, states[r].vertices[i])
    ensures var ww := Squeeze(tEnd);
            var base := Cost1(ww, states[r], WEIGHT) + Cost1(ww, states[r2], WEIGHT);
            RepairRelocates(ww, states, r, i, r2, j, Some(removal), WEIGHT) ==
            [RepairMove(false, i, r2, j, removal + ww.warp.cost(before, WEIGHT) - base), RepairMove(false, i, r2, j + 1, removal + ww.warp.cost(behind, WEIGHT) - base)]
  {
    hide Drivable, ExactSqueeze, Horizon, Valley;
    var inst, A, B := Valley(), states[r].vertices, states[r2].vertices;
    assert A[i..i + 1] == [A[i]];
    assert Splicing.Spliced(B, j, j - 1, A, i, i) == before;
    assert Splicing.Spliced(B, j + 1, j, A, i, i) == behind;
    SteadySplice(inst, Miles, B, j, j - 1, A, i, i, WEIGHT, tEnd, before);
    SteadySplice(inst, Miles, B, j + 1, j, A, i, i, WEIGHT, tEnd, behind);
    SqueezeValley(tEnd);
  }

  lemma SteadySwaps(tEnd: real, states: seq<WarpTour>, r: nat, i: nat, r2: nat, j: nat, a: seq<int>, b: seq<int>)
    requires Horizon(Valley(), tEnd) && r < |states| && r2 < |states| && i < |states[r].vertices| && j < |states[r2].vertices|
    requires states[r].load == states[r2].load == 0 && Drivable(Valley(), a) && Drivable(Valley(), b)
    requires a == states[r].vertices[i := states[r2].vertices[j]] && b == states[r2].vertices[j := states[r].vertices[i]]
    ensures var ww := Squeeze(tEnd);
            var base := Cost1(ww, states[r], WEIGHT) + Cost1(ww, states[r2], WEIGHT);
            RepairSwaps(ww, states, r, i, r2, j, WEIGHT) == [RepairMove(true, i, r2, j, ww.warp.cost(a, WEIGHT) + ww.warp.cost(b, WEIGHT) - base)]
  {
    hide Drivable, ExactSqueeze, Horizon, Valley;
    var inst, A, B := Valley(), states[r].vertices, states[r2].vertices;
    assert A[i..i + 1] == [A[i]] && B[j..j + 1] == [B[j]];
    assert Splicing.Spliced(A, i, i, B, j, j) == a;
    assert Splicing.Spliced(B, j, j, A, i, i) == b;
    SteadySplice(inst, Miles, A, i, i, B, j, j, WEIGHT, tEnd, a);
    SteadySplice(inst, Miles, B, j, j, A, i, i, WEIGHT, tEnd, b);
    SqueezeValley(tEnd);
  }

  // ---------- the run ----------

  lemma Edits()
    ensures InsertAt([1], 0, 3) == [3, 1] && InsertAt([1], 1, 3) == [1, 3] && InsertAt([2], 0, 3) == [3, 2] && InsertAt([2], 1, 3) == [2, 3]
    ensures InsertAt([2], 0, 1) == [1, 2] && InsertAt([2], 1, 1) == [2, 1]
    ensures InsertAt([2, 1], 0, 3) == [3, 2, 1] && InsertAt([2, 1], 1, 3) == [2, 3, 1] && InsertAt([2, 1], 2, 3) == [2, 1, 3]
    ensures RemoveAt([3, 1], 0) == [1] && RemoveAt([3, 1], 1) == [3]
  {
  }

  /** Client 3 has no feasible slot, not even alone. */
  lemma NowhereToGo(tEnd: real)
    requires Horizon(Valley(), tEnd)
    ensures var w := Squeeze(tEnd).w;
            && w.price.fold([3]).None?
            && forall tours: seq<Tour> :: Routes(tours) == [[1], [2]] ==> NoPlace(w, tours, 3)
  {
    hide Valley, ExactSqueeze, Horizon, PrefixReaches, InsertAt, Load;
    PriceList(tEnd);
    Edits();
    var w := Squeeze(tEnd).w;
    forall tours: seq<Tour> | Routes(tours) == [[1], [2]] ensures NoPlace(w, tours, 3) {
      forall y | IsSlot(w, tours, 3, y) ensures w.price.fold(EditedAt(tours, 3, y)).None? {
        assert tours[y.route].vertices == Routes(tours)[y.route];
      }
    }
  }

  /** Forced in, it goes before client 1. */
  lemma ForcedSlots(tEnd: real, y: Candidate)
    requires Horizon(Valley(), tEnd)
    requires var ww := Squeeze(tEnd); ForcedSlot(ww, [Built(tEnd, [1]), Built(tEnd, [2])], 3, WEIGHT, y)
    ensures y == Candidate(55.0, 0, 0) || Before(Candidate(55.0, 0, 0), y)
  {
    hide Valley, ExactSqueeze, Horizon, Drivable, Built, BuildWarpTour, Load;
    PriceList(tEnd);
    BuiltIs(tEnd);
    if y.route == 0 && y.position == 0 { ForcedPrice(tEnd, [1], 0, [3, 1]); }
    if y.route == 0 && y.position == 1 { ForcedPrice(tEnd, [1], 1, [1, 3]); }
    if y.route == 1 && y.position == 0 { ForcedPrice(tEnd, [2], 0, [3, 2]); }
    if y.route == 1 && y.position == 1 { ForcedPrice(tEnd, [2], 1, [2, 3]); }
  }

  lemma ForcedPrice(tEnd: real, B: seq<int>, p: nat, r: seq<int>)
    requires Horizon(Valley(), tEnd) && p <= |B| && r == InsertAt(B, p, 3) && Drivable(Valley(), r)
    ensures Squeeze(tEnd).warp.splice(B, p, p - 1, [3], 0, 0, WEIGHT) == Some(Squeeze(tEnd).warp.cost(r, WEIGHT))
  {
    hide Valley, ExactSqueeze, Horizon, Drivable;
    assert [3][0..1] == [3];
    assert Splicing.Spliced(B, p, p - 1, [3], 0, 0) == r;
    SteadySplice(Valley(), Miles, B, p, p - 1, [3], 0, 0, WEIGHT, tEnd, r);
  }

  lemma ForcedFirst(tEnd: real)
    requires Horizon(Valley(), tEnd)
    ensures ForcedSlot(Squeeze(tEnd), [Built(tEnd, [1]), Built(tEnd, [2])], 3, WEIGHT, Candidate(55.0, 0, 0))
  {
    hide Valley, ExactSqueeze, Horizon, Drivable, Built, BuildWarpTour, Load;
    PriceList(tEnd);
    BuiltIs(tEnd);
    Edits();
    SqueezeValley(tEnd);
    ForcedPrice(tEnd, [1], 0, [3, 1]);
  }

  const SWAP_OUT := RepairMove(true, 0, 1, 0, -14.0)

  const MOVE_ON := RepairMove(false, 0, 0, 2, -60.0)

  /** The index of the two states. */
  const ROUTE_OF1: seq<int> := [-1, 0, 1, 0, -1]
  const POS_OF1: seq<int> := [-1, 1, 0, 0, -1]
  const ROUTE_OF2: seq<int> := [-1, 0, 0, 1, -1]
  const POS_OF2: seq<int> := [-1, 1, 0, 0, -1]

  ghost function Forced(tEnd: real): seq<WarpTour>
    requires Horizon(Valley(), tEnd)
  {
    [Built(tEnd, [3, 1]), Built(tEnd, [2])]
  }

  ghost function Swapped(tEnd: real): seq<WarpTour>
    requires Horizon(Valley(), tEnd)
  {
    [Built(tEnd, [2, 1]), Built(tEnd, [3])]
  }

  lemma NoDemand()
    ensures Valley().capacity >= 0 && forall v :: DemandOf(Valley(), v) == 0
  {
    hide Valley;
  }

  lemma MovesFit(tEnd: real)
    requires Horizon(Valley(), tEnd)
    ensures RepairFits(Squeeze(tEnd), Forced(tEnd), 0, SWAP_OUT) && RepairFits(Squeeze(tEnd), Swapped(tEnd), 1, MOVE_ON)
    ensures Forced(tEnd)[0].vertices == [3, 1] && Swapped(tEnd)[1].vertices == [3]
  {
    hide Valley, ExactSqueeze, Horizon, Built, BuildWarpTour, Load;
    BuiltIs(tEnd);
    SqueezeValley(tEnd);
    NoDemand();
  }

  lemma SwapBeatsFirst(tEnd: real)
    requires Horizon(Valley(), tEnd)
    ensures var ww, states := Squeeze(tEnd), Forced(tEnd);
            && |states[0].vertices| == 2
            && Beats(Some(SWAP_OUT), RepairMoves(ww, states, ROUTE_OF1, POS_OF1, 0, 0, 2, RemovalCost(ww, states[0], 0, WEIGHT), WEIGHT))
  {
    hide Valley, ExactSqueeze, Horizon, Drivable, Built, BuildWarpTour, Load, RemovalCost, RepairRelocates, RepairSwaps, InsertAt, RemoveAt, Timetable;
    BuiltIs(tEnd);
    PriceList(tEnd);
    Edits();
    var states := Forced(tEnd);
    SteadyRemoval(Valley(), Miles, states[0], 0, WEIGHT, tEnd);
    SteadyRelocates(tEnd, states, 0, 0, 1, 0, 21.0, [3, 2], [2, 3]);
    SteadySwaps(tEnd, states, 0, 0, 1, 0, [2, 1], [3]);
  }

  lemma SwapBeatsSecond(tEnd: real)
    requires Horizon(Valley(), tEnd)
    ensures var ww, states := Squeeze(tEnd), Forced(tEnd);
            && |states[0].vertices| == 2
            && Beats(Some(SWAP_OUT), RepairMoves(ww, states, ROUTE_OF1, POS_OF1, 0, 1, 2, RemovalCost(ww, states[0], 1, WEIGHT), WEIGHT))
  {
    hide Valley, ExactSqueeze, Horizon, Drivable, Built, BuildWarpTour, Load, RemovalCost, RepairRelocates, RepairSwaps, InsertAt, RemoveAt, Timetable;
    BuiltIs(tEnd);
    PriceList(tEnd);
    Edits();
    var states := Forced(tEnd);
    SteadyRemoval(Valley(), Miles, states[0], 1, WEIGHT, tEnd);
    SteadyRelocates(tEnd, states, 0, 1, 1, 0, 61.0, [1, 2], [2, 1]);
    SteadySwaps(tEnd, states, 0, 1, 1, 0, [3, 2], [1]);
  }

  /** Sending client 3 out against client 2 is a best move of the late route ... */
  lemma SwapIsBest(tEnd: real, i: nat, v: int)
    requires Horizon(Valley(), tEnd) && i < 2 && 1 <= v <= 4
    ensures var ww, states := Squeeze(tEnd), Forced(tEnd);
            && states[0].vertices == [3, 1] && RepairFits(ww, states, 0, SWAP_OUT)
            && Beats(Some(SWAP_OUT), RepairMoves(ww, states, ROUTE_OF1, POS_OF1, 0, i, v, RemovalCost(ww, states[0], i, WEIGHT), WEIGHT))
  {
    hide Valley, ExactSqueeze, Horizon, Built, RemovalCost, RepairRelocates, RepairSwaps, RepairFits;
    MovesFit(tEnd);
    SwapBeatsFirst(tEnd);
    SwapBeatsSecond(tEnd);
  }

  lemma MoveOnBeats(tEnd: real, v: int)
    requires Horizon(Valley(), tEnd) && 1 <= v <= 2
    ensures var ww, states := Squeeze(tEnd), Swapped(tEnd);
            && |states[1].vertices| == 1
            && Beats(Some(MOVE_ON), RepairMoves(ww, states, ROUTE_OF2, POS_OF2, 1, 0, v, RemovalCost(ww, states[1], 0, WEIGHT), WEIGHT))
  {
    hide Valley, ExactSqueeze, Horizon, Drivable, Built, BuildWarpTour, Load, RemovalCost, RepairRelocates, RepairSwaps, InsertAt, RemoveAt, Timetable;
    BuiltIs(tEnd);
    PriceList(tEnd);
    Edits();
    var states := Swapped(tEnd);
    SteadyRemoval(Valley(), Miles, states[1], 0, WEIGHT, tEnd);
    if v == 2 {
      SteadyRelocates(tEnd, states, 1, 0, 0, 0, 0.0, [3, 2, 1], [2, 3, 1]);
      SteadySwaps(tEnd, states, 1, 0, 0, 0, [2], [3, 1]);
    } else {
      SteadyRelocates(tEnd, states, 1, 0, 0, 1, 0.0, [2, 3, 1], [2, 1, 3]);
      SteadySwaps(tEnd, states, 1, 0, 0, 1, [1], [2, 3]);
    }
  }

  /** ... and then its last stop moves on, behind client 1. */
  lemma MoveOnIsBest(tEnd: real, v: int)
    requires Horizon(Valley(), tEnd) && 1 <= v <= 4
    ensures var ww, states := Squeeze(tEnd), Swapped(tEnd);
            && states[1].vertices == [3] && RepairFits(ww, states, 1, MOVE_ON)
            && Beats(Some(MOVE_ON), RepairMoves(ww, states, ROUTE_OF2, POS_OF2, 1, 0, v, RemovalCost(ww, states[1], 0, WEIGHT), WEIGHT))
  {
    hide Valley, ExactSqueeze, Horizon, Built, RemovalCost, RepairRelocates, RepairSwaps, RepairFits;
    MovesFit(tEnd);
    if v <= 2 { MoveOnBeats(tEnd, v); }
  }

  const ENTRY: seq<seq<int>> := [[4, 3], [1], [2]]

  const LEFT: seq<seq<int>> := [[1], [2]]

  lemma EntryIsPartition()
    ensures PartitionOf(4, ENTRY)
  {
    assert 4 in ENTRY[0] && 3 in ENTRY[0] && 1 in ENTRY[1] && 2 in ENTRY[2];
    forall v | 1 <= v <= 4 ensures InSome(ENTRY, v) { assert v == 1 || v == 2 || v == 3 || v == 4; }
  }

  lemma EntryFolds(tEnd: real)
    requires Horizon(Valley(), tEnd)
    ensures var f := Squeeze(tEnd).w.price.fold; f([4, 3]).Some? && f([1]).Some? && f([2]).Some? && f([3]).None? && f([2, 1, 3]) == Some(4.0)
  {
    hide Valley, ExactSqueeze, Horizon;
    PriceList(tEnd);
  }

  lemma EntryIsFeasible(tEnd: real)
    requires Horizon(Valley(), tEnd)
    ensures EntryStep(tEnd)
  {
    hide Valley, Squeeze, Horizon, PartitionOf, Load, Feasible, Timetable, NoPlace;
    var w := Squeeze(tEnd).w;
    EntryFolds(tEnd);
    SqueezeValley(tEnd);
    EntryIsPartition();
    NoDemand();
    forall r ensures Load(w.inst, r) == 0 { NoLoad(Valley(), Miles, r); }
    assert WithinCapacity(w, ENTRY);
    PartitionIsFeasible(w, ENTRY);
    TwoLeft(w);
    NowhereToGo(tEnd);
    assert w.inst.Customer(3);
  }

  lemma TwoLeft(w: World)
    requires w.price.fold([4, 3]).Some? && w.price.fold([1]).Some? && w.price.fold([2]).Some?
    ensures (forall k :: 0 <= k < |ENTRY| ==> w.price.fold(ENTRY[k]).Some?) && (forall k :: 0 <= k < |LEFT| ==> w.price.fold(LEFT[k]).Some?)
    ensures Erase(Priced(w, ENTRY), 0) == Priced(w, LEFT) && Routes(Priced(w, LEFT)) == [[1], [2]]
  {
    hide Load;
  }

  lemma ForcedIsBest(tEnd: real, routeOf: seq<int>, posOf: seq<int>)
    requires Horizon(Valley(), tEnd) && |routeOf| == |posOf| == 5
    ensures Squeeze(tEnd).w.inst.n == 4 && Sound(EXHAUSTIVE, 4)
    ensures IsBestForced(Squeeze(tEnd), EXHAUSTIVE, [Built(tEnd, [1]), Built(tEnd, [2])], routeOf, posOf, 3, WEIGHT, Some(Candidate(55.0, 0, 0)))
  {
    hide Valley, ExactSqueeze, Horizon, Built, ForcedSlot;
    SqueezeValley(tEnd);
    ForcedFirst(tEnd);
    var states := [Built(tEnd, [1]), Built(tEnd, [2])];
    forall y | ForcedSlot(Squeeze(tEnd), states, 3, WEIGHT, y) ensures y == Candidate(55.0, 0, 0) || Before(Candidate(55.0, 0, 0), y) {
      ForcedSlots(tEnd, y);
    }
  }

  /** The first of three feasible routes is dissolved; client 3 has no slot and cannot be served alone. */
  ghost predicate EntryStep(tEnd: real)
    requires Horizon(Valley(), tEnd)
  {
    EntryIn(Squeeze(tEnd).w)
  }

  ghost predicate EntryIn(w: World) {
    && (forall k :: 0 <= k < |ENTRY| ==> w.price.fold(ENTRY[k]).Some?) && (forall k :: 0 <= k < |LEFT| ==> w.price.fold(LEFT[k]).Some?)
    && Feasible(w, Priced(w, ENTRY)) && Erase(Priced(w, ENTRY), 0) == Priced(w, LEFT)
    && NoPlace(w, Priced(w, LEFT), 3) && !AllServableAlone(w)
  }

  /** Its cheapest forced slot is before client 1, and makes that route late. */
  ghost predicate ForceStep(tEnd: real, routeOf: seq<int>, posOf: seq<int>)
    requires Horizon(Valley(), tEnd) && |routeOf| == |posOf| == 5
  {
    var ww := Squeeze(tEnd);
    && ww.w.inst.n == 4 && Sound(EXHAUSTIVE, 4)
    && IsBestForced(ww, EXHAUSTIVE, [Built(tEnd, [1]), Built(tEnd, [2])], routeOf, posOf, 3, WEIGHT, Some(Candidate(55.0, 0, 0)))
    && Lists(Forced(tEnd)) == [InsertAt([1], 0, 3), [2]] && Forced(tEnd)[0].minWarp > 0.0 && Forced(tEnd)[1].minWarp == 0.0
  }

  /** The best repair of the late route swaps client 3 out, into a late route of its own. */
  ghost predicate SwapStep(tEnd: real)
    requires Horizon(Valley(), tEnd)
  {
    var ww, states := Squeeze(tEnd), Forced(tEnd);
    && RepairFits(ww, states, 0, SWAP_OUT) && |states[0].vertices| == 2
    && (forall i: nat, v :: i < 2 && 1 <= v <= 4 ==>
          Beats(Some(SWAP_OUT), RepairMoves(ww, states, ROUTE_OF1, POS_OF1, 0, i, v, RemovalCost(ww, states[0], i, WEIGHT), WEIGHT)))
    && Lists(Swapped(tEnd)) == [[3, 1][0 := 2], [2][0 := 3]] && Swapped(tEnd)[0].minWarp == 0.0 && Swapped(tEnd)[1].minWarp > 0.0
  }

  /** The best repair of that route empties it, and everything is feasible. */
  ghost predicate EmptyStep(tEnd: real)
    requires Horizon(Valley(), tEnd)
  {
    var ww, states := Squeeze(tEnd), Swapped(tEnd);
    && RepairFits(ww, states, 1, MOVE_ON) && |states[1].vertices| == 1
    && (forall v :: 1 <= v <= 4 ==>
          Beats(Some(MOVE_ON), RepairMoves(ww, states, ROUTE_OF2, POS_OF2, 1, 0, v, RemovalCost(ww, states[1], 0, WEIGHT), WEIGHT)))
    && RemoveAt([3], 0) == [] && InsertAt([2, 1], 2, 3) == [2, 1, 3]
    && SwapErase(states[0 := Built(tEnd, [2, 1, 3])], 1) == [Built(tEnd, [2, 1, 3])]
    && Built(tEnd, [2, 1, 3]).minWarp == 0.0 && ww.w.price.fold([2, 1, 3]) == Some(4.0)
  }

  lemma ForceRuns(tEnd: real, routeOf: seq<int>, posOf: seq<int>)
    requires Horizon(Valley(), tEnd) && |routeOf| == |posOf| == 5
    ensures ForceStep(tEnd, routeOf, posOf)
  {
    hide Valley, Squeeze, Horizon, Built, IsBestForced;
    ForcedIsBest(tEnd, routeOf, posOf);
    BuiltIs(tEnd);
    Edits();
    assert Lists(Forced(tEnd)) == [[3, 1], [2]];
  }

  lemma SwapRuns(tEnd: real)
    requires Horizon(Valley(), tEnd)
    ensures SwapStep(tEnd)
  {
    hide Valley, Squeeze, Horizon, Built, RemovalCost, RepairMoves, RepairFits, Beats;
    BuiltIs(tEnd);
    MovesFit(tEnd);
    forall i: nat, v | i < 2 && 1 <= v <= 4
      ensures Beats(Some(SWAP_OUT), RepairMoves(Squeeze(tEnd), Forced(tEnd), ROUTE_OF1, POS_OF1, 0, i, v, RemovalCost(Squeeze(tEnd), Forced(tEnd)[0], i, WEIGHT), WEIGHT))
    {
      SwapIsBest(tEnd, i, v);
    }
    assert [3, 1][0 := 2] == [2, 1] && [2][0 := 3] == [3];
    assert Lists(Swapped(tEnd)) == [[2, 1], [3]];
  }

  lemma EmptyRuns(tEnd: real)
    requires Horizon(Valley(), tEnd)
    ensures EmptyStep(tEnd)
  {
    hide Valley, Squeeze, Horizon, Built, RemovalCost, RepairMoves, RepairFits, Beats;
    BuiltIs(tEnd);
    MovesFit(tEnd);
    EntryFolds(tEnd);
    Edits();
    forall v | 1 <= v <= 4
      ensures Beats(Some(MOVE_ON), RepairMoves(Squeeze(tEnd), Swapped(tEnd), ROUTE_OF2, POS_OF2, 1, 0, v, RemovalCost(Squeeze(tEnd), Swapped(tEnd)[1], 0, WEIGHT), WEIGHT))
    {
      MoveOnIsBest(tEnd, v);
    }
    assert RemoveAt([3], 0) == [];
  }

  /** A rescue that empties a route: the entry's three routes become two by dissolving one, and one by
      squeezing its client in. */
  lemma RescueEmptiesARoute(tEnd: real, routeOf: seq<int>, posOf: seq<int>)
    requires Horizon(Valley(), tEnd) && |routeOf| == |posOf| == 5
    ensures EntryStep(tEnd) && ForceStep(tEnd, routeOf, posOf) && SwapStep(tEnd) && EmptyStep(tEnd)
  {
    hide EntryStep, ForceStep, SwapStep, EmptyStep, Horizon;
    EntryIsFeasible(tEnd);
    ForceRuns(tEnd, routeOf, posOf);
    SwapRuns(tEnd);
    EmptyRuns(tEnd);
  }
}
