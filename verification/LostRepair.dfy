/** What the surviving stamps cost the squeeze (cpp/ls/squeeze.cpp): an instance on which the explore leg
    converges on a late state, while one relocate at the repair weight would have produced a warp-free
    solution cheaper than the entry. */
module LostRepairs {
  import opened Common
  import opened Instances
  import opened Neighbours
  import opened Descents
  import opened WarpSearches
  import opened Squeezes
  import opened WarpEvaluation
  import opened Timetables

  const EXPLORE := 5.0

  /** Clients 1 and 2 are next to each other and both due at 10; client 3 is far from both. */
  function Miles(i: int, j: int): real {
    if i == 0 || j == 0 then 10.0 else if i + j == 3 then 1.0 else 30.0
  }

  const DUE := [100.0, 10.0, 10.0, 100.0]

  function City(): (inst: Problem)
    ensures Timetable(inst, Miles) && inst.n == 3 && inst.latest == DUE && inst.fixedCost == 100.0
  {
    TableIsTimetable(3, Miles, DUE, 100.0, 100.0);
    Table(3, Miles, DUE, 100.0, 100.0)
  }

  ghost function Squeeze(tEnd: real): WarpWorld
    requires Horizon(City(), tEnd)
  {
    ExactSqueeze(City(), tEnd)
  }

  /** Length and lateness of all the routes that matter. */
  lemma PriceList(tEnd: real, penalty: real)
    requires Horizon(City(), tEnd) && penalty >= 1.0
    ensures var ww := Squeeze(tEnd);
            && Prices(ww, [1], penalty, 20.0, 0.0) && Prices(ww, [2], penalty, 20.0, 0.0) && Prices(ww, [3], penalty, 20.0, 0.0)
            && Prices(ww, [1, 2], penalty, 21.0, 1.0) && Prices(ww, [1, 3], penalty, 50.0, 0.0) && Prices(ww, [2, 3], penalty, 50.0, 0.0)
            && Prices(ww, [3, 1], penalty, 50.0, 30.0) && Prices(ww, [3, 2], penalty, 50.0, 30.0)
            && Prices(ww, [3, 1, 2], penalty, 51.0, 31.0) && Prices(ww, [1, 3, 2], penalty, 80.0, 60.0) && Prices(ww, [1, 2, 3], penalty, 51.0, 1.0)
    ensures var inst := City();
            && Drivable(inst, [1]) && Drivable(inst, [2]) && Drivable(inst, [3]) && Drivable(inst, [1, 2]) && Drivable(inst, [1, 3])
            && Drivable(inst, [2, 3]) && Drivable(inst, [3, 1]) && Drivable(inst, [3, 2])
            && Drivable(inst, [3, 1, 2]) && Drivable(inst, [1, 3, 2]) && Drivable(inst, [1, 2, 3])
  {
    hide City, Prices, ExactSqueeze, Timetable, Horizon, Drivable;
    Price1(City(), Miles, 1, penalty, tEnd);
    Price1(City(), Miles, 2, penalty, tEnd);
    Price1(City(), Miles, 3, penalty, tEnd);
    Price2(City(), Miles, 1, 2, penalty, tEnd);
    Price2(City(), Miles, 1, 3, penalty, tEnd);
    Price2(City(), Miles, 2, 3, penalty, tEnd);
    Price2(City(), Miles, 3, 1, penalty, tEnd);
    Price2(City(), Miles, 3, 2, penalty, tEnd);
    Price3(City(), Miles, 3, 1, 2, penalty, tEnd);
    Price3(City(), Miles, 1, 3, 2, penalty, tEnd);
    Price3(City(), Miles, 1, 2, 3, penalty, tEnd);
  }

  /** A tour as the explore leg builds it. */
  ghost function Built(tEnd: real, r: seq<int>): WarpTour
    requires Horizon(City(), tEnd)
  {
    var t := BuildWarpTour(Squeeze(tEnd), r, EXPLORE);
    if t.Some? then t.value else WarpTour(r, 0.0, 0.0, 0)
  }

  ghost function States(tEnd: real, routes: seq<seq<int>>): seq<WarpTour>
    requires Horizon(City(), tEnd)
  {
    seq(|routes|, k requires 0 <= k < |routes| => Built(tEnd, routes[k]))
  }

  lemma BuiltLists(tEnd: real, penalty: real)
    requires Horizon(City(), tEnd) && penalty >= 1.0
    ensures forall r :: r in [[1], [2], [3], [1, 2]] ==> Built(tEnd, r).vertices == r && Built(tEnd, r).load == 0
  {
    hide City, ExactSqueeze, Horizon;
    PriceList(tEnd, EXPLORE);
  }

  lemma Edits()
    ensures RemoveAt([1], 0) == [] && RemoveAt([3], 0) == [] && RemoveAt([1, 2], 0) == [2] && RemoveAt([1, 2], 1) == [1]
    ensures InsertAt([2], 0, 1) == [1, 2]
    ensures InsertAt([1, 2], 0, 3) == [3, 1, 2] && InsertAt([1, 2], 1, 3) == [1, 3, 2] && InsertAt([1, 2], 2, 3) == [1, 2, 3]
    ensures InsertAt([3], 0, 1) == [1, 3] && InsertAt([3], 1, 1) == [3, 1] && InsertAt([3], 0, 2) == [2, 3] && InsertAt([3], 1, 2) == [3, 2]
  {
  }

  /** No move between client 3 and the late pair pays while exploring. */
  lemma OutIsDearer(tEnd: real, j: nat)
    requires Horizon(City(), tEnd) && j < 2
    ensures Built(tEnd, [3]).vertices == [3] && Built(tEnd, [1, 2]).vertices == [1, 2]
    ensures Quiet(Squeeze(tEnd), Built(tEnd, [3]), 0, Built(tEnd, [1, 2]), j, EXPLORE)
  {
    hide City, ExactSqueeze, Horizon, Timetable, Drivable, RelocatePays, SwapPays, RemovalCost, Built, RemoveAt, InsertAt;
    BuiltLists(tEnd, EXPLORE);
    PriceList(tEnd, EXPLORE);
    Edits();
    var s, t := Built(tEnd, [3]), Built(tEnd, [1, 2]);
    SteadyRelocate(City(), Miles, s, 0, t, 0, [], [3, 1, 2], EXPLORE, tEnd);
    SteadyRelocate(City(), Miles, s, 0, t, 1, [], [1, 3, 2], EXPLORE, tEnd);
    SteadyRelocate(City(), Miles, s, 0, t, 2, [], [1, 2, 3], EXPLORE, tEnd);
    SteadySwap(City(), Miles, s, 0, t, 0, [1], [3, 2], EXPLORE, tEnd);
    SteadySwap(City(), Miles, s, 0, t, 1, [2], [1, 3], EXPLORE, tEnd);
  }

  lemma BackIsDearer(tEnd: real, i: nat)
    requires Horizon(City(), tEnd) && i < 2
    ensures Built(tEnd, [3]).vertices == [3] && Built(tEnd, [1, 2]).vertices == [1, 2]
    ensures Quiet(Squeeze(tEnd), Built(tEnd, [1, 2]), i, Built(tEnd, [3]), 0, EXPLORE)
  {
    hide City, ExactSqueeze, Horizon, Timetable, Drivable, Quiet, Built;
    BuiltLists(tEnd, EXPLORE);
    if i == 0 { FirstIsDearer(tEnd); } else { SecondIsDearer(tEnd); }
  }

  lemma FirstIsDearer(tEnd: real)
    requires Horizon(City(), tEnd)
    ensures Built(tEnd, [3]).vertices == [3] && Built(tEnd, [1, 2]).vertices == [1, 2]
    ensures Quiet(Squeeze(tEnd), Built(tEnd, [1, 2]), 0, Built(tEnd, [3]), 0, EXPLORE)
  {
    hide City, ExactSqueeze, Horizon, Timetable, Drivable, RelocatePays, SwapPays, RemovalCost, Built, RemoveAt, InsertAt;
    BuiltLists(tEnd, EXPLORE);
    PriceList(tEnd, EXPLORE);
    Edits();
    var s, t := Built(tEnd, [1, 2]), Built(tEnd, [3]);
    SteadyRelocate(City(), Miles, s, 0, t, 0, [2], [1, 3], EXPLORE, tEnd);
    SteadyRelocate(City(), Miles, s, 0, t, 1, [2], [3, 1], EXPLORE, tEnd);
    SteadySwap(City(), Miles, s, 0, t, 0, [3, 2], [1], EXPLORE, tEnd);
  }

  lemma SecondIsDearer(tEnd: real)
    requires Horizon(City(), tEnd)
    ensures Built(tEnd, [3]).vertices == [3] && Built(tEnd, [1, 2]).vertices == [1, 2]
    ensures Quiet(Squeeze(tEnd), Built(tEnd, [1, 2]), 1, Built(tEnd, [3]), 0, EXPLORE)
  {
    hide City, ExactSqueeze, Horizon, Timetable, Drivable, RelocatePays, SwapPays, RemovalCost, Built, RemoveAt, InsertAt;
    BuiltLists(tEnd, EXPLORE);
    PriceList(tEnd, EXPLORE);
    Edits();
    var s, t := Built(tEnd, [1, 2]), Built(tEnd, [3]);
    SteadyRelocate(City(), Miles, s, 1, t, 0, [1], [2, 3], EXPLORE, tEnd);
    SteadyRelocate(City(), Miles, s, 1, t, 1, [1], [3, 2], EXPLORE, tEnd);
    SteadySwap(City(), Miles, s, 1, t, 0, [1, 3], [2], EXPLORE, tEnd);
  }

  /** The state the explore leg reaches is late, and locally optimal at the exploring weight. */
  lemma ExploredIsOptimal(tEnd: real, x: View)
    requires Horizon(City(), tEnd) && x.states == States(tEnd, [[3], [1, 2]])
    ensures LocallyOptimal(Squeeze(tEnd), EXHAUSTIVE, x, EXPLORE) && !ZeroWarp(x.states)
  {
    hide City, ExactSqueeze, Horizon, Quiet, Built, Sound, IsPartner;
    var ww := Squeeze(tEnd);
    LatePair(tEnd);
    assert x.states[1].minWarp == 1.0;
    forall c, v | 1 <= c <= ww.w.inst.n && IsPartner(ww.w.inst.n, EXHAUSTIVE, c, v) ensures NothingPays(ww, x, c, v, EXPLORE) {
      forall r1, i, r2, j | At(x, c, r1, i) && At(x, v, r2, j) && r1 != r2 ensures Quiet(ww, x.states[r1], i, x.states[r2], j, EXPLORE) {
        OutIsDearer(tEnd, 0);
        if r1 == 0 { OutIsDearer(tEnd, j); } else { BackIsDearer(tEnd, i); }
      }
    }
  }

  lemma LatePair(tEnd: real)
    requires Horizon(City(), tEnd)
    ensures Built(tEnd, [1, 2]).minWarp == 1.0
    ensures Sound(EXHAUSTIVE, Squeeze(tEnd).w.inst.n)
  {
    hide City, ExactSqueeze, Horizon;
    PriceList(tEnd, EXPLORE);
  }

  /** From the entry routes, each client alone, the explore leg first sends client 1 to client 2 and ends
      there: late, locally optimal at its weight, every client stamped. At the repair weight moving
      client 1 on to client 3 pays and gives a warp-free solution that beats the entry. */
  lemma RepairIsLost(tEnd: real, x: View)
    requires Horizon(City(), tEnd) && x.states == States(tEnd, [[3], [1, 2]])
    ensures var ww, entry := Squeeze(tEnd), States(tEnd, [[1], [2], [3]]);
            && Lists(entry) == [[1], [2], [3]] && RelocatePays(ww, entry[0], 0, entry[1], 0, 0.0, EXPLORE)
            && SwapErase(entry[1 := Built(tEnd, [1, 2])], 0) == x.states && Lists(x.states) == [[3], [1, 2]]
            && !ZeroWarp(x.states) && LocallyOptimal(ww, EXHAUSTIVE, x, EXPLORE)
            && RemovalCost(ww, x.states[1], 0, REPAIR_PENALTY) == Some(20.0)
            && RelocatePays(ww, x.states[1], 0, x.states[0], 0, 20.0, REPAIR_PENALTY)
    ensures var w := Squeeze(tEnd).w;
            && SolutionDuration(w, [[1], [2], [3]]) == Some(360.0) && SolutionDuration(w, [[1, 3], [2]]) == Some(270.0)
  {
    hide City, ExactSqueeze, Horizon, RelocatePays, RemovalCost, Built, LocallyOptimal, ZeroWarp, SolutionDuration;
    ExploredIsOptimal(tEnd, x);
    BuiltLists(tEnd, EXPLORE);
    FirstMove(tEnd);
    RepairMove(tEnd);
    Objectives(tEnd);
    var entry := States(tEnd, [[1], [2], [3]]);
    assert SwapErase(entry[1 := Built(tEnd, [1, 2])], 0) == x.states;
    assert Lists(entry) == [[1], [2], [3]];
    assert Lists(x.states) == [[3], [1, 2]];
  }

  lemma FirstMove(tEnd: real)
    requires Horizon(City(), tEnd)
    ensures |Built(tEnd, [1]).vertices| == 1
    ensures RelocatePays(Squeeze(tEnd), Built(tEnd, [1]), 0, Built(tEnd, [2]), 0, 0.0, EXPLORE)
  {
    hide City, ExactSqueeze, Horizon, Timetable, Drivable, RelocatePays, RemovalCost, Built, RemoveAt, InsertAt;
    BuiltLists(tEnd, EXPLORE);
    PriceList(tEnd, EXPLORE);
    Edits();
    SteadyRelocate(City(), Miles, Built(tEnd, [1]), 0, Built(tEnd, [2]), 0, [], [1, 2], EXPLORE, tEnd);
  }

  lemma RepairMove(tEnd: real)
    requires Horizon(City(), tEnd)
    ensures |Built(tEnd, [1, 2]).vertices| == 2
    ensures RemovalCost(Squeeze(tEnd), Built(tEnd, [1, 2]), 0, REPAIR_PENALTY) == Some(20.0)
    ensures RelocatePays(Squeeze(tEnd), Built(tEnd, [1, 2]), 0, Built(tEnd, [3]), 0, 20.0, REPAIR_PENALTY)
  {
    hide City, ExactSqueeze, Horizon, Timetable, Drivable, RelocatePays, RemovalCost, Built, RemoveAt, InsertAt, BuildWarpTour;
    BuiltLists(tEnd, EXPLORE);
    PriceList(tEnd, REPAIR_PENALTY);
    Edits();
    SteadyRelocate(City(), Miles, Built(tEnd, [1, 2]), 0, Built(tEnd, [3]), 0, [2], [1, 3], REPAIR_PENALTY, tEnd);
  }

  lemma SqueezeCity(tEnd: real)
    requires Horizon(City(), tEnd)
    ensures Squeeze(tEnd).w.inst == City()
  {
    hide City, Horizon;
  }

  lemma Objectives(tEnd: real)
    requires Horizon(City(), tEnd)
    ensures var w := Squeeze(tEnd).w;
            && SolutionDuration(w, [[1], [2], [3]]) == Some(360.0) && SolutionDuration(w, [[1, 3], [2]]) == Some(270.0)
  {
    hide City, ExactSqueeze, Horizon;
    PriceList(tEnd, EXPLORE);
    var w := Squeeze(tEnd).w;
    SqueezeCity(tEnd);
    assert [[1], [2], [3]][..2] == [[1], [2]] && [[1], [2]][..1] == [[1]] && [[1]][..0] == [];
    assert [[1, 3], [2]][..1] == [[1, 3]] && [[1, 3]][..0] == [];
    assert FoldTotal(w, []) == Some(0.0) && Used([]) == 0;
    assert FoldTotal(w, [[1]]) == Some(20.0) && FoldTotal(w, [[1], [2]]) == Some(40.0) && FoldTotal(w, [[1], [2], [3]]) == Some(60.0);
    assert FoldTotal(w, [[1, 3]]) == Some(50.0) && FoldTotal(w, [[1, 3], [2]]) == Some(70.0);
    assert Used([[1]]) == 1 && Used([[1], [2]]) == 2 && Used([[1], [2], [3]]) == 3 && Used([[1, 3]]) == 1 && Used([[1, 3], [2]]) == 2;
  }
}
