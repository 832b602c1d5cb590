# The KAYROS engine, modelled and proved in Dafny

KAYROS solves the time-dependent vehicle routing problem with time windows: arcs carry
arrival-time functions of the departure time, routes are priced by composing them, and a
local search with ruin-and-recreate, fleet reduction and a penalised squeeze looks for
cheap sets of routes. This project models the C++ engine in three layers.

1. **Piecewise-linear algebra** (`Pwlf`, `Compose`, `Scans`, `Penalised`, `Sum`, `Dedup`, `Theta`).
   Functions are parallel breakpoint lists; equal xs encode a jump where evaluation takes the
   lower value, equal ys a plateau. All results are pointwise over the reals.
2. **Folds, trees and move evaluators** (`Instance`, `RouteEval`, `WarpEval`, `LcaTree`, `Leaves`,
   `Splice`, `Insertion`, `WarpTree`, `WarpSplice`, `Neighbours`). The tree is one generic class,
   proved for any operator and used for functions and for warp segments.
3. **The search** (`SearchState`, `Staleness`, `LocalSearch`, `Descent`, `Runs`, `Repair`, `Perturb`,
   `WarpSearch`, `Squeeze`, `SqueezeInsert`, `FleetDescent`, `Dijkstra`, `Construct`, `Seeds`, `IlsSteps`,
   `Ils`). What the code reads from outside is three streams of answers with cursors (`Oracle`): deadline
   checks, random draws, work triggers. Every search operation is tied to a relation over states and
   cursors, so its result is fixed by the streams; the theorems hold for all of them.
   Route pricing is an arbitrary deterministic function of the vertex list, so these theorems hold
   for any ranking, rounded or exact; `ExactPricing` instantiates it with the proved evaluators.
   `Timetable` gives closed-form prices for constant travel times, and `SplitSeed`, `LostRepair` and
   `LadderRescue` are three instances of that kind on which the code does less than it says.

Code that loops and assigns is a method proved against a specification function or relation;
`std::vector` fields are sequence fields of a class. Numbers of type `double` are reals.
A well-formed instance (`Instances.WellFormed`) has `0 <= horizon_start`, arc functions that start
with the horizon and never arrive before they leave, non-negative services and demands, and
`0 <= earliest <= latest`. Exceptions and `kInfeasible` are `None`.

Where the code and its promises part:

- `compose` is not "f after g" when a lower domain wall of f falls inside a jump of g; the exact
  condition is `Composition.ComposeExactIff`. Instances as above never meet that case.
- The comment in `cpp/ls/fleet_descent.h` promises exactly one route fewer. With the squeeze ladder on
  this holds where every client can be served alone (`FleetDescents.FleetDescent`); otherwise a repair
  can take the last stop of a further route (`LadderRescues.RescueEmptiesARoute`).
- `cpp/heuristics/ils.cpp` with a split seed can return a value above one already published
  (`SplitSeeds.ResultIsAbove`); priced routes, a seed factor of at most one or a warm start exclude it,
  and with no clients it publishes a value but returns no routes (`IteratedSearch.SolveIls`).
- `cpp/ls/squeeze.cpp` reserves a fifth of the budget for a repair leg, but the stamps of the explore
  leg survive into it at the new penalty: after an explore leg that converged the repair leg does
  nothing (`Squeezes.RepairLeg`, `Squeezes.ExploreAndRepair`), even where one relocate would give a
  warp-free solution cheaper than the entry (`LostRepairs.RepairIsLost`). It can act only where deadline
  or budget cut the explore leg short.

`dafny verify dfyconfig.toml` checks everything.

## Model

| member | source | states |
|---|---|---|
| `Pwlfs.EvalMonotone` | cpp/pwlf/pwlf.cpp:13-24 | evaluation of a function with non-decreasing points is non-decreasing over the whole domain, across jumps (duplicate xs, lower value taken) and plateaus (duplicate ys) |
| `Pwlfs.EvalAtFirst` | cpp/pwlf/pwlf.cpp:13-24 | at the first of several equal xs the value is the lower end of the jump |
| `Pwlfs.EvalOnPiece` | cpp/pwlf/pwlf.cpp:13-24 | between two breakpoints, right end included, the value lies on their chord: evaluation is continuous from the left |
| `Pwlfs.IdentityMeaning` | cpp/pwlf/pwlf.cpp:8-11 | the identity on [lo, hi] maps every x of the interval to itself and nothing else, a single point when lo = hi |
| `Composition.ComposeMeaning` | cpp/pwlf/pwlf.cpp:26-102 | the result is empty exactly when the ranges do not meet; every x with g(x) in dom f is in its domain; at every x of its domain, except a first point where a lower wall cuts a jump, it is f(g(x)); and it has at most f.n + g.n breakpoints |
| `Composition.ClampNeverFires` | cpp/pwlf/pwlf.cpp:43-61 | every point the merge emits could be appended as it is: the monotone clamp of emit never changes a coordinate |
| `Composition.ComposeExactIff` | cpp/pwlf/pwlf.cpp:26-102 | compose denotes "f after g" at every real x if and only if no lower domain wall of f falls inside a jump of g, above its foot and up to its top |
| `Composition.WallCanCutAJump` | cpp/pwlf/pwlf.cpp:26-102 | a concrete pair on which compose is defined where "f after g" is not |
| `Composition.ComposeAssociative` | cpp/pwlf/pwlf.cpp:26-102 | composition is associative up to pointwise equality when no wall binds |
| `Composition.ComposeLoop` | cpp/pwlf/pwlf.cpp:26-102 | the two-cursor merge with its runs and final flush, every index in range, computes the specified composition |
| `Scans.MinShiftedImageIsOptimum` | cpp/pwlf/pwlf.cpp:104-118 | the breakpoint scan returns the minimum of f(t) - t over all real t of the domain, jumps included, at the least real minimiser |
| `Scans.MinShiftedImageLoop` | cpp/pwlf/pwlf.cpp:104-118 | the running-minimum loop computes it; None stands for the exception on an empty function |
| `VertexFunctions.MakeThetaMeaning` | cpp/pwlf/pwlf.cpp:120-133 | theta is max(t, earliest) + service on [0, latest] and undefined elsewhere |
| `VertexFunctions.ClampAgreesWithWall` | cpp/pwlf/warp.cpp:20-38 | the clamped vertex function equals the walled one exactly where the lateness channel is zero, and the walled one is undefined exactly where lateness is positive |
| `VertexFunctions.ReturnClampMeaning` | cpp/pwlf/warp.cpp:40-49 | the depot clamp is min(t, due) on [0, t_end] and undefined elsewhere |
| `VertexFunctions.LatenessMeaning` | cpp/pwlf/warp.cpp:51-60 | the return lateness, shared with the vertices, is max(0, t - due) on [0, t_end] |
| `VertexFunctions.ThetaClampMeaning` | cpp/pwlf/warp.cpp:20-38 | the clamped vertex function is max(e, min(t, l)) + service, total on [0, t_end] |
| `Summation.AddMeaning` | cpp/pwlf/warp.cpp:83-173 | add is the pointwise sum on the common domain at every real x, jumps included, empty exactly when the domains do not overlap, and no point it emits meets the monotone clamp |
| `Summation.AddLoop` | cpp/pwlf/warp.cpp:83-173 | the two-cursor loop over both grids computes it, and always emits, so the degenerate fallback is unreachable |
| `Deduplication.DedupPreserves` | cpp/pwlf/warp.cpp:62-81 | dropping interior points of flat and vertical runs changes neither the domain nor the value at any x |
| `Deduplication.DedupKeepsOptimum` | cpp/pwlf/warp.cpp:62-81 | it does not change the shifted minimum |
| `Deduplication.DedupIdempotent` | cpp/pwlf/warp.cpp:62-81 | a second pass changes nothing |
| `Deduplication.DedupSafeRuns` | cpp/pwlf/warp.cpp:62-81 | the in-place two-index compaction of the arrays leaves exactly the specified points in front and returns their number |
| `Scans.ZeroPrefixEndMeaning` | cpp/pwlf/warp.cpp:175-181 | None when the warp is positive everywhere, otherwise the warp is zero exactly up to the returned end |
| `Scans.MinZeroWarpDurationMeaning` | cpp/pwlf/warp.cpp:183-214 | None exactly when no departure has zero warp, otherwise the least rho(t) - t over all real zero-warp departures at its least minimiser |
| `Scans.MinZeroWarpDurationLoop` | cpp/pwlf/warp.cpp:183-214 | the scan with the extra candidate at the prefix end computes it |
| `PenalisedScan.MinPenalisedMeaning` | cpp/pwlf/warp.cpp:216-243 | the scan over both grids returns the minimum of rho(t) - t + P W(t) over all real t of the common domain, and the argmin attains it |
| `PenalisedScan.MinPenalisedLoop` | cpp/pwlf/warp.cpp:216-243 | the two scanning loops compute it |
| `Instances.ReadyNextMonotone` | cpp/core/queries.h:25-38 | FIFO with waiting: leaving earlier, but not before the horizon, is never infeasible when leaving later is feasible, and never arrives later; ready times never precede departures |
| `Instances.ChainConcat` | cpp/core/queries.h:25-46 | chaining ready_next through a + b is chaining through a, then through b |
| `Instances.DepartureWindow` | cpp/core/queries.h:17-21 | departure_low and the upper bound of the departure identity bound exactly the departures within horizon and depot window |
| `Instances.SimulateMeaning` | cpp/core/queries.h:17-46 | a departure works out exactly when it lies within the horizon and within the opening hours of the depot, every stop can be served on the way and the vehicle is back by the due date; the value is the arrival back |
| `RouteEvaluation.RouteFunctionIsSimulation` | cpp/core/route_eval.cpp:7-46 | for every route and every real t, t is in the domain of the fold exactly when t is an allowed departure and chaining ready_next and the depot return from it succeeds, and the value is the simulated arrival |
| `RouteEvaluation.RouteFunctionLoop` | cpp/core/route_eval.cpp:7-46 | the loop with its early exits computes the fold |
| `RouteEvaluation.RouteFunctionSize` | cpp/core/route_eval.cpp:7-46 | the fold grows additively: at most the breakpoints of the arcs crossed, plus three per stop and four |
| `RouteEvaluation.EvaluateRouteMeaning` | cpp/core/route_eval.cpp:48-54 | infeasible exactly when no departure simulates; otherwise the duration is the least over all real departures and the departure is the least optimal one, within horizon and depot window |
| `WarpEvaluation.WarpHorizon` | cpp/core/warp_eval.cpp:17-30 | the running maximum bounds the horizon end, every arc image and every clamped completion |
| `WarpEvaluation.WarpRouteFunctionsMeaning` | cpp/core/warp_eval.cpp:32-92 | both channels denote the clamped simulation and the lateness it accumulates, on one domain, for every real departure, with dedup on or off |
| `WarpEvaluation.WarpSimulateAgrees` | cpp/core/warp_eval.cpp:32-92 | the clamped simulation has zero lateness exactly when the plain one succeeds, and then the same arrival |
| `WarpEvaluation.WarpSimulateMeaning` | cpp/core/warp_eval.cpp:32-92 | the clamped simulation starts exactly at the departures within horizon and depot window, and only hard walls stop it |
| `WarpEvaluation.ZeroWarpIsFeasible` | cpp/core/warp_eval.cpp:32-113 | the zero-warp departures are exactly the feasible departures, and rho is the plain ready-time function there |
| `WarpEvaluation.WarpRouteFunctionsLoop` | cpp/core/warp_eval.cpp:32-92 | the loop over acc, warp and prev computes the pair |
| `WarpEvaluation.WarpRefinesBase` | cpp/core/warp_eval.cpp:94-113 | at warp_horizon or beyond, evaluate_route_warp is feasible exactly when evaluate_route is, with the same duration and departure; zero minimal warp means feasible; the minimal warp is the least total lateness and the penalised value the least penalised duration over all departures |
| `WarpEvaluation.EvaluateRouteWarpLoop` | cpp/core/warp_eval.cpp:94-113 | the record is computed from the loop |
| `LcaTrees.TreeUnique` | cpp/ls/lca_tree.cpp:17-57 | for any operator, even a non-associative one, the leaves determine the whole tree node by node |
| `LcaTrees.LcaTree.Build` | cpp/ls/lca_tree.cpp:17-57 | build yields that tree for the given leaves, or refuses an empty list |
| `LcaTrees.LcaTree.UpdateLeaf` | cpp/ls/lca_tree.cpp:59-104 | after an update the nodes are exactly those a fresh build on the changed leaves gives; only entries that straddle the leaf changed, all on the ancestor chain of LCA(leaf, leaf + 1) |
| `LcaTrees.OffPathFilled` | cpp/ls/lca_tree.cpp:87-104 | a node off the ancestor chain stores nothing that straddles the leaf |
| `LcaTrees.LcaTree.Query` | cpp/ls/lca_tree.cpp:106-125 | the climb finds the LCA key and returns a leaf, one stored entry, or one composition of two stored entries |
| `LcaTrees.QueryIsFold` | cpp/ls/lca_tree.cpp:106-125 | for an associative operator, query(lo, hi) is the plain fold of leaves lo..hi |
| `LcaTrees.QuerySplices` | cpp/ls/lca_tree.cpp:106-125 | any meaning that splices under the operator holds of every query result: the form used for functions compared pointwise |
| `LcaTrees.DepthIsLogarithmic` | cpp/ls/lca_tree.cpp:26-38 | 2 to the power of a node's depth never exceeds the number of keys: depth is at most floor(log2 n) |
| `LcaTrees.StorageIsNLogN` | cpp/ls/lca_tree.cpp:40-57 | with fewer than 2^k keys the stored functions number at most k times the keys |
| `RouteLeaves.RouteLeavesLoop` | cpp/ls/leaves.cpp:22-73 | the leaf loop returns the m + 1 leaves of the convention, bridges and return included |
| `RouteLeaves.QueryIsStretch` | cpp/ls/leaves.cpp:22-91 | a tree query over leaves i..k denotes the simulation of that stretch of the route |
| `Splicing.BuildRouteState` | cpp/ls/leaves.cpp:93-107 | refuses exactly the infeasible routes; otherwise stores the tree of the route, its fold duration and its demand sum |
| `Splicing.EvaluateSplice` | cpp/ls/splice.cpp:18-74 | bad indices are refused; otherwise feasibility, duration and departure are those of evaluate_route on the edited vertex list |
| `Splicing.EvaluateIntraRelocate` | cpp/ls/splice.cpp:76-162 | the same for moving one stop within its route, in both directions |
| `Insertions.InsertionCandidates` | cpp/ls/insertion.cpp:7-53 | the list holds exactly the capacity-fitting feasible insertions with their true deltas, sorted by (delta, route, position) |
| `WarpTrees.ConcatMeaning` | cpp/ls/warp_tree.cpp:25-37 | concatenation follows the first segment, then the second, adding the lateness booked in each; both channels share a domain; walls propagate |
| `WarpTrees.ConcatAssociative` | cpp/ls/warp_tree.cpp:25-37 | concatenation is associative up to pointwise equality on inner segments |
| `WarpTrees.WarpBridgeLeafMeaning` | cpp/ls/warp_tree.cpp:39-58 | a bridge leaf clamps the arrival and books its lateness |
| `WarpTrees.WarpReturnLeafMeaning` | cpp/ls/warp_tree.cpp:60-76 | the return leaf clamps at the due date and books the lateness |
| `WarpTrees.WarpQueryIsStretch` | cpp/ls/warp_tree.cpp:209-229 | a query over leaves i..k denotes the clamped simulation of that stretch |
| `WarpSplicing.BuildWarpRouteState` | cpp/ls/warp_splice.cpp:43-66 | only a hard wall is refused; the stored minimal warp is zero exactly when evaluate_route accepts the route, the stored duration is then its duration, and for a late route the penalised value |
| `WarpSplicing.EvaluateSpliceWarp` | cpp/ls/warp_splice.cpp:72-121 | the tree-ranked record equals evaluate_route_warp of the edited list, except for which of several penalised optima is named |
| `Neighbours.Proximity` | cpp/ls/neighbours.cpp:15-53 | None for an unusable arc, otherwise the least travel time over the continuum of allowed departures plus the weighted waits |
| `Neighbours.TakenAreNearest` | cpp/ls/neighbours.cpp:57-104 | the ordered prefix up to the first infinite proximity is exactly the set of k nearest clients under (proximity, id) |
| `Neighbours.BuildNeighbourLists` | cpp/ls/neighbours.cpp:57-133 | k <= 0 gives the exhaustive sentinel; otherwise adjacency is the union of the k-nearest relations under the symmetrised proximities of the instance, symmetric, never touches the depot, and the CSR lists are exactly its rows, ascending |
| `Neighbours.ListsUnique` | cpp/ls/neighbours.cpp:57-133 | the instance and the parameters determine the adjacency and every list, order included |
| `Neighbours.ProximityMatrixUnique` | cpp/ls/neighbours.cpp:68-77 | the instance and the wait weight determine the proximity matrix: the lesser of both directions for two clients, infinite elsewhere |
| `SearchStates.CommitTwo` | cpp/ls/local_search.cpp:29-79 | commits exactly when both edited routes fold and duration sum plus F per surviving route strictly improves; then replaces in place, drops emptied routes, advances the epoch and stamps both routes; a refused edit changes nothing |
| `SearchStates.CommitKeeps` | cpp/ls/local_search.cpp:29-79 | a commit that redistributes clients within capacity keeps every client in exactly one feasible, correctly priced and loaded route, strictly lowers the objective and never opens a route |
| `LocalSearch.ComputeRetest` | cpp/ls/local_search.cpp:86-117 | the mask marks a client exactly when its own stamp, or a neighbour's (anyone's when exhaustive; none for intra) is newer than its last test |
| `LocalSearch.StampCleanPass` | cpp/ls/local_search.cpp:120-126 | exactly the enumerated clients get the pass epoch |
| `LocalSearch.ScreenedBalances` | cpp/ls/local_search.cpp:152-416 | every move that passes its screen redistributes the clients of its routes within capacity |
| `LocalSearch.TryRelocate` | cpp/ls/local_search.cpp:180-240 | one relocate candidate: committed exactly when retested, justified, fitting, gaining, screened and accepted by the fold |
| `LocalSearch.RelocatePass` | cpp/ls/local_search.cpp:152-247 | commits the first move of the scan order (receiver, position, donor, stop) that is retested, justified, screened and accepted; or leaves the tours, ends with no justified relocate that screen and fold would take, and stamps exactly the clients it looked at |
| `LocalSearch.IntraPass` | cpp/ls/local_search.cpp:249-280 | the same for moves within a route, in the order (route, stop, position) |
| `LocalSearch.SwapPass` | cpp/ls/local_search.cpp:282-329 | the same for swaps, in the order (first route, second route, stop, stop) |
| `LocalSearch.TwoOptStarPass` | cpp/ls/local_search.cpp:331-416 | the same for tail exchanges, keyed on both clients at the cut of the first route |
| `LocalSearch.CleanIsExhausted` | cpp/ls/local_search.cpp:86-126 | a clean scan of the enumerated moves leaves no justified move: the skipped ones are covered by the certificate |
| `Staleness.OtherIsOld` | cpp/ls/local_search.cpp:86-117 | when a justified move is skipped, the other route was not touched either; here symmetry of the lists and their agreement with the bitset are used |
| `Staleness.JustifiedRelocate` | cpp/ls/local_search.cpp:180-240 | under restricted lists a relocate is justified exactly when one of the arcs it creates around the moved client joins neighbours |
| `Staleness.JustifiedTailExchange` | cpp/ls/local_search.cpp:331-416 | under restricted lists a tail exchange is justified exactly when one of the two arcs at the cuts, read off the edited routes, joins neighbours |
| `Staleness.CarriesCertified` | cpp/ls/local_search.cpp:86-126 | whatever a step does to some routes, as long as it touches all their clients, a skipped justified move is one that would not be taken on the same two vertex lists |
| `Staleness.CommitCarries` | cpp/ls/local_search.cpp:29-79 | a commit is such a step |
| `Staleness.CleanPassCertifies` | cpp/ls/local_search.cpp:120-126 | a clean pass keeps the certificate, also when it ran under wider lists than the certificate's |
| `SearchRuns.EveryRunIsCertified` | cpp/ls/ls.h:82-99 | in every run of commits, clean passes, kicks, snapshot restores, mark_all_touched and fresh starts, every state is feasible and every justified move whose key clients are not retested would be rejected on its two lists |
| `Descents.LsDescend` | cpp/ls/local_search.cpp:450-470 | runs its rounds as the code does: a deadline check before each round and before each operator but the first, the operators in order up to the first that commits, until a round commits nothing or a check says yes; the descent terminates, stays feasible and certified, never gets dearer or gains a route, and the value is the solution duration; unless a check of this call said yes, in particular for a stream that never does, no justified move of any operator would be taken |
| `Descents.VndRound` | cpp/ls/local_search.cpp:456-465 | one round: the operators in order, each after its deadline check, up to the first commit; a round that neither commits nor is cut leaves a local optimum |
| `Descents.DescentIsDetermined` | cpp/ls/local_search.cpp:450-470 | the start state, the lists, the pricing and the deadline answers determine the tours a descent ends in, every stamp and the number of checks |
| `Descents.BetterShrinks` | cpp/ls/local_search.cpp:456-465 | the termination measure: a cheaper feasible state leaves a strictly smaller finite set of cheaper arrangements |
| `Descents.FeasibleIsArranged` | cpp/ls/local_search.cpp:456-465 | every feasible state is one of finitely many arrangements of the clients |
| `Descents.MarkAllTouched` | cpp/ls/local_search.cpp:420-423 | one epoch, every client touched, tours unchanged |
| `Descents.InitSearchState` | cpp/ls/local_search.cpp:436-448 | refuses exactly the lists with an infeasible route, otherwise everything touched and nothing tested |
| `Descents.ValueOfRoutes` | cpp/heuristics/greedy_makespan.cpp:147-172 | on live tours the solution duration is the stored duration sum plus F per route, None beyond the fleet bound |
| `ExactPrices.TakesAreImproving` | cpp/ls/local_search.cpp:152-416 | with the proved evaluators a pass takes a move if and only if it is feasible, fits, lowers the true objective by more than the screen and, for a relocate, gains on the donor's side |
| `ExactPrices.LocalOptimumIsTrue` | cpp/ls/local_search.cpp:450-470 | where a descent stops without a deadline, no justified move of any operator improves the true objective |
| `ExactPrices.ExactIsConsistent` | cpp/ls/squeeze.h:23-25 | at warp_horizon the penalised pricing is warp-free exactly on the feasible routes, with their durations: the hypothesis of the squeeze, fleet-descent and search results |
| `Repairs.PlaceBest` | cpp/ls/perturb.cpp:90-101 | the client goes to the best ranked slot the fold accepts; if there is none nothing changes |
| `Repairs.RankedInsertions` | cpp/ls/insertion.cpp:7-53 | exactly the slots that fit and rank feasible, best first |
| `Repairs.RestoredIsOld` | cpp/ls/fleet_descent.cpp:18-25 | rebuilding from the vertex snapshot gives back the very tours |
| `Perturbation.FisherYates` | cpp/ls/rng.h:18-22 | a permutation for every random stream, the one of the backward shuffle that swaps with draw mod (i + 1) |
| `Perturbation.ChooseRemovals` | cpp/ls/perturb.cpp:22-60 | the removed clients are the walk over the shuffled seeds and their lists up to the target, after a whole smallest route when dissolving: distinct, at least the target or everyone, never above the target unless a route was dissolved |
| `Perturbation.RuinRoutes` | cpp/ls/perturb.cpp:62-81 | what is left of the routes and the removed clients together hold every client once; emptied routes are dropped, untouched ones keep their order; refused exactly when the fold rejects the remainder of some route |
| `Perturbation.Recreate` | cpp/ls/perturb.cpp:83-116 | the removed clients are placed in the shuffled order, each at its best accepted slot or else in a singleton within the fleet bound; routes stay feasible and within capacity; it fails only at a client without an accepted slot whose singleton is barred by fleet or fold |
| `Perturbation.StampKick` | cpp/ls/perturb.cpp:169-197 | the touched stamps move exactly for removed clients and for those who shared or share a route with one |
| `Perturbation.Perturb` | cpp/ls/perturb.cpp:122-198 | the draws determine the outcome: attempts from the entry routes until one works out or the redraws are used up. An applied kick removed at least min(n, min_removals) and, unless it dissolved a route, at most min(n, max_removals); with priced routes, two routes and a dissolve rate of 100 every applied kick dissolves. The state is feasible within the fleet bound and every client of every changed route carries the new epoch; after a failed kick it is the entry state |
| `Perturbation.KickCertifies` | cpp/ls/perturb.cpp:169-197 | whatever was certified before the kick is certified after it |
| `WarpSearches.IndexRoute` | cpp/ls/squeeze.cpp:34-41 | route_of and pos_of point at the route, nobody else moves |
| `WarpSearches.InitWarpSearch` | cpp/ls/squeeze.cpp:43-64 | a fresh search has an exact index; it fails only on a hard wall |
| `WarpSearches.SetRoute` | cpp/ls/squeeze.cpp:68-92 | an empty list swap-erases the route and re-indexes the moved one; another list is rebuilt, or refused on a wall with nothing changed |
| `WarpSearches.PairKeepsExact` | cpp/ls/squeeze.cpp:34-41 | re-indexing two routes whose clients were redistributed keeps the index exact and the same clients placed |
| `WarpSearches.CommitRelocate` | cpp/ls/squeeze.cpp:277-287 | after a relocate, including one that empties and erases the donor, the index is exact and the same clients are placed |
| `WarpSearches.CommitSwap` | cpp/ls/squeeze.cpp:324-334 | after a swap the index is exact |
| `WarpSearches.ExactServed` | cpp/ls/squeeze.cpp:34-41 | an exact index serves every placed client exactly once |
| `Squeezes.TryRelocateAt` | cpp/ls/squeeze.cpp:246-290 | a relocate is committed exactly when it ranks, rebuilds and reprices better by more than the screen, and is charged what it priced; the penalised total then falls by more than the screen |
| `Squeezes.TrySwapAt` | cpp/ls/squeeze.cpp:294-340 | the same for a swap |
| `Squeezes.Relevant` | cpp/ls/squeeze.cpp:214-223 | the stamp reaches the computed epoch exactly when neither the client's route nor a partner's changed since it was stamped |
| `Squeezes.ClientStep` | cpp/ls/squeeze.cpp:210-351 | a client is skipped, for free, exactly when its stamp covers its own and its partners' routes; otherwise its partners are tried in list order, relocate before, relocate behind, swap, up to the first move that pays; one that finds none is stamped; the charge is exact and the certificate survives |
| `Squeezes.CommitKeepsCalm` | cpp/ls/squeeze.cpp:34-66 | skipping is sound across commits and swap-erases: a pair whose routes both carry epochs the client's stamp covers sits in the same two routes as when it was rejected, so no relocate or swap of it pays |
| `Squeezes.StampKeepsCalm` | cpp/ls/squeeze.cpp:350-350 | stamping a client of which nothing pays keeps the certificate and everybody else's skips |
| `Squeezes.ConvergedIsOptimum` | cpp/ls/squeeze.cpp:206-353 | when every client is skipped under the certificate, no relocate and no swap of any client against any partner pays |
| `Squeezes.MaybeBank` | cpp/ls/squeeze.cpp:148-156 | the bank holds nothing, or a warp-free, capacity-respecting solution for the same clients that beats the entry |
| `Squeezes.Sweep` | cpp/ls/squeeze.cpp:195-353 | one sweep over the clients in order: stops on the budget floor, on a deadline check at every 64th client that says yes, or, in repair mode, on a warp-free state; banks after every commit; without a stop and a commit every client is skipped |
| `Squeezes.Descend` | cpp/ls/squeeze.cpp:177-354 | sweeps until nothing improves or one is stopped; keeps the index exact and the placed clients, never raises the penalised total or the route count, keeps the bank sound, and a warp-free final state is banked or beaten; unless a deadline check of this call said yes, or budget or feasibility cut it short, it ends with every client skipped, and entered like that it does nothing at any penalty |
| `Squeezes.ExploreAndRepair` | cpp/ls/squeeze.cpp:374-386 | unless a deadline check or the budget cut the explore leg, its state is locally optimal at the exploring penalty and is the final one: the repair leg leaves state, bank and budget as they are |
| `Squeezes.RepairLeg` | cpp/ls/squeeze.cpp:380-386 | from a warp-free state, or one in which every client is skipped, the repair leg changes nothing and spends nothing |
| `LostRepairs.RepairIsLost` | cpp/ls/squeeze.cpp:374-386 | an instance with exact prices: from a feasible entry the explore leg commits one relocate and is then locally optimal and late, while at the repair weight a relocate pays that leads to a warp-free solution at 270 against the entry at 360 |
| `Squeezes.SqueezePhase` | cpp/ls/squeeze.cpp:358-393 | explore leg, repair leg, bank: true exactly when the bank holds something, and then the routes are a feasible solution for all clients, strictly cheaper than the entry by more than the screen, with no more routes; a warp-free final state that differs from the entry and beats it by more than two screens is adopted, or one at most a screen above it; otherwise the routes are the entry's |
| `SqueezeInsertion.BestForced` | cpp/ls/squeeze.cpp:414-474 | the forced insertion is the cheapest penalised one over route ends and neighbour seams, or over all positions when exhaustive, ties by route and position; one pricing is charged for every such position with room |
| `SqueezeInsertion.ScanRoute` | cpp/ls/squeeze.cpp:519-581 | the scan stops where the budget runs out and is charged exactly; if it does not run out, the move found is no worse than any relocate or swap of any stop of the route against any partner that fits and improves by more than the screen |
| `SqueezeInsertion.BestIsFirstLeast` | cpp/ls/squeeze.cpp:519-581 | of the moves scanned the first of the best ones is taken, and none exactly when none improves by more than the screen |
| `SqueezeInsertion.RepairAll` | cpp/ls/squeeze.cpp:487-627 | turn by turn: warp-free is success; no budget, no improving move of the drawn route with warp, or a best move that does not pay once rebuilt, is failure; otherwise the move is committed. Terminates by the budget; success keeps the same clients placed, and as many routes as before where every client can be served alone |
| `SqueezeInsertion.SqueezeInsert` | cpp/ls/squeeze.cpp:395-631 | fails exactly where an entry route or the client alone hits a wall, no position has room, the forced route hits a wall, or the repair fails, with the budget spent; failure returns the entry routes; success adds exactly c, all routes feasible and within capacity, none opened, and none emptied where every client can be served alone |
| `FleetDescents.BestWindow` | cpp/ls/fleet_descent.cpp:177-236 | the window found is the first in (difficulty, delta, route, start, end) among all windows allowed by the granular gate, the size limit and the capacity; every such window is charged once |
| `FleetDescents.InsertWithEjection` | cpp/ls/fleet_descent.cpp:161-265 | it succeeds exactly unless c cannot start a route, there is no window, or the fold rejects the first one; success: the client replaces the first window and exactly its clients join the pool; failure changes nothing |
| `FleetDescents.EjectKeeps` | cpp/ls/fleet_descent.cpp:242-265 | after an ejection routes and pool still hold every client once |
| `FleetDescents.DrainOne` | cpp/ls/fleet_descent.cpp:93-265 | one pop: the client of the rule leaves the pool and goes to its best accepted slot; else the squeeze, if enabled, takes it; else its difficulty rises by one and it is ejected for, or is a dead end. Work and draws are exact; routes and pool hold every client once, no route is opened |
| `FleetDescents.Drain` | cpp/ls/fleet_descent.cpp:75-268 | pops until the pool is empty; stopped by the work budget, by a deadline check that says yes, by the pop budget, in this order, or by a dead end; success leaves everyone served |
| `FleetDescents.DrainIsChain` | cpp/ls/fleet_descent.cpp:75-268 | a drain that succeeds is a chain of such pops from the dissolved state to an empty pool, within the pop budget, with one deadline check per pop and all of them answered no |
| `FleetDescents.FleetDescent` | cpp/ls/fleet_descent.cpp:29-270 | below two routes nothing happens; else the route of the rule is dissolved, a smallest one or any by one draw, and its stops, in order, are the pool of the drain. Success: everyone served in strictly fewer feasible routes, exactly one fewer with the squeeze ladder off or where every client can be served alone; failure: the entry tours in order, to the last stop |
| `LadderRescues.RescueEmptiesARoute` | cpp/ls/fleet_descent.cpp:124-160 | an instance with exact prices and a client that cannot be served alone: with one of three routes dissolved, the cheapest forced insertion and the best repairs, the second of which takes the last stop of a route, leave one feasible route |
| `Dijkstra.EarliestReadyTimes` | cpp/heuristics/construct.h:17-41 | for every vertex the earliest ready time over all paths through free customers, None where there is none |
| `Dijkstra.Covered` | cpp/heuristics/construct.h:30-40 | between pops every feasible path is overtaken by a settled label or by a queue entry that is no later |
| `Construction.EqualKeys` | cpp/heuristics/greedy_makespan.cpp:41-55 | the least multi-hop time equals the least direct time, so both rules choose with equal keys; they choose the same customer exactly when no smaller id ties |
| `Construction.ConstructionsCoincide` | cpp/heuristics/greedy_makespan.cpp:21-87 | the two constructions succeed or get stuck together, with the same routes, when no two drivable customers share an earliest ready time along the direct run; the direct construction has one outcome only |
| `Construction.Construct` | cpp/heuristics/greedy_makespan.cpp:21-74 | success: every client in exactly one non-empty route within capacity, each feasible from the earliest departure, each stop the choice of the rule; failure: the next route cannot start although somebody is left |
| `Construction.GreedyMeetsFold` | cpp/heuristics/greedy_makespan.cpp:21-74 | evaluate_route accepts a greedy route exactly when the earliest departure is within the horizon: the depot's due date is met by construction |
| `Construction.GreedyIsFeasible` | cpp/heuristics/greedy_makespan.cpp:21-74 | where no arc reaches past the horizon, evaluate_route accepts every greedy route |
| `Seeds.CheapestSplit` | cpp/heuristics/greedy_makespan.cpp:105-132 | the cheapest feasible split over all routes and cuts, ties to the first in scan order |
| `Seeds.SplitToK` | cpp/heuristics/greedy_makespan.cpp:89-145 | the result is reached by cutting the cheapest way one cut at a time; it keeps the partition, capacity and feasibility, never exceeds the target, and stops early only when nothing can be split |
| `Seeds.PartitionIsFeasible` | cpp/heuristics/greedy_makespan.cpp:147-172 | a partition whose routes the fold accepts, within capacity, prices to a feasible state |
| `IteratedSearch.Run.Publish` | cpp/heuristics/ils.cpp:103-122 | publishes exactly when within the cap and strictly below the last value |
| `IteratedSearch.PublishKeeps` | cpp/heuristics/ils.cpp:100-122 | a publication keeps the stream strictly decreasing, priced by its own routes and within the cap |
| `IteratedSearch.RestoredIsSnapshot` | cpp/heuristics/ils.cpp:31-53 | restoring only the routes that differ gives back the snapshot state, stamps included |
| `IteratedSearch.RunFleetDescent` | cpp/heuristics/ils.cpp:242-342 | attempts until one drops a route, the work runs out or a deadline check says yes; then the basins and squeezes of the drop or no-drop branch. No value: the live state is untouched; a value: it prices the live state, which has no more routes, and the best is not above it |
| `IteratedSearch.AcceptOrRestore` | cpp/heuristics/ils.cpp:482-500 | the candidate is accepted exactly when the cap guard allows it and it beats the late value or curr, otherwise the snapshot is back; the slot is rewritten exactly on improvement or when empty; curr prices the live state and is never below the best |
| `IteratedSearch.KickAndDescend` | cpp/heuristics/ils.cpp:401-440 | a kick of the live state was tried, as the draws have it, and the descent started from what it left |
| `IteratedSearch.Iterate` | cpp/heuristics/ils.cpp:401-500 | kick, descent, polish and record of a candidate below the best, late acceptance, in this order; keeps the loop invariant; at or below the cap the live route count stays there, above it never rises |
| `IteratedSearch.Loop` | cpp/heuristics/ils.cpp:362-501 | turn after turn: restart when due, triggers by period and by work, one iteration; the invariant holds for all streams of deadline answers, draws and work triggers; without a deadline all iterations run |
| `SearchSteps.LoopIsTurns` | cpp/heuristics/ils.cpp:362-501 | a loop is exactly as many turns as it reports, linked stage to stage, and falls short of the last iteration only on a deadline check that says yes |
| `IteratedSearch.SeedDrain` | cpp/heuristics/ils.cpp:345-361 | phases while above the cap, in time and shrinking: the drain of an over-cap seed ends, because it goes on only while the route count falls, and keeps the invariant |
| `IteratedSearch.SolveIls` | cpp/heuristics/ils.cpp:64-516 | the run is seed, first descent, polish, seed drain and loop, all fixed by the three streams; the incumbents strictly decrease, each is priced by its own routes and within the cap; a non-empty result is a feasible solution at its value within cap and fleet; with priced routes, a seed factor of at most one or a warm start it is the last incumbent; a split seed may leave it above the last incumbent, never below, and is itself the result of a run of no iterations where no move improves it; without one, "non-empty exactly when something was published" holds if and only if there is at least one client |
| `SplitSeeds.ResultIsAbove` | cpp/heuristics/ils.cpp:140-187 | an instance with exact prices on which every such run publishes 27 for the greedy route and returns 42 for its split, because the granular lists justify no move back |

## Left out

- IEEE rounding: durations, deltas and thresholds are exact reals; the canonical summation order of `solution_duration` is therefore immaterial.
- Wall-clock deadlines, work counters of the local search and the random generator: arbitrary streams of answers, one per check, look and draw. The work budgets of the squeeze and of the fleet descent are modelled.
- Statistics (`LsStats`, `FdStats`, `KStats`, `FleetKickStats`, `KCapStats`), elapsed seconds, iteration numbers, origins and the status field of incumbents and results.
- The ATF pool with its offsets: arcs are functions. The packed neighbour bitset is a Boolean matrix.
- The cached deletion rankings of a route state: the ranking is recomputed from the vertex list.
- Copies and moves of vectors: a route state or tour is a value in a sequence field; aliasing between states is not modelled.
- `update_leaf` and `build` are proved for the generic tree; `WarpLcaTree` is its instance for warp segments.
- `std::sort`, `std::partial_sort` and `std::priority_queue` are an insertion sort, repeated selection and a linear minimum with the same order.
- The `local_search` convenience wrappers, `cpp/heuristics/aco.cpp`, `cpp/bindings/module.cpp`, the Python package and the vendored `cpp/lera` code.
- IteratedSearch.SolveIls: a warm start must be a feasible solution, as `cpp/heuristics/heuristics.h:333-334` demands of the caller; the model needs of it only that it holds every client once within capacity and fleet, and handles one that misses its time windows.
- Squeezes.SqueezePhase: assumes the penalised pricing is consistent with the plain one, which `ExactPrices.ExactIsConsistent` proves for the exact evaluators.
