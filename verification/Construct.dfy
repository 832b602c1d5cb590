/** The greedy constructions (cpp/heuristics/greedy_makespan.cpp): nearest ready time first, with the
    direct key or with the multi-hop look-ahead, and the split that diversifies a seed. */
module Construction {
  import opened Common
  import opened Pwlfs
  import opened Instances
  import opened RouteEvaluation
  import opened SearchStates
  import opened Descents
  import opened WarpSearches
  import opened Dijkstra

  // ---------- choosing the next customer ----------

  /** A free customer that can be driven to right away. */
  predicate Direct(inst: Problem, free: seq<bool>, cur: int, t: real, v: int)
    requires |free| == inst.n + 1 && inst.Vertex(cur)
  {
    inst.Customer(v) && free[v] && ReadyNext(inst, cur, v, t).Some?
  }

  /** The selection keys: direct ready times, or earliest ready times over paths of free customers. */
  ghost predicate KeysOk(inst: Problem, free: seq<bool>, cur: int, t: real, lookahead: bool, keys: seq<Option<real>>)
    requires |free| == inst.n + 1 && inst.Vertex(cur)
  {
    |keys| == inst.n + 1 && forall v :: inst.Customer(v) && free[v] ==>
      if lookahead then Earliest(inst, free, cur, t, v, keys[v]) else keys[v] == ReadyNext(inst, cur, v, t)
  }

  predicate KeyBefore(keys: seq<Option<real>>, u: int, v: int)
    requires 0 <= u < |keys| && 0 <= v < |keys| && keys[u].Some? && keys[v].Some?
  {
    keys[u].value < keys[v].value || (keys[u].value == keys[v].value && u < v)
  }

  /** The directly reachable customer with the least key, smallest id on ties. */
  ghost predicate Chosen(inst: Problem, free: seq<bool>, cur: int, t: real, keys: seq<Option<real>>, next: Option<int>)
    requires |free| == |keys| == inst.n + 1 && inst.Vertex(cur)
    requires forall v :: Direct(inst, free, cur, t, v) ==> keys[v].Some?
  {
    if next.None? then forall v :: !Direct(inst, free, cur, t, v)
    else Direct(inst, free, cur, t, next.value)
         && forall u :: Direct(inst, free, cur, t, u) && u != next.value ==> KeyBefore(keys, next.value, u)
  }

  /** A direct step is a path of one customer. */
  lemma OneStep(inst: Problem, free: seq<bool>, cur: int, t: real, v: int)
    requires |free| == inst.n + 1 && inst.Vertex(cur) && Direct(inst, free, cur, t, v)
    ensures Last(cur, [v]) == v && Reach(inst, free, cur, t, [v]) == ReadyNext(inst, cur, v, t)
  {
    hide ReadyNext;
    EmptyReach(inst, free, cur, t, []);
    ReachExtend(inst, free, cur, t, [], v);
    assert [] + [v] == [v];
  }

  /** Direct customers have keys, and the look-ahead key is never later than the direct one. */
  lemma KeysOfDirect(inst: Problem, free: seq<bool>, cur: int, t: real, lookahead: bool, keys: seq<Option<real>>)
    requires |free| == inst.n + 1 && inst.Vertex(cur) && KeysOk(inst, free, cur, t, lookahead, keys)
    ensures forall v :: Direct(inst, free, cur, t, v) ==> keys[v].Some? && keys[v].value <= ReadyNext(inst, cur, v, t).value
  {
    hide ReadyNext, Reach;
    forall v | Direct(inst, free, cur, t, v) ensures keys[v].Some? && keys[v].value <= ReadyNext(inst, cur, v, t).value {
      OneStep(inst, free, cur, t, v);
    }
  }

  /** Every path through free customers starts with a direct step that is no later than its end. */
  lemma {:induction false} FirstStep(inst: Problem, free: seq<bool>, cur: int, t: real, stops: seq<int>)
    requires |free| == inst.n + 1 && inst.Vertex(cur) && inst.horizonStart <= t && |stops| > 0
    requires Reach(inst, free, cur, t, stops).Some?
    ensures Direct(inst, free, cur, t, stops[0]) && ReadyNext(inst, cur, stops[0], t).value <= Reach(inst, free, cur, t, stops).value
    decreases |stops|
  {
    hide ReadyNext, Reach;
    ReachShorter(inst, free, cur, t, stops);
    var before := stops[..|stops| - 1];
    if |before| == 0 {
      EmptyReach(inst, free, cur, t, before);
      assert before == [];
    } else {
      FirstStep(inst, free, cur, t, before);
      ReachForward(inst, free, cur, t, before);
      var y := Reach(inst, free, cur, t, before).value;
      ReadyNextMonotone(inst, Last(cur, before), stops[|stops| - 1], y, y);
    }
  }

  /** Both rules choose with equal keys: the least multi-hop time is the least direct time. */
  lemma EqualKeys(inst: Problem, free: seq<bool>, cur: int, t: real, direct: seq<Option<real>>, eat: seq<Option<real>>, d: int, l: int)
    requires |free| == inst.n + 1 && inst.Vertex(cur) && inst.horizonStart <= t && !(inst.Customer(cur) && free[cur])
    requires KeysOk(inst, free, cur, t, false, direct) && KeysOk(inst, free, cur, t, true, eat)
    requires (forall v :: Direct(inst, free, cur, t, v) ==> direct[v].Some? && eat[v].Some?)
    requires Chosen(inst, free, cur, t, direct, Some(d)) && Chosen(inst, free, cur, t, eat, Some(l))
    ensures direct[d] == eat[l] == eat[d]
    ensures d == l <==> forall u :: Direct(inst, free, cur, t, u) && u < d ==> eat[u] != eat[l]
  {
    hide ReadyNext, Reach;
    KeysOfDirect(inst, free, cur, t, true, eat);
    KeysOfDirect(inst, free, cur, t, false, direct);
    var stops :| Last(cur, stops) == l && Reach(inst, free, cur, t, stops) == Some(eat[l].value);
    FirstStep(inst, free, cur, t, stops);
    assert direct[stops[0]] == ReadyNext(inst, cur, stops[0], t);
    assert direct[d].value <= direct[stops[0]].value;
    assert eat[l].value <= eat[d].value;
    if d != l { assert KeyBefore(eat, l, d); }
  }

  method SelectNext(inst: Problem, free: seq<bool>, cur: int, t: real, keys: seq<Option<real>>) returns (next: Option<int>)
    requires |free| == |keys| == inst.n + 1 && inst.Vertex(cur)
    requires forall v :: Direct(inst, free, cur, t, v) ==> keys[v].Some?
    ensures Chosen(inst, free, cur, t, keys, next)
  {
    hide ReadyNext;
    next := None;
    for v := 1 to inst.n + 1
      invariant next.None? ==> forall u :: 1 <= u < v ==> !Direct(inst, free, cur, t, u)
      invariant next.Some? ==> next.value < v && Direct(inst, free, cur, t, next.value)
      invariant next.Some? ==> forall u :: 1 <= u < v && Direct(inst, free, cur, t, u) && u != next.value ==> KeyBefore(keys, next.value, u)
    {
      if free[v] && ReadyNext(inst, cur, v, t).Some? {
        assert Direct(inst, free, cur, t, v);
        if next.None? || keys[v].value < keys[next.value].value { next := Some(v); }
      }
    }
  }

  method DirectKeys(inst: Problem, cur: int, t: real) returns (keys: seq<Option<real>>)
    requires inst.Vertex(cur)
    ensures |keys| == inst.n + 1 && forall v :: inst.Customer(v) ==> keys[v] == ReadyNext(inst, cur, v, t)
  {
    hide ReadyNext;
    keys := [None];
    for v := 1 to inst.n + 1
      invariant |keys| == v && forall u :: 1 <= u < v ==> keys[u] == ReadyNext(inst, cur, u, t)
    {
      keys := keys + [ReadyNext(inst, cur, v, t)];
    }
  }

  method Keys(inst: Problem, free: seq<bool>, cur: int, t: real, lookahead: bool) returns (keys: seq<Option<real>>)
    requires |free| == inst.n + 1 && inst.Vertex(cur) && !free[0] && !free[cur] && inst.horizonStart <= t
    ensures |keys| == inst.n + 1 && KeysOk(inst, free, cur, t, lookahead, keys)
  {
    hide ReadyNext, Earliest;
    if lookahead { keys := EarliestReadyTimes(inst, cur, t, free); } else { keys := DirectKeys(inst, cur, t); }
  }

  // ---------- what a construction run is ----------

  function Minus(free: seq<bool>, list: seq<int>): seq<bool> {
    seq(|free|, v requires 0 <= v < |free| => free[v] && v !in list)
  }

  predicate Guards(w: World, v: int, ready: real, load: int)
    requires w.inst.Customer(v)
  {
    DepotReturnFeasible(w.inst, v, ready) && load + DemandOf(w.inst, v) <= w.inst.capacity
  }

  /** The state of the run at one decision. */
  datatype Point = Point(free: seq<bool>, cur: int, t: real, load: int)

  ghost predicate PointOk(w: World, s: Point) {
    |s.free| == w.inst.n + 1 && w.inst.Vertex(s.cur) && !s.free[0] && !s.free[s.cur] && w.inst.horizonStart <= s.t
  }

  /** The decision at a point: the chosen customer if it passes the guards, else the route closes. */
  ghost predicate Decides(w: World, lookahead: bool, s: Point, taken: Option<int>)
    requires PointOk(w, s)
  {
    exists keys, next :: DecidesBy(w, lookahead, s, keys, next, taken)
  }

  ghost predicate DecidesBy(w: World, lookahead: bool, s: Point, keys: seq<Option<real>>, next: Option<int>, taken: Option<int>)
    requires PointOk(w, s)
  {
    && KeysOk(w.inst, s.free, s.cur, s.t, lookahead, keys)
    && (forall v :: Direct(w.inst, s.free, s.cur, s.t, v) ==> keys[v].Some?)
    && Chosen(w.inst, s.free, s.cur, s.t, keys, next)
    && taken == if next.Some? && Guards(w, next.value, ReadyNext(w.inst, s.cur, next.value, s.t).value, s.load) then next else None
  }

  /** No two customers that can be driven to share an earliest ready time. */
  ghost predicate NoTies(w: World, s: Point)
    requires PointOk(w, s)
  {
    forall keys, u, v ::
      KeysOk(w.inst, s.free, s.cur, s.t, true, keys) && Direct(w.inst, s.free, s.cur, s.t, u) && Direct(w.inst, s.free, s.cur, s.t, v) && u != v ==>
        keys[u] != keys[v]
  }

  /** The direct rule decides one way only, and without ties the look-ahead rule decides the same. */
  lemma SameDecision(w: World, lookahead: bool, s: Point, a: Option<int>, b: Option<int>)
    requires PointOk(w, s) && Decides(w, lookahead, s, a) && Decides(w, false, s, b) && (lookahead ==> NoTies(w, s))
    ensures a == b
  {
    hide ReadyNext, KeysOk, Guards;
    var eat, l :| DecidesBy(w, lookahead, s, eat, l, a);
    var direct, d :| DecidesBy(w, false, s, direct, d, b);
    if l.Some? && d.Some? {
      if lookahead { EqualKeys(w.inst, s.free, s.cur, s.t, direct, eat, d.value, l.value); } else { SameChoice(w.inst, s.free, s.cur, s.t, eat, direct, l.value, d.value); }
    }
  }

  lemma SameChoice(inst: Problem, free: seq<bool>, cur: int, t: real, a: seq<Option<real>>, b: seq<Option<real>>, x: int, y: int)
    requires |free| == inst.n + 1 && inst.Vertex(cur) && KeysOk(inst, free, cur, t, false, a) && KeysOk(inst, free, cur, t, false, b)
    requires forall v :: Direct(inst, free, cur, t, v) ==> a[v].Some? && b[v].Some?
    requires Chosen(inst, free, cur, t, a, Some(x)) && Chosen(inst, free, cur, t, b, Some(y))
    ensures x == y
  {
    hide ReadyNext;
    assert a[x] == b[x] && a[y] == b[y];
  }

  /** Where the run stands inside a route after p stops. */
  function PointAt(w: World, free: seq<bool>, path: seq<int>, p: nat): Option<Point>
    requires p <= |path| && w.inst.Route(path)
  {
    var t := Chain(w.inst, 0, path[..p], DepartureLow(w.inst));
    if t.None? then None else Some(Point(Minus(free, path[..p]), Last(0, path[..p]), t.value, Load(w.inst, path[..p])))
  }

  /** Every stop of the route, and its end, is the decision of the rule at that point. */
  ghost predicate PathFollows(w: World, lookahead: bool, free: seq<bool>, path: seq<int>) {
    && w.inst.Route(path)
    && forall p: nat :: p <= |path| ==>
         && PointAt(w, free, path, p).Some? && PointOk(w, PointAt(w, free, path, p).value)
         && Decides(w, lookahead, PointAt(w, free, path, p).value, if p < |path| then Some(path[p]) else None)
  }

  ghost predicate TieFree(w: World, free: seq<bool>, path: seq<int>) {
    w.inst.Route(path) && forall p: nat :: p <= |path| && PointAt(w, free, path, p).Some? && PointOk(w, PointAt(w, free, path, p).value) ==>
      NoTies(w, PointAt(w, free, path, p).value)
  }

  lemma {:induction false} SamePath(w: World, lookahead: bool, free: seq<bool>, a: seq<int>, b: seq<int>, k: nat)
    requires PathFollows(w, lookahead, free, a) && PathFollows(w, false, free, b) && (lookahead ==> TieFree(w, free, b)) && k <= |a| && k <= |b|
    ensures a[..k] == b[..k]
    decreases k
  {
    hide Decides, NoTies, PointOk, Load;
    if k > 0 {
      SamePath(w, lookahead, free, a, b, k - 1);
      assert PointAt(w, free, a, k - 1) == PointAt(w, free, b, k - 1);
      SameDecision(w, lookahead, PointAt(w, free, b, k - 1).value, Some(a[k - 1]), Some(b[k - 1]));
      assert a[..k] == a[..k - 1] + [a[k - 1]] && b[..k] == b[..k - 1] + [b[k - 1]];
    }
  }

  /** Routes from the same free customers coincide; a look-ahead one with a direct one when no ties occur. */
  lemma PathsCoincide(w: World, lookahead: bool, free: seq<bool>, a: seq<int>, b: seq<int>)
    requires PathFollows(w, lookahead, free, a) && PathFollows(w, false, free, b) && (lookahead ==> TieFree(w, free, b))
    ensures a == b
  {
    hide Decides, NoTies, PointOk, Load;
    var k := if |a| <= |b| then |a| else |b|;
    SamePath(w, lookahead, free, a, b, k);
    assert PointAt(w, free, a, k) == PointAt(w, free, b, k);
    SameDecision(w, lookahead, PointAt(w, free, b, k).value, if k < |a| then Some(a[k]) else None, if k < |b| then Some(b[k]) else None);
    assert a[..k] == b[..k];
  }

  function FreeAfter(n: nat, routes: seq<seq<int>>): seq<bool> {
    if |routes| == 0 then seq(n + 1, v => v != 0) else Minus(FreeAfter(n, routes[..|routes| - 1]), routes[|routes| - 1])
  }

  /** The routes of a run: each follows the rule on what the earlier ones left free; at the end nobody
      is left. */
  ghost predicate RoutesFollow(w: World, lookahead: bool, routes: seq<seq<int>>) {
    forall k :: 0 <= k < |routes| ==> |routes[k]| > 0 && PathFollows(w, lookahead, FreeAfter(w.inst.n, routes[..k]), routes[k])
  }

  ghost predicate NobodyLeft(n: nat, routes: seq<seq<int>>) {
    |FreeAfter(n, routes)| == n + 1 && forall v :: 1 <= v <= n ==> !FreeAfter(n, routes)[v]
  }

  ghost predicate TieFreeRun(w: World, routes: seq<seq<int>>) {
    forall k :: 0 <= k < |routes| ==> TieFree(w, FreeAfter(w.inst.n, routes[..k]), routes[k])
  }

  lemma {:induction false} SameRoutes(w: World, lookahead: bool, a: seq<seq<int>>, b: seq<seq<int>>, k: nat)
    requires RoutesFollow(w, lookahead, a) && RoutesFollow(w, false, b) && (lookahead ==> TieFreeRun(w, b)) && k <= |a| && k <= |b|
    ensures a[..k] == b[..k]
    decreases k
  {
    hide PathFollows, TieFree, FreeAfter;
    if k > 0 {
      SameRoutes(w, lookahead, a, b, k - 1);
      PathsCoincide(w, lookahead, FreeAfter(w.inst.n, b[..k - 1]), a[k - 1], b[k - 1]);
      assert a[..k] == a[..k - 1] + [a[k - 1]] && b[..k] == b[..k - 1] + [b[k - 1]];
    }
  }

  /** A route of a run takes somebody who was free. */
  lemma FirstWasFree(w: World, lookahead: bool, free: seq<bool>, path: seq<int>)
    requires PathFollows(w, lookahead, free, path) && |path| > 0 && |free| == w.inst.n + 1
    ensures w.inst.Customer(path[0]) && free[path[0]]
  {
    hide ReadyNext, KeysOk, Guards;
    assert path[..0] == [];
    var s := PointAt(w, free, path, 0).value;
    assert Decides(w, lookahead, s, Some(path[0]));
    var keys, next :| DecidesBy(w, lookahead, s, keys, next, Some(path[0]));
    assert Direct(w.inst, s.free, s.cur, s.t, path[0]);
  }

  /** A finished run: everybody is served, or the next route cannot start although somebody is left. */
  ghost predicate RunOutcome(w: World, lookahead: bool, ok: bool, routes: seq<seq<int>>) {
    && RoutesFollow(w, lookahead, routes) && (ok <==> NobodyLeft(w.inst.n, routes))
    && (!ok ==> PathFollows(w, lookahead, FreeAfter(w.inst.n, routes), []))
  }

  /** No ties along a run, nor where it got stuck. */
  ghost predicate TieFreeOutcome(w: World, ok: bool, routes: seq<seq<int>>) {
    TieFreeRun(w, routes) && (!ok ==> TieFree(w, FreeAfter(w.inst.n, routes), []))
  }

  /** Neither run stops where the other goes on: it would have to decide differently there. */
  lemma NoShorterRun(w: World, la: bool, okA: bool, a: seq<seq<int>>, lb: bool, okB: bool, b: seq<seq<int>>)
    requires RunOutcome(w, la, okA, a) && RunOutcome(w, lb, okB, b) && !(la && lb) && |a| <= |b| && b[..|a|] == a
    requires (la ==> TieFreeRun(w, b)) && (lb && !okA ==> TieFree(w, FreeAfter(w.inst.n, a), []))
    ensures |a| == |b|
  {
    hide PathFollows, TieFree, FreeAfter;
    var free := FreeAfter(w.inst.n, a);
    FreeMeansUnused(w.inst.n, a);
    if |a| < |b| {
      FirstWasFree(w, lb, free, b[|a|]);
      if lb { PathsCoincide(w, true, free, b[|a|], []); } else { PathsCoincide(w, la, free, [], b[|a|]); }
      assert false;
    }
  }

  /** The two constructions end alike, with the same routes, when no ties occur along the direct one; and
      the direct construction has only one outcome. */
  lemma ConstructionsCoincide(w: World, lookahead: bool, okA: bool, a: seq<seq<int>>, okB: bool, b: seq<seq<int>>)
    requires RunOutcome(w, lookahead, okA, a) && RunOutcome(w, false, okB, b) && (lookahead ==> TieFreeOutcome(w, okB, b))
    ensures okA == okB && a == b
  {
    hide PathFollows, TieFree, FreeAfter;
    var k := if |a| <= |b| then |a| else |b|;
    SameRoutes(w, lookahead, a, b, k);
    assert a[..|a|] == a && b[..|b|] == b;
    if |a| == k { NoShorterRun(w, lookahead, okA, a, false, okB, b); } else { NoShorterRun(w, false, okB, b, lookahead, okA, a); }
  }

  // ---------- the construction ----------

  ghost function FreeSet(n: nat, free: seq<bool>): set<int>
    requires |free| == n + 1
  {
    set v | 0 <= v <= n && free[v]
  }

  lemma TakeShrinks(n: nat, free: seq<bool>, v: int)
    requires |free| == n + 1 && 0 <= v <= n && free[v]
    ensures FreeSet(n, free[v := false]) == FreeSet(n, free) - {v} && v in FreeSet(n, free)
    ensures |FreeSet(n, free[v := false])| == |FreeSet(n, free)| - 1
  {
  }

  /** Extending the route by the chosen customer. */
  lemma PointNext(w: World, free: seq<bool>, path: seq<int>, v: int)
    requires w.inst.Route(path) && w.inst.Customer(v) && |free| == w.inst.n + 1
    requires PointAt(w, free, path, |path|).Some?
    ensures w.inst.Route(path + [v])
    ensures forall p: nat :: p <= |path| ==> PointAt(w, free, path + [v], p) == PointAt(w, free, path, p)
    ensures var s := PointAt(w, free, path, |path|).value;
            var ready := ReadyNext(w.inst, s.cur, v, s.t);
            PointAt(w, free, path + [v], |path| + 1) ==
            if ready.None? then None else Some(Point(s.free[v := false], v, ready.value, s.load + DemandOf(w.inst, v)))
  {
    hide ReadyNext;
    forall p: nat | p <= |path| ensures PointAt(w, free, path + [v], p) == PointAt(w, free, path, p) {
      assert (path + [v])[..p] == path[..p];
    }
    var s := PointAt(w, free, path, |path|).value;
    assert path[..|path|] == path && (path + [v])[..|path| + 1] == path + [v];
    ChainConcat(w.inst, 0, path, [v], DepartureLow(w.inst));
    assert [v][1..] == [];
    LoadConcat(w.inst, path, [v]);
    LoadOne(w.inst, v);
    if |s.free| == w.inst.n + 1 {
      assert Minus(free, path + [v]) == Minus(free, path)[v := false];
    }
  }

  /** The stops so far are decisions of the rule. */
  ghost predicate Follows(w: World, lookahead: bool, free: seq<bool>, path: seq<int>, len: nat)
    requires len <= |path| && w.inst.Route(path)
  {
    forall p: nat :: p < len ==>
      && PointAt(w, free, path, p).Some? && PointOk(w, PointAt(w, free, path, p).value)
      && Decides(w, lookahead, PointAt(w, free, path, p).value, Some(path[p]))
  }

  lemma FollowsNext(w: World, lookahead: bool, free: seq<bool>, path: seq<int>, v: int)
    requires w.inst.Route(path) && w.inst.Customer(v) && |free| == w.inst.n + 1 && Follows(w, lookahead, free, path, |path|)
    requires PointAt(w, free, path, |path|).Some? && PointOk(w, PointAt(w, free, path, |path|).value)
    requires Decides(w, lookahead, PointAt(w, free, path, |path|).value, Some(v))
    ensures w.inst.Route(path + [v]) && Follows(w, lookahead, free, path + [v], |path| + 1)
  {
    hide Decides, PointOk, PointAt;
    PointNext(w, free, path, v);
  }

  /** Distinct free customers, feasible from the earliest departure up to the return, within capacity. */
  ghost predicate GreedyRoute(w: World, free: seq<bool>, path: seq<int>)
    requires |free| == w.inst.n + 1
  {
    && w.inst.Route(path) && Distinct(path) && (forall k :: 0 <= k < |path| ==> free[path[k]])
    && Chain(w.inst, 0, path, DepartureLow(w.inst)).Some?
    && (|path| > 0 ==> DepotReturnFeasible(w.inst, path[|path| - 1], Chain(w.inst, 0, path, DepartureLow(w.inst)).value)
                       && Load(w.inst, path) <= w.inst.capacity)
  }

  /** The running variables of a route under construction are its point. */
  ghost predicate Running(w: World, lookahead: bool, free0: seq<bool>, path: seq<int>, free: seq<bool>, cur: int, t: real, load: int) {
    && |free0| == w.inst.n + 1 && w.inst.Route(path)
    && PointAt(w, free0, path, |path|) == Some(Point(free, cur, t, load)) && PointOk(w, Point(free, cur, t, load))
    && Follows(w, lookahead, free0, path, |path|) && GreedyRoute(w, free0, path)
  }

  lemma RunningStep(w: World, lookahead: bool, free0: seq<bool>, path: seq<int>, free: seq<bool>, cur: int, t: real, load: int,
                    keys: seq<Option<real>>, v: int)
    requires Running(w, lookahead, free0, path, free, cur, t, load)
    requires KeysOk(w.inst, free, cur, t, lookahead, keys) && (forall u :: Direct(w.inst, free, cur, t, u) ==> keys[u].Some?)
    requires Chosen(w.inst, free, cur, t, keys, Some(v)) && Guards(w, v, ReadyNext(w.inst, cur, v, t).value, load)
    ensures Running(w, lookahead, free0, path + [v], free[v := false], v, ReadyNext(w.inst, cur, v, t).value, load + DemandOf(w.inst, v))
  {
    hide ReadyNext, Earliest, Guards, Load, Chosen, PointAt, GreedyRoute, Follows;
    var s := Point(free, cur, t, load);
    ChosenIsDirect(w.inst, free, cur, t, keys, Some(v));
    assert DecidesBy(w, lookahead, s, keys, Some(v), Some(v));
    FollowsNext(w, lookahead, free0, path, v);
    PointNext(w, free0, path, v);
    ReadyNextMonotone(w.inst, cur, v, t, t);
    GreedyStep(w, free0, path, free, cur, t, load, v);
  }

  lemma GreedyStep(w: World, free0: seq<bool>, path: seq<int>, free: seq<bool>, cur: int, t: real, load: int, v: int)
    requires |free0| == w.inst.n + 1 && GreedyRoute(w, free0, path) && w.inst.Route(path)
    requires PointAt(w, free0, path, |path|) == Some(Point(free, cur, t, load)) && w.inst.Vertex(cur)
    requires w.inst.Customer(v) && |free| == w.inst.n + 1 && free[v] && ReadyNext(w.inst, cur, v, t).Some?
    requires Guards(w, v, ReadyNext(w.inst, cur, v, t).value, load)
    ensures GreedyRoute(w, free0, path + [v])
  {
    hide ReadyNext, DepotReturnFeasible, Load;
    PointNext(w, free0, path, v);
    assert path[..|path|] == path && (path + [v])[..|path| + 1] == path + [v];
    assert v !in path;
  }

  /** One route: keep taking the chosen customer until nobody is chosen or a guard fails. */
  method BuildRoute(w: World, lookahead: bool, free0: seq<bool>, remaining0: int) returns (path: seq<int>, free: seq<bool>, remaining: int)
    requires |free0| == w.inst.n + 1 && !free0[0] && remaining0 == |FreeSet(w.inst.n, free0)|
    ensures PathFollows(w, lookahead, free0, path) && GreedyRoute(w, free0, path)
    ensures free == Minus(free0, path) && |free| == w.inst.n + 1 && !free[0] && remaining == |FreeSet(w.inst.n, free)|
    ensures remaining <= remaining0 && (|path| > 0 ==> remaining < remaining0)
  {
    hide ReadyNext, KeysOk, Chosen, Guards, Load, Running, FreeSet, PathFollows, GreedyRoute;
    path, free, remaining := [], free0, remaining0;
    var cur, t, load := 0, DepartureLow(w.inst), 0;
    StartRoute(w, lookahead, free0);
    while true
      invariant |free| == w.inst.n + 1 && Running(w, lookahead, free0, path, free, cur, t, load)
      invariant remaining == |FreeSet(w.inst.n, free)| && remaining <= remaining0 && (|path| > 0 ==> remaining < remaining0)
      decreases FreeSet(w.inst.n, free)
    {
      RunningPoint(w, lookahead, free0, path, free, cur, t, load);
      var keys := Keys(w.inst, free, cur, t, lookahead);
      KeysOfDirect(w.inst, free, cur, t, lookahead, keys);
      var next := SelectNext(w.inst, free, cur, t, keys);
      ChosenIsDirect(w.inst, free, cur, t, keys, next);
      if next.None? {
        RouteCloses(w, lookahead, free0, path, free, cur, t, load, keys, next);
        return;
      }
      var v := next.value;
      var ready := ReadyNext(w.inst, cur, v, t).value;
      if !Guards(w, v, ready, load) {
        RouteCloses(w, lookahead, free0, path, free, cur, t, load, keys, next);
        return;
      }
      RunningStep(w, lookahead, free0, path, free, cur, t, load, keys, v);
      TakeShrinks(w.inst.n, free, v);
      path, t, load := path + [v], ready, load + w.inst.demands[v];
      free, remaining, cur := free[v := false], remaining - 1, v;
    }
  }

  lemma StartRoute(w: World, lookahead: bool, free0: seq<bool>)
    requires |free0| == w.inst.n + 1 && !free0[0]
    ensures Running(w, lookahead, free0, [], free0, 0, DepartureLow(w.inst), 0)
  {
    assert Minus(free0, []) == free0;
    var none: seq<int> := [];
    assert none[..0] == none;
  }

  lemma RunningPoint(w: World, lookahead: bool, free0: seq<bool>, path: seq<int>, free: seq<bool>, cur: int, t: real, load: int)
    requires Running(w, lookahead, free0, path, free, cur, t, load)
    ensures PointOk(w, Point(free, cur, t, load)) && free == Minus(free0, path)
  {
    assert path[..|path|] == path;
  }

  lemma ChosenIsDirect(inst: Problem, free: seq<bool>, cur: int, t: real, keys: seq<Option<real>>, next: Option<int>)
    requires |free| == |keys| == inst.n + 1 && inst.Vertex(cur)
    requires forall v :: Direct(inst, free, cur, t, v) ==> keys[v].Some?
    requires Chosen(inst, free, cur, t, keys, next)
    ensures next.Some? ==> Direct(inst, free, cur, t, next.value)
  {
  }

  lemma RouteCloses(w: World, lookahead: bool, free0: seq<bool>, path: seq<int>, free: seq<bool>, cur: int, t: real, load: int,
                    keys: seq<Option<real>>, next: Option<int>)
    requires Running(w, lookahead, free0, path, free, cur, t, load)
    requires KeysOk(w.inst, free, cur, t, lookahead, keys) && (forall u :: Direct(w.inst, free, cur, t, u) ==> keys[u].Some?)
    requires Chosen(w.inst, free, cur, t, keys, next)
    requires next.Some? ==> Direct(w.inst, free, cur, t, next.value) && !Guards(w, next.value, ReadyNext(w.inst, cur, next.value, t).value, load)
    ensures PathFollows(w, lookahead, free0, path) && GreedyRoute(w, free0, path)
  {
    hide ReadyNext, KeysOk, Guards, Load, GreedyRoute, Chosen, PointAt;
    var s := Point(free, cur, t, load);
    assert DecidesBy(w, lookahead, s, keys, next, None);
  }

  /** Every client is in exactly one non-empty route. */
  ghost predicate PartitionOf(n: nat, routes: seq<seq<int>>) {
    && Separate(n, routes) && (forall k :: 0 <= k < |routes| ==> |routes[k]| > 0)
    && forall v :: 1 <= v <= n ==> InSome(routes, v)
  }

  ghost predicate InSome(routes: seq<seq<int>>, v: int) {
    exists k :: 0 <= k < |routes| && v in routes[k]
  }

  /** Every route fits a vehicle and can be driven from the earliest departure. */
  ghost predicate GreedyFeasible(w: World, routes: seq<seq<int>>) {
    forall k :: 0 <= k < |routes| ==>
      && w.inst.Route(routes[k]) && Load(w.inst, routes[k]) <= w.inst.capacity
      && Chain(w.inst, 0, routes[k], DepartureLow(w.inst)).Some?
      && |routes[k]| > 0 && DepotReturnFeasible(w.inst, routes[k][|routes[k]| - 1], Chain(w.inst, 0, routes[k], DepartureLow(w.inst)).value)
  }

  /** What is free is what no route holds. */
  lemma {:induction false} FreeMeansUnused(n: nat, routes: seq<seq<int>>)
    ensures |FreeAfter(n, routes)| == n + 1 && !FreeAfter(n, routes)[0]
    ensures forall v :: 1 <= v <= n ==> (FreeAfter(n, routes)[v] <==> forall k :: 0 <= k < |routes| ==> v !in routes[k])
    decreases |routes|
  {
    if |routes| > 0 {
      FreeMeansUnused(n, routes[..|routes| - 1]);
    }
  }

  lemma AddRoute(w: World, routes: seq<seq<int>>, path: seq<int>)
    requires Separate(w.inst.n, routes) && |FreeAfter(w.inst.n, routes)| == w.inst.n + 1 && GreedyRoute(w, FreeAfter(w.inst.n, routes), path)
    ensures Separate(w.inst.n, routes + [path])
  {
    hide Load, Chain, DepotReturnFeasible;
    var n := w.inst.n;
    FreeMeansUnused(n, routes);
    assert forall k :: 0 <= k < |path| ==> w.inst.Customer(path[k]);
    forall q | 0 <= q < |routes| ensures Apart(routes[q], path) {
      forall i, j | 0 <= i < |routes[q]| && 0 <= j < |path| ensures routes[q][i] != path[j] {
        assert path[j] !in routes[q];
      }
    }
  }

  /** construct: false when a remaining customer cannot start a route. */
  method Construct(w: World, lookahead: bool) returns (ok: bool, routes: seq<seq<int>>)
    ensures RunOutcome(w, lookahead, ok, routes) && Separate(w.inst.n, routes) && GreedyFeasible(w, routes)
    ensures ok ==> PartitionOf(w.inst.n, routes)
  {
    hide PathFollows, Load, FreeSet, Separate, GreedyRoute, FreeAfter, GreedyFeasible, RoutesFollow;
    var n := w.inst.n;
    routes := [];
    var free := seq(n + 1, v => v != 0);
    EveryoneFree(n, free);
    EmptyRun(w, lookahead);
    var remaining := n;
    while remaining > 0
      invariant free == FreeAfter(n, routes) && |free| == n + 1 && !free[0] && remaining == |FreeSet(n, free)|
      invariant RoutesFollow(w, lookahead, routes) && Separate(n, routes) && GreedyFeasible(w, routes)
      decreases remaining
    {
      ghost var before := free;
      var path;
      path, free, remaining := BuildRoute(w, lookahead, free, remaining);
      if |path| == 0 {
        SomebodyLeft(n, before);
        return false, routes;
      }
      AddRoute(w, routes, path);
      RunGrows(w, lookahead, routes, path);
      routes := routes + [path];
    }
    NoneLeft(n, free);
    AllUsed(w, routes);
    return true, routes;
  }

  lemma EmptyRun(w: World, lookahead: bool)
    ensures RoutesFollow(w, lookahead, []) && GreedyFeasible(w, [])
  {
  }

  lemma RunGrows(w: World, lookahead: bool, routes: seq<seq<int>>, path: seq<int>)
    requires RoutesFollow(w, lookahead, routes) && GreedyFeasible(w, routes) && |path| > 0
    requires |FreeAfter(w.inst.n, routes)| == w.inst.n + 1
    requires PathFollows(w, lookahead, FreeAfter(w.inst.n, routes), path) && GreedyRoute(w, FreeAfter(w.inst.n, routes), path)
    ensures RoutesFollow(w, lookahead, routes + [path]) && GreedyFeasible(w, routes + [path])
    ensures FreeAfter(w.inst.n, routes + [path]) == Minus(FreeAfter(w.inst.n, routes), path)
  {
    hide PathFollows, Load, Chain, DepotReturnFeasible, Minus, GreedyRoute, FreeAfter, GreedyFeasible;
    var after := routes + [path];
    FreeGrows(w.inst.n, routes, path);
    FeasibleGrows(w, routes, path);
    forall k | 0 <= k < |after| ensures |after[k]| > 0 && PathFollows(w, lookahead, FreeAfter(w.inst.n, after[..k]), after[k]) {
      if k < |routes| { assert after[..k] == routes[..k]; } else { assert after[..k] == routes; }
    }
  }

  lemma FreeGrows(n: nat, routes: seq<seq<int>>, path: seq<int>)
    ensures FreeAfter(n, routes + [path]) == Minus(FreeAfter(n, routes), path)
  {
    assert (routes + [path])[..|routes|] == routes;
  }

  lemma FeasibleGrows(w: World, routes: seq<seq<int>>, path: seq<int>)
    requires GreedyFeasible(w, routes) && |path| > 0 && |FreeAfter(w.inst.n, routes)| == w.inst.n + 1 && GreedyRoute(w, FreeAfter(w.inst.n, routes), path)
    ensures GreedyFeasible(w, routes + [path])
  {
    hide Load, Chain, DepotReturnFeasible, FreeAfter;
  }

  lemma AllUsed(w: World, routes: seq<seq<int>>)
    requires Separate(w.inst.n, routes) && GreedyFeasible(w, routes)
    requires |FreeAfter(w.inst.n, routes)| == w.inst.n + 1 && forall v :: 0 <= v <= w.inst.n ==> !FreeAfter(w.inst.n, routes)[v]
    ensures PartitionOf(w.inst.n, routes) && NobodyLeft(w.inst.n, routes)
  {
    hide Load, Chain, DepotReturnFeasible, Separate, FreeAfter;
    FreeMeansUnused(w.inst.n, routes);
    forall v | 1 <= v <= w.inst.n ensures InSome(routes, v) { assert !FreeAfter(w.inst.n, routes)[v]; }
  }

  lemma EveryoneFree(n: nat, free: seq<bool>)
    requires free == seq(n + 1, v => v != 0)
    ensures |FreeSet(n, free)| == n && free == FreeAfter(n, []) && Separate(n, [])
  {
    ClientCount(n);
    forall v ensures v in FreeSet(n, free) <==> v in ClientSet(n) { assert IsClient(n, v) <==> 1 <= v <= n; }
    assert FreeSet(n, free) == ClientSet(n);
  }

  lemma SomebodyLeft(n: nat, free: seq<bool>)
    requires |free| == n + 1 && |FreeSet(n, free)| > 0 && !free[0]
    ensures exists v :: 1 <= v <= n && free[v]
  {
    var v :| v in FreeSet(n, free);
  }

  lemma NoneLeft(n: nat, free: seq<bool>)
    requires |free| == n + 1 && |FreeSet(n, free)| <= 0
    ensures forall v :: 0 <= v <= n ==> !free[v]
  {
    forall v | 0 <= v <= n ensures !free[v] { assert v !in FreeSet(n, free); }
  }

  lemma {:induction false} ChainForward(inst: Problem, from: int, stops: seq<int>, t: real)
    requires inst.Vertex(from) && inst.Route(stops) && inst.horizonStart <= t && Chain(inst, from, stops, t).Some?
    ensures t <= Chain(inst, from, stops, t).value
    decreases |stops|
  {
    hide ReadyNext;
    if |stops| > 0 {
      ReadyNextMonotone(inst, from, stops[0], t, t);
      ChainForward(inst, stops[0], stops[1..], ReadyNext(inst, from, stops[0], t).value);
    }
  }

  /** The fold accepts a greedy route exactly when the earliest departure lies within the horizon: the
      due date of the depot is met by construction. */
  lemma GreedyMeetsFold(w: World, routes: seq<seq<int>>, k: nat)
    requires GreedyFeasible(w, routes) && k < |routes|
    ensures EvaluateRoute(w.inst, routes[k]).Some? <==> DepartureLow(w.inst) <= w.inst.horizonEnd
  {
    hide ReadyNext, EvaluateRoute;
    var t, route := DepartureLow(w.inst), routes[k];
    var ready := Chain(w.inst, 0, route, t).value;
    EvaluateRouteMeaning(w.inst, route);
    ChainForward(w.inst, 0, route, t);
    ArcForward(w.inst, route[|route| - 1], 0, ready);
    if t <= w.inst.horizonEnd {
      assert Simulate(w.inst, route, t).Some?;
    } else {
      assert forall x :: Simulate(w.inst, route, x).None?;
    }
  }

  /** Arrival-time functions are given over the horizon. */
  ghost predicate ArcsOverHorizon(inst: Problem) {
    forall v, u :: inst.Vertex(v) && inst.Vertex(u) ==> EndsBy(inst.arcs[v][u], inst.horizonEnd)
  }

  lemma FirstArc(inst: Problem, from: int, stops: seq<int>, t: real)
    requires inst.Vertex(from) && inst.Route(stops) && |stops| > 0 && Chain(inst, from, stops, t).Some?
    ensures InDom(inst.arcs[from][stops[0]], t)
  {
    assert ReadyNext(inst, from, stops[0], t).Some?;
  }

  /** Greedy routes are feasible for the fold. */
  lemma GreedyIsFeasible(w: World, routes: seq<seq<int>>, k: nat)
    requires ArcsOverHorizon(w.inst) && GreedyFeasible(w, routes) && k < |routes|
    ensures EvaluateRoute(w.inst, routes[k]).Some?
  {
    hide EvaluateRoute, Eval;
    var t, route := DepartureLow(w.inst), routes[k];
    GreedyMeetsFold(w, routes, k);
    assert Chain(w.inst, 0, route, t).Some?;
    FirstArc(w.inst, 0, route, t);
    assert w.inst.Customer(route[0]) && w.inst.Vertex(0) && w.inst.Vertex(route[0]);
    assert EndsBy(w.inst.arcs[0][route[0]], w.inst.horizonEnd);
  }
}
