/** fleet_descent (cpp/ls/fleet_descent.cpp): dissolve one route into an ejection pool and drain the
    pool back through best insertion, an optional squeeze, and insertion with ejection. All or nothing. */
module FleetDescents {
  import opened Common
  import opened Oracles
  import opened Instances
  import opened Insertions
  import opened Neighbours
  import opened SearchStates
  import opened Staleness
  import opened Descents
  import opened Repairs
  import opened WarpSearches
  import opened SqueezeInsertion

  datatype Params = Params(kMax: int, epBudget: int, routeChoice: int, popOrder: int, sqLadder: bool, sqPenalty: real)

  // ---------- popping ----------

  /** The client the rule pops: the last one, or by popOrder 1 a most difficult one, of those the last of
      the pool if it is one, else the first. */
  predicate IsPick(pool: seq<int>, pcount: seq<int>, popOrder: int, pick: nat)
    requires forall k :: 0 <= k < |pool| ==> 0 <= pool[k] < |pcount|
  {
    && pick < |pool|
    && if popOrder != 1 then pick == |pool| - 1
       else
         && (forall k :: 0 <= k < |pool| ==> pcount[pool[k]] <= pcount[pool[pick]])
         && (pick < |pool| - 1 ==> pcount[pool[|pool| - 1]] < pcount[pool[pick]] && forall k :: 0 <= k < pick ==> pcount[pool[k]] < pcount[pool[pick]])
  }

  /** Take a client from the pool. */
  method PickClient(n: nat, pool: seq<int>, pcount: seq<int>, popOrder: int) returns (pick: nat)
    requires |pool| > 0 && |pcount| == n + 1 && Clients(n, pool)
    ensures IsPick(pool, pcount, popOrder, pick)
  {
    pick := |pool| - 1;
    if popOrder == 1 {
      for k := 0 to |pool|
        invariant pick < |pool|
        invariant forall j :: 0 <= j < k || j == |pool| - 1 ==> pcount[pool[j]] <= pcount[pool[pick]]
        invariant pick == |pool| - 1 || (pick < k && pcount[pool[|pool| - 1]] < pcount[pool[pick]])
        invariant forall j :: 0 <= j < pick && j < k && pick < |pool| - 1 ==> pcount[pool[j]] < pcount[pool[pick]]
      {
        if pcount[pool[k]] > pcount[pool[pick]] { pick := k; }
      }
    }
  }

  // ---------- windows ----------

  /** Replace stops i..j of a route by the popped client. */
  datatype Window = Window(psum: int, delta: real, route: nat, i: nat, j: nat)

  function PSum(pcount: seq<int>, s: seq<int>): int
    requires forall k :: 0 <= k < |s| ==> 0 <= s[k] < |pcount|
  {
    if |s| == 0 then 0 else PSum(pcount, s[..|s| - 1]) + pcount[s[|s| - 1]]
  }

  /** Least difficult ejection first, then least delta, then lowest route and position. */
  predicate BetterWindow(x: Window, y: Window) {
    x.psum < y.psum ||
    (x.psum == y.psum &&
     (x.delta < y.delta || (x.delta == y.delta && (x.route < y.route || (x.route == y.route && x.i < y.i)))))
  }

  /** The order in which the scan prefers windows: ties go to the shorter window at the same place. */
  predicate Precedes(x: Window, y: Window) {
    BetterWindow(x, y) || (!BetterWindow(y, x) && x.j < y.j)
  }

  /** Granular gate: some stop of the route is a neighbour of c. */
  ghost predicate Near(n: nat, nb: NeighbourLists, c: int, verts: seq<int>)
    requires Sound(nb, n) && 0 <= c <= n && Clients(n, verts)
  {
    nb.Restricted() ==> exists k :: 0 <= k < |verts| && nb.IsNeighbour(c, verts[k])
  }

  method IsNear(n: nat, nb: NeighbourLists, c: int, verts: seq<int>) returns (near: bool)
    requires Sound(nb, n) && 0 <= c <= n && Clients(n, verts)
    ensures near == Near(n, nb, c, verts)
  {
    if !nb.Restricted() { return true; }
    for k := 0 to |verts|
      invariant forall j :: 0 <= j < k ==> !nb.IsNeighbour(c, verts[j])
    {
      if nb.IsNeighbour(c, verts[k]) { return true; }
    }
    return false;
  }

  ghost predicate ToursOnClients(n: nat, tours: seq<Tour>) {
    forall b :: 0 <= b < |tours| ==> Clients(n, tours[b].vertices)
  }

  /** x is a feasible ejection window for c. */
  ghost predicate IsWindow(w: World, nb: NeighbourLists, tours: seq<Tour>, pcount: seq<int>, c: int, kMax: int, x: Window)
    requires Sound(nb, w.inst.n) && w.inst.Customer(c) && ToursOnClients(w.inst.n, tours) && |pcount| == w.inst.n + 1
  {
    && x.route < |tours|
    && var t := tours[x.route];
       && x.i <= x.j < |t.vertices| && x.j - x.i + 1 <= kMax && Near(w.inst.n, nb, c, t.vertices)
       && t.load - Load(w.inst, t.vertices[x.i..x.j + 1]) + DemandOf(w.inst, c) <= w.inst.capacity
       && w.price.splice(t.vertices, x.i, x.j, [c], 0, 0) == Some(x.delta + t.duration)
       && x.psum == PSum(pcount, t.vertices[x.i..x.j + 1])
  }

  /** x comes before every other window: there is at most one such. */
  ghost predicate IsFirstWindow(w: World, nb: NeighbourLists, tours: seq<Tour>, pcount: seq<int>, c: int, kMax: int, x: Window)
    requires Sound(nb, w.inst.n) && w.inst.Customer(c) && ToursOnClients(w.inst.n, tours) && |pcount| == w.inst.n + 1
  {
    && IsWindow(w, nb, tours, pcount, c, kMax, x)
    && forall y :: IsWindow(w, nb, tours, pcount, c, kMax, y) && y != x ==> Precedes(x, y)
  }

  /** Nothing to eject for: c cannot start a route, there is no window, or the fold rejects the first one. */
  ghost predicate DeadEnd(w: World, nb: NeighbourLists, tours: seq<Tour>, pcount: seq<int>, c: int, kMax: int)
    requires Sound(nb, w.inst.n) && w.inst.Customer(c) && ToursOnClients(w.inst.n, tours) && |pcount| == w.inst.n + 1
  {
    || w.price.fold([c]).None?
    || (forall y :: !IsWindow(w, nb, tours, pcount, c, kMax, y))
    || exists x :: IsFirstWindow(w, nb, tours, pcount, c, kMax, x) && w.price.fold(Replaced(tours[x.route], x, c)).None?
  }

  lemma FirstWindowUnique(w: World, nb: NeighbourLists, tours: seq<Tour>, pcount: seq<int>, c: int, kMax: int, x: Window, y: Window)
    requires Sound(nb, w.inst.n) && w.inst.Customer(c) && ToursOnClients(w.inst.n, tours) && |pcount| == w.inst.n + 1
    requires IsFirstWindow(w, nb, tours, pcount, c, kMax, x) && IsFirstWindow(w, nb, tours, pcount, c, kMax, y)
    ensures x == y
  {
    hide IsWindow, Sound;
  }

  /** Best among the windows satisfying a range. */
  ghost predicate BestOf(w: World, nb: NeighbourLists, tours: seq<Tour>, pcount: seq<int>, c: int, kMax: int, best: Option<Window>, b: nat, i: nat, j: nat)
    requires Sound(nb, w.inst.n) && w.inst.Customer(c) && ToursOnClients(w.inst.n, tours) && |pcount| == w.inst.n + 1
  {
    && (best.Some? ==> IsWindow(w, nb, tours, pcount, c, kMax, best.value) && Earlier(best.value, b, i, j))
    && forall y :: IsWindow(w, nb, tours, pcount, c, kMax, y) && Earlier(y, b, i, j) ==> best.Some? && !Precedes(y, best.value)
  }

  /** The scan has passed window y: before (b, i, j) in scan order. */
  predicate Earlier(y: Window, b: nat, i: nat, j: nat) {
    y.route < b || (y.route == b && (y.i < i || (y.i == i && y.j < j)))
  }

  lemma SliceGrows(w: World, s: seq<int>, pcount: seq<int>, i: nat, j: nat)
    requires i <= j < |s| && forall k :: 0 <= k < |s| ==> 0 <= s[k] < |pcount|
    ensures Load(w.inst, s[i..j + 1]) == Load(w.inst, s[i..j]) + DemandOf(w.inst, s[j])
    ensures PSum(pcount, s[i..j + 1]) == PSum(pcount, s[i..j]) + pcount[s[j]]
  {
    assert s[i..j + 1][..j - i] == s[i..j];
  }

  /** The window at (b, i, j), if it is one. */
  ghost predicate WindowHere(w: World, nb: NeighbourLists, tours: seq<Tour>, pcount: seq<int>, c: int, kMax: int, b: nat, i: nat, j: nat, found: Option<Window>)
    requires Sound(nb, w.inst.n) && w.inst.Customer(c) && ToursOnClients(w.inst.n, tours) && |pcount| == w.inst.n + 1
  {
    && (found.Some? ==> var x := found.value; x.route == b && x.i == i && x.j == j)
    && forall y :: IsWindow(w, nb, tours, pcount, c, kMax, y) && y.route == b && y.i == i && y.j == j <==> found == Some(y)
  }

  /** One window further: the strictly better one wins. */
  lemma ConsiderWindow(w: World, nb: NeighbourLists, tours: seq<Tour>, pcount: seq<int>, c: int, kMax: int, b: nat, i: nat, j: nat,
                       best: Option<Window>, found: Option<Window>)
    requires Sound(nb, w.inst.n) && w.inst.Customer(c) && ToursOnClients(w.inst.n, tours) && |pcount| == w.inst.n + 1
    requires BestOf(w, nb, tours, pcount, c, kMax, best, b, i, j) && WindowHere(w, nb, tours, pcount, c, kMax, b, i, j, found)
    ensures BestOf(w, nb, tours, pcount, c, kMax,
                   if found.Some? && (best.None? || BetterWindow(found.value, best.value)) then found else best, b, i, j + 1)
  {
    hide IsWindow, Sound;
  }

  /** Windows of t priced for c: those that start at i and end before j. */
  function WindowPrices(w: World, t: Tour, c: int, i: nat, j: nat): nat
    requires j <= |t.vertices|
    decreases j
  {
    if j <= i then 0
    else WindowPrices(w, t, c, i, j - 1) + if t.load - Load(w.inst, t.vertices[i..j]) + DemandOf(w.inst, c) <= w.inst.capacity then 1 else 0
  }

  /** Where the windows that start at i end. */
  function WindowsEnd(t: Tour, kMax: int, i: nat): nat
    requires i <= |t.vertices|
  {
    if i + kMax <= i then i else if i + kMax < |t.vertices| then i + kMax else |t.vertices|
  }

  /** Those that start before i. */
  function RoutePrices(w: World, t: Tour, c: int, kMax: int, i: nat): nat
    requires i <= |t.vertices|
  {
    if i == 0 then 0 else RoutePrices(w, t, c, kMax, i - 1) + WindowPrices(w, t, c, i - 1, WindowsEnd(t, kMax, i - 1))
  }

  /** Those of the first b routes. */
  ghost function FleetPrices(w: World, nb: NeighbourLists, tours: seq<Tour>, c: int, kMax: int, b: nat): nat
    requires Sound(nb, w.inst.n) && w.inst.Customer(c) && ToursOnClients(w.inst.n, tours) && b <= |tours|
  {
    if b == 0 then 0
    else
      var t := tours[b - 1];
      FleetPrices(w, nb, tours, c, kMax, b - 1) + if Near(w.inst.n, nb, c, t.vertices) then RoutePrices(w, t, c, kMax, |t.vertices|) else 0
  }

  /** All windows of a route that start at i. */
  method WindowsFrom(w: World, nb: NeighbourLists, tours: seq<Tour>, pcount: seq<int>, c: int, kMax: int, b: nat, i: nat, best0: Option<Window>)
    returns (best: Option<Window>, priced: nat)
    requires Sound(nb, w.inst.n) && w.inst.Customer(c) && ToursOnClients(w.inst.n, tours) && |pcount| == w.inst.n + 1
    requires b < |tours| && i < |tours[b].vertices| && Near(w.inst.n, nb, c, tours[b].vertices)
    requires BestOf(w, nb, tours, pcount, c, kMax, best0, b, i, 0)
    ensures BestOf(w, nb, tours, pcount, c, kMax, best, b, i + 1, 0)
    ensures priced == WindowPrices(w, tours[b], c, i, WindowsEnd(tours[b], kMax, i))
  {
    hide Load, PSum, Sound, Near, BestOf, IsWindow, WindowHere, BetterWindow;
    var t := tours[b];
    best, priced := best0, 0;
    var load, psum := 0, 0;
    var j := i;
    EmptySlice(w, pcount, t.vertices, i);
    StartBegins(w, nb, tours, pcount, c, kMax, best, b, i);
    while j < |t.vertices| && j - i + 1 <= kMax
      invariant i <= j <= |t.vertices| && load == Load(w.inst, t.vertices[i..j]) && psum == PSum(pcount, t.vertices[i..j])
      invariant BestOf(w, nb, tours, pcount, c, kMax, best, b, i, j)
      invariant priced == WindowPrices(w, t, c, i, j) && (j > i ==> j - i <= kMax)
    {
      SliceGrows(w, t.vertices, pcount, i, j);
      load := load + w.inst.demands[t.vertices[j]];
      psum := psum + pcount[t.vertices[j]];
      var found: Option<Window> := None;
      if t.load - load + DemandOf(w.inst, c) <= w.inst.capacity {
        priced := priced + 1;
        var e := w.price.splice(t.vertices, i, j, [c], 0, 0);
        if e.Some? { found := Some(Window(psum, e.value - t.duration, b, i, j)); }
      }
      ThisWindow(w, nb, tours, pcount, c, kMax, b, i, j, found);
      ConsiderWindow(w, nb, tours, pcount, c, kMax, b, i, j, best, found);
      if found.Some? && (best.None? || BetterWindow(found.value, best.value)) { best := found; }
      j := j + 1;
    }
    StartExhausted(w, nb, tours, pcount, c, kMax, best, b, i, j);
  }

  lemma ThisWindow(w: World, nb: NeighbourLists, tours: seq<Tour>, pcount: seq<int>, c: int, kMax: int, b: nat, i: nat, j: nat, found: Option<Window>)
    requires Sound(nb, w.inst.n) && w.inst.Customer(c) && ToursOnClients(w.inst.n, tours) && |pcount| == w.inst.n + 1
    requires b < |tours| && i <= j < |tours[b].vertices| && j - i + 1 <= kMax && Near(w.inst.n, nb, c, tours[b].vertices)
    requires var s, t := tours[b].vertices[i..j + 1], tours[b];
             found == if t.load - Load(w.inst, s) + DemandOf(w.inst, c) <= w.inst.capacity && w.price.splice(t.vertices, i, j, [c], 0, 0).Some?
                      then Some(Window(PSum(pcount, s), w.price.splice(t.vertices, i, j, [c], 0, 0).value - t.duration, b, i, j)) else None
    ensures WindowHere(w, nb, tours, pcount, c, kMax, b, i, j, found)
  {
    hide Load, PSum, Sound, Near;
  }

  lemma StartBegins(w: World, nb: NeighbourLists, tours: seq<Tour>, pcount: seq<int>, c: int, kMax: int, best: Option<Window>, b: nat, i: nat)
    requires Sound(nb, w.inst.n) && w.inst.Customer(c) && ToursOnClients(w.inst.n, tours) && |pcount| == w.inst.n + 1
    requires BestOf(w, nb, tours, pcount, c, kMax, best, b, i, 0)
    ensures BestOf(w, nb, tours, pcount, c, kMax, best, b, i, i)
  {
    hide Load, PSum, Sound, Near, Precedes;
  }

  lemma StartExhausted(w: World, nb: NeighbourLists, tours: seq<Tour>, pcount: seq<int>, c: int, kMax: int, best: Option<Window>, b: nat, i: nat, j: nat)
    requires Sound(nb, w.inst.n) && w.inst.Customer(c) && ToursOnClients(w.inst.n, tours) && |pcount| == w.inst.n + 1
    requires b < |tours| && i <= j && (j >= |tours[b].vertices| || j - i + 1 > kMax)
    requires BestOf(w, nb, tours, pcount, c, kMax, best, b, i, j)
    ensures BestOf(w, nb, tours, pcount, c, kMax, best, b, i + 1, 0)
  {
    hide Load, PSum, Sound, Near, Precedes;
  }

  lemma EmptySlice(w: World, pcount: seq<int>, s: seq<int>, i: nat)
    requires i <= |s| && forall k :: 0 <= k < |s| ==> 0 <= s[k] < |pcount|
    ensures Load(w.inst, s[i..i]) == 0 && PSum(pcount, s[i..i]) == 0
  {
  }

  /** The best feasible ejection window over all routes. */
  method BestWindow(w: World, nb: NeighbourLists, tours: seq<Tour>, pcount: seq<int>, c: int, kMax: int)
    returns (best: Option<Window>, priced: nat)
    requires Sound(nb, w.inst.n) && w.inst.Customer(c) && ToursOnClients(w.inst.n, tours) && |pcount| == w.inst.n + 1
    ensures if best.Some? then IsFirstWindow(w, nb, tours, pcount, c, kMax, best.value)
            else forall y :: !IsWindow(w, nb, tours, pcount, c, kMax, y)
    ensures priced == FleetPrices(w, nb, tours, c, kMax, |tours|)
  {
    hide Load, PSum, Sound, Near, WindowPrices;
    best, priced := None, 0;
    for b := 0 to |tours|
      invariant BestOf(w, nb, tours, pcount, c, kMax, best, b, 0, 0) && priced == FleetPrices(w, nb, tours, c, kMax, b)
    {
      var near := IsNear(w.inst.n, nb, c, tours[b].vertices);
      if near {
        for i := 0 to |tours[b].vertices|
          invariant BestOf(w, nb, tours, pcount, c, kMax, best, b, i, 0)
          invariant priced == FleetPrices(w, nb, tours, c, kMax, b) + RoutePrices(w, tours[b], c, kMax, i)
        {
          var more;
          best, more := WindowsFrom(w, nb, tours, pcount, c, kMax, b, i, best);
          priced := priced + more;
        }
      }
    }
  }

  // ---------- ejecting ----------

  function Ejected(t: Tour, x: Window): seq<int>
    requires x.i <= x.j < |t.vertices|
  {
    t.vertices[x.i..x.j + 1]
  }

  function Replaced(t: Tour, x: Window, c: int): seq<int>
    requires x.i <= x.j < |t.vertices|
  {
    t.vertices[..x.i] + [c] + t.vertices[x.j + 1..]
  }

  lemma ReplacedBalance(w: World, t: Tour, x: Window, c: int)
    requires x.i <= x.j < |t.vertices| && w.inst.Route(t.vertices) && w.inst.Customer(c)
    ensures multiset(Replaced(t, x, c)) + multiset(Ejected(t, x)) == multiset(t.vertices) + multiset{c}
    ensures Load(w.inst, Replaced(t, x, c)) == Load(w.inst, t.vertices) - Load(w.inst, Ejected(t, x)) + DemandOf(w.inst, c)
    ensures w.inst.Route(Replaced(t, x, c)) && |Replaced(t, x, c)| > 0
  {
    hide Load;
    ReplacedRoute(w, t, x, c);
    var a, m, z := t.vertices[..x.i], Ejected(t, x), t.vertices[x.j + 1..];
    assert t.vertices == a + m + z;
    ThreeParts(w, a, m, z);
    ThreeParts(w, a, [c], z);
    LoadOne(w.inst, c);
    assert multiset([c]) == multiset{c};
    Exchange(multiset(a), multiset(m), multiset(z), multiset([c]));
  }

  lemma Exchange(a: multiset<int>, m: multiset<int>, z: multiset<int>, c: multiset<int>)
    ensures (a + c + z) + m == (a + m + z) + c
  {
  }

  lemma ReplacedRoute(w: World, t: Tour, x: Window, c: int)
    requires x.i <= x.j < |t.vertices| && w.inst.Route(t.vertices) && w.inst.Customer(c)
    ensures w.inst.Route(Replaced(t, x, c)) && |Replaced(t, x, c)| > 0
  {
  }

  lemma ThreeParts(w: World, a: seq<int>, m: seq<int>, z: seq<int>)
    ensures Load(w.inst, a + m + z) == Load(w.inst, a) + Load(w.inst, m) + Load(w.inst, z)
    ensures multiset(a + m + z) == multiset(a) + multiset(m) + multiset(z)
  {
    LoadConcat(w.inst, a, m);
    LoadConcat(w.inst, a + m, z);
  }

  /** The popped client enters, the ejected clients join the pool. */
  lemma EjectKeeps(w: World, tours: seq<Tour>, pool: seq<int>, c: int, b: nat, x: Window)
    requires Holds(w, tours, multiset(pool) + multiset{c}) && b < |tours| && x.i <= x.j < |tours[b].vertices|
    requires tours[b].load - Load(w.inst, Ejected(tours[b], x)) + DemandOf(w.inst, c) <= w.inst.capacity
    requires w.price.fold(Replaced(tours[b], x, c)).Some?
    ensures Holds(w, tours[b := Rebuilt(w, Replaced(tours[b], x, c))], multiset(pool + Ejected(tours[b], x)))
  {
    hide Load, Served, AllClients, Ejected, Replaced;
    var t := tours[b];
    var next, out := Replaced(t, x, c), Ejected(t, x);
    PoolIsClients(w, tours, multiset(pool) + multiset{c}, c);
    assert TourOk(w, t);
    ReplacedBalance(w, t, x, c);
    ReplaceSums(tours, b, Rebuilt(w, next));
    EjectBalance(Served(tours), Served(tours[b := Rebuilt(w, next)]), multiset(t.vertices), multiset(next), multiset(out), multiset(pool), c);
    assert multiset(pool + out) == multiset(pool) + multiset(out);
  }

  lemma EjectBalance(s0: multiset<int>, s1: multiset<int>, all: multiset<int>, next: multiset<int>, out: multiset<int>, pool: multiset<int>, c: int)
    requires s1 + all == s0 + next && next + out == all + multiset{c}
    ensures s1 + (pool + out) == s0 + (pool + multiset{c})
  {
    assert (s1 + out) + all == (s1 + all) + out;
    assert (s0 + next) + out == s0 + (next + out);
    assert s0 + (all + multiset{c}) == (s0 + multiset{c}) + all;
    Cancel(s1 + out, s0 + multiset{c}, all);
    assert s1 + (pool + out) == (s1 + out) + pool;
  }

  // ---------- one pop ----------

  function Charge(work: Option<int>, units: int): Option<int> {
    if work.Some? then Some(work.value - units) else None
  }

  /** c took the place of the best window x, whose clients joined the pool. */
  ghost predicate EjectedInto(w: World, nb: NeighbourLists, before: seq<Tour>, pcount: seq<int>, c: int, kMax: int, pool0: seq<int>,
                              after: seq<Tour>, pool: seq<int>, x: Window)
    requires Sound(nb, w.inst.n) && w.inst.Customer(c) && ToursOnClients(w.inst.n, before) && |pcount| == w.inst.n + 1
  {
    && IsFirstWindow(w, nb, before, pcount, c, kMax, x)
    && w.price.fold(Replaced(before[x.route], x, c)).Some?
    && after == before[x.route := Rebuilt(w, Replaced(before[x.route], x, c))]
    && pool == pool0 + Ejected(before[x.route], x)
  }

  /** Pricings of the ejection step: c alone, the windows, and the rebuilt route when there is a window. */
  ghost function EjectionPrice(w: World, nb: NeighbourLists, tours: seq<Tour>, pcount: seq<int>, c: int, kMax: int): nat
    requires Sound(nb, w.inst.n) && w.inst.Customer(c) && ToursOnClients(w.inst.n, tours) && |pcount| == w.inst.n + 1
  {
    if w.price.fold([c]).None? then 1
    else 1 + FleetPrices(w, nb, tours, c, kMax, |tours|) + if exists x :: IsWindow(w, nb, tours, pcount, c, kMax, x) then 1 else 0
  }

  /** Ladder step 2: insertion with ejection; false is a dead end. */
  method InsertWithEjection(w: World, nb: NeighbourLists, ss: SearchState, c: int, pool0: seq<int>, pcount: seq<int>, kMax: int, work0: Option<int>)
    returns (ok: bool, pool: seq<int>, work: Option<int>)
    requires Sound(nb, w.inst.n) && Holds(w, ss.tours, multiset(pool0) + multiset{c}) && |pcount| == w.inst.n + 1
    modifies ss`tours
    ensures ok ==> Holds(w, ss.tours, multiset(pool)) && |ss.tours| == old(|ss.tours|)
    ensures !ok ==> ss.tours == old(ss.tours)
    ensures w.inst.Customer(c) && ToursOnClients(w.inst.n, old(ss.tours))
    ensures ok <==> !DeadEnd(w, nb, old(ss.tours), pcount, c, kMax)
    ensures if ok then exists x :: EjectedInto(w, nb, old(ss.tours), pcount, c, kMax, pool0, ss.tours, pool, x) else pool == pool0
    ensures work == Charge(work0, EjectionPrice(w, nb, old(ss.tours), pcount, c, kMax))
  {
    hide Load, Served, Sound, PSum, Near, Precedes, FleetPrices, Holds;
    PoolIsClients(w, ss.tours, multiset(pool0) + multiset{c}, c);
    OnClientsOf(w, ss.tours, multiset(pool0) + multiset{c});
    pool := pool0;
    work := Charge(work0, 1);
    if w.price.fold([c]).None? { return false, pool, work; }
    var best, priced := BestWindow(w, nb, ss.tours, pcount, c, kMax);
    work := Charge(work, priced);
    if best.None? { return false, pool, work; }
    var x := best.value;
    assert IsWindow(w, nb, ss.tours, pcount, c, kMax, x);
    var t := ss.tours[x.route];
    var next := Replaced(t, x, c);
    work := Charge(work, 1);
    if w.price.fold(next).None? { return false, pool, work; }
    LiveEnd(w, nb, ss.tours, pcount, c, kMax, x);
    EjectKeeps(w, ss.tours, pool0, c, x.route, x);
    ghost var before := ss.tours;
    ss.tours := ss.tours[x.route := Rebuilt(w, next)];
    pool := pool0 + Ejected(t, x);
    assert EjectedInto(w, nb, before, pcount, c, kMax, pool0, ss.tours, pool, x);
    return true, pool, work;
  }

  lemma LiveEnd(w: World, nb: NeighbourLists, tours: seq<Tour>, pcount: seq<int>, c: int, kMax: int, x: Window)
    requires Sound(nb, w.inst.n) && w.inst.Customer(c) && ToursOnClients(w.inst.n, tours) && |pcount| == w.inst.n + 1
    requires IsFirstWindow(w, nb, tours, pcount, c, kMax, x) && w.price.fold(Replaced(tours[x.route], x, c)).Some? && w.price.fold([c]).Some?
    ensures !DeadEnd(w, nb, tours, pcount, c, kMax)
  {
    hide Sound, Replaced, Precedes;
    assert IsWindow(w, nb, tours, pcount, c, kMax, x);
    forall y | IsFirstWindow(w, nb, tours, pcount, c, kMax, y) ensures y == x { FirstWindowUnique(w, nb, tours, pcount, c, kMax, x, y); }
  }

  lemma OnClientsOf(w: World, tours: seq<Tour>, pool: multiset<int>)
    requires Holds(w, tours, pool)
    ensures ToursOnClients(w.inst.n, tours)
  {
    forall b, p | 0 <= b < |tours| && 0 <= p < |tours[b].vertices| ensures 1 <= tours[b].vertices[p] <= w.inst.n {
      assert TourOk(w, tours[b]);
      assert w.inst.Customer(tours[b].vertices[p]);
    }
  }

  const UNLIMITED := 0x3FFF_FFFF_FFFF_FFFF

  /** The squeeze runs on the work budget, or on an unlimited one of its own. */
  function Budget(work: Option<int>): int { if work.Some? then work.value else UNLIMITED }

  predicate AllPrice(w: World, routes: seq<seq<int>>) {
    forall k :: 0 <= k < |routes| ==> w.price.fold(routes[k]).Some?
  }

  /** Ladder step 1b: the squeeze between insertion and ejection. */
  method LadderSqueeze(ww: WarpWorld, nb: NeighbourLists, ss: SearchState, o: Oracle, c: int, penalty: real, work0: Option<int>, ghost pool: multiset<int>)
    returns (rescued: bool, work: Option<int>, ghost end: Inserted)
    requires Consistent(ww) && Sound(nb, ww.w.inst.n) && Holds(ww.w, ss.tours, pool + multiset{c})
    modifies ss`tours, o`drawn
    ensures 1 <= c <= ww.w.inst.n && Inserts(ww, nb, o.draws, Routes(old(ss.tours)), c, penalty, Budget(work0), old(o.drawn), end)
    ensures rescued == end.placed && o.drawn == end.drawn && work == (if work0.Some? then Some(end.budget) else None)
    ensures if rescued then AllPrice(ww.w, end.routes) && ss.tours == Priced(ww.w, end.routes) else ss.tours == old(ss.tours)
    ensures rescued ==> Holds(ww.w, ss.tours, pool) && |ss.tours| <= old(|ss.tours|)
    ensures rescued && AllServableAlone(ww.w) ==> |ss.tours| == old(|ss.tours|)
  {
    hide Consistent, Sound, Load, Served, AllServableAlone, Inserts, Priced, ToursOk, AllClients, Exact;
    var placed, routes, left := SqueezeInsert(ww, nb, o, ss.tours, c, penalty, Budget(work0), pool);
    end := Inserted(placed, routes, left, o.drawn);
    work := if work0.Some? then Some(left) else None;
    if !placed { return false, work, end; }
    assert (Served(ss.tours) + multiset{c}) + pool == Served(ss.tours) + (pool + multiset{c});
    ss.tours := Priced(ww.w, routes);
    PricedSize(ww.w, routes);
    return true, work, end;
  }

  lemma PricedSize(w: World, routes: seq<seq<int>>)
    requires AllPrice(w, routes)
    ensures |Priced(w, routes)| == |routes|
  {
  }

  lemma PopKeeps(pool: seq<int>, pick: nat)
    requires pick < |pool|
    ensures multiset(pool) == multiset(Erase(pool, pick)) + multiset{pool[pick]}
  {
    assert pool == pool[..pick] + [pool[pick]] + pool[pick + 1..];
  }

  /** Where a drain stands: the routes, the pool, the difficulty counts, the work left, the draws taken. */
  datatype DrainState = DrainState(tours: seq<Tour>, pool: seq<int>, pcount: seq<int>, work: Option<int>, drawn: nat)

  /** Ladder step 2 for the popped c, whose difficulty rises: ejection into the first window, or a dead end. */
  ghost predicate Ejects(w: World, nb: NeighbourLists, kMax: int, d: DrainState, c: int, d': DrainState, alive: bool)
    requires Sound(nb, w.inst.n) && w.inst.Customer(c) && ToursOnClients(w.inst.n, d.tours) && |d.pcount| == w.inst.n + 1
  {
    var pcount := d.pcount[c := d.pcount[c] + 1];
    && alive == !DeadEnd(w, nb, d.tours, pcount, c, kMax)
    && d'.pcount == pcount && d'.work == Charge(d.work, EjectionPrice(w, nb, d.tours, pcount, c, kMax)) && d'.drawn == d.drawn
    && if alive then exists x :: EjectedInto(w, nb, d.tours, pcount, c, kMax, d.pool, d'.tours, d'.pool, x)
       else d'.tours == d.tours && d'.pool == d.pool
  }

  /** The ladder for the popped c: the best slot the fold accepts, else the squeeze if enabled, else ejection. */
  ghost predicate Ladder(ww: WarpWorld, nb: NeighbourLists, draws: nat -> nat, params: Params, d: DrainState, c: int, d': DrainState, alive: bool)
    requires Sound(nb, ww.w.inst.n) && ww.w.inst.Customer(c) && ToursOnClients(ww.w.inst.n, d.tours) && |d.pcount| == ww.w.inst.n + 1
  {
    exists priced: nat, at :: PlacePrice(ww.w, d.tours, c, !NoPlace(ww.w, d.tours, c), at, priced) &&
      Placed(ww, nb, draws, params, d.(work := Charge(d.work, priced)), c, at, d', alive)
  }

  ghost predicate Placed(ww: WarpWorld, nb: NeighbourLists, draws: nat -> nat, params: Params, d: DrainState, c: int, at: Candidate, d': DrainState, alive: bool)
    requires Sound(nb, ww.w.inst.n) && ww.w.inst.Customer(c) && ToursOnClients(ww.w.inst.n, d.tours) && |d.pcount| == ww.w.inst.n + 1
  {
    if !NoPlace(ww.w, d.tours, c) then
      alive && IsBestPlace(ww.w, d.tours, c, at) && d' == d.(tours := PlaceAt(ww.w, d.tours, c, at))
    else if params.sqLadder then
      exists e: Inserted ::
        && Inserts(ww, nb, draws, Routes(d.tours), c, params.sqPenalty, Budget(d.work), d.drawn, e)
        && var after := d.(work := if d.work.Some? then Some(e.budget) else None, drawn := e.drawn);
           if e.placed then alive && AllPrice(ww.w, e.routes) && d' == after.(tours := Priced(ww.w, e.routes)) else Ejects(ww.w, nb, params.kMax, after, c, d', alive)
    else Ejects(ww.w, nb, params.kMax, d, c, d', alive)
  }

  /** One pop: the client of the rule leaves the pool and goes through the ladder. */
  ghost predicate Pops(ww: WarpWorld, nb: NeighbourLists, draws: nat -> nat, params: Params, d: DrainState, d': DrainState, alive: bool)
    requires Sound(nb, ww.w.inst.n)
  {
    && Clients(ww.w.inst.n, d.pool) && ToursOnClients(ww.w.inst.n, d.tours) && |d.pcount| == ww.w.inst.n + 1
    && exists pick: nat ::
         && IsPick(d.pool, d.pcount, params.popOrder, pick) && ww.w.inst.Customer(d.pool[pick])
         && Ladder(ww, nb, draws, params, d.(pool := Erase(d.pool, pick)), d.pool[pick], d', alive)
  }

  /** Pop one client and place it by the ladder; false is a dead end. */
  method DrainOne(ww: WarpWorld, nb: NeighbourLists, ss: SearchState, o: Oracle, params: Params, pool0: seq<int>, pcount0: seq<int>, work0: Option<int>)
    returns (alive: bool, pool: seq<int>, pcount: seq<int>, work: Option<int>)
    requires Consistent(ww) && Sound(nb, ww.w.inst.n) && |pool0| > 0 && |pcount0| == ww.w.inst.n + 1
    requires Holds(ww.w, ss.tours, multiset(pool0))
    modifies ss`tours, o`drawn
    ensures Pops(ww, nb, o.draws, params, DrainState(old(ss.tours), pool0, pcount0, work0, old(o.drawn)), DrainState(ss.tours, pool, pcount, work, o.drawn), alive)
    ensures alive ==> Holds(ww.w, ss.tours, multiset(pool))
    ensures alive ==> |ss.tours| <= old(|ss.tours|) && (!params.sqLadder || AllServableAlone(ww.w) ==> |ss.tours| == old(|ss.tours|))
    ensures |pcount| == |pcount0| && forall v :: 0 <= v < |pcount| ==> pcount0[v] <= pcount[v]
  {
    hide Consistent, Sound, Holds, AllServableAlone, Ladder, IsPick, Clients;
    PoolClients(ww.w, ss.tours, pool0);
    OnClientsOf(ww.w, ss.tours, multiset(pool0));
    var pick := PickClient(ww.w.inst.n, pool0, pcount0, params.popOrder);
    PickInside(pool0, pcount0, params.popOrder, pick);
    PopKeeps(pool0, pick);
    PoolIsClients(ww.w, ss.tours, multiset(Erase(pool0, pick)) + multiset{pool0[pick]}, pool0[pick]);
    alive, pool, pcount, work := Climb(ww, nb, ss, o, params, pool0[pick], Erase(pool0, pick), pcount0, work0);
  }

  lemma PickInside(pool: seq<int>, pcount: seq<int>, popOrder: int, pick: nat)
    requires forall k :: 0 <= k < |pool| ==> 0 <= pool[k] < |pcount|
    requires IsPick(pool, pcount, popOrder, pick)
    ensures pick < |pool|
  {
  }

  /** The ladder for one popped client. */
  method Climb(ww: WarpWorld, nb: NeighbourLists, ss: SearchState, o: Oracle, params: Params, c: int, pool0: seq<int>, pcount0: seq<int>, work0: Option<int>)
    returns (alive: bool, pool: seq<int>, pcount: seq<int>, work: Option<int>)
    requires Consistent(ww) && Sound(nb, ww.w.inst.n) && |pcount0| == ww.w.inst.n + 1 && ww.w.inst.Customer(c)
    requires Holds(ww.w, ss.tours, multiset(pool0) + multiset{c}) && ToursOnClients(ww.w.inst.n, ss.tours)
    modifies ss`tours, o`drawn
    ensures ToursOnClients(ww.w.inst.n, old(ss.tours))
    ensures Ladder(ww, nb, o.draws, params, DrainState(old(ss.tours), pool0, pcount0, work0, old(o.drawn)), c, DrainState(ss.tours, pool, pcount, work, o.drawn), alive)
    ensures alive ==> Holds(ww.w, ss.tours, multiset(pool))
    ensures alive ==> |ss.tours| <= old(|ss.tours|) && (!params.sqLadder || AllServableAlone(ww.w) ==> |ss.tours| == old(|ss.tours|))
    ensures |pcount| == |pcount0| && forall v :: 0 <= v < |pcount| ==> pcount0[v] <= pcount[v]
  {
    hide Consistent, Sound, Holds, AllServableAlone, PlaceAt, NoPlace, IsBestPlace, Served, EjectedInto, DeadEnd, PlacePrice, Placed, EjectionPrice, ToursOnClients, Inserts;
    pool, pcount := pool0, pcount0;
    ghost var before := ss.tours;
    ghost var d0 := DrainState(before, pool0, pcount0, work0, o.drawn);
    var placed, priced, at := PlaceBest(ww.w, ss, c);
    work := Charge(work0, priced);
    ghost var d := d0.(work := work);
    if placed {
      PlacedHolds(ww.w, before, multiset(pool), c, at);
      HasPlace(ww.w, before, c, at);
      LadderPlaces(ww, nb, o.draws, params, d0, c, priced, at, DrainState(ss.tours, pool, pcount, work, o.drawn));
      return true, pool, pcount, work;
    }
    if params.sqLadder {
      var rescued;
      ghost var e;
      rescued, work, e := LadderSqueeze(ww, nb, ss, o, c, params.sqPenalty, work, multiset(pool));
      if rescued {
        LadderRescues(ww, nb, o.draws, params, d0, c, priced, at, e, DrainState(ss.tours, pool, pcount, work, o.drawn));
        return true, pool, pcount, work;
      }
      d := d.(work := work, drawn := o.drawn);
      LadderEjects(ww, nb, o.draws, params, d0, c, priced, at, e, d);
    } else {
      LadderEjects(ww, nb, o.draws, params, d0, c, priced, at, Inserted(false, [], 0, 0), d);
    }
    pcount := pcount[c := pcount[c] + 1];
    alive, pool, work := InsertWithEjection(ww.w, nb, ss, c, pool, pcount, params.kMax, work);
  }

  lemma LadderPlaces(ww: WarpWorld, nb: NeighbourLists, draws: nat -> nat, params: Params, d: DrainState, c: int, priced: nat, at: Candidate, d': DrainState)
    requires Sound(nb, ww.w.inst.n) && ww.w.inst.Customer(c) && ToursOnClients(ww.w.inst.n, d.tours) && |d.pcount| == ww.w.inst.n + 1
    requires !NoPlace(ww.w, d.tours, c) && PlacePrice(ww.w, d.tours, c, true, at, priced) && IsBestPlace(ww.w, d.tours, c, at)
    requires d' == d.(work := Charge(d.work, priced), tours := PlaceAt(ww.w, d.tours, c, at))
    ensures Ladder(ww, nb, draws, params, d, c, d', true)
  {
    hide Sound, ToursOnClients, PlacePrice, NoPlace, IsBestPlace, PlaceAt;
    assert Placed(ww, nb, draws, params, d.(work := Charge(d.work, priced)), c, at, d', true);
  }

  lemma LadderRescues(ww: WarpWorld, nb: NeighbourLists, draws: nat -> nat, params: Params, d: DrainState, c: int, priced: nat, at: Candidate, e: Inserted, d': DrainState)
    requires Sound(nb, ww.w.inst.n) && ww.w.inst.Customer(c) && ToursOnClients(ww.w.inst.n, d.tours) && |d.pcount| == ww.w.inst.n + 1
    requires NoPlace(ww.w, d.tours, c) && PlacePrice(ww.w, d.tours, c, false, at, priced) && params.sqLadder && e.placed && AllPrice(ww.w, e.routes)
    requires Inserts(ww, nb, draws, Routes(d.tours), c, params.sqPenalty, Budget(Charge(d.work, priced)), d.drawn, e)
    requires d' == d.(work := if d.work.Some? then Some(e.budget) else None, drawn := e.drawn, tours := Priced(ww.w, e.routes))
    ensures Ladder(ww, nb, draws, params, d, c, d', true)
  {
    hide Sound, ToursOnClients, PlacePrice, NoPlace, Inserts, Priced;
    assert Placed(ww, nb, draws, params, d.(work := Charge(d.work, priced)), c, at, d', true);
  }

  /** What the ladder makes of an ejection from d1, where the squeeze failed or was off. */
  lemma LadderEjects(ww: WarpWorld, nb: NeighbourLists, draws: nat -> nat, params: Params, d: DrainState, c: int, priced: nat, at: Candidate, e: Inserted, d1: DrainState)
    requires Sound(nb, ww.w.inst.n) && ww.w.inst.Customer(c) && ToursOnClients(ww.w.inst.n, d.tours) && |d.pcount| == ww.w.inst.n + 1
    requires NoPlace(ww.w, d.tours, c) && PlacePrice(ww.w, d.tours, c, false, at, priced)
    requires if params.sqLadder then
               && Inserts(ww, nb, draws, Routes(d.tours), c, params.sqPenalty, Budget(Charge(d.work, priced)), d.drawn, e) && !e.placed
               && d1 == d.(work := if d.work.Some? then Some(e.budget) else None, drawn := e.drawn)
             else d1 == d.(work := Charge(d.work, priced))
    ensures forall d', alive :: Ejects(ww.w, nb, params.kMax, d1, c, d', alive) ==> Ladder(ww, nb, draws, params, d, c, d', alive)
  {
    hide Sound, ToursOnClients, PlacePrice, NoPlace, Inserts, Ejects;
    forall d', alive | Ejects(ww.w, nb, params.kMax, d1, c, d', alive) ensures Ladder(ww, nb, draws, params, d, c, d', alive) {
      assert Placed(ww, nb, draws, params, d.(work := Charge(d.work, priced)), c, at, d', alive);
    }
  }

  lemma PlacedHolds(w: World, tours: seq<Tour>, pool: multiset<int>, c: int, x: Candidate)
    requires Holds(w, tours, pool + multiset{c}) && IsBestPlace(w, tours, c, x)
    ensures Holds(w, PlaceAt(w, tours, c, x), pool) && |PlaceAt(w, tours, c, x)| == |tours|
  {
    hide Holds, IsSlot;
    PlaceKeeps(w, tours, pool, c, x);
    PlaceSize(w, tours, c, x);
  }

  lemma PlaceSize(w: World, tours: seq<Tour>, c: int, x: Candidate)
    requires IsSlot(w, tours, c, x) && w.price.fold(EditedAt(tours, c, x)).Some?
    ensures |PlaceAt(w, tours, c, x)| == |tours|
  {
  }

  lemma PoolClients(w: World, tours: seq<Tour>, pool: seq<int>)
    requires Holds(w, tours, multiset(pool))
    ensures Clients(w.inst.n, pool)
  {
    forall p | 0 <= p < |pool| ensures 1 <= pool[p] <= w.inst.n {
      assert pool[p] in multiset(pool);
      PoolIsClients(w, tours, multiset(pool), pool[p]);
    }
  }

  // ---------- fleet_descent ----------

  /** The route the rule dissolves: a smallest one or any, by one draw. */
  ghost predicate IsVictim(tours: seq<Tour>, routeChoice: int, draw: nat, victim: nat) {
    && victim < |tours|
    && if routeChoice == 1 then IsSmallest(tours, victim) && PicksSmallest(tours, draw, victim) else victim == draw % |tours|
  }

  method ChooseVictim(tours: seq<Tour>, o: Oracle, routeChoice: int) returns (victim: nat)
    requires |tours| > 0
    modifies o`drawn
    ensures IsVictim(tours, routeChoice, o.draws(old(o.drawn)), victim) && o.drawn == old(o.drawn) + 1
  {
    if routeChoice == 1 { victim := SmallestRoute(tours, o); } else { victim := o.Draw(|tours|); }
  }

  lemma DissolveKeeps(w: World, tours: seq<Tour>, victim: nat)
    requires Feasible(w, tours) && victim < |tours|
    ensures Holds(w, Erase(tours, victim), multiset(tours[victim].vertices))
  {
    EraseSums(tours, victim);
  }

  /** How a drain ends: its last state, the pops left, the deadline cursor, and whether the pool is empty. */
  datatype DrainEnd = DrainEnd(d: DrainState, budget: int, at: nat, done: bool)

  /** The drain from d on: done when the pool is empty; stopped by the work budget, the deadline or the
      pop budget, in this order; else one pop, which may be a dead end. */
  ghost predicate Drains(ww: WarpWorld, nb: NeighbourLists, draws: nat -> nat, late: nat -> bool, params: Params, d: DrainState, budget: int, at: nat, end: DrainEnd)
    requires Sound(nb, ww.w.inst.n)
    decreases budget
  {
    if |d.pool| == 0 then end == DrainEnd(d, budget, at, true)
    else if d.work.Some? && d.work.value <= 0 then end == DrainEnd(d, budget, at, false)
    else if late(at) || budget <= 0 then end == DrainEnd(d, budget, at + 1, false)
    else exists d', alive ::
           && Pops(ww, nb, draws, params, d, d', alive)
           && if alive then Drains(ww, nb, draws, late, params, d', budget - 1, at + 1, end) else end == DrainEnd(d', budget - 1, at + 1, false)
  }

  lemma DrainStops(ww: WarpWorld, nb: NeighbourLists, draws: nat -> nat, late: nat -> bool, params: Params, d: DrainState, budget: int, at: nat)
    requires Sound(nb, ww.w.inst.n)
    ensures |d.pool| == 0 ==> Drains(ww, nb, draws, late, params, d, budget, at, DrainEnd(d, budget, at, true))
    ensures |d.pool| > 0 && d.work.Some? && d.work.value <= 0 ==> Drains(ww, nb, draws, late, params, d, budget, at, DrainEnd(d, budget, at, false))
    ensures |d.pool| > 0 && !(d.work.Some? && d.work.value <= 0) && (late(at) || budget <= 0) ==>
              Drains(ww, nb, draws, late, params, d, budget, at, DrainEnd(d, budget, at + 1, false))
  {
    hide Sound, Pops;
  }

  lemma DrainOn(ww: WarpWorld, nb: NeighbourLists, draws: nat -> nat, late: nat -> bool, params: Params, d: DrainState, budget: int, at: nat, d': DrainState, alive: bool)
    requires Sound(nb, ww.w.inst.n) && |d.pool| > 0 && !(d.work.Some? && d.work.value <= 0) && !late(at) && budget > 0
    requires Pops(ww, nb, draws, params, d, d', alive)
    ensures !alive ==> Drains(ww, nb, draws, late, params, d, budget, at, DrainEnd(d', budget - 1, at + 1, false))
    ensures alive ==> forall end :: Drains(ww, nb, draws, late, params, d', budget - 1, at + 1, end) ==> Drains(ww, nb, draws, late, params, d, budget, at, end)
  {
    hide Sound, Pops;
  }

  /** A drain with the pool empty at its end is a chain of pops within the budget; every pop asks the deadline. */
  ghost predicate PopChain(ww: WarpWorld, nb: NeighbourLists, draws: nat -> nat, params: Params, chain: seq<DrainState>)
    requires Sound(nb, ww.w.inst.n)
  {
    forall k :: 0 <= k < |chain| - 1 ==> |chain[k].pool| > 0 && Pops(ww, nb, draws, params, chain[k], chain[k + 1], true)
  }

  lemma {:induction false} DrainIsChain(ww: WarpWorld, nb: NeighbourLists, draws: nat -> nat, late: nat -> bool, params: Params, d: DrainState, budget: int, at: nat, end: DrainEnd)
    returns (chain: seq<DrainState>)
    requires Sound(nb, ww.w.inst.n) && Drains(ww, nb, draws, late, params, d, budget, at, end) && end.done
    ensures |chain| > 0 && chain[0] == d && chain[|chain| - 1] == end.d && |end.d.pool| == 0 && PopChain(ww, nb, draws, params, chain)
    ensures end.at == at + |chain| - 1 && end.budget == budget - (|chain| - 1) && InTime(late, at, end.at)
    ensures |chain| > 1 ==> |chain| - 1 <= budget
    decreases budget
  {
    hide Sound, Pops;
    if |d.pool| == 0 { return [d]; }
    var d', alive :| Pops(ww, nb, draws, params, d, d', alive)
      && if alive then Drains(ww, nb, draws, late, params, d', budget - 1, at + 1, end) else end == DrainEnd(d', budget - 1, at + 1, false);
    var rest := DrainIsChain(ww, nb, draws, late, params, d', budget - 1, at + 1, end);
    chain := [d] + rest;
    forall k | 0 <= k < |chain| - 1 ensures |chain[k].pool| > 0 && Pops(ww, nb, draws, params, chain[k], chain[k + 1], true) {
      if k > 0 { assert chain[k] == rest[k - 1] && chain[k + 1] == rest[k]; }
    }
  }

  /** The drain: false when any budget, the deadline or a dead end stops it. */
  method Drain(ww: WarpWorld, nb: NeighbourLists, ss: SearchState, o: Oracle, params: Params, pool0: seq<int>, pcount0: seq<int>, work0: Option<int>)
    returns (done: bool, pcount: seq<int>, work: Option<int>, pops: nat, ghost end: DrainEnd)
    requires Consistent(ww) && Sound(nb, ww.w.inst.n) && |pcount0| == ww.w.inst.n + 1
    requires Holds(ww.w, ss.tours, multiset(pool0))
    modifies ss`tours, o`asked, o`drawn
    ensures Drains(ww, nb, o.draws, o.late, params, DrainState(old(ss.tours), pool0, pcount0, work0, old(o.drawn)), params.epBudget, old(o.asked), end)
    ensures end.done == done && end.d.tours == ss.tours && end.d.pcount == pcount && end.d.work == work && end.d.drawn == o.drawn && end.at == o.asked
    ensures done ==> Feasible(ww.w, ss.tours)
    ensures done ==> |ss.tours| <= old(|ss.tours|) && (!params.sqLadder || AllServableAlone(ww.w) ==> |ss.tours| == old(|ss.tours|))
    ensures pops <= params.epBudget || pops == 0
    ensures |pcount| == |pcount0| && forall v :: 0 <= v < |pcount| ==> pcount0[v] <= pcount[v]
  {
    hide Consistent, Sound, Holds, AllServableAlone, Drains, Pops;
    var pool := pool0;
    pcount, work, pops, done := pcount0, work0, 0, false;
    ghost var d0 := DrainState(ss.tours, pool0, pcount0, work0, o.drawn);
    var budget := params.epBudget;
    while |pool| > 0
      invariant Holds(ww.w, ss.tours, multiset(pool)) && !done
      invariant forall end :: Drains(ww, nb, o.draws, o.late, params, DrainState(ss.tours, pool, pcount, work, o.drawn), budget, o.asked, end) ==>
                  Drains(ww, nb, o.draws, o.late, params, d0, params.epBudget, old(o.asked), end)
      invariant |ss.tours| <= old(|ss.tours|) && (!params.sqLadder || AllServableAlone(ww.w) ==> |ss.tours| == old(|ss.tours|))
      invariant pops == 0 || pops <= params.epBudget
      invariant budget == params.epBudget - pops
      invariant |pcount| == |pcount0| && forall v :: 0 <= v < |pcount| ==> pcount0[v] <= pcount[v]
      decreases budget
    {
      ghost var d, at := DrainState(ss.tours, pool, pcount, work, o.drawn), o.asked;
      DrainStops(ww, nb, o.draws, o.late, params, d, budget, at);
      end := DrainEnd(d, budget, o.asked, false);
      if work.Some? && work.value <= 0 { return; }
      var late := o.Past();
      end := DrainEnd(d, budget, o.asked, false);
      if late { return; }
      if budget <= 0 { return; }
      var alive;
      alive, pool, pcount, work := DrainOne(ww, nb, ss, o, params, pool, pcount, work);
      DrainOn(ww, nb, o.draws, o.late, params, d, budget, at, DrainState(ss.tours, pool, pcount, work, o.drawn), alive);
      budget := budget - 1;
      pops := pops + 1;
      if !alive {
        end := DrainEnd(DrainState(ss.tours, pool, pcount, work, o.drawn), budget, o.asked, false);
        return;
      }
    }
    DrainStops(ww, nb, o.draws, o.late, params, DrainState(ss.tours, pool, pcount, work, o.drawn), budget, o.asked);
    end := DrainEnd(DrainState(ss.tours, pool, pcount, work, o.drawn), budget, o.asked, true);
    EmptyPool(ww.w, ss.tours, pool);
    done := true;
  }

  lemma EmptyPool(w: World, tours: seq<Tour>, pool: seq<int>)
    requires Holds(w, tours, multiset(pool)) && |pool| == 0
    ensures Feasible(w, tours)
  {
    assert multiset(pool) == multiset{};
    assert Served(tours) + multiset(pool) == Served(tours);
  }

  /** fleet_descent: the route the rule picks is dissolved and its stops are drained into the others. Strictly
      fewer feasible routes serving everyone, exactly one fewer without the squeeze ladder or where every
      client can be served alone, or the entry state to the last stop. Stamps are the caller's business. */
  method FleetDescent(ww: WarpWorld, nb: NeighbourLists, ss: SearchState, o: Oracle, params: Params, pcount0: seq<int>, work0: Option<int>)
    returns (dropped: bool, pcount: seq<int>, work: Option<int>, pops: nat, ghost victim: nat, ghost end: DrainEnd)
    requires Consistent(ww) && Sound(nb, ww.w.inst.n) && StateOk(ww.w, ss.View()) && |pcount0| == ww.w.inst.n + 1
    modifies ss`tours, o`asked, o`drawn
    ensures StateOk(ww.w, ss.View())
    ensures Shrinks(ww, nb, o.draws, o.late, params, old(ss.tours), pcount0, work0, old(o.drawn), old(o.asked), victim, end,
                    Shrunk(dropped, ss.tours, pcount, work, o.drawn, o.asked))
    ensures !dropped ==> ss.View() == old(ss.View())
    ensures dropped ==> |ss.tours| < old(|ss.tours|) && (!params.sqLadder || AllServableAlone(ww.w) ==> |ss.tours| == old(|ss.tours|) - 1)
    ensures pops <= params.epBudget || pops == 0
    ensures |pcount| == |pcount0| && forall v :: 0 <= v < |pcount| ==> pcount0[v] <= pcount[v]
  {
    hide Consistent, Sound, Served, AllClients, AllServableAlone, Drains, IsVictim;
    ghost var entry := ss.tours;
    victim := 0;
    end := DrainEnd(DrainState([], [], [], None, 0), 0, 0, false);
    if |ss.tours| < 2 { return false, pcount0, work0, 0, victim, end; }
    var snapshot := Routes(ss.tours);
    var k := ChooseVictim(ss.tours, o, params.routeChoice);
    victim := k;
    VictimInside(ss.tours, params.routeChoice, o.draws(old(o.drawn)), victim);
    DissolveKeeps(ww.w, ss.tours, victim);
    var pool := ss.tours[k].vertices;
    ss.tours := Erase(ss.tours, k);
    dropped, pcount, work, pops, end := Drain(ww, nb, ss, o, params, pool, pcount0, work0);
    if !dropped {
      RestoreStates(ww.w, ss, snapshot);
      RestoredIsOld(ww.w, entry, ss.tours);
    }
  }

  lemma VictimInside(tours: seq<Tour>, routeChoice: int, draw: nat, victim: nat)
    requires IsVictim(tours, routeChoice, draw, victim)
    ensures victim < |tours|
  {
  }

  /** What a fleet descent leaves. */
  datatype Shrunk = Shrunk(dropped: bool, tours: seq<Tour>, pcount: seq<int>, work: Option<int>, drawn: nat, at: nat)

  /** One fleet descent: the victim of the rule is dissolved, its stops in route order are the pool, and
      the drain decides. */
  ghost predicate Shrinks(ww: WarpWorld, nb: NeighbourLists, draws: nat -> nat, late: nat -> bool, params: Params, tours: seq<Tour>, pcount: seq<int>,
                          work: Option<int>, drawn: nat, at: nat, victim: nat, end: DrainEnd, r: Shrunk)
    requires Sound(nb, ww.w.inst.n)
  {
    if |tours| < 2 then r == Shrunk(false, tours, pcount, work, drawn, at)
    else
      && IsVictim(tours, params.routeChoice, draws(drawn), victim) && victim < |tours|
      && Drains(ww, nb, draws, late, params, DrainState(Erase(tours, victim), tours[victim].vertices, pcount, work, drawn + 1), params.epBudget, at, end)
      && r == Shrunk(end.done, if end.done then end.d.tours else tours, end.d.pcount, end.d.work, end.d.drawn, end.at)
  }
}
