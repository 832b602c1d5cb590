/** Ruin and recreate (cpp/ls/perturb.cpp, cpp/ls/rng.h), for every random stream. A kick either leaves
    the state as it was or yields another feasible state and touches every client of every route that
    changed, which is what keeps the staleness certificate. */
module Perturbation {
  import opened Oracles
  import opened Instances
  import opened Insertions
  import opened Neighbours
  import opened SearchStates
  import opened Staleness
  import opened Descents
  import opened Repairs

  datatype Params = Params(minRemovals: int, maxRemovals: int, maxRedraws: int, dissolvePct: int)

  datatype Outcome = Outcome(applied: bool, removed: int, redraws: int, newRoutes: int, dissolved: bool)

  /** fisher_yates on the first i entries, drawing from cursor `at` on. */
  function Shuffle(v: seq<int>, i: nat, draws: nat -> nat, at: nat): (r: seq<int>)
    requires i <= |v|
    ensures |r| == |v|
    decreases i
  {
    if i <= 1 then v
    else
      var j := draws(at) % i;
      Shuffle(v[i - 1 := v[j]][j := v[i - 1]], i - 1, draws, at + 1)
  }

  lemma Exchanged(v: seq<int>, i: nat, j: nat)
    requires i < |v| && j < |v|
    ensures multiset(v[i := v[j]][j := v[i]]) == multiset(v)
  {
  }

  /** Draws a shuffle of k entries takes. */
  function ShuffleDraws(k: nat): nat { if k == 0 then 0 else k - 1 }

  method FisherYates(v: seq<int>, o: Oracle) returns (r: seq<int>)
    modifies o`drawn
    ensures multiset(r) == multiset(v) && |r| == |v|
    ensures r == Shuffle(v, |v|, o.draws, old(o.drawn)) && o.drawn == old(o.drawn) + ShuffleDraws(|v|)
  {
    r := v;
    var i := |v|;
    while i > 1
      invariant |r| == |v| && multiset(r) == multiset(v) && 0 <= i <= |v| && (|v| > 0 ==> i > 0)
      invariant o.drawn == old(o.drawn) + |v| - i
      invariant Shuffle(r, i, o.draws, o.drawn) == Shuffle(v, |v|, o.draws, old(o.drawn))
    {
      var j := o.Draw(i);
      Exchanged(r, i - 1, j);
      r := r[i - 1 := r[j]][j := r[i - 1]];
      i := i - 1;
    }
  }

  // ---------- choosing the clients to remove ----------

  /** The removal list and its bit vector agree. */
  ghost predicate RemovalOk(n: nat, removed: seq<int>, gone: seq<bool>) {
    && |gone| == n + 1
    && (forall k :: 0 <= k < |removed| ==> 1 <= removed[k] <= n)
    && (forall j, k :: 0 <= j < k < |removed| ==> removed[j] != removed[k])
    && (forall v :: 0 <= v <= n ==> (gone[v] <==> v in removed))
  }

  function Removed(removed: seq<int>, c: int): seq<int> {
    if c in removed then removed else removed + [c]
  }

  /** Everything in the list, in order. */
  function RemovedAll(removed: seq<int>, list: seq<int>): seq<int> {
    if |list| == 0 then removed else Removed(RemovedAll(removed, list[..|list| - 1]), list[|list| - 1])
  }

  /** The list in order, until the target is met. */
  function Dragged(removed: seq<int>, list: seq<int>, target: int): seq<int>
    decreases |list|
  {
    if |list| == 0 || |removed| >= target then removed else Dragged(Removed(removed, list[0]), list[1..], target)
  }

  /** Seeds in order, each with its neighbours, until the target is met. */
  ghost function Walked(nb: NeighbourLists, n: nat, removed: seq<int>, order: seq<int>, target: int): seq<int>
    requires Sound(nb, n) && forall k :: 0 <= k < |order| ==> 1 <= order[k] <= n
    decreases |order|
  {
    if |order| == 0 || |removed| >= target then removed
    else
      var seeded := Removed(removed, order[0]);
      Walked(nb, n, if nb.Restricted() then Dragged(seeded, nb.List(order[0]), target) else seeded, order[1..], target)
  }

  method RemoveOne(n: nat, removed0: seq<int>, gone0: seq<bool>, c: int) returns (removed: seq<int>, gone: seq<bool>)
    requires RemovalOk(n, removed0, gone0) && 1 <= c <= n
    ensures RemovalOk(n, removed, gone)
    ensures removed == Removed(removed0, c)
  {
    removed, gone := removed0, gone0;
    if gone[c] { return; }
    gone := gone[c := true];
    removed := removed + [c];
  }

  /** Distinct clients that cover everyone are n. */
  lemma CoverCounts(n: nat, removed: seq<int>)
    requires forall c :: 1 <= c <= n ==> c in removed
    ensures |removed| >= n
  {
    ClientCount(n);
    forall c | c in AllClients(n) ensures c in multiset(removed) {
      assert c in ClientSet(n);
      assert c in removed;
    }
    assert AllClients(n) <= multiset(removed);
    assert multiset(removed) == AllClients(n) + (multiset(removed) - AllClients(n));
  }

  method ClientList(n: nat) returns (order: seq<int>)
    ensures order == seq(n, k => k + 1) && forall c :: c in order <==> 1 <= c <= n
  {
    order := [];
    for c := 1 to n + 1
      invariant |order| == c - 1 && (forall k :: 0 <= k < |order| ==> order[k] == k + 1) && forall v :: v in order <==> 1 <= v < c
    {
      order := order + [c];
    }
  }

  method RemoveRoute(n: nat, route: seq<int>) returns (removed: seq<int>, gone: seq<bool>)
    requires forall k :: 0 <= k < |route| ==> 1 <= route[k] <= n
    ensures RemovalOk(n, removed, gone) && forall v :: v in removed <==> v in route
    ensures removed == RemovedAll([], route)
  {
    removed, gone := [], seq(n + 1, _ => false);
    for k := 0 to |route|
      invariant RemovalOk(n, removed, gone) && removed == RemovedAll([], route[..k]) && forall v :: v in removed <==> v in route[..k]
    {
      assert route[..k + 1][..k] == route[..k];
      assert route[..k + 1] == route[..k] + [route[k]];
      removed, gone := RemoveOne(n, removed, gone, route[k]);
    }
    assert route[..|route|] == route;
  }

  /** A seed client drags its neighbours along, up to the target. */
  method RemoveNeighbours(n: nat, list: seq<int>, target: int, removed0: seq<int>, gone0: seq<bool>) returns (removed: seq<int>, gone: seq<bool>)
    requires RemovalOk(n, removed0, gone0) && forall k :: 0 <= k < |list| ==> 1 <= list[k] <= n
    ensures RemovalOk(n, removed, gone) && forall v :: v in removed0 ==> v in removed
    ensures |removed0| <= target ==> |removed| <= target
    ensures |removed0| >= target ==> removed == removed0
    ensures removed == Dragged(removed0, list, target)
  {
    removed, gone := removed0, gone0;
    for k := 0 to |list|
      invariant RemovalOk(n, removed, gone) && forall v :: v in removed0 ==> v in removed
      invariant |removed0| <= target ==> |removed| <= target
      invariant |removed0| >= target ==> removed == removed0
      invariant Dragged(removed, list[k..], target) == Dragged(removed0, list, target)
    {
      if |removed| >= target { return; }
      assert list[k..][1..] == list[k + 1..];
      removed, gone := RemoveOne(n, removed, gone, list[k]);
    }
  }

  /** The ruin's choice: a whole smallest route first when dissolving, then shuffled seeds and their
      neighbours until the target is met. */
  ghost predicate Chooses(w: World, nb: NeighbourLists, tours: seq<Tour>, target: int, dissolve: bool, draws: nat -> nat, at: nat, removed: seq<int>, at': nat)
    requires Sound(nb, w.inst.n)
  {
    var n := w.inst.n;
    var order := Shuffle(seq(n, k => k + 1), n, draws, at);
    var at1 := at + ShuffleDraws(n);
    && (forall k :: 0 <= k < |order| ==> 1 <= order[k] <= n)
    && if dissolve then
         && at' == at1 + 1
         && exists k: nat :: k < |tours| && PicksSmallest(tours, draws(at1), k) && removed == Walked(nb, n, RemovedAll([], tours[k].vertices), order, target)
       else at' == at1 && removed == Walked(nb, n, [], order, target)
  }

  method ChooseRemovals(w: World, nb: NeighbourLists, tours: seq<Tour>, o: Oracle, target: int, dissolve: bool) returns (removed: seq<int>, gone: seq<bool>)
    requires Sound(nb, w.inst.n) && ToursOk(w, tours) && (dissolve ==> |tours| > 0)
    modifies o`drawn
    ensures RemovalOk(w.inst.n, removed, gone)
    ensures Chooses(w, nb, tours, target, dissolve, o.draws, old(o.drawn), removed, o.drawn)
    ensures |removed| >= target || |removed| >= w.inst.n
    ensures !dissolve && target >= 0 ==> |removed| <= target
    ensures dissolve ==> exists k :: IsSmallest(tours, k) && forall v :: v in tours[k].vertices ==> v in removed
  {
    hide Sound, ToursOk, RemovalOk, IsSmallest, PicksSmallest, Walked, Chooses, Shuffle;
    var n := w.inst.n;
    ghost var at := o.drawn;
    var order := ClientList(n);
    order := Shuffled(n, order, o);
    removed, gone := [], seq(n + 1, _ => false);
    NothingRemoved(n);
    if dissolve {
      var pick := SmallestRoute(tours, o);
      SmallestClients(w, tours, pick);
      removed, gone := RemoveRoute(n, tours[pick].vertices);
      ghost var victim := removed;
      removed, gone := WalkSeeds(w, nb, order, target, removed, gone);
      assert forall v :: v in tours[pick].vertices ==> v in victim && v in removed;
      ChosenDissolving(w, nb, tours, target, o.draws, at, order, pick, removed);
    } else {
      removed, gone := WalkSeeds(w, nb, order, target, removed, gone);
      ChosenPlain(w, nb, tours, target, o.draws, at, order, removed);
    }
  }

  lemma ChosenPlain(w: World, nb: NeighbourLists, tours: seq<Tour>, target: int, draws: nat -> nat, at: nat, order: seq<int>, removed: seq<int>)
    requires Sound(nb, w.inst.n) && (forall k :: 0 <= k < |order| ==> 1 <= order[k] <= w.inst.n)
    requires order == Shuffle(seq(w.inst.n, k => k + 1), w.inst.n, draws, at) && removed == Walked(nb, w.inst.n, [], order, target)
    ensures Chooses(w, nb, tours, target, false, draws, at, removed, at + ShuffleDraws(w.inst.n))
  {
    hide Walked, Shuffle, Sound;
  }

  lemma ChosenDissolving(w: World, nb: NeighbourLists, tours: seq<Tour>, target: int, draws: nat -> nat, at: nat, order: seq<int>, pick: nat, removed: seq<int>)
    requires Sound(nb, w.inst.n) && (forall k :: 0 <= k < |order| ==> 1 <= order[k] <= w.inst.n) && pick < |tours|
    requires order == Shuffle(seq(w.inst.n, k => k + 1), w.inst.n, draws, at) && PicksSmallest(tours, draws(at + ShuffleDraws(w.inst.n)), pick)
    requires removed == Walked(nb, w.inst.n, RemovedAll([], tours[pick].vertices), order, target)
    ensures Chooses(w, nb, tours, target, true, draws, at, removed, at + ShuffleDraws(w.inst.n) + 1)
  {
    hide Walked, Shuffle, Sound, PicksSmallest, RemovedAll;
  }

  lemma NothingRemoved(n: nat)
    ensures RemovalOk(n, [], seq(n + 1, _ => false))
  {
  }

  lemma SmallestClients(w: World, tours: seq<Tour>, k: nat)
    requires ToursOk(w, tours) && IsSmallest(tours, k)
    ensures k < |tours| && forall i :: 0 <= i < |tours[k].vertices| ==> 1 <= tours[k].vertices[i] <= w.inst.n
  {
    assert TourOk(w, tours[k]);
    forall i | 0 <= i < |tours[k].vertices| ensures 1 <= tours[k].vertices[i] <= w.inst.n {
      assert w.inst.Customer(tours[k].vertices[i]);
    }
  }

  method Shuffled(n: nat, all: seq<int>, o: Oracle) returns (order: seq<int>)
    requires |all| == n && forall c :: c in all <==> 1 <= c <= n
    modifies o`drawn
    ensures order == Shuffle(all, n, o.draws, old(o.drawn)) && o.drawn == old(o.drawn) + ShuffleDraws(n)
    ensures forall c :: c in order <==> 1 <= c <= n
    ensures forall k :: 0 <= k < |order| ==> 1 <= order[k] <= n
  {
    order := FisherYates(all, o);
    forall c ensures c in order <==> 1 <= c <= n {
      assert c in order <==> c in multiset(order);
      assert c in all <==> c in multiset(all);
    }
    forall k | 0 <= k < |order| ensures 1 <= order[k] <= n { assert order[k] in order; }
  }

  /** Random seeds and their neighbours, until the target is met. */
  method WalkSeeds(w: World, nb: NeighbourLists, order: seq<int>, target: int, removed0: seq<int>, gone0: seq<bool>) returns (removed: seq<int>, gone: seq<bool>)
    requires Sound(nb, w.inst.n) && RemovalOk(w.inst.n, removed0, gone0)
    requires (forall c :: c in order <==> 1 <= c <= w.inst.n) && forall k :: 0 <= k < |order| ==> 1 <= order[k] <= w.inst.n
    ensures RemovalOk(w.inst.n, removed, gone) && forall v :: v in removed0 ==> v in removed
    ensures |removed| >= target || |removed| >= w.inst.n
    ensures |removed0| <= target ==> |removed| <= target
    ensures |removed0| >= target ==> removed == removed0
    ensures removed == Walked(nb, w.inst.n, removed0, order, target)
  {
    hide Sound, RemovalOk;
    var n := w.inst.n;
    removed, gone := removed0, gone0;
    for k := 0 to |order|
      invariant RemovalOk(n, removed, gone) && forall v :: v in removed0 ==> v in removed
      invariant |removed0| <= target ==> |removed| <= target
      invariant |removed0| >= target ==> removed == removed0
      invariant forall j :: 0 <= j < k ==> order[j] in removed
      invariant Walked(nb, n, removed, order[k..], target) == Walked(nb, n, removed0, order, target)
    {
      if |removed| >= target { return; }
      assert order[k..][0] == order[k] && order[k..][1..] == order[k + 1..];
      removed, gone := RemoveOne(n, removed, gone, order[k]);
      if nb.Restricted() {
        var list := ListOf(n, nb, order[k]);
        removed, gone := RemoveNeighbours(n, list, target, removed, gone);
      }
    }
    forall c | 1 <= c <= n ensures c in removed { assert c in order; }
    CoverCounts(n, removed);
  }

  method ListOf(n: nat, nb: NeighbourLists, c: int) returns (list: seq<int>)
    requires Sound(nb, n) && nb.Restricted() && 1 <= c <= n
    ensures nb.HasList(c) && list == nb.List(c) && forall k :: 0 <= k < |list| ==> 1 <= list[k] <= n
  {
    list := nb.List(c);
    forall k | 0 <= k < |list| ensures 1 <= list[k] <= n { assert list[k] in nb.List(c); }
  }

  // ---------- rebuilding the ruined routes ----------

  function Kept(r: seq<int>, gone: seq<bool>): seq<int>
    requires forall k :: 0 <= k < |r| ==> 0 <= r[k] < |gone|
  {
    if |r| == 0 then []
    else
      var rest, v := Kept(r[..|r| - 1], gone), r[|r| - 1];
      if gone[v] then rest else rest + [v]
  }

  /** The clients a ruined route loses. */
  ghost function Lost(r: seq<int>, gone: seq<bool>): multiset<int>
    requires forall k :: 0 <= k < |r| ==> 0 <= r[k] < |gone|
  {
    if |r| == 0 then multiset{}
    else
      var rest, v := Lost(r[..|r| - 1], gone), r[|r| - 1];
      if gone[v] then rest + multiset{v} else rest
  }

  lemma {:induction false} KeptAndLost(r: seq<int>, gone: seq<bool>)
    requires forall k :: 0 <= k < |r| ==> 0 <= r[k] < |gone|
    ensures multiset(r) == multiset(Kept(r, gone)) + Lost(r, gone)
    ensures forall v :: v in Lost(r, gone) ==> 0 <= v < |gone| && gone[v]
    decreases |r|
  {
    if |r| > 0 {
      KeptAndLost(r[..|r| - 1], gone);
      assert r == r[..|r| - 1] + [r[|r| - 1]];
    }
  }

  lemma {:induction false} KeptMembers(r: seq<int>, gone: seq<bool>)
    requires forall k :: 0 <= k < |r| ==> 0 <= r[k] < |gone|
    ensures forall v :: v in Kept(r, gone) ==> v in r && 0 <= v < |gone| && !gone[v]
    decreases |r|
  {
    if |r| > 0 { KeptMembers(r[..|r| - 1], gone); }
  }

  lemma {:induction false} KeptLoad(w: World, r: seq<int>, gone: seq<bool>)
    requires forall k :: 0 <= k < |r| ==> 0 <= r[k] < |gone|
    ensures Load(w.inst, Kept(r, gone)) <= Load(w.inst, r)
    decreases |r|
  {
    if |r| > 0 {
      KeptLoad(w, r[..|r| - 1], gone);
      var rest := Kept(r[..|r| - 1], gone);
      assert (rest + [r[|r| - 1]])[..|rest|] == rest;
    }
  }

  lemma KeptRoute(w: World, r: seq<int>, gone: seq<bool>)
    requires w.inst.Route(r) && |gone| == w.inst.n + 1
    ensures w.inst.Route(Kept(r, gone))
  {
    hide Kept;
    KeptMembers(r, gone);
    forall k | 0 <= k < |Kept(r, gone)| ensures w.inst.Customer(Kept(r, gone)[k]) {
      assert Kept(r, gone)[k] in Kept(r, gone);
    }
  }

  method KeepUnremoved(r: seq<int>, gone: seq<bool>) returns (kept: seq<int>, changed: bool)
    requires forall k :: 0 <= k < |r| ==> 0 <= r[k] < |gone|
    ensures kept == Kept(r, gone) && (changed <==> exists v :: v in r && gone[v]) && (!changed ==> kept == r)
  {
    kept, changed := [], false;
    for k := 0 to |r|
      invariant kept == Kept(r[..k], gone) && (changed <==> exists v :: v in r[..k] && gone[v]) && (!changed ==> kept == r[..k])
    {
      assert r[..k + 1][..k] == r[..k];
      assert forall v :: v in r[..k + 1] <==> v in r[..k] || v == r[k];
      if gone[r[k]] { changed := true; } else { kept := kept + [r[k]]; }
    }
    assert r[..|r|] == r;
  }

  ghost predicate Hit(verts: seq<int>, removed: seq<int>) {
    exists v :: v in verts && v in removed
  }

  /** v shares a route with a removed client. */
  ghost predicate SharesWith(routes: seq<seq<int>>, removed: seq<int>, v: int) {
    exists k :: 0 <= k < |routes| && v in routes[k] && Hit(routes[k], removed)
  }

  /** src names the old route that each route still is, in order; every other route holds a removed
      client, or only clients of routes that lost one. */
  ghost predicate Traced(before: seq<Tour>, removed: seq<int>, tours: seq<Tour>, src: seq<int>) {
    && |src| == |tours|
    && (forall k :: 0 <= k < |src| ==>
          if src[k] >= 0 then src[k] < |before| && tours[k] == before[src[k]]
          else Hit(tours[k].vertices, removed) || forall v :: v in tours[k].vertices ==> SharesWith(Routes(before), removed, v))
    && (forall k, l :: 0 <= k < l < |src| && src[k] >= 0 && src[l] >= 0 ==> src[k] < src[l])
  }

  /** One ruined route replaced by what it keeps, or dropped. */
  function Ruined(w: World, tours: seq<Tour>, k: nat, kept: seq<int>): seq<Tour>
    requires k < |tours| && (kept == [] || w.price.fold(kept).Some?)
  {
    if kept == [] then Erase(tours, k) else tours[k := Rebuilt(w, kept)]
  }

  lemma RuinKeeps(w: World, tours: seq<Tour>, lost: multiset<int>, k: nat, gone: seq<bool>)
    requires Holds(w, tours, lost) && k < |tours| && |gone| == w.inst.n + 1
    requires w.inst.Route(tours[k].vertices)
    requires var kept := Kept(tours[k].vertices, gone); kept == [] || w.price.fold(kept).Some?
    ensures Holds(w, Ruined(w, tours, k, Kept(tours[k].vertices, gone)), lost + Lost(tours[k].vertices, gone))
  {
    hide Load, Served, AllClients, Kept, Lost, Durations;
    var t := tours[k];
    var kept := Kept(t.vertices, gone);
    var out := Lost(t.vertices, gone);
    assert TourOk(w, t);
    KeptAndLost(t.vertices, gone);
    KeptLoad(w, t.vertices, gone);
    KeptRoute(w, t.vertices, gone);
    var s0, s1 := Served(tours), Served(Ruined(w, tours, k, kept));
    if kept == [] {
      EraseSums(tours, k);
      assert multiset(kept) == multiset{};
      assert s1 + multiset(t.vertices) == s0 + multiset(kept);
    } else {
      ReplaceSums(tours, k, Rebuilt(w, kept));
    }
    RuinBalance(s0, s1, multiset(t.vertices), multiset(kept), out, lost);
  }

  lemma RuinBalance(s0: multiset<int>, s1: multiset<int>, all: multiset<int>, kept: multiset<int>, out: multiset<int>, lost: multiset<int>)
    requires s1 + all == s0 + kept && all == kept + out
    ensures s1 + (lost + out) == s0 + lost
  {
    assert (s1 + out) + kept == s1 + all;
    Cancel(s1 + out, s0, kept);
    assert s1 + (lost + out) == (s1 + out) + lost;
  }

  /** Once no route holds a removed client, exactly the removed ones are lost. */
  lemma LostIsRemoved(w: World, tours: seq<Tour>, lost: multiset<int>, removed: seq<int>, gone: seq<bool>)
    requires Holds(w, tours, lost) && RemovalOk(w.inst.n, removed, gone)
    requires forall v :: v in lost ==> v in removed
    requires forall k :: 0 <= k < |tours| ==> !Hit(tours[k].vertices, removed)
    ensures lost == multiset(removed)
  {
    hide ToursOk;
    var n := w.inst.n;
    DistinctOnce(removed);
    forall v ensures lost[v] == multiset(removed)[v] {
      if v in removed {
        NotServed(tours, removed, v);
        assert IsClient(n, v) && v in ClientSet(n) && AllClients(n)[v] == 1;
        assert (Served(tours) + lost)[v] == 1;
      }
    }
  }

  lemma NotHit(verts: seq<int>, removed: seq<int>, v: int)
    requires !Hit(verts, removed) && v in removed
    ensures v !in verts
  {
  }

  lemma NotServed(tours: seq<Tour>, removed: seq<int>, v: int)
    requires v in removed && forall k :: 0 <= k < |tours| ==> !Hit(tours[k].vertices, removed)
    ensures v !in Served(tours)
  {
    forall k | 0 <= k < |tours| ensures v !in tours[k].vertices { NotHit(tours[k].vertices, removed, v); }
    if v in Served(tours) {
      var k := ServedBy(tours, v);
      assert false;
    }
  }

  lemma {:induction false} DistinctOnce(s: seq<int>)
    requires forall j, k :: 0 <= j < k < |s| ==> s[j] != s[k]
    ensures forall v :: v in s ==> multiset(s)[v] == 1
    ensures forall v :: v !in s ==> multiset(s)[v] == 0
    decreases |s|
  {
    if |s| > 0 {
      var n := |s| - 1;
      DistinctOnce(s[..n]);
      assert s == s[..n] + [s[n]];
      assert s[n] !in s[..n];
    }
  }

  /** One ruin step keeps the trace: a changed route is a hit route of the old state. */
  lemma RuinTrace(w: World, before: seq<Tour>, removed: seq<int>, gone: seq<bool>, tours: seq<Tour>, src: seq<int>, k: nat)
    requires Traced(before, removed, tours, src) && RemovalOk(w.inst.n, removed, gone)
    requires k < |tours| && k < |before| && tours[k] == before[k] && src[k] == k && w.inst.Route(tours[k].vertices)
    requires Hit(tours[k].vertices, removed)
    requires var kept := Kept(tours[k].vertices, gone); kept == [] || w.price.fold(kept).Some?
    ensures var kept := Kept(tours[k].vertices, gone);
            Traced(before, removed, Ruined(w, tours, k, kept), if kept == [] then Erase(src, k) else src[k := -1])
  {
    hide Kept, Hit, Load, Traced, SharesWith;
    var kept := Kept(tours[k].vertices, gone);
    KeptMembers(tours[k].vertices, gone);
    if kept == [] {
      TraceDrop(before, removed, tours, src, k);
    } else {
      HitRouteShares(before, removed, k);
      TraceReplace(before, removed, tours, src, k, Rebuilt(w, kept));
    }
  }

  lemma HitRouteShares(before: seq<Tour>, removed: seq<int>, k: nat)
    requires k < |before| && Hit(before[k].vertices, removed)
    ensures forall v :: v in before[k].vertices ==> SharesWith(Routes(before), removed, v)
  {
    assert Routes(before)[k] == before[k].vertices;
  }

  lemma TraceDrop(before: seq<Tour>, removed: seq<int>, tours: seq<Tour>, src: seq<int>, k: nat)
    requires Traced(before, removed, tours, src) && k < |tours|
    ensures Traced(before, removed, Erase(tours, k), Erase(src, k))
  {
    hide Hit, SharesWith;
    assert forall j :: 0 <= j < |tours| - 1 ==>
        Erase(src, k)[j] == src[if j < k then j else j + 1] && Erase(tours, k)[j] == tours[if j < k then j else j + 1];
  }

  lemma TraceReplace(before: seq<Tour>, removed: seq<int>, tours: seq<Tour>, src: seq<int>, k: nat, t: Tour)
    requires Traced(before, removed, tours, src) && k < |tours|
    requires Hit(t.vertices, removed) || forall v :: v in t.vertices ==> SharesWith(Routes(before), removed, v)
    ensures |src| == |tours| && Traced(before, removed, tours[k := t], src[k := -1])
  {
    hide Hit, SharesWith;
  }

  /** What the ruin has established once the routes from k on are done. */
  ghost predicate RuinedDownTo(w: World, before: seq<Tour>, removed: seq<int>, tours: seq<Tour>, src: seq<int>, lost: multiset<int>, k: nat) {
    && k <= |before| && k <= |tours| <= |before| && Traced(before, removed, tours, src)
    && (forall j :: 0 <= j < k ==> tours[j] == before[j] && src[j] == j)
    && (forall j :: k <= j < |tours| ==> !Hit(tours[j].vertices, removed))
    && Holds(w, tours, lost) && forall v :: v in lost ==> v in removed
  }

  /** The fold rejects what the removal leaves of a route. */
  ghost predicate Blocks(w: World, route: seq<int>, removed: seq<int>, gone: seq<bool>) {
    && w.inst.Route(route) && |gone| == w.inst.n + 1 && Hit(route, removed)
    && Kept(route, gone) != [] && w.price.fold(Kept(route, gone)).None?
  }

  /** What the ruin makes of one route. */
  ghost function Trimmed(w: World, t: Tour, removed: seq<int>, gone: seq<bool>): seq<Tour>
    requires w.inst.Route(t.vertices) && |gone| == w.inst.n + 1
  {
    if !Hit(t.vertices, removed) then [t]
    else
      var kept := Kept(t.vertices, gone);
      if kept == [] || w.price.fold(kept).None? then [] else [Rebuilt(w, kept)]
  }

  /** What it makes of the routes from k on. */
  ghost function TrimmedFrom(w: World, tours: seq<Tour>, k: nat, removed: seq<int>, gone: seq<bool>): seq<Tour>
    requires |gone| == w.inst.n + 1 && forall j :: 0 <= j < |tours| ==> w.inst.Route(tours[j].vertices)
    decreases |tours| - k
  {
    if k >= |tours| then [] else Trimmed(w, tours[k], removed, gone) + TrimmedFrom(w, tours, k + 1, removed, gone)
  }

  /** Ruin route k; false when the fold rejects what is left of it. */
  method RuinOne(w: World, ss: SearchState, k: nat, removed: seq<int>, gone: seq<bool>,
                 ghost before: seq<Tour>, ghost src: seq<int>, ghost lost: multiset<int>)
    returns (ok: bool, ghost src': seq<int>, ghost lost': multiset<int>)
    requires RemovalOk(w.inst.n, removed, gone) && RuinedDownTo(w, before, removed, ss.tours, src, lost, k + 1)
    modifies ss`tours
    ensures ok ==> RuinedDownTo(w, before, removed, ss.tours, src', lost', k)
    ensures k < |before| && (ok <==> !Blocks(w, before[k].vertices, removed, gone))
    ensures k < old(|ss.tours|) && w.inst.Route(old(ss.tours)[k].vertices) && old(ss.tours)[k] == before[k]
    ensures ok ==> ss.tours == old(ss.tours)[..k] + Trimmed(w, before[k], removed, gone) + old(ss.tours)[k + 1..]
  {
    hide Load, Kept, Lost, RuinedDownTo, Hit;
    RuinRoute(w, before, removed, ss.tours, src, lost, k);
    var route := ss.tours[k].vertices;
    src', lost' := src, lost;
    var kept, changed := KeepUnremoved(route, gone);
    RouteHit(w, route, removed, gone);
    if !changed {
      RuinSkips(w, before, removed, ss.tours, src, lost, k);
      assert ss.tours == ss.tours[..k] + [ss.tours[k]] + ss.tours[k + 1..];
      return true, src', lost';
    }
    if kept != [] && w.price.fold(kept).None? { return false, src', lost'; }
    RuinStep(w, before, removed, gone, ss.tours, src, lost, k);
    ss.tours := RuinedTours(w, ss.tours, k, kept);
    src' := if kept == [] then Erase(src, k) else src[k := -1];
    lost' := lost + Lost(route, gone);
    return true, src', lost';
  }

  method RuinedTours(w: World, tours: seq<Tour>, k: nat, kept: seq<int>) returns (r: seq<Tour>)
    requires k < |tours| && (kept == [] || w.price.fold(kept).Some?)
    ensures r == Ruined(w, tours, k, kept)
  {
    if |kept| == 0 { r := Erase(tours, k); } else { r := tours[k := Rebuilt(w, kept)]; }
  }

  lemma RuinRoute(w: World, before: seq<Tour>, removed: seq<int>, tours: seq<Tour>, src: seq<int>, lost: multiset<int>, k: nat)
    requires RuinedDownTo(w, before, removed, tours, src, lost, k + 1)
    ensures k < |tours| && |src| == |tours| && w.inst.Route(tours[k].vertices) && k < |before| && tours[k] == before[k]
  {
    HoldsRoutes(w, tours, lost);
  }

  lemma RuinSkips(w: World, before: seq<Tour>, removed: seq<int>, tours: seq<Tour>, src: seq<int>, lost: multiset<int>, k: nat)
    requires RuinedDownTo(w, before, removed, tours, src, lost, k + 1) && !Hit(tours[k].vertices, removed)
    ensures RuinedDownTo(w, before, removed, tours, src, lost, k)
  {
    hide Traced, Holds, Hit;
  }

  lemma RuinStep(w: World, before: seq<Tour>, removed: seq<int>, gone: seq<bool>, tours: seq<Tour>, src: seq<int>, lost: multiset<int>, k: nat)
    requires RemovalOk(w.inst.n, removed, gone) && RuinedDownTo(w, before, removed, tours, src, lost, k + 1)
    requires w.inst.Route(tours[k].vertices) && Hit(tours[k].vertices, removed) && |src| == |tours|
    requires var kept := Kept(tours[k].vertices, gone); kept == [] || w.price.fold(kept).Some?
    ensures var kept := Kept(tours[k].vertices, gone);
            RuinedDownTo(w, before, removed, Ruined(w, tours, k, kept), if kept == [] then Erase(src, k) else src[k := -1],
                         lost + Lost(tours[k].vertices, gone), k)
  {
    hide Load, Kept, Lost, Holds, SharesWith, Hit, Traced;
    var route := tours[k].vertices;
    RuinTrace(w, before, removed, gone, tours, src, k);
    RuinKeeps(w, tours, lost, k, gone);
    KeptNotHit(w, route, removed, gone);
    KeptAndLost(route, gone);
    var kept := Kept(route, gone);
    var r := Ruined(w, tours, k, kept);
    forall j | k <= j < |r| ensures !Hit(r[j].vertices, removed) {
      if kept == [] { assert r[j] == tours[j + 1]; } else if j > k { assert r[j] == tours[j]; }
    }
  }

  lemma KeptNotHit(w: World, route: seq<int>, removed: seq<int>, gone: seq<bool>)
    requires RemovalOk(w.inst.n, removed, gone) && w.inst.Route(route)
    ensures !Hit(Kept(route, gone), removed)
  {
    KeptMembers(route, gone);
  }

  lemma HoldsRoutes(w: World, tours: seq<Tour>, pool: multiset<int>)
    requires Holds(w, tours, pool)
    ensures forall k :: 0 <= k < |tours| ==> w.inst.Route(tours[k].vertices)
  {
    forall k | 0 <= k < |tours| ensures w.inst.Route(tours[k].vertices) { assert TourOk(w, tours[k]); }
  }

  lemma RouteHit(w: World, route: seq<int>, removed: seq<int>, gone: seq<bool>)
    requires RemovalOk(w.inst.n, removed, gone) && w.inst.Route(route)
    ensures Hit(route, removed) <==> exists v :: v in route && gone[v]
  {
    assert forall v :: v in route ==> w.inst.Customer(v);
    if Hit(route, removed) {
      var v :| v in route && v in removed;
      assert gone[v];
    }
  }

  /** Rebuild every ruined route, from the last to the first, dropping the emptied ones; refused exactly
      when the fold rejects the remainder of some route. */
  method RuinRoutes(w: World, ss: SearchState, removed: seq<int>, gone: seq<bool>) returns (ok: bool, ghost src: seq<int>)
    requires Feasible(w, ss.tours) && RemovalOk(w.inst.n, removed, gone)
    modifies ss`tours
    ensures ok ==> Holds(w, ss.tours, multiset(removed)) && Traced(old(ss.tours), removed, ss.tours, src)
    ensures ok ==> |ss.tours| <= old(|ss.tours|)
    ensures ok <==> forall k :: 0 <= k < old(|ss.tours|) ==> !Blocks(w, old(ss.tours)[k].vertices, removed, gone)
    ensures (forall k :: 0 <= k < old(|ss.tours|) ==> w.inst.Route(old(ss.tours)[k].vertices))
    ensures ok ==> ss.tours == TrimmedFrom(w, old(ss.tours), 0, removed, gone)
  {
    hide Hit, SharesWith, Blocks, Trimmed, RuinedDownTo;
    ghost var before := ss.tours;
    ghost var lost: multiset<int> := multiset{};
    src := seq(|before|, k => k);
    RuinStarts(w, before, removed, src);
    RoutesOf(w, before);
    var k: nat := |ss.tours|;
    while k > 0
      invariant RuinedDownTo(w, before, removed, ss.tours, src, lost, k)
      invariant forall j :: k <= j < |before| ==> !Blocks(w, before[j].vertices, removed, gone)
      invariant k <= |before| && ss.tours == before[..k] + TrimmedFrom(w, before, k, removed, gone)
      decreases k
    {
      k := k - 1;
      assert before[..k + 1][..k] == before[..k] && before[..k + 1][k + 1..] == [];
      ghost var was := ss.tours;
      ok, src, lost := RuinOne(w, ss, k, removed, gone, before, src, lost);
      if !ok { return false, src; }
      assert was[k + 1..] == TrimmedFrom(w, before, k + 1, removed, gone) && was[..k] == before[..k];
    }
    RuinDone(w, before, removed, ss.tours, src, lost);
    LostIsRemoved(w, ss.tours, lost, removed, gone);
    return true, src;
  }

  lemma RuinStarts(w: World, before: seq<Tour>, removed: seq<int>, src: seq<int>)
    requires Feasible(w, before) && src == seq(|before|, k => k)
    ensures RuinedDownTo(w, before, removed, before, src, multiset{}, |before|)
  {
    hide Hit, SharesWith;
    assert Served(before) + multiset{} == Served(before);
  }

  lemma RuinDone(w: World, before: seq<Tour>, removed: seq<int>, tours: seq<Tour>, src: seq<int>, lost: multiset<int>)
    requires RuinedDownTo(w, before, removed, tours, src, lost, 0)
    ensures Holds(w, tours, lost) && Traced(before, removed, tours, src) && |tours| <= |before|
    ensures (forall v :: v in lost ==> v in removed) && forall k :: 0 <= k < |tours| ==> !Hit(tours[k].vertices, removed)
  {
    hide Hit, SharesWith;
  }

  lemma RoutesOf(w: World, tours: seq<Tour>)
    requires Feasible(w, tours)
    ensures forall k :: 0 <= k < |tours| ==> w.inst.Route(tours[k].vertices)
  {
    forall k | 0 <= k < |tours| ensures w.inst.Route(tours[k].vertices) { assert TourOk(w, tours[k]); }
  }

  // ---------- recreating ----------

  /** c goes to its best accepted slot, or into a new route of its own where there is none. */
  ghost predicate PlacedOne(w: World, tours: seq<Tour>, c: int, after: seq<Tour>, grown: int) {
    || (grown == 0 && exists x :: IsBestPlace(w, tours, c, x) && after == PlaceAt(w, tours, c, x))
    || (grown == 1 && NoPlace(w, tours, c) && !Homeless(w, tours, c) && w.price.fold([c]).Some? && after == tours + [Rebuilt(w, [c])])
  }

  /** The clients of the order placed one after the other. */
  ghost predicate RecreatesTo(w: World, tours: seq<Tour>, order: seq<int>, after: seq<Tour>, grown: int)
    decreases |order|
  {
    var n := |order| - 1;
    if n < 0 then after == tours && grown == 0
    else exists mid, before :: RecreatesTo(w, tours, order[..n], mid, before) && PlacedOne(w, mid, order[n], after, grown - before)
  }

  /** Somebody along the order finds no home. */
  ghost predicate GetsStuck(w: World, tours: seq<Tour>, order: seq<int>) {
    exists k: nat, mid, grown :: k < |order| && RecreatesTo(w, tours, order[..k], mid, grown) && Homeless(w, mid, order[k])
  }

  /** c has no accepted slot and no singleton route: the fleet is used up or the fold rejects [c]. */
  ghost predicate Homeless(w: World, tours: seq<Tour>, c: int) {
    NoPlace(w, tours, c) && ((w.inst.vehicles >= 0 && |tours| >= w.inst.vehicles) || w.price.fold([c]).None?)
  }

  /** Put the removed clients back, best feasible position first, else in a new singleton route while
      the fleet bound allows. */
  method Recreate(w: World, ss: SearchState, order: seq<int>, removed: seq<int>, ghost before: seq<Tour>, ghost src0: seq<int>)
    returns (ok: bool, newRoutes: int, ghost src: seq<int>)
    requires multiset(order) == multiset(removed) && Holds(w, ss.tours, multiset(order)) && Traced(before, removed, ss.tours, src0)
    requires FleetOk(w, |ss.tours|) && forall c :: w.inst.Customer(c) ==> FitsAlone(w, c)
    modifies ss`tours
    ensures ok ==> Feasible(w, ss.tours) && Traced(before, removed, ss.tours, src)
    ensures ok ==> FleetOk(w, |ss.tours|) && |ss.tours| == old(|ss.tours|) + newRoutes
    ensures !ok ==> exists k: nat, pool :: k < |order| && pool == multiset(order[k..]) && Holds(w, ss.tours, pool) && Homeless(w, ss.tours, order[k])
    ensures if ok then RecreatesTo(w, old(ss.tours), order, ss.tours, newRoutes) else GetsStuck(w, old(ss.tours), order)
  {
    hide Hit, SharesWith, Traced, Holds, IsSlot, NoPlace, IsBestPlace, PlaceAt, FitsAlone, Homeless, PlacedOne;
    newRoutes, src := 0, src0;
    ghost var start := ss.tours;
    assert order[..0] == [] && RecreatesTo(w, start, order[..0], start, 0);
    assert order[0..] == order;
    for k := 0 to |order|
      invariant Holds(w, ss.tours, multiset(order[k..])) && Traced(before, removed, ss.tours, src)
      invariant FleetOk(w, |ss.tours|) && |ss.tours| == old(|ss.tours|) + newRoutes
      invariant RecreatesTo(w, start, order[..k], ss.tours, newRoutes)
    {
      ghost var mid, grown := ss.tours, newRoutes;
      assert order[..k + 1][..k] == order[..k];
      var c := order[k];
      assert order[k..] == [c] + order[k + 1..];
      assert multiset(order[k..]) == multiset(order[k + 1..]) + multiset{c};
      assert c in multiset(order);
      ok, newRoutes, src := RecreateOne(w, ss, c, newRoutes, removed, multiset(order[k + 1..]), before, src);
      if !ok {
        assert RecreatesTo(w, start, order[..k], mid, grown) && Homeless(w, mid, order[k]);
        return;
      }
      RecreateOn(w, start, order[..k + 1], mid, grown, ss.tours, newRoutes);
    }
    assert order[..|order|] == order;
    NothingPooled(w, ss.tours, multiset(order[|order|..]));
    ok := true;
  }

  lemma RecreateOn(w: World, tours: seq<Tour>, order: seq<int>, mid: seq<Tour>, before: int, after: seq<Tour>, grown: int)
    requires |order| > 0 && RecreatesTo(w, tours, order[..|order| - 1], mid, before) && PlacedOne(w, mid, order[|order| - 1], after, grown - before)
    ensures RecreatesTo(w, tours, order, after, grown)
  {
    hide PlacedOne;
  }

  lemma NothingPooled(w: World, tours: seq<Tour>, pool: multiset<int>)
    requires Holds(w, tours, pool) && pool == multiset{}
    ensures Feasible(w, tours)
  {
    assert Served(tours) + pool == Served(tours);
  }

  method RecreateOne(w: World, ss: SearchState, c: int, newRoutes0: int, removed: seq<int>, ghost pool: multiset<int>,
                     ghost before: seq<Tour>, ghost src0: seq<int>)
    returns (ok: bool, newRoutes: int, ghost src: seq<int>)
    requires Holds(w, ss.tours, pool + multiset{c}) && Traced(before, removed, ss.tours, src0) && c in removed
    requires FleetOk(w, |ss.tours|) && forall v :: w.inst.Customer(v) ==> FitsAlone(w, v)
    modifies ss`tours
    ensures ok ==> Holds(w, ss.tours, pool) && Traced(before, removed, ss.tours, src)
    ensures ok ==> FleetOk(w, |ss.tours|) && |ss.tours| - newRoutes == old(|ss.tours|) - newRoutes0
    ensures if ok then PlacedOne(w, old(ss.tours), c, ss.tours, newRoutes - newRoutes0) else Homeless(w, ss.tours, c) && ss.tours == old(ss.tours)
  {
    hide Hit, SharesWith, Traced, Holds, IsSlot, NoPlace, IsBestPlace, PlaceAt, FitsAlone;
    ghost var s := ss.tours;
    newRoutes, src := newRoutes0, src0;
    PoolIsClients(w, ss.tours, pool + multiset{c}, c);
    var placed, priced, at := PlaceBest(w, ss, c);
    if placed {
      BestIsSlot(w, s, c, at);
      PlaceKeeps(w, s, pool, c, at);
      PlaceTrace(w, before, removed, s, src0, c, at);
      HasPlace(w, s, c, at);
      src := src0[at.route := -1];
      return true, newRoutes, src;
    }
    var fleetOk := w.inst.vehicles < 0 || |ss.tours| < w.inst.vehicles;
    if fleetOk && w.price.fold([c]).Some? {
      OpenKeeps(w, s, pool, c);
      OpenTrace(w, before, removed, s, src0, c);
      ss.tours := ss.tours + [Rebuilt(w, [c])];
      src := src0 + [-1];
      return true, newRoutes + 1, src;
    }
    return false, newRoutes, src;
  }

  lemma BestIsSlot(w: World, tours: seq<Tour>, c: int, x: Candidate)
    requires IsBestPlace(w, tours, c, x)
    ensures IsSlot(w, tours, c, x) && w.price.fold(EditedAt(tours, c, x)).Some? && 0 <= x.route < |tours|
    ensures |PlaceAt(w, tours, c, x)| == |tours|
  {
  }

  lemma PlaceTrace(w: World, before: seq<Tour>, removed: seq<int>, tours: seq<Tour>, src: seq<int>, c: int, x: Candidate)
    requires Traced(before, removed, tours, src) && c in removed
    requires IsSlot(w, tours, c, x) && w.price.fold(EditedAt(tours, c, x)).Some?
    ensures |src| == |tours| && x.route < |src| && Traced(before, removed, PlaceAt(w, tours, c, x), src[x.route := -1])
  {
    hide SharesWith, PrefixReaches, Load, Traced;
    var r := EditedAt(tours, c, x);
    assert r[x.position] == c;
    assert Hit(r, removed);
    TraceReplace(before, removed, tours, src, x.route, Rebuilt(w, r));
  }

  lemma OpenTrace(w: World, before: seq<Tour>, removed: seq<int>, tours: seq<Tour>, src: seq<int>, c: int)
    requires Traced(before, removed, tours, src) && c in removed && w.price.fold([c]).Some?
    ensures Traced(before, removed, tours + [Rebuilt(w, [c])], src + [-1])
  {
    hide SharesWith, Load;
    assert c in [c];
    assert Hit([c], removed);
  }

  // ---------- one attempt ----------

  /** A successful ruin and recreate: feasible again, within the fleet, traced. */
  ghost predicate Kicked(w: World, before: seq<Tour>, removed: seq<int>, tours: seq<Tour>, src: seq<int>) {
    Feasible(w, tours) && FleetOk(w, |tours|) && Traced(before, removed, tours, src)
  }

  ghost predicate ClientsOnly(n: nat, removed: seq<int>) {
    forall k :: 0 <= k < |removed| ==> 1 <= removed[k] <= n
  }

  function Flags(n: nat, removed: seq<int>): seq<bool> { seq(n + 1, v => v in removed) }

  /** One attempt, draw by draw: the choice, the ruin, and the removed clients placed in shuffled order. */
  ghost predicate Attempts(w: World, nb: NeighbourLists, tours: seq<Tour>, target: int, dissolve: bool, draws: nat -> nat, at: nat,
                           ok: bool, removed: seq<int>, after: seq<Tour>, newRoutes: int, at': nat)
    requires Sound(nb, w.inst.n)
  {
    && (forall k :: 0 <= k < |tours| ==> w.inst.Route(tours[k].vertices))
    && exists at1: nat ::
         && Chooses(w, nb, tours, target, dissolve, draws, at, removed, at1)
         && var gone := Flags(w.inst.n, removed);
            if exists k :: 0 <= k < |tours| && Blocks(w, tours[k].vertices, removed, gone) then !ok && at' == at1
            else
              var ruined, order := TrimmedFrom(w, tours, 0, removed, gone), Shuffle(removed, |removed|, draws, at1);
              && at' == at1 + ShuffleDraws(|removed|)
              && if ok then RecreatesTo(w, ruined, order, after, newRoutes) else GetsStuck(w, ruined, order)
  }

  lemma FlagsAre(n: nat, removed: seq<int>, gone: seq<bool>)
    requires RemovalOk(n, removed, gone)
    ensures gone == Flags(n, removed)
  {
  }

  method Attempt(w: World, nb: NeighbourLists, ss: SearchState, o: Oracle, target: int, dissolve: bool)
    returns (ok: bool, removed: seq<int>, newRoutes: int, ghost src: seq<int>)
    requires Sound(nb, w.inst.n) && Feasible(w, ss.tours) && FleetOk(w, |ss.tours|) && (dissolve ==> |ss.tours| > 0)
    modifies ss`tours, o`drawn
    ensures ClientsOnly(w.inst.n, removed)
    ensures Attempts(w, nb, old(ss.tours), target, dissolve, o.draws, old(o.drawn), ok, removed, ss.tours, newRoutes, o.drawn)
    ensures ok ==> Kicked(w, old(ss.tours), removed, ss.tours, src)
    ensures ok ==> |ss.tours| <= old(|ss.tours|) + newRoutes
    ensures ok ==> |removed| >= target || |removed| >= w.inst.n
    ensures ok && !dissolve && target >= 0 ==> |removed| <= target
  {
    hide Holds, Traced, FitsAlone, IsSmallest, Served, AllClients, Chooses, Blocks, TrimmedFrom, RecreatesTo, GetsStuck, Sound;
    newRoutes, src := 0, [];
    FeasibleFitsAll(w, ss.tours);
    var gone;
    removed, gone := ChooseRemovals(w, nb, ss.tours, o, target, dissolve);
    ghost var before, at1 := ss.tours, o.drawn;
    FlagsAre(w.inst.n, removed, gone);
    ok, src := RuinRoutes(w, ss, removed, gone);
    if !ok { return; }
    var order := FisherYates(removed, o);
    ok, newRoutes, src := Recreate(w, ss, order, removed, before, src);
  }

  // ---------- stamping the kick ----------

  /** The touched stamps after a kick: removed clients and everyone who shared or shares a route with
      one carry the new epoch, nobody else moves. */
  ghost predicate KickStamped(before: seq<seq<int>>, after: seq<seq<int>>, removed: seq<int>, touched0: seq<int>, touched: seq<int>, epoch: int) {
    |touched| == |touched0| &&
    forall v :: 0 <= v < |touched| ==>
      touched[v] == if v in removed || SharesWith(before, removed, v) || SharesWith(after, removed, v) then epoch else touched0[v]
  }

  method AnyHit(verts: seq<int>, hit: seq<bool>, ghost removed: seq<int>) returns (any: bool)
    requires forall k :: 0 <= k < |verts| ==> 0 <= verts[k] < |hit| && (hit[verts[k]] <==> verts[k] in removed)
    ensures any <==> Hit(verts, removed)
  {
    for k := 0 to |verts|
      invariant forall j :: 0 <= j < k ==> verts[j] !in removed
    {
      if hit[verts[k]] {
        assert verts[k] in verts;
        return true;
      }
    }
    return false;
  }

  ghost predicate Within(routes: seq<seq<int>>, len: int) {
    forall k, i :: 0 <= k < |routes| && 0 <= i < |routes[k]| ==> 0 <= routes[k][i] < len
  }

  /** stamp_routes: every client of a route that holds a removed one. */
  method StampRoutes(ss: SearchState, routes: seq<seq<int>>, hit: seq<bool>, ghost removed: seq<int>, epoch: int)
    requires Within(routes, |ss.touched|) && |hit| == |ss.touched|
    requires forall v :: 0 <= v < |hit| ==> (hit[v] <==> v in removed)
    modifies ss`touched
    ensures |ss.touched| == old(|ss.touched|)
    ensures forall v :: 0 <= v < |ss.touched| ==> ss.touched[v] == if SharesWith(routes, removed, v) then epoch else old(ss.touched)[v]
  {
    hide Hit;
    ghost var touched0 := ss.touched;
    for k := 0 to |routes|
      invariant |ss.touched| == |touched0|
      invariant forall v :: 0 <= v < |touched0| ==> ss.touched[v] == if SharesWith(routes[..k], removed, v) then epoch else touched0[v]
    {
      assert forall v :: SharesWith(routes[..k + 1], removed, v) <==> SharesWith(routes[..k], removed, v) || (v in routes[k] && Hit(routes[k], removed)) by {
        SharesNext(routes, removed, k);
      }
      var any := AnyHit(routes[k], hit, removed);
      if any { StampAll(ss, routes[k], epoch); }
    }
    assert routes[..|routes|] == routes;
  }

  lemma SharesNext(routes: seq<seq<int>>, removed: seq<int>, k: nat)
    requires k < |routes|
    ensures forall v :: SharesWith(routes[..k + 1], removed, v) <==> SharesWith(routes[..k], removed, v) || (v in routes[k] && Hit(routes[k], removed))
  {
    hide Hit;
    assert forall j :: 0 <= j < k ==> routes[..k + 1][j] == routes[..k][j];
    assert routes[..k + 1][k] == routes[k];
  }

  method HitVector(n: nat, removed: seq<int>) returns (hit: seq<bool>)
    requires ClientsOnly(n, removed)
    ensures |hit| == n + 1 && forall v :: 0 <= v <= n ==> (hit[v] <==> v in removed)
  {
    hit := seq(n + 1, _ => false);
    for k := 0 to |removed|
      invariant |hit| == n + 1 && forall v :: 0 <= v <= n ==> (hit[v] <==> v in removed[..k])
    {
      assert removed[..k + 1] == removed[..k] + [removed[k]];
      hit := hit[removed[k] := true];
    }
    assert removed[..|removed|] == removed;
  }

  /** One epoch for the whole kick. */
  method StampKick(n: nat, ss: SearchState, before: seq<seq<int>>, after: seq<seq<int>>, removed: seq<int>)
    requires |ss.touched| == n + 1 && ClientsOnly(n, removed) && Within(before, n + 1) && Within(after, n + 1)
    modifies ss`touched, ss`epoch
    ensures ss.epoch == old(ss.epoch) + 1
    ensures KickStamped(before, after, removed, old(ss.touched), ss.touched, ss.epoch)
  {
    hide SharesWith, Within;
    ss.epoch := ss.epoch + 1;
    var hit := HitVector(n, removed);
    StampRoutes(ss, before, hit, removed, ss.epoch);
    StampRoutes(ss, after, hit, removed, ss.epoch);
    StampAll(ss, removed, ss.epoch);
  }

  // ---------- perturb ----------

  lemma RoutesWithin(w: World, tours: seq<Tour>)
    requires ToursOk(w, tours)
    ensures Within(Routes(tours), w.inst.n + 1)
  {
    forall k, i | 0 <= k < |tours| && 0 <= i < |tours[k].vertices| ensures 0 <= tours[k].vertices[i] < w.inst.n + 1 {
      assert TourOk(w, tours[k]);
      assert w.inst.Customer(tours[k].vertices[i]);
    }
  }

  /** A stamped kick is a carrying step. */
  lemma KickCarries(w: World, s: State, s': State, removed: seq<int>, src: seq<int>)
    requires StateOk(w, s) && Kicked(w, s.tours, removed, s'.tours, src) && ClientsOnly(w.inst.n, removed)
    requires s'.tested == s.tested && s'.epoch == s.epoch + 1
    requires KickStamped(Routes(s.tours), Routes(s'.tours), removed, s.touched, s'.touched, s'.epoch)
    ensures StateOk(w, s') && Carries(w.inst.n, s, s', src)
  {
    hide SharesWith, Hit, Feasible;
    var n := w.inst.n;
    KickStampsOk(n, s, s', removed);
    forall k | 0 <= k < |src| && src[k] < 0 ensures forall v :: v in s'.tours[k].vertices && 0 <= v <= n ==> s'.touched[v] > s.epoch {
      if Hit(s'.tours[k].vertices, removed) { HitRouteShares(s'.tours, removed, k); }
      forall v | v in s'.tours[k].vertices && 0 <= v <= n ensures s'.touched[v] > s.epoch {
        assert SharesWith(Routes(s.tours), removed, v) || SharesWith(Routes(s'.tours), removed, v);
      }
    }
  }

  /** The kick's stamps: a legal state, nobody's stamp goes back. */
  lemma KickStampsOk(n: nat, s: State, s': State, removed: seq<int>)
    requires StampsOk(n, s) && s'.tested == s.tested && s'.epoch == s.epoch + 1
    requires KickStamped(Routes(s.tours), Routes(s'.tours), removed, s.touched, s'.touched, s'.epoch)
    ensures StampsOk(n, s') && forall v :: 0 <= v <= n ==> s.touched[v] <= s'.touched[v]
  {
    hide SharesWith;
    assert 0 <= s.touched[0] <= s.epoch;
    forall v | 0 <= v <= n ensures s.touched[v] <= s'.touched[v] <= s'.epoch {
      assert s'.touched[v] == s'.epoch || s'.touched[v] == s.touched[v];
    }
  }

  // ---------- the redraws ----------

  /** How many clients a kick aims to remove, from one draw. */
  function KickTarget(n: nat, p: Params, draw: nat): int {
    var span := p.maxRemovals - p.minRemovals + 1;
    var step := draw % (if span > 0 then span else 1);
    if n <= p.minRemovals + step then n else p.minRemovals + step
  }

  /** Whether a kick may dissolve a route, which takes a draw to decide. */
  predicate Armed(w: World, routes: nat, p: Params) {
    w.inst.fixedCost > 0.0 && p.dissolvePct > 0 && routes >= 2
  }

  predicate Dissolves(w: World, routes: nat, p: Params, draw: nat) {
    Armed(w, routes, p) && draw % 100 < p.dissolvePct
  }

  /** One attempt with the draws that set its size and decide on dissolving. */
  ghost predicate KickTry(w: World, nb: NeighbourLists, tours: seq<Tour>, p: Params, draws: nat -> nat, at: nat,
                          ok: bool, removed: seq<int>, after: seq<Tour>, newRoutes: int, at': nat)
    requires Sound(nb, w.inst.n)
  {
    Attempts(w, nb, tours, KickTarget(w.inst.n, p, draws(at)), Dissolves(w, |tours|, p, draws(at + 1)), draws,
             if Armed(w, |tours|, p) then at + 2 else at + 1, ok, removed, after, newRoutes, at')
  }

  /** The whole kick from the k-th attempt on: attempts from the entry routes until one works out or the
      redraws are used up. */
  ghost predicate Kicks(w: World, nb: NeighbourLists, tours: seq<Tour>, p: Params, draws: nat -> nat, k: nat, at: nat,
                        outcome: Outcome, removed: seq<int>, after: seq<Tour>, at': nat)
    requires Sound(nb, w.inst.n)
    decreases p.maxRedraws + 1 - k
  {
    if k > p.maxRedraws then outcome == Outcome(false, 0, k, 0, false) && after == tours && at' == at
    else
      exists ok, drawn, state, newRoutes, at2 ::
        && KickTry(w, nb, tours, p, draws, at, ok, drawn, state, newRoutes, at2)
        && if ok then outcome == Outcome(true, |drawn|, k, newRoutes, Dissolves(w, |tours|, p, draws(at + 1))) && removed == drawn && after == state && at' == at2
           else Kicks(w, nb, tours, p, draws, k + 1, at2, outcome, removed, after, at')
  }

  lemma KickOn(w: World, nb: NeighbourLists, tours: seq<Tour>, p: Params, draws: nat -> nat, k: nat, at: nat,
               drawn: seq<int>, state: seq<Tour>, newRoutes: int, at2: nat)
    requires Sound(nb, w.inst.n) && k <= p.maxRedraws
    requires KickTry(w, nb, tours, p, draws, at, false, drawn, state, newRoutes, at2)
    ensures forall outcome, removed, after, at' :: Kicks(w, nb, tours, p, draws, k + 1, at2, outcome, removed, after, at') ==>
              Kicks(w, nb, tours, p, draws, k, at, outcome, removed, after, at')
  {
    hide KickTry, Sound;
  }

  lemma KickEnds(w: World, nb: NeighbourLists, tours: seq<Tour>, p: Params, draws: nat -> nat, k: nat, at: nat,
                 drawn: seq<int>, state: seq<Tour>, newRoutes: int, at2: nat)
    requires Sound(nb, w.inst.n) && k <= p.maxRedraws
    requires KickTry(w, nb, tours, p, draws, at, true, drawn, state, newRoutes, at2)
    ensures Kicks(w, nb, tours, p, draws, k, at, Outcome(true, |drawn|, k, newRoutes, Dissolves(w, |tours|, p, draws(at + 1))), drawn, state, at2)
  {
    hide KickTry, Sound;
  }

  /** How many clients an applied kick removed. */
  ghost predicate KickSize(w: World, routes: nat, p: Params, outcome: Outcome) {
    && (0 <= p.minRemovals <= p.maxRemovals ==>
          && outcome.removed >= (if w.inst.n <= p.minRemovals then w.inst.n else p.minRemovals)
          && (!outcome.dissolved ==> outcome.removed <= (if w.inst.n <= p.maxRemovals then w.inst.n else p.maxRemovals)))
    && (outcome.dissolved ==> w.inst.fixedCost > 0.0 && p.dissolvePct > 0 && routes >= 2)
    && (w.inst.fixedCost > 0.0 && routes >= 2 && p.dissolvePct >= 100 ==> outcome.dissolved)
  }

  /** One attempt with its draws. */
  method OneKick(w: World, nb: NeighbourLists, ss: SearchState, o: Oracle, p: Params)
    returns (ok: bool, removed: seq<int>, newRoutes: int, dissolve: bool, ghost src: seq<int>)
    requires Sound(nb, w.inst.n) && Feasible(w, ss.tours) && FleetOk(w, |ss.tours|) && w.inst.n > 0 && |ss.tours| > 0
    modifies ss`tours, o`drawn
    ensures ClientsOnly(w.inst.n, removed) && dissolve == Dissolves(w, old(|ss.tours|), p, o.draws(old(o.drawn) + 1))
    ensures KickTry(w, nb, old(ss.tours), p, o.draws, old(o.drawn), ok, removed, ss.tours, newRoutes, o.drawn)
    ensures ok ==> Kicked(w, old(ss.tours), removed, ss.tours, src) && |ss.tours| <= old(|ss.tours|) + newRoutes
    ensures forall k :: ok ==> KickSize(w, old(|ss.tours|), p, Outcome(true, |removed|, k, newRoutes, dissolve))
  {
    hide Sound, Kicked, ClientsOnly, Attempts, Feasible;
    var span := p.maxRemovals - p.minRemovals + 1;
    var step := o.Draw(if span > 0 then span else 1);
    var target := if w.inst.n <= p.minRemovals + step then w.inst.n else p.minRemovals + step;
    dissolve := false;
    if w.inst.fixedCost > 0.0 && p.dissolvePct > 0 && |ss.tours| >= 2 {
      var percent := o.Draw(100);
      dissolve := percent < p.dissolvePct;
    }
    ok, removed, newRoutes, src := Attempt(w, nb, ss, o, target, dissolve);
  }

  /** perturb as one step of the state: the kicks decide the routes and the draws, an applied one opens an
      epoch and stamps around the removed clients. */
  ghost predicate PerturbsTo(w: World, nb: NeighbourLists, p: Params, draws: nat -> nat, s: State, at: nat, outcome: Outcome, removed: seq<int>, s': State, at': nat)
    requires Sound(nb, w.inst.n)
  {
    if w.inst.n == 0 || |s.tours| == 0 then outcome == Outcome(false, 0, 0, 0, false) && s' == s && at' == at
    else
      && Kicks(w, nb, s.tours, p, draws, 0, at, outcome, removed, s'.tours, at')
      && if outcome.applied then
           s'.tested == s.tested && s'.epoch == s.epoch + 1 && KickStamped(Routes(s.tours), Routes(s'.tours), removed, s.touched, s'.touched, s'.epoch)
         else s' == s
  }

  /** perturb: a feasible neighbour of the entry state with every changed route's clients touched, or,
      when every redraw fails, the entry state itself. The draws determine everything. */
  method Perturb(w: World, nb: NeighbourLists, ss: SearchState, o: Oracle, params: Params) returns (outcome: Outcome, ghost src: seq<int>, ghost removed: seq<int>)
    requires Sound(nb, w.inst.n) && StateOk(w, ss.View()) && FleetOk(w, |ss.tours|)
    modifies ss, o`drawn
    ensures StateOk(w, ss.View()) && FleetOk(w, |ss.tours|)
    ensures PerturbsTo(w, nb, params, o.draws, old(ss.View()), old(o.drawn), outcome, removed, ss.View(), o.drawn)
    ensures !outcome.applied ==> ss.View() == old(ss.View())
    ensures outcome.applied ==> KickSize(w, old(|ss.tours|), params, outcome) && ss.tested == old(ss.tested)
    ensures outcome.applied ==> Carries(w.inst.n, old(ss.View()), ss.View(), src)
    ensures outcome.applied ==> ss.epoch == old(ss.epoch) + 1 && |ss.tours| <= old(|ss.tours|) + outcome.newRoutes
    ensures outcome.applied ==> ClientsOnly(w.inst.n, removed) && |removed| == outcome.removed
                                && KickStamped(old(Routes(ss.tours)), Routes(ss.tours), removed, old(ss.touched), ss.touched, ss.epoch)
    ensures w.inst.n > 0 && old(|ss.tours|) > 0 && params.maxRedraws >= 0 ==>
              if outcome.applied then outcome.redraws <= params.maxRedraws else outcome.redraws == params.maxRedraws + 1
  {
    hide Sound, Kicked, Carries, KickStamped, ClientsOnly, Within, Served, AllClients, Kicks, KickTry, KickSize, Dissolves, Armed, KickTarget;
    outcome, src, removed := Outcome(false, 0, 0, 0, false), [], [];
    ghost var s, at0 := ss.View(), o.drawn;
    var n := w.inst.n;
    if n == 0 || |ss.tours| == 0 { return; }
    var snapshot := Routes(ss.tours);
    var gone: seq<int> := [];
    var k := 0;
    while k <= params.maxRedraws && !outcome.applied
      invariant k >= 0 && (!outcome.applied ==> ss.View() == s && outcome == Outcome(false, 0, k, 0, false))
      invariant outcome.applied ==>
                  && ss.View() == s.(tours := ss.tours) && Kicked(w, s.tours, gone, ss.tours, src)
                  && ClientsOnly(n, gone) && |gone| == outcome.removed && |ss.tours| <= |s.tours| + outcome.newRoutes
                  && KickSize(w, |s.tours|, params, outcome) && outcome.redraws + 1 == k
                  && Kicks(w, nb, s.tours, params, o.draws, 0, at0, outcome, gone, ss.tours, o.drawn)
      invariant !outcome.applied ==>
                  forall out, list, after, at' :: Kicks(w, nb, s.tours, params, o.draws, k, o.drawn, out, list, after, at') ==>
                    Kicks(w, nb, s.tours, params, o.draws, 0, at0, out, list, after, at')
      invariant params.maxRedraws >= 0 ==> k <= params.maxRedraws + 1
      decreases params.maxRedraws - k, !outcome.applied
    {
      ghost var at := o.drawn;
      var ok, newRoutes, dissolve;
      ok, gone, newRoutes, dissolve, src := OneKick(w, nb, ss, o, params);
      if ok {
        KickEnds(w, nb, s.tours, params, o.draws, k, at, gone, ss.tours, newRoutes, o.drawn);
        outcome := Outcome(true, |gone|, outcome.redraws, newRoutes, dissolve);
      } else {
        KickOn(w, nb, s.tours, params, o.draws, k, at, gone, ss.tours, newRoutes, o.drawn);
        outcome := outcome.(redraws := outcome.redraws + 1);
        RestoreStates(w, ss, snapshot);
        RestoredIsOld(w, s.tours, ss.tours);
      }
      k := k + 1;
    }
    removed := gone;
    if !outcome.applied {
      GivesUp(w, nb, s.tours, params, o.draws, k, o.drawn, removed);
      return;
    }
    KickedIsFeasible(w, s.tours, gone, ss.tours, src);
    RoutesWithin(w, s.tours);
    RoutesWithin(w, ss.tours);
    StampKick(n, ss, snapshot, Routes(ss.tours), gone);
    KickCarries(w, s, ss.View(), gone, src);
  }

  lemma GivesUp(w: World, nb: NeighbourLists, tours: seq<Tour>, p: Params, draws: nat -> nat, k: nat, at: nat, removed: seq<int>)
    requires Sound(nb, w.inst.n) && k > p.maxRedraws
    ensures Kicks(w, nb, tours, p, draws, k, at, Outcome(false, 0, k, 0, false), removed, tours, at)
  {
  }

  lemma KickedIsFeasible(w: World, before: seq<Tour>, removed: seq<int>, tours: seq<Tour>, src: seq<int>)
    requires Kicked(w, before, removed, tours, src)
    ensures Feasible(w, tours) && FleetOk(w, |tours|)
  {
  }

  /** Soundness across a kick: whatever was certified stays certified. */
  lemma KickCertifies(w: World, cert: NeighbourLists, nb: NeighbourLists, s: State, s': State, src: seq<int>)
    requires Ready(w, cert, nb, s) && StateOk(w, s') && Carries(w.inst.n, s, s', src)
    ensures Ready(w, cert, nb, s')
  {
    hide Certified, Carries, StateOk;
    CarriesCertified(w, cert, s, s', src);
    CarriesCertified(w, nb, s, s', src);
  }
}
