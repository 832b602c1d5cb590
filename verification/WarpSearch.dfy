/** The penalised search state (cpp/ls/squeeze.cpp): warp tours and the client index that every
    relocate, swap and swap-erase has to keep exact. */
module WarpSearches {
  import opened Common
  import opened Instances
  import opened SearchStates
  import opened Staleness
  import opened Repairs

  /** What the augmented fold says of a route: its least warp, and its duration where it is warp-free. */
  datatype WarpPrice = WarpPrice(minWarp: real, zero: Option<real>)

  /** build is None on a hard horizon wall; cost(r, P) is warp_state_cost; splice ranks an edit at a
      weight, None when it hits a wall. */
  datatype WarpPricing = WarpPricing(
    build: seq<int> -> Option<WarpPrice>,
    cost: (seq<int>, real) -> real,
    splice: (seq<int>, int, int, seq<int>, int, int, real) -> Option<real>)

  datatype WarpWorld = WarpWorld(w: World, warp: WarpPricing)

  /** The penalised fold refines the base fold: warp-free exactly when feasible, with its duration. */
  ghost predicate Consistent(ww: WarpWorld) {
    forall r :: ww.w.inst.Route(r) ==>
      && (ww.w.price.fold(r).Some? <==> ww.warp.build(r).Some? && ww.warp.build(r).value.minWarp == 0.0)
      && (ww.w.price.fold(r).Some? ==> ww.warp.build(r).value.zero == ww.w.price.fold(r))
  }

  datatype WarpTour = WarpTour(vertices: seq<int>, duration: real, minWarp: real, load: int)

  /** build_warp_route_state. */
  function BuildWarpTour(ww: WarpWorld, r: seq<int>, penalty: real): Option<WarpTour> {
    var b := ww.warp.build(r);
    if b.None? then None
    else Some(WarpTour(r, if b.value.zero.Some? then b.value.zero.value else ww.warp.cost(r, penalty), b.value.minWarp, Load(ww.w.inst, r)))
  }

  ghost predicate WarpTourOk(ww: WarpWorld, t: WarpTour) {
    && |t.vertices| > 0 && ww.w.inst.Route(t.vertices)
    && (t.minWarp == 0.0 <==> ww.w.price.fold(t.vertices).Some?)
    && (t.minWarp == 0.0 ==> ww.w.price.fold(t.vertices) == Some(t.duration))
    && t.load == Load(ww.w.inst, t.vertices) && t.load <= ww.w.inst.capacity
  }

  lemma BuiltIsOk(ww: WarpWorld, r: seq<int>, penalty: real)
    requires Consistent(ww) && ww.w.inst.Route(r) && |r| > 0 && Load(ww.w.inst, r) <= ww.w.inst.capacity
    requires BuildWarpTour(ww, r, penalty).Some?
    ensures WarpTourOk(ww, BuildWarpTour(ww, r, penalty).value) && BuildWarpTour(ww, r, penalty).value.vertices == r
  {
  }

  // ---------- the exact index ----------

  /** route_of and pos_of name the one place of every placed client, and nothing else. */
  ghost predicate Exact(n: nat, lists: seq<seq<int>>, routeOf: seq<int>, posOf: seq<int>) {
    && |routeOf| == |posOf| == n + 1
    && (forall r, p :: 0 <= r < |lists| && 0 <= p < |lists[r]| ==>
          1 <= lists[r][p] <= n && routeOf[lists[r][p]] == r && posOf[lists[r][p]] == p)
    && (forall v :: 0 <= v <= n && routeOf[v] >= 0 ==> Sits(lists, v, routeOf[v], posOf[v]))
  }

  ghost predicate Sits(lists: seq<seq<int>>, v: int, r: int, p: int) {
    0 <= r < |lists| && 0 <= p < |lists[r]| && lists[r][p] == v
  }

  ghost predicate Distinct(s: seq<int>) {
    forall i, j :: 0 <= i < j < |s| ==> s[i] != s[j]
  }

  ghost predicate Apart(a: seq<int>, b: seq<int>) {
    forall i, j :: 0 <= i < |a| && 0 <= j < |b| ==> a[i] != b[j]
  }

  /** The index says that list s sits at r. */
  ghost predicate IndexedAt(s: seq<int>, r: int, routeOf: seq<int>, posOf: seq<int>)
    requires |routeOf| == |posOf|
  {
    forall p :: 0 <= p < |s| ==> 0 <= s[p] < |routeOf| && routeOf[s[p]] == r && posOf[s[p]] == p
  }

  /** Only entries of clients in s may differ. */
  ghost predicate OthersKept(s: seq<int>, before: seq<int>, after: seq<int>) {
    |before| == |after| && forall v :: 0 <= v < |before| && v !in s ==> after[v] == before[v]
  }

  lemma OnceEach(s: seq<int>, i: nat, j: nat)
    requires i < j < |s| && multiset(s)[s[i]] <= 1
    ensures s[i] != s[j]
  {
    assert s == s[..j] + s[j..];
    assert s[..j][i] == s[i] && s[j..][0] == s[j];
    assert multiset(s[..j])[s[i]] >= 1 && multiset(s[j..])[s[j]] >= 1;
  }

  function Uses(a: seq<int>, b: seq<int>, v: int): nat {
    multiset(a)[v] + multiset(b)[v]
  }

  ghost predicate Once(a: seq<int>, b: seq<int>) {
    forall v :: Uses(a, b, v) <= 1
  }

  /** Two lists that use every client at most once are repetition-free and disjoint. */
  lemma OnceMeansDistinct(a: seq<int>, b: seq<int>)
    requires Once(a, b)
    ensures Distinct(a) && Distinct(b) && Apart(a, b)
  {
    forall i, j | 0 <= i < j < |a| ensures a[i] != a[j] {
      assert Uses(a, b, a[i]) <= 1;
      OnceEach(a, i, j);
    }
    forall i, j | 0 <= i < j < |b| ensures b[i] != b[j] {
      assert Uses(a, b, b[i]) <= 1;
      OnceEach(b, i, j);
    }
    forall i, j | 0 <= i < |a| && 0 <= j < |b| ensures a[i] != b[j] {
      assert Uses(a, b, a[i]) <= 1;
      assert multiset(a)[a[i]] >= 1 && multiset(b)[b[j]] >= 1;
    }
  }

  lemma DistinctCounts(s: seq<int>)
    requires Distinct(s)
    ensures forall v :: multiset(s)[v] <= 1
    decreases |s|
  {
    if |s| > 0 {
      var n := |s| - 1;
      DistinctCounts(s[..n]);
      assert s == s[..n] + [s[n]] && s[n] !in s[..n];
    }
  }

  /** In an exact index two different routes share nothing. */
  lemma ExactOnce(n: nat, lists: seq<seq<int>>, routeOf: seq<int>, posOf: seq<int>, r1: nat, r2: nat)
    requires Exact(n, lists, routeOf, posOf) && r1 < |lists| && r2 < |lists| && r1 != r2
    ensures Once(lists[r1], lists[r2])
  {
    DistinctCounts(lists[r1]);
    DistinctCounts(lists[r2]);
    forall v ensures Uses(lists[r1], lists[r2], v) <= 1 {
      if v in lists[r1] {
        var i :| 0 <= i < |lists[r1]| && lists[r1][i] == v;
        assert v !in lists[r2];
      }
    }
  }

  /** Re-indexing two routes whose clients were redistributed between them. */
  lemma PairKeepsExact(n: nat, lists: seq<seq<int>>, routeOf: seq<int>, posOf: seq<int>, r1: nat, l1: seq<int>, r2: nat, l2: seq<int>,
                       routeOf': seq<int>, posOf': seq<int>)
    requires Exact(n, lists, routeOf, posOf) && r1 < |lists| && r2 < |lists| && r1 != r2
    requires multiset(l1) + multiset(l2) == multiset(lists[r1]) + multiset(lists[r2])
    requires OthersKept(l1 + l2, routeOf, routeOf') && OthersKept(l1 + l2, posOf, posOf')
    requires IndexedAt(l1, r1, routeOf', posOf') && IndexedAt(l2, r2, routeOf', posOf')
    ensures Exact(n, lists[r1 := l1][r2 := l2], routeOf', posOf')
    ensures forall v :: 0 <= v <= n ==> (routeOf'[v] >= 0 <==> routeOf[v] >= 0)
  {
    var after := lists[r1 := l1][r2 := l2];
    PairMembers(lists[r1], lists[r2], l1, l2);
    assert forall r, p :: 0 <= r < |lists| && 0 <= p < |lists[r]| && r != r1 && r != r2 ==> lists[r][p] !in l1 + l2;
    forall r, p | 0 <= r < |after| && 0 <= p < |after[r]|
      ensures 1 <= after[r][p] <= n && routeOf'[after[r][p]] == r && posOf'[after[r][p]] == p
    {
      if r == r1 || r == r2 {
        assert after[r][p] in l1 + l2;
      } else {
        assert after[r][p] == lists[r][p];
      }
    }
    forall v | 0 <= v <= n ensures (routeOf'[v] >= 0 <==> routeOf[v] >= 0) && (routeOf'[v] >= 0 ==> Sits(after, v, routeOf'[v], posOf'[v])) {
      if v in l1 {
        var p :| 0 <= p < |l1| && l1[p] == v;
        assert after[r1][p] == v;
      } else if v in l2 {
        var p :| 0 <= p < |l2| && l2[p] == v;
        assert after[r2][p] == v;
      } else {
        assert v !in l1 + l2;
        if routeOf[v] >= 0 {
          assert Sits(lists, v, routeOf[v], posOf[v]);
          assert routeOf[v] != r1 && routeOf[v] != r2;
        }
      }
    }
  }

  lemma PairMembers(a: seq<int>, b: seq<int>, l1: seq<int>, l2: seq<int>)
    requires multiset(l1) + multiset(l2) == multiset(a) + multiset(b)
    ensures forall v :: v in l1 + l2 <==> v in a || v in b
  {
    forall v ensures v in l1 + l2 <==> v in a || v in b {
      assert v in l1 + l2 <==> v in multiset(l1) + multiset(l2);
      assert v in a || v in b <==> v in multiset(a) + multiset(b);
    }
  }

  function SwapErase<T>(s: seq<T>, r: nat): seq<T>
    requires r < |s|
  {
    var last := |s| - 1;
    if r == last then s[..last] else s[r := s[last]][..last]
  }

  /** Moving the last route into the hole of an emptied one. */
  lemma EraseKeepsExact(n: nat, lists: seq<seq<int>>, r: nat, routeOf: seq<int>, posOf: seq<int>, routeOf': seq<int>, posOf': seq<int>)
    requires Exact(n, lists, routeOf, posOf) && r < |lists| && lists[r] == []
    requires r == |lists| - 1 ==> routeOf' == routeOf && posOf' == posOf
    requires var moved := lists[|lists| - 1];
             r != |lists| - 1 ==> OthersKept(moved, routeOf, routeOf') && OthersKept(moved, posOf, posOf') && IndexedAt(moved, r, routeOf', posOf')
    ensures Exact(n, SwapErase(lists, r), routeOf', posOf')
    ensures forall v :: 0 <= v <= n ==> (routeOf'[v] >= 0 <==> routeOf[v] >= 0)
  {
    var last := |lists| - 1;
    var after := SwapErase(lists, r);
    if r != last {
      assert forall q, p :: 0 <= q < last && 0 <= p < |lists[q]| ==> lists[q][p] !in lists[last];
      forall v | 0 <= v <= n ensures (routeOf'[v] >= 0 <==> routeOf[v] >= 0) && (routeOf'[v] >= 0 ==> Sits(after, v, routeOf'[v], posOf'[v])) {
        if v in lists[last] {
          var p :| 0 <= p < |lists[last]| && lists[last][p] == v;
          assert after[r][p] == v;
        } else if routeOf[v] >= 0 {
          assert Sits(lists, v, routeOf[v], posOf[v]);
        }
      }
    } else {
      forall v | 0 <= v <= n && routeOf[v] >= 0 ensures Sits(after, v, routeOf[v], posOf[v]) {
        assert Sits(lists, v, routeOf[v], posOf[v]);
      }
    }
  }

  // ---------- the state ----------

  function Lists(states: seq<WarpTour>): seq<seq<int>> {
    seq(|states|, k requires 0 <= k < |states| => states[k].vertices)
  }

  class WarpSearch {
    var states: seq<WarpTour>
    var routeOf: seq<int>
    var posOf: seq<int>
    var routeEpoch: seq<int>
    var clientStamp: seq<int>
    var epoch: int

    constructor ()
      ensures states == []
    {
      states, routeOf, posOf, routeEpoch, clientStamp, epoch := [], [], [], [], [], 1;
    }
  }

  ghost predicate AllOk(ww: WarpWorld, states: seq<WarpTour>) {
    forall k :: 0 <= k < |states| ==> WarpTourOk(ww, states[k])
  }

  /** The invariant: exact index, correct tours, one epoch per route, one stamp per vertex. */
  ghost predicate Indexed(ww: WarpWorld, ws: WarpSearch)
    reads ws
  {
    && Exact(ww.w.inst.n, Lists(ws.states), ws.routeOf, ws.posOf) && AllOk(ww, ws.states)
    && |ws.routeEpoch| == |ws.states| && |ws.clientStamp| == ww.w.inst.n + 1
  }

  /** The same clients are placed. */
  ghost predicate SamePlaced(before: seq<int>, after: seq<int>) {
    |before| == |after| && forall v :: 0 <= v < |before| ==> (after[v] >= 0 <==> before[v] >= 0)
  }

  /** index_route. */
  method IndexRoute(ws: WarpSearch, r: nat)
    requires r < |ws.states| && |ws.routeOf| == |ws.posOf| && Distinct(ws.states[r].vertices)
    requires forall p :: 0 <= p < |ws.states[r].vertices| ==> 0 <= ws.states[r].vertices[p] < |ws.routeOf|
    modifies ws`routeOf, ws`posOf
    ensures |ws.routeOf| == |ws.posOf| == old(|ws.routeOf|)
    ensures OthersKept(ws.states[r].vertices, old(ws.routeOf), ws.routeOf) && OthersKept(ws.states[r].vertices, old(ws.posOf), ws.posOf)
    ensures IndexedAt(ws.states[r].vertices, r, ws.routeOf, ws.posOf)
  {
    var vs := ws.states[r].vertices;
    for p := 0 to |vs|
      invariant |ws.routeOf| == |ws.posOf| == |old(ws.routeOf)|
      invariant forall q :: 0 <= q < p ==> ws.routeOf[vs[q]] == r && ws.posOf[vs[q]] == q
      invariant forall v :: 0 <= v < |ws.routeOf| && v !in vs ==> ws.routeOf[v] == old(ws.routeOf)[v] && ws.posOf[v] == old(ws.posOf)[v]
    {
      ws.routeOf := ws.routeOf[vs[p] := r];
      ws.posOf := ws.posOf[vs[p] := p];
    }
  }

  /** set_route: rebuild a route, or swap-erase it when it empties; false on a hard wall. */
  method SetRoute(ww: WarpWorld, ws: WarpSearch, r: nat, vertices: seq<int>, penalty: real) returns (ok: bool)
    requires r < |ws.states| && |ws.routeOf| == |ws.posOf| && |ws.routeEpoch| == |ws.states|
    requires var target := if |vertices| == 0 then ws.states[|ws.states| - 1].vertices else vertices;
             Distinct(target) && forall p :: 0 <= p < |target| ==> 0 <= target[p] < |ws.routeOf|
    modifies ws`states, ws`routeOf, ws`posOf, ws`routeEpoch
    ensures |ws.routeOf| == |ws.posOf| == old(|ws.routeOf|)
    ensures |vertices| == 0 ==> ok && ws.states == SwapErase(old(ws.states), r) && ws.routeEpoch == SwapErase(old(ws.routeEpoch), r)
    ensures |vertices| == 0 && r == old(|ws.states|) - 1 ==> ws.routeOf == old(ws.routeOf) && ws.posOf == old(ws.posOf)
    ensures var moved := old(ws.states)[old(|ws.states|) - 1].vertices;
            |vertices| == 0 && r != old(|ws.states|) - 1 ==>
              OthersKept(moved, old(ws.routeOf), ws.routeOf) && OthersKept(moved, old(ws.posOf), ws.posOf) && IndexedAt(moved, r, ws.routeOf, ws.posOf)
    ensures |vertices| > 0 ==> ws.routeEpoch == old(ws.routeEpoch)
    ensures |vertices| > 0 ==> ok == BuildWarpTour(ww, vertices, penalty).Some?
    ensures |vertices| > 0 && !ok ==> ws.states == old(ws.states) && ws.routeOf == old(ws.routeOf) && ws.posOf == old(ws.posOf)
    ensures |vertices| > 0 && ok ==>
              && ws.states == old(ws.states)[r := BuildWarpTour(ww, vertices, penalty).value]
              && OthersKept(vertices, old(ws.routeOf), ws.routeOf) && OthersKept(vertices, old(ws.posOf), ws.posOf)
              && IndexedAt(vertices, r, ws.routeOf, ws.posOf)
  {
    hide Load, OthersKept, IndexedAt, Distinct;
    if |vertices| == 0 {
      var last := |ws.states| - 1;
      if r != last {
        ws.states := ws.states[r := ws.states[last]];
        ws.routeEpoch := ws.routeEpoch[r := ws.routeEpoch[last]];
        IndexRoute(ws, r);
      }
      ws.states := ws.states[..last];
      ws.routeEpoch := ws.routeEpoch[..last];
      return true;
    }
    var st := BuildWarpTour(ww, vertices, penalty);
    if st.None? { return false; }
    ws.states := ws.states[r := st.value];
    IndexRoute(ws, r);
    return true;
  }

  lemma ListDistinct(n: nat, lists: seq<seq<int>>, routeOf: seq<int>, posOf: seq<int>, r: nat)
    requires Exact(n, lists, routeOf, posOf) && r < |lists|
    ensures Distinct(lists[r]) && Clients(n, lists[r])
  {
  }

  /** What committing a pair keeps. */
  ghost predicate PairBalanced(states: seq<WarpTour>, r1: nat, l1: seq<int>, r2: nat, l2: seq<int>)
    requires r1 < |states| && r2 < |states|
  {
    r1 != r2 && multiset(l1) + multiset(l2) == multiset(states[r1].vertices) + multiset(states[r2].vertices)
  }

  lemma OncePreserved(a: seq<int>, b: seq<int>, l1: seq<int>, l2: seq<int>)
    requires Once(a, b) && multiset(l1) + multiset(l2) == multiset(a) + multiset(b)
    ensures Once(l1, l2)
  {
    forall v ensures Uses(l1, l2, v) <= 1 {
      assert Uses(a, b, v) <= 1;
      assert (multiset(l1) + multiset(l2))[v] == (multiset(a) + multiset(b))[v];
    }
  }

  lemma BalancedDistinct(n: nat, states: seq<WarpTour>, routeOf: seq<int>, posOf: seq<int>, r1: nat, l1: seq<int>, r2: nat, l2: seq<int>)
    requires Exact(n, Lists(states), routeOf, posOf) && r1 < |states| && r2 < |states| && PairBalanced(states, r1, l1, r2, l2)
    ensures Distinct(l1) && Distinct(l2) && Apart(l1, l2)
    ensures Clients(n, l1) && Clients(n, l2) && |routeOf| == |posOf| == n + 1
  {
    ExactOnce(n, Lists(states), routeOf, posOf, r1, r2);
    OncePreserved(Lists(states)[r1], Lists(states)[r2], l1, l2);
    OnceMeansDistinct(l1, l2);
    PairMembers(Lists(states)[r1], Lists(states)[r2], l1, l2);
    forall v | v in l1 || v in l2 ensures 1 <= v <= n {
      assert v in l1 + l2;
      assert v in Lists(states)[r1] || v in Lists(states)[r2];
    }
    forall p | 0 <= p < |l1| ensures 1 <= l1[p] <= n { assert l1[p] in l1; }
    forall p | 0 <= p < |l2| ensures 1 <= l2[p] <= n { assert l2[p] in l2; }
  }

  ghost predicate Clients(n: nat, s: seq<int>) {
    forall p :: 0 <= p < |s| ==> 1 <= s[p] <= n
  }

  /** Both routes replaced, first one then the other, each re-indexed. */
  method ReplacePair(ww: WarpWorld, ws: WarpSearch, first: nat, t1: WarpTour, second: nat, t2: WarpTour)
    requires Indexed(ww, ws) && first < |ws.states| && second < |ws.states|
    requires PairBalanced(ws.states, first, t1.vertices, second, t2.vertices) && WarpTourOk(ww, t1) && WarpTourOk(ww, t2)
    modifies ws`states, ws`routeOf, ws`posOf
    ensures Indexed(ww, ws) && SamePlaced(old(ws.routeOf), ws.routeOf)
    ensures ws.states == old(ws.states)[first := t1][second := t2]
  {
    hide WarpTourOk, Exact, OthersKept, IndexedAt, PairBalanced, SamePlaced, Distinct, Apart;
    var n := ww.w.inst.n;
    ghost var states, routeOf, posOf := ws.states, ws.routeOf, ws.posOf;
    BalancedDistinct(n, states, routeOf, posOf, first, t1.vertices, second, t2.vertices);
    ws.states := ws.states[first := t1];
    IndexRoute(ws, first);
    ghost var midRoute, midPos := ws.routeOf, ws.posOf;
    ws.states := ws.states[second := t2];
    IndexRoute(ws, second);
    TwoIndexed(t1.vertices, first, t2.vertices, routeOf, midRoute, ws.routeOf, posOf, midPos, ws.posOf);
    ReplacedIsExact(n, states, routeOf, posOf, first, t1, second, t2, ws.routeOf, ws.posOf);
  }

  lemma ReplacedIsExact(n: nat, states: seq<WarpTour>, routeOf: seq<int>, posOf: seq<int>, r1: nat, t1: WarpTour, r2: nat, t2: WarpTour,
                        routeOf': seq<int>, posOf': seq<int>)
    requires Exact(n, Lists(states), routeOf, posOf) && r1 < |states| && r2 < |states| && PairBalanced(states, r1, t1.vertices, r2, t2.vertices)
    requires |routeOf'| == |posOf'|
    requires OthersKept(t1.vertices + t2.vertices, routeOf, routeOf') && OthersKept(t1.vertices + t2.vertices, posOf, posOf')
    requires IndexedAt(t1.vertices, r1, routeOf', posOf') && IndexedAt(t2.vertices, r2, routeOf', posOf')
    ensures Exact(n, Lists(states[r1 := t1][r2 := t2]), routeOf', posOf') && SamePlaced(routeOf, routeOf')
  {
    PairKeepsExact(n, Lists(states), routeOf, posOf, r1, t1.vertices, r2, t2.vertices, routeOf', posOf');
    assert Lists(states[r1 := t1][r2 := t2]) == Lists(states)[r1 := t1.vertices][r2 := t2.vertices];
  }

  /** Indexing a disjoint list does not disturb the one indexed before. */
  lemma TwoIndexed(l1: seq<int>, r1: nat, l2: seq<int>, a: seq<int>, b: seq<int>, c: seq<int>, x: seq<int>, y: seq<int>, z: seq<int>)
    requires Apart(l1, l2) && |b| == |y| && OthersKept(l1, a, b) && OthersKept(l2, b, c) && OthersKept(l1, x, y) && OthersKept(l2, y, z)
    requires IndexedAt(l1, r1, b, y)
    ensures OthersKept(l1 + l2, a, c) && OthersKept(l1 + l2, x, z) && |c| == |z| && IndexedAt(l1, r1, c, z)
  {
    forall p | 0 <= p < |l1| ensures l1[p] !in l2 { }
    assert forall v :: v !in l1 + l2 ==> v !in l1 && v !in l2;
  }

  /** Commit a relocate: the receiver is replaced, then the donor is replaced, or erased if empty. */
  method CommitRelocate(ww: WarpWorld, ws: WarpSearch, r1: nat, t1: Option<WarpTour>, r2: nat, t2: WarpTour, penalty: real)
    requires Indexed(ww, ws) && r1 < |ws.states| && r2 < |ws.states| && WarpTourOk(ww, t2)
    requires t1.Some? ==> WarpTourOk(ww, t1.value)
    requires PairBalanced(ws.states, r1, if t1.Some? then t1.value.vertices else [], r2, t2.vertices)
    modifies ws
    ensures Indexed(ww, ws) && SamePlaced(old(ws.routeOf), ws.routeOf)
    ensures ws.states == if t1.Some? then old(ws.states)[r2 := t2][r1 := t1.value] else SwapErase(old(ws.states)[r2 := t2], r1)
    ensures ws.epoch == old(ws.epoch) + 1 && ws.clientStamp == old(ws.clientStamp) && |old(ws.routeEpoch)| == |old(ws.states)|
    ensures ws.routeEpoch == if t1.Some? then old(ws.routeEpoch)[r2 := ws.epoch][r1 := ws.epoch] else SwapErase(old(ws.routeEpoch)[r2 := ws.epoch], r1)
  {
    hide WarpTourOk;
    if t1.Some? {
      assert multiset(t2.vertices) + multiset(t1.value.vertices) == multiset(t1.value.vertices) + multiset(t2.vertices);
      ReplacePair(ww, ws, r2, t2, r1, t1.value);
      ws.epoch := ws.epoch + 1;
      ws.routeEpoch := ws.routeEpoch[r2 := ws.epoch][r1 := ws.epoch];
    } else {
      EmptyDonor(ww, ws, r1, r2, t2, penalty);
    }
  }

  /** The donor lost its only client: the receiver is replaced and the donor swap-erased. */
  method EmptyDonor(ww: WarpWorld, ws: WarpSearch, r1: nat, r2: nat, t2: WarpTour, penalty: real)
    requires Indexed(ww, ws) && r1 < |ws.states| && r2 < |ws.states| && WarpTourOk(ww, t2)
    requires PairBalanced(ws.states, r1, [], r2, t2.vertices)
    modifies ws
    ensures Indexed(ww, ws) && SamePlaced(old(ws.routeOf), ws.routeOf)
    ensures ws.states == SwapErase(old(ws.states)[r2 := t2], r1)
    ensures ws.epoch == old(ws.epoch) + 1 && ws.clientStamp == old(ws.clientStamp) && |old(ws.routeEpoch)| == |old(ws.states)|
    ensures ws.routeEpoch == SwapErase(old(ws.routeEpoch)[r2 := ws.epoch], r1)
  {
    hide WarpTourOk, Exact, OthersKept, IndexedAt, PairBalanced, SamePlaced, Distinct, Apart;
    var n := ww.w.inst.n;
    ghost var states, routeOf, posOf := ws.states, ws.routeOf, ws.posOf;
    BalancedDistinct(n, states, routeOf, posOf, r1, [], r2, t2.vertices);
    ws.states := ws.states[r2 := t2];
    IndexRoute(ws, r2);
    ws.epoch := ws.epoch + 1;
    ws.routeEpoch := ws.routeEpoch[r2 := ws.epoch];
    ghost var midRoute, midPos, mid := ws.routeOf, ws.posOf, ws.states;
    HollowIsExact(n, states, routeOf, posOf, r1, r2, t2, midRoute, midPos);
    var ok := SetRoute(ww, ws, r1, [], penalty);
    HoleIsClosed(n, mid, r1, midRoute, midPos, ws.routeOf, ws.posOf);
    PlacedTwice(routeOf, midRoute, ws.routeOf);
  }

  lemma PlacedTwice(a: seq<int>, b: seq<int>, c: seq<int>)
    requires SamePlaced(a, b) && SamePlaced(b, c)
    ensures SamePlaced(a, c)
  {
  }

  /** Between the two steps the index is exact for the lists with the donor seen as empty. */
  lemma HollowIsExact(n: nat, states: seq<WarpTour>, routeOf: seq<int>, posOf: seq<int>, r1: nat, r2: nat, t2: WarpTour,
                      routeOf': seq<int>, posOf': seq<int>)
    requires Exact(n, Lists(states), routeOf, posOf) && r1 < |states| && r2 < |states| && PairBalanced(states, r1, [], r2, t2.vertices)
    requires |routeOf'| == |posOf'|
    requires OthersKept(t2.vertices, routeOf, routeOf') && OthersKept(t2.vertices, posOf, posOf') && IndexedAt(t2.vertices, r2, routeOf', posOf')
    ensures var mid := states[r2 := t2];
            && Exact(n, Lists(mid)[r1 := []], routeOf', posOf') && SamePlaced(routeOf, routeOf') && |routeOf'| == n + 1
            && Distinct(mid[|mid| - 1].vertices) && Clients(n, mid[|mid| - 1].vertices)
  {
    hide Exact, OthersKept, Distinct, Clients;
    ExactSizes(n, Lists(states), routeOf, posOf);
    var mid := states[r2 := t2];
    assert [] + t2.vertices == t2.vertices;
    PairKeepsExact(n, Lists(states), routeOf, posOf, r1, [], r2, t2.vertices, routeOf', posOf');
    var hollow := Lists(mid)[r1 := []];
    assert hollow == Lists(states)[r1 := []][r2 := t2.vertices];
    var last := |mid| - 1;
    ExactSizes(n, hollow, routeOf', posOf');
    if r1 == last {
      ListDistinct(n, Lists(states), routeOf, posOf, last);
    } else {
      ListDistinct(n, hollow, routeOf', posOf', last);
    }
  }

  lemma HoleIsClosed(n: nat, mid: seq<WarpTour>, r: nat, routeOf: seq<int>, posOf: seq<int>, routeOf': seq<int>, posOf': seq<int>)
    requires r < |mid| && Exact(n, Lists(mid)[r := []], routeOf, posOf) && |routeOf'| == |posOf'|
    requires r == |mid| - 1 ==> routeOf' == routeOf && posOf' == posOf
    requires var moved := mid[|mid| - 1].vertices;
             r != |mid| - 1 ==> OthersKept(moved, routeOf, routeOf') && OthersKept(moved, posOf, posOf') && IndexedAt(moved, r, routeOf', posOf')
    ensures Exact(n, Lists(SwapErase(mid, r)), routeOf', posOf') && SamePlaced(routeOf, routeOf')
  {
    EraseKeepsExact(n, Lists(mid)[r := []], r, routeOf, posOf, routeOf', posOf');
    assert Lists(SwapErase(mid, r)) == SwapErase(Lists(mid)[r := []], r);
  }

  lemma ExactSizes(n: nat, lists: seq<seq<int>>, routeOf: seq<int>, posOf: seq<int>)
    requires Exact(n, lists, routeOf, posOf)
    ensures |routeOf| == |posOf| == n + 1
  {
  }

  /** Commit a swap. */
  method CommitSwap(ww: WarpWorld, ws: WarpSearch, r1: nat, t1: WarpTour, r2: nat, t2: WarpTour)
    requires Indexed(ww, ws) && r1 < |ws.states| && r2 < |ws.states| && WarpTourOk(ww, t1) && WarpTourOk(ww, t2)
    requires PairBalanced(ws.states, r1, t1.vertices, r2, t2.vertices)
    modifies ws
    ensures Indexed(ww, ws) && SamePlaced(old(ws.routeOf), ws.routeOf)
    ensures ws.states == old(ws.states)[r1 := t1][r2 := t2]
    ensures ws.epoch == old(ws.epoch) + 1 && ws.clientStamp == old(ws.clientStamp) && |old(ws.routeEpoch)| == |old(ws.states)|
    ensures ws.routeEpoch == old(ws.routeEpoch)[r1 := ws.epoch][r2 := ws.epoch]
  {
    hide WarpTourOk;
    ReplacePair(ww, ws, r1, t1, r2, t2);
    ws.epoch := ws.epoch + 1;
    ws.routeEpoch := ws.routeEpoch[r1 := ws.epoch][r2 := ws.epoch];
  }

  // ---------- building the state ----------

  function NonEmpty(routes: seq<seq<int>>): seq<seq<int>> {
    if |routes| == 0 then []
    else NonEmpty(routes[..|routes| - 1]) + (if |routes[|routes| - 1]| > 0 then [routes[|routes| - 1]] else [])
  }

  lemma {:induction false} AllNonEmpty(routes: seq<seq<int>>)
    requires forall k :: 0 <= k < |routes| ==> |routes[k]| > 0
    ensures NonEmpty(routes) == routes
    decreases |routes|
  {
    if |routes| > 0 { AllNonEmpty(routes[..|routes| - 1]); }
  }

  /** Lists of clients that share nothing. */
  ghost predicate Separate(n: nat, lists: seq<seq<int>>) {
    && (forall r :: 0 <= r < |lists| ==> Clients(n, lists[r]) && Distinct(lists[r]))
    && (forall q, r :: 0 <= q < r < |lists| ==> Apart(lists[q], lists[r]))
  }

  ghost predicate WithinCapacity(w: World, lists: seq<seq<int>>) {
    forall r :: 0 <= r < |lists| ==> Load(w.inst, lists[r]) <= w.inst.capacity
  }

  /** The first k lists are indexed, everyone else is unplaced. */
  ghost predicate PartlyExact(n: nat, lists: seq<seq<int>>, k: nat, routeOf: seq<int>, posOf: seq<int>)
    requires k <= |lists|
  {
    && |routeOf| == |posOf| == n + 1
    && (forall r :: 0 <= r < k ==> IndexedAt(lists[r], r, routeOf, posOf))
    && (forall v :: 0 <= v <= n && routeOf[v] >= 0 ==> routeOf[v] < k && Sits(lists, v, routeOf[v], posOf[v]))
  }

  lemma IndexNext(n: nat, lists: seq<seq<int>>, k: nat, a: seq<int>, x: seq<int>, b: seq<int>, y: seq<int>)
    requires k < |lists| && Separate(n, lists) && PartlyExact(n, lists, k, a, x)
    requires |b| == |y| && OthersKept(lists[k], a, b) && OthersKept(lists[k], x, y) && IndexedAt(lists[k], k, b, y)
    ensures PartlyExact(n, lists, k + 1, b, y)
  {
    forall r | 0 <= r < k ensures IndexedAt(lists[r], r, b, y) {
      assert Apart(lists[r], lists[k]);
      TwoIndexed(lists[r], r, lists[k], a, a, b, x, x, y);
    }
    forall v | 0 <= v <= n && b[v] >= 0 ensures b[v] < k + 1 && Sits(lists, v, b[v], y[v]) {
      if v in lists[k] {
        var p :| 0 <= p < |lists[k]| && lists[k][p] == v;
        assert b[lists[k][p]] == k;
      }
    }
  }

  lemma FullyExact(n: nat, lists: seq<seq<int>>, routeOf: seq<int>, posOf: seq<int>)
    requires Separate(n, lists) && PartlyExact(n, lists, |lists|, routeOf, posOf)
    ensures Exact(n, lists, routeOf, posOf)
  {
    forall r, p | 0 <= r < |lists| && 0 <= p < |lists[r]|
      ensures 1 <= lists[r][p] <= n && routeOf[lists[r][p]] == r && posOf[lists[r][p]] == p
    {
      assert Clients(n, lists[r]) && IndexedAt(lists[r], r, routeOf, posOf);
    }
  }

  /** The tours of the non-empty lists, in order. */
  ghost predicate AreBuilt(ww: WarpWorld, lists: seq<seq<int>>, penalty: real, states: seq<WarpTour>) {
    |states| == |lists| && forall k :: 0 <= k < |lists| ==> BuildWarpTour(ww, lists[k], penalty) == Some(states[k])
  }

  method BuildTours(ww: WarpWorld, routes: seq<seq<int>>, penalty: real) returns (built: Option<seq<WarpTour>>)
    requires Consistent(ww) && WithinCapacity(ww.w, NonEmpty(routes))
    requires forall k :: 0 <= k < |routes| ==> ww.w.inst.Route(routes[k])
    ensures built.Some? ==> AllOk(ww, built.value) && Lists(built.value) == NonEmpty(routes) && AreBuilt(ww, NonEmpty(routes), penalty, built.value)
    ensures built.None? ==> exists k :: 0 <= k < |routes| && |routes[k]| > 0 && ww.warp.build(routes[k]).None?
  {
    hide Consistent, Load, WarpTourOk;
    var states: seq<WarpTour> := [];
    assert routes[..0] == [];
    for k := 0 to |routes|
      invariant Lists(states) == NonEmpty(routes[..k]) && AllOk(ww, states) && AreBuilt(ww, NonEmpty(routes[..k]), penalty, states)
    {
      assert routes[..k + 1][..k] == routes[..k];
      assert NonEmpty(routes[..k + 1]) == NonEmpty(routes[..k]) + (if |routes[k]| > 0 then [routes[k]] else []);
      if |routes[k]| > 0 {
        var st := BuildWarpTour(ww, routes[k], penalty);
        if st.None? { return None; }
        NonEmptyHas(routes, k);
        BuiltIsOk(ww, routes[k], penalty);
        states := states + [st.value];
      }
    }
    assert routes[..|routes|] == routes;
    return Some(states);
  }

  lemma {:induction false} NonEmptyHas(routes: seq<seq<int>>, k: nat)
    requires k < |routes| && |routes[k]| > 0
    ensures exists r :: 0 <= r < |NonEmpty(routes)| && NonEmpty(routes)[r] == routes[k]
    decreases |routes|
  {
    var n := |routes| - 1;
    if k < n {
      NonEmptyHas(routes[..n], k);
      var r :| 0 <= r < |NonEmpty(routes[..n])| && NonEmpty(routes[..n])[r] == routes[k];
      assert NonEmpty(routes)[r] == routes[k];
    } else {
      assert NonEmpty(routes)[|NonEmpty(routes)| - 1] == routes[k];
    }
  }

  /** Every route is newer than every stamp. */
  ghost predicate Unstamped(ws: WarpSearch)
    reads ws
  {
    && ws.epoch == 1
    && (forall r :: 0 <= r < |ws.routeEpoch| ==> ws.routeEpoch[r] == 1)
    && (forall c :: 0 <= c < |ws.clientStamp| ==> ws.clientStamp[c] == 0)
  }

  /** init_warp_search: false only on a hard wall. */
  method InitWarpSearch(ww: WarpWorld, ws: WarpSearch, routes: seq<seq<int>>, penalty: real) returns (ok: bool)
    requires Consistent(ww) && Separate(ww.w.inst.n, NonEmpty(routes)) && WithinCapacity(ww.w, NonEmpty(routes))
    requires forall k :: 0 <= k < |routes| ==> ww.w.inst.Route(routes[k])
    modifies ws
    ensures ok ==> Indexed(ww, ws) && Lists(ws.states) == NonEmpty(routes) && Unstamped(ws) && AreBuilt(ww, NonEmpty(routes), penalty, ws.states)
    ensures !ok ==> exists k :: 0 <= k < |routes| && |routes[k]| > 0 && ww.warp.build(routes[k]).None?
  {
    hide Consistent, WithinCapacity, WarpTourOk, OthersKept, IndexedAt, Exact, AreBuilt;
    var n := ww.w.inst.n;
    ws.routeOf, ws.posOf, ws.clientStamp := seq(n + 1, _ => -1), seq(n + 1, _ => -1), seq(n + 1, _ => 0);
    ws.epoch := 1;
    var built := BuildTours(ww, routes, penalty);
    if built.None? { return false; }
    ws.states := built.value;
    ws.routeEpoch := seq(|ws.states|, _ => 1);
    ghost var lists := Lists(ws.states);
    for r := 0 to |ws.states|
      invariant ws.states == built.value && PartlyExact(n, lists, r, ws.routeOf, ws.posOf)
      invariant |ws.routeEpoch| == |ws.states| && |ws.clientStamp| == n + 1 && Unstamped(ws)
    {
      ghost var a, x := ws.routeOf, ws.posOf;
      assert Clients(n, lists[r]) && Distinct(lists[r]);
      IndexRoute(ws, r);
      IndexNext(n, lists, r, a, x, ws.routeOf, ws.posOf);
    }
    FullyExact(n, lists, ws.routeOf, ws.posOf);
    return true;
  }

  // ---------- routes and clients ----------

  ghost function PlacedSet(n: nat, routeOf: seq<int>): set<int>
    requires |routeOf| == n + 1
  {
    set v | 1 <= v <= n && routeOf[v] >= 0
  }

  /** An exact index counts every placed client once. */
  lemma {:induction false} ExactPrefix(n: nat, tours: seq<Tour>, routeOf: seq<int>, posOf: seq<int>, k: nat, v: int)
    requires Exact(n, Routes(tours), routeOf, posOf) && k <= |tours|
    ensures Served(tours[..k])[v] == if 1 <= v <= n && 0 <= routeOf[v] < k then 1 else 0
    decreases k
  {
    if k > 0 {
      ExactPrefix(n, tours, routeOf, posOf, k - 1, v);
      assert tours[..k][..k - 1] == tours[..k - 1];
      var r := tours[k - 1].vertices;
      assert Routes(tours)[k - 1] == r;
      ListDistinct(n, Routes(tours), routeOf, posOf, k - 1);
      DistinctCounts(r);
      if v in r {
        var p :| 0 <= p < |r| && r[p] == v;
        assert Routes(tours)[k - 1][p] == v;
        assert multiset(r)[v] == 1;
      } else if 1 <= v <= n && routeOf[v] >= 0 {
        assert Sits(Routes(tours), v, routeOf[v], posOf[v]);
      }
    }
  }

  lemma ExactServed(n: nat, tours: seq<Tour>, routeOf: seq<int>, posOf: seq<int>)
    requires Exact(n, Routes(tours), routeOf, posOf)
    ensures |routeOf| == n + 1 && Served(tours) == multiset(PlacedSet(n, routeOf))
  {
    forall v ensures Served(tours)[v] == multiset(PlacedSet(n, routeOf))[v] {
      ExactPrefix(n, tours, routeOf, posOf, |tours|, v);
      assert tours[..|tours|] == tours;
    }
  }

  /** Routes and pool hold everyone once, so the routes are separate. */
  lemma HoldsSeparate(w: World, tours: seq<Tour>, pool: multiset<int>)
    requires Holds(w, tours, pool)
    ensures Separate(w.inst.n, Routes(tours)) && WithinCapacity(w, Routes(tours)) && NonEmpty(Routes(tours)) == Routes(tours)
  {
    hide Load, Served, ToursOk, Distinct, Apart;
    var n := w.inst.n;
    TourFacts(w, tours);
    AllNonEmpty(Routes(tours));
    forall v ensures Served(tours)[v] <= 1 {
      assert (Served(tours) + pool)[v] == AllClients(n)[v];
    }
    forall r | 0 <= r < |tours| ensures Distinct(Routes(tours)[r]) { RouteServedOnce(tours, r, r); }
    forall q, r | 0 <= q < r < |tours| ensures Apart(Routes(tours)[q], Routes(tours)[r]) { RouteServedOnce(tours, q, r); }
  }

  lemma TourFacts(w: World, tours: seq<Tour>)
    requires ToursOk(w, tours)
    ensures forall k :: 0 <= k < |tours| ==>
              Clients(w.inst.n, Routes(tours)[k]) && |Routes(tours)[k]| > 0 && Load(w.inst, Routes(tours)[k]) <= w.inst.capacity
  {
    hide Load;
    forall k | 0 <= k < |tours|
      ensures Clients(w.inst.n, Routes(tours)[k]) && |Routes(tours)[k]| > 0 && Load(w.inst, Routes(tours)[k]) <= w.inst.capacity
    {
      assert TourOk(w, tours[k]);
      forall p | 0 <= p < |tours[k].vertices| ensures 1 <= tours[k].vertices[p] <= w.inst.n { assert w.inst.Customer(tours[k].vertices[p]); }
    }
  }

  lemma RouteServedOnce(tours: seq<Tour>, q: nat, r: nat)
    requires q < |tours| && r < |tours| && forall v :: Served(tours)[v] <= 1
    ensures Distinct(tours[r].vertices) && (q != r ==> Apart(tours[q].vertices, tours[r].vertices))
  {
    hide Served, Durations;
    EraseSums(tours, r);
    var rest, b := Erase(tours, r), tours[r].vertices;
    var a := if q == r then [] else tours[q].vertices;
    if q != r {
      var q' := if q < r then q else q - 1;
      assert rest[q'] == tours[q];
      EraseSums(rest, q');
    }
    forall v ensures Uses(a, b, v) <= 1 {
      assert (Served(rest) + multiset(b))[v] == Served(tours)[v] <= 1;
    }
    OnceMeansDistinct(a, b);
  }
}
