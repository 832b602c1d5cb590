/** Granular neighbour lists (cpp/ls/neighbours.h, cpp/ls/neighbours.cpp). The staleness rule of the
    local search rests on two facts proved here: adjacency is symmetric, and the list of a client
    holds exactly its adjacent clients. */
module Neighbours {
  import opened Common
  import opened Pwlfs
  import opened Composition
  import opened Scans
  import opened Instances

  // ---------- the lists ----------

  /** k == 0 is the exhaustive sentinel; otherwise flat[offsets[i] .. offsets[i + 1]] lists the
      neighbours of client i and adjacent is the bit matrix. */
  datatype NeighbourLists = NeighbourLists(k: int, offsets: seq<int>, flat: seq<int>, adjacent: seq<seq<bool>>)
  {
    predicate Restricted() { k > 0 }

    predicate IsNeighbour(i: int, j: int)
      requires k != 0 ==> 0 <= i < |adjacent| && 0 <= j < |adjacent[i]|
    {
      k == 0 || adjacent[i][j]
    }

    predicate HasList(i: int) {
      HasSlice(offsets, flat, i)
    }

    function List(i: int): seq<int>
      requires HasList(i)
    {
      Slice(offsets, flat, i)
    }
  }

  predicate HasSlice(offsets: seq<int>, flat: seq<int>, i: int) {
    0 <= i && i + 1 < |offsets| && 0 <= offsets[i] <= offsets[i + 1] <= |flat|
  }

  function Slice(offsets: seq<int>, flat: seq<int>, i: int): seq<int>
    requires HasSlice(offsets, flat, i)
  {
    flat[offsets[i]..offsets[i + 1]]
  }

  const EXHAUSTIVE := NeighbourLists(0, [], [], [])

  /** Lists over clients 1..n: a square symmetric matrix with an empty depot row, and CSR lists that
      are exactly its rows. */
  ghost predicate Sound(nb: NeighbourLists, n: nat) {
    nb.k >= 0 &&
    (nb.Restricted() ==>
       && |nb.adjacent| == n + 1 && (forall i :: 0 <= i <= n ==> |nb.adjacent[i]| == n + 1)
       && (forall i, j :: 0 <= i <= n && 0 <= j <= n ==> nb.adjacent[i][j] == nb.adjacent[j][i])
       && (forall i :: 0 <= i <= n ==> !nb.adjacent[0][i])
       && (forall i :: 0 <= i <= n ==> nb.HasList(i))
       && (forall i, j :: 1 <= i <= n ==> (j in nb.List(i) <==> 1 <= j <= n && nb.adjacent[i][j])))
  }

  // ---------- proximity ----------

  /** The departures from i towards j that the windows and the arc allow. */
  function EdgeLow(inst: Problem, i: int, j: int): real
    requires inst.Vertex(i) && inst.Vertex(j) && !IsEmpty(inst.arcs[i][j])
  {
    Max((if inst.hasWindows then inst.earliest[i] else inst.horizonStart) + inst.service[i], inst.arcs[i][j].xs[0])
  }

  function EdgeHigh(inst: Problem, i: int, j: int): real
    requires inst.Vertex(i) && inst.Vertex(j) && !IsEmpty(inst.arcs[i][j])
  {
    Min((if inst.hasWindows then inst.latest[i] else inst.horizonEnd) + inst.service[i], inst.arcs[i][j].xs[|inst.arcs[i][j].xs| - 1])
  }

  predicate EdgeOpen(inst: Problem, i: int, j: int)
    requires inst.Vertex(i) && inst.Vertex(j)
  {
    var a := inst.arcs[i][j];
    && !IsEmpty(a) && EdgeLow(inst, i, j) <= EdgeHigh(inst, i, j)
    && Eval(a, EdgeLow(inst, i, j)) <= (if inst.hasWindows then inst.latest[j] else inst.horizonEnd)
  }

  /** m is the least travel time over the continuum of departures [lo, hi]. */
  ghost predicate IsLeastTravel(a: Pwlf, lo: real, hi: real, m: real) {
    && (exists t :: lo <= t <= hi && InDom(a, t) && Eval(a, t) - t == m)
    && forall t :: lo <= t <= hi && InDom(a, t) ==> m <= Eval(a, t) - t
  }

  /** The scan of proximity: both ends and every breakpoint strictly between. */
  ghost predicate ScannedTravel(a: Pwlf, lo: real, hi: real, m: real) {
    && InDom(a, lo) && InDom(a, hi) && m <= Eval(a, lo) - lo && m <= Eval(a, hi) - hi
    && forall k :: 0 <= k < |a.xs| && lo < a.xs[k] < hi ==> m <= a.ys[k] - a.xs[k]
  }

  lemma TravelAtLeast(a: Pwlf, lo: real, hi: real, m: real, t: real)
    requires ScannedTravel(a, lo, hi, m) && lo < t < hi
    ensures InDom(a, t) && m <= Eval(a, t) - t
  {
    hide Line, Eval;
    var i := LowerBound(a.xs, t);
    if a.xs[i] == t {
      EvalAtFirst(a, i);
    } else {
      var x0, x1 := Max(a.xs[i - 1], lo), Min(a.xs[i], hi);
      EvalOnPiece(a, i, t);
      EvalOnPiece(a, i, x1);
      var y0 := Line(a.xs[i - 1], a.ys[i - 1], a.xs[i], a.ys[i], x0);
      LineEnds(a.xs[i - 1], a.ys[i - 1], a.xs[i], a.ys[i]);
      if x0 > a.xs[i - 1] { EvalOnPiece(a, i, x0); } else if x0 == lo { LowerAtLeftEnd(a, i); }
      assert m <= y0 - x0;
      LineChord(a.xs[i - 1], a.ys[i - 1], a.xs[i], a.ys[i], x0, x1, t);
      ChordShift(x0, y0, x1, Eval(a, x1), t, m);
    }
  }

  lemma LowerAtLeftEnd(a: Pwlf, i: nat)
    requires 0 < i < |a.xs|
    ensures InDom(a, a.xs[i - 1]) && Eval(a, a.xs[i - 1]) <= a.ys[i - 1]
  {
    LowerBoundAtMost(a.xs, a.xs[i - 1], i - 1);
    EvalBounds(a, a.xs[i - 1]);
    assert a.ys[LowerBound(a.xs, a.xs[i - 1])] <= a.ys[i - 1];
  }

  /** p is the proximity of j from i. */
  ghost predicate IsProximity(inst: Problem, i: int, j: int, weightWait: real, p: Option<real>)
    requires inst.Vertex(i) && inst.Vertex(j)
  {
    && (p.Some? <==> EdgeOpen(inst, i, j))
    && (p.Some? ==>
          var a, lo, hi := inst.arcs[i][j], EdgeLow(inst, i, j), EdgeHigh(inst, i, j);
          && InDom(a, hi)
          && exists m :: IsLeastTravel(a, lo, hi, m)
                         && p.value == m + weightWait * Max(0.0, (if inst.hasWindows then inst.earliest[j] else inst.horizonStart) - Eval(a, hi)))
  }

  lemma LeastTravelUnique(a: Pwlf, lo: real, hi: real, m: real, m': real)
    requires IsLeastTravel(a, lo, hi, m) && IsLeastTravel(a, lo, hi, m')
    ensures m == m'
  {
    hide Eval;
  }

  lemma ProximityUnique(inst: Problem, i: int, j: int, weightWait: real, p: Option<real>, q: Option<real>)
    requires inst.Vertex(i) && inst.Vertex(j)
    requires IsProximity(inst, i, j, weightWait, p) && IsProximity(inst, i, j, weightWait, q)
    ensures p == q
  {
    hide Eval, IsLeastTravel;
    if p.Some? {
      var a, lo, hi := inst.arcs[i][j], EdgeLow(inst, i, j), EdgeHigh(inst, i, j);
      var wait := weightWait * Max(0.0, (if inst.hasWindows then inst.earliest[j] else inst.horizonStart) - Eval(a, hi));
      var m :| IsLeastTravel(a, lo, hi, m) && p.value == m + wait;
      var m' :| IsLeastTravel(a, lo, hi, m') && q.value == m' + wait;
      LeastTravelUnique(a, lo, hi, m, m');
    }
  }

  /** proximity(i, j): None when the edge can never be used; otherwise the least travel time over all
      allowed departures plus the weighted wait not even the latest departure avoids. */
  method Proximity(inst: Problem, i: int, j: int, weightWait: real) returns (p: Option<real>)
    requires inst.Vertex(i) && inst.Vertex(j)
    ensures IsProximity(inst, i, j, weightWait, p)
  {
    hide Eval;
    var alpha := inst.arcs[i][j];
    if IsEmpty(alpha) { return None; }
    var lo, hi := EdgeLow(inst, i, j), EdgeHigh(inst, i, j);
    if lo > hi { return None; }
    if Eval(alpha, lo) > (if inst.hasWindows then inst.latest[j] else inst.horizonEnd) { return None; }
    var minDur := LeastTravel(alpha, lo, hi);
    var minWait := Max(0.0, (if inst.hasWindows then inst.earliest[j] else inst.horizonStart) - Eval(alpha, hi));
    return Some(minDur + weightWait * minWait);
  }

  method LeastTravel(a: Pwlf, lo: real, hi: real) returns (m: real)
    requires lo <= hi && InDom(a, lo) && InDom(a, hi)
    ensures IsLeastTravel(a, lo, hi, m)
  {
    hide Eval;
    m := Min(Eval(a, lo) - lo, Eval(a, hi) - hi);
    ghost var t := if m == Eval(a, lo) - lo then lo else hi;
    for k := 0 to |a.xs|
      invariant m <= Eval(a, lo) - lo && m <= Eval(a, hi) - hi
      invariant forall s :: 0 <= s < k && lo < a.xs[s] < hi ==> m <= a.ys[s] - a.xs[s]
      invariant lo <= t <= hi && InDom(a, t) && Eval(a, t) - t <= m
    {
      var x := a.xs[k];
      if lo < x < hi {
        if a.ys[k] - x < m {
          m := a.ys[k] - x;
          LowerBoundAtMost(a.xs, x, k);
          UpperValue(a, k);
          t := x;
        }
      }
    }
    forall z | lo <= z <= hi && InDom(a, z) ensures m <= Eval(a, z) - z {
      if lo < z < hi { TravelAtLeast(a, lo, hi, m, z); }
    }
    assert Eval(a, t) - t == m;
  }

  lemma UpperValue(a: Pwlf, k: nat)
    requires k < |a.xs|
    ensures InDom(a, a.xs[k]) && Eval(a, a.xs[k]) <= a.ys[k]
  {
    if k + 1 < |a.xs| {
      LowerAtLeftEnd(a, k + 1);
    } else {
      EvalBounds(a, a.xs[k]);
    }
  }

  // ---------- construction ----------

  type Row = seq<Option<real>>

  /** a before b in a row: smaller proximity, ties on client id; None is +inf. */
  predicate Closer(row: Row, a: int, b: int)
    requires 0 <= a < |row| && 0 <= b < |row|
  {
    if row[a].None? then row[b].None? && a < b
    else row[b].None? || row[a].value < row[b].value || (row[a].value == row[b].value && a < b)
  }

  /** The other clients strictly closer to i than j. */
  ghost function CloserSet(row: Row, i: int, j: int): set<int>
    requires 0 <= j < |row|
  {
    set m | 1 <= m < |row| && m != i && Closer(row, m, j)
  }

  /** j is one of the k nearest clients of i, at a finite proximity. */
  ghost predicate Nearest(prox: seq<Row>, k: int, i: int, j: int)
    requires 0 <= i < |prox| && 0 <= j < |prox[i]|
  {
    1 <= j && j != i && prox[i][j].Some? && |CloserSet(prox[i], i, j)| < k
  }

  ghost predicate Square<T>(m: seq<seq<T>>, n: nat) {
    |m| == n + 1 && forall i :: 0 <= i <= n ==> |m[i]| == n + 1
  }

  function MinOption(a: Option<real>, b: Option<real>): Option<real> {
    if a.None? then b else if b.None? then a else Some(Min(a.value, b.value))
  }

  /** The first `count` clients other than i in the order of the row. */
  ghost predicate IsPrefixOfOrder(row: Row, i: int, order: seq<int>) {
    && (forall t :: 0 <= t < |order| ==> 1 <= order[t] < |row| && order[t] != i)
    && (forall s, t :: 0 <= s < t < |order| ==> Closer(row, order[s], order[t]))
    && (forall j, t :: 1 <= j < |row| && j != i && j !in order && 0 <= t < |order| ==> Closer(row, order[t], j))
  }

  method SelectNext(row: Row, i: int, order: seq<int>) returns (best: Option<int>)
    requires IsPrefixOfOrder(row, i, order) && |row| > 0
    ensures best.None? ==> forall j :: 1 <= j < |row| && j != i ==> j in order
    ensures best.Some? ==> best.value !in order && IsPrefixOfOrder(row, i, order + [best.value])
  {
    best := None;
    for j := 1 to |row|
      invariant best.None? ==> forall m :: 1 <= m < j && m != i ==> m in order
      invariant best.Some? ==>
                  && 1 <= best.value < |row| && best.value != i && best.value !in order
                  && forall m :: 1 <= m < j && m != i && m !in order && m != best.value ==> Closer(row, best.value, m)
    {
      if j != i && j !in order && (best.None? || Closer(row, j, best.value)) {
        best := Some(j);
      }
    }
  }

  /** partial_sort of the other clients by (proximity, id), first `count` of them. */
  method NearestFirst(row: Row, i: int, count: int) returns (order: seq<int>)
    requires count >= 0 && |row| > 0
    ensures IsPrefixOfOrder(row, i, order) && |order| <= count
    ensures |order| < count ==> forall j :: 1 <= j < |row| && j != i ==> j in order
  {
    order := [];
    var more := true;
    while |order| < count && more
      invariant IsPrefixOfOrder(row, i, order) && |order| <= count
      invariant !more ==> forall j :: 1 <= j < |row| && j != i ==> j in order
      decreases count - |order|, more
    {
      var next := SelectNext(row, i, order);
      if next.None? { more := false; } else { order := order + [next.value]; }
    }
  }

  /** Position in the order counts the strictly closer clients. */
  lemma OrderCounts(row: Row, i: int, order: seq<int>, t: nat)
    requires IsPrefixOfOrder(row, i, order) && t < |order|
    ensures |CloserSet(row, i, order[t])| == t
  {
    var s := set u | 0 <= u < t :: order[u];
    assert s == CloserSet(row, i, order[t]) by {
      forall m | m in CloserSet(row, i, order[t]) ensures m in s {
        if m in order {
          var u :| 0 <= u < |order| && order[u] == m;
        }
      }
    }
    PrefixSize(order, t, s);
  }

  lemma {:induction false} PrefixSize(order: seq<int>, t: nat, s: set<int>)
    requires t <= |order| && (forall u, v :: 0 <= u < v < |order| ==> order[u] != order[v])
    requires s == set u | 0 <= u < t :: order[u]
    ensures |s| == t
  {
    if t > 0 {
      var r := set u | 0 <= u < t - 1 :: order[u];
      PrefixSize(order, t - 1, r);
      assert s == r + {order[t - 1]};
    }
  }

  lemma OutsideCounts(row: Row, i: int, order: seq<int>, j: int)
    requires IsPrefixOfOrder(row, i, order) && 1 <= j < |row| && j != i && j !in order
    ensures |CloserSet(row, i, j)| >= |order|
  {
    var s := set u | 0 <= u < |order| :: order[u];
    PrefixSize(order, |order|, s);
    assert s <= CloserSet(row, i, j);
    Subset(s, CloserSet(row, i, j));
  }

  lemma Subset(a: set<int>, b: set<int>)
    requires a <= b
    ensures |a| <= |b|
  {
    assert b == a + (b - a);
  }

  /** Taking the order up to the first infinite proximity gives exactly the k nearest. */
  lemma TakenAreNearest(prox: seq<Row>, n: nat, k: int, i: int, order: seq<int>, taken: int, j: int)
    requires Square(prox, n) && 1 <= i <= n && 1 <= j <= n && k > 0
    requires IsPrefixOfOrder(prox[i], i, order) && |order| <= k
    requires |order| < k ==> forall j :: 1 <= j <= n && j != i ==> j in order
    requires 0 <= taken <= |order| && (forall t :: 0 <= t < taken ==> prox[i][order[t]].Some?)
    requires taken < |order| ==> prox[i][order[taken]].None?
    ensures j in order[..taken] <==> Nearest(prox, k, i, j)
  {
    assert forall s, t :: 0 <= s < t < |order| ==> order[s] != order[t];
    if j in order {
      var t :| 0 <= t < |order| && order[t] == j;
      OrderCounts(prox[i], i, order, t);
      assert taken < t ==> Closer(prox[i], order[taken], order[t]);
      if t < taken { assert order[..taken][t] == j; }
    } else if j != i {
      OutsideCounts(prox[i], i, order, j);
    }
  }

  /** x is the lesser of the two proximities of a pair of clients. */
  ghost predicate IsPairProximity(inst: Problem, i: int, j: int, weightWait: real, x: Option<real>)
    requires inst.Vertex(i) && inst.Vertex(j)
  {
    exists p, q :: IsProximity(inst, i, j, weightWait, p) && IsProximity(inst, j, i, weightWait, q) && x == MinOption(p, q)
  }

  /** The symmetrised proximities of the instance: infinite on the diagonal and at the depot. */
  ghost predicate IsProximityMatrix(inst: Problem, weightWait: real, prox: seq<Row>) {
    && Square(prox, inst.n)
    && forall i, j :: inst.Vertex(i) && inst.Vertex(j) ==>
         if i == 0 || j == 0 || i == j then Cell(prox, i, j) == None else IsPairProximity(inst, i, j, weightWait, Cell(prox, i, j))
  }

  lemma PairProximitySymmetric(inst: Problem, i: int, j: int, weightWait: real, x: Option<real>, y: Option<real>)
    requires inst.Vertex(i) && inst.Vertex(j) && IsPairProximity(inst, i, j, weightWait, x)
    ensures IsPairProximity(inst, j, i, weightWait, x)
    ensures IsPairProximity(inst, i, j, weightWait, y) ==> x == y
  {
    hide IsProximity;
    var p, q :| IsProximity(inst, i, j, weightWait, p) && IsProximity(inst, j, i, weightWait, q) && x == MinOption(p, q);
    assert x == MinOption(q, p);
    if IsPairProximity(inst, i, j, weightWait, y) {
      var p', q' :| IsProximity(inst, i, j, weightWait, p') && IsProximity(inst, j, i, weightWait, q') && y == MinOption(p', q');
      ProximityUnique(inst, i, j, weightWait, p, p');
      ProximityUnique(inst, j, i, weightWait, q, q');
    }
  }

  /** The instance and the wait weight determine the matrix. */
  lemma ProximityMatrixUnique(inst: Problem, weightWait: real, a: seq<Row>, b: seq<Row>)
    requires IsProximityMatrix(inst, weightWait, a) && IsProximityMatrix(inst, weightWait, b)
    ensures a == b
  {
    hide IsPairProximity;
    forall i | 0 <= i <= inst.n ensures a[i] == b[i] {
      forall j | 0 <= j <= inst.n ensures a[i][j] == b[i][j] {
        assert Cell(a, i, j) == a[i][j] && Cell(b, i, j) == b[i][j];
        if !(i == 0 || j == 0 || i == j) { PairProximitySymmetric(inst, i, j, weightWait, a[i][j], b[i][j]); }
      }
    }
  }

  /** The symmetrised proximity matrix over clients. */
  method SymmetricProximity(inst: Problem, weightWait: real) returns (prox: seq<Row>)
    ensures IsProximityMatrix(inst, weightWait, prox)
  {
    hide IsPairProximity, IsProximity;
    var n := inst.n;
    prox := seq(n + 1, _ => seq(n + 1, _ => None));
    for i := 1 to n + 1
      invariant Square(prox, n)
      invariant forall v, w :: 0 <= v <= n && 0 <= w <= n ==>
                  if Between(v, w, 1, i) || Between(w, v, 1, i) then IsPairProximity(inst, v, w, weightWait, Cell(prox, v, w)) else Cell(prox, v, w) == None
    {
      for j := i + 1 to n + 1
        invariant Square(prox, n)
        invariant forall v, w :: 0 <= v <= n && 0 <= w <= n ==>
                    if Between(v, w, 1, i) || Between(w, v, 1, i) || (v == i < w < j) || (w == i < v < j)
                    then IsPairProximity(inst, v, w, weightWait, Cell(prox, v, w)) else Cell(prox, v, w) == None
      {
        var p := Proximity(inst, i, j, weightWait);
        var q := Proximity(inst, j, i, weightWait);
        PairProximityOf(inst, i, j, weightWait, p, q);
        prox := SetBoth(prox, n, i, j, MinOption(p, q));
      }
    }
  }

  /** v, in low .. high - 1, is the smaller client of the pair. */
  predicate Between(v: int, w: int, low: int, high: int) { low <= v < high && v < w }

  lemma PairProximityOf(inst: Problem, i: int, j: int, weightWait: real, p: Option<real>, q: Option<real>)
    requires inst.Vertex(i) && inst.Vertex(j) && IsProximity(inst, i, j, weightWait, p) && IsProximity(inst, j, i, weightWait, q)
    ensures IsPairProximity(inst, i, j, weightWait, MinOption(p, q)) && IsPairProximity(inst, j, i, weightWait, MinOption(p, q))
  {
    hide IsProximity;
    assert MinOption(p, q) == MinOption(q, p);
  }

  function Cell<T>(m: seq<seq<T>>, a: int, b: int): T
    requires 0 <= a < |m| && 0 <= b < |m[a]|
  {
    m[a][b]
  }

  function SetBoth<T>(m: seq<seq<T>>, n: nat, i: int, j: int, v: T): (m': seq<seq<T>>)
    requires Square(m, n) && 0 <= i <= n && 0 <= j <= n
    ensures Square(m', n)
    ensures forall a, b :: 0 <= a <= n && 0 <= b <= n ==>
              Cell(m', a, b) == if (a == i && b == j) || (a == j && b == i) then v else Cell(m, a, b)
  {
    var m1 := m[i := m[i][j := v]];
    m1[j := m1[j][i := v]]
  }

  /** set_bit for the chosen neighbours of client i, both ways. */
  method MarkNearest(prox: seq<Row>, n: nat, k: int, i: int, bits0: seq<seq<bool>>) returns (bits: seq<seq<bool>>)
    requires Square(prox, n) && Square(bits0, n) && 1 <= i <= n && k > 0
    ensures Square(bits, n)
    ensures forall a, b :: 0 <= a <= n && 0 <= b <= n ==>
              (Cell(bits, a, b) <==> Cell(bits0, a, b) || (a == i && Nearest(prox, k, i, b)) || (b == i && Nearest(prox, k, i, a)))
  {
    hide Nearest, CloserSet;
    var order := NearestFirst(prox[i], i, k);
    bits := bits0;
    var t := 0;
    while t < |order| && prox[i][order[t]].Some?
      invariant 0 <= t <= |order| && Square(bits, n)
      invariant forall s :: 0 <= s < t ==> prox[i][order[s]].Some?
      invariant forall a, b :: 0 <= a <= n && 0 <= b <= n ==>
                  (Cell(bits, a, b) <==> Cell(bits0, a, b) || (a == i && b in order[..t]) || (b == i && a in order[..t]))
    {
      ghost var before := bits;
      var w := order[t];
      bits := SetBoth(bits, n, i, w, true);
      assert order[..t + 1] == order[..t] + [w];
      assert forall x :: x in order[..t + 1] <==> x in order[..t] || x == w;
      forall a, b | 0 <= a <= n && 0 <= b <= n
        ensures Cell(bits, a, b) <==> Cell(bits0, a, b) || (a == i && b in order[..t + 1]) || (b == i && a in order[..t + 1])
      {
        assert Cell(bits, a, b) == if (a == i && b == w) || (a == w && b == i) then true else Cell(before, a, b);
      }
      t := t + 1;
    }
    forall a, b | 0 <= a <= n && 0 <= b <= n
      ensures Cell(bits, a, b) <==> Cell(bits0, a, b) || (a == i && Nearest(prox, k, i, b)) || (b == i && Nearest(prox, k, i, a))
    {
      TakenOrDepot(prox, n, k, i, order, t, a);
      TakenOrDepot(prox, n, k, i, order, t, b);
    }
  }

  lemma TakenOrDepot(prox: seq<Row>, n: nat, k: int, i: int, order: seq<int>, taken: int, j: int)
    requires Square(prox, n) && 1 <= i <= n && 0 <= j <= n && k > 0
    requires IsPrefixOfOrder(prox[i], i, order) && |order| <= k
    requires |order| < k ==> forall j :: 1 <= j <= n && j != i ==> j in order
    requires 0 <= taken <= |order| && (forall t :: 0 <= t < taken ==> prox[i][order[t]].Some?)
    requires taken < |order| ==> prox[i][order[taken]].None?
    ensures j in order[..taken] <==> Nearest(prox, k, i, j)
  {
    hide Nearest, CloserSet;
    if j == 0 { NotDepot(prox, k, i, order, taken); } else { TakenAreNearest(prox, n, k, i, order, taken, j); }
  }

  lemma NotDepot(prox: seq<Row>, k: int, i: int, order: seq<int>, t: int)
    requires 0 <= i < |prox| && |prox[i]| > 0 && IsPrefixOfOrder(prox[i], i, order) && 0 <= t <= |order|
    ensures 0 !in order[..t] && !Nearest(prox, k, i, 0)
  {
  }

  /** The k-nearest relation, symmetrised by union. */
  ghost predicate IsUnion(prox: seq<Row>, n: nat, k: int, bits: seq<seq<bool>>)
    requires Square(prox, n)
  {
    Square(bits, n) &&
    forall a, b :: 0 <= a <= n && 0 <= b <= n ==>
      (Cell(bits, a, b) <==> (1 <= a && Nearest(prox, k, a, b)) || (1 <= b && Nearest(prox, k, b, a)))
  }

  lemma UnionIsSymmetric(prox: seq<Row>, n: nat, k: int, bits: seq<seq<bool>>)
    requires Square(prox, n) && IsUnion(prox, n, k, bits)
    ensures forall a, b :: 0 <= a <= n && 0 <= b <= n ==> bits[a][b] == bits[b][a]
    ensures forall b :: 0 <= b <= n ==> !bits[0][b] && !bits[b][0]
  {
    hide CloserSet;
    forall a, b | 0 <= a <= n && 0 <= b <= n ensures bits[a][b] == bits[b][a] && (a == 0 ==> !bits[a][b]) {
      assert Cell(bits, a, b) <==> Cell(bits, b, a);
    }
    forall b | 0 <= b <= n ensures !bits[0][b] && !bits[b][0] {
      assert !Cell(bits, 0, b);
      assert !Cell(bits, b, 0);
    }
  }

  method UnionAdjacency(prox: seq<Row>, n: nat, k: int) returns (bits: seq<seq<bool>>)
    requires Square(prox, n) && k > 0
    ensures IsUnion(prox, n, k, bits)
  {
    hide Nearest, CloserSet;
    bits := seq(n + 1, _ => seq(n + 1, _ => false));
    for i := 1 to n + 1
      invariant Square(bits, n)
      invariant forall a, b :: 0 <= a <= n && 0 <= b <= n ==>
                  (Cell(bits, a, b) <==> (1 <= a < i && Nearest(prox, k, a, b)) || (1 <= b < i && Nearest(prox, k, b, a)))
    {
      ghost var before := bits;
      bits := MarkNearest(prox, n, k, i, bits);
      forall a, b | 0 <= a <= n && 0 <= b <= n
        ensures Cell(bits, a, b) <==> (1 <= a < i + 1 && Nearest(prox, k, a, b)) || (1 <= b < i + 1 && Nearest(prox, k, b, a))
      {
        assert Cell(bits, a, b) <==> Cell(before, a, b) || (a == i && Nearest(prox, k, i, b)) || (b == i && Nearest(prox, k, i, a));
      }
    }
  }

  predicate Ascending(list: seq<int>) {
    forall a, b :: 0 <= a < b < |list| ==> list[a] < list[b]
  }

  /** Ascending lists are determined by their members. */
  lemma {:induction false} AscendingUnique(a: seq<int>, b: seq<int>)
    requires Ascending(a) && Ascending(b) && forall v :: v in a <==> v in b
    ensures a == b
    decreases |a|
  {
    FirstIsMember(a, b);
    FirstIsMember(b, a);
    if |a| > 0 {
      forall v ensures v in a[1..] <==> v in b[1..] {
        TailMembers(a, v);
        TailMembers(b, v);
      }
      AscendingUnique(a[1..], b[1..]);
      assert a == [a[0]] + a[1..] && b == [b[0]] + b[1..];
    }
  }

  lemma FirstIsMember(a: seq<int>, b: seq<int>)
    requires Ascending(a) && forall v :: v in b ==> v in a
    ensures |b| > 0 ==> |a| > 0 && a[0] <= b[0]
  {
    if |b| > 0 {
      var v := b[0];
      assert v in b;
      assert v in a;
      var k :| 0 <= k < |a| && a[k] == v;
    }
  }

  lemma TailMembers(a: seq<int>, v: int)
    requires Ascending(a) && |a| > 0
    ensures v in a[1..] <==> v in a && v != a[0]
  {
    if v in a && v != a[0] {
      var k :| 0 <= k < |a| && a[k] == v;
      assert a[1..][k - 1] == v;
    }
  }

  /** The clients of a row of bits, ascending. */
  method RowList(bits: seq<bool>) returns (list: seq<int>)
    requires |bits| > 0
    ensures forall j :: j in list <==> 1 <= j < |bits| && bits[j]
    ensures Ascending(list)
  {
    list := [];
    for j := 1 to |bits|
      invariant forall m :: m in list <==> 1 <= m < j && bits[m]
      invariant Ascending(list)
    {
      assert forall k :: 0 <= k < |list| ==> list[k] in list;
      if bits[j] { list := list + [j]; }
    }
  }

  ghost predicate AscendingLists(nb: NeighbourLists, n: nat) {
    forall v :: 1 <= v <= n && nb.HasList(v) ==> Ascending(nb.List(v))
  }

  /** The instance and the parameters determine the adjacency and every list, order included. */
  lemma ListsUnique(inst: Problem, numNeighbours: int, weightWait: real, a: NeighbourLists, b: NeighbourLists)
    requires ListsOf(inst, numNeighbours, weightWait, a) && ListsOf(inst, numNeighbours, weightWait, b)
    ensures a.k == b.k && a.adjacent == b.adjacent
    ensures forall v :: 1 <= v <= inst.n && a.HasList(v) && b.HasList(v) ==> a.List(v) == b.List(v)
  {
    hide IsPairProximity, Nearest, CloserSet;
    if numNeighbours > 0 {
      var prox :| IsProximityMatrix(inst, weightWait, prox) && IsUnion(prox, inst.n, numNeighbours, a.adjacent);
      var prox' :| IsProximityMatrix(inst, weightWait, prox') && IsUnion(prox', inst.n, numNeighbours, b.adjacent);
      ProximityMatrixUnique(inst, weightWait, prox, prox');
      UnionUnique(prox, inst.n, numNeighbours, a.adjacent, b.adjacent);
      forall v | 1 <= v <= inst.n && a.HasList(v) && b.HasList(v) ensures a.List(v) == b.List(v) {
        AscendingUnique(a.List(v), b.List(v));
      }
    }
  }

  lemma UnionUnique(prox: seq<Row>, n: nat, k: int, a: seq<seq<bool>>, b: seq<seq<bool>>)
    requires Square(prox, n) && IsUnion(prox, n, k, a) && IsUnion(prox, n, k, b)
    ensures a == b
  {
    hide Nearest;
    forall i | 0 <= i <= n ensures a[i] == b[i] {
      forall j | 0 <= j <= n ensures a[i][j] == b[i][j] { assert Cell(a, i, j) == Cell(b, i, j); }
    }
  }

  /** The lists of an instance: the exhaustive sentinel, or the union of the k-nearest relations under the
      proximities of the instance. */
  ghost predicate ListsOf(inst: Problem, numNeighbours: int, weightWait: real, nb: NeighbourLists) {
    && Sound(nb, inst.n) && AscendingLists(nb, inst.n)
    && if numNeighbours <= 0 then nb == EXHAUSTIVE
       else nb.k == numNeighbours && exists prox :: IsProximityMatrix(inst, weightWait, prox) && IsUnion(prox, inst.n, numNeighbours, nb.adjacent)
  }

  /** build_neighbour_lists. */
  method BuildNeighbourLists(inst: Problem, numNeighbours: int, weightWait: real) returns (nb: NeighbourLists)
    ensures Sound(nb, inst.n) && ListsOf(inst, numNeighbours, weightWait, nb)
  {
    hide IsPairProximity;
    if numNeighbours <= 0 { return EXHAUSTIVE; }
    var n := inst.n;
    var prox := SymmetricProximity(inst, weightWait);
    var bits := UnionAdjacency(prox, n, numNeighbours);
    UnionIsSymmetric(prox, n, numNeighbours, bits);
    var offsets, flat := [0, 0], [];
    for i := 1 to n + 1
      invariant |offsets| == i + 1 && offsets[0] == offsets[1] == 0 && offsets[i] == |flat|
      invariant forall v :: 0 <= v < i ==> HasSlice(offsets, flat, v)
      invariant forall v, j :: 1 <= v < i ==> (j in Slice(offsets, flat, v) <==> 1 <= j <= n && bits[v][j])
      invariant forall v :: 1 <= v < i ==> Ascending(Slice(offsets, flat, v))
    {
      var row := RowList(bits[i]);
      ghost var flat0, offsets0 := flat, offsets;
      flat := flat + row;
      offsets := offsets + [|flat|];
      forall v | 0 <= v < i ensures HasSlice(offsets, flat, v) && Slice(offsets, flat, v) == Slice(offsets0, flat0, v) {
        assert HasSlice(offsets0, flat0, v);
      }
      assert Slice(offsets, flat, i) == row;
    }
    nb := NeighbourLists(numNeighbours, offsets, flat, bits);
  }
}
