/** compose (cpp/pwlf/pwlf.cpp): the two-pointer event merge over dom(f) and img(g). */
module Composition {
  import opened Common
  import opened Pwlfs

  function Max(a: real, b: real): real { if a < b then b else a }
  function Min(a: real, b: real): real { if b < a then b else a }

  /** First index from i on whose entry is not u. */
  function RunEnd(s: seq<real>, i: nat, u: real): (k: nat)
    requires i <= |s|
    ensures i <= k <= |s|
    ensures forall t :: i <= t < k ==> s[t] == u
    ensures k < |s| ==> s[k] != u
    decreases |s| - i
  {
    if i < |s| && s[i] == u then RunEnd(s, i + 1, u) else i
  }

  /** emit: append with the duplicate drop; coordinates that would go backwards are raised to the last
      point. Where CanAppend holds of the point this clamp changes nothing. */
  function Emit(h: Pwlf, x: real, y: real): Pwlf {
    if |h.xs| == 0 then Points([x], [y])
    else
      var n := |h.xs|;
      var x', y' := Max(x, h.xs[n - 1]), Max(y, h.ys[n - 1]);
      if x' == h.xs[n - 1] && y' == h.ys[n - 1] then h else Append(h, x', y')
  }

  function EmitRow(h: Pwlf, row: seq<real>, y: real): Pwlf
    decreases |row|
  {
    if |row| == 0 then h else EmitRow(Emit(h, row[0], y), row[1..], y)
  }

  function EmitColumn(h: Pwlf, x: real, col: seq<real>): Pwlf
    decreases |col|
  {
    if |col| == 0 then h else EmitColumn(Emit(h, x, col[0]), x, col[1..])
  }

  /** No point of the row meets the clamp. */
  predicate RowFits(h: Pwlf, row: seq<real>, y: real)
    decreases |row|
  {
    |row| == 0 || (CanAppend(h, row[0], y) && RowFits(Emit(h, row[0], y), row[1..], y))
  }

  predicate ColumnFits(h: Pwlf, x: real, col: seq<real>)
    decreases |col|
  {
    |col| == 0 || (CanAppend(h, x, col[0]) && ColumnFits(Emit(h, x, col[0]), x, col[1..]))
  }

  /** What the two cursors guarantee: everything behind one cursor is below what the other
      still has to consume, so an event strictly inside a piece has both its neighbours. */
  ghost predicate Aligned(f: Pwlf, g: Pwlf, hi: real, i: nat, j: nat) {
    var nf, ng := |f.xs|, |g.xs|;
    && 0 < nf && 0 < ng && i <= nf && j <= ng
    && hi <= f.xs[nf - 1] && hi <= g.ys[ng - 1]
    && (0 < i < nf ==> f.xs[i - 1] < f.xs[i]) && (0 < j < ng ==> g.ys[j - 1] < g.ys[j])
    && (j < ng ==> if i == 0 then f.xs[0] <= g.ys[j] else f.xs[i - 1] < g.ys[j])
    && (i < nf ==> if j == 0 then g.ys[0] <= f.xs[i] else g.ys[j - 1] < f.xs[i])
  }

  predicate HasF(f: Pwlf, hi: real, i: nat) { i < |f.xs| && f.xs[i] <= hi }

  predicate HasG(g: Pwlf, hi: real, j: nat) { j < |g.ys| && g.ys[j] <= hi }

  function NextEvent(f: Pwlf, g: Pwlf, hi: real, i: nat, j: nat): real
    requires HasF(f, hi, i) || HasG(g, hi, j)
  {
    if !HasG(g, hi, j) then f.xs[i]
    else if !HasF(f, hi, i) then g.ys[j]
    else if f.xs[i] <= g.ys[j] then f.xs[i] else g.ys[j]
  }

  /** f values at the event: the run of breakpoints at u, or the one interpolated value. */
  function ValuesAt(xs: seq<real>, ys: seq<real>, i: nat, u: real): (r: seq<real>)
    requires |xs| == |ys| && i <= |xs|
    requires RunEnd(xs, i, u) == i ==> 0 < i < |xs| && xs[i - 1] < u < xs[i]
    ensures |r| > 0
  {
    var e := RunEnd(xs, i, u);
    if i < e then ys[i..e] else [Line(xs[i - 1], ys[i - 1], xs[i], ys[i], u)]
  }

  lemma EventIsInside(f: Pwlf, g: Pwlf, hi: real, i: nat, j: nat)
    requires Aligned(f, g, hi, i, j) && (HasF(f, hi, i) || HasG(g, hi, j))
    ensures var u := NextEvent(f, g, hi, i, j);
            && u <= hi && i < |f.xs| && j < |g.xs| && u <= f.xs[i] && u <= g.ys[j]
            && (i > 0 ==> f.xs[i - 1] < u) && (j > 0 ==> g.ys[j - 1] < u)
            && (u == f.xs[i] || (0 < i && f.xs[i - 1] < u < f.xs[i]))
            && (u == g.ys[j] || (0 < j && g.ys[j - 1] < u < g.ys[j]))
            && (RunEnd(f.xs, i, u) == i <==> u != f.xs[i])
            && (RunEnd(g.ys, j, u) == j <==> u != g.ys[j])
            && Aligned(f, g, hi, RunEnd(f.xs, i, u), RunEnd(g.ys, j, u))
  {
    var nf, ng := |f.xs|, |g.xs|;
    assert forall t :: 0 <= t < nf ==> f.xs[t] <= f.xs[nf - 1];
    assert forall t :: 0 <= t < ng ==> g.ys[t] <= g.ys[ng - 1];
    assert i < nf;
    assert j < ng;
    var u := NextEvent(f, g, hi, i, j);
    var i', j' := RunEnd(f.xs, i, u), RunEnd(g.ys, j, u);
    assert i' < nf ==> u <= f.xs[i'];
    assert j' < ng ==> u <= g.ys[j'];
  }

  /** f values at the next event. */
  function EventFs(f: Pwlf, g: Pwlf, hi: real, i: nat, j: nat): (r: seq<real>)
    requires Aligned(f, g, hi, i, j) && (HasF(f, hi, i) || HasG(g, hi, j))
    ensures |r| > 0
  {
    EventIsInside(f, g, hi, i, j);
    ValuesAt(f.xs, f.ys, i, NextEvent(f, g, hi, i, j))
  }

  /** Positions of g with the next event as image. */
  function EventGs(f: Pwlf, g: Pwlf, hi: real, i: nat, j: nat): (r: seq<real>)
    requires Aligned(f, g, hi, i, j) && (HasF(f, hi, i) || HasG(g, hi, j))
    ensures |r| > 0
  {
    EventIsInside(f, g, hi, i, j);
    ValuesAt(g.ys, g.xs, j, NextEvent(f, g, hi, i, j))
  }

  /** One event of the merge. */
  function Step(f: Pwlf, g: Pwlf, hi: real, i: nat, j: nat, h: Pwlf): (r: (nat, nat, Pwlf))
    requires Aligned(f, g, hi, i, j) && (HasF(f, hi, i) || HasG(g, hi, j))
    ensures Aligned(f, g, hi, r.0, r.1) && i <= r.0 && j <= r.1 && i + j < r.0 + r.1
  {
    EventIsInside(f, g, hi, i, j);
    var u := NextEvent(f, g, hi, i, j);
    var fys, gxs := EventFs(f, g, hi, i, j), EventGs(f, g, hi, i, j);
    var row := EmitRow(h, gxs, fys[0]);
    (RunEnd(f.xs, i, u), RunEnd(g.ys, j, u), EmitColumn(row, gxs[|gxs| - 1], fys[1..]))
  }

  function Merge(f: Pwlf, g: Pwlf, hi: real, i: nat, j: nat, h: Pwlf): Pwlf
    requires Aligned(f, g, hi, i, j)
    decreases |f.xs| - i + |g.xs| - j
  {
    if !HasF(f, hi, i) && !HasG(g, hi, j) then h
    else
      var (i', j', h') := Step(f, g, hi, i, j, h);
      Merge(f, g, hi, i', j', h')
  }

  predicate StepFits(f: Pwlf, g: Pwlf, hi: real, i: nat, j: nat, h: Pwlf)
    requires Aligned(f, g, hi, i, j) && (HasF(f, hi, i) || HasG(g, hi, j))
  {
    var fys, gxs := EventFs(f, g, hi, i, j), EventGs(f, g, hi, i, j);
    RowFits(h, gxs, fys[0]) && ColumnFits(EmitRow(h, gxs, fys[0]), gxs[|gxs| - 1], fys[1..])
  }

  /** No point of the merge meets the clamp. */
  predicate MergeFits(f: Pwlf, g: Pwlf, hi: real, i: nat, j: nat, h: Pwlf)
    requires Aligned(f, g, hi, i, j)
    decreases |f.xs| - i + |g.xs| - j
  {
    HasF(f, hi, i) || HasG(g, hi, j) ==>
      var (i', j', h') := Step(f, g, hi, i, j, h);
      StepFits(f, g, hi, i, j, h) && MergeFits(f, g, hi, i', j', h')
  }

  function Low(f: Pwlf, g: Pwlf): real
    requires !IsEmpty(f) && !IsEmpty(g)
  {
    Max(f.xs[0], g.ys[0])
  }

  function High(f: Pwlf, g: Pwlf): real
    requires !IsEmpty(f) && !IsEmpty(g)
  {
    Min(f.xs[|f.xs| - 1], g.ys[|g.ys| - 1])
  }

  /** Whether the merge has anything to do: dom(f) meets the completed image of g. */
  predicate Meets(f: Pwlf, g: Pwlf) {
    !IsEmpty(f) && !IsEmpty(g) && Low(f, g) <= High(f, g)
  }

  lemma StartAligned(f: Pwlf, g: Pwlf)
    requires Meets(f, g)
    ensures var lo := Low(f, g); var i, j := LowerBound(f.xs, lo), LowerBound(g.ys, lo);
            Aligned(f, g, High(f, g), i, j) && (i == 0 || j == 0) && i < |f.xs| && j < |g.xs|
            && (f.xs[i] == lo || g.ys[j] == lo)
  {
    var lo := Low(f, g);
    var i, j := LowerBound(f.xs, lo), LowerBound(g.ys, lo);
    assert i < |f.xs| by { assert f.xs[|f.xs| - 1] >= lo; }
    assert j < |g.ys| by { assert g.ys[|g.ys| - 1] >= lo; }
  }

  /** h = f after g. */
  function Compose(f: Pwlf, g: Pwlf): Pwlf {
    if !Meets(f, g) then EMPTY
    else
      StartAligned(f, g);
      var lo := Low(f, g);
      Merge(f, g, High(f, g), LowerBound(f.xs, lo), LowerBound(g.ys, lo), EMPTY)
  }

  /** No point compose emits meets the monotone clamp. */
  predicate ComposeFits(f: Pwlf, g: Pwlf) {
    Meets(f, g) ==> (
      StartAligned(f, g);
      var lo := Low(f, g);
      MergeFits(f, g, High(f, g), LowerBound(f.xs, lo), LowerBound(g.ys, lo), EMPTY))
  }

  // ---------- meaning ----------

  /** h tells the truth about f after g at x. */
  ghost predicate Agrees(f: Pwlf, g: Pwlf, h: Pwlf, x: real) {
    InDom(h, x) && InDom(g, x) && InDom(f, Eval(g, x)) && Eval(h, x) == Eval(f, Eval(g, x))
  }

  /** A lower domain wall of f that lands inside a vertical step of g (or on its top): a caller can
      see it from the first breakpoint of g at or above the wall. */
  predicate WallCutsJump(f: Pwlf, g: Pwlf) {
    Meets(f, g) &&
    var j := LowerBound(g.ys, Low(f, g));
    0 < j < |g.xs| && g.xs[j - 1] == g.xs[j]
  }

  ghost predicate Covers(f: Pwlf, g: Pwlf, h: Pwlf, cut: bool) {
    |h.xs| > 0 && forall x :: InDom(h, x) && !(cut && x == h.xs[0]) ==> Agrees(f, g, h, x)
  }

  ghost predicate EndsAt(h: Pwlf, x: real, y: real) {
    |h.xs| > 0 && h.xs[|h.xs| - 1] == x && h.ys[|h.ys| - 1] == y
  }

  ghost predicate SameStart(h: Pwlf, h': Pwlf) {
    |h.xs| > 0 && |h'.xs| > 0 && h.xs[0] == h'.xs[0] && h.ys[0] == h'.ys[0]
  }

  /** Emitting a point whose chord agrees with f after g keeps the whole function agreeing. */
  lemma Extend(f: Pwlf, g: Pwlf, h: Pwlf, x: real, y: real, cut: bool)
    requires Covers(f, g, h, cut) && CanAppend(h, x, y)
    requires forall z :: h.xs[|h.xs| - 1] < z <= x ==>
      InDom(g, z) && InDom(f, Eval(g, z)) && Eval(f, Eval(g, z)) == Line(h.xs[|h.xs| - 1], h.ys[|h.ys| - 1], x, y, z)
    ensures var h' := Emit(h, x, y);
            && Covers(f, g, h', cut) && EndsAt(h', x, y) && SameStart(h, h') && |h'.xs| <= |h.xs| + 1
            && CanAppend(h, x, y)
  {
    var h' := Emit(h, x, y);
    if h' != h {
      forall z | InDom(h', z) && !(cut && z == h'.xs[0]) ensures Agrees(f, g, h', z) {
        EvalAppend(h, x, y, z);
        if InDom(h, z) {
          assert Agrees(f, g, h, z);
        }
      }
    }
  }

  /** The chord between two consecutive events. */
  lemma ChordAgrees(f: Pwlf, g: Pwlf, i: nat, j: nat, u1: real, u2: real, z: real)
    requires 0 < i < |f.xs| && f.xs[i - 1] <= u1 < u2 <= f.xs[i]
    requires 0 < j < |g.xs| && g.ys[j - 1] <= u1 && u2 <= g.ys[j]
    requires var X, X2 := Line(g.ys[j - 1], g.xs[j - 1], g.ys[j], g.xs[j], u1), Line(g.ys[j - 1], g.xs[j - 1], g.ys[j], g.xs[j], u2);
             X < z <= X2
    ensures var X, X2 := Line(g.ys[j - 1], g.xs[j - 1], g.ys[j], g.xs[j], u1), Line(g.ys[j - 1], g.xs[j - 1], g.ys[j], g.xs[j], u2);
            var Y, Y2 := Line(f.xs[i - 1], f.ys[i - 1], f.xs[i], f.ys[i], u1), Line(f.xs[i - 1], f.ys[i - 1], f.xs[i], f.ys[i], u2);
            && InDom(g, z) && InDom(f, Eval(g, z)) && Eval(f, Eval(g, z)) == Line(X, Y, X2, Y2, z)
  {
    var g0, g1, v0, v1 := g.xs[j - 1], g.xs[j], g.ys[j - 1], g.ys[j];
    var X, X2 := Line(v0, g0, v1, g1, u1), Line(v0, g0, v1, g1, u2);
    LineBetween(v0, g0, v1, g1, u1);
    LineBetween(v0, g0, v1, g1, u2);
    EvalOnPiece(g, j, z);
    var w := Line(g0, v0, g1, v1, z);
    LineInverse(g0, v0, g1, v1, u1);
    LineInverse(g0, v0, g1, v1, u2);
    LineMonotone(g0, v0, g1, v1, X, z);
    LineMonotone(g0, v0, g1, v1, z, X2);
    assert u1 < w <= u2;
    EvalOnPiece(f, i, w);
    LineChord(f.xs[i - 1], f.ys[i - 1], f.xs[i], f.ys[i], u1, u2, w);
    LineChord(g0, v0, g1, v1, X, X2, z);
    LineCompose(X, u1, Line(f.xs[i - 1], f.ys[i - 1], f.xs[i], f.ys[i], u1), X2, u2, Line(f.xs[i - 1], f.ys[i - 1], f.xs[i], f.ys[i], u2), z);
  }

  /** The rest of a plateau of g at height u: f(u) is repeated at every breakpoint of the run. */
  lemma RowAgrees(f: Pwlf, g: Pwlf, h: Pwlf, j: nat, e: nat, u: real, cut: bool)
    requires 0 < j <= e <= |g.xs| && InDom(f, u)
    requires forall t :: j - 1 <= t < e ==> g.ys[t] == u
    requires Covers(f, g, h, cut) && EndsAt(h, g.xs[j - 1], Eval(f, u))
    ensures var h' := EmitRow(h, g.xs[j..e], Eval(f, u));
            && RowFits(h, g.xs[j..e], Eval(f, u))
            && Covers(f, g, h', cut) && EndsAt(h', g.xs[e - 1], Eval(f, u)) && SameStart(h, h') && |h'.xs| <= |h.xs| + (e - j)
    decreases e - j
  {
    if j < e {
      var y := Eval(f, u);
      forall z | g.xs[j - 1] < z <= g.xs[j]
        ensures InDom(g, z) && Eval(g, z) == u && Line(g.xs[j - 1], y, g.xs[j], y, z) == y
      {
        EvalOnPiece(g, j, z);
      }
      Extend(f, g, h, g.xs[j], y, cut);
      assert g.xs[j..e][1..] == g.xs[j + 1..e];
      RowAgrees(f, g, Emit(h, g.xs[j], y), j + 1, e, u, cut);
    }
  }

  /** A vertical step of f at the event: only the last value moves. */
  lemma ColumnAgrees(f: Pwlf, g: Pwlf, h: Pwlf, i: nat, e: nat, x: real, cut: bool)
    requires 0 < i <= e <= |f.xs|
    requires Covers(f, g, h, cut) && EndsAt(h, x, f.ys[i - 1])
    ensures var h' := EmitColumn(h, x, f.ys[i..e]);
            && ColumnFits(h, x, f.ys[i..e])
            && Covers(f, g, h', cut) && EndsAt(h', x, f.ys[e - 1]) && SameStart(h, h') && |h'.xs| <= |h.xs| + (e - i)
    decreases e - i
  {
    if i < e {
      Extend(f, g, h, x, f.ys[i], cut);
      assert f.ys[i..e][1..] == f.ys[i + 1..e];
      ColumnAgrees(f, g, Emit(h, x, f.ys[i]), i + 1, e, x, cut);
    }
  }

  /** State of the merge once event u is done: the last point of h is ((inverse of g)(u), f(u)),
      read from the right end of the run when u is a breakpoint. */
  ghost predicate After(f: Pwlf, g: Pwlf, hi: real, i: nat, j: nat, u: real, h: Pwlf) {
    && Aligned(f, g, hi, i, j) && 0 < i && 0 < j && u <= hi
    && f.xs[i - 1] <= u && (i < |f.xs| ==> u < f.xs[i])
    && g.ys[j - 1] <= u && (j < |g.xs| ==> u < g.ys[j])
    && EndsAt(h,
              if j < |g.xs| then Line(g.ys[j - 1], g.xs[j - 1], g.ys[j], g.xs[j], u) else g.xs[j - 1],
              if i < |f.xs| then Line(f.xs[i - 1], f.ys[i - 1], f.xs[i], f.ys[i], u) else f.ys[i - 1])
  }

  /** The first point an event emits, and the function values around it. */
  lemma EventValues(f: Pwlf, g: Pwlf, hi: real, i: nat, j: nat)
    requires Aligned(f, g, hi, i, j) && (HasF(f, hi, i) || HasG(g, hi, j))
    ensures var u := NextEvent(f, g, hi, i, j);
            && i < |f.xs| && j < |g.xs| && u <= f.xs[i] && u <= g.ys[j]
            && (RunEnd(f.xs, i, u) == i ==> 0 < i && f.xs[i - 1] < u < f.xs[i])
            && (RunEnd(g.ys, j, u) == j ==> 0 < j && g.ys[j - 1] < u < g.ys[j])
            && InDom(f, u)
            && EventFs(f, g, hi, i, j)[0] == Eval(f, u)
            && (0 < i ==> Eval(f, u) == Line(f.xs[i - 1], f.ys[i - 1], f.xs[i], f.ys[i], u))
            && (0 < j ==> EventGs(f, g, hi, i, j)[0] == Line(g.ys[j - 1], g.xs[j - 1], g.ys[j], g.xs[j], u))
  {
    EventIsInside(f, g, hi, i, j);
    var u := NextEvent(f, g, hi, i, j);
    if 0 < i {
      EvalOnPiece(f, i, u);
    } else {
      EvalAtFirst(f, 0);
    }
    if 0 < j {
      LineEnds(g.ys[j - 1], g.xs[j - 1], g.ys[j], g.xs[j]);
    }
  }

  /** All of the row of an event, given its first point h1. */
  lemma EventRow(f: Pwlf, g: Pwlf, h: Pwlf, h1: Pwlf, j: nat, u: real, cut: bool)
    requires InDom(f, u) && j < |g.xs|
    requires RunEnd(g.ys, j, u) == j ==> 0 < j && g.ys[j - 1] < u < g.ys[j]
    requires var x := ValuesAt(g.ys, g.xs, j, u)[0];
             && h1 == Emit(h, x, Eval(f, u)) && CanAppend(h, x, Eval(f, u))
             && Covers(f, g, h1, cut) && EndsAt(h1, x, Eval(f, u))
    ensures var gxs := ValuesAt(g.ys, g.xs, j, u); var h' := EmitRow(h, gxs, Eval(f, u));
            && RowFits(h, gxs, Eval(f, u))
            && Covers(f, g, h', cut) && EndsAt(h', gxs[|gxs| - 1], Eval(f, u)) && SameStart(h1, h')
            && |h'.xs| <= |h1.xs| + |gxs| - 1
  {
    var e := RunEnd(g.ys, j, u);
    var gxs := ValuesAt(g.ys, g.xs, j, u);
    if j < e {
      assert gxs[1..] == g.xs[j + 1..e];
      RowAgrees(f, g, h1, j + 1, e, u, cut);
    } else {
      assert gxs[1..] == [];
    }
  }

  /** All of the column of an event after its row. */
  lemma EventColumn(f: Pwlf, g: Pwlf, row: Pwlf, i: nat, u: real, x: real, cut: bool)
    requires i < |f.xs|
    requires RunEnd(f.xs, i, u) == i ==> 0 < i && f.xs[i - 1] < u < f.xs[i]
    requires var fys := ValuesAt(f.xs, f.ys, i, u); Covers(f, g, row, cut) && EndsAt(row, x, fys[0])
    ensures var fys := ValuesAt(f.xs, f.ys, i, u); var h' := EmitColumn(row, x, fys[1..]);
            && ColumnFits(row, x, fys[1..])
            && Covers(f, g, h', cut) && EndsAt(h', x, fys[|fys| - 1]) && SameStart(row, h')
            && |h'.xs| <= |row.xs| + |fys| - 1
  {
    var e := RunEnd(f.xs, i, u);
    var fys := ValuesAt(f.xs, f.ys, i, u);
    if i < e {
      assert fys[1..] == f.ys[i + 1..e];
      ColumnAgrees(f, g, row, i + 1, e, x, cut);
    } else {
      assert fys[1..] == [];
    }
  }

  /** The last value at an event is the value at u read from the piece to its right. */
  lemma LastValue(xs: seq<real>, ys: seq<real>, i: nat, u: real)
    requires |xs| == |ys| && i < |xs|
    requires RunEnd(xs, i, u) == i ==> 0 < i && xs[i - 1] < u < xs[i]
    requires var e := RunEnd(xs, i, u); 0 < e < |xs| ==> xs[e - 1] < xs[e]
    ensures var e, vs := RunEnd(xs, i, u), ValuesAt(xs, ys, i, u);
            && 0 < e
            && |vs| == (if i < e then e - i else 1)
            && vs[|vs| - 1] == if e < |xs| then Line(xs[e - 1], ys[e - 1], xs[e], ys[e], u) else ys[e - 1]
  {
    var e := RunEnd(xs, i, u);
    if i < e < |xs| {
      LineEnds(xs[e - 1], ys[e - 1], xs[e], ys[e]);
    }
  }

  lemma EventEnds(f: Pwlf, g: Pwlf, hi: real, i: nat, j: nat, h: Pwlf)
    requires Aligned(f, g, hi, i, j) && (HasF(f, hi, i) || HasG(g, hi, j))
    requires var fys, gxs := EventFs(f, g, hi, i, j), EventGs(f, g, hi, i, j);
             EndsAt(h, gxs[|gxs| - 1], fys[|fys| - 1])
    ensures var u := NextEvent(f, g, hi, i, j); After(f, g, hi, RunEnd(f.xs, i, u), RunEnd(g.ys, j, u), u, h)
  {
    EventIsInside(f, g, hi, i, j);
    var u := NextEvent(f, g, hi, i, j);
    LastValue(f.xs, f.ys, i, u);
    LastValue(g.ys, g.xs, j, u);
  }

  /** From the first point of an event to the end of the event. */
  lemma FinishEvent(f: Pwlf, g: Pwlf, hi: real, i: nat, j: nat, h: Pwlf, h1: Pwlf, cut: bool)
    requires Aligned(f, g, hi, i, j) && (HasF(f, hi, i) || HasG(g, hi, j))
    requires var x, y := EventGs(f, g, hi, i, j)[0], EventFs(f, g, hi, i, j)[0];
             h1 == Emit(h, x, y) && CanAppend(h, x, y) && Covers(f, g, h1, cut) && EndsAt(h1, x, y)
    ensures var r := Step(f, g, hi, i, j, h);
            && StepFits(f, g, hi, i, j, h)
            && After(f, g, hi, r.0, r.1, NextEvent(f, g, hi, i, j), r.2) && Covers(f, g, r.2, cut) && SameStart(h1, r.2)
            && |r.2.xs| <= |h1.xs| + (r.0 - i) + (r.1 - j) - 1
  {
    hide Eval, Line, LowerBound, Covers, Emit, NextEvent, HasF, HasG;
    EventIsInside(f, g, hi, i, j);
    EventValues(f, g, hi, i, j);
    var u := NextEvent(f, g, hi, i, j);
    var fys, gxs := EventFs(f, g, hi, i, j), EventGs(f, g, hi, i, j);
    EventRow(f, g, h, h1, j, u, cut);
    var row := EmitRow(h, gxs, fys[0]);
    EventColumn(f, g, row, i, u, gxs[|gxs| - 1], cut);
    EventEnds(f, g, hi, i, j, EmitColumn(row, gxs[|gxs| - 1], fys[1..]));
    EventSizes(f, g, hi, i, j);
  }

  lemma EventSizes(f: Pwlf, g: Pwlf, hi: real, i: nat, j: nat)
    requires Aligned(f, g, hi, i, j) && (HasF(f, hi, i) || HasG(g, hi, j))
    ensures var u := NextEvent(f, g, hi, i, j);
            |EventFs(f, g, hi, i, j)| + |EventGs(f, g, hi, i, j)| <= (RunEnd(f.xs, i, u) - i) + (RunEnd(g.ys, j, u) - j) + 1
  {
    EventIsInside(f, g, hi, i, j);
  }

  lemma NextEventAgrees(f: Pwlf, g: Pwlf, hi: real, i: nat, j: nat, u: real, h: Pwlf, cut: bool)
    requires After(f, g, hi, i, j, u, h) && Covers(f, g, h, cut) && (HasF(f, hi, i) || HasG(g, hi, j))
    ensures var (i', j', h') := Step(f, g, hi, i, j, h);
            && StepFits(f, g, hi, i, j, h)
            && After(f, g, hi, i', j', NextEvent(f, g, hi, i, j), h') && Covers(f, g, h', cut) && SameStart(h, h')
            && |h'.xs| <= |h.xs| + (i' - i) + (j' - j)
  {
    EventIsInside(f, g, hi, i, j);
    EventValues(f, g, hi, i, j);
    var u2 := NextEvent(f, g, hi, i, j);
    assert u < u2;
    LineMonotone(g.ys[j - 1], g.xs[j - 1], g.ys[j], g.xs[j], u, u2);
    LineMonotone(f.xs[i - 1], f.ys[i - 1], f.xs[i], f.ys[i], u, u2);
    var X, X2 := Line(g.ys[j - 1], g.xs[j - 1], g.ys[j], g.xs[j], u), Line(g.ys[j - 1], g.xs[j - 1], g.ys[j], g.xs[j], u2);
    forall z | X < z <= X2
      ensures InDom(g, z) && InDom(f, Eval(g, z)) && Eval(f, Eval(g, z)) == Line(X, Line(f.xs[i - 1], f.ys[i - 1], f.xs[i], f.ys[i], u), X2, Eval(f, u2), z)
    {
      ChordAgrees(f, g, i, j, u, u2, z);
    }
    Extend(f, g, h, X2, Eval(f, u2), cut);
    FinishEvent(f, g, hi, i, j, h, Emit(h, X2, Eval(f, u2)), cut);
  }

  /** Beyond (inverse of g)(u) g is above u. */
  lemma PastIsHigher(g: Pwlf, j: nat, u: real, x: real)
    requires 0 < j < |g.xs| && g.ys[j - 1] <= u < g.ys[j]
    requires InDom(g, x) && Line(g.ys[j - 1], g.xs[j - 1], g.ys[j], g.xs[j], u) < x
    ensures Eval(g, x) > u
  {
    var X := Line(g.ys[j - 1], g.xs[j - 1], g.ys[j], g.xs[j], u);
    LineBetween(g.ys[j - 1], g.xs[j - 1], g.ys[j], g.xs[j], u);
    if x <= g.xs[j] {
      EvalOnPiece(g, j, x);
      LineInverse(g.xs[j - 1], g.ys[j - 1], g.xs[j], g.ys[j], u);
      LineMonotone(g.xs[j - 1], g.ys[j - 1], g.xs[j], g.ys[j], X, x);
    } else {
      EvalBounds(g, x);
      var k := LowerBound(g.xs, x);
      assert forall t :: 0 <= t <= j ==> g.xs[t] <= g.xs[j];
      assert g.ys[j] <= g.ys[k - 1];
    }
  }

  lemma {:induction false} MergeAgrees(f: Pwlf, g: Pwlf, i: nat, j: nat, u: real, h: Pwlf, cut: bool)
    requires Meets(f, g) && After(f, g, High(f, g), i, j, u, h) && Covers(f, g, h, cut)
    ensures var r := Merge(f, g, High(f, g), i, j, h);
            && MergeFits(f, g, High(f, g), i, j, h)
            && Covers(f, g, r, cut) && SameStart(h, r)
            && |r.xs| <= |h.xs| + (|f.xs| - i) + (|g.xs| - j)
            && r.ys[|r.ys| - 1] <= f.ys[|f.ys| - 1]
            && (forall x :: InDom(g, x) && x > r.xs[|r.xs| - 1] ==> Eval(g, x) > f.xs[|f.xs| - 1])
    decreases |f.xs| - i + |g.xs| - j
  {
    var hi := High(f, g);
    if HasF(f, hi, i) || HasG(g, hi, j) {
      NextEventAgrees(f, g, hi, i, j, u, h, cut);
      var (i', j', h') := Step(f, g, hi, i, j, h);
      MergeAgrees(f, g, i', j', NextEvent(f, g, hi, i, j), h', cut);
    } else {
      if i < |f.xs| { LineBetween(f.xs[i - 1], f.ys[i - 1], f.xs[i], f.ys[i], u); }
      forall x | InDom(g, x) && x > h.xs[|h.xs| - 1] ensures Eval(g, x) > f.xs[|f.xs| - 1] {
        assert j < |g.xs|;
        assert g.ys[j] <= g.ys[|g.ys| - 1];
        PastIsHigher(g, j, u, x);
      }
    }
  }

  /** Below the first position of the merge g is below the wall. */
  lemma BeforeIsLower(g: Pwlf, j: nat, u: real, x: real)
    requires 0 < j < |g.xs| && g.ys[j - 1] < u <= g.ys[j]
    requires InDom(g, x) && x < Line(g.ys[j - 1], g.xs[j - 1], g.ys[j], g.xs[j], u)
    ensures Eval(g, x) < u
  {
    var X := Line(g.ys[j - 1], g.xs[j - 1], g.ys[j], g.xs[j], u);
    LineBetween(g.ys[j - 1], g.xs[j - 1], g.ys[j], g.xs[j], u);
    if g.xs[j - 1] < x {
      EvalOnPiece(g, j, x);
      LineInverse(g.xs[j - 1], g.ys[j - 1], g.xs[j], g.ys[j], u);
      LineMonotone(g.xs[j - 1], g.ys[j - 1], g.xs[j], g.ys[j], x, X);
    } else {
      EvalBounds(g, x);
      LowerBoundAtMost(g.xs, x, j - 1);
      assert g.ys[LowerBound(g.xs, x)] <= g.ys[j - 1];
    }
  }

  /** The merge starts at the left end of the overlap. */
  lemma FirstEvent(f: Pwlf, g: Pwlf, i: nat, j: nat)
    requires Meets(f, g) && i == LowerBound(f.xs, Low(f, g)) && j == LowerBound(g.ys, Low(f, g))
    ensures Aligned(f, g, High(f, g), i, j) && (HasF(f, High(f, g), i) || HasG(g, High(f, g), j))
    ensures NextEvent(f, g, High(f, g), i, j) == Low(f, g)
    ensures var x := EventGs(f, g, High(f, g), i, j)[0];
            && InDom(g, x)
            && (WallCutsJump(f, g) ==> Eval(g, x) < f.xs[0])
            && (!WallCutsJump(f, g) ==> Eval(g, x) == Low(f, g))
            && (forall z :: InDom(g, z) && z < x ==> Eval(g, z) < f.xs[0])
            && (j == 0 ==> x == g.xs[0])
  {
    var lo, hi := Low(f, g), High(f, g);
    StartAligned(f, g);
    EventValues(f, g, hi, i, j);
    var x := EventGs(f, g, hi, i, j)[0];
    if j == 0 {
      EvalAtFirst(g, 0);
    } else {
      LineBetween(g.ys[j - 1], g.xs[j - 1], g.ys[j], g.xs[j], lo);
      forall z | InDom(g, z) && z < x ensures Eval(g, z) < f.xs[0] {
        BeforeIsLower(g, j, lo, z);
      }
      if g.xs[j - 1] < g.xs[j] {
        LineMonotone(g.ys[j - 1], g.xs[j - 1], g.ys[j], g.xs[j], g.ys[j - 1], lo);
        EvalOnPiece(g, j, x);
        LineInverse(g.xs[j - 1], g.ys[j - 1], g.xs[j], g.ys[j], lo);
      } else {
        LowerBoundAtMost(g.xs, x, j - 1);
        EvalBounds(g, x);
        assert g.ys[LowerBound(g.xs, x)] <= g.ys[j - 1];
      }
    }
  }

  /** The whole merge, from its first event on. */
  lemma MergeRuns(f: Pwlf, g: Pwlf, i: nat, j: nat)
    requires Meets(f, g) && i == LowerBound(f.xs, Low(f, g)) && j == LowerBound(g.ys, Low(f, g))
    requires Aligned(f, g, High(f, g), i, j) && (HasF(f, High(f, g), i) || HasG(g, High(f, g), j))
    ensures var h := Compose(f, g);
            && InDom(f, Low(f, g))
            && Covers(f, g, h, WallCutsJump(f, g))
            && h.xs[0] == EventGs(f, g, High(f, g), i, j)[0] && h.ys[0] == Eval(f, Low(f, g))
            && |h.xs| <= |f.xs| + |g.xs| && ComposeFits(f, g)
            && h.ys[|h.ys| - 1] <= f.ys[|f.ys| - 1]
            && (forall x :: InDom(g, x) && x > h.xs[|h.xs| - 1] ==> Eval(g, x) > f.xs[|f.xs| - 1])
  {
    hide Eval, Line;
    var lo, hi := Low(f, g), High(f, g);
    var cut := WallCutsJump(f, g);
    FirstEvent(f, g, i, j);
    EventValues(f, g, hi, i, j);
    var h1 := Emit(EMPTY, EventGs(f, g, hi, i, j)[0], Eval(f, lo));
    EvalAtFirst(h1, 0);
    assert Covers(f, g, h1, cut);
    FinishEvent(f, g, hi, i, j, EMPTY, h1, cut);
    var r := Step(f, g, hi, i, j, EMPTY);
    MergeAgrees(f, g, r.0, r.1, lo, r.2, cut);
    assert |h1.xs| == 1;
  }

  /** What compose computes, for every pair of functions: it is f after g everywhere on its domain
      except possibly at its first point, it misses no x with g(x) in dom f, and it has at most
      f.n + g.n breakpoints. */
  lemma ComposeMeaning(f: Pwlf, g: Pwlf)
    ensures var h := Compose(f, g);
            && (IsEmpty(h) <==> !Meets(f, g))
            && (forall x :: InDom(g, x) && InDom(f, Eval(g, x)) ==> InDom(h, x))
            && (forall x :: InDom(h, x) && !(WallCutsJump(f, g) && x == h.xs[0]) ==> Agrees(f, g, h, x))
            && (WallCutsJump(f, g) ==> InDom(h, h.xs[0]) && InDom(g, h.xs[0]) && Eval(g, h.xs[0]) < f.xs[0])
            && (Meets(f, g) ==> InDom(f, Low(f, g)) && h.ys[0] == Eval(f, Low(f, g)) && h.ys[|h.ys| - 1] <= f.ys[|f.ys| - 1])
            && (Meets(f, g) && f.xs[0] <= g.ys[0] ==> h.xs[0] == g.xs[0])
            && |h.xs| <= |f.xs| + |g.xs|
  {
    hide Eval, Line, Merge, EventGs, ComposeFits;
    var h := Compose(f, g);
    if !Meets(f, g) {
      forall x | InDom(g, x) ensures g.ys[0] <= Eval(g, x) <= g.ys[|g.ys| - 1] {
        EvalBounds(g, x);
      }
    } else {
      var i, j := LowerBound(f.xs, Low(f, g)), LowerBound(g.ys, Low(f, g));
      FirstEvent(f, g, i, j);
      MergeRuns(f, g, i, j);
    }
  }

  /** The monotone clamp of emit never fires: every emitted point may simply be appended. */
  lemma ClampNeverFires(f: Pwlf, g: Pwlf)
    ensures ComposeFits(f, g)
  {
    hide Eval, Line, Merge, EventGs, MergeFits;
    if Meets(f, g) {
      var i, j := LowerBound(f.xs, Low(f, g)), LowerBound(g.ys, Low(f, g));
      FirstEvent(f, g, i, j);
      MergeRuns(f, g, i, j);
    }
  }

  function AndThen(f: Pwlf, r: Option<real>): Option<real> {
    if r.Some? then Den(f, r.value) else None
  }

  ghost predicate IsAfter(f: Pwlf, g: Pwlf, h: Pwlf) {
    forall x :: Den(h, x) == AndThen(f, Den(g, x))
  }

  /** compose(f, g) denotes f after g exactly when no lower wall of f cuts a vertical step of g. */
  lemma ComposeExactIff(f: Pwlf, g: Pwlf)
    ensures IsAfter(f, g, Compose(f, g)) <==> !WallCutsJump(f, g)
  {
    ComposeMeaning(f, g);
    var h := Compose(f, g);
    if WallCutsJump(f, g) {
      var x := h.xs[0];
      assert Den(h, x) != AndThen(f, Den(g, x));
    } else {
      forall x ensures Den(h, x) == AndThen(f, Den(g, x)) {
        if InDom(h, x) { assert Agrees(f, g, h, x); }
      }
    }
  }

  /** The form used by every fold below: no lower wall binds. */
  lemma ComposeAfter(f: Pwlf, g: Pwlf, x: real)
    requires !IsEmpty(f) && !IsEmpty(g) ==> f.xs[0] <= g.ys[0]
    ensures Den(Compose(f, g), x) == AndThen(f, Den(g, x))
    ensures !IsEmpty(Compose(f, g)) ==>
              && !IsEmpty(f) && !IsEmpty(g)
              && Compose(f, g).xs[0] == g.xs[0]
              && InDom(f, g.ys[0]) && Compose(f, g).ys[0] == Eval(f, g.ys[0])
  {
    ComposeMeaning(f, g);
    ComposeExactIff(f, g);
  }

  /** Composition is associative up to pointwise equality while no lower wall binds. */
  lemma ComposeAssociative(a: Pwlf, b: Pwlf, c: Pwlf, x: real)
    requires !IsEmpty(a) && !IsEmpty(b) ==> a.xs[0] <= b.ys[0]
    requires !IsEmpty(b) && !IsEmpty(c) ==> b.xs[0] <= c.ys[0]
    ensures Den(Compose(a, Compose(b, c)), x) == Den(Compose(Compose(a, b), c), x)
  {
    hide Eval, Compose;
    ComposeAfter(b, c, x);
    if !IsEmpty(Compose(b, c)) { EvalBounds(b, c.ys[0]); }
    ComposeAfter(a, Compose(b, c), x);
    ComposeAfter(a, b, x);
    ComposeAfter(Compose(a, b), c, x);
    if InDom(c, x) { ComposeAfter(a, b, Eval(c, x)); }
  }

  /** A concrete pair for which compose is not f after g: the step of g at 5 jumps over the wall. */
  lemma WallCanCutAJump()
    ensures var f: Pwlf, g: Pwlf := Points([2.0, 10.0], [2.0, 10.0]), Points([0.0, 5.0, 5.0], [0.0, 1.0, 3.0]);
            Den(Compose(f, g), 5.0) == Some(2.0) && Den(g, 5.0) == Some(1.0) && Den(f, 1.0) == None
  {
    hide LowerBound, Compose;
    var f: Pwlf, g: Pwlf := Points([2.0, 10.0], [2.0, 10.0]), Points([0.0, 5.0, 5.0], [0.0, 1.0, 3.0]);
    LowerBoundIs(g.ys, 2.0, 2);
    LowerBoundIs(f.xs, 2.0, 0);
    FirstEvent(f, g, 0, 2);
    MergeRuns(f, g, 0, 2);
    EventValues(f, g, 3.0, 0, 2);
    EvalAtFirst(g, 1);
    EvalAtFirst(f, 0);
    EvalAtFirst(Compose(f, g), 0);
  }

  // ---------- the loop itself ----------

  /** Advance a cursor to the first entry not below the given value. */
  method SkipBelow(s: seq<real>, v: real) returns (i: nat)
    requires exists k :: 0 <= k < |s| && v <= s[k]
    ensures i == LowerBound(s, v)
  {
    i := 0;
    while s[i] < v
      invariant i < |s|
      invariant forall k :: 0 <= k < i ==> s[k] < v
      decreases |s| - i
    {
      i := i + 1;
    }
    LowerBoundFrom(s, v, i);
  }

  lemma LowerBoundFrom(s: seq<real>, v: real, i: nat)
    requires i < |s| && v <= s[i] && forall k :: 0 <= k < i ==> s[k] < v
    ensures LowerBound(s, v) == i
  {
  }

  /** Consume the run of entries equal to u, collecting the partner values. */
  method TakeRun(keys: seq<real>, vals: seq<real>, start: nat, u: real) returns (i: nat, out: seq<real>)
    requires |keys| == |vals| && start <= |keys|
    ensures i == RunEnd(keys, start, u) && out == vals[start..i]
  {
    i, out := start, [];
    while i < |keys| && keys[i] == u
      invariant start <= i <= |keys|
      invariant RunEnd(keys, i, u) == RunEnd(keys, start, u)
      invariant out == vals[start..i]
    {
      out := out + [vals[i]];
      i := i + 1;
    }
  }

  method EmitAll(h0: Pwlf, gxs: seq<real>, fys: seq<real>) returns (h: Pwlf)
    requires |gxs| > 0 && |fys| > 0
    ensures h == EmitColumn(EmitRow(h0, gxs, fys[0]), gxs[|gxs| - 1], fys[1..])
  {
    h := h0;
    for k := 0 to |gxs|
      invariant EmitRow(h, gxs[k..], fys[0]) == EmitRow(h0, gxs, fys[0])
    {
      h := Emit(h, gxs[k], fys[0]);
      assert gxs[k..][1..] == gxs[k + 1..];
    }
    ghost var row := h;
    for k := 1 to |fys|
      invariant EmitColumn(h, gxs[|gxs| - 1], fys[k..]) == EmitColumn(row, gxs[|gxs| - 1], fys[1..])
    {
      h := Emit(h, gxs[|gxs| - 1], fys[k]);
      assert fys[k..][1..] == fys[k + 1..];
    }
  }

  /** The breakpoints and interpolated values taking part in the next event. */
  method TakeEvent(f: Pwlf, g: Pwlf, hi: real, i: nat, j: nat) returns (i': nat, j': nat, fys: seq<real>, gxs: seq<real>)
    requires Aligned(f, g, hi, i, j) && (HasF(f, hi, i) || HasG(g, hi, j))
    ensures fys == EventFs(f, g, hi, i, j) && gxs == EventGs(f, g, hi, i, j)
    ensures i' == RunEnd(f.xs, i, NextEvent(f, g, hi, i, j)) && j' == RunEnd(g.ys, j, NextEvent(f, g, hi, i, j))
  {
    EventIsInside(f, g, hi, i, j);
    var u := NextEvent(f, g, hi, i, j);
    i', fys := TakeRun(f.xs, f.ys, i, u);
    j', gxs := TakeRun(g.ys, g.xs, j, u);
    if fys == [] {
      fys := [Line(f.xs[i' - 1], f.ys[i' - 1], f.xs[i'], f.ys[i'], u)];
    }
    if gxs == [] {
      gxs := [Line(g.ys[j' - 1], g.xs[j' - 1], g.ys[j'], g.xs[j'], u)];
    }
  }

  /** compose as the two-cursor loop; every index and every division in it is safe. */
  method ComposeLoop(f: Pwlf, g: Pwlf) returns (h: Pwlf)
    ensures h == Compose(f, g)
    ensures !WallCutsJump(f, g) ==> IsAfter(f, g, h)
  {
    ComposeExactIff(f, g);
    if IsEmpty(f) || IsEmpty(g) { return EMPTY; }
    var lo, hi := Max(f.xs[0], g.ys[0]), Min(f.xs[|f.xs| - 1], g.ys[|g.ys| - 1]);
    if lo > hi { return EMPTY; }
    StartAligned(f, g);
    var i := SkipBelow(f.xs, lo);
    var j := SkipBelow(g.ys, lo);
    h := EMPTY;
    while HasF(f, hi, i) || HasG(g, hi, j)
      invariant Aligned(f, g, hi, i, j)
      invariant Merge(f, g, hi, i, j, h) == Compose(f, g)
      decreases |f.xs| - i + |g.xs| - j
    {
      ghost var next := Step(f, g, hi, i, j, h);
      var i', j', fys, gxs := TakeEvent(f, g, hi, i, j);
      h := EmitAll(h, gxs, fys);
      assert next == (i', j', h);
      i, j := i', j';
    }
  }
}
