/** min_penalised (cpp/pwlf/warp.cpp): min over departures of (rho(t) - t) + penalty * warp(t),
    scanned over the union of both breakpoint grids. */
module PenalisedScan {
  import opened Common
  import opened Pwlfs
  import opened Scans

  /** The warp channel weighted once, so that the scan below is linear. */
  function Scaled(w: Pwlf, p: real): (r: Pwlf)
    requires p >= 0.0
    ensures r.xs == w.xs && |r.ys| == |w.ys| && forall k :: 0 <= k < |w.ys| ==> r.ys[k] == p * w.ys[k]
  {
    var ys := seq(|w.ys|, k requires 0 <= k < |w.ys| => p * w.ys[k]);
    assert Sorted(ys) by {
      forall i, j | 0 <= i <= j < |ys| ensures ys[i] <= ys[j] {
        assert p * (w.ys[j] - w.ys[i]) >= 0.0;
      }
    }
    Points(w.xs, ys)
  }

  lemma ScaledEval(w: Pwlf, p: real, x: real)
    requires p >= 0.0 && InDom(w, x)
    ensures InDom(Scaled(w, p), x) && Eval(Scaled(w, p), x) == p * Eval(w, x)
  {
    var i := LowerBound(w.xs, x);
    if w.xs[i] != x {
      var t := (x - w.xs[i - 1]) / (w.xs[i] - w.xs[i - 1]);
      var a, b := w.ys[i - 1], w.ys[i];
      assert p * a + t * (p * b - p * a) == p * (a + t * (b - a));
    }
  }

  /** The objective at x, for an already weighted warp channel. */
  function Phi(rho: Pwlf, w: Pwlf, x: real): real
    requires InDom(rho, x) && InDom(w, x)
  {
    Eval(rho, x) - x + Eval(w, x)
  }

  /** `consider`: keep the strictly better candidate. */
  function Consider(best: Option<MinShift>, x: real, value: real): Option<MinShift> {
    if best.None? || value < best.value.value then Some(MinShift(value, x)) else best
  }

  function ScanRho(rho: Pwlf, w: Pwlf, k: nat, best: Option<MinShift>): Option<MinShift>
    requires k <= |rho.xs|
    decreases |rho.xs| - k
  {
    if k == |rho.xs| then best
    else
      var x := rho.xs[k];
      ScanRho(rho, w, k + 1, if InDom(w, x) then Consider(best, x, rho.ys[k] - x + Eval(w, x)) else best)
  }

  function ScanWarp(rho: Pwlf, w: Pwlf, k: nat, best: Option<MinShift>): Option<MinShift>
    requires k <= |w.xs|
    decreases |w.xs| - k
  {
    if k == |w.xs| then best
    else
      var x := w.xs[k];
      ScanWarp(rho, w, k + 1, if InDom(rho, x) then Consider(best, x, Eval(rho, x) - x + w.ys[k]) else best)
  }

  function MinPenalised(rho: Pwlf, warp: Pwlf, penalty: real): Option<MinShift>
    requires penalty >= 0.0
  {
    var w := Scaled(warp, penalty);
    ScanWarp(rho, w, 0, ScanRho(rho, w, 0, None))
  }

  /** A remembered value is never below the objective at its own departure. */
  ghost predicate Honest(rho: Pwlf, w: Pwlf, b: Option<MinShift>) {
    b.Some? ==> InDom(rho, b.value.argmin) && InDom(w, b.value.argmin)
                && Phi(rho, w, b.value.argmin) <= b.value.value
  }

  ghost predicate NoWorse(b: Option<MinShift>, v: real) {
    b.Some? && b.value.value <= v
  }

  lemma UpperAtBreakpoint(f: Pwlf, k: nat)
    requires k < |f.xs|
    ensures InDom(f, f.xs[k]) && Eval(f, f.xs[k]) <= f.ys[k]
  {
    LowerBoundAtMost(f.xs, f.xs[k], k);
    EvalBounds(f, f.xs[k]);
    assert f.ys[LowerBound(f.xs, f.xs[k])] <= f.ys[k];
  }

  lemma {:induction false} ScanRhoFinds(rho: Pwlf, w: Pwlf, k: nat, best: Option<MinShift>)
    requires k <= |rho.xs| && Honest(rho, w, best)
    ensures var r := ScanRho(rho, w, k, best);
            && Honest(rho, w, r)
            && (best.Some? ==> NoWorse(r, best.value.value))
            && (forall t :: k <= t < |rho.xs| && InDom(w, rho.xs[t]) ==>
                  NoWorse(r, rho.ys[t] - rho.xs[t] + Eval(w, rho.xs[t])))
    decreases |rho.xs| - k
  {
    hide Eval;
    if k < |rho.xs| {
      var x := rho.xs[k];
      UpperAtBreakpoint(rho, k);
      ScanRhoFinds(rho, w, k + 1, if InDom(w, x) then Consider(best, x, rho.ys[k] - x + Eval(w, x)) else best);
    }
  }

  lemma {:induction false} ScanWarpFinds(rho: Pwlf, w: Pwlf, k: nat, best: Option<MinShift>)
    requires k <= |w.xs| && Honest(rho, w, best)
    ensures var r := ScanWarp(rho, w, k, best);
            && Honest(rho, w, r)
            && (best.Some? ==> NoWorse(r, best.value.value))
            && (forall t :: k <= t < |w.xs| && InDom(rho, w.xs[t]) ==>
                  NoWorse(r, Eval(rho, w.xs[t]) - w.xs[t] + w.ys[t]))
    decreases |w.xs| - k
  {
    hide Eval;
    if k < |w.xs| {
      var x := w.xs[k];
      UpperAtBreakpoint(w, k);
      ScanWarpFinds(rho, w, k + 1, if InDom(rho, x) then Consider(best, x, Eval(rho, x) - x + w.ys[k]) else best);
    }
  }

  /** Both grids have been scanned with best value v. */
  ghost predicate Scanned(rho: Pwlf, w: Pwlf, v: real) {
    && (forall t :: 0 <= t < |rho.xs| && InDom(w, rho.xs[t]) ==> v <= rho.ys[t] - rho.xs[t] + Eval(w, rho.xs[t]))
    && (forall t :: 0 <= t < |w.xs| && InDom(rho, w.xs[t]) ==> v <= Eval(rho, w.xs[t]) - w.xs[t] + w.ys[t])
  }

  /** Value of f on piece i continued to its left end (the upper value when the left end is a step). */
  lemma PieceAt(f: Pwlf, i: nat, a: real)
    requires 0 < i < |f.xs| && f.xs[i - 1] <= a < f.xs[i]
    ensures InDom(f, a)
    ensures Eval(f, a) <= Line(f.xs[i - 1], f.ys[i - 1], f.xs[i], f.ys[i], a)
    ensures f.xs[i - 1] == a ==> Line(f.xs[i - 1], f.ys[i - 1], f.xs[i], f.ys[i], a) == f.ys[i - 1]
    ensures f.xs[i - 1] < a ==> Line(f.xs[i - 1], f.ys[i - 1], f.xs[i], f.ys[i], a) == Eval(f, a)
  {
    LineEnds(f.xs[i - 1], f.ys[i - 1], f.xs[i], f.ys[i]);
    if f.xs[i - 1] == a {
      UpperAtBreakpoint(f, i - 1);
    } else {
      EvalOnPiece(f, i, a);
    }
  }

  lemma LineSum(x0: real, y0: real, z0: real, x1: real, y1: real, z1: real, x: real)
    requires x0 < x1
    ensures Line(x0, y0, x1, y1, x) + Line(x0, z0, x1, z1, x) == Line(x0, y0 + z0, x1, y1 + z1, x)
  {
    var t := (x - x0) / (x1 - x0);
    assert t * (y1 - y0) + t * (z1 - z0) == t * ((y1 + z1) - (y0 + z0));
  }

  /** Strictly inside a piece of both functions the objective is a chord between its two ends. */
  lemma InsideBoth(rho: Pwlf, w: Pwlf, i: nat, j: nat, x: real, v: real)
    requires 0 < i < |rho.xs| && rho.xs[i - 1] < x < rho.xs[i]
    requires 0 < j < |w.xs| && w.xs[j - 1] < x < w.xs[j]
    requires Scanned(rho, w, v)
    ensures InDom(rho, x) && InDom(w, x) && Phi(rho, w, x) >= v
  {
    hide Eval, Line;
    var a := if rho.xs[i - 1] < w.xs[j - 1] then w.xs[j - 1] else rho.xs[i - 1];
    var b := if w.xs[j] < rho.xs[i] then w.xs[j] else rho.xs[i];
    EvalOnPiece(rho, i, x); EvalOnPiece(w, j, x);
    EvalOnPiece(rho, i, b); EvalOnPiece(w, j, b);
    PieceAt(rho, i, a); PieceAt(w, j, a);
    var ra, wa := Line(rho.xs[i - 1], rho.ys[i - 1], rho.xs[i], rho.ys[i], a), Line(w.xs[j - 1], w.ys[j - 1], w.xs[j], w.ys[j], a);
    assert v <= ra - a + wa;
    LineEnds(rho.xs[i - 1], rho.ys[i - 1], rho.xs[i], rho.ys[i]);
    LineEnds(w.xs[j - 1], w.ys[j - 1], w.xs[j], w.ys[j]);
    assert v <= Eval(rho, b) - b + Eval(w, b);
    LineChord(rho.xs[i - 1], rho.ys[i - 1], rho.xs[i], rho.ys[i], a, b, x);
    LineChord(w.xs[j - 1], w.ys[j - 1], w.xs[j], w.ys[j], a, b, x);
    LineSum(a, ra, wa, b, Eval(rho, b), Eval(w, b), x);
    ChordShift(a, ra + wa, b, Eval(rho, b) + Eval(w, b), x, v);
  }

  lemma ScannedIsMinimum(rho: Pwlf, w: Pwlf, v: real, x: real)
    requires Scanned(rho, w, v) && InDom(rho, x) && InDom(w, x)
    ensures Phi(rho, w, x) >= v
  {
    var i, j := LowerBound(rho.xs, x), LowerBound(w.xs, x);
    if rho.xs[i] == x {
    } else if w.xs[j] == x {
    } else {
      InsideBoth(rho, w, i, j, x, v);
    }
  }

  /** The penalised optimum over the common domain. */
  ghost predicate IsPenalisedOptimum(rho: Pwlf, warp: Pwlf, penalty: real, m: MinShift) {
    && InDom(rho, m.argmin) && InDom(warp, m.argmin)
    && Eval(rho, m.argmin) - m.argmin + penalty * Eval(warp, m.argmin) == m.value
    && forall x :: InDom(rho, x) && InDom(warp, x) ==> Eval(rho, x) - x + penalty * Eval(warp, x) >= m.value
  }

  /** min_penalised finds the minimum over all real departures, jumps included, and attains it;
      it has nothing to return (the source throws) exactly when the domains do not meet. */
  lemma MinPenalisedMeaning(rho: Pwlf, warp: Pwlf, penalty: real)
    requires penalty >= 0.0
    ensures var r := MinPenalised(rho, warp, penalty);
            && (r.None? <==> forall x :: !(InDom(rho, x) && InDom(warp, x)))
            && (r.Some? ==> IsPenalisedOptimum(rho, warp, penalty, r.value))
  {
    hide Eval, Scaled, LowerBound, ScanRho, ScanWarp;
    var w := Scaled(warp, penalty);
    ScanRhoFinds(rho, w, 0, None);
    ScanWarpFinds(rho, w, 0, ScanRho(rho, w, 0, None));
    var r := MinPenalised(rho, warp, penalty);
    forall x | InDom(rho, x) && InDom(warp, x)
      ensures r.Some? && Eval(rho, x) - x + penalty * Eval(warp, x) >= r.value.value
    {
      ScaledEval(warp, penalty, x);
      if rho.xs[0] <= warp.xs[0] {
        assert InDom(rho, w.xs[0]);
      } else {
        assert InDom(w, rho.xs[0]);
      }
      assert r.Some?;
      assert Scanned(rho, w, r.value.value);
      ScannedIsMinimum(rho, w, r.value.value, x);
    }
    if r.Some? {
      ScaledEval(warp, penalty, r.value.argmin);
      assert InDom(warp, r.value.argmin);
    }
  }

  method MinPenalisedLoop(rho: Pwlf, warp: Pwlf, penalty: real) returns (r: Option<MinShift>)
    requires penalty >= 0.0
    ensures r == MinPenalised(rho, warp, penalty)
    ensures r.None? <==> forall x :: !(InDom(rho, x) && InDom(warp, x))
    ensures r.Some? ==> IsPenalisedOptimum(rho, warp, penalty, r.value)
  {
    r := ConsiderAll(rho, warp, penalty);
    MinPenalisedMeaning(rho, warp, penalty);
  }

  method ConsiderAll(rho: Pwlf, warp: Pwlf, penalty: real) returns (r: Option<MinShift>)
    requires penalty >= 0.0
    ensures r == MinPenalised(rho, warp, penalty)
  {
    hide ScanRho, ScanWarp, Scaled;
    var half := ConsiderRho(rho, warp, penalty);
    r := ConsiderWarp(rho, warp, penalty, half);
  }

  /** Candidates at the breakpoints of rho. */
  method ConsiderRho(rho: Pwlf, warp: Pwlf, penalty: real) returns (r: Option<MinShift>)
    requires penalty >= 0.0
    ensures r == ScanRho(rho, Scaled(warp, penalty), 0, None)
  {
    hide Eval, Scaled;
    ghost var w := Scaled(warp, penalty);
    ScaledDomain(warp, penalty);
    r := None;
    for k := 0 to |rho.xs|
      invariant ScanRho(rho, w, k, r) == ScanRho(rho, w, 0, None)
    {
      var x := rho.xs[k];
      if InDom(warp, x) {
        ScaledEval(warp, penalty, x);
        r := Consider(r, x, rho.ys[k] - x + penalty * Eval(warp, x));
      }
    }
  }

  lemma ScaledDomain(warp: Pwlf, penalty: real)
    requires penalty >= 0.0
    ensures forall x :: InDom(Scaled(warp, penalty), x) <==> InDom(warp, x)
    ensures |Scaled(warp, penalty).xs| == |warp.xs|
  {
  }

  /** Candidates at the breakpoints of warp. */
  method ConsiderWarp(rho: Pwlf, warp: Pwlf, penalty: real, half: Option<MinShift>) returns (r: Option<MinShift>)
    requires penalty >= 0.0
    ensures r == ScanWarp(rho, Scaled(warp, penalty), 0, half)
  {
    hide Eval, Scaled;
    ghost var w := Scaled(warp, penalty);
    ScaledDomain(warp, penalty);
    r := half;
    for k := 0 to |warp.xs|
      invariant ScanWarp(rho, w, k, r) == ScanWarp(rho, w, 0, half)
    {
      var x := warp.xs[k];
      assert w.xs[k] == x && w.ys[k] == penalty * warp.ys[k];
      if InDom(rho, x) {
        r := Consider(r, x, Eval(rho, x) - x + penalty * warp.ys[k]);
      }
    }
  }
}
