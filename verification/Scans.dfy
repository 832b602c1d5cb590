/** Breakpoint scans (cpp/pwlf/pwlf.cpp, cpp/pwlf/warp.cpp): each finds a minimum over all real
    departures although it only looks at breakpoints. */
module Scans {
  import opened Common
  import opened Pwlfs

  datatype MinShift = MinShift(value: real, argmin: real)

  function ShiftAt(f: Pwlf, k: nat): real
    requires k < |f.xs|
  {
    f.ys[k] - f.xs[k]
  }

  /** The running best of min_shifted_image after k breakpoints. */
  function BestShift(f: Pwlf, k: nat): MinShift
    requires 0 < k <= |f.xs|
  {
    if k == 1 then MinShift(ShiftAt(f, 0), f.xs[0])
    else
      var b := BestShift(f, k - 1);
      if ShiftAt(f, k - 1) < b.value then MinShift(ShiftAt(f, k - 1), f.xs[k - 1]) else b
  }

  /** (v, x) is the minimum of f(z) - z over the departures z of f up to tau, and x the least
      departure attaining it. */
  ghost predicate IsLeastMinimiser(f: Pwlf, tau: real, m: MinShift) {
    && InDom(f, m.argmin) && m.argmin <= tau && Eval(f, m.argmin) - m.argmin == m.value
    && forall z :: InDom(f, z) && z <= tau ==>
         Eval(f, z) - z > m.value || (Eval(f, z) - z == m.value && m.argmin <= z)
  }

  /** At the level of breakpoints: the earliest index with the least shift. */
  ghost predicate IsEarliestIndex(f: Pwlf, k: nat, t: nat, m: MinShift) {
    && t < k <= |f.xs| && m == MinShift(ShiftAt(f, t), f.xs[t])
    && (forall s :: 0 <= s < t ==> ShiftAt(f, s) > m.value)
    && (forall s :: 0 <= s < k ==> ShiftAt(f, s) >= m.value)
  }

  lemma BestShiftIsEarliest(f: Pwlf, k: nat) returns (t: nat)
    requires 0 < k <= |f.xs|
    ensures IsEarliestIndex(f, k, t, BestShift(f, k))
  {
    if k == 1 {
      t := 0;
    } else {
      t := BestShiftIsEarliest(f, k - 1);
      if ShiftAt(f, k - 1) < BestShift(f, k - 1).value { t := k - 1; }
    }
  }

  /** A chord minus the identity lies above the lesser end; if it touches that level inside the
      piece, the left end already does. */
  lemma ChordShift(x0: real, y0: real, x1: real, y1: real, z: real, v: real)
    requires x0 < z < x1 && y0 - x0 >= v && y1 - x1 >= v
    ensures Line(x0, y0, x1, y1, z) - z >= v
    ensures Line(x0, y0, x1, y1, z) - z == v ==> y0 - x0 == v
  {
    var t := (z - x0) / (x1 - x0);
    Quotient(z - x0, x1 - x0);
    var a, b := y0 - x0 - v, y1 - x1 - v;
    assert z == x0 + t * (x1 - x0);
    assert Line(x0, y0, x1, y1, z) - z - v == (1.0 - t) * a + t * b by {
      assert t * (y1 - y0) - t * (x1 - x0) == t * (b - a);
    }
    assert (1.0 - t) * a >= 0.0 && t * b >= 0.0;
    if a > 0.0 { assert (1.0 - t) * a > 0.0; }
  }

  /** The breakpoints before tau are the first k of them. */
  ghost predicate Cut(f: Pwlf, k: nat, tau: real) {
    0 < k <= |f.xs| && f.xs[k - 1] <= tau && (k < |f.xs| ==> tau < f.xs[k])
  }

  lemma NotBefore(f: Pwlf, k: nat, t: nat, tau: real, m: MinShift, z: real)
    requires IsEarliestIndex(f, k, t, m) && Cut(f, k, tau)
    requires InDom(f, tau) ==> Eval(f, tau) - tau >= m.value
    requires InDom(f, z) && z <= tau
    ensures Eval(f, z) - z > m.value || (Eval(f, z) - z == m.value && m.argmin <= z)
  {
    var i := LowerBound(f.xs, z);
    assert forall s :: k <= s < |f.xs| ==> f.xs[k] <= f.xs[s];
    if f.xs[i] == z {
      assert ShiftAt(f, i) >= m.value;
      if t > i { assert ShiftAt(f, i) > m.value; }
    } else {
      assert ShiftAt(f, i - 1) >= m.value;
      if i < k {
        ChordShift(f.xs[i - 1], f.ys[i - 1], f.xs[i], f.ys[i], z, m.value);
        if t > i - 1 { assert ShiftAt(f, i - 1) > m.value; }
      } else if z < tau {
        CrossingPiece(f, k, tau, z, m.value);
        assert f.xs[t] <= f.xs[k - 1];
      } else {
        assert f.xs[t] <= f.xs[k - 1];
      }
    }
  }

  /** On the piece that crosses tau, up to tau, nothing beats the two ends. */
  lemma CrossingPiece(f: Pwlf, k: nat, tau: real, z: real, v: real)
    requires 0 < k < |f.xs| && f.xs[k - 1] < z < tau < f.xs[k]
    requires ShiftAt(f, k - 1) >= v && (InDom(f, tau) ==> Eval(f, tau) - tau >= v)
    ensures InDom(f, z) && Eval(f, z) - z >= v
    ensures Eval(f, z) - z == v ==> ShiftAt(f, k - 1) == v
  {
    hide Line;
    EvalOnPiece(f, k, tau);
    EvalOnPiece(f, k, z);
    LineChord(f.xs[k - 1], f.ys[k - 1], f.xs[k], f.ys[k], f.xs[k - 1], tau, z);
    LineEnds(f.xs[k - 1], f.ys[k - 1], f.xs[k], f.ys[k]);
    ChordShift(f.xs[k - 1], f.ys[k - 1], tau, Eval(f, tau), z, v);
  }

  /** The earliest best among the first k breakpoints is the least minimiser over all real
      departures up to tau, when those breakpoints are the ones up to tau and tau is no better. */
  lemma EarliestIsLeast(f: Pwlf, k: nat, t: nat, tau: real, m: MinShift)
    requires IsEarliestIndex(f, k, t, m) && Cut(f, k, tau)
    requires InDom(f, tau) ==> Eval(f, tau) - tau >= m.value
    ensures IsLeastMinimiser(f, tau, m)
  {
    hide Line;
    assert t > 0 ==> ShiftAt(f, t - 1) > m.value;
    EvalAtFirst(f, t);
    assert f.xs[t] <= f.xs[k - 1];
    forall z | InDom(f, z) && z <= tau
      ensures Eval(f, z) - z > m.value || (Eval(f, z) - z == m.value && m.argmin <= z)
    {
      NotBefore(f, k, t, tau, m, z);
    }
  }

  /** min_shifted_image; the source throws on the empty function. */
  function MinShiftedImage(f: Pwlf): (r: Option<MinShift>)
  {
    if IsEmpty(f) then None else Some(BestShift(f, |f.xs|))
  }

  /** The optimal duration and the earliest optimal departure over the continuum. */
  ghost predicate IsOptimum(f: Pwlf, m: MinShift) {
    && InDom(f, m.argmin) && Eval(f, m.argmin) - m.argmin == m.value
    && forall z :: InDom(f, z) ==>
         Eval(f, z) - z > m.value || (Eval(f, z) - z == m.value && m.argmin <= z)
  }

  lemma MinShiftedImageIsOptimum(f: Pwlf)
    requires !IsEmpty(f)
    ensures IsOptimum(f, MinShiftedImage(f).value)
  {
    var n := |f.xs|;
    var t := BestShiftIsEarliest(f, n);
    var m := BestShift(f, n);
    var tau := f.xs[n - 1];
    EvalBounds(f, tau);
    var i := LowerBound(f.xs, tau);
    assert ShiftAt(f, i) >= m.value;
    assert f.xs[i] == tau;
    EarliestIsLeast(f, n, t, tau, m);
  }

  method MinShiftedImageLoop(f: Pwlf) returns (r: Option<MinShift>)
    ensures r == MinShiftedImage(f)
    ensures r.Some? ==> IsOptimum(f, r.value)
    ensures r.None? <==> IsEmpty(f)
  {
    if IsEmpty(f) { return None; }
    var best, bestX := f.ys[0] - f.xs[0], f.xs[0];
    for k := 1 to |f.xs|
      invariant MinShift(best, bestX) == BestShift(f, k)
    {
      var value := f.ys[k] - f.xs[k];
      if value < best {
        best, bestX := value, f.xs[k];
      }
    }
    MinShiftedImageIsOptimum(f);
    return Some(MinShift(best, bestX));
  }

  /** Pointwise equal functions have the same optimum, departure included. */
  lemma OptimumIsPointwise(f: Pwlf, g: Pwlf)
    requires forall x :: Den(f, x) == Den(g, x)
    ensures MinShiftedImage(f) == MinShiftedImage(g)
  {
    assert !IsEmpty(f) ==> Den(f, f.xs[0]).Some?;
    assert !IsEmpty(g) ==> Den(g, g.xs[0]).Some?;
    if !IsEmpty(f) {
      MinShiftedImageIsOptimum(f);
      MinShiftedImageIsOptimum(g);
      var a, b := MinShiftedImage(f).value, MinShiftedImage(g).value;
      assert Den(f, b.argmin) == Den(g, b.argmin);
      assert Den(f, a.argmin) == Den(g, a.argmin);
    }
  }

  // ---------- the zero-warp scan ----------

  /** Last index of the zero prefix of ys, given that index k is in it. */
  function ZeroRunEnd(w: Pwlf, k: nat): (e: nat)
    requires k < |w.ys|
    ensures k <= e < |w.ys| && (w.ys[k] == 0.0 ==> w.ys[e] == 0.0)
    ensures e + 1 < |w.ys| ==> w.ys[e + 1] != 0.0
    decreases |w.ys| - k
  {
    if k + 1 < |w.ys| && w.ys[k + 1] == 0.0 then ZeroRunEnd(w, k + 1) else k
  }

  function ZeroPrefixEnd(w: Pwlf): Option<real> {
    if IsEmpty(w) || w.ys[0] != 0.0 then None else Some(w.xs[ZeroRunEnd(w, 0)])
  }

  /** For a non-negative function the zero set is exactly the domain up to the returned point. */
  lemma ZeroPrefixEndMeaning(w: Pwlf)
    requires !IsEmpty(w) ==> w.ys[0] >= 0.0
    ensures match ZeroPrefixEnd(w)
            case None => forall x :: InDom(w, x) ==> Eval(w, x) > 0.0
            case Some(tau) => InDom(w, tau) && forall x :: InDom(w, x) ==> (Eval(w, x) == 0.0 <==> x <= tau)
  {
    if !IsEmpty(w) {
      forall x | InDom(w, x) ensures Eval(w, x) >= w.ys[0] {
        EvalBounds(w, x);
      }
      if w.ys[0] == 0.0 {
        var e := ZeroRunEnd(w, 0);
        var tau := w.xs[e];
        forall x | InDom(w, x) ensures Eval(w, x) == 0.0 <==> x <= tau {
          var i := LowerBound(w.xs, x);
          EvalBounds(w, x);
          if x <= tau {
            LowerBoundAtMost(w.xs, x, e);
          } else {
            assert forall s :: 0 <= s <= e ==> w.xs[s] <= tau;
            assert w.ys[e + 1] > 0.0;
            assert w.ys[e + 1] <= w.ys[i];
            if w.xs[i] != x {
              if i == e + 1 {
                LineBetween(w.xs[i - 1], w.ys[i - 1], w.xs[i], w.ys[i], x);
              } else {
                assert w.ys[e + 1] <= w.ys[i - 1];
              }
            }
          }
        }
      }
    }
  }

  method ZeroPrefixEndLoop(w: Pwlf) returns (r: Option<real>)
    ensures r == ZeroPrefixEnd(w)
  {
    if IsEmpty(w) || w.ys[0] != 0.0 { return None; }
    var k := 0;
    while k + 1 < |w.ys| && w.ys[k + 1] == 0.0
      invariant k < |w.ys|
      invariant ZeroRunEnd(w, k) == ZeroRunEnd(w, 0)
    {
      k := k + 1;
    }
    return Some(w.xs[k]);
  }

  /** How many leading breakpoints lie at or before tau. */
  function UpTo(s: seq<real>, tau: real): (k: nat)
    ensures k <= |s|
    ensures forall t :: 0 <= t < k ==> s[t] <= tau
    ensures k < |s| ==> tau < s[k]
  {
    if |s| == 0 || tau < s[0] then 0 else 1 + UpTo(s[1..], tau)
  }

  /** min_zero_warp_duration: the breakpoints up to the end of the zero prefix, then that end
      itself when it is not a breakpoint. */
  function MinZeroWarpDuration(rho: Pwlf, warp: Pwlf): Option<MinShift> {
    var tau := ZeroPrefixEnd(warp);
    if IsEmpty(rho) || tau.None? then None
    else
      var k := UpTo(rho.xs, tau.value);
      if k == 0 then None
      else
        var b := BestShift(rho, k);
        if rho.xs[k - 1] != tau.value && InDom(rho, tau.value) && Eval(rho, tau.value) - tau.value < b.value
        then Some(MinShift(Eval(rho, tau.value) - tau.value, tau.value))
        else Some(b)
  }

  /** m is the least departure among the zero-warp departures that attains the least duration. */
  ghost predicate IsZeroWarpOptimum(rho: Pwlf, warp: Pwlf, m: MinShift) {
    && InDom(rho, m.argmin) && InDom(warp, m.argmin) && Eval(warp, m.argmin) == 0.0
    && Eval(rho, m.argmin) - m.argmin == m.value
    && forall z :: InDom(rho, z) && InDom(warp, z) && Eval(warp, z) == 0.0 ==>
         Eval(rho, z) - z > m.value || (Eval(rho, z) - z == m.value && m.argmin <= z)
  }

  ghost predicate SameDomain(f: Pwlf, g: Pwlf) {
    forall x :: InDom(f, x) <==> InDom(g, x)
  }

  /** The accounting contract: nothing when no departure has zero warp, else the optimum. */
  ghost predicate AnswersZeroWarp(rho: Pwlf, warp: Pwlf, r: Option<MinShift>) {
    if r.None? then forall z :: InDom(rho, z) && InDom(warp, z) ==> Eval(warp, z) > 0.0
    else IsZeroWarpOptimum(rho, warp, r.value)
  }

  /** The scan restricted to departures up to tau. */
  lemma BoundedScan(rho: Pwlf, tau: real, k: nat)
    requires InDom(rho, tau) && k == UpTo(rho.xs, tau)
    ensures k > 0
    ensures var b := BestShift(rho, k); var v := Eval(rho, tau) - tau;
            IsLeastMinimiser(rho, tau, if rho.xs[k - 1] != tau && v < b.value then MinShift(v, tau) else b)
  {
    var t := BestShiftIsEarliest(rho, k);
    var b := BestShift(rho, k);
    var i := LowerBound(rho.xs, tau);
    assert forall s :: 0 <= s < k ==> rho.xs[s] <= rho.xs[k - 1];
    if rho.xs[k - 1] == tau {
      LowerBoundAtMost(rho.xs, tau, k - 1);
      assert ShiftAt(rho, i) >= b.value;
    }
    if Eval(rho, tau) - tau >= b.value {
      EarliestIsLeast(rho, k, t, tau, b);
    } else {
      TauBeatsBreakpoints(rho, k, tau, b);
    }
  }

  lemma MinZeroWarpDurationMeaning(rho: Pwlf, warp: Pwlf)
    requires SameDomain(rho, warp)
    requires !IsEmpty(warp) ==> warp.ys[0] >= 0.0
    ensures AnswersZeroWarp(rho, warp, MinZeroWarpDuration(rho, warp))
  {
    ZeroPrefixEndMeaning(warp);
    var e := ZeroPrefixEnd(warp);
    if !IsEmpty(rho) && e.Some? {
      var tau := e.value;
      assert InDom(rho, tau);
      BoundedScan(rho, tau, UpTo(rho.xs, tau));
      var m := MinZeroWarpDuration(rho, warp).value;
      assert IsLeastMinimiser(rho, tau, m);
      assert InDom(warp, m.argmin);
    }
  }

  /** When the boundary beats every breakpoint before it, it is the only minimiser. */
  lemma TauBeatsBreakpoints(f: Pwlf, k: nat, tau: real, b: MinShift)
    requires 0 < k <= |f.xs| && InDom(f, tau) && f.xs[k - 1] < tau && (k < |f.xs| ==> tau < f.xs[k])
    requires forall s :: 0 <= s < k ==> ShiftAt(f, s) >= b.value
    requires Eval(f, tau) - tau < b.value
    ensures IsLeastMinimiser(f, tau, MinShift(Eval(f, tau) - tau, tau))
  {
    var v := Eval(f, tau) - tau;
    assert k < |f.xs|;
    assert forall s :: k <= s < |f.xs| ==> f.xs[k] <= f.xs[s];
    forall z | InDom(f, z) && z < tau ensures Eval(f, z) - z > v {
      var i := LowerBound(f.xs, z);
      LowerBoundAtMost(f.xs, z, k);
      if f.xs[i] == z {
        assert ShiftAt(f, i) >= b.value;
      } else {
        assert ShiftAt(f, i - 1) >= b.value;
        if i < k {
          assert ShiftAt(f, i) >= b.value;
          ChordShift(f.xs[i - 1], f.ys[i - 1], f.xs[i], f.ys[i], z, b.value);
        } else {
          EvalOnPiece(f, k, tau);
          EvalOnPiece(f, k, z);
          LineChord(f.xs[k - 1], f.ys[k - 1], f.xs[k], f.ys[k], f.xs[k - 1], tau, z);
          LineEnds(f.xs[k - 1], f.ys[k - 1], f.xs[k], f.ys[k]);
          ChordShift(f.xs[k - 1], f.ys[k - 1], tau, Eval(f, tau), z, v);
        }
      }
    }
  }

  method MinZeroWarpDurationLoop(rho: Pwlf, warp: Pwlf) returns (r: Option<MinShift>)
    requires SameDomain(rho, warp)
    requires !IsEmpty(warp) ==> warp.ys[0] >= 0.0
    ensures r == MinZeroWarpDuration(rho, warp)
    ensures AnswersZeroWarp(rho, warp, r)
  {
    r := ZeroWarpScan(rho, warp);
    MinZeroWarpDurationMeaning(rho, warp);
  }

  method ZeroWarpScan(rho: Pwlf, warp: Pwlf) returns (r: Option<MinShift>)
    ensures r == MinZeroWarpDuration(rho, warp)
  {
    var end := ZeroPrefixEndLoop(warp);
    if IsEmpty(rho) || end.None? { return None; }
    var tau := end.value;
    var found, tauIsBreakpoint := false, false;
    var best, bestX := 0.0, 0.0;
    var k := 0;
    while k < |rho.xs| && rho.xs[k] <= tau
      invariant k <= |rho.xs|
      invariant forall t :: 0 <= t < k ==> rho.xs[t] <= tau
      invariant found <==> k > 0
      invariant k > 0 ==> MinShift(best, bestX) == BestShift(rho, k)
      invariant tauIsBreakpoint <==> k > 0 && rho.xs[k - 1] == tau
    {
      var value := rho.ys[k] - rho.xs[k];
      if rho.xs[k] == tau { tauIsBreakpoint := true; }
      if !found || value < best {
        best, bestX, found := value, rho.xs[k], true;
      }
      k := k + 1;
    }
    UpToIs(rho.xs, tau, k);
    if !tauIsBreakpoint && InDom(rho, tau) {
      var value := Eval(rho, tau) - tau;
      if !found || value < best {
        best, bestX, found := value, tau, true;
      }
    }
    if !found { return None; }
    return Some(MinShift(best, bestX));
  }

  lemma UpToIs(s: seq<real>, tau: real, k: nat)
    requires k <= |s| && (forall t :: 0 <= t < k ==> s[t] <= tau) && (k < |s| ==> tau < s[k])
    ensures UpTo(s, tau) == k
  {
  }

}
