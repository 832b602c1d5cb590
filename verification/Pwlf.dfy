/** Non-decreasing piecewise-linear functions on parallel breakpoint arrays (cpp/pwlf/pwlf.h).
    Repeated xs encode a vertical step, repeated ys a plateau, empty arrays the empty function. */
module Pwlfs {
  import opened Common

  datatype Breakpoints = Points(xs: seq<real>, ys: seq<real>)

  ghost predicate Sorted(s: seq<real>) {
    forall i, j :: 0 <= i <= j < |s| ==> s[i] <= s[j]
  }

  ghost predicate NonDecreasing(f: Breakpoints) {
    |f.xs| == |f.ys| && Sorted(f.xs) && Sorted(f.ys)
  }

  type Pwlf = f: Breakpoints | NonDecreasing(f) witness Points([], [])

  const EMPTY: Pwlf := Points([], [])

  predicate IsEmpty(f: Pwlf) {
    |f.xs| == 0
  }

  /** Domain membership: the guard of `evaluate`. */
  predicate InDom(f: Pwlf, x: real) {
    |f.xs| > 0 && f.xs[0] <= x <= f.xs[|f.xs| - 1]
  }

  /** std::lower_bound: the first index whose entry is not below x. */
  function LowerBound(s: seq<real>, x: real): (i: nat)
    ensures i <= |s|
    ensures forall k :: 0 <= k < i ==> s[k] < x
    ensures i < |s| ==> x <= s[i]
  {
    if |s| == 0 || x <= s[0] then 0 else 1 + LowerBound(s[1..], x)
  }

  lemma LowerBoundAtMost(s: seq<real>, x: real, k: nat)
    requires k < |s| && x <= s[k]
    ensures LowerBound(s, x) <= k
  {
  }

  /** The interpolation formula shared by evaluate, compose and add. */
  function Line(x0: real, y0: real, x1: real, y1: real, x: real): real
    requires x0 < x1
  {
    var t := (x - x0) / (x1 - x0);
    y0 + t * (y1 - y0)
  }

  /** f(x); the lower value at a vertical step. */
  function Eval(f: Pwlf, x: real): real
    requires InDom(f, x)
  {
    var i := LowerBound(f.xs, x);
    if f.xs[i] == x then f.ys[i]
    else Line(f.xs[i - 1], f.ys[i - 1], f.xs[i], f.ys[i], x)
  }

  /** The partial function a breakpoint list denotes: pointwise equality of these is the notion
      of equality used throughout, never equality of breakpoint lists. */
  function Den(f: Pwlf, x: real): Option<real> {
    if InDom(f, x) then Some(Eval(f, x)) else None
  }

  // ---------- one linear piece ----------

  lemma Quotient(a: real, b: real)
    requires b > 0.0
    ensures (a / b) * b == a
    ensures a >= 0.0 ==> a / b >= 0.0
    ensures a > 0.0 ==> a / b > 0.0
    ensures a <= b ==> a / b <= 1.0
    ensures a < b ==> a / b < 1.0
  {
  }

  lemma LineEnds(x0: real, y0: real, x1: real, y1: real)
    requires x0 < x1
    ensures Line(x0, y0, x1, y1, x0) == y0
    ensures Line(x0, y0, x1, y1, x1) == y1
  {
  }

  /** The slope form, which is what the other lemmas use. */
  lemma LineSlope(x0: real, y0: real, x1: real, y1: real, x: real) returns (m: real)
    requires x0 < x1
    ensures m * (x1 - x0) == y1 - y0
    ensures Line(x0, y0, x1, y1, x) == y0 + m * (x - x0)
    ensures m == (y1 - y0) / (x1 - x0)
  {
    m := (y1 - y0) / (x1 - x0);
    var t := (x - x0) / (x1 - x0);
    calc {
      t * (y1 - y0);
      t * (m * (x1 - x0));
      (t * (x1 - x0)) * m;
      m * (x - x0);
    }
  }

  lemma LineMonotone(x0: real, y0: real, x1: real, y1: real, a: real, b: real)
    requires x0 < x1 && y0 <= y1 && a <= b
    ensures Line(x0, y0, x1, y1, a) <= Line(x0, y0, x1, y1, b)
    ensures y0 < y1 && a < b ==> Line(x0, y0, x1, y1, a) < Line(x0, y0, x1, y1, b)
  {
    var m := LineSlope(x0, y0, x1, y1, a);
    var m' := LineSlope(x0, y0, x1, y1, b);
    Quotient(y1 - y0, x1 - x0);
    assert m * (b - x0) - m * (a - x0) == m * (b - a);
  }

  lemma LineBetween(x0: real, y0: real, x1: real, y1: real, x: real)
    requires x0 < x1 && y0 <= y1 && x0 <= x <= x1
    ensures y0 <= Line(x0, y0, x1, y1, x) <= y1
    ensures y0 < y1 && x0 < x ==> y0 < Line(x0, y0, x1, y1, x)
    ensures y0 < y1 && x < x1 ==> Line(x0, y0, x1, y1, x) < y1
  {
    LineEnds(x0, y0, x1, y1);
    LineMonotone(x0, y0, x1, y1, x0, x);
    LineMonotone(x0, y0, x1, y1, x, x1);
  }

  /** A chord of a line is the line. */
  lemma LineChord(x0: real, y0: real, x1: real, y1: real, a: real, b: real, x: real)
    requires x0 < x1 && a < b
    ensures Line(a, Line(x0, y0, x1, y1, a), b, Line(x0, y0, x1, y1, b), x) == Line(x0, y0, x1, y1, x)
  {
    var m := LineSlope(x0, y0, x1, y1, a);
    var _ := LineSlope(x0, y0, x1, y1, b);
    var _ := LineSlope(x0, y0, x1, y1, x);
    var ya, yb := y0 + m * (a - x0), y0 + m * (b - x0);
    var c := LineSlope(a, ya, b, yb, x);
    assert (c - m) * (b - a) == 0.0;
    assert c == m;
    assert ya + m * (x - a) == y0 + m * (x - x0);
  }

  /** Feeding one line into another over matching intervals is again a line. */
  lemma LineCompose(x0: real, u0: real, z0: real, x1: real, u1: real, z1: real, x: real)
    requires x0 < x1 && u0 < u1
    ensures Line(u0, z0, u1, z1, Line(x0, u0, x1, u1, x)) == Line(x0, z0, x1, z1, x)
  {
    var t := (x - x0) / (x1 - x0);
    assert (u0 + t * (u1 - u0) - u0) / (u1 - u0) == t;
  }

  /** The swapped line is the inverse. */
  lemma LineInverse(x0: real, u0: real, x1: real, u1: real, u: real)
    requires x0 < x1 && u0 < u1
    ensures Line(x0, u0, x1, u1, Line(u0, x0, u1, x1, u)) == u
  {
    LineCompose(u0, x0, u0, u1, x1, u1, u);
    var t := (u - u0) / (u1 - u0);
    assert t * (u1 - u0) == u - u0;
  }

  // ---------- evaluation ----------

  /** Where lower_bound lands is determined by the two neighbours. */
  lemma LowerBoundIs(s: seq<real>, x: real, i: nat)
    requires Sorted(s) && i < |s| && x <= s[i] && (i > 0 ==> s[i - 1] < x)
    ensures LowerBound(s, x) == i
  {
    var k := LowerBound(s, x);
    assert forall t :: 0 <= t < i ==> s[t] <= s[i - 1];
  }

  /** f is the chord of piece i on (xs[i-1], xs[i]], right end included, left end excluded. */
  lemma EvalOnPiece(f: Pwlf, i: nat, x: real)
    requires 0 < i < |f.xs| && f.xs[i - 1] < x <= f.xs[i]
    ensures InDom(f, x)
    ensures Eval(f, x) == Line(f.xs[i - 1], f.ys[i - 1], f.xs[i], f.ys[i], x)
  {
    LowerBoundIs(f.xs, x, i);
    LineEnds(f.xs[i - 1], f.ys[i - 1], f.xs[i], f.ys[i]);
  }

  lemma EvalAtFirst(f: Pwlf, i: nat)
    requires i < |f.xs| && (i > 0 ==> f.xs[i - 1] < f.xs[i])
    ensures InDom(f, f.xs[i]) && Eval(f, f.xs[i]) == f.ys[i]
  {
    LowerBoundIs(f.xs, f.xs[i], i);
  }

  /** Eval sits between the breakpoints around it. */
  lemma EvalBounds(f: Pwlf, x: real)
    requires InDom(f, x)
    ensures var i := LowerBound(f.xs, x);
            && i < |f.xs|
            && Eval(f, x) <= f.ys[i]
            && (i > 0 ==> f.xs[i - 1] < x && f.ys[i - 1] <= Eval(f, x))
            && (i == 0 ==> Eval(f, x) == f.ys[0])
    ensures f.ys[0] <= Eval(f, x) <= f.ys[|f.ys| - 1]
  {
    var i := LowerBound(f.xs, x);
    if f.xs[i] != x {
      LineBetween(f.xs[i - 1], f.ys[i - 1], f.xs[i], f.ys[i], x);
    }
  }

  lemma EvalMonotone(f: Pwlf, x: real, x': real)
    requires InDom(f, x) && InDom(f, x') && x <= x'
    ensures Eval(f, x) <= Eval(f, x')
  {
    EvalBounds(f, x);
    EvalBounds(f, x');
    var i, i' := LowerBound(f.xs, x), LowerBound(f.xs, x');
    if i < i' {
      assert f.ys[i] <= f.ys[i' - 1];
    } else if i == 0 {
    } else {
      assert forall t :: 0 <= t < i ==> f.xs[t] <= f.xs[i - 1];
      EvalOnPiece(f, i, x);
      EvalOnPiece(f, i, x');
      LineMonotone(f.xs[i - 1], f.ys[i - 1], f.xs[i], f.ys[i], x, x');
    }
  }

  // ---------- growing a function to the right ----------

  predicate CanAppend(h: Pwlf, x: real, y: real) {
    |h.xs| > 0 ==> h.xs[|h.xs| - 1] <= x && h.ys[|h.ys| - 1] <= y
  }

  function Append(h: Pwlf, x: real, y: real): Pwlf
    requires CanAppend(h, x, y)
  {
    Points(h.xs + [x], h.ys + [y])
  }

  /** Appending a point leaves the old part alone and adds one chord. */
  lemma EvalAppend(h: Pwlf, x: real, y: real, z: real)
    requires |h.xs| > 0 && CanAppend(h, x, y)
    ensures var n := |h.xs|;
            && (InDom(Append(h, x, y), z) <==> InDom(h, z) || h.xs[n - 1] < z <= x)
            && (InDom(h, z) ==> Eval(Append(h, x, y), z) == Eval(h, z))
            && (h.xs[n - 1] < z <= x ==>
                  Eval(Append(h, x, y), z) == Line(h.xs[n - 1], h.ys[n - 1], x, y, z))
  {
    var n, h' := |h.xs|, Append(h, x, y);
    if InDom(h, z) {
      var i := LowerBound(h.xs, z);
      assert i < n;
      assert h'.xs[i] == h.xs[i];
      LowerBoundIs(h'.xs, z, i);
    } else if h.xs[n - 1] < z <= x {
      EvalOnPiece(h', n, z);
    }
  }

  // ---------- simple functions ----------

  /** identity on [low, high]; a single breakpoint when they coincide. */
  function Identity(low: real, high: real): Pwlf
    requires low <= high
  {
    if low == high then Points([low], [low]) else Points([low, high], [low, high])
  }

  lemma IdentityMeaning(low: real, high: real, x: real)
    requires low <= high
    ensures Den(Identity(low, high), x) == if low <= x <= high then Some(x) else None
  {
    var f := Identity(low, high);
    if low <= x <= high {
      if x == low {
        EvalAtFirst(f, 0);
      } else {
        EvalOnPiece(f, 1, x);
        var m := LineSlope(low, low, high, high, x);
        assert (m - 1.0) * (high - low) == 0.0;
      }
    }
  }
}
