/** add (cpp/pwlf/warp.cpp): pointwise sum on the common domain, by an event merge over the
    union of breakpoints. The event machinery is compose's, run on the x-axes of both operands. */
module Summation {
  import opened Common
  import opened Pwlfs
  import opened Composition
  import PenalisedScan

  /** g with its axes exchanged: compose's events of (f, Swap(g)) are the x-events of (f, g). */
  function Swap(g: Pwlf): Pwlf {
    Points(g.ys, g.xs)
  }

  /** One event: the sum of the lower values, then the sum of the upper values. */
  function AddStep(f: Pwlf, g: Pwlf, hi: real, i: nat, j: nat, h: Pwlf): (r: (nat, nat, Pwlf))
    requires Aligned(f, Swap(g), hi, i, j) && (HasF(f, hi, i) || HasG(Swap(g), hi, j))
    ensures Aligned(f, Swap(g), hi, r.0, r.1) && i <= r.0 && j <= r.1 && i + j < r.0 + r.1
  {
    EventIsInside(f, Swap(g), hi, i, j);
    var u := NextEvent(f, Swap(g), hi, i, j);
    var fs, gs := EventFs(f, Swap(g), hi, i, j), EventGs(f, Swap(g), hi, i, j);
    (RunEnd(f.xs, i, u), RunEnd(g.xs, j, u),
     Emit(Emit(h, u, fs[0] + gs[0]), u, fs[|fs| - 1] + gs[|gs| - 1]))
  }

  function AddMerge(f: Pwlf, g: Pwlf, hi: real, i: nat, j: nat, h: Pwlf): Pwlf
    requires Aligned(f, Swap(g), hi, i, j)
    decreases |f.xs| - i + |g.xs| - j
  {
    if !HasF(f, hi, i) && !HasG(Swap(g), hi, j) then h
    else
      var r := AddStep(f, g, hi, i, j, h);
      AddMerge(f, g, hi, r.0, r.1, r.2)
  }

  predicate AddStepFits(f: Pwlf, g: Pwlf, hi: real, i: nat, j: nat, h: Pwlf)
    requires Aligned(f, Swap(g), hi, i, j) && (HasF(f, hi, i) || HasG(Swap(g), hi, j))
  {
    var u := NextEvent(f, Swap(g), hi, i, j);
    var fs, gs := EventFs(f, Swap(g), hi, i, j), EventGs(f, Swap(g), hi, i, j);
    CanAppend(h, u, fs[0] + gs[0]) && CanAppend(Emit(h, u, fs[0] + gs[0]), u, fs[|fs| - 1] + gs[|gs| - 1])
  }

  /** No point of the merge meets the clamp. */
  predicate AddMergeFits(f: Pwlf, g: Pwlf, hi: real, i: nat, j: nat, h: Pwlf)
    requires Aligned(f, Swap(g), hi, i, j)
    decreases |f.xs| - i + |g.xs| - j
  {
    HasF(f, hi, i) || HasG(Swap(g), hi, j) ==>
      var r := AddStep(f, g, hi, i, j, h);
      AddStepFits(f, g, hi, i, j, h) && AddMergeFits(f, g, hi, r.0, r.1, r.2)
  }

  /** The domains meet. */
  predicate Overlap(f: Pwlf, g: Pwlf) {
    Meets(f, Swap(g))
  }

  function Add(f: Pwlf, g: Pwlf): Pwlf {
    if !Overlap(f, g) then EMPTY
    else
      StartAligned(f, Swap(g));
      var lo := Low(f, Swap(g));
      AddMerge(f, g, High(f, Swap(g)), LowerBound(f.xs, lo), LowerBound(g.xs, lo), EMPTY)
  }

  /** No point add emits meets the monotone clamp. */
  predicate AddFits(f: Pwlf, g: Pwlf) {
    Overlap(f, g) ==> (
      StartAligned(f, Swap(g));
      var lo := Low(f, Swap(g));
      AddMergeFits(f, g, High(f, Swap(g)), LowerBound(f.xs, lo), LowerBound(g.xs, lo), EMPTY))
  }

  // ---------- meaning ----------

  /** h is the sum of f and g on its domain, which reaches from lo to its last breakpoint. */
  ghost predicate Sums(f: Pwlf, g: Pwlf, h: Pwlf, lo: real) {
    |h.xs| > 0 && h.xs[0] == lo &&
    forall x :: InDom(h, x) ==> InDom(f, x) && InDom(g, x) && Eval(h, x) == Eval(f, x) + Eval(g, x)
  }

  /** The value of f at u read from the piece to the right of u. */
  function Upper(f: Pwlf, i: nat, u: real): real
    requires 0 < i <= |f.xs| && (i < |f.xs| ==> f.xs[i - 1] < f.xs[i])
  {
    if i < |f.xs| then Line(f.xs[i - 1], f.ys[i - 1], f.xs[i], f.ys[i], u) else f.ys[i - 1]
  }

  ghost predicate AddAfter(f: Pwlf, g: Pwlf, hi: real, i: nat, j: nat, u: real, h: Pwlf) {
    && Aligned(f, Swap(g), hi, i, j) && 0 < i && 0 < j && u <= hi
    && f.xs[i - 1] <= u && (i < |f.xs| ==> u < f.xs[i])
    && g.xs[j - 1] <= u && (j < |g.xs| ==> u < g.xs[j])
    && EndsAt(h, u, Upper(f, i, u) + Upper(g, j, u))
  }

  lemma ExtendSum(f: Pwlf, g: Pwlf, h: Pwlf, x: real, y: real, lo: real)
    requires Sums(f, g, h, lo) && CanAppend(h, x, y)
    requires forall z :: h.xs[|h.xs| - 1] < z <= x ==>
      InDom(f, z) && InDom(g, z) && Eval(f, z) + Eval(g, z) == Line(h.xs[|h.xs| - 1], h.ys[|h.ys| - 1], x, y, z)
    ensures var h' := Emit(h, x, y);
            Sums(f, g, h', lo) && EndsAt(h', x, y) && CanAppend(h, x, y)
  {
    hide Eval, Line;
    var h' := Emit(h, x, y);
    if h' != h {
      forall z | InDom(h', z)
        ensures InDom(f, z) && InDom(g, z) && Eval(h', z) == Eval(f, z) + Eval(g, z)
      {
        EvalAppend(h, x, y, z);
      }
    }
  }

  /** Lower and upper values at an event. */
  lemma AddEventValues(f: Pwlf, g: Pwlf, hi: real, i: nat, j: nat)
    requires Aligned(f, Swap(g), hi, i, j) && (HasF(f, hi, i) || HasG(Swap(g), hi, j))
    ensures var u := NextEvent(f, Swap(g), hi, i, j);
            var i', j' := RunEnd(f.xs, i, u), RunEnd(g.xs, j, u);
            var fs, gs := EventFs(f, Swap(g), hi, i, j), EventGs(f, Swap(g), hi, i, j);
            && u <= hi && i < |f.xs| && j < |g.xs| && u <= f.xs[i] && u <= g.xs[j] && 0 < i' && 0 < j'
            && Aligned(f, Swap(g), hi, i', j')
            && InDom(f, u) && InDom(g, u) && fs[0] == Eval(f, u) && gs[0] == Eval(g, u)
            && fs[0] <= fs[|fs| - 1] && gs[0] <= gs[|gs| - 1]
            && fs[|fs| - 1] == Upper(f, i', u) && gs[|gs| - 1] == Upper(g, j', u)
            && f.xs[i' - 1] <= u && (i' < |f.xs| ==> u < f.xs[i'])
            && g.xs[j' - 1] <= u && (j' < |g.xs| ==> u < g.xs[j'])
  {
    hide Line, Eval, ValuesAt, LowerBound, Upper;
    EventIsInside(f, Swap(g), hi, i, j);
    var u := NextEvent(f, Swap(g), hi, i, j);
    ValuesOf(f, i, u);
    ValuesOf(g, j, u);
  }

  lemma ValuesOf(f: Pwlf, i: nat, u: real)
    requires i < |f.xs| && u <= f.xs[i] && (i > 0 ==> f.xs[i - 1] < u) && (i == 0 ==> u == f.xs[0])
    requires RunEnd(f.xs, i, u) == i ==> 0 < i && f.xs[i - 1] < u < f.xs[i]
    requires var e := RunEnd(f.xs, i, u); 0 < e < |f.xs| ==> f.xs[e - 1] < f.xs[e]
    ensures var e, vs := RunEnd(f.xs, i, u), ValuesAt(f.xs, f.ys, i, u);
            && InDom(f, u) && vs[0] == Eval(f, u) && vs[0] <= vs[|vs| - 1] && 0 < e
            && vs[|vs| - 1] == Upper(f, e, u)
            && f.xs[e - 1] <= u && (e < |f.xs| ==> u < f.xs[e])
  {
    hide Line, Eval, LowerBound;
    LastValue(f.xs, f.ys, i, u);
    ValueIsEval(f, i, u);
  }

  lemma ValueIsEval(f: Pwlf, i: nat, u: real)
    requires i < |f.xs| && u <= f.xs[i] && (i > 0 ==> f.xs[i - 1] < u) && (i == 0 ==> u == f.xs[0])
    requires RunEnd(f.xs, i, u) == i ==> 0 < i && f.xs[i - 1] < u < f.xs[i]
    ensures InDom(f, u) && ValuesAt(f.xs, f.ys, i, u)[0] == Eval(f, u)
    ensures var vs := ValuesAt(f.xs, f.ys, i, u); vs[0] <= vs[|vs| - 1]
  {
    if u == f.xs[i] { EvalAtFirst(f, i); } else { EvalOnPiece(f, i, u); }
  }

  /** The second point of an event: a vertical step, or nothing. */
  lemma SecondPoint(f: Pwlf, g: Pwlf, h1: Pwlf, u: real, y: real, y2: real, lo: real)
    requires Sums(f, g, h1, lo) && EndsAt(h1, u, y) && y <= y2
    ensures var h2 := Emit(h1, u, y2);
            CanAppend(h1, u, y2) && Sums(f, g, h2, lo) && EndsAt(h2, u, y2)
  {
    hide Eval, Line;
    ExtendSum(f, g, h1, u, y2, lo);
  }

  lemma FinishAddEvent(f: Pwlf, g: Pwlf, hi: real, i: nat, j: nat, h: Pwlf, h1: Pwlf, lo: real)
    requires Aligned(f, Swap(g), hi, i, j) && (HasF(f, hi, i) || HasG(Swap(g), hi, j))
    requires var u := NextEvent(f, Swap(g), hi, i, j);
             var y := EventFs(f, Swap(g), hi, i, j)[0] + EventGs(f, Swap(g), hi, i, j)[0];
             h1 == Emit(h, u, y) && CanAppend(h, u, y) && Sums(f, g, h1, lo) && EndsAt(h1, u, y)
    ensures var r := AddStep(f, g, hi, i, j, h);
            && AddStepFits(f, g, hi, i, j, h)
            && AddAfter(f, g, hi, r.0, r.1, NextEvent(f, Swap(g), hi, i, j), r.2) && Sums(f, g, r.2, lo)
  {
    hide Eval, Line, Upper, EventFs, EventGs, LowerBound, RunEnd, Sums, Emit, EndsAt, NextEvent, HasF, HasG;
    AddEventValues(f, g, hi, i, j);
    var u := NextEvent(f, Swap(g), hi, i, j);
    var fs, gs := EventFs(f, Swap(g), hi, i, j), EventGs(f, Swap(g), hi, i, j);
    SecondPoint(f, g, h1, u, fs[0] + gs[0], fs[|fs| - 1] + gs[|gs| - 1], lo);
  }

  lemma PieceChord(f: Pwlf, i: nat, u: real, u2: real, z: real)
    requires 0 < i < |f.xs| && f.xs[i - 1] <= u < z <= u2 <= f.xs[i]
    ensures InDom(f, z) && InDom(f, u2) && Eval(f, z) == Line(u, Upper(f, i, u), u2, Eval(f, u2), z)
    ensures Upper(f, i, u) <= Eval(f, u2)
  {
    EvalOnPiece(f, i, z);
    EvalOnPiece(f, i, u2);
    LineChord(f.xs[i - 1], f.ys[i - 1], f.xs[i], f.ys[i], u, u2, z);
    LineMonotone(f.xs[i - 1], f.ys[i - 1], f.xs[i], f.ys[i], u, u2);
  }

  lemma NextSumEvent(f: Pwlf, g: Pwlf, hi: real, i: nat, j: nat, u: real, h: Pwlf, lo: real)
    requires AddAfter(f, g, hi, i, j, u, h) && Sums(f, g, h, lo) && (HasF(f, hi, i) || HasG(Swap(g), hi, j))
    ensures var r := AddStep(f, g, hi, i, j, h);
            && AddStepFits(f, g, hi, i, j, h)
            && AddAfter(f, g, hi, r.0, r.1, NextEvent(f, Swap(g), hi, i, j), r.2) && Sums(f, g, r.2, lo)
  {
    hide Eval, Line, Upper;
    AddEventValues(f, g, hi, i, j);
    var u2 := NextEvent(f, Swap(g), hi, i, j);
    var a, b := Upper(f, i, u), Upper(g, j, u);
    forall z | u < z <= u2
      ensures InDom(f, z) && InDom(g, z) && Eval(f, z) + Eval(g, z) == Line(u, a + b, u2, Eval(f, u2) + Eval(g, u2), z)
    {
      PieceChord(f, i, u, u2, z);
      PieceChord(g, j, u, u2, z);
      PenalisedScan.LineSum(u, a, b, u2, Eval(f, u2), Eval(g, u2), z);
    }
    PieceChord(f, i, u, u2, u2);
    PieceChord(g, j, u, u2, u2);
    ExtendSum(f, g, h, u2, Eval(f, u2) + Eval(g, u2), lo);
    FinishAddEvent(f, g, hi, i, j, h, Emit(h, u2, Eval(f, u2) + Eval(g, u2)), lo);
  }

  lemma {:induction false} AddMergeSums(f: Pwlf, g: Pwlf, i: nat, j: nat, u: real, h: Pwlf, lo: real)
    requires Overlap(f, g) && AddAfter(f, g, High(f, Swap(g)), i, j, u, h) && Sums(f, g, h, lo)
    ensures var r := AddMerge(f, g, High(f, Swap(g)), i, j, h);
            && AddMergeFits(f, g, High(f, Swap(g)), i, j, h)
            && Sums(f, g, r, lo) && r.xs[|r.xs| - 1] == High(f, Swap(g))
    decreases |f.xs| - i + |g.xs| - j
  {
    hide Eval, Upper;
    var hi := High(f, Swap(g));
    if HasF(f, hi, i) || HasG(Swap(g), hi, j) {
      NextSumEvent(f, g, hi, i, j, u, h, lo);
      var r := AddStep(f, g, hi, i, j, h);
      AddMergeSums(f, g, r.0, r.1, NextEvent(f, Swap(g), hi, i, j), r.2, lo);
    } else {
      assert u == hi by {
        if hi == f.xs[|f.xs| - 1] { assert i == |f.xs|; } else { assert j == |g.xs|; }
      }
    }
  }

  function Plus(a: Option<real>, b: Option<real>): Option<real> {
    if a.Some? && b.Some? then Some(a.value + b.value) else None
  }

  /** The first step of the merge. */
  lemma AddStarts(f: Pwlf, g: Pwlf)
    requires Overlap(f, g)
    ensures var lo, hi := Low(f, Swap(g)), High(f, Swap(g));
            var i, j := LowerBound(f.xs, lo), LowerBound(g.xs, lo);
            && Aligned(f, Swap(g), hi, i, j) && (i == 0 || j == 0) && i < |f.xs| && j < |g.xs| && (f.xs[i] == lo || g.xs[j] == lo)
            && (HasF(f, hi, i) || HasG(Swap(g), hi, j)) && NextEvent(f, Swap(g), hi, i, j) == lo
            && var r := AddStep(f, g, hi, i, j, EMPTY);
               && Add(f, g) == AddMerge(f, g, hi, r.0, r.1, r.2)
               && (AddStepFits(f, g, hi, i, j, EMPTY) && AddMergeFits(f, g, hi, r.0, r.1, r.2) ==> AddFits(f, g))
  {
    hide EventFs, EventGs, RunEnd, ValuesAt, AddStep, AddStepFits, Emit, Eval, Line;
    StartAligned(f, Swap(g));
  }

  /** The first event is the left end of the overlap, so the source's fallback for a merge that
      emitted nothing is unreachable. */
  lemma AddRuns(f: Pwlf, g: Pwlf)
    requires Overlap(f, g)
    ensures var h := Add(f, g);
            Sums(f, g, h, Low(f, Swap(g))) && h.xs[|h.xs| - 1] == High(f, Swap(g)) && AddFits(f, g)
  {
    hide Eval, Line, Upper, EventFs, EventGs, RunEnd, ValuesAt, Sums, EndsAt, AddStep, Emit, Add, AddMerge, AddMergeFits, AddFits, AddStepFits, NextEvent, HasF, HasG, LowerBound, Low, High, Aligned;
    var lo, hi := Low(f, Swap(g)), High(f, Swap(g));
    var i, j := LowerBound(f.xs, lo), LowerBound(g.xs, lo);
    AddStarts(f, g);
    AddEventValues(f, g, hi, i, j);
    var h1 := Emit(EMPTY, lo, Eval(f, lo) + Eval(g, lo));
    SinglePoint(f, g, h1, lo);
    FinishAddEvent(f, g, hi, i, j, EMPTY, h1, lo);
    var r := AddStep(f, g, hi, i, j, EMPTY);
    AddMergeSums(f, g, r.0, r.1, lo, r.2, lo);
  }

  lemma SinglePoint(f: Pwlf, g: Pwlf, h: Pwlf, lo: real)
    requires InDom(f, lo) && InDom(g, lo) && h == Emit(EMPTY, lo, Eval(f, lo) + Eval(g, lo))
    ensures CanAppend(EMPTY, lo, Eval(f, lo) + Eval(g, lo))
    ensures Sums(f, g, h, lo) && EndsAt(h, lo, Eval(f, lo) + Eval(g, lo))
  {
    EvalAtFirst(h, 0);
  }

  /** add is the pointwise sum on the common domain, at every x including vertical steps, and its
      monotone clamp never fires. */
  lemma AddMeaning(f: Pwlf, g: Pwlf)
    ensures forall x :: Den(Add(f, g), x) == Plus(Den(f, x), Den(g, x))
    ensures IsEmpty(Add(f, g)) <==> !Overlap(f, g)
    ensures AddFits(f, g)
  {
    hide Eval, AddMerge;
    if Overlap(f, g) {
      AddRuns(f, g);
    }
  }

  // ---------- the loop itself ----------

  /** Lower and upper value at u, and the cursor past the run of breakpoints at u. */
  method ValuesAround(f: Pwlf, i: nat, u: real) returns (lower: real, upper: real, i': nat)
    requires i <= |f.xs|
    requires RunEnd(f.xs, i, u) == i ==> 0 < i < |f.xs| && f.xs[i - 1] < u < f.xs[i]
    ensures i' == RunEnd(f.xs, i, u)
    ensures var vs := ValuesAt(f.xs, f.ys, i, u); lower == vs[0] && upper == vs[|vs| - 1]
  {
    hide Line;
    if i < |f.xs| && f.xs[i] == u {
      lower := f.ys[i];
      var k := i;
      while k + 1 < |f.xs| && f.xs[k + 1] == u
        invariant i <= k < |f.xs| && f.xs[k] == u
        invariant RunEnd(f.xs, k, u) == RunEnd(f.xs, i, u)
      {
        k := k + 1;
      }
      upper, i' := f.ys[k], k + 1;
    } else {
      lower := Line(f.xs[i - 1], f.ys[i - 1], f.xs[i], f.ys[i], u);
      upper, i' := lower, i;
    }
  }

  method AddLoop(f: Pwlf, g: Pwlf) returns (h: Pwlf)
    ensures h == Add(f, g)
    ensures forall x :: Den(h, x) == Plus(Den(f, x), Den(g, x))
  {
    h := MergeSums(f, g);
    AddMeaning(f, g);
  }

  method AddEvent(f: Pwlf, g: Pwlf, hi: real, i: nat, j: nat, h: Pwlf) returns (i': nat, j': nat, h': Pwlf)
    requires Aligned(f, Swap(g), hi, i, j) && (HasF(f, hi, i) || HasG(Swap(g), hi, j))
    ensures (i', j', h') == AddStep(f, g, hi, i, j, h)
  {
    hide Line, ValuesAt, Eval, LowerBound, Emit;
    EventIsInside(f, Swap(g), hi, i, j);
    var u := NextEvent(f, Swap(g), hi, i, j);
    var fLow, fHigh, gLow, gHigh;
    fLow, fHigh, i' := ValuesAround(f, i, u);
    gLow, gHigh, j' := ValuesAround(g, j, u);
    h' := Emit(h, u, fLow + gLow);
    h' := Emit(h', u, fHigh + gHigh);
  }

  method MergeSums(f: Pwlf, g: Pwlf) returns (h: Pwlf)
    ensures h == Add(f, g)
  {
    hide Line, ValuesAt, Eval, AddStep;
    if IsEmpty(f) || IsEmpty(g) { return EMPTY; }
    var lo, hi := Max(f.xs[0], g.xs[0]), Min(f.xs[|f.xs| - 1], g.xs[|g.xs| - 1]);
    if lo > hi { return EMPTY; }
    StartAligned(f, Swap(g));
    var i := SkipBelow(f.xs, lo);
    var j := SkipBelow(g.xs, lo);
    h := EMPTY;
    var emitted := false;
    while HasF(f, hi, i) || HasG(Swap(g), hi, j)
      invariant Aligned(f, Swap(g), hi, i, j)
      invariant AddMerge(f, g, hi, i, j, h) == Add(f, g)
      invariant emitted || HasF(f, hi, i) || HasG(Swap(g), hi, j)
      decreases |f.xs| - i + |g.xs| - j
    {
      i, j, h := AddEvent(f, g, hi, i, j, h);
      emitted := true;
    }
    if !emitted {
      assert false;
    }
  }
}
