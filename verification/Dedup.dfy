/** dedup_safe_runs (cpp/pwlf/warp.cpp): interior points of exactly flat and exactly vertical runs
    are dropped in place. */
module Deduplication {
  import opened Pwlfs
  import opened Scans

  predicate FlatAt(a: real, b: real, c: real) { a == b && b == c }

  /** Keep-or-drop from index i on; `kept` is what the compaction has written so far. */
  function DedupFrom(f: Pwlf, i: nat, kept: Breakpoints): Breakpoints
    requires |kept.xs| == |kept.ys| > 0 && 0 < i < |f.xs|
    decreases |f.xs| - i
  {
    var m := |kept.xs|;
    if i + 1 == |f.xs| then Points(kept.xs + [f.xs[i]], kept.ys + [f.ys[i]])
    else if FlatAt(kept.ys[m - 1], f.ys[i], f.ys[i + 1]) || FlatAt(kept.xs[m - 1], f.xs[i], f.xs[i + 1])
    then DedupFrom(f, i + 1, kept)
    else DedupFrom(f, i + 1, Points(kept.xs + [f.xs[i]], kept.ys + [f.ys[i]]))
  }

  function DedupPoints(f: Pwlf): Breakpoints {
    if |f.xs| < 3 then f else DedupFrom(f, 1, Points(f.xs[..1], f.ys[..1]))
  }

  /** p without its point k. */
  function Without(p: Pwlf, k: nat): Pwlf
    requires k < |p.xs|
  {
    Points(p.xs[..k] + p.xs[k + 1..], p.ys[..k] + p.ys[k + 1..])
  }

  /** An interior point of a flat or vertical run is invisible to evaluation. */
  lemma RunInteriorInvisible(p: Pwlf, k: nat, x: real)
    requires 0 < k && k + 1 < |p.xs|
    requires FlatAt(p.ys[k - 1], p.ys[k], p.ys[k + 1]) || FlatAt(p.xs[k - 1], p.xs[k], p.xs[k + 1])
    ensures Den(Without(p, k), x) == Den(p, x)
  {
    hide Line, Eval;
    var q := Without(p, k);
    assert q.xs[0] == p.xs[0] && q.xs[|q.xs| - 1] == p.xs[|p.xs| - 1];
    if InDom(p, x) {
      var m := LowerBound(p.xs, x);
      if m < k {
        SamePiece(p, q, m, m, x);
      } else if m <= k + 1 {
        assert p.xs[k - 1] < x <= p.xs[m] <= p.xs[k + 1];
        FlatPiece(p, m, x);
        FlatPiece(q, k, x);
      } else {
        SamePiece(p, q, m, m - 1, x);
      }
    }
  }

  lemma SamePiece(p: Pwlf, q: Pwlf, m: nat, m': nat, x: real)
    requires m < |p.xs| && m' < |q.xs| && InDom(p, x) && InDom(q, x) && m == LowerBound(p.xs, x)
    requires p.xs[m] == q.xs[m'] && p.ys[m] == q.ys[m'] && (m == 0 <==> m' == 0)
    requires m > 0 ==> p.xs[m - 1] == q.xs[m' - 1] && p.ys[m - 1] == q.ys[m' - 1]
    ensures Eval(p, x) == Eval(q, x)
  {
    LowerBoundIs(q.xs, x, m');
  }

  lemma FlatPiece(p: Pwlf, m: nat, x: real)
    requires 0 < m < |p.xs| && p.xs[m - 1] < x <= p.xs[m] && p.ys[m - 1] == p.ys[m]
    ensures InDom(p, x) && Eval(p, x) == p.ys[m]
  {
    EvalOnPiece(p, m, x);
  }

  /** What is written so far followed by what is still to be read. */
  function Joined(f: Pwlf, i: nat, kept: Breakpoints): Breakpoints
    requires i <= |f.xs|
  {
    Points(kept.xs + f.xs[i..], kept.ys + f.ys[i..])
  }

  /** The last kept point is not inside a run with what precedes and follows it. */
  ghost predicate Tight(ys: seq<real>, next: real) {
    |ys| >= 2 ==> ys[|ys| - 2] < ys[|ys| - 1] || ys[|ys| - 1] < next
  }

  ghost predicate NoInterior(s: seq<real>) {
    forall k :: 0 < k && k + 1 < |s| ==> !FlatAt(s[k - 1], s[k], s[k + 1])
  }

  ghost predicate Compacted(f: Pwlf, i: nat, kept: Breakpoints) {
    && |kept.xs| == |kept.ys| > 0 && 0 < i < |f.xs|
    && NonDecreasing(Joined(f, i, kept))
    && NoInterior(kept.xs) && NoInterior(kept.ys) && Tight(kept.xs, f.xs[i]) && Tight(kept.ys, f.ys[i])
  }

  lemma KeepStep(f: Pwlf, i: nat, kept: Breakpoints)
    requires Compacted(f, i, kept) && i + 1 < |f.xs|
    requires var m := |kept.xs|;
             && !FlatAt(kept.ys[m - 1], f.ys[i], f.ys[i + 1]) && !FlatAt(kept.xs[m - 1], f.xs[i], f.xs[i + 1])
    ensures Compacted(f, i + 1, Points(kept.xs + [f.xs[i]], kept.ys + [f.ys[i]]))
    ensures Joined(f, i + 1, Points(kept.xs + [f.xs[i]], kept.ys + [f.ys[i]])) == Joined(f, i, kept)
  {
    hide Sorted;
    var m := |kept.xs|;
    var p: Pwlf := Joined(f, i, kept);
    LastTwo(kept.xs, f.xs, i);
    LastTwo(kept.ys, f.ys, i);
    AppendTight(kept.xs, f.xs[i]);
    AppendTight(kept.ys, f.ys[i]);
    assert Joined(f, i + 1, Points(kept.xs + [f.xs[i]], kept.ys + [f.ys[i]])) == p;
  }

  lemma LastTwo(a: seq<real>, s: seq<real>, i: nat)
    requires |a| > 0 && i + 1 < |s| && Sorted(a + s[i..])
    ensures a[|a| - 1] <= s[i] <= s[i + 1]
  {
    var t := a + s[i..];
    assert t[|a| - 1] == a[|a| - 1] && t[|a|] == s[i] && t[|a| + 1] == s[i + 1];
  }

  lemma AppendTight(a: seq<real>, y: real)
    requires |a| > 0 && NoInterior(a) && Tight(a, y)
    ensures NoInterior(a + [y])
  {
  }

  lemma DropStep(f: Pwlf, i: nat, kept: Breakpoints, x: real)
    requires Compacted(f, i, kept) && i + 1 < |f.xs|
    requires var m := |kept.xs|;
             || FlatAt(kept.ys[m - 1], f.ys[i], f.ys[i + 1]) || FlatAt(kept.xs[m - 1], f.xs[i], f.xs[i + 1])
    ensures Compacted(f, i + 1, kept)
    ensures Den(Joined(f, i + 1, kept), x) == Den(Joined(f, i, kept), x)
  {
    hide Sorted, Den;
    var m := |kept.xs|;
    var p: Pwlf := Joined(f, i, kept);
    LastTwo(kept.xs, f.xs, i);
    LastTwo(kept.ys, f.ys, i);
    assert p.xs[m - 1] == kept.xs[m - 1] && p.xs[m] == f.xs[i] && p.xs[m + 1] == f.xs[i + 1];
    assert p.ys[m - 1] == kept.ys[m - 1] && p.ys[m] == f.ys[i] && p.ys[m + 1] == f.ys[i + 1];
    RunInteriorInvisible(p, m, x);
    assert Joined(f, i + 1, kept) == Without(p, m);
  }

  lemma {:induction false} DedupFromPreserves(f: Pwlf, i: nat, kept: Breakpoints, x: real)
    requires Compacted(f, i, kept)
    ensures var r := DedupFrom(f, i, kept);
            NonDecreasing(r) && Den(r, x) == Den(Joined(f, i, kept), x) && NoInterior(r.xs) && NoInterior(r.ys)
    decreases |f.xs| - i
  {
    hide Den, Sorted;
    var m := |kept.xs|;
    if i + 1 == |f.xs| {
      assert Points(kept.xs + [f.xs[i]], kept.ys + [f.ys[i]]) == Joined(f, i, kept);
      AppendTight(kept.xs, f.xs[i]);
      AppendTight(kept.ys, f.ys[i]);
    } else if FlatAt(kept.ys[m - 1], f.ys[i], f.ys[i + 1]) || FlatAt(kept.xs[m - 1], f.xs[i], f.xs[i + 1]) {
      DropStep(f, i, kept, x);
      DedupFromPreserves(f, i + 1, kept, x);
    } else {
      KeepStep(f, i, kept);
      DedupFromPreserves(f, i + 1, Points(kept.xs + [f.xs[i]], kept.ys + [f.ys[i]]), x);
    }
  }

  /** dedup_safe_runs changes no value anywhere, and leaves no interior point behind. */
  lemma DedupPreserves(f: Pwlf, x: real)
    ensures NonDecreasing(DedupPoints(f)) && Den(DedupPoints(f), x) == Den(f, x)
    ensures NoInterior(DedupPoints(f).xs) && NoInterior(DedupPoints(f).ys)
    ensures |f.xs| > 0 ==>
              var r := DedupPoints(f);
              |r.xs| > 0 && r.xs[0] == f.xs[0] && r.ys[0] == f.ys[0] && r.ys[|r.ys| - 1] == f.ys[|f.ys| - 1]
  {
    if |f.xs| >= 3 {
      assert Joined(f, 1, Points(f.xs[..1], f.ys[..1])) == f;
      DedupFromPreserves(f, 1, Points(f.xs[..1], f.ys[..1]), x);
      DedupFromEnds(f, 1, Points(f.xs[..1], f.ys[..1]));
    }
  }

  lemma {:induction false} DedupFromEnds(f: Pwlf, i: nat, kept: Breakpoints)
    requires |kept.xs| == |kept.ys| > 0 && 0 < i < |f.xs|
    ensures var r := DedupFrom(f, i, kept);
            && |r.xs| == |r.ys| > 0 && r.xs[0] == kept.xs[0] && r.ys[0] == kept.ys[0]
            && r.ys[|r.ys| - 1] == f.ys[|f.ys| - 1]
    decreases |f.xs| - i
  {
    var m := |kept.xs|;
    if i + 1 < |f.xs| {
      if FlatAt(kept.ys[m - 1], f.ys[i], f.ys[i + 1]) || FlatAt(kept.xs[m - 1], f.xs[i], f.xs[i + 1]) {
        DedupFromEnds(f, i + 1, kept);
      } else {
        DedupFromEnds(f, i + 1, Points(kept.xs + [f.xs[i]], kept.ys + [f.ys[i]]));
      }
    }
  }

  function Dedup(f: Pwlf): Pwlf {
    DedupPreserves(f, 0.0);
    DedupPoints(f)
  }

  /** A list without interior points is left alone. */
  lemma {:induction false} DedupFromKeeps(f: Pwlf, i: nat)
    requires NoInterior(f.xs) && NoInterior(f.ys) && 0 < i < |f.xs|
    ensures DedupFrom(f, i, Points(f.xs[..i], f.ys[..i])) == f
    decreases |f.xs| - i
  {
    assert f.xs[..i] + [f.xs[i]] == f.xs[..i + 1] && f.ys[..i] + [f.ys[i]] == f.ys[..i + 1];
    if i + 1 < |f.xs| {
      DedupFromKeeps(f, i + 1);
    }
  }

  lemma DedupIdempotent(f: Pwlf)
    ensures Dedup(Dedup(f)) == Dedup(f)
  {
    var g := Dedup(f);
    DedupPreserves(f, 0.0);
    if |g.xs| >= 3 { DedupFromKeeps(g, 1); }
  }

  /** In particular the shifted minimum and its earliest argument survive. */
  lemma DedupKeepsOptimum(f: Pwlf)
    ensures MinShiftedImage(Dedup(f)) == MinShiftedImage(f)
  {
    forall x ensures Den(Dedup(f), x) == Den(f, x) { DedupPreserves(f, x); }
    OptimumIsPointwise(Dedup(f), f);
  }

  // ---------- in place ----------

  /** Read and write positions of the compaction agree with the specification. */
  ghost predicate Compacting(f: Pwlf, xs: array<real>, ys: array<real>, out: nat, i: nat)
    reads xs, ys
  {
    && |f.xs| == |f.ys| == xs.Length == ys.Length && 1 <= out <= i < xs.Length
    && (forall k :: i <= k < xs.Length ==> xs[k] == f.xs[k] && ys[k] == f.ys[k])
    && DedupFrom(f, i, Points(xs[..out], ys[..out])) == DedupPoints(f)
  }

  /** The compaction on the breakpoint arrays; n is the length to resize to. */
  method DedupSafeRuns(xs: array<real>, ys: array<real>) returns (n: nat)
    requires xs != ys && xs.Length == ys.Length && NonDecreasing(Points(xs[..], ys[..]))
    modifies xs, ys
    ensures n <= xs.Length && Points(xs[..n], ys[..n]) == Dedup(old(Points(xs[..], ys[..])))
  {
    hide Sorted, Tight;
    ghost var f: Pwlf := Points(xs[..], ys[..]);
    n := xs.Length;
    if n < 3 { return; }
    var out, i := 1, 1;
    while i + 1 < n
      invariant n == xs.Length && Compacting(f, xs, ys, out, i)
    {
      var flat := ys[out - 1] == ys[i] && ys[i] == ys[i + 1];
      var vertical := xs[out - 1] == xs[i] && xs[i] == xs[i + 1];
      if !(flat || vertical) {
        out := Write(f, xs, ys, out, i, i);
      }
      i := i + 1;
    }
    n := Write(f, xs, ys, out, i, n - 1);
  }

  method Write(ghost f: Pwlf, xs: array<real>, ys: array<real>, out: nat, i: nat, from: nat) returns (out': nat)
    requires xs != ys && |f.xs| == |f.ys| == xs.Length == ys.Length && out <= i == from < xs.Length
    requires forall k :: i <= k < xs.Length ==> xs[k] == f.xs[k] && ys[k] == f.ys[k]
    modifies xs, ys
    ensures out' == out + 1 && forall k :: i < k < xs.Length ==> xs[k] == f.xs[k] && ys[k] == f.ys[k]
    ensures xs[..out'] == old(xs[..out]) + [f.xs[i]] && ys[..out'] == old(ys[..out]) + [f.ys[i]]
  {
    xs[out] := xs[from];
    ys[out] := ys[from];
    out' := out + 1;
  }
}
