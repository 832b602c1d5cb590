/** Vertex and depot functions (cpp/pwlf/pwlf.cpp make_theta, cpp/pwlf/warp.cpp make_theta_warp,
    make_return_clamp, make_return_warp): a time window as a domain wall, and the same window as a
    clamp plus a lateness channel. */
module VertexFunctions {
  import opened Common
  import opened Pwlfs
  import opened Composition

  /** Append unless the point repeats the last one. */
  function Push(f: Pwlf, x: real, y: real): (r: Pwlf)
    requires CanAppend(f, x, y)
    ensures |r.xs| > 0 && r.xs[|r.xs| - 1] == x && r.ys[|r.ys| - 1] == y
    ensures |f.xs| > 0 ==> r.xs[0] == f.xs[0] && r.ys[0] == f.ys[0]
    ensures |f.xs| == 0 ==> r.xs[0] == x && r.ys[0] == y
  {
    if |f.xs| > 0 && x == f.xs[|f.xs| - 1] && y == f.ys[|f.ys| - 1] then f else Append(f, x, y)
  }

  /** Pushing a point extends the function by the chord to it. */
  lemma PushMeaning(f: Pwlf, x: real, y: real, z: real)
    requires |f.xs| > 0 && CanAppend(f, x, y)
    ensures var a := f.xs[|f.xs| - 1];
            Den(Push(f, x, y), z) ==
            if InDom(f, z) then Den(f, z)
            else if a < z <= x then Some(Line(a, f.ys[|f.ys| - 1], x, y, z)) else None
  {
    hide Eval, Line;
    EvalAppend(f, x, y, z);
  }

  function Start(x: real, y: real): Pwlf {
    Push(EMPTY, x, y)
  }

  lemma StartMeaning(x: real, y: real, z: real)
    ensures Den(Start(x, y), z) == if z == x then Some(y) else None
  {
    EvalAtFirst(Start(x, y), 0);
  }

  /** theta(t) = max(t, earliest) + service on [0, latest]. */
  function MakeTheta(earliest: real, latest: real, service: real): Pwlf
    requires 0.0 <= earliest <= latest
  {
    Push(Push(Start(0.0, earliest + service), earliest, earliest + service), latest, latest + service)
  }

  lemma FlatChord(a: real, x: real, y: real, z: real)
    requires a < x
    ensures Line(a, y, x, y, z) == y
  {
  }

  lemma UnitChord(a: real, x: real, c: real, z: real)
    requires a < x
    ensures Line(a, a + c, x, x + c, z) == z + c
  {
    var t := (z - a) / (x - a);
    assert t * (x - a) == z - a;
  }

  lemma MakeThetaMeaning(e: real, l: real, s: real, z: real)
    requires 0.0 <= e <= l
    ensures Den(MakeTheta(e, l, s), z) == if 0.0 <= z <= l then Some(Max(z, e) + s) else None
    ensures !IsEmpty(MakeTheta(e, l, s)) && MakeTheta(e, l, s).xs[0] == 0.0
  {
    hide Den, Line, Sorted;
    var f0 := Start(0.0, e + s);
    var f1 := Push(f0, e, e + s);
    StartMeaning(0.0, e + s, z);
    PushMeaning(f0, e, e + s, z);
    PushMeaning(f1, l, l + s, z);
    if 0.0 < e { FlatChord(0.0, e, e + s, z); }
    if e < l { UnitChord(e, l, s, z); }
  }

  /** The clamped twin of theta, total on [0, tEnd]. */
  function ThetaClamp(earliest: real, latest: real, service: real, tEnd: real): Pwlf
    requires 0.0 <= earliest <= latest <= tEnd
  {
    Push(MakeTheta(earliest, latest, service), tEnd, latest + service)
  }

  lemma ThetaClampMeaning(e: real, l: real, s: real, tEnd: real, z: real)
    requires 0.0 <= e <= l <= tEnd
    ensures Den(ThetaClamp(e, l, s, tEnd), z) == if 0.0 <= z <= tEnd then Some(Max(e, Min(z, l)) + s) else None
    ensures var f := ThetaClamp(e, l, s, tEnd); !IsEmpty(f) && f.xs[0] == 0.0 && f.ys[|f.ys| - 1] == l + s
  {
    hide Den, Line, Sorted;
    MakeThetaMeaning(e, l, s, z);
    PushMeaning(MakeTheta(e, l, s), tEnd, l + s, z);
    if l < tEnd { FlatChord(l, tEnd, l + s, z); }
  }

  /** Lateness after a deadline: zero, then a unit ramp. */
  function Lateness(deadline: real, tEnd: real): Pwlf
    requires 0.0 <= deadline <= tEnd
  {
    Push(Push(Start(0.0, 0.0), deadline, 0.0), tEnd, tEnd - deadline)
  }

  lemma LatenessMeaning(d: real, tEnd: real, z: real)
    requires 0.0 <= d <= tEnd
    ensures Den(Lateness(d, tEnd), z) == if 0.0 <= z <= tEnd then Some(Max(0.0, z - d)) else None
    ensures !IsEmpty(Lateness(d, tEnd)) && Lateness(d, tEnd).xs[0] == 0.0 && Lateness(d, tEnd).ys[0] == 0.0
  {
    hide Den, Line, Sorted;
    var f0 := Start(0.0, 0.0);
    var f1 := Push(f0, d, 0.0);
    StartMeaning(0.0, 0.0, z);
    PushMeaning(f0, d, 0.0, z);
    PushMeaning(f1, tEnd, tEnd - d, z);
    if 0.0 < d { FlatChord(0.0, d, 0.0, z); }
    if d < tEnd { UnitChord(d, tEnd, -d, z); }
  }

  /** The depot return: arrival clamped at the due date. */
  function ReturnClamp(due: real, tEnd: real): Pwlf
    requires 0.0 <= due <= tEnd
  {
    Push(Push(Start(0.0, 0.0), due, due), tEnd, due)
  }

  lemma ReturnClampMeaning(d: real, tEnd: real, z: real)
    requires 0.0 <= d <= tEnd
    ensures Den(ReturnClamp(d, tEnd), z) == if 0.0 <= z <= tEnd then Some(Min(z, d)) else None
    ensures var f := ReturnClamp(d, tEnd); !IsEmpty(f) && f.xs[0] == 0.0 && f.ys[|f.ys| - 1] == d
  {
    hide Den, Line, Sorted;
    var f0 := Start(0.0, 0.0);
    var f1 := Push(f0, d, d);
    StartMeaning(0.0, 0.0, z);
    PushMeaning(f0, d, d, z);
    PushMeaning(f1, tEnd, d, z);
    if 0.0 < d { UnitChord(0.0, d, 0.0, z); }
    if d < tEnd { FlatChord(d, tEnd, d, z); }
  }

  /** Time-window-free vertices: a pure service shift on [0, upper]. */
  function ServiceShift(upper: real, service: real): Pwlf
    requires 0.0 <= upper
  {
    Points([0.0, upper], [service, upper + service])
  }

  lemma ServiceShiftMeaning(upper: real, s: real, z: real)
    requires 0.0 <= upper
    ensures Den(ServiceShift(upper, s), z) == if 0.0 <= z <= upper then Some(z + s) else None
  {
    var f := ServiceShift(upper, s);
    if z == 0.0 {
      EvalAtFirst(f, 0);
    } else if 0.0 < z <= upper {
      EvalOnPiece(f, 1, z);
      UnitChord(0.0, upper, s, z);
    }
  }

  /** The source refuses a window that is not inside [.., tEnd]; here that is a precondition, met
      by every caller because tEnd is warp_horizon. On arrivals up to the deadline the clamped
      vertex function is the walled one; past it the walled one is undefined and the lateness positive. */
  lemma ClampAgreesWithWall(e: real, l: real, s: real, tEnd: real, z: real)
    requires 0.0 <= e <= l <= tEnd && 0.0 <= z <= tEnd
    ensures Den(MakeTheta(e, l, s), z).Some? <==> Den(Lateness(l, tEnd), z) == Some(0.0)
    ensures Den(MakeTheta(e, l, s), z).Some? ==> Den(MakeTheta(e, l, s), z) == Den(ThetaClamp(e, l, s, tEnd), z)
  {
    hide Den;
    MakeThetaMeaning(e, l, s, z);
    ThetaClampMeaning(e, l, s, tEnd, z);
    LatenessMeaning(l, tEnd, z);
  }
}
