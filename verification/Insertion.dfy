/** insertion_candidates (cpp/ls/insertion.cpp): all capacity-fitting feasible insertions of one
    client over all routes and positions, with their true deltas, best first. */
module Insertions {
  import opened Common
  import opened Pwlfs
  import opened Composition
  import opened Instances
  import opened RouteEvaluation
  import opened RouteLeaves
  import opened Splicing

  datatype Candidate = Candidate(delta: real, route: int, position: int)

  /** Best first by (delta, route, position). */
  predicate Before(x: Candidate, y: Candidate) {
    x.delta < y.delta
    || (x.delta == y.delta && (x.route < y.route || (x.route == y.route && x.position < y.position)))
  }

  ghost predicate StatesBuilt(inst: Problem, states: seq<RouteState>)
    reads set s | s in states :: s.tree
  {
    forall b :: 0 <= b < |states| ==> Built(inst, states[b])
  }

  lemma InsertedIsRoute(inst: Problem, v: seq<int>, p: int, c: int)
    requires inst.Route(v) && inst.Customer(c) && 0 <= p <= |v|
    ensures inst.Route(InsertAt(v, p, c))
  {
  }

  /** Duration of the route with c inserted before position p: None unless the position exists, the
      capacity fits and the edited route is feasible for the fold. */
  function InsertedDuration(inst: Problem, v: seq<int>, load: int, c: int, p: int): Option<real>
    requires inst.Route(v) && inst.Customer(c)
  {
    if !(0 <= p <= |v|) || load + inst.demands[c] > inst.capacity then None
    else
      InsertedIsRoute(inst, v, p, c);
      var e := EvaluateRoute(inst, InsertAt(v, p, c));
      if e.Some? then Some(e.value.value) else None
  }

  ghost predicate AllRoutes(inst: Problem, states: seq<RouteState>) {
    forall b :: 0 <= b < |states| ==> inst.Route(states[b].vertices)
  }

  /** x is a feasible insertion with its true delta. */
  ghost predicate TrueCandidate(inst: Problem, states: seq<RouteState>, c: int, x: Candidate)
    requires inst.Customer(c) && AllRoutes(inst, states)
  {
    && 0 <= x.route < |states|
    && InsertedDuration(inst, states[x.route].vertices, states[x.route].load, c, x.position) == Some(x.delta + states[x.route].duration)
  }

  ghost predicate Sorted(s: seq<Candidate>) {
    forall i, j :: 0 <= i < j < |s| ==> Before(s[i], s[j])
  }

  method Place(r: seq<Candidate>, x: Candidate) returns (r': seq<Candidate>)
    requires Sorted(r) && x !in r
    ensures Sorted(r') && |r'| == |r| + 1 && forall y :: y in r' <==> y in r || y == x
  {
    var k := 0;
    while k < |r| && Before(r[k], x)
      invariant k <= |r| && forall i :: 0 <= i < k ==> Before(r[i], x)
    {
      k := k + 1;
    }
    r' := r[..k] + [x] + r[k..];
    assert r == r[..k] + r[k..];
  }

  /** std::sort under a strict total order on distinct entries. */
  method SortCandidates(s: seq<Candidate>) returns (r: seq<Candidate>)
    requires forall i, j :: 0 <= i < j < |s| ==> s[i] != s[j]
    ensures Sorted(r) && |r| == |s| && forall x :: x in r <==> x in s
  {
    hide Sorted;
    r := [];
    EmptySorted();
    for n := 0 to |s|
      invariant |r| == n && Sorted(r) && forall x :: x in r <==> x in s[..n]
    {
      assert s[n] !in s[..n];
      r := Place(r, s[n]);
      assert s[..n + 1] == s[..n] + [s[n]];
    }
    assert s[..|s|] == s;
  }

  lemma EmptySorted()
    ensures Sorted([])
  {
  }

  /** The first leaf starts at the departure window, so the shared prefix meets no wall. */
  lemma HeadLeafExtends(inst: Problem, route: seq<int>)
    requires inst.Route(route) && |route| > 0
    ensures inst.Route(route[..1]) && IsPrefix(inst, Compose(LeafAt(inst, route, 0), DepartureIdentity(inst)), route[..1])
  {
    hide Eval, Compose, ThetaFor, ReadyNext;
    var dep := DepartureIdentity(inst);
    var head := LeafAt(inst, route, 0);
    DepartureIdentityMeaning(inst);
    LeafIsStretch(inst, route, 0);
    assert route[..1] == [route[0]] == route[0..1];
    ArrivalFromHorizon(inst, 0, route[0], dep);
    var arrival := Compose(inst.arcs[0][route[0]], dep);
    ComposeAfter(inst.arcs[0][route[0]], dep, 0.0);
    if !IsEmpty(arrival) { ThetaAfter(inst, route[0], arrival); }
    forall t ensures Den(Compose(head, dep), t) == Prefix(inst, route[..1], t) {
      ComposeAfter(head, dep, t);
      assert Den(dep, t) == if MayLeave(inst, t) then Some(t) else None;
    }
    ComposeAfter(head, dep, 0.0);
    if !IsEmpty(Compose(head, dep)) { EvalBounds(head, dep.ys[0]); }
  }

  /** Advance the shared prefix of a route by its next leaf. */
  method AdvancePrefix(inst: Problem, r: RouteState, p: int, prefix: Pwlf) returns (next: Pwlf)
    requires Built(inst, r) && 0 <= p < |r.vertices| && inst.Route(r.vertices[..p]) && IsPrefix(inst, prefix, r.vertices[..p])
    requires p == 0 ==> prefix == DepartureIdentity(inst)
    ensures inst.Route(r.vertices[..p + 1]) && IsPrefix(inst, next, r.vertices[..p + 1])
  {
    hide IsPrefix, EvaluateRoute, Compose, LeafAt;
    var v := r.vertices;
    WindowOpen(inst, v);
    next := Compose(r.tree.leaves[p], prefix);
    if p == 0 {
      HeadLeafExtends(inst, v);
    } else {
      BridgeExtends(inst, prefix, v[..p], v[p]);
      assert v[..p] + [v[p]] == v[..p + 1];
      MiddleLeaf(inst, v, p);
    }
  }

  lemma MiddleLeaf(inst: Problem, v: seq<int>, p: int)
    requires inst.Route(v) && 0 < p < |v|
    ensures LeafAt(inst, v, p) == BridgeLeaf(inst, v[p - 1], v[p])
  {
  }

  /** The candidates of one route, in position order. */
  method RouteCandidates(inst: Problem, r: RouteState, b: int, c: int) returns (out: seq<Candidate>)
    requires Built(inst, r) && inst.Customer(c)
    ensures inst.Route(r.vertices)
    ensures forall i, j :: 0 <= i < j < |out| ==> out[i].position < out[j].position
    ensures forall x :: x in out <==> x.route == b && InsertedDuration(inst, r.vertices, r.load, c, x.position) == Some(x.delta + r.duration)
  {
    hide IsPrefix, EvaluateRoute, Built, InsertAt, InsertedDuration;
    BuiltRoute(inst, r);
    var v := r.vertices;
    out := [];
    if r.load + inst.demands[c] > inst.capacity {
      NoInsertion(inst, v, r.load, c);
      return;
    }
    var prefix := DepartureIdentity(inst);
    DepartureIsPrefix(inst);
    assert v[..0] == [];
    NoInsertion(inst, v, r.load, c);
    var p := 0;
    while p <= |v|
      invariant 0 <= p <= |v| + 1
      invariant p <= |v| ==> inst.Route(v[..p]) && IsPrefix(inst, prefix, v[..p]) && (p == 0 ==> prefix == DepartureIdentity(inst))
      invariant forall i, j :: 0 <= i < j < |out| ==> out[i].position < out[j].position
      invariant forall x :: x in out <==> x.route == b && x.position < p && InsertedDuration(inst, v, r.load, c, x.position) == Some(x.delta + r.duration)
    {
      if p > 0 && IsEmpty(prefix) {
        DeadInsertions(inst, prefix, v, p, r.load, c);
        return;
      }
      var e := PriceInsertion(inst, r, p, c, prefix);
      ghost var before := out;
      if e.Some? {
        out := out + [Candidate(e.value - r.duration, b, p)];
      }
      assert forall x :: x in out <==> x in before || (e.Some? && x == Candidate(e.value - r.duration, b, p));
      if p < |v| { prefix := AdvancePrefix(inst, r, p, prefix); }
      p := p + 1;
    }
  }

  lemma NoInsertion(inst: Problem, v: seq<int>, load: int, c: int)
    requires inst.Route(v) && inst.Customer(c)
    ensures forall p :: !(0 <= p <= |v|) || load + inst.demands[c] > inst.capacity ==> InsertedDuration(inst, v, load, c, p) == None
  {
  }

  lemma DeadInsertions(inst: Problem, prefix: Pwlf, v: seq<int>, p: int, load: int, c: int)
    requires inst.Route(v) && inst.Customer(c) && 0 <= p <= |v|
    requires inst.Route(v[..p]) && IsPrefix(inst, prefix, v[..p]) && IsEmpty(prefix)
    ensures forall q :: p <= q ==> InsertedDuration(inst, v, load, c, q) == None
  {
    forall q | p <= q <= |v| ensures InsertedDuration(inst, v, load, c, q) == None {
      DeadInsertion(inst, prefix, v, p, q, c);
    }
  }

  lemma DeadInsertion(inst: Problem, prefix: Pwlf, v: seq<int>, p: int, q: int, c: int)
    requires inst.Route(v) && inst.Customer(c) && 0 <= p <= q <= |v|
    requires inst.Route(v[..p]) && IsPrefix(inst, prefix, v[..p]) && IsEmpty(prefix)
    ensures inst.Route(InsertAt(v, q, c)) && EvaluateRoute(inst, InsertAt(v, q, c)).None?
  {
    hide IsPrefix, EvaluateRoute;
    DeadPrefix(inst, prefix, v[..p], v[p..q] + [c] + v[q..]);
    assert v[..p] + (v[p..q] + [c] + v[q..]) == InsertAt(v, q, c);
  }

  method PriceInsertion(inst: Problem, r: RouteState, p: int, c: int, prefix: Pwlf) returns (d: Option<real>)
    requires Built(inst, r) && inst.Customer(c) && 0 <= p <= |r.vertices| && r.load + inst.demands[c] <= inst.capacity
    requires inst.Route(r.vertices[..p]) && IsPrefix(inst, prefix, r.vertices[..p])
    ensures inst.Route(r.vertices) && d == InsertedDuration(inst, r.vertices, r.load, c, p)
  {
    hide IsPrefix, EvaluateRoute, Built;
    BuiltRoute(inst, r);
    var v := r.vertices;
    var acc := CrossBridge(inst, prefix, v[..p], if p > 0 then v[p - 1] else 0, c);
    if IsEmpty(acc) {
      DeadPrefix(inst, acc, v[..p] + [c], v[p..]);
      return None;
    }
    var e := CloseWith(inst, acc, v[..p] + [c], c, r, p);
    return if e.Some? then Some(e.value.value) else None;
  }

  method InsertionCandidates(inst: Problem, states: seq<RouteState>, c: int) returns (out: seq<Candidate>)
    requires StatesBuilt(inst, states) && inst.Customer(c)
    ensures Sorted(out)
    ensures forall x :: x in out <==> TrueCandidate(inst, states, c, x)
  {
    hide InsertedDuration, Built, InsertAt;
    forall b | 0 <= b < |states| ensures inst.Route(states[b].vertices) { BuiltRoute(inst, states[b]); }
    out := [];
    for b := 0 to |states|
      invariant forall i, j :: 0 <= i < j < |out| ==> out[i] != out[j]
      invariant forall x: Candidate :: x in out <==> x.route < b && TrueCandidate(inst, states, c, x)
    {
      var more := RouteCandidates(inst, states[b], b, c);
      ghost var before := out;
      out := out + more;
      forall x | x in out ensures x.route < b + 1 && TrueCandidate(inst, states, c, x) {
        assert x in before || x in more;
      }
      forall x: Candidate | x.route < b + 1 && TrueCandidate(inst, states, c, x) ensures x in out {
        if x.route == b {
          var y :| y in more && y.position == x.position;
          assert y == x;
        } else {
          assert x in before;
        }
      }
      forall i, j | 0 <= i < j < |out| ensures out[i] != out[j] {
        if j >= |before| {
          assert out[j] in more;
          if i < |before| { assert out[i] in before; }
        }
      }
    }
    out := SortCandidates(out);
  }
}
