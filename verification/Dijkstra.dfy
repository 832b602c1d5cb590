/** Time-dependent Dijkstra over the free customers (cpp/heuristics/construct.h). Label setting is
    optimal because arrival-time functions are non-decreasing (FIFO). */
module Dijkstra {
  import opened Common
  import opened Instances

  /** Every stop is a free customer. */
  predicate FreeStops(inst: Problem, free: seq<bool>, stops: seq<int>)
    requires |free| == inst.n + 1
  {
    forall k :: 0 <= k < |stops| ==> inst.Customer(stops[k]) && free[stops[k]]
  }

  lemma FreeIsRoute(inst: Problem, free: seq<bool>, stops: seq<int>)
    requires |free| == inst.n + 1 && FreeStops(inst, free, stops)
    ensures inst.Route(stops)
  {
  }

  /** The ready time at the end of a path through free customers, if it is one and feasible. */
  function Reach(inst: Problem, free: seq<bool>, source: int, t0: real, stops: seq<int>): Option<real>
    requires |free| == inst.n + 1 && inst.Vertex(source)
  {
    if FreeStops(inst, free, stops) then (FreeIsRoute(inst, free, stops); Chain(inst, source, stops, t0)) else None
  }

  ghost predicate Attained(inst: Problem, free: seq<bool>, source: int, t0: real, v: int, x: real)
    requires |free| == inst.n + 1 && inst.Vertex(source)
  {
    exists stops :: Last(source, stops) == v && Reach(inst, free, source, t0, stops) == Some(x)
  }

  ghost predicate AtLeast(inst: Problem, free: seq<bool>, source: int, t0: real, v: int, x: real)
    requires |free| == inst.n + 1 && inst.Vertex(source)
  {
    forall stops :: Last(source, stops) == v && Reach(inst, free, source, t0, stops).Some? ==> x <= Reach(inst, free, source, t0, stops).value
  }

  /** m is the earliest ready time at v over all paths through free customers; None: unreachable. */
  ghost predicate Earliest(inst: Problem, free: seq<bool>, source: int, t0: real, v: int, m: Option<real>)
    requires |free| == inst.n + 1 && inst.Vertex(source)
  {
    if m.Some? then Attained(inst, free, source, t0, v, m.value) && AtLeast(inst, free, source, t0, v, m.value)
    else forall stops :: Last(source, stops) == v ==> Reach(inst, free, source, t0, stops).None?
  }

  /** Going one stop further. */
  lemma ReachExtend(inst: Problem, free: seq<bool>, source: int, t0: real, stops: seq<int>, w: int)
    requires |free| == inst.n + 1 && inst.Vertex(source) && inst.Customer(w)
    requires Reach(inst, free, source, t0, stops).Some?
    ensures inst.Vertex(Last(source, stops)) && Last(source, stops + [w]) == w
    ensures free[w] ==> Reach(inst, free, source, t0, stops + [w]) == ReadyNext(inst, Last(source, stops), w, Reach(inst, free, source, t0, stops).value)
  {
    hide ReadyNext;
    FreeIsRoute(inst, free, stops);
    ChainConcat(inst, source, stops, [w], t0);
    assert [w][1..] == [];
  }

  /** A path minus its last stop. */
  lemma ReachShorter(inst: Problem, free: seq<bool>, source: int, t0: real, stops: seq<int>)
    requires |free| == inst.n + 1 && inst.Vertex(source) && |stops| > 0
    requires Reach(inst, free, source, t0, stops).Some?
    ensures var before, w := stops[..|stops| - 1], stops[|stops| - 1];
            && inst.Customer(w) && free[w] && inst.Vertex(Last(source, before))
            && Reach(inst, free, source, t0, before).Some?
            && ReadyNext(inst, Last(source, before), w, Reach(inst, free, source, t0, before).value) == Reach(inst, free, source, t0, stops)
  {
    hide ReadyNext;
    var before, w := stops[..|stops| - 1], stops[|stops| - 1];
    assert before + [w] == stops;
    FreeIsRoute(inst, free, stops);
    ChainConcat(inst, source, before, [w], t0);
    assert FreeStops(inst, free, before);
    assert [w][1..] == [];
  }

  /** Ready times never fall below the start. */
  lemma {:induction false} ReachForward(inst: Problem, free: seq<bool>, source: int, t0: real, stops: seq<int>)
    requires |free| == inst.n + 1 && inst.Vertex(source) && inst.horizonStart <= t0
    requires Reach(inst, free, source, t0, stops).Some?
    ensures t0 <= Reach(inst, free, source, t0, stops).value
    decreases |stops|
  {
    hide ReadyNext;
    if |stops| > 0 {
      ReachShorter(inst, free, source, t0, stops);
      var before := stops[..|stops| - 1];
      ReachForward(inst, free, source, t0, before);
      var t := Reach(inst, free, source, t0, before).value;
      ReadyNextMonotone(inst, Last(source, before), stops[|stops| - 1], t, t);
    }
  }

  // ---------- the search ----------

  type Item = (real, int)

  /** Labels and queue between two pops. */
  ghost predicate Labels(inst: Problem, free: seq<bool>, source: int, t0: real, done: seq<bool>, eat: seq<Option<real>>, queue: seq<Item>) {
    && |free| == |done| == |eat| == inst.n + 1 && inst.Vertex(source) && !free[0] && !free[source] && inst.horizonStart <= t0
    && (forall v :: 0 <= v <= inst.n && done[v] ==>
          eat[v].Some? && (v == source || free[v]) && Earliest(inst, free, source, t0, v, eat[v]) && t0 <= eat[v].value)
    && (forall v :: 0 <= v <= inst.n && !done[v] ==> eat[v].None?)
    && (forall q :: q in queue ==> 0 <= q.1 <= inst.n && (q.1 == source || free[q.1]) && Attained(inst, free, source, t0, q.1, q.0))
    && (!done[source] ==> (t0, source) in queue)
    && (forall v, w :: 0 <= v <= inst.n && done[v] && inst.Customer(w) && free[w] && !done[w] ==> Queued(inst, v, w, eat[v].value, queue))
  }

  predicate Queued(inst: Problem, v: int, w: int, t: real, queue: seq<Item>)
    requires inst.Vertex(v) && inst.Vertex(w)
  {
    ReadyNext(inst, v, w, t).Some? ==> (ReadyNext(inst, v, w, t).value, w) in queue
  }

  ghost predicate SomeBelow(queue: seq<Item>, x: real) {
    exists q :: q in queue && q.0 <= x
  }

  /** Every path is overtaken: its end is settled no later, or the queue holds something no later. */
  lemma {:induction false} Covered(inst: Problem, free: seq<bool>, source: int, t0: real, done: seq<bool>, eat: seq<Option<real>>, queue: seq<Item>, stops: seq<int>)
    requires Labels(inst, free, source, t0, done, eat, queue)
    requires Reach(inst, free, source, t0, stops).Some?
    ensures var v, x := Last(source, stops), Reach(inst, free, source, t0, stops).value;
            0 <= v <= inst.n && ((done[v] && eat[v].value <= x) || SomeBelow(queue, x))
    decreases |stops|
  {
    hide ReadyNext, Reach, Attained;
    var x := Reach(inst, free, source, t0, stops).value;
    if |stops| == 0 {
      EmptyReach(inst, free, source, t0, stops);
      if !done[source] { assert (t0, source) in queue; }
    } else {
      ReachShorter(inst, free, source, t0, stops);
      var before, w := stops[..|stops| - 1], stops[|stops| - 1];
      var u, y := Last(source, before), Reach(inst, free, source, t0, before).value;
      Covered(inst, free, source, t0, done, eat, queue, before);
      ReachForward(inst, free, source, t0, before);
      ReadyNextMonotone(inst, u, w, y, y);
      if done[u] && eat[u].value <= y && !done[w] {
        ReadyNextMonotone(inst, u, w, eat[u].value, y);
        assert Queued(inst, u, w, eat[u].value, queue);
        assert (ReadyNext(inst, u, w, eat[u].value).value, w) in queue;
      }
    }
  }

  lemma EmptyReach(inst: Problem, free: seq<bool>, source: int, t0: real, stops: seq<int>)
    requires |free| == inst.n + 1 && inst.Vertex(source) && |stops| == 0
    ensures Reach(inst, free, source, t0, stops) == Some(t0) && Last(source, stops) == source
  {
  }

  method PopMin(queue: seq<Item>) returns (top: Item, rest: seq<Item>)
    requires |queue| > 0
    ensures top in queue && forall q :: q in queue ==> top.0 <= q.0
    ensures |rest| == |queue| - 1 && forall q :: q in queue <==> q in rest || q == top
  {
    var best := 0;
    for k := 0 to |queue|
      invariant 0 <= best < |queue|
      invariant forall j :: 0 <= j < k ==> queue[best].0 <= queue[j].0
    {
      if queue[k].0 < queue[best].0 || (queue[k].0 == queue[best].0 && queue[k].1 < queue[best].1) { best := k; }
    }
    top, rest := queue[best], queue[..best] + queue[best + 1..];
    assert queue == queue[..best] + [top] + queue[best + 1..];
  }

  /** Push every free unsettled customer reachable from v. */
  method PushSuccessors(inst: Problem, free: seq<bool>, done: seq<bool>, v: int, t: real, queue0: seq<Item>) returns (queue: seq<Item>)
    requires |free| == |done| == inst.n + 1 && inst.Vertex(v)
    ensures forall q :: q in queue <==> q in queue0 || (inst.Customer(q.1) && free[q.1] && !done[q.1] && ReadyNext(inst, v, q.1, t) == Some(q.0))
  {
    hide ReadyNext;
    queue := queue0;
    for w := 1 to inst.n + 1
      invariant forall q :: q in queue <==>
                  q in queue0 || (1 <= q.1 < w && free[q.1] && !done[q.1] && ReadyNext(inst, v, q.1, t) == Some(q.0))
    {
      if !done[w] && free[w] {
        var ready := ReadyNext(inst, v, w, t);
        if ready.Some? { queue := queue + [(ready.value, w)]; }
      }
    }
  }

  /** The least label of an unsettled vertex is final. */
  lemma PoppedIsEarliest(inst: Problem, free: seq<bool>, source: int, t0: real, done: seq<bool>, eat: seq<Option<real>>, queue: seq<Item>, top: Item)
    requires Labels(inst, free, source, t0, done, eat, queue) && top in queue && !done[top.1]
    requires forall q :: q in queue ==> top.0 <= q.0
    ensures Earliest(inst, free, source, t0, top.1, Some(top.0)) && t0 <= top.0
  {
    hide ReadyNext, Reach;
    forall stops | Last(source, stops) == top.1 && Reach(inst, free, source, t0, stops).Some? ensures top.0 <= Reach(inst, free, source, t0, stops).value {
      Covered(inst, free, source, t0, done, eat, queue, stops);
    }
    var stops :| Last(source, stops) == top.1 && Reach(inst, free, source, t0, stops) == Some(top.0);
    ReachForward(inst, free, source, t0, stops);
  }

  /** What is pushed from a settled vertex is attained. */
  lemma PushedIsAttained(inst: Problem, free: seq<bool>, source: int, t0: real, v: int, t: real, w: int, r: real)
    requires |free| == inst.n + 1 && inst.Vertex(source) && inst.Vertex(v) && inst.Customer(w) && free[w]
    requires Attained(inst, free, source, t0, v, t) && ReadyNext(inst, v, w, t) == Some(r)
    ensures Attained(inst, free, source, t0, w, r)
  {
    hide ReadyNext, Reach;
    var stops :| Last(source, stops) == v && Reach(inst, free, source, t0, stops) == Some(t);
    ReachExtend(inst, free, source, t0, stops, w);
  }

  lemma SettleKeeps(inst: Problem, free: seq<bool>, source: int, t0: real, done: seq<bool>, eat: seq<Option<real>>, queue: seq<Item>,
                    top: Item, rest: seq<Item>, queue': seq<Item>)
    requires Labels(inst, free, source, t0, done, eat, queue) && top in queue && !done[top.1]
    requires (forall q :: q in queue ==> top.0 <= q.0) && (forall q :: q in queue <==> q in rest || q == top)
    requires forall q :: q in queue' <==> q in rest || (inst.Customer(q.1) && free[q.1] && !done[top.1 := true][q.1] && ReadyNext(inst, top.1, q.1, top.0) == Some(q.0))
    ensures Labels(inst, free, source, t0, done[top.1 := true], eat[top.1 := Some(top.0)], queue')
  {
    hide ReadyNext, Reach, Attained, Earliest;
    PoppedIsEarliest(inst, free, source, t0, done, eat, queue, top);
    forall q | q in queue' ensures 0 <= q.1 <= inst.n && (q.1 == source || free[q.1]) && Attained(inst, free, source, t0, q.1, q.0) {
      if q !in rest { PushedIsAttained(inst, free, source, t0, top.1, top.0, q.1, q.0); }
    }
    var done', eat' := done[top.1 := true], eat[top.1 := Some(top.0)];
    forall v, w | 0 <= v <= inst.n && done'[v] && inst.Customer(w) && free[w] && !done'[w] ensures Queued(inst, v, w, eat'[v].value, queue') {
      if v != top.1 {
        assert Queued(inst, v, w, eat[v].value, queue);
        if ReadyNext(inst, v, w, eat[v].value).Some? { assert (ReadyNext(inst, v, w, eat[v].value).value, w) != top; }
      }
    }
  }

  lemma SkipKeeps(inst: Problem, free: seq<bool>, source: int, t0: real, done: seq<bool>, eat: seq<Option<real>>, queue: seq<Item>, top: Item, rest: seq<Item>)
    requires Labels(inst, free, source, t0, done, eat, queue) && top in queue && done[top.1]
    requires forall q :: q in queue <==> q in rest || q == top
    ensures Labels(inst, free, source, t0, done, eat, rest)
  {
    hide ReadyNext, Reach, Attained, Earliest;
    forall v, w | 0 <= v <= inst.n && done[v] && inst.Customer(w) && free[w] && !done[w] ensures Queued(inst, v, w, eat[v].value, rest) {
      assert Queued(inst, v, w, eat[v].value, queue);
      if ReadyNext(inst, v, w, eat[v].value).Some? { assert (ReadyNext(inst, v, w, eat[v].value).value, w) != top; }
    }
  }

  ghost function Undone(n: nat, done: seq<bool>): set<int>
    requires |done| == n + 1
  {
    set v | 0 <= v <= n && !done[v]
  }

  lemma StartLabels(inst: Problem, free: seq<bool>, source: int, t0: real)
    requires |free| == inst.n + 1 && inst.Vertex(source) && !free[0] && !free[source] && inst.horizonStart <= t0
    ensures Labels(inst, free, source, t0, seq(inst.n + 1, _ => false), seq(inst.n + 1, _ => None), [(t0, source)])
  {
    hide ReadyNext;
    EmptyReach(inst, free, source, t0, []);
    assert Attained(inst, free, source, t0, source, t0);
  }

  lemma FinalLabels(inst: Problem, free: seq<bool>, source: int, t0: real, done: seq<bool>, eat: seq<Option<real>>, v: int)
    requires Labels(inst, free, source, t0, done, eat, []) && 0 <= v <= inst.n
    ensures Earliest(inst, free, source, t0, v, eat[v])
  {
    hide ReadyNext, Reach, Attained;
    if !done[v] {
      forall stops | Last(source, stops) == v ensures Reach(inst, free, source, t0, stops).None? {
        if Reach(inst, free, source, t0, stops).Some? { Covered(inst, free, source, t0, done, eat, [], stops); }
      }
    }
  }

  /** earliest_ready_times: for every other vertex the earliest ready time over all paths through free
      customers, None where there is no path. */
  method EarliestReadyTimes(inst: Problem, source: int, t0: real, free: seq<bool>) returns (eat: seq<Option<real>>)
    requires |free| == inst.n + 1 && inst.Vertex(source) && !free[0] && !free[source] && inst.horizonStart <= t0
    ensures |eat| == inst.n + 1 && eat[source] == None
    ensures forall v :: 0 <= v <= inst.n && v != source ==> Earliest(inst, free, source, t0, v, eat[v])
  {
    hide Labels, Earliest, ReadyNext;
    var n := inst.n;
    eat := seq(n + 1, _ => None);
    var done := seq(n + 1, _ => false);
    var queue: seq<Item> := [(t0, source)];
    StartLabels(inst, free, source, t0);
    while |queue| > 0
      invariant |done| == |eat| == n + 1 && Labels(inst, free, source, t0, done, eat, queue)
      decreases Undone(n, done), |queue|
    {
      var top, rest := PopMin(queue);
      QueueInside(inst, free, source, t0, done, eat, queue, top);
      if done[top.1] {
        SkipKeeps(inst, free, source, t0, done, eat, queue, top, rest);
        queue := rest;
      } else {
        ghost var before := done;
        var more := PushSuccessors(inst, free, done[top.1 := true], top.1, top.0, rest);
        SettleKeeps(inst, free, source, t0, done, eat, queue, top, rest, more);
        done, eat, queue := done[top.1 := true], eat[top.1 := Some(top.0)], more;
        assert top.1 in Undone(n, before) && top.1 !in Undone(n, done);
      }
    }
    assert queue == [];
    forall v | 0 <= v <= n ensures Earliest(inst, free, source, t0, v, eat[v]) {
      FinalLabels(inst, free, source, t0, done, eat, v);
    }
    eat := eat[source := None];
  }

  lemma QueueInside(inst: Problem, free: seq<bool>, source: int, t0: real, done: seq<bool>, eat: seq<Option<real>>, queue: seq<Item>, top: Item)
    requires Labels(inst, free, source, t0, done, eat, queue) && top in queue
    ensures 0 <= top.1 <= inst.n
  {
  }
}
