/** Cancellation reaches everything below a cancelled node, and does so after
    finitely many steps of koil's own. */
module Propagation {
  import opened Options
  import opened Race
  import opened Protocol

  /** The steps that carry a cancellation: they need no user code, no timer. */
  ghost predicate Internal(s: State, l: Label) {
    && Enabled(s, l)
    && (l.Enqueue? || l.Deliver? || l.CancelAwait? || (l.RaceOver? && Deadline !in l.finished))
  }

  ghost predicate Quiescent(s: State) { forall l :: !Internal(s, l) }

  /** A cancellation was asked for here: set() was called on the node's event, or
      its race was lost. */
  predicate Hit(n: Node) { n.asked || (n.k.Fut? && WorkCancelled(n)) }

  /** It arrived: the coroutine was cancelled, or the thread can see its event. */
  predicate Signalled(n: Node) { if n.k.Fut? then WorkCancelled(n) else n.isSet }

  /** The coroutine, or the thread, has not ended. */
  predicate Live(n: Node) { if n.k.Fut? then n.k.work.None? else n.k.thread.None? }

  predicate AtOrBelow(s: State, a: int, d: int)
    requires 0 <= d < |s.nodes|
    decreases d
  {
    d == a || (0 <= s.nodes[d].up < d && AtOrBelow(s, a, s.nodes[d].up))
  }

  /** A worker passes a cancellation on to the futures its function submitted if the
      function still runs or its event was asked for. Every future does. */
  predicate Link(n: Node) { n.k.Wrk? ==> n.k.thread.None? || n.asked }

  /** A worker started by a coroutine that had been cancelled. */
  predicate Late(n: Node) { n.k.Wrk? && n.k.late }

  /** d is a or lies below it along links, with no late worker at d or strictly between. */
  predicate Linked(s: State, a: int, d: int)
    requires 0 <= d < |s.nodes|
    decreases d
  {
    || d == a
    || (!Late(s.nodes[d]) && 0 <= s.nodes[d].up < d && Link(s.nodes[s.nodes[d].up]) && Linked(s, a, s.nodes[d].up))
  }

  /** A cause of cancellation of its own: a request made here, or a CancelledError that
      escaped the function. */
  predicate Marked(n: Node) { n.explicit || Escaped(n) }

  /** d is a or lies below it, with no cause of its own at d or strictly between. */
  predicate Undisturbed(s: State, a: int, d: int)
    requires 0 <= d < |s.nodes|
    decreases d
  {
    d == a || (!Marked(s.nodes[d]) && 0 <= s.nodes[d].up < d && Undisturbed(s, a, s.nodes[d].up))
  }

  lemma DeliverEnabled(s: State)
    requires Inv(s) && s.queue != []
    ensures Internal(s, Deliver)
  {
    assert s.queue[0] in s.queue;
  }

  lemma QuiescentQueue(s: State)
    requires Inv(s) && Quiescent(s)
    ensures s.queue == []
  {
    if s.queue != [] { DeliverEnabled(s); }
  }

  lemma QuiescentFut(s: State, f: int)
    requires Inv(s) && Quiescent(s) && IsFut(s, f) && Live(s.nodes[f])
    requires s.nodes[f].asked || (s.nodes[f].up != -1 && s.nodes[s.nodes[f].up].isSet)
    ensures Signalled(s.nodes[f])
  {
    QuiescentQueue(s);
    assert FutInv(s, f) && EventInv(s, f);
    var racer := if s.nodes[f].isSet then OwnCancel else AmbientCancel;
    assert !Internal(s, Enqueue(f)) && !Internal(s, RaceOver(f, {racer}));
  }

  lemma QuiescentWrk(s: State, w: int)
    requires Inv(s) && Quiescent(s) && IsWrk(s, w) && Live(s.nodes[w])
    requires s.nodes[w].asked || (s.nodes[w].up != -1 && !Late(s.nodes[w]))
    requires s.nodes[w].up != -1 && Live(s.nodes[s.nodes[w].up]) ==>
               s.nodes[w].asked || Signalled(s.nodes[s.nodes[w].up])
    ensures Signalled(s.nodes[w])
  {
    QuiescentQueue(s);
    assert WrkInv(s, w) && EventInv(s, w);
    assert !Internal(s, CancelAwait(w));
  }

  /** Full propagation: once koil has nothing left to do on its own, everything
      alive that is linked to a cancelled node, at any depth, has been signalled. */
  lemma {:induction false} FullPropagation(s: State, a: int, d: int)
    requires Inv(s) && Quiescent(s)
    requires 0 <= a < |s.nodes| && 0 <= d < |s.nodes|
    requires Hit(s.nodes[a]) && Linked(s, a, d) && Live(s.nodes[d])
    ensures Signalled(s.nodes[d])
    decreases d
  {
    QuiescentQueue(s);
    var p := s.nodes[d].up;
    if IsFut(s, d) {
      assert FutInv(s, d);
      if d != a {
        assert EventInv(s, p);
        if Live(s.nodes[p]) { FullPropagation(s, a, p); }
      }
      if d != a || s.nodes[d].asked { QuiescentFut(s, d); }
    } else {
      assert WrkInv(s, d);
      if d != a && Live(s.nodes[p]) { FullPropagation(s, a, p); }
      QuiescentWrk(s, d);
    }
  }

  /** A node hit without a cause of its own is no late worker, and has a parent that was
      hit and links to it. */
  lemma HitFromAbove(s: State, i: int)
    requires Inv(s) && 0 <= i < |s.nodes| && Hit(s.nodes[i])
    requires !s.nodes[i].explicit && !(s.nodes[i].asked && Escaped(s.nodes[i]))
    ensures !Late(s.nodes[i])
    ensures 0 <= s.nodes[i].up < i && Hit(s.nodes[s.nodes[i].up]) && Link(s.nodes[s.nodes[i].up])
  {
    var n := s.nodes[i];
    if n.k.Fut? {
      assert FutInv(s, i);
      assert n.k.finished <= {AmbientCancel} by {
        forall r | r in n.k.finished ensures r == AmbientCancel { assert r != Work; }
      }
      assert AmbientCancel in n.k.finished;
    } else {
      assert WrkInv(s, i);
    }
  }

  lemma {:induction false} HitIsLinked(s: State, a: int, d: int)
    requires Inv(s) && 0 <= d < |s.nodes| && Undisturbed(s, a, d) && Hit(s.nodes[d])
    ensures Linked(s, a, d)
    decreases d
  {
    if d != a {
      HitFromAbove(s, d);
      HitIsLinked(s, a, s.nodes[d].up);
    }
  }

  /** Exactly what a cancellation reaches: at quiescence, of the nodes alive below a
      cancelled one and without a cause of their own on the way, those signalled are
      those linked to it. */
  lemma PropagationIff(s: State, a: int, d: int)
    requires Reachable(s) && Quiescent(s)
    requires 0 <= a < |s.nodes| && 0 <= d < |s.nodes|
    requires Hit(s.nodes[a]) && Undisturbed(s, a, d) && Live(s.nodes[d])
    ensures Signalled(s.nodes[d]) <==> Linked(s, a, d)
  {
    ReachableInv(s);
    if Signalled(s.nodes[d]) {
      assert EventInv(s, d);
      HitIsLinked(s, a, d);
    } else if Linked(s, a, d) {
      FullPropagation(s, a, d);
    }
  }

  /** Exactly who is signalled at quiescence: a running coroutine iff its own event
      was asked for, its deadline passed or the event of the worker it was submitted
      from is set; a running thread iff its awaiting task was cancelled, by request or
      because the coroutine around it was, after it started the thread. */
  lemma QuiescentExact(s: State, i: int)
    requires Inv(s) && Quiescent(s) && 0 <= i < |s.nodes| && Live(s.nodes[i])
    ensures var n := s.nodes[i];
            Signalled(n) <==>
            if n.k.Fut? then n.asked || Deadline in n.k.finished || (IsWrk(s, n.up) && s.nodes[n.up].isSet)
            else n.explicit || (IsFut(s, n.up) && WorkCancelled(s.nodes[n.up]) && !Late(n))
  {
    QuiescentQueue(s);
    assert EventInv(s, i);
    var n := s.nodes[i];
    if n.k.Fut? {
      assert FutInv(s, i);
      if n.asked || (n.up != -1 && s.nodes[n.up].isSet) { QuiescentFut(s, i); }
      if n.up != -1 { assert EventInv(s, n.up); }
      if WorkCancelled(n) {
        var r :| r in n.k.finished;
        assert r != Work;
      }
    } else {
      assert WrkInv(s, i);
      assert !Internal(s, CancelAwait(i));
    }
  }

  /** No lost cancellation: once a worker's event is delivered, a nested submission
      either was checked before and races the ambient event, or is refused; so no
      nested future waits on its work alone. */
  lemma NoLostCancellation(s: State, w: int, f: int)
    requires Reachable(s) && IsWrk(s, w) && s.nodes[w].isSet
    ensures !Enabled(s, Submit(w, true)) && !Enabled(s, Submit(w, false))
    ensures s.nodes[w].k.thread.None? ==> Enabled(s, Refuse(w))
    ensures IsFut(s, f) && s.nodes[f].up == w && s.nodes[f].k.phase.Racing? && s.nodes[f].k.work.None? ==>
              Internal(s, RaceOver(f, {AmbientCancel}))
    ensures IsFut(s, f) && s.nodes[f].up == w && Quiescent(s) && Live(s.nodes[f]) ==> WorkCancelled(s.nodes[f])
  {
    ReachableInv(s);
    if IsFut(s, f) && s.nodes[f].up == w && Quiescent(s) && Live(s.nodes[f]) {
      QuiescentFut(s, f);
    }
  }

  // ---- what is missed ----

  const Outer := Node(-1, false, false, false, Race0)
  const Lost := Node(-1, true, true, true, Race0.(phase := Unwinding, finished := {OwnCancel}))
  const Orphan := Node(1, false, false, false, Race0)
  const Gone := Node(0, false, false, false, Wrk(Some(Value(0)), Left(Gives(0)), false, false, false, false, false))
  const Sweeper := Node(0, false, false, false, Thread0.(late := true))

  lemma OrphanSetup()
    ensures Reachable(State([Outer, Gone, Orphan], []))
  {
    var w := Node(0, false, false, false, Thread0);
    var w' := w.(k := w.k.(thread := Some(Value(0))));
    assert Reachable(State([Outer], [])) by { InitReachable(); Started([], -1, [Outer]); }
    assert Reachable(State([Outer, w], [])) by { Then(State([Outer], []), Spawn(0, false), State([Outer, w], [])); }
    assert Reachable(State([Outer, w, Orphan], [])) by { Started([Outer, w], 1, [Outer, w, Orphan]); }
    assert Reachable(State([Outer, w', Orphan], [])) by {
      Then(State([Outer, w, Orphan], []), ThreadEnds(1, Value(0)), State([Outer, w', Orphan], []));
    }
    Then(State([Outer, w', Orphan], []), Return(1), State([Outer, Gone, Orphan], []));
  }

  /** The outermost future is cancelled, and its coroutine is unwinding. */
  lemma OuterLoses(rest: seq<Node>)
    requires Reachable(State([Outer] + rest, []))
    ensures Reachable(State([Lost] + rest, []))
  {
    var c := Outer.(asked := true, explicit := true, isSet := true);
    assert Reachable(State([c] + rest, [])) by {
      assert ([Outer] + rest)[0 := c] == [c] + rest;
      AskedAndSet([Outer] + rest, 0, [c] + rest);
    }
    assert ([c] + rest)[0 := Lost] == [Lost] + rest;
    Then(State([c] + rest, []), RaceOver(0, {OwnCancel}), State([Lost] + rest, []));
  }

  /** Linked is narrower than AtOrBelow: a function that returns while a future it
      submitted is still running leaves that future out of reach of later requests. */
  lemma OrphanIsMissed() returns (s: State)
    ensures Reachable(s) && Quiescent(s) && |s.nodes| == 3
    ensures AtOrBelow(s, 0, 2) && Undisturbed(s, 0, 2) && !Linked(s, 0, 2)
    ensures Hit(s.nodes[0]) && Live(s.nodes[2]) && !Signalled(s.nodes[2])
  {
    s := State([Lost, Gone, Orphan], []);
    assert Reachable(s) by {
      OrphanSetup();
      assert [Outer] + [Gone, Orphan] == [Outer, Gone, Orphan] && [Lost] + [Gone, Orphan] == [Lost, Gone, Orphan];
      OuterLoses([Gone, Orphan]);
    }
  }

  /** So is a function that a cancelled coroutine starts, in a finally block say: cancel()
      was spent on an earlier await, and the cleanup runs on undisturbed. */
  lemma CleanupIsMissed() returns (s: State)
    ensures Reachable(s) && Quiescent(s) && |s.nodes| == 2
    ensures AtOrBelow(s, 0, 1) && Undisturbed(s, 0, 1) && !Linked(s, 0, 1)
    ensures Hit(s.nodes[0]) && Live(s.nodes[1]) && !Signalled(s.nodes[1])
  {
    s := State([Lost, Sweeper], []);
    assert Reachable(s) by {
      assert Reachable(State([Outer], [])) by { InitReachable(); Started([], -1, [Outer]); }
      assert [Outer] + [] == [Outer] && [Lost] + [] == [Lost];
      OuterLoses([]);
      Then(State([Lost], []), Spawn(0, false), s);
    }
  }
}
