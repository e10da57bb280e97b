/** A cancellation stays inside the subtree it was asked for. */
module Confinement {
  import opened Options
  import opened Race
  import opened Protocol
  import opened Propagation

  /** Where a cancellation can begin: a request made here, or a CancelledError that
      escaped the function and was then taken for a cancellation of the await. */
  predicate Origin(n: Node) { n.explicit || (n.asked && Escaped(n)) }

  predicate Caused(s: State, i: int)
    requires 0 <= i < |s.nodes|
    decreases i
  {
    Origin(s.nodes[i]) || (0 <= s.nodes[i].up < i && Caused(s, s.nodes[i].up))
  }

  /** A request was made at i or above it. */
  predicate Requested(s: State, i: int)
    requires 0 <= i < |s.nodes|
    decreases i
  {
    s.nodes[i].explicit || (0 <= s.nodes[i].up < i && Requested(s, s.nodes[i].up))
  }

  /** Every escape that was taken for a cancellation had been requested anyway. */
  ghost predicate EscapesRequested(s: State) {
    forall j :: 0 <= j < |s.nodes| && s.nodes[j].asked && Escaped(s.nodes[j]) ==> Requested(s, j)
  }

  /** Confinement: over every run, an event is set, asked for, or a coroutine
      cancelled, only below an origin. */
  lemma {:induction false} Confined(s: State, i: int)
    requires Inv(s) && 0 <= i < |s.nodes| && Hit(s.nodes[i])
    ensures Caused(s, i)
    decreases i
  {
    if !Origin(s.nodes[i]) {
      HitFromAbove(s, i);
      Confined(s, s.nodes[i].up);
    }
  }

  lemma {:induction false} CausedByRequest(s: State, i: int)
    requires 0 <= i < |s.nodes| && Caused(s, i) && EscapesRequested(s)
    ensures Requested(s, i)
    decreases i
  {
    if !Origin(s.nodes[i]) { CausedByRequest(s, s.nodes[i].up); }
  }

  /** Exactly when requests alone explain every cancellation of a reachable state. */
  lemma ConfinementIff(s: State)
    requires Reachable(s)
    ensures (forall i :: 0 <= i < |s.nodes| && Hit(s.nodes[i]) ==> Requested(s, i)) <==> EscapesRequested(s)
  {
    ReachableInv(s);
    if EscapesRequested(s) {
      forall i | 0 <= i < |s.nodes| && Hit(s.nodes[i]) ensures Requested(s, i) {
        Confined(s, i);
        CausedByRequest(s, i);
      }
    }
  }

  /** A call is refused only if its own worker was asked to stop or something above
      that worker is the cause. Requests at the worker's own futures never are, so
      cancelling one future does not poison the calls after it. */
  lemma RefusalHasCause(s: State, w: int)
    requires Reachable(s) && Enabled(s, Refuse(w))
    ensures s.nodes[w].explicit || (0 <= s.nodes[w].up < w && Caused(s, s.nodes[w].up))
    ensures EscapesRequested(s) ==> Requested(s, w)
  {
    ReachableInv(s);
    assert EventInv(s, w);
    Confined(s, w);
    if EscapesRequested(s) { CausedByRequest(s, w); }
  }

  lemma {:induction false} CauseAbove(s: State, d: int) returns (a: int)
    requires 0 <= d < |s.nodes| && Caused(s, d)
    ensures 0 <= a <= d && Origin(s.nodes[a]) && AtOrBelow(s, a, d)
    decreases d
  {
    if Origin(s.nodes[d]) { a := d; } else { a := CauseAbove(s, s.nodes[d].up); }
  }

  /** Nothing outside a subtree is cancelled exactly if no cancellation begins there. */
  lemma NothingOutside(s: State, a: int)
    requires Reachable(s)
    ensures (forall d :: 0 <= d < |s.nodes| && (Hit(s.nodes[d]) || s.nodes[d].isSet) ==> AtOrBelow(s, a, d))
            <==> (forall j :: 0 <= j < |s.nodes| && Hit(s.nodes[j]) && Origin(s.nodes[j]) ==> AtOrBelow(s, a, j))
  {
    ReachableInv(s);
    if forall j :: 0 <= j < |s.nodes| && Hit(s.nodes[j]) && Origin(s.nodes[j]) ==> AtOrBelow(s, a, j) {
      forall d | 0 <= d < |s.nodes| && (Hit(s.nodes[d]) || s.nodes[d].isSet) ensures AtOrBelow(s, a, d) {
        assert EventInv(s, d);
        OutsideHasOrigin(s, a, d);
      }
    }
  }

  lemma {:induction false} OutsideHasOrigin(s: State, a: int, d: int)
    requires Inv(s) && 0 <= d < |s.nodes| && Hit(s.nodes[d])
    requires forall j :: 0 <= j < |s.nodes| && Hit(s.nodes[j]) && Origin(s.nodes[j]) ==> AtOrBelow(s, a, j)
    ensures AtOrBelow(s, a, d)
    decreases d
  {
    if !Origin(s.nodes[d]) {
      HitFromAbove(s, d);
      OutsideHasOrigin(s, a, s.nodes[d].up);
    }
  }

  // ---- the same over the steps of a run ----

  /** A step that asks for a cancellation at node i, or lets a CancelledError out of it. */
  predicate Causes(l: Label, i: int) {
    || l == Cancel(i) || l == TaskCancel(i) || l == CancelAgain(i) || l == ThreadEnds(i, Cancelled)
    || (l.RaceOver? && l.f == i && Deadline in l.finished)
  }

  lemma AfterMarks(s: State, l: Label)
    requires Inv(s) && Enabled(s, l) && 0 <= Target(s, l) < |s.nodes|
    ensures Marked(After(s, l)) <==> Marked(s.nodes[Target(s, l)]) || Causes(l, Target(s, l))
  {
    AfterExtends(s, l);
  }

  lemma StepMarks(s: State, l: Label, i: int)
    requires Inv(s) && Enabled(s, l) && 0 <= i < |Next(s, l).nodes|
    ensures Marked(Next(s, l).nodes[i]) <==> (i < |s.nodes| && Marked(s.nodes[i])) || Causes(l, i)
  {
    assert Causes(l, i) ==> i == Target(s, l);
    if i == Target(s, l) { AfterMarks(s, l); }
  }

  predicate CausedIn(ls: seq<Label>, i: int) { exists k :: 0 <= k < |ls| && Causes(ls[k], i) }

  lemma CausedInFirst(ls: seq<Label>, i: int)
    requires ls != []
    ensures CausedIn(ls, i) <==> Causes(ls[0], i) || CausedIn(ls[1..], i)
  {
    if CausedIn(ls, i) {
      var k :| 0 <= k < |ls| && Causes(ls[k], i);
      if k > 0 { assert Causes(ls[1..][k - 1], i); }
    }
    if CausedIn(ls[1..], i) {
      var k :| 0 <= k < |ls[1..]| && Causes(ls[1..][k], i);
      assert Causes(ls[k + 1], i);
    }
  }

  /** Along a run the marks are exactly the causes. */
  lemma {:induction false} RunMarks(s: State, ls: seq<Label>, t: State, i: int)
    requires Inv(s) && IsRun(s, ls, t) && 0 <= i < |t.nodes|
    ensures Marked(t.nodes[i]) <==> (i < |s.nodes| && Marked(s.nodes[i])) || CausedIn(ls, i)
    decreases |ls|
  {
    if ls != [] {
      var u := Next(s, ls[0]);
      NextKeepsInv(s, ls[0]);
      RunMarks(u, ls[1..], t, i);
      CausedInFirst(ls, i);
      if i < |u.nodes| {
        StepMarks(s, ls[0], i);
      } else {
        NextExtends(s, ls[0]);
        assert !Causes(ls[0], i);
      }
    }
  }

  /** Confinement over runs: a node is hit only if some earlier step of the run asked
      for it there or at an enclosing node, or a CancelledError escaped there. */
  lemma ConfinedRun(ls: seq<Label>, s: State, d: int) returns (k: int, a: int)
    requires IsRun(Init, ls, s) && 0 <= d < |s.nodes| && Hit(s.nodes[d])
    ensures 0 <= k < |ls| && 0 <= a <= d && Causes(ls[k], a) && AtOrBelow(s, a, d)
  {
    RunKeepsInv(Init, ls, s);
    Confined(s, d);
    a := CauseAbove(s, d);
    RunMarks(Init, ls, s, a);
    k :| 0 <= k < |ls| && Causes(ls[k], a);
  }

  const Worker := Node(-1, false, false, false, Thread0)
  const Broken := Node(-1, false, false, false, Thread0.(thread := Some(Cancelled)))
  const Sibling := Node(0, false, false, false, Race0)
  const Victim := Node(0, true, true, true, Race0)

  lemma EscapeSetup()
    ensures Reachable(State([Broken, Victim, Sibling], []))
  {
    assert Reachable(State([Worker], [])) by { InitReachable(); Then(Init, Spawn(-1, false), State([Worker], [])); }
    assert Reachable(State([Worker, Sibling], [])) by { Started([Worker], 0, [Worker, Sibling]); }
    assert Reachable(State([Worker, Sibling, Sibling], [])) by {
      Started([Worker, Sibling], 0, [Worker, Sibling, Sibling]);
    }
    assert Reachable(State([Worker, Victim, Sibling], [])) by {
      AskedAndSet([Worker, Sibling, Sibling], 1, [Worker, Victim, Sibling]);
    }
    Then(State([Worker, Victim, Sibling], []), ThreadEnds(0, Cancelled), State([Broken, Victim, Sibling], []));
  }

  /** Without the escape clause confinement fails: a function starts two futures, one
      of them is cancelled, the CancelledError of its result() leaves the function,
      and the other future, for which nobody asked anything, is cancelled too. */
  lemma EscapeReachesSibling() returns (s: State)
    ensures Reachable(s)
    ensures IsFut(s, 2) && WorkCancelled(s.nodes[2]) && s.nodes[2].k.work.None? && !Requested(s, 2)
  {
    EscapeSetup();
    var g := Broken.(asked := true, k := Broken.k.(waiter := InGrace));
    var g' := g.(isSet := true);
    var s1 := State([Broken, Victim, Sibling], []);
    var s2 := State([g, Victim, Sibling], [SetEvent(0)]);
    var s3 := State([g', Victim, Sibling], []);
    assert Reachable(s2) by { Then(s1, Return(0), s2); }
    assert Reachable(s3) by { Then(s2, Deliver, s3); }
    s := State([g', Victim, Sibling.(k := Race0.(phase := Unwinding, finished := {AmbientCancel}))], []);
    assert Reachable(s) by { Then(s3, RaceOver(2, {AmbientCancel}), s); }
  }
}
