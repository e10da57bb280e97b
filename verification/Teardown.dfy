/** Cancellation as a whole: it arrives after finitely many steps of koil's own, and
    if the code it meets cooperates, everything below it comes to an end. */
module Teardown {
  import opened Race
  import opened Protocol
  import opened Propagation

  /** Cleanup: what a coroutine starts after it was cancelled, and all below that. */
  predicate Cleanup(s: State, d: int)
    requires 0 <= d < |s.nodes|
    decreases d
  {
    Late(s.nodes[d]) || (0 <= s.nodes[d].up < d && Cleanup(s, s.nodes[d].up))
  }

  /** What cooperative code does, and what koil does next: a cancelled coroutine ends when
      its awaits are over; a signalled thread ends with ThreadCancelledError, but not while
      a result() it may be blocked in is pending; cleanup runs to its end unasked. */
  ghost predicate Cooperative(s: State, l: Label) {
    && Enabled(s, l)
    && match l
       case WorkEnds(f, end) => (WorkCancelled(s.nodes[f]) && end.Cancelled?) || (Cleanup(s, f) && end.Value?)
       case ThreadEnds(w, end) =>
         && ((s.nodes[w].isSet && end == Failed(ThreadCancelledExn)) || (Cleanup(s, w) && end.Value?))
         && forall i :: IsFut(s, i) && s.nodes[i].up == w ==> s.nodes[i].k.phase.Resolved?
       case _ => l.UnwindEnds? || l.Return? || l.GraceDone?
  }

  /** More cleanup is started: by a cancelled coroutine, or by cleanup code itself. */
  ghost predicate Opening(s: State, l: Label) {
    && Enabled(s, l)
    && match l
       case Spawn(f, _) => f != -1 && (WorkCancelled(s.nodes[f]) || Cleanup(s, f))
       case Submit(w, _) => w != -1 && Cleanup(s, w)
       case _ => false
  }

  /** The steps of a run on its way to rest, with or without cooperation. */
  ghost predicate Winding(s: State, l: Label, coop: bool) {
    Internal(s, l) || (coop && (Cooperative(s, l) || Opening(s, l)))
  }

  ghost predicate AtRest(s: State, coop: bool) { Quiescent(s) && (coop ==> forall l :: !Cooperative(s, l)) }

  ghost predicate WindingRun(s: State, ls: seq<Label>, t: State, coop: bool)
    decreases |ls|
  {
    if ls == [] then s == t
    else Winding(s, ls[0], coop) && WindingRun(Next(s, ls[0]), ls[1..], t, coop)
  }

  // ---- rest is reached ----

  /** The steps a node can still take on the way, plus the callbacks it can still post. */
  function Weight(n: Node): nat {
    match n.k
    case Fut(phase, _, _, work, _) =>
      (match phase
       case Checked => 5
       case Queued => 3
       case Racing => 2
       case Unwinding => 1
       case Resolved(_) => 0) + (if work.None? then 1 else 0)
    case Wrk(thread, waiter, _, _, _, _, _) =>
      (match waiter
       case Awaiting => 3
       case InGrace => 1
       case Left(_) => 0) + (if thread.None? then 1 else 0)
  }

  function TotalWeight(ns: seq<Node>): nat {
    if ns == [] then 0 else TotalWeight(ns[..|ns| - 1]) + Weight(ns[|ns| - 1])
  }

  function Measure(s: State): nat { TotalWeight(s.nodes) + |s.queue| }

  lemma {:induction false} WeightOfUpdate(ns: seq<Node>, i: int, n: Node)
    requires 0 <= i < |ns|
    ensures TotalWeight(ns[i := n]) == TotalWeight(ns) - Weight(ns[i]) + Weight(n)
  {
    var m := |ns| - 1;
    if i == m {
      assert ns[i := n][..m] == ns[..m];
    } else {
      WeightOfUpdate(ns[..m], i, n);
      assert ns[i := n][..m] == ns[..m][i := n];
    }
  }

  lemma WeightOfAppend(ns: seq<Node>, n: Node)
    ensures TotalWeight(ns + [n]) == TotalWeight(ns) + Weight(n)
  {
    assert (ns + [n])[..|ns|] == ns;
  }

  lemma AfterIsLighter(s: State, l: Label)
    requires Inv(s) && (Internal(s, l) || Cooperative(s, l)) && !l.Deliver?
    ensures 0 <= Target(s, l) < |s.nodes|
    ensures Weight(After(s, l)) + |Posts(s, l)| < Weight(s.nodes[Target(s, l)])
  {
  }

  lemma WindingDecreases(s: State, l: Label)
    requires Inv(s) && (Internal(s, l) || Cooperative(s, l))
    ensures Measure(Next(s, l)) < Measure(s)
  {
    if !l.Deliver? { AfterIsLighter(s, l); }
    WeightOfUpdate(s.nodes, Target(s, l), After(s, l));
  }

  /** How often cleanup is started. */
  function Openings(ls: seq<Label>): nat {
    if ls == [] then 0 else (if ls[0].Spawn? || ls[0].Submit? then 1 else 0) + Openings(ls[1..])
  }

  lemma OpeningIncreases(s: State, l: Label, t: State)
    requires Opening(s, l) && t == Next(s, l)
    ensures |t.nodes| == |s.nodes| + 1 && Measure(t) <= Measure(s) + 6
  {
    WeightOfAppend(s.nodes, t.nodes[|s.nodes|]);
  }

  lemma WindingStep(s: State, l: Label, t: State, coop: bool)
    requires Inv(s) && Winding(s, l, coop) && t == Next(s, l)
    ensures Inv(t) && Grown(s, t)
    ensures 1 + Measure(t) <= Measure(s) + 7 * Openings([l])
    ensures !coop ==> Openings([l]) == 0
  {
    if Internal(s, l) || Cooperative(s, l) { WindingDecreases(s, l); } else { OpeningIncreases(s, l, t); }
    NextKeepsInv(s, l);
    NextExtends(s, l);
  }

  /** No such run is longer than the measure of its first state, but for the cleanup
      started on the way, and what was asked for or cancelled in it stays so. */
  lemma {:induction false} WindingRunBounded(s: State, ls: seq<Label>, t: State, coop: bool)
    requires Inv(s) && WindingRun(s, ls, t, coop)
    ensures Inv(t) && Grown(s, t)
    ensures |ls| + Measure(t) <= Measure(s) + 7 * Openings(ls)
    ensures !coop ==> Openings(ls) == 0
    decreases |ls|
  {
    if ls != [] {
      var u := Next(s, ls[0]);
      WindingStep(s, ls[0], u, coop);
      WindingRunBounded(u, ls[1..], t, coop);
      GrownTransitive(s, u, t);
      assert Openings(ls) == Openings([ls[0]]) + Openings(ls[1..]);
    }
  }

  /** From every state such steps lead to rest. */
  lemma {:induction false} ReachesRest(s: State, coop: bool) returns (ls: seq<Label>, t: State)
    requires Inv(s)
    ensures WindingRun(s, ls, t, coop) && AtRest(t, coop)
    decreases Measure(s)
  {
    if AtRest(s, coop) {
      ls, t := [], s;
    } else {
      var l: Label;
      if Quiescent(s) { l :| Cooperative(s, l); } else { l :| Internal(s, l); }
      var u, rest := Next(s, l), [];
      WindingDecreases(s, l);
      NextKeepsInv(s, l);
      rest, t := ReachesRest(u, coop);
      ls := [l] + rest;
      assert ls[1..] == rest;
    }
  }

  // ---- what rest means ----

  /** Arrival over whole runs: whatever happened before, if koil is left to its own
      steps until none is enabled, then everything alive below a node that was hit
      beforehand has been signalled, within Measure(s) steps. */
  lemma CancellationArrives(s: State, ls: seq<Label>, t: State, a: int, d: int)
    requires Reachable(s) && WindingRun(s, ls, t, false) && AtRest(t, false)
    requires 0 <= a < |s.nodes| && Hit(s.nodes[a])
    requires 0 <= d < |t.nodes| && Linked(t, a, d) && Live(t.nodes[d])
    ensures Signalled(t.nodes[d]) && |ls| <= Measure(s)
  {
    ReachableInv(s);
    WindingRunBounded(s, ls, t, false);
    assert Extends(s.nodes[a], t.nodes[a]);
    FullPropagation(t, a, d);
  }

  /** Nothing left to do here: the future has resolved; the function has ended and the
      await of it too. */
  predicate Over(n: Node) { if n.k.Fut? then n.k.phase.Resolved? else n.k.thread.Some? && n.k.waiter.Left? }

  /** What a cancellation of a, or the end of cleanup, brings to an end. */
  predicate Covered(s: State, a: int, d: int)
    requires 0 <= d < |s.nodes|
  { Linked(s, a, d) || Cleanup(s, d) }

  lemma {:induction false} RestIsOver(s: State, a: int, d: int)
    requires Inv(s) && AtRest(s, true)
    requires 0 <= a < |s.nodes| && 0 <= d < |s.nodes| && Hit(s.nodes[a]) && Covered(s, a, d)
    ensures Over(s.nodes[d])
    decreases |s.nodes| - d
  {
    if Live(s.nodes[d]) {
      if Linked(s, a, d) { FullPropagation(s, a, d); }
      forall c | 0 <= c < |s.nodes| && s.nodes[c].up == d ensures Over(s.nodes[c]) {
        assert s.nodes[c].k.Fut? ==> FutInv(s, c);
        assert s.nodes[c].k.Wrk? ==> WrkInv(s, c);
        RestIsOver(s, a, c);
      }
    }
    if s.nodes[d].k.Fut? {
      RestEndsCoroutine(s, d);
      RestOfFuture(s, d);
    } else {
      RestEndsThread(s, d);
      RestOfWorker(s, d);
    }
  }

  lemma RestEndsCoroutine(s: State, f: int)
    requires Inv(s) && AtRest(s, true) && IsFut(s, f)
    requires Live(s.nodes[f]) ==> Signalled(s.nodes[f]) || Cleanup(s, f)
    requires Live(s.nodes[f]) ==> forall c :: 0 <= c < |s.nodes| && s.nodes[c].up == f ==> Over(s.nodes[c])
    ensures !Live(s.nodes[f])
  {
    QuiescentQueue(s);
    assert FutInv(s, f);
    assert !Internal(s, Enqueue(f));
    var end := if Cleanup(s, f) then Value(0) else Cancelled;
    assert !Cooperative(s, WorkEnds(f, end));
  }

  lemma RestOfFuture(s: State, f: int)
    requires Inv(s) && AtRest(s, true) && IsFut(s, f) && !Live(s.nodes[f])
    ensures Over(s.nodes[f])
  {
    assert FutInv(s, f);
    assert !Cooperative(s, UnwindEnds(f)) && !Internal(s, RaceOver(f, {Work}));
  }

  lemma RestEndsThread(s: State, w: int)
    requires Inv(s) && AtRest(s, true) && IsWrk(s, w)
    requires Live(s.nodes[w]) ==> Signalled(s.nodes[w]) || Cleanup(s, w)
    requires Live(s.nodes[w]) ==> forall c :: 0 <= c < |s.nodes| && s.nodes[c].up == w ==> Over(s.nodes[c])
    ensures !Live(s.nodes[w])
  {
    var end := if Cleanup(s, w) then Value(0) else Failed(ThreadCancelledExn);
    assert !Cooperative(s, ThreadEnds(w, end));
  }

  lemma RestOfWorker(s: State, w: int)
    requires Inv(s) && AtRest(s, true) && IsWrk(s, w) && !Live(s.nodes[w])
    ensures Over(s.nodes[w])
  {
    var l := if s.nodes[w].k.waiter.Awaiting? then Return(w) else GraceDone(w);
    assert !Cooperative(s, l);
  }

  // ---- what is covered stays covered ----

  lemma {:induction false} CleanupStays(s: State, t: State, d: int)
    requires Grown(s, t) && 0 <= d < |s.nodes| && Cleanup(s, d)
    ensures Cleanup(t, d)
    decreases d
  {
    assert Extends(s.nodes[d], t.nodes[d]);
    if !Late(s.nodes[d]) { CleanupStays(s, t, s.nodes[d].up); }
  }

  /** A thread that ends on the way was asked to, or is cleanup. */
  lemma LinkStays(s: State, l: Label, t: State, i: int)
    requires Inv(s) && Winding(s, l, true) && t == Next(s, l)
    requires 0 <= i < |s.nodes| && Link(s.nodes[i]) && !Cleanup(s, i)
    ensures i < |t.nodes| && Link(t.nodes[i])
  {
    assert EventInv(s, i);
    NextExtends(s, l);
  }

  lemma {:induction false} CoveredInNext(s: State, t: State, a: int, d: int)
    requires Grown(s, t)
    requires forall i :: 0 <= i < |s.nodes| && Link(s.nodes[i]) && !Cleanup(s, i) ==> Link(t.nodes[i])
    requires 0 <= d < |s.nodes| && Covered(s, a, d)
    ensures Covered(t, a, d)
    decreases d
  {
    assert Extends(s.nodes[d], t.nodes[d]);
    if Cleanup(s, d) { CleanupStays(s, t, d); } else if d != a { CoveredInNext(s, t, a, s.nodes[d].up); }
  }

  lemma OpenedIsCleanup(s: State, l: Label, t: State)
    requires Inv(s) && Winding(s, l, true) && t == Next(s, l)
    ensures |s.nodes| <= |t.nodes| <= |s.nodes| + 1
    ensures |s.nodes| < |t.nodes| ==> Cleanup(t, |s.nodes|)
  {
    if Opening(s, l) {
      NextExtends(s, l);
      var up := t.nodes[|s.nodes|].up;
      if Cleanup(s, up) { CleanupStays(s, t, up); }
    } else {
      assert Target(s, l) != -1;
    }
  }

  lemma CoveredAfterStep(s: State, l: Label, t: State, a: int, d: int)
    requires Inv(s) && Winding(s, l, true) && t == Next(s, l)
    requires 0 <= d < |t.nodes| && (d < |s.nodes| ==> Covered(s, a, d))
    ensures Covered(t, a, d)
  {
    NextExtends(s, l);
    OpenedIsCleanup(s, l, t);
    if d < |s.nodes| {
      forall i | 0 <= i < |s.nodes| && Link(s.nodes[i]) && !Cleanup(s, i) ensures Link(t.nodes[i]) {
        LinkStays(s, l, t, i);
      }
      CoveredInNext(s, t, a, d);
    }
  }

  lemma {:induction false} CoveredAlongRun(s: State, ls: seq<Label>, t: State, a: int, d: int)
    requires Inv(s) && WindingRun(s, ls, t, true)
    requires 0 <= d < |t.nodes| && (d < |s.nodes| ==> Covered(s, a, d))
    ensures Covered(t, a, d)
    decreases |ls|
  {
    if ls != [] {
      var u := Next(s, ls[0]);
      WindingStep(s, ls[0], u, true);
      if d < |u.nodes| { CoveredAfterStep(s, ls[0], u, a, d); }
      CoveredAlongRun(u, ls[1..], t, a, d);
    }
  }

  /** Complete teardown: cancelling a node over cooperative code brings everything that
      is linked to it when the winding starts to an end, and all cleanup too, whether
      under way then or started later, however deeply futures and workers are nested
      and however the steps interleave: no thread waits for a coroutine that waits for
      it, and the number of steps is bounded. */
  lemma TeardownCompletes(s: State, ls: seq<Label>, t: State, a: int, d: int)
    requires Reachable(s) && WindingRun(s, ls, t, true) && AtRest(t, true)
    requires 0 <= a < |s.nodes| && Hit(s.nodes[a])
    requires 0 <= d < |t.nodes| && (d < |s.nodes| ==> Covered(s, a, d))
    ensures Over(t.nodes[d]) && |ls| <= Measure(s) + 7 * Openings(ls)
    ensures if t.nodes[d].k.Fut? then t.nodes[d].k.phase.Resolved?
            else t.nodes[d].k.thread.Some? && t.nodes[d].k.waiter.Left?
  {
    ReachableInv(s);
    WindingRunBounded(s, ls, t, true);
    CoveredAlongRun(s, ls, t, a, d);
    assert Extends(s.nodes[a], t.nodes[a]);
    RestIsOver(t, a, d);
  }
}
