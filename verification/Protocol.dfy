/** koil's cancellation protocol as one transition system: a growing tree of
    futures (submitted by run_async_sharing_context) and workers (started by
    _run_threaded), whose steps interleave with a FIFO of loop callbacks. */
module Protocol {
  import opened Options
  import opened Race

  /** Life of a submitted future. Checked: the submitting thread has found the
      ambient event clear but has not yet handed the coroutine to the loop. */
  datatype Phase = Checked | Queued | Racing | Unwinding | Resolved(res: Resolution)

  /** The coroutine awaiting a worker: at the shield, in the bounded wait after a
      cancellation, or gone with an outcome. */
  datatype Waiter = Awaiting | InGrace | Left(out: Outcome)

  datatype Outcome = Gives(v: int) | Throws(e: Exn) | ThrowsCancelled | ThrowsKoilError

  /** Both kinds of node own one cancel event: `asked` once set() was called on it,
      `isSet` once that call was delivered on the loop. `explicit` records that a
      request (cancel(), deadline, interrupt, task cancel) was made at this node.
      `up` is the enclosing node, or -1. A worker is `late` if the coroutine around it
      had been cancelled before it was started, as in a finally block. */
  datatype Node = Node(up: int, asked: bool, isSet: bool, explicit: bool, k: Kind)

  datatype Kind =
    | Fut(phase: Phase, bounded: bool, finished: set<Racer>, work: Option<End>, gaveUp: bool)
    | Wrk(thread: Option<End>, waiter: Waiter, graceOver: bool, cut: bool,
          bridge: bool, bridgedOut: bool, late: bool)

  datatype Callback = Start(n: int) | SetEvent(n: int)

  datatype State = State(nodes: seq<Node>, queue: seq<Callback>)

  const Init := State([], [])

  datatype Label =
    | Submit(w: int, bounded: bool)      // run_async_sharing_context passes its check
    | Refuse(w: int)                     // ... or raises ThreadCancelledError
    | Enqueue(f: int)                    // run_coroutine_threadsafe
    | Deliver                            // the loop runs the oldest callback
    | Cancel(f: int)                     // KoilFuture.cancel, also for an interrupt or an expired result()
    | WorkEnds(f: int, end: End)         // the coroutine ends
    | RaceOver(f: int, finished: set<Racer>) // asyncio.wait returns
    | UnwindEnds(f: int)                 // the tidy-up loop sees the work end
    | UnwindGrace(f: int)                // ... or gives up on it after a deadline
    | Spawn(f: int, bridge: bool)        // _run_threaded hands a function to the pool
    | CancelAwait(w: int)                // the cancelled coroutine's await of a worker raises CancelledError
    | TaskCancel(w: int)                 // someone cancels the awaiting task
    | CancelAgain(w: int)                // ... again, during the bounded wait
    | ThreadEnds(w: int, end: End)
    | Return(w: int)                     // the shielded await sees the thread's end
    | GraceDone(w: int)                  // the bounded wait sees it
    | GraceOver(w: int)                  // ... or expires

  predicate IsFut(s: State, i: int) { 0 <= i < |s.nodes| && s.nodes[i].k.Fut? }

  predicate IsWrk(s: State, i: int) { 0 <= i < |s.nodes| && s.nodes[i].k.Wrk? }

  /** future_t.cancel() was called. */
  predicate WorkCancelled(n: Node) requires n.k.Fut? { n.k.finished != {} && Work !in n.k.finished }

  /** The racers whose wait is over. The deadline may pass at any time. */
  function Ready(s: State, f: int): set<Racer>
    requires IsFut(s, f)
  {
    var n := s.nodes[f];
    (if n.k.work.Some? then {Work} else {})
    + (if n.isSet then {OwnCancel} else {})
    + (if IsWrk(s, n.up) && s.nodes[n.up].isSet then {AmbientCancel} else {})
    + (if n.k.bounded then {Deadline} else {})
  }

  ghost predicate Enabled(s: State, l: Label) {
    match l
    case Submit(w, _) => w == -1 || (IsWrk(s, w) && s.nodes[w].k.thread.None? && !s.nodes[w].isSet)
    case Refuse(w) => IsWrk(s, w) && s.nodes[w].k.thread.None? && s.nodes[w].isSet
    case Enqueue(f) => IsFut(s, f) && s.nodes[f].k.phase.Checked?
    case Deliver =>
      s.queue != [] && 0 <= s.queue[0].n < |s.nodes| && (s.queue[0].Start? ==> IsFut(s, s.queue[0].n))
    case Cancel(f) => IsFut(s, f) && !s.nodes[f].k.phase.Checked? && !s.nodes[f].k.phase.Resolved?
    case WorkEnds(f, _) =>
      // The coroutine awaits its workers, so it ends only once each await is over.
      && IsFut(s, f) && !s.nodes[f].k.phase.Checked? && !s.nodes[f].k.phase.Queued? && s.nodes[f].k.work.None?
      && forall i :: IsWrk(s, i) && s.nodes[i].up == f ==> s.nodes[i].k.waiter.Left?
    case RaceOver(f, finished) =>
      // A waiter may lag behind its event, but a finished work task is seen.
      && IsFut(s, f) && s.nodes[f].k.phase.Racing?
      && finished != {} && finished <= Ready(s, f)
      && (Work in finished <==> s.nodes[f].k.work.Some?)
    case UnwindEnds(f) => IsFut(s, f) && s.nodes[f].k.phase.Unwinding? && s.nodes[f].k.work.Some?
    case UnwindGrace(f) =>
      && IsFut(s, f) && s.nodes[f].k.phase.Unwinding? && s.nodes[f].k.work.None?
      && Deadline in s.nodes[f].k.finished
    case Spawn(f, _) =>
      f == -1 || (IsFut(s, f) && !s.nodes[f].k.phase.Checked? && !s.nodes[f].k.phase.Queued? && s.nodes[f].k.work.None?)
    case CancelAwait(w) =>
      // cancel() is delivered once, to the awaits under way.
      && IsWrk(s, w) && s.nodes[w].k.waiter.Awaiting? && !s.nodes[w].k.late
      && IsFut(s, s.nodes[w].up)
      && WorkCancelled(s.nodes[s.nodes[w].up]) && s.nodes[s.nodes[w].up].k.work.None?
    case TaskCancel(w) => IsWrk(s, w) && s.nodes[w].k.waiter.Awaiting?
    case CancelAgain(w) => IsWrk(s, w) && s.nodes[w].k.waiter.InGrace?
    case ThreadEnds(w, _) =>
      // A thread inside run_async_sharing_context has not ended.
      && IsWrk(s, w) && s.nodes[w].k.thread.None?
      && forall i :: IsFut(s, i) && s.nodes[i].up == w ==> !s.nodes[i].k.phase.Checked?
    case Return(w) => IsWrk(s, w) && s.nodes[w].k.waiter.Awaiting? && s.nodes[w].k.thread.Some?
    case GraceDone(w) => IsWrk(s, w) && s.nodes[w].k.waiter.InGrace? && s.nodes[w].k.thread.Some?
    case GraceOver(w) => IsWrk(s, w) && s.nodes[w].k.waiter.InGrace? && s.nodes[w].k.thread.None?
  }

  /** The bounded wait of a cancelled _run_threaded, once the thread has ended: a
      TimeoutError cannot be told from an elapsed grace, and only a value or an
      acknowledged cancellation falls through to the re-raised CancelledError. */
  function AfterGrace(end: End): Outcome {
    match end
    case Value(_) => ThrowsCancelled
    case Cancelled => ThrowsCancelled
    case Failed(e) =>
      match e
      case ThreadCancelledExn => ThrowsCancelled
      case TimeoutExn => ThrowsKoilError
      case AppExn(_) => Throws(e)
  }

  /** The undisturbed await of a worker. */
  function Plain(end: End): Outcome
    requires !end.Cancelled?
  { if end.Value? then Gives(end.v) else Throws(end.e) }

  /** The node a step changes, or -1. */
  function Target(s: State, l: Label): int {
    match l
    case Submit(_, _) => -1
    case Refuse(_) => -1
    case Spawn(_, _) => -1
    case Deliver => if s.queue == [] then -1 else s.queue[0].n
    case Enqueue(f) => f
    case Cancel(f) => f
    case WorkEnds(f, _) => f
    case RaceOver(f, _) => f
    case UnwindEnds(f) => f
    case UnwindGrace(f) => f
    case CancelAwait(w) => w
    case TaskCancel(w) => w
    case CancelAgain(w) => w
    case ThreadEnds(w, _) => w
    case Return(w) => w
    case GraceDone(w) => w
    case GraceOver(w) => w
  }

  /** ... and what becomes of it. */
  ghost function After(s: State, l: Label): Node
    requires Enabled(s, l) && Target(s, l) != -1
  {
    var n := s.nodes[Target(s, l)];
    match l
    case Enqueue(_) => n.(k := n.k.(phase := Queued))
    case Deliver =>
      if s.queue[0].SetEvent? then n.(isSet := true)
      else if n.k.phase.Queued? then n.(k := n.k.(phase := Racing))
      else n
    case Cancel(_) => n.(asked := true, explicit := true)
    case WorkEnds(_, end) => n.(k := n.k.(work := Some(end)))
    case RaceOver(_, finished) =>
      var phase := if Work in finished
                   then Resolved(Verdict(RunAsync, finished, n.k.work.value, Ignores).r)
                   else Unwinding;
      n.(explicit := n.explicit || Deadline in finished, k := n.k.(phase := phase, finished := finished))
    case UnwindEnds(_) =>
      n.(k := n.k.(phase := Resolved(Verdict(RunAsync, n.k.finished, Cancelled, Ends(n.k.work.value)).r)))
    case UnwindGrace(_) =>
      n.(k := n.k.(gaveUp := true, phase := Resolved(Verdict(RunAsync, n.k.finished, Cancelled, Ignores).r)))
    case CancelAwait(_) => n.(asked := true, k := n.k.(waiter := InGrace))
    case TaskCancel(_) => n.(asked := true, explicit := true, k := n.k.(waiter := InGrace))
    // Nothing catches this one: the thread is left behind.
    case CancelAgain(_) => n.(explicit := true, k := n.k.(waiter := Left(ThrowsCancelled), cut := true))
    case ThreadEnds(_, end) => n.(k := n.k.(thread := Some(end)))
    case Return(_) =>
      (match n.k.thread.value
       case Value(v) => n.(k := n.k.(waiter := Left(Gives(v)), bridgedOut := n.k.bridge))
       case Failed(e) => n.(k := n.k.(waiter := Left(Throws(e))))
       // A CancelledError that escaped the function is taken for a cancellation of the await.
       case Cancelled => n.(asked := true, k := n.k.(waiter := InGrace)))
    case GraceDone(_) => n.(k := n.k.(waiter := Left(AfterGrace(n.k.thread.value))))
    case GraceOver(_) => n.(k := n.k.(waiter := Left(ThrowsKoilError), graceOver := true))
  }

  /** The callbacks a step hands to the loop: KoilThreadSafeEvent.set is only a message. */
  ghost function Posts(s: State, l: Label): seq<Callback>
    requires Enabled(s, l)
  {
    match l
    case Enqueue(f) => [Start(f)]
    case Cancel(f) => [SetEvent(f)]
    case CancelAwait(w) => [SetEvent(w)]
    case TaskCancel(w) => [SetEvent(w)]
    case Return(w) => if s.nodes[w].k.thread.value.Cancelled? then [SetEvent(w)] else []
    case _ => []
  }

  ghost function Next(s: State, l: Label): State
    requires Enabled(s, l)
  {
    match l
    case Submit(w, bounded) =>
      s.(nodes := s.nodes + [Node(w, false, false, false, Fut(Checked, bounded, {}, None, false))])
    case Spawn(f, bridge) =>
      var late := f != -1 && WorkCancelled(s.nodes[f]);
      s.(nodes := s.nodes + [Node(f, false, false, false, Wrk(None, Awaiting, false, false, bridge, false, late))])
    case Refuse(_) => s
    case _ =>
      State(s.nodes[Target(s, l) := After(s, l)],
            s.queue[if l.Deliver? then 1 else 0..] + Posts(s, l))
  }

  /** Finite runs of the whole system. */
  ghost predicate IsRun(s: State, ls: seq<Label>, t: State)
    decreases |ls|
  {
    if ls == [] then s == t
    else Enabled(s, ls[0]) && IsRun(Next(s, ls[0]), ls[1..], t)
  }

  ghost predicate Reachable(s: State) { exists ls :: IsRun(Init, ls, s) }

  // ---- the invariant, node by node ----

  predicate EventInv(s: State, i: int)
    requires 0 <= i < |s.nodes|
  {
    var n := s.nodes[i];
    && (n.isSet ==> n.asked)
    && (n.asked && !n.isSet ==> SetEvent(i) in s.queue)
  }

  /** The resolution is the race's verdict on how the work ended, except that work under a
      deadline may be given up on before it does. */
  predicate Judged(k: Kind)
    requires k.Fut? && k.phase.Resolved?
  {
    if Work in k.finished
    then k.work.Some? && Settles(k.phase.res) == Verdict(RunAsync, k.finished, k.work.value, Ignores)
    else if k.gaveUp then Deadline in k.finished && k.phase.res == TimesOut(false)
    else k.work.Some? && Settles(k.phase.res) == Verdict(RunAsync, k.finished, Cancelled, Ends(k.work.value))
  }

  predicate FutInv(s: State, i: int)
    requires IsFut(s, i)
  {
    var n := s.nodes[i];
    && (n.up == -1 || (n.up < i && IsWrk(s, n.up)))
    && (n.k.phase.Checked? ==> !n.asked)
    && (n.k.phase.Queued? ==> Start(i) in s.queue)
    && (n.k.phase.Checked? || n.k.phase.Queued? ==> n.k.work.None?)
    && (n.k.phase.Checked? || n.k.phase.Queued? || n.k.phase.Racing? <==> n.k.finished == {})
    && (n.k.phase.Unwinding? ==> Work !in n.k.finished)
    && (Work in n.k.finished ==> n.k.work.Some?)
    && (n.k.phase.Resolved? ==> Judged(n.k))
    && (n.k.gaveUp ==> n.k.phase.Resolved? && Work !in n.k.finished)
    && (n.asked || Deadline in n.k.finished ==> n.explicit)
    && (Deadline in n.k.finished ==> n.k.bounded)
    && (OwnCancel in n.k.finished ==> n.asked)
    && (AmbientCancel in n.k.finished ==> n.up != -1 && s.nodes[n.up].asked)
  }

  /** A worker whose own function ended with an escaped CancelledError. */
  predicate Escaped(n: Node) { n.k.Wrk? && n.k.thread == Some(Cancelled) }

  predicate WrkInv(s: State, i: int)
    requires IsWrk(s, i)
  {
    var n := s.nodes[i];
    && (n.up == -1 || (n.up < i && IsFut(s, n.up)))
    && (n.k.waiter.Awaiting? ==> !n.asked)
    && (n.k.waiter.InGrace? || n.explicit ==> n.asked)
    && (n.k.waiter.Left? && n.k.thread.None? ==> n.asked)
    && (n.asked ==> n.explicit || Escaped(n) || (n.up != -1 && WorkCancelled(s.nodes[n.up]) && !n.k.late))
    && (n.k.late ==> n.up != -1 && WorkCancelled(s.nodes[n.up]))
    && (n.up != -1 && s.nodes[n.up].k.work.Some? ==> n.k.waiter.Left?)
    && OutcomeInv(n)
  }

  /** What the awaiting task reports, against what happened. */
  predicate OutcomeInv(n: Node)
    requires n.k.Wrk?
  {
    && (n.k.graceOver ==> n.asked && n.k.waiter == Left(ThrowsKoilError))
    && (n.k.cut ==> n.asked && n.k.waiter == Left(ThrowsCancelled))
    && (n.k.waiter.Left? && !n.k.graceOver && !n.k.cut ==>
          n.k.thread.Some? && (n.asked || !n.k.thread.value.Cancelled?) &&
          n.k.waiter.out == (if n.asked then AfterGrace(n.k.thread.value) else Plain(n.k.thread.value)))
    && (n.k.bridgedOut <==> n.k.bridge && !n.asked && n.k.waiter.Left? && n.k.waiter.out.Gives?)
  }

  predicate QueueInv(s: State) {
    forall c :: c in s.queue ==>
      && 0 <= c.n < |s.nodes|
      && (if c.Start? then s.nodes[c.n].k.Fut? else s.nodes[c.n].asked)
  }

  ghost predicate Inv(s: State) {
    && (forall i :: 0 <= i < |s.nodes| ==> EventInv(s, i))
    && QueueInv(s)
    && (forall i :: IsFut(s, i) ==> FutInv(s, i))
    && (forall i :: IsWrk(s, i) ==> WrkInv(s, i))
  }

  /** What any step leaves of an old node: its place, its history, its settled facts. */
  predicate Extends(m: Node, n: Node) {
    && n.up == m.up
    && (m.asked ==> n.asked) && (m.isSet ==> n.isSet) && (m.explicit ==> n.explicit)
    && (m.k.Fut? <==> n.k.Fut?)
    && (m.k.Fut? ==>
          && n.k.bounded == m.k.bounded
          && (m.k.finished != {} ==> n.k.finished == m.k.finished)
          && (m.k.work.Some? ==> n.k.work == m.k.work))
    && (m.k.Wrk? ==>
          && n.k.late == m.k.late && n.k.bridge == m.k.bridge
          && (m.k.thread.Some? ==> n.k.thread == m.k.thread)
          && (m.k.waiter.Left? ==> n.k.waiter == m.k.waiter))
  }

  lemma AfterExtends(s: State, l: Label)
    requires Inv(s) && Enabled(s, l) && Target(s, l) != -1
    ensures 0 <= Target(s, l) < |s.nodes| && Extends(s.nodes[Target(s, l)], After(s, l))
  {
    var i := Target(s, l);
    assert IsFut(s, i) ==> FutInv(s, i);
  }

  /** What a step or a whole run leaves of the old nodes. */
  ghost predicate Grown(s: State, t: State) {
    && |s.nodes| <= |t.nodes|
    && (forall j :: 0 <= j < |s.nodes| ==> Extends(s.nodes[j], t.nodes[j]))
  }

  lemma GrownTransitive(s: State, t: State, u: State)
    requires Grown(s, t) && Grown(t, u)
    ensures Grown(s, u)
  {
    forall j | 0 <= j < |s.nodes| ensures Extends(s.nodes[j], u.nodes[j]) {
      assert Extends(s.nodes[j], t.nodes[j]) && Extends(t.nodes[j], u.nodes[j]);
    }
  }

  lemma NextExtends(s: State, l: Label)
    requires Inv(s) && Enabled(s, l)
    ensures Grown(s, Next(s, l))
  {
    if Target(s, l) != -1 { AfterExtends(s, l); }
  }

  lemma NextKeepsEvent(s: State, l: Label, i: int)
    requires Inv(s) && Enabled(s, l) && 0 <= i < |Next(s, l).nodes|
    ensures EventInv(Next(s, l), i)
  {
    if l.Deliver? { assert s.queue == [s.queue[0]] + s.queue[1..]; }
    if i < |s.nodes| { assert EventInv(s, i); }
  }

  lemma NextKeepsQueue(s: State, l: Label)
    requires Inv(s) && Enabled(s, l)
    ensures QueueInv(Next(s, l))
  {
    NextExtends(s, l);
    if l.Deliver? { assert s.queue == [s.queue[0]] + s.queue[1..]; }
  }

  lemma OthersKeepFut(s: State, l: Label, i: int)
    requires Inv(s) && Enabled(s, l) && IsFut(s, i) && i != Target(s, l)
    ensures FutInv(Next(s, l), i)
  {
    NextExtends(s, l);
    assert FutInv(s, i);
    if s.nodes[i].up != -1 { assert Extends(s.nodes[s.nodes[i].up], Next(s, l).nodes[s.nodes[i].up]); }
    if l.Deliver? { assert s.queue == [s.queue[0]] + s.queue[1..]; }
  }

  lemma RaceKeepsFut(s: State, l: Label)
    requires Inv(s) && Enabled(s, l) && (l.RaceOver? || l.UnwindEnds? || l.UnwindGrace?)
    ensures FutInv(Next(s, l), l.f)
  {
    assert FutInv(s, l.f) && EventInv(s, l.f);
    if s.nodes[l.f].up != -1 { assert EventInv(s, s.nodes[l.f].up); }
  }

  lemma DeliverKeepsFut(s: State, t: State)
    requires Inv(s) && Enabled(s, Deliver) && t == Next(s, Deliver) && IsFut(s, s.queue[0].n)
    ensures FutInv(t, s.queue[0].n)
  {
    assert FutInv(s, s.queue[0].n) && EventInv(s, s.queue[0].n);
    assert s.queue == [s.queue[0]] + s.queue[1..];
  }

  lemma OwnKeepsFut(s: State, l: Label)
    requires Inv(s) && Enabled(s, l) && (l.Enqueue? || l.Cancel? || l.WorkEnds?)
    ensures FutInv(Next(s, l), l.f)
  {
    assert FutInv(s, l.f);
  }

  lemma NextKeepsFut(s: State, l: Label, i: int)
    requires Inv(s) && Enabled(s, l) && IsFut(s, i)
    ensures FutInv(Next(s, l), i)
  {
    if i != Target(s, l) {
      OthersKeepFut(s, l, i);
    } else if l.RaceOver? || l.UnwindEnds? || l.UnwindGrace? {
      RaceKeepsFut(s, l);
    } else if l.Deliver? {
      DeliverKeepsFut(s, Next(s, l));
    } else {
      OwnKeepsFut(s, l);
    }
  }

  lemma OthersKeepWrk(s: State, l: Label, i: int)
    requires Inv(s) && Enabled(s, l) && IsWrk(s, i) && i != Target(s, l)
    ensures WrkInv(Next(s, l), i)
  {
    NextExtends(s, l);
    assert WrkInv(s, i);
  }

  lemma OwnKeepsWrk(s: State, l: Label)
    requires Inv(s) && Enabled(s, l) && IsWrk(s, Target(s, l))
    ensures WrkInv(Next(s, l), Target(s, l))
  {
    assert WrkInv(s, Target(s, l));
  }

  lemma NextKeepsInv(s: State, l: Label)
    requires Inv(s) && Enabled(s, l)
    ensures Inv(Next(s, l))
  {
    var t := Next(s, l);
    NextKeepsQueue(s, l);
    NextExtends(s, l);
    forall i | 0 <= i < |t.nodes| ensures EventInv(t, i) { NextKeepsEvent(s, l, i); }
    forall i | IsFut(t, i) ensures FutInv(t, i) {
      if i < |s.nodes| { NextKeepsFut(s, l, i); }
    }
    forall i | IsWrk(t, i) ensures WrkInv(t, i) {
      if i == Target(s, l) { OwnKeepsWrk(s, l); } else if i < |s.nodes| { OthersKeepWrk(s, l, i); }
    }
  }

  /** Every reachable state satisfies the invariant. */
  lemma {:induction false} RunKeepsInv(s: State, ls: seq<Label>, t: State)
    requires Inv(s) && IsRun(s, ls, t)
    ensures Inv(t)
    decreases |ls|
  {
    if ls != [] {
      NextKeepsInv(s, ls[0]);
      RunKeepsInv(Next(s, ls[0]), ls[1..], t);
    }
  }

  lemma ReachableInv(s: State)
    requires Reachable(s)
    ensures Inv(s)
  {
    var ls :| IsRun(Init, ls, s);
    RunKeepsInv(Init, ls, s);
  }

  /** How a cancelled _run_threaded ends, over every interleaving: it never returns a
      value nor copies context out; unless it was cancelled again in the bounded wait,
      CancelledError means the function is over, KoilError is raised exactly if the grace
      elapsed or the function ended with a TimeoutError, and any other error of the
      function's is passed on. */
  lemma CancelledWorkerOutcome(s: State, w: int)
    requires Reachable(s) && IsWrk(s, w) && s.nodes[w].asked
    ensures var k := s.nodes[w].k;
            && !k.bridgedOut
            && (k.waiter.Left? ==>
                  && !k.waiter.out.Gives?
                  && (k.waiter.out.ThrowsCancelled? && !k.cut <==>
                        !k.graceOver && !k.cut && k.thread.Some? &&
                        (k.thread.value.Cancelled? || k.thread.value.Value? ||
                         k.thread.value == Failed(ThreadCancelledExn)))
                  && (k.waiter.out.ThrowsKoilError? <==>
                        k.graceOver || (!k.cut && k.thread == Some(Failed(TimeoutExn))))
                  && (forall e :: k.waiter.out == Throws(e) <==>
                        !k.graceOver && !k.cut && e.AppExn? && k.thread == Some(Failed(e))))
  {
    ReachableInv(s);
    assert WrkInv(s, w);
  }

  /** How an undisturbed _run_threaded ends: once it has, so has the function, and it gives
      what the function returned or throws what it raised; context is copied out exactly
      if asked for and a value was returned. */
  lemma UndisturbedWorkerOutcome(s: State, w: int)
    requires Reachable(s) && IsWrk(s, w) && !s.nodes[w].asked && s.nodes[w].k.waiter.Left?
    ensures var k := s.nodes[w].k;
            && (forall v :: k.waiter.out == Gives(v) <==> k.thread == Some(Value(v)))
            && (forall e :: k.waiter.out == Throws(e) <==> k.thread == Some(Failed(e)))
            && (k.waiter.out.Gives? || k.waiter.out.Throws?)
            && (k.bridgedOut <==> k.bridge && k.thread.Some? && k.thread.value.Value?)
  {
    ReachableInv(s);
    assert WrkInv(s, w);
  }

  /** Settlement and verdict over every run: when a future has resolved its coroutine is
      over, unless the deadline fired and it was given up on. If the coroutine finished
      the race, its ending is the future's. If not, and it was not given up on: an error
      other than a TimeoutError is still the future's; else it timed out if the deadline
      fired, acknowledged by a coroutine that ended with a value or a cancellation; else
      it is cancelled, with asyncio's class. */
  lemma ResolvedMeansSettled(s: State, f: int)
    requires Reachable(s) && IsFut(s, f) && s.nodes[f].k.phase.Resolved?
    ensures var k := s.nodes[f].k; var res := k.phase.res;
            && Judged(k)
            && (k.work.None? ==> k.gaveUp)
            && (k.gaveUp ==> Deadline in k.finished && res == TimesOut(false))
            && (Deadline in k.finished ==> k.bounded)
            && (Work in k.finished ==>
                  && (forall v :: res == Returns(v) <==> k.work == Some(Value(v)))
                  && (forall e :: res == Raises(e) <==> k.work == Some(Failed(e)))
                  && (res == IsCancelled(false) <==> k.work == Some(Cancelled))
                  && !res.TimesOut? && res != IsCancelled(true))
            && (Work !in k.finished && !k.gaveUp ==>
                  && (forall e :: res == Raises(e) <==> k.work == Some(Failed(e)) && e != TimeoutExn)
                  && (res.Raises? || (if Deadline in k.finished then res == TimesOut(!k.work.value.Failed?)
                                      else res == IsCancelled(false))))
  {
    ReachableInv(s);
    assert FutInv(s, f);
  }

  // ---- what a node holds is what the run's steps said ----

  /** The steps that leave a trace of their own at their node. */
  predicate Recorded(l: Label) {
    || l.WorkEnds? || l.ThreadEnds? || l.Cancel? || l.UnwindGrace? || l.GraceOver? || l.CancelAgain?
    || (l.RaceOver? && l.finished != {})
  }

  predicate Shows(n: Node, l: Label) {
    match l
    case WorkEnds(_, end) => n.k.Fut? && n.k.work == Some(end)
    case ThreadEnds(_, end) => n.k.Wrk? && n.k.thread == Some(end)
    case RaceOver(_, finished) => n.k.Fut? && n.k.finished == finished
    case Cancel(_) => n.k.Fut? && n.asked
    case UnwindGrace(_) => n.k.Fut? && n.k.gaveUp
    case GraceOver(_) => n.k.Wrk? && n.k.graceOver
    case CancelAgain(_) => n.k.Wrk? && n.k.cut
    case _ => false
  }

  lemma FutureRecords(s: State, m: Label, l: Label)
    requires Inv(s) && Enabled(s, m) && Recorded(l) && IsFut(s, Target(s, m)) && Target(s, l) == Target(s, m)
    ensures Shows(After(s, m), l) <==> Shows(s.nodes[Target(s, m)], l) || m == l
  {
    assert FutInv(s, Target(s, m));
  }

  lemma WorkerRecords(s: State, m: Label, l: Label)
    requires Inv(s) && Enabled(s, m) && Recorded(l) && IsWrk(s, Target(s, m)) && Target(s, l) == Target(s, m)
    ensures Shows(After(s, m), l) <==> Shows(s.nodes[Target(s, m)], l) || m == l
  {
    assert WrkInv(s, Target(s, m));
  }

  lemma StepRecords(s: State, m: Label, t: State, l: Label, i: int)
    requires Inv(s) && Enabled(s, m) && t == Next(s, m) && Recorded(l) && i == Target(s, l) && 0 <= i < |t.nodes|
    ensures Shows(t.nodes[i], l) <==> (i < |s.nodes| && Shows(s.nodes[i], l)) || m == l
  {
    if i == Target(s, m) {
      AfterExtends(s, m);
      if IsFut(s, i) { FutureRecords(s, m, l); } else { WorkerRecords(s, m, l); }
    }
  }

  /** Over every run: a future shows an ending of its coroutine, the end of its race, a
      cancel() or being given up on, and a worker an ending of its function, an elapsed grace or a second cancellation,
      exactly if that step is in the run. */
  lemma {:induction false} RunRecords(s: State, ls: seq<Label>, t: State, l: Label, i: int)
    requires Inv(s) && IsRun(s, ls, t) && Recorded(l) && i == Target(s, l) && 0 <= i < |t.nodes|
    ensures Shows(t.nodes[i], l) <==> (i < |s.nodes| && Shows(s.nodes[i], l)) || l in ls
    decreases |ls|
  {
    if ls != [] {
      var u := Next(s, ls[0]);
      NextKeepsInv(s, ls[0]);
      RunRecords(u, ls[1..], t, l, i);
      assert l in ls <==> l == ls[0] || l in ls[1..];
      if i < |u.nodes| {
        StepRecords(s, ls[0], u, l, i);
      } else {
        NextExtends(s, ls[0]);
        assert ls[0] != l;
      }
    }
  }

  lemma {:induction false} PrefixState(s: State, ls: seq<Label>, t: State, k: nat) returns (u: State)
    requires IsRun(s, ls, t) && k < |ls|
    ensures IsRun(s, ls[..k], u) && Enabled(u, ls[k])
    decreases |ls|
  {
    if k == 0 {
      u := s;
    } else {
      u := PrefixState(Next(s, ls[0]), ls[1..], t, k - 1);
      assert ls[..k][1..] == ls[1..][..k - 1];
    }
  }

  ghost predicate FunctionOver(w: int, ls: seq<Label>) { exists end :: ThreadEnds(w, end) in ls }

  ghost predicate CoroutineOver(f: int, ls: seq<Label>) { exists end :: WorkEnds(f, end) in ls }

  lemma FunctionOverIff(ls: seq<Label>, u: State, w: int)
    requires IsRun(Init, ls, u) && IsWrk(u, w)
    ensures FunctionOver(w, ls) <==> u.nodes[w].k.thread.Some?
  {
    forall end ensures ThreadEnds(w, end) in ls <==> u.nodes[w].k.thread == Some(end) {
      RunRecords(Init, ls, u, ThreadEnds(w, end), w);
    }
    if u.nodes[w].k.thread.Some? { assert ThreadEnds(w, u.nodes[w].k.thread.value) in ls; }
  }

  lemma CoroutineOverIff(ls: seq<Label>, u: State, f: int)
    requires IsRun(Init, ls, u) && IsFut(u, f)
    ensures CoroutineOver(f, ls) <==> u.nodes[f].k.work.Some?
  {
    forall end ensures WorkEnds(f, end) in ls <==> u.nodes[f].k.work == Some(end) {
      RunRecords(Init, ls, u, WorkEnds(f, end), f);
    }
    if u.nodes[f].k.work.Some? { assert WorkEnds(f, u.nodes[f].k.work.value) in ls; }
  }

  /** The order of a worker's steps in every run: its function ends once; its await is seen
      through only after that, and given up on only before. */
  lemma WorkerOrder(ls: seq<Label>, t: State, k: nat)
    requires IsRun(Init, ls, t) && k < |ls|
    ensures ls[k].Return? || ls[k].GraceDone? ==> FunctionOver(ls[k].w, ls[..k])
    ensures ls[k].GraceOver? || ls[k].ThreadEnds? ==> !FunctionOver(ls[k].w, ls[..k])
  {
    var u := PrefixState(Init, ls, t, k);
    if ls[k].Return? || ls[k].GraceDone? || ls[k].GraceOver? || ls[k].ThreadEnds? {
      FunctionOverIff(ls[..k], u, ls[k].w);
    }
  }

  /** The order of a future's steps: its coroutine ends once; the race sees that exactly if
      it has, sees a cancel() only if one was made, and is tidied up after the coroutine
      has ended or, with a deadline that fired, given up on before. */
  lemma FutureOrder(ls: seq<Label>, t: State, k: nat)
    requires IsRun(Init, ls, t) && k < |ls|
    ensures ls[k].WorkEnds? ==> !CoroutineOver(ls[k].f, ls[..k])
    ensures ls[k].RaceOver? ==>
              && (Work in ls[k].finished <==> CoroutineOver(ls[k].f, ls[..k]))
              && (OwnCancel in ls[k].finished ==> Cancel(ls[k].f) in ls[..k])
    ensures ls[k].UnwindEnds? ==> CoroutineOver(ls[k].f, ls[..k])
    ensures ls[k].UnwindGrace? ==>
              && !CoroutineOver(ls[k].f, ls[..k])
              && exists finished :: Deadline in finished && RaceOver(ls[k].f, finished) in ls[..k]
  {
    var u := PrefixState(Init, ls, t, k);
    RunKeepsInv(Init, ls[..k], u);
    if ls[k].WorkEnds? || ls[k].RaceOver? || ls[k].UnwindEnds? || ls[k].UnwindGrace? {
      var f := ls[k].f;
      CoroutineOverIff(ls[..k], u, f);
      if ls[k].RaceOver? {
        assert EventInv(u, f);
        RunRecords(Init, ls[..k], u, Cancel(f), f);
      }
      if ls[k].UnwindGrace? {
        RunRecords(Init, ls[..k], u, RaceOver(f, u.nodes[f].k.finished), f);
      }
    }
  }

  /** A new node starts out as its step says, and keeps its place and kind for good. */
  lemma StartsAsAsked(s: State, l: Label, ls: seq<Label>, t: State)
    requires Inv(s) && Enabled(s, l) && (l.Submit? || l.Spawn?) && IsRun(Next(s, l), ls, t)
    ensures |s.nodes| < |t.nodes|
    ensures var n := t.nodes[|s.nodes|];
            && (l.Submit? ==> n.k.Fut? && n.up == l.w && n.k.bounded == l.bounded)
            && (l.Spawn? ==>
                  && n.k.Wrk? && n.up == l.f && n.k.bridge == l.bridge
                  && (n.k.late <==> IsFut(s, l.f) && s.nodes[l.f].k.finished != {} && Work !in s.nodes[l.f].k.finished))
  {
    NextKeepsInv(s, l);
    RunGrows(Next(s, l), ls, t);
    assert Extends(Next(s, l).nodes[|s.nodes|], t.nodes[|s.nodes|]);
  }

  lemma {:induction false} RunGrows(s: State, ls: seq<Label>, t: State)
    requires Inv(s) && IsRun(s, ls, t)
    ensures Grown(s, t)
    decreases |ls|
  {
    if ls != [] {
      var u := Next(s, ls[0]);
      NextKeepsInv(s, ls[0]);
      NextExtends(s, ls[0]);
      RunGrows(u, ls[1..], t);
      GrownTransitive(s, u, t);
    }
  }

  lemma {:induction false} RunAppend(s: State, ls: seq<Label>, t: State, l: Label)
    requires IsRun(s, ls, t) && Enabled(t, l)
    ensures IsRun(s, ls + [l], Next(t, l))
    decreases |ls|
  {
    if ls != [] {
      RunAppend(Next(s, ls[0]), ls[1..], t, l);
      assert (ls + [l])[1..] == ls[1..] + [l];
    } else {
      assert [l][1..] == [];
    }
  }

  /** One more step from a reachable state. */
  lemma Then(s: State, l: Label, t: State)
    requires Reachable(s) && Enabled(s, l) && t == Next(s, l)
    ensures Reachable(t)
  {
    var ls :| IsRun(Init, ls, s);
    RunAppend(Init, ls, s, l);
  }

  lemma InitReachable()
    ensures Reachable(Init)
  {
    assert IsRun(Init, [], Init);
  }

  const Race0 := Fut(Racing, false, {}, None, false)
  const Thread0 := Wrk(None, Awaiting, false, false, false, false, false)

  /** Cancelled twice, _run_threaded reports CancelledError with its function still running. */
  lemma SecondCancelLeavesThread() returns (s: State)
    ensures Reachable(s) && IsWrk(s, 0) && s.nodes[0].k.thread.None? && s.nodes[0].k.waiter == Left(ThrowsCancelled)
  {
    var w := Node(-1, false, false, false, Thread0);
    var g := Node(-1, true, false, true, Thread0.(waiter := InGrace));
    assert Reachable(State([w], [])) by { InitReachable(); Then(Init, Spawn(-1, false), State([w], [])); }
    assert Reachable(State([g], [SetEvent(0)])) by {
      Then(State([w], []), TaskCancel(0), State([g], [SetEvent(0)]));
    }
    s := State([g.(k := g.k.(waiter := Left(ThrowsCancelled), cut := true))], [SetEvent(0)]);
    Then(State([g], [SetEvent(0)]), CancelAgain(0), s);
  }

  /** Submit, enqueue and start, with nothing in between. */
  lemma Started(ns: seq<Node>, up: int, ms: seq<Node>)
    requires Reachable(State(ns, [])) && Enabled(State(ns, []), Submit(up, false))
    requires ms == ns + [Node(up, false, false, false, Race0)]
    ensures Reachable(State(ms, []))
  {
    var n := Node(up, false, false, false, Fut(Checked, false, {}, None, false));
    var s1 := State(ns + [n], []);
    Then(State(ns, []), Submit(up, false), s1);
    var s2 := State(ns + [n.(k := n.k.(phase := Queued))], [Start(|ns|)]);
    Then(s1, Enqueue(|ns|), s2);
    Then(s2, Deliver, State(ms, []));
  }

  /** cancel() and the delivery of its message. */
  lemma AskedAndSet(ns: seq<Node>, f: int, ms: seq<Node>)
    requires Reachable(State(ns, [])) && Enabled(State(ns, []), Cancel(f))
    requires ms == ns[f := ns[f].(asked := true, explicit := true, isSet := true)]
    ensures Reachable(State(ms, []))
  {
    var s1 := State(ns[f := ns[f].(asked := true, explicit := true)], [SetEvent(f)]);
    Then(State(ns, []), Cancel(f), s1);
    Then(s1, Deliver, State(ms, []));
  }
}
