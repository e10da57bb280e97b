/** _iterate_threaded over the same transition system: each step of the sync
    generator, and its close, is one worker. */
module ThreadedIteration {
  import opened Protocol

  /** Idle: not yet started. Stepping: awaiting a step. AtYield: suspended in the
      consumer. Closing: awaiting generator.close. Ended: returned or raised. */
  datatype Pc = Idle | Stepping | AtYield | Closing | Ended

  /** A worker that was handed the generator, to step it or to close it. */
  datatype Job = Job(w: int, close: bool)

  /** `jobs` oldest first. */
  datatype Iter = Iter(s: State, pc: Pc, jobs: seq<Job>)

  const Start0 := Iter(Init, Idle, [])

  datatype Move =
    | Other(l: Label)
    | Advance(f: int, bridge: bool)   // the consumer asks for the next value
    | Resume                          // the awaited worker is over for _run_threaded
    | Exit(f: int, bridge: bool)      // GeneratorExit at the yield
    | Throw                           // any other exception thrown in at the yield

  function Last(it: Iter): int requires it.jobs != [] { it.jobs[|it.jobs| - 1].w }

  ghost predicate Can(it: Iter, m: Move) {
    match m
    case Other(l) => Enabled(it.s, l)
    case Advance(f, bridge) => (it.pc.Idle? || it.pc.AtYield?) && Enabled(it.s, Spawn(f, bridge))
    case Resume =>
      && (it.pc.Stepping? || it.pc.Closing?)
      && it.jobs != [] && IsWrk(it.s, Last(it)) && it.s.nodes[Last(it)].k.waiter.Left?
    case Exit(f, bridge) => it.pc.AtYield? && Enabled(it.s, Spawn(f, bridge))
    case Throw => it.pc.AtYield?
  }

  ghost function Do(it: Iter, m: Move): Iter
    requires Can(it, m)
  {
    match m
    case Other(l) => it.(s := Next(it.s, l))
    case Advance(f, bridge) =>
      Iter(Next(it.s, Spawn(f, bridge)), Stepping, it.jobs + [Job(|it.s.nodes|, false)])
    case Resume =>
      if it.pc.Stepping? && it.s.nodes[Last(it)].k.waiter.out.Gives? then it.(pc := AtYield) else it.(pc := Ended)
    case Exit(f, bridge) =>
      Iter(Next(it.s, Spawn(f, bridge)), Closing, it.jobs + [Job(|it.s.nodes|, true)])
    case Throw => it.(pc := Ended)
  }

  ghost predicate Iterates(it: Iter, ms: seq<Move>, jt: Iter)
    decreases |ms|
  {
    if ms == [] then it == jt else Can(it, ms[0]) && Iterates(Do(it, ms[0]), ms[1..], jt)
  }

  /** The worker's thread came back with a yielded value. */
  predicate Yielded(s: State, w: int) { IsWrk(s, w) && s.nodes[w].k.thread.Some? && s.nodes[w].k.thread.value.Value? }

  ghost predicate IInv(it: Iter) { Inv(it.s) && JobsOk(it) }

  ghost predicate JobsOk(it: Iter) {
    && (forall i :: 0 <= i < |it.jobs| ==> IsWrk(it.s, it.jobs[i].w))
    // Every job but the last was a step that yielded.
    && (forall i :: 0 <= i < |it.jobs| - 1 ==> !it.jobs[i].close && Yielded(it.s, it.jobs[i].w))
    && (it.pc.AtYield? ==> it.jobs != [] && !it.jobs[|it.jobs| - 1].close && Yielded(it.s, Last(it)))
    && (it.pc.Idle? <==> it.jobs == [])
    && (it.pc.Closing? ==> it.jobs[|it.jobs| - 1].close)
    && (it.pc.Stepping? ==> !it.jobs[|it.jobs| - 1].close)
  }

  lemma BridgeKeeps(it: Iter, t: State)
    requires JobsOk(it) && Grown(it.s, t)
    ensures JobsOk(it.(s := t))
  {
    forall i | 0 <= i < |it.jobs|
      ensures IsWrk(t, it.jobs[i].w) && (Yielded(it.s, it.jobs[i].w) ==> Yielded(t, it.jobs[i].w))
    {
      assert Extends(it.s.nodes[it.jobs[i].w], t.nodes[it.jobs[i].w]);
    }
  }

  lemma JobKeeps(it: Iter, t: State, close: bool)
    requires JobsOk(it) && Grown(it.s, t) && IsWrk(t, |it.s.nodes|)
    requires it.pc.AtYield? || (it.pc.Idle? && !close)
    ensures JobsOk(Iter(t, if close then Closing else Stepping, it.jobs + [Job(|it.s.nodes|, close)]))
  {
    BridgeKeeps(it, t);
    var jobs := it.jobs + [Job(|it.s.nodes|, close)];
    assert forall i :: 0 <= i < |it.jobs| ==> jobs[i] == it.jobs[i];
  }

  lemma ResumeKeeps(it: Iter)
    requires IInv(it) && Can(it, Resume)
    ensures IInv(Do(it, Resume))
  {
    assert WrkInv(it.s, Last(it));
  }

  lemma DoKeeps(it: Iter, m: Move)
    requires IInv(it) && Can(it, m)
    ensures IInv(Do(it, m))
  {
    if m.Other? || m.Advance? || m.Exit? {
      var l := if m.Other? then m.l else Spawn(m.f, m.bridge);
      NextKeepsInv(it.s, l);
      NextExtends(it.s, l);
      if m.Other? { BridgeKeeps(it, Next(it.s, l)); } else { JobKeeps(it, Next(it.s, l), m.Exit?); }
    } else if m.Resume? {
      ResumeKeeps(it);
    }
  }

  lemma {:induction false} IteratesKeeps(it: Iter, ms: seq<Move>, jt: Iter)
    requires IInv(it) && Iterates(it, ms, jt)
    ensures IInv(jt)
    decreases |ms|
  {
    if ms != [] {
      DoKeeps(it, ms[0]);
      IteratesKeeps(Do(it, ms[0]), ms[1..], jt);
    }
  }

  // ---- what was run is what the consumer did ----

  function Kinds(jobs: seq<Job>): seq<bool> { seq(|jobs|, i requires 0 <= i < |jobs| => jobs[i].close) }

  /** The jobs the consumer's moves call for: a step for each value asked for, a close for
      each GeneratorExit. */
  function Asked(ms: seq<Move>): seq<bool> {
    if ms == [] then []
    else (match ms[0]
          case Advance(_, _) => [false]
          case Exit(_, _) => [true]
          case _ => []) + Asked(ms[1..])
  }

  lemma MoveRuns(it: Iter, m: Move)
    requires Can(it, m)
    ensures Kinds(Do(it, m).jobs) == Kinds(it.jobs) + Asked([m])
  {
    assert [m][1..] == [];
  }

  lemma AskedFirst(ms: seq<Move>)
    requires ms != []
    ensures Asked(ms) == Asked([ms[0]]) + Asked(ms[1..])
  {
    assert [ms[0]][1..] == [];
  }

  lemma {:induction false} MovesRun(it: Iter, ms: seq<Move>, jt: Iter)
    requires Iterates(it, ms, jt)
    ensures Kinds(jt.jobs) == Kinds(it.jobs) + Asked(ms)
    decreases |ms|
  {
    if ms != [] {
      MoveRuns(it, ms[0]);
      MovesRun(Do(it, ms[0]), ms[1..], jt);
      AskedFirst(ms);
    }
  }

  lemma RunFromStart(ms: seq<Move>, jt: Iter)
    requires Iterates(Start0, ms, jt)
    ensures Kinds(jt.jobs) == Asked(ms)
  {
    MovesRun(Start0, ms, jt);
    assert Kinds([]) + Asked(ms) == Asked(ms);
  }

  /** The awaited worker gave a value. */
  predicate Gave(s: State, w: int) {
    IsWrk(s, w) && s.nodes[w].k.waiter.Left? && s.nodes[w].k.waiter.out.Gives?
  }

  /** Where the iteration stands, by its latest worker: at a yield after a step that gave a
      value, over after one that did not, after a close, or after a throw. */
  ghost predicate Stands(it: Iter, thrown: bool) {
    && (it.pc.AtYield? ==> it.jobs != [] && Gave(it.s, Last(it)))
    && (it.pc.Ended? && !thrown ==>
          && it.jobs != [] && IsWrk(it.s, Last(it)) && it.s.nodes[Last(it)].k.waiter.Left?
          && (it.jobs[|it.jobs| - 1].close || !Gave(it.s, Last(it))))
  }

  lemma StandsInNext(it: Iter, t: State, thrown: bool)
    requires JobsOk(it) && Stands(it, thrown) && Grown(it.s, t)
    ensures Stands(it.(s := t), thrown)
  {
    if it.jobs != [] { assert Extends(it.s.nodes[Last(it)], t.nodes[Last(it)]); }
  }

  lemma MoveStands(it: Iter, m: Move, thrown: bool)
    requires IInv(it) && Can(it, m) && Stands(it, thrown)
    ensures Stands(Do(it, m), thrown || m.Throw?)
  {
    if m.Other? {
      NextExtends(it.s, m.l);
      StandsInNext(it, Next(it.s, m.l), thrown);
    }
  }

  lemma {:induction false} MovesStand(it: Iter, ms: seq<Move>, jt: Iter, thrown: bool)
    requires IInv(it) && Iterates(it, ms, jt) && Stands(it, thrown)
    ensures Stands(jt, thrown || Throw in ms)
    decreases |ms|
  {
    if ms != [] {
      MoveStands(it, ms[0], thrown);
      DoKeeps(it, ms[0]);
      MovesStand(Do(it, ms[0]), ms[1..], jt, thrown || ms[0].Throw?);
      assert ms == [ms[0]] + ms[1..];
    }
  }

  /** No re-entry, over every interleaving with cancellations mid-step and early
      closes: everything run before the latest job was a step that yielded, so at most
      one thread is ever inside the generator and nothing follows a close or a step
      that raised. The jobs are one step for each value asked for and one close for a
      GeneratorExit at a yield, in that order; and iteration goes on after every value. */
  lemma NoReentry(ms: seq<Move>, jt: Iter, i: int)
    requires Iterates(Start0, ms, jt) && 0 <= i < |jt.jobs|
    ensures IsWrk(jt.s, jt.jobs[i].w)
    ensures jt.s.nodes[jt.jobs[i].w].k.thread.None? || jt.jobs[i].close || !Yielded(jt.s, jt.jobs[i].w) ==>
              i == |jt.jobs| - 1
    ensures Kinds(jt.jobs) == Asked(ms)
    ensures jt.pc.AtYield? ==> Gave(jt.s, Last(jt))
    ensures jt.pc.Ended? && Throw !in ms ==>
              && IsWrk(jt.s, Last(jt)) && jt.s.nodes[Last(jt)].k.waiter.Left?
              && (jt.jobs[|jt.jobs| - 1].close || !Gave(jt.s, Last(jt)))
  {
    IteratesKeeps(Start0, ms, jt);
    RunFromStart(ms, jt);
    MovesStand(Start0, ms, jt, false);
  }
}
