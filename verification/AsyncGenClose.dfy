/** unkoil_gen driving an async generator over the same transition system: each
    step is one future, and the finally block cancels an unfinished step, waits a
    bounded time for it and closes the generator on the loop. */
module AsyncGenClose {
  import opened Options
  import opened Race
  import opened Protocol

  /** The async generator's frame. */
  datatype Frame = Fresh | Suspended | Running | Closed

  /** Where the driving thread is. Body: before the first step or at a yield.
      Entering: submitted, not yet handed over. Waiting: in result().
      Settling: waiting for a cancelled step. Closing: waiting for the aclose. */
  datatype Pc = Body | Entering | Waiting | Finally | Settling | Closing | Finished

  /** The aclose the finally block hands to the loop, where it runs on its own. */
  datatype Aclose = Unissued | Pending | Ran

  /** How the driving thread got out of the finally block. */
  datatype Exit = NotYet | Confirmed | TimedOut | Interrupted

  /** `step` is the node of the latest step's future, or -1. `entered` once the frame
      ran, `finals` counts its finaliser. */
  datatype Drive = Drive(s: State, step: int, pc: Pc, frame: Frame, entered: bool, finals: nat,
                         settleExpired: bool, close: Aclose, collided: bool, defied: bool, exit: Exit)

  const Start0 := Drive(Init, -1, Body, Fresh, false, 0, false, Unissued, false, false, NotYet)

  datatype Move =
    | Other(l: Label)                 // any step of the bridge, this future's race included
    | SubmitStep(w: int, bounded: bool)
    | RefusedStep(w: int)             // the submission raises ThreadCancelledError
    | EnqueueStep
    | Fetch                           // result() returns or raises
    | Interrupt                       // KeyboardInterrupt in result(): cancel and leave
    | Leave                           // close() or throw() by the consumer at a yield
    | CancelStep                      // the finally block finds the step unfinished
    | Settle | SettleExpires
    | RunClose(defies: bool)          // the loop runs the aclose; the generator may yield again on GeneratorExit
    | CloseSeen | CloseTimesOut
    | InterruptAgain                  // another KeyboardInterrupt, inside the finally block

  predicate StepResolved(d: Drive) {
    d.step == -1 || (IsFut(d.s, d.step) && d.s.nodes[d.step].k.phase.Resolved?)
  }

  ghost predicate Can(d: Drive, m: Move) {
    match m
    case Other(l) => Enabled(d.s, l) && l != Enqueue(d.step)
    case SubmitStep(w, bounded) => d.pc.Body? && Enabled(d.s, Submit(w, bounded))
    case RefusedStep(w) => d.pc.Body? && Enabled(d.s, Refuse(w))
    case EnqueueStep => d.pc.Entering? && Enabled(d.s, Enqueue(d.step))
    case Fetch => d.pc.Waiting? && StepResolved(d)
    case Interrupt => d.pc.Waiting? && (StepResolved(d) || Enabled(d.s, Cancel(d.step)))
    case Leave => d.pc.Body? && d.step != -1
    case CancelStep => d.pc.Finally? && (StepResolved(d) || Enabled(d.s, Cancel(d.step)))
    case Settle => d.pc.Settling? && StepResolved(d)
    case SettleExpires => d.pc.Settling?
    case RunClose(_) =>
      // The close was queued after the step was, so the step's task has been started.
      d.close.Pending? && (IsFut(d.s, d.step) ==> !d.s.nodes[d.step].k.phase.Queued?)
    case CloseSeen => d.pc.Closing? && d.close.Ran?
    case CloseTimesOut => d.pc.Closing?
    case InterruptAgain => d.pc.Finally? || d.pc.Settling? || d.pc.Closing?
  }

  /** What a step of the bridge, leading to t, does to the frame: the step's coroutine
      starting resumes it, its ending suspends it at a yield or finishes it. */
  function Effect(d: Drive, l: Label, t: State): Drive {
    var e := d.(s := t);
    if l.WorkEnds? && l.f == d.step then
      if l.end.Value? then e.(frame := Suspended) else e.(frame := Closed, finals := d.finals + 1)
    else if && l.Deliver? && d.s.queue != [] && d.s.queue[0] == Start(d.step)
            && IsFut(d.s, d.step) && d.s.nodes[d.step].k.phase.Queued? then
      e.(frame := Running, entered := true)
    else e
  }

  ghost function Bridge(d: Drive, l: Label): Drive
    requires Enabled(d.s, l)
  { Effect(d, l, Next(d.s, l)) }

  ghost function Do(d: Drive, m: Move): Drive
    requires Can(d, m)
  {
    match m
    case Other(l) => Bridge(d, l)
    case SubmitStep(w, bounded) => Bridge(d, Submit(w, bounded)).(pc := Entering, step := |d.s.nodes|)
    case RefusedStep(_) => d.(pc := Finally)
    case EnqueueStep => Bridge(d, Enqueue(d.step)).(pc := Waiting)
    case Fetch =>
      if d.step != -1 && d.s.nodes[d.step].k.phase.res.Returns? then d.(pc := Body) else d.(pc := Finally)
    case Interrupt => if StepResolved(d) then d.(pc := Finally) else Bridge(d, Cancel(d.step)).(pc := Finally)
    case Leave => d.(pc := Finally)
    case CancelStep =>
      if StepResolved(d) then d.(pc := Closing, close := Pending)
      else Bridge(d, Cancel(d.step)).(pc := Settling)
    case Settle => d.(pc := Closing, close := Pending)
    case SettleExpires => d.(pc := Closing, close := Pending, settleExpired := !StepResolved(d))
    case RunClose(defies) =>
      (match d.frame
       case Running => d.(close := Ran, collided := true)  // "already running", swallowed
       case Suspended =>
         if defies then d.(close := Ran, defied := true)  // "ignored GeneratorExit", swallowed
         else d.(close := Ran, frame := Closed, finals := d.finals + 1)
       case Fresh => d.(close := Ran, frame := Closed)
       case Closed => d.(close := Ran))
    case CloseSeen => d.(pc := Finished, exit := Confirmed)
    case CloseTimesOut => d.(pc := Finished, exit := TimedOut)
    case InterruptAgain => d.(pc := Finished, exit := Interrupted)
  }

  ghost predicate Drives(d: Drive, ms: seq<Move>, e: Drive)
    decreases |ms|
  {
    if ms == [] then d == e else Can(d, ms[0]) && Drives(Do(d, ms[0]), ms[1..], e)
  }

  /** The step's coroutine has been started and has not ended. */
  predicate StepRuns(d: Drive) {
    && IsFut(d.s, d.step) && d.s.nodes[d.step].k.work.None?
    && !d.s.nodes[d.step].k.phase.Checked? && !d.s.nodes[d.step].k.phase.Queued?
  }

  /** The step resolved with its coroutine given up on: an unacknowledged deadline. */
  predicate Unacknowledged(d: Drive) { IsFut(d.s, d.step) && d.s.nodes[d.step].k.gaveUp }

  /** The frame as the latest step's future shows it. */
  function FrameOf(d: Drive): Frame
    requires d.step == -1 || IsFut(d.s, d.step)
  {
    if d.step == -1 then Fresh
    else
      var k := d.s.nodes[d.step].k;
      if k.phase.Checked? || k.phase.Queued? then (if d.entered then Suspended else Fresh)
      else if k.work.None? then Running
      else if k.work.value.Value? then Suspended
      else Closed
  }

  /** The aclose was run, found the frame free and was obeyed. */
  predicate ClosedByUs(d: Drive) { d.close.Ran? && !d.collided && !d.defied }

  /** The step's coroutine ended without a value, and the frame with it. */
  predicate StepFinishedFrame(d: Drive) {
    IsFut(d.s, d.step) && d.s.nodes[d.step].k.work.Some? && !d.s.nodes[d.step].k.work.value.Value?
  }

  ghost predicate DInv(d: Drive) {
    && Inv(d.s)
    && (d.step == -1 || IsFut(d.s, d.step))
    && (d.entered <==> d.step != -1 && (d.frame.Running? || d.frame.Suspended? || d.finals == 1))
    && d.finals == (if d.frame.Closed? && d.entered then 1 else 0)
    && (if ClosedByUs(d) then d.frame.Closed? && !StepRuns(d) && StepStarted(d) else d.frame == FrameOf(d))
    && (d.pc.Entering? <==> d.step != -1 && d.s.nodes[d.step].k.phase.Checked?)
    && (d.pc.Waiting? ==> d.step != -1)
    && (d.pc.Body? && d.step != -1 ==> StepResolved(d) && d.s.nodes[d.step].k.phase.res.Returns?)
    && (!d.close.Unissued? ==> (d.pc.Closing? || d.pc.Finished?) && (StepResolved(d) || d.settleExpired))
    && (d.pc.Closing? || d.settleExpired || d.exit.TimedOut? ==> !d.close.Unissued?)
    && (d.exit.Confirmed? || d.collided || d.defied ==> d.close.Ran?)
    && (d.exit.NotYet? <==> !d.pc.Finished?)
    && (d.pc.Body? || d.pc.Entering? || d.pc.Waiting? || StepResolved(d) || d.s.nodes[d.step].asked)
    && (d.collided ==> d.settleExpired || Unacknowledged(d))
    && (d.defied ==> d.frame.Suspended? && StepStarted(d) && !d.collided)
  }

  /** The step's task, if there is one, has left the queue. */
  predicate StepStarted(d: Drive) {
    IsFut(d.s, d.step) ==> !d.s.nodes[d.step].k.phase.Checked? && !d.s.nodes[d.step].k.phase.Queued?
  }

  /** What one step of the bridge does to a given future, not being its hand-over. */
  predicate Shifts(s: State, l: Label, t: State, f: int) {
    && IsFut(s, f) && IsFut(t, f)
    && var k, k' := s.nodes[f].k, t.nodes[f].k;
    && k'.work == (if l.WorkEnds? && l.f == f then Some(l.end) else k.work)
    && (l.WorkEnds? && l.f == f ==> k.work.None? && !k.phase.Checked? && !k.phase.Queued?)
    && (k'.phase.Checked? <==> k.phase.Checked?)
    && (k'.phase.Queued? <==> k.phase.Queued? && !(l.Deliver? && s.queue != [] && s.queue[0] == Start(f)))
    && (k.phase.Resolved? ==> k'.phase == k.phase && k'.finished == k.finished)
    && (k.gaveUp ==> k'.gaveUp) && (s.nodes[f].asked ==> t.nodes[f].asked)
  }

  lemma NextShifts(s: State, l: Label, f: int)
    requires Inv(s) && Enabled(s, l) && IsFut(s, f) && l != Enqueue(f)
    ensures Shifts(s, l, Next(s, l), f)
  {
    assert FutInv(s, f);
    NextExtends(s, l);
    if f == Target(s, l) { OwnShifts(s, l, Next(s, l)); }
  }

  lemma OwnShifts(s: State, l: Label, t: State)
    requires Inv(s) && Enabled(s, l) && !l.Enqueue? && t == Next(s, l) && IsFut(s, Target(s, l))
    ensures Shifts(s, l, t, Target(s, l))
  {
    assert FutInv(s, Target(s, l));
  }

  lemma EffectKeeps(d: Drive, l: Label, t: State)
    requires DInv(d) && Inv(t)
    requires d.step == -1 || Shifts(d.s, l, t, d.step)
    requires l.WorkEnds? ==> IsFut(d.s, l.f)
    ensures DInv(Effect(d, l, t))
  {
    if d.step != -1 { assert FutInv(d.s, d.step) && FutInv(t, d.step); }
  }

  lemma BridgeKeeps(d: Drive, l: Label)
    requires DInv(d) && Enabled(d.s, l) && l != Enqueue(d.step)
    ensures DInv(Bridge(d, l))
  {
    NextKeepsInv(d.s, l);
    if d.step != -1 { NextShifts(d.s, l, d.step); }
    EffectKeeps(d, l, Next(d.s, l));
  }

  lemma SubmitStepKeeps(d: Drive, m: Move)
    requires DInv(d) && Can(d, m) && (m.SubmitStep? || m.EnqueueStep?)
    ensures DInv(Do(d, m))
  {
    NextKeepsInv(d.s, if m.SubmitStep? then Submit(m.w, m.bounded) else Enqueue(d.step));
    if d.step != -1 { assert FutInv(d.s, d.step); }
  }

  lemma RunCloseKeeps(d: Drive, defies: bool)
    requires DInv(d) && Can(d, RunClose(defies))
    ensures DInv(Do(d, RunClose(defies)))
  {
    if d.step != -1 { assert FutInv(d.s, d.step); }
  }

  lemma QuietMoveKeeps(d: Drive, m: Move)
    requires DInv(d) && Can(d, m)
    requires m.RefusedStep? || m.Fetch? || m.Leave? || m.InterruptAgain?
    ensures DInv(Do(d, m))
  {
    if d.step != -1 { assert FutInv(d.s, d.step); }
  }

  lemma FinallyMoveKeeps(d: Drive, m: Move)
    requires DInv(d) && Can(d, m) && (m.Settle? || m.SettleExpires? || m.CloseSeen? || m.CloseTimesOut?)
    ensures DInv(Do(d, m))
  {
  }

  lemma CancelKeeps(d: Drive, m: Move)
    requires DInv(d) && Can(d, m) && (m.Interrupt? || m.CancelStep?)
    ensures DInv(Do(d, m))
  {
    if !StepResolved(d) { BridgeKeeps(d, Cancel(d.step)); }
  }

  lemma DoKeeps(d: Drive, m: Move)
    requires DInv(d) && Can(d, m)
    ensures DInv(Do(d, m))
  {
    match m
    case Other(l) => BridgeKeeps(d, l);
    case SubmitStep(_, _) => SubmitStepKeeps(d, m);
    case EnqueueStep => SubmitStepKeeps(d, m);
    case Interrupt => CancelKeeps(d, m);
    case CancelStep => CancelKeeps(d, m);
    case RunClose(defies) => RunCloseKeeps(d, defies);
    case _ =>
      if m.Settle? || m.SettleExpires? || m.CloseSeen? || m.CloseTimesOut? { FinallyMoveKeeps(d, m); }
      else { QuietMoveKeeps(d, m); }
  }

  lemma {:induction false} DrivesKeeps(d: Drive, ms: seq<Move>, e: Drive)
    requires DInv(d) && Drives(d, ms, e)
    ensures DInv(e)
    decreases |ms|
  {
    if ms != [] {
      DoKeeps(d, ms[0]);
      DrivesKeeps(Do(d, ms[0]), ms[1..], e);
    }
  }

  lemma ClosedIff(d: Drive)
    requires DInv(d)
    ensures d.frame.Closed? <==> ClosedByUs(d) || StepFinishedFrame(d)
    ensures d.exit.Confirmed? && !d.settleExpired && !Unacknowledged(d) ==> (d.frame.Closed? <==> !d.defied)
  {
    if d.step != -1 { assert FutInv(d.s, d.step); }
  }

  // ---- what a drive holds is what its moves said ----

  /** The finally block hands the aclose to the loop: at once if it finds the step over, else
      when the wait for it ends. */
  predicate Issues(d: Drive, m: Move) { (m.CancelStep? && StepResolved(d)) || m.Settle? || m.SettleExpires? }

  ghost predicate IssuedIn(d: Drive, ms: seq<Move>)
    decreases |ms|
  {
    ms != [] && Can(d, ms[0]) && (Issues(d, ms[0]) || IssuedIn(Do(d, ms[0]), ms[1..]))
  }

  /** What a drive records of its finally block. */
  datatype Flags = Flags(exit: Exit, close: Aclose, settleExpired: bool, defied: bool)

  function FlagsOf(d: Drive): Flags { Flags(d.exit, d.close, d.settleExpired, d.defied) }

  /** ... against the moves made: how the thread left, what went wrong, and whether the
      aclose was issued and run. */
  predicate Tells(a: Flags, ms: seq<Move>, issued: bool, b: Flags) {
    && (b.exit.Interrupted? <==> a.exit.Interrupted? || InterruptAgain in ms)
    && (b.exit.TimedOut? <==> a.exit.TimedOut? || CloseTimesOut in ms)
    && (b.exit.Confirmed? <==> a.exit.Confirmed? || CloseSeen in ms)
    && (b.close.Ran? <==> a.close.Ran? || RunClose(true) in ms || RunClose(false) in ms)
    && (b.close.Unissued? <==> a.close.Unissued? && !issued)
    && (b.settleExpired ==> a.settleExpired || SettleExpires in ms)
    && (b.defied ==> a.defied || RunClose(true) in ms)
  }

  lemma TellsOn(a: Flags, m: Move, i: bool, b: Flags, ms: seq<Move>, j: bool, c: Flags)
    requires Tells(a, [m], i, b) && Tells(b, ms, j, c)
    ensures Tells(a, [m] + ms, i || j, c)
  {
  }

  lemma EffectKeepsFlags(d: Drive, l: Label, t: State)
    ensures FlagsOf(Effect(d, l, t)) == FlagsOf(d)
  {
  }

  lemma StepMoveTells(d: Drive, m: Move)
    requires DInv(d) && Can(d, m)
    requires m.Other? || m.SubmitStep? || m.EnqueueStep? || m.Interrupt? || (m.CancelStep? && !StepResolved(d))
    ensures FlagsOf(Do(d, m)) == FlagsOf(d) && !Issues(d, m)
  {
    var l := match m
      case Other(l) => l
      case SubmitStep(w, bounded) => Submit(w, bounded)
      case EnqueueStep => Enqueue(d.step)
      case _ => Cancel(d.step);
    if Enabled(d.s, l) { EffectKeepsFlags(d, l, Next(d.s, l)); }
  }

  lemma MoveTells(d: Drive, m: Move)
    requires DInv(d) && Can(d, m)
    ensures Tells(FlagsOf(d), [m], Issues(d, m), FlagsOf(Do(d, m)))
  {
    if m.Other? || m.SubmitStep? || m.EnqueueStep? || m.Interrupt? || (m.CancelStep? && !StepResolved(d)) {
      StepMoveTells(d, m);
    }
  }

  /** Over every run: the record tells what was done. */
  lemma {:induction false} MovesTell(d: Drive, ms: seq<Move>, e: Drive)
    requires DInv(d) && Drives(d, ms, e)
    ensures Tells(FlagsOf(d), ms, IssuedIn(d, ms), FlagsOf(e))
    decreases |ms|
  {
    if ms != [] {
      var u := Do(d, ms[0]);
      DoKeeps(d, ms[0]);
      MoveTells(d, ms[0]);
      MovesTell(u, ms[1..], e);
      TellsOn(FlagsOf(d), ms[0], Issues(d, ms[0]), FlagsOf(u), ms[1..], IssuedIn(u, ms[1..]), FlagsOf(e));
      assert ms == [ms[0]] + ms[1..];
    }
  }

  function Submits(ms: seq<Move>): nat {
    if ms == [] then 0 else (if ms[0].SubmitStep? then 1 else 0) + Submits(ms[1..])
  }

  /** With n steps submitted: the frame has been entered if the latest was started, or there
      was one before it. */
  predicate EnteredBy(d: Drive, n: nat) {
    && (d.step == -1 <==> n == 0)
    && (d.entered <==> (n == 1 && StepStarted(d)) || n >= 2)
  }

  lemma EffectEnters(d: Drive, l: Label, t: State, n: nat)
    requires DInv(d) && EnteredBy(d, n) && (d.step == -1 || Shifts(d.s, l, t, d.step))
    ensures EnteredBy(Effect(d, l, t), n)
  {
  }

  lemma MoveEnters(d: Drive, m: Move, n: nat)
    requires DInv(d) && Can(d, m) && EnteredBy(d, n)
    ensures EnteredBy(Do(d, m), n + Submits([m]))
  {
    match m
    case Other(l) =>
      if d.step != -1 { NextShifts(d.s, l, d.step); }
      EffectEnters(d, l, Next(d.s, l), n);
    case Interrupt =>
      if !StepResolved(d) {
        NextShifts(d.s, Cancel(d.step), d.step);
        EffectEnters(d, Cancel(d.step), Next(d.s, Cancel(d.step)), n);
      }
    case CancelStep =>
      if !StepResolved(d) {
        NextShifts(d.s, Cancel(d.step), d.step);
        EffectEnters(d, Cancel(d.step), Next(d.s, Cancel(d.step)), n);
      }
    case _ => if d.step != -1 { assert FutInv(d.s, d.step); }
  }

  lemma {:induction false} MovesEnter(d: Drive, ms: seq<Move>, e: Drive, n: nat)
    requires DInv(d) && Drives(d, ms, e) && EnteredBy(d, n)
    ensures EnteredBy(e, n + Submits(ms))
    decreases |ms|
  {
    if ms != [] {
      DoKeeps(d, ms[0]);
      MoveEnters(d, ms[0], n);
      assert Submits(ms) == Submits([ms[0]]) + Submits(ms[1..]);
      MovesEnter(Do(d, ms[0]), ms[1..], e, n + Submits([ms[0]]));
    }
  }

  /** In the finally block, or past it. */
  predicate Past(d: Drive) { d.pc.Finally? || d.pc.Settling? || d.pc.Closing? || d.pc.Finished? }

  /** What takes the drive there: the consumer leaving at a yield, a refused submission, an
      interrupted wait, or a step that did not end with a value. */
  ghost predicate Leaves(d: Drive, m: Move) {
    || m.Leave? || m.RefusedStep? || m.Interrupt?
    || (m.Fetch? && IsFut(d.s, d.step) && d.s.nodes[d.step].k.phase.Resolved?
        && !d.s.nodes[d.step].k.phase.res.Returns?)
  }

  ghost predicate LeftIn(d: Drive, ms: seq<Move>)
    decreases |ms|
  {
    ms != [] && Can(d, ms[0]) && (Leaves(d, ms[0]) || LeftIn(Do(d, ms[0]), ms[1..]))
  }

  lemma EffectKeepsPc(d: Drive, l: Label, t: State)
    ensures Effect(d, l, t).pc == d.pc
  {
  }

  lemma MoveLeaves(d: Drive, m: Move)
    requires DInv(d) && Can(d, m)
    ensures Past(Do(d, m)) <==> Past(d) || Leaves(d, m)
  {
    if m.Other? { EffectKeepsPc(d, m.l, Next(d.s, m.l)); }
  }

  lemma {:induction false} MovesLeave(d: Drive, ms: seq<Move>, e: Drive)
    requires DInv(d) && Drives(d, ms, e)
    ensures Past(e) <==> Past(d) || LeftIn(d, ms)
    decreases |ms|
  {
    if ms != [] {
      DoKeeps(d, ms[0]);
      MoveLeaves(d, ms[0]);
      MovesLeave(Do(d, ms[0]), ms[1..], e);
    }
  }

  /** Safe close, over every interleaving of steps, cancellations, interrupts and the close.
      The aclose meets a running frame only if the settle wait expired or a step's deadline
      went unacknowledged; otherwise, once unkoil_gen has seen the close through, the
      generator is closed, unless it yielded again on GeneratorExit. In general it is
      closed exactly if the aclose was run, met no running frame and was not defied, or the
      last step finished it. unkoil_gen comes to its finally block exactly if the consumer
      leaves, a submission is refused, a wait is interrupted or a step ends without a
      value, and ends without issuing the aclose exactly if that block is interrupted
      before it does; a step it leaves unfinished has been asked to stop. The finaliser
      runs through once if the generator was entered and is closed, and never twice. */
  lemma SafeClose(ms: seq<Move>, e: Drive)
    requires Drives(Start0, ms, e)
    ensures e.collided ==> SettleExpires in ms || Unacknowledged(e)
    ensures CloseSeen in ms && SettleExpires !in ms && !Unacknowledged(e) ==> (e.frame.Closed? <==> !e.defied)
    ensures e.defied ==> RunClose(true) in ms
    ensures e.frame.Closed? <==>
            ((RunClose(true) in ms || RunClose(false) in ms) && !e.collided && !e.defied) || StepFinishedFrame(e)
    ensures e.pc.Finished? <==> CloseSeen in ms || CloseTimesOut in ms || InterruptAgain in ms
    ensures e.pc.Finished? && e.close.Unissued? <==> InterruptAgain in ms && !IssuedIn(Start0, ms)
    ensures Past(e) <==> LeftIn(Start0, ms)
    ensures e.pc.Finished? && !StepResolved(e) ==> IsFut(e.s, e.step) && e.s.nodes[e.step].asked
    ensures e.finals == (if e.frame.Closed? && e.entered then 1 else 0)
    ensures e.entered <==> (Submits(ms) == 1 && StepStarted(e)) || Submits(ms) >= 2
  {
    DrivesKeeps(Start0, ms, e);
    ClosedIff(e);
    MovesTell(Start0, ms, e);
    MovesEnter(Start0, ms, e, 0);
    MovesLeave(Start0, ms, e);
  }

  /** From the finally block at most three moves, and none of the generator's, lead out of it
      with the aclose issued. */
  lemma FinallyCompletes(d: Drive) returns (ms: seq<Move>, e: Drive)
    requires DInv(d) && Past(d) && !d.pc.Finished?
    ensures |ms| <= 3 && Drives(d, ms, e) && e.pc.Finished? && !e.close.Unissued? && InterruptAgain !in ms
  {
    if d.pc.Finally? {
      if d.step != -1 { assert FutInv(d.s, d.step); }
      var u := Do(d, CancelStep);
      DoKeeps(d, CancelStep);
      ms, e := WaitsComplete(u);
      assert ([CancelStep] + ms)[1..] == ms;
      ms := [CancelStep] + ms;
    } else {
      ms, e := WaitsComplete(d);
    }
  }

  lemma WaitsComplete(d: Drive) returns (ms: seq<Move>, e: Drive)
    requires DInv(d) && (d.pc.Settling? || d.pc.Closing?)
    ensures |ms| <= 2 && Drives(d, ms, e) && e.pc.Finished? && !e.close.Unissued? && InterruptAgain !in ms
  {
    var u := if d.pc.Settling? then Do(d, SettleExpires) else d;
    e := Do(u, CloseTimesOut);
    assert Drives(e, [], e);
    assert [CloseTimesOut][1..] == [];
    assert Drives(u, [CloseTimesOut], e);
    if d.pc.Settling? {
      ms := [SettleExpires, CloseTimesOut];
      assert ms[1..] == [CloseTimesOut];
    } else {
      ms := [CloseTimesOut];
    }
  }

  /** An aclose the thread did not wait for is still run, once the step has been started. */
  lemma CloseStillRuns(ms: seq<Move>, e: Drive, defies: bool)
    requires Drives(Start0, ms, e) && e.pc.Finished? && e.close.Pending? && StepStarted(e)
    ensures Can(e, RunClose(defies)) && Do(e, RunClose(defies)).close.Ran?
    ensures !e.settleExpired && !Unacknowledged(e) && !defies ==> Do(e, RunClose(defies)).frame.Closed?
  {
    DrivesKeeps(Start0, ms, e);
    if e.step != -1 { assert FutInv(e.s, e.step); }
  }

  ghost predicate Driven(d: Drive) { exists ms :: Drives(Start0, ms, d) }

  lemma {:induction false} DrivesAppend(d: Drive, ms: seq<Move>, e: Drive, m: Move)
    requires Drives(d, ms, e) && Can(e, m)
    ensures Drives(d, ms + [m], Do(e, m))
    decreases |ms|
  {
    if ms != [] {
      DrivesAppend(Do(d, ms[0]), ms[1..], e, m);
      assert (ms + [m])[1..] == ms[1..] + [m];
    } else {
      assert [m][1..] == [];
    }
  }

  lemma Moved(d: Drive, m: Move, e: Drive)
    requires Driven(d) && Can(d, m) && e == Do(d, m)
    ensures Driven(e)
  {
    var ms :| Drives(Start0, ms, d);
    DrivesAppend(Start0, ms, d, m);
  }

  /** The first step under way, then asked to stop by an interrupt, with the driving
      thread in the finally block, then out of it again. */
  const Calm := Node(-1, false, false, false, Race0)
  const Asked := Node(-1, true, false, true, Race0)
  const Drive0 := Drive(State([Calm], []), 0, Waiting, Running, true, 0, false, Unissued, false, false, NotYet)
  const Drive1 := Drive0.(s := State([Asked], [SetEvent(0)]), pc := Finally)
  const Drive2 := Drive1.(s := State([Asked], [SetEvent(0), SetEvent(0)]), pc := Finished, exit := Interrupted)

  lemma FirstStep()
    ensures Driven(Drive0)
  {
    var d1 := Start0.(s := State([Calm.(k := Race0.(phase := Checked))], []), step := 0, pc := Entering);
    var d2 := d1.(s := State([Calm.(k := Race0.(phase := Queued))], [Start(0)]), pc := Waiting);
    assert Driven(Start0) by { assert Drives(Start0, [], Start0); }
    assert Driven(d1) by { Moved(Start0, SubmitStep(-1, false), d1); }
    assert Driven(d2) by { Moved(d1, EnqueueStep, d2); }
    Moved(d2, Other(Deliver), Drive0);
  }

  lemma FirstInterrupt()
    ensures Driven(Drive1)
  {
    FirstStep();
    Moved(Drive0, Interrupt, Drive1);
  }

  lemma SecondInterrupt()
    ensures Driven(Drive2)
  {
    FirstInterrupt();
    var d := Drive1.(s := Drive2.s, pc := Settling);
    assert Driven(d) by { Moved(Drive1, CancelStep, d); }
    Moved(d, InterruptAgain, Drive2);
  }

  /** A second Ctrl+C while the cancelled step settles, and a step that was just about to
      yield: unkoil_gen is over, no wait expired, and nothing will close the generator. */
  lemma SecondInterruptLeavesOpen() returns (e: Drive)
    ensures Driven(e) && e.pc.Finished? && e.frame.Suspended? && e.close.Unissued? && StepResolved(e)
    ensures !e.settleExpired && !e.exit.TimedOut? && !Unacknowledged(e)
  {
    SecondInterrupt();
    var n := Asked.(k := Race0.(work := Some(Value(5))));
    var d := Drive2.(s := Drive2.s.(nodes := [n]), frame := Suspended);
    assert Driven(d) by { Moved(Drive2, Other(WorkEnds(0, Value(5))), d); }
    e := d.(s := d.s.(nodes := [n.(k := n.k.(phase := Resolved(Returns(5)), finished := {Work}))]));
    Moved(d, Other(RaceOver(0, {Work})), e);
  }

  /** While the frame runs, the latest step is the only one whose coroutine is not
      over, so no second step ever enters it. */
  lemma StepsDoNotOverlap(ms: seq<Move>, e: Drive, w: int, bounded: bool)
    requires Drives(Start0, ms, e) && Can(e, SubmitStep(w, bounded))
    ensures !e.frame.Running? && !StepRuns(e)
  {
    DrivesKeeps(Start0, ms, e);
    if e.step != -1 { assert FutInv(e.s, e.step); }
  }
}
