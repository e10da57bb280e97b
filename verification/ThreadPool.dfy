/** Reused pool threads and the contexts of the jobs that run on them. Contexts are
    objects: a set() lands in whichever one the thread has currently entered. */
module ThreadPool {
  import opened Contexts

  datatype Op = Set(x: Var, v: int) | Read(x: Var)

  /** A job: its submitter's context, loop and event, its operations, those of them left,
      those executed, and the values it got from its reads. */
  datatype Job = Job(submitter: Ctx, loop: int, event: int, ops: seq<Op>, todo: seq<Op>, done: seq<Op>, got: seq<int>) {
    function Start(): Ctx { WorkerCtx(submitter, loop, event) }
  }

  /** A pool thread: its own context object, the one it has entered, its job. */
  datatype Thread = Idle(own: nat) | Busy(own: nat, current: nat, job: Job)

  /** `log` holds the finished jobs. */
  datatype Pool = Pool(heap: seq<Ctx>, threads: seq<Thread>, log: seq<Job>)

  datatype Label =
    | Take(t: int, submitter: Ctx, loop: int, event: int, ops: seq<Op>) // Context.run enters a copy
    | Run(t: int)
    | Leave(t: int)                                                     // and leaves it again

  const Missing := -1

  function Value(c: Ctx, x: Var): int { if x in c then c[x] else Missing }

  predicate Enabled(p: Pool, l: Label) {
    && 0 <= l.t < |p.threads|
    && match l
       case Take(t, _, _, _, _) => p.threads[t].Idle?
       case Run(t) => p.threads[t].Busy? && p.threads[t].job.todo != [] && p.threads[t].current < |p.heap|
       case Leave(t) => p.threads[t].Busy? && p.threads[t].job.todo == []
  }

  function Next(p: Pool, l: Label): Pool
    requires Enabled(p, l)
  {
    var th := p.threads[l.t];
    match l
    case Take(t, submitter, loop, event, ops) =>
      var job := Job(submitter, loop, event, ops, ops, [], []);
      p.(heap := p.heap + [job.Start()], threads := p.threads[t := Busy(th.own, |p.heap|, job)])
    case Run(t) =>
      var c := p.heap[th.current];
      var op := th.job.todo[0];
      var job := th.job.(todo := th.job.todo[1..], done := th.job.done + [op]);
      (match op
       case Set(x, v) => p.(heap := p.heap[th.current := c[x := v]], threads := p.threads[t := th.(job := job)])
       case Read(x) => p.(threads := p.threads[t := th.(job := job.(got := job.got + [Value(c, x)]))]))
    case Leave(t) => p.(threads := p.threads[t := Idle(th.own)], log := p.log + [th.job])
  }

  /** Thread t starts out with its own context, object t. */
  function Initial(own: seq<Ctx>): Pool { Pool(own, seq(|own|, (t: nat) => Idle(t)), []) }

  predicate IsRun(p: Pool, ls: seq<Label>, q: Pool)
    decreases |ls|
  {
    if ls == [] then p == q else Enabled(p, ls[0]) && IsRun(Next(p, ls[0]), ls[1..], q)
  }

  /** The job alone: its context and what it reads after `done`. */
  function SoloCtx(start: Ctx, done: seq<Op>): Ctx
    decreases |done|
  {
    if done == [] then start
    else
      var n := |done| - 1;
      var c := SoloCtx(start, done[..n]);
      if done[n].Set? then c[done[n].x := done[n].v] else c
  }

  function SoloReads(start: Ctx, done: seq<Op>): seq<int>
    decreases |done|
  {
    if done == [] then []
    else
      var n := |done| - 1;
      var rs := SoloReads(start, done[..n]);
      if done[n].Read? then rs + [Value(SoloCtx(start, done[..n]), done[n].x)] else rs
  }

  predicate JobInv(p: Pool, t: int)
    requires 0 <= t < |p.threads| && p.threads[t].Busy?
  {
    var th := p.threads[t];
    && th.own < th.current < |p.heap|
    && p.heap[th.current] == SoloCtx(th.job.Start(), th.job.done)
    && th.job.got == SoloReads(th.job.Start(), th.job.done)
    && th.job.done + th.job.todo == th.job.ops
  }

  /** The threads' own contexts are the first objects of the heap, and still what
      they were; each job has an object to itself. */
  predicate Inv(p: Pool, own: seq<Ctx>) {
    && |own| == |p.threads| <= |p.heap|
    && (forall t :: 0 <= t < |p.threads| ==> p.threads[t].own == t && p.heap[t] == own[t])
    && (forall t :: 0 <= t < |p.threads| && p.threads[t].Busy? ==> |own| <= p.threads[t].current && JobInv(p, t))
    && (forall t, u :: 0 <= t < u < |p.threads| && p.threads[t].Busy? && p.threads[u].Busy? ==>
          p.threads[t].current != p.threads[u].current)
    && (forall i :: 0 <= i < |p.log| ==> p.log[i].got == SoloReads(p.log[i].Start(), p.log[i].ops))
  }

  /** The thread that runs an operation. */
  lemma RunKeepsJob(p: Pool, l: Label, q: Pool)
    requires l.Run? && Enabled(p, l) && JobInv(p, l.t) && q == Next(p, l)
    ensures JobInv(q, l.t)
  {
    var job := p.threads[l.t].job;
    var done := job.done + [job.todo[0]];
    assert done[..|done| - 1] == job.done;
    assert done + job.todo[1..] == job.ops by { assert job.todo == [job.todo[0]] + job.todo[1..]; }
  }

  /** A thread the step does not run on: its job and its context stay. */
  lemma OthersKeepJob(p: Pool, l: Label, q: Pool, t: int)
    requires Enabled(p, l) && q == Next(p, l) && 0 <= t < |p.threads| && t != l.t && p.threads[t].Busy? && JobInv(p, t)
    requires p.threads[l.t].Busy? ==> p.threads[l.t].current != p.threads[t].current
    ensures q.threads[t] == p.threads[t] && JobInv(q, t)
  {
  }

  lemma NextKeepsJob(p: Pool, l: Label, own: seq<Ctx>, t: int)
    requires Inv(p, own) && Enabled(p, l) && 0 <= t < |p.threads| && Next(p, l).threads[t].Busy?
    ensures |own| <= Next(p, l).threads[t].current && JobInv(Next(p, l), t)
  {
    if t != l.t {
      OthersKeepJob(p, l, Next(p, l), t);
    } else if l.Run? {
      RunKeepsJob(p, l, Next(p, l));
    }
  }

  lemma NextKeepsInv(p: Pool, l: Label, own: seq<Ctx>)
    requires Inv(p, own) && Enabled(p, l)
    ensures Inv(Next(p, l), own)
  {
    var q := Next(p, l);
    forall t | 0 <= t < |q.threads| && q.threads[t].Busy? ensures |own| <= q.threads[t].current && JobInv(q, t) {
      NextKeepsJob(p, l, own, t);
    }
    if l.Leave? { assert JobInv(p, l.t) && p.threads[l.t].job.done == p.threads[l.t].job.ops; }
  }

  lemma {:induction false} RunKeepsInv(p: Pool, ls: seq<Label>, q: Pool, own: seq<Ctx>)
    requires Inv(p, own) && IsRun(p, ls, q)
    ensures Inv(q, own)
    decreases |ls|
  {
    if ls != [] {
      NextKeepsInv(p, ls[0], own);
      RunKeepsInv(Next(p, ls[0]), ls[1..], q, own);
    }
  }

  /** Pool non-interference, for every schedule of any number of jobs on any number
      of reused threads: a finished job has read exactly what its operations would have
      read alone, and a running one what those it has executed would have, from its
      submitter's copy and koil's variables; and each thread's own context is what it
      was. */
  lemma NonInterference(own: seq<Ctx>, ls: seq<Label>, q: Pool)
    requires IsRun(Initial(own), ls, q)
    ensures |q.heap| >= |own| && q.heap[..|own|] == own
    ensures forall i :: 0 <= i < |q.log| ==> q.log[i].got == SoloReads(q.log[i].Start(), q.log[i].ops)
    ensures forall t :: 0 <= t < |q.threads| && q.threads[t].Busy? ==>
              && q.threads[t].job.got == SoloReads(q.threads[t].job.Start(), q.threads[t].job.done)
              && q.threads[t].job.done <= q.threads[t].job.ops
  {
    RunKeepsInv(Initial(own), ls, q, own);
    forall t | 0 <= t < |q.threads| && q.threads[t].Busy?
      ensures q.threads[t].job.got == SoloReads(q.threads[t].job.Start(), q.threads[t].job.done)
      ensures q.threads[t].job.done <= q.threads[t].job.ops
    {
      assert JobInv(q, t);
    }
  }

  // ---- what a job reads ----

  predicate Sets(op: Op, x: Var) { op.Set? && op.x == x }

  function Reads(ops: seq<Op>): nat {
    if ops == [] then 0 else Reads(ops[..|ops| - 1]) + (if ops[|ops| - 1].Read? then 1 else 0)
  }

  lemma {:induction false} ReadAt(start: Ctx, ops: seq<Op>, n: nat)
    requires n < |ops| && ops[n].Read?
    ensures |SoloReads(start, ops)| == Reads(ops) && Reads(ops[..n]) < Reads(ops)
    ensures SoloReads(start, ops)[Reads(ops[..n])] == Value(SoloCtx(start, ops[..n]), ops[n].x)
    decreases |ops|
  {
    var m := |ops| - 1;
    ReadCount(start, ops[..m]);
    if n < m {
      ReadAt(start, ops[..m], n);
      assert ops[..m][..n] == ops[..n];
    }
  }

  lemma {:induction false} ReadCount(start: Ctx, ops: seq<Op>)
    ensures |SoloReads(start, ops)| == Reads(ops)
    decreases |ops|
  {
    if ops != [] { ReadCount(start, ops[..|ops| - 1]); }
  }

  lemma {:induction false} LastSetHolds(start: Ctx, done: seq<Op>, x: Var, j: nat)
    requires j < |done| && Sets(done[j], x) && forall i :: j < i < |done| ==> !Sets(done[i], x)
    ensures x in SoloCtx(start, done) && SoloCtx(start, done)[x] == done[j].v
    decreases |done|
  {
    if j < |done| - 1 { LastSetHolds(start, done[..|done| - 1], x, j); }
  }

  lemma {:induction false} UnsetStays(start: Ctx, done: seq<Op>, x: Var)
    requires forall i :: 0 <= i < |done| ==> !Sets(done[i], x)
    ensures x in SoloCtx(start, done) <==> x in start
    ensures x in start ==> SoloCtx(start, done)[x] == start[x]
    decreases |done|
  {
    if done != [] { UnsetStays(start, done[..|done| - 1], x); }
  }

  /** Over every schedule, what a finished job's n-th operation reads: what the job itself set
      last; failing that, its own call's loop and event, and its submitter's koil and user
      variables. */
  lemma JobReads(own: seq<Ctx>, ls: seq<Label>, q: Pool, i: nat, n: nat)
    requires IsRun(Initial(own), ls, q) && i < |q.log| && n < |q.log[i].ops| && q.log[i].ops[n].Read?
    ensures var job := q.log[i];
            var x, k := job.ops[n].x, Reads(job.ops[..n]);
            && k < |job.got|
            && (forall j :: 0 <= j < n && Sets(job.ops[j], x) && (forall m :: j < m < n ==> !Sets(job.ops[m], x)) ==>
                  job.got[k] == job.ops[j].v)
            && ((forall j :: 0 <= j < n ==> !Sets(job.ops[j], x)) ==>
                  job.got[k] == match x
                                case GlobalLoop => job.loop
                                case CancelEvent => job.event
                                case GlobalKoil => if x in job.submitter then job.submitter[x] else 0
                                case User(_) => if x in job.submitter then job.submitter[x] else Missing)
  {
    NonInterference(own, ls, q);
    var job := q.log[i];
    var x, before := job.ops[n].x, job.ops[..n];
    ReadAt(job.Start(), job.ops, n);
    forall j | 0 <= j < n && Sets(job.ops[j], x) && (forall m :: j < m < n ==> !Sets(job.ops[m], x))
      ensures job.got[Reads(before)] == job.ops[j].v
    {
      LastSetHolds(job.Start(), before, x, j);
    }
    if forall j :: 0 <= j < n ==> !Sets(job.ops[j], x) { UnsetStays(job.Start(), before, x); }
  }

  // ---- the jobs of a pool are those it was given ----

  datatype Call = Call(submitter: Ctx, loop: int, event: int, ops: seq<Op>)

  function CallOf(job: Job): Call { Call(job.submitter, job.loop, job.event, job.ops) }

  predicate Logged(p: Pool, c: Call) { exists i :: 0 <= i < |p.log| && CallOf(p.log[i]) == c }

  predicate Runs(p: Pool, c: Call, t: int) {
    0 <= t < |p.threads| && p.threads[t].Busy? && CallOf(p.threads[t].job) == c
  }

  ghost predicate HasCall(p: Pool, c: Call) { Logged(p, c) || exists t :: Runs(p, c, t) }

  predicate Gives(l: Label, c: Call) { l.Take? && Call(l.submitter, l.loop, l.event, l.ops) == c }

  lemma StepHasCall(p: Pool, l: Label, q: Pool, c: Call)
    requires Enabled(p, l) && q == Next(p, l)
    ensures HasCall(q, c) <==> HasCall(p, c) || Gives(l, c)
  {
    if Logged(p, c) {
      var i :| 0 <= i < |p.log| && CallOf(p.log[i]) == c;
      assert q.log[i] == p.log[i];
    }
    forall t | Runs(p, c, t) ensures HasCall(q, c) {
      if l.Leave? && t == l.t { assert q.log[|p.log|] == p.threads[t].job; } else { assert Runs(q, c, t); }
    }
    if Gives(l, c) { assert Runs(q, c, l.t); }
    if Logged(q, c) {
      var i :| 0 <= i < |q.log| && CallOf(q.log[i]) == c;
      if i < |p.log| { assert p.log[i] == q.log[i]; } else { assert Runs(p, c, l.t); }
    }
    forall t | Runs(q, c, t) ensures HasCall(p, c) || Gives(l, c) {
      if !(l.Take? && t == l.t) { assert Runs(p, c, t); }
    }
  }

  /** Over every schedule: the calls running or finished are exactly those submitted. */
  lemma {:induction false} JobsAreCalls(p: Pool, ls: seq<Label>, q: Pool, c: Call)
    requires IsRun(p, ls, q)
    ensures HasCall(q, c) <==> HasCall(p, c) || exists k :: 0 <= k < |ls| && Gives(ls[k], c)
    decreases |ls|
  {
    if ls != [] {
      StepHasCall(p, ls[0], Next(p, ls[0]), c);
      JobsAreCalls(Next(p, ls[0]), ls[1..], q, c);
      assert forall k :: 0 <= k < |ls[1..]| ==> ls[1..][k] == ls[k + 1];
      if exists k :: 0 <= k < |ls| && Gives(ls[k], c) {
        var k :| 0 <= k < |ls| && Gives(ls[k], c);
        if k > 0 { assert Gives(ls[1..][k - 1], c); }
      }
    }
  }
}
