/** The four-way race of koil/utils.py: the work task against this future's own
    cancel event, the ambient cancel event and the deadline, followed by the
    tidy-up loop over the losers and the branches that decide the outcome. */
module Race {

  /** Exceptions, as far as koil's handlers can tell them apart. KoilTimeoutError
      is a TimeoutError, so it is a TimeoutExn; ThreadCancelledError is neither a
      TimeoutError nor an asyncio.CancelledError. */
  datatype Exn = TimeoutExn | ThreadCancelledExn | AppExn(code: int)

  /** How a task or a worker thread ends. */
  datatype End = Value(v: int) | Failed(e: Exn) | Cancelled

  datatype Racer = Work | OwnCancel | AmbientCancel | Deadline

  /** How the work task reacts to being cancelled: it ends in some way, or it is
      still going when the wait for it is given up. */
  datatype Unwind = Ends(end: End) | Ignores

  /** The two bodies that repeat the race: one for coroutines, one for draining
      async generators. They differ in the class of the cancellation error. */
  datatype Body = RunAsync | Iterate

  /** How the future the caller holds resolves. */
  datatype Resolution =
    | Returns(v: int)
    | Raises(e: Exn)
    | TimesOut(acknowledged: bool)
    | IsCancelled(koilClass: bool)

  datatype Signal = ReturnedSig(v: int) | DoneSig | ErroredSig(e: Exn) | TimeoutSig(acknowledged: bool) | CancelledSig

  /** The body as a whole: it resolves its future, or it awaits work that never ends. */
  datatype RaceEnd = Settles(r: Resolution) | Hangs

  function Field(hasAmbient: bool, hasTimeout: bool): set<Racer> {
    {Work, OwnCancel} + (if hasAmbient then {AmbientCancel} else {}) + (if hasTimeout then {Deadline} else {})
  }

  /** Work that, once cancelled, ends with an exception the tidy-up loop does not catch. */
  predicate Escapes(u: Unwind) {
    u.Ends? && u.end.Failed? && !u.end.e.TimeoutExn?
  }

  /** The verdict, without loop, order or bookkeeping: finished work decides;
      failing that, an exception escaping from the cancelled work; then the
      deadline; then the cancellation. */
  function Verdict(body: Body, finished: set<Racer>, atFinish: End, unwind: Unwind): RaceEnd {
    if Work in finished then
      match atFinish
      case Value(v) => Settles(Returns(v))
      case Failed(e) => Settles(Raises(e))
      case Cancelled => Settles(IsCancelled(false))
    else if Escapes(unwind) then Settles(Raises(unwind.end.e))
    else if Deadline in finished then Settles(TimesOut(unwind.Ends? && !unwind.end.Failed?))
    else if unwind.Ignores? then Hangs
    else Settles(IsCancelled(body.Iterate?))
  }

  /** The losers in whichever order the set is iterated. */
  predicate Enumerates(order: seq<Racer>, losers: set<Racer>) {
    && (forall r :: r in order <==> r in losers)
    && (forall i, j :: 0 <= i < j < |order| ==> order[i] != order[j])
  }

  /** The tidy-up loop runs to its end: nothing escapes it and no wait is endless. */
  predicate RunsThrough(finished: set<Racer>, unwind: Unwind) {
    Work in finished || (!Escapes(unwind) && (Deadline in finished || unwind.Ends?))
  }

  /** What both bodies leave behind: `done` are the tasks that are over when the
      body ends. All waiters are, and the work is too unless it ignored a deadline. */
  predicate Tidy(field: set<Racer>, finished: set<Racer>, unwind: Unwind, done: set<Racer>) {
    && finished <= done <= field
    && (RunsThrough(finished, unwind) ==>
          && field - {Work} <= done
          && (Work !in done <==> Work !in finished && unwind.Ignores?))
  }

  /** The loop over the losers, written out in both bodies. Each is cancelled and
      awaited; only the work under an expired deadline is awaited with a bound.
      `stopped` is set when the loop does not run through. */
  method TidyUp(finished: set<Racer>, order: seq<Racer>, unwind: Unwind)
    returns (stopped: bool, how: RaceEnd, acknowledged: bool, done: set<Racer>)
    requires forall i, j :: 0 <= i < j < |order| ==> order[i] != order[j]
    requires Work in finished <==> Work !in order
    ensures stopped <==> !RunsThrough(finished, unwind)
    ensures stopped <==>
            && Work !in finished
            && (unwind.Ignores? ==> Deadline !in finished)
            && (unwind.Ends? ==> unwind.end.Failed? && unwind.end.e != TimeoutExn)
    ensures stopped ==> how == if unwind.Ignores? then Hangs else Settles(Raises(unwind.end.e))
    ensures stopped ==> finished <= done <= finished + (set r | r in order)
    ensures !stopped ==> done == finished + ((set r | r in order) - (if unwind.Ignores? then {Work} else {}))
    ensures !stopped ==> (acknowledged <==> Work in finished || (unwind.Ends? && !unwind.end.Failed?))
  {
    stopped, how, acknowledged, done := false, Hangs, true, finished;
    for i := 0 to |order|
      invariant done == finished + ((set r | r in order[..i]) - (if unwind.Ignores? then {Work} else {}))
      invariant acknowledged == !(Work in order[..i] && (unwind.Ignores? || unwind.end == Failed(TimeoutExn)))
      invariant Work in order[..i] ==> RunsThrough(finished, unwind)
    {
      var untask := order[i];
      assert order[..i + 1] == order[..i] + [untask];
      // A cancelled waiter ends with CancelledError; the work ends as `unwind` says.
      match if untask == Work then unwind else Ends(Cancelled) {
        case Ignores =>
          if Deadline !in finished { return true, Hangs, acknowledged, done; }
          acknowledged := false;
        case Ends(end) =>
          done := done + {untask};
          if end == Failed(TimeoutExn) {
            acknowledged := false;
          } else if end.Failed? {
            return true, Settles(Raises(end.e)), acknowledged, done;
          }
      }
    }
    assert order[..|order|] == order;
  }

  /** The race body of run_async_sharing_context, from the point where asyncio.wait
      has split the racers. `unwind` says what the work does when cancelled. */
  method RunAsyncRace(hasAmbient: bool, hasTimeout: bool, hasSignals: bool,
                      finished: set<Racer>, order: seq<Racer>, atFinish: End, unwind: Unwind)
    returns (o: RaceEnd, emitted: seq<Signal>, done: set<Racer>)
    requires finished != {} && finished <= Field(hasAmbient, hasTimeout)
    requires Enumerates(order, Field(hasAmbient, hasTimeout) - finished)
    ensures o == Verdict(RunAsync, finished, atFinish, unwind)
    // Finished work decides, whatever else finished.
    ensures forall v :: o == Settles(Returns(v)) <==> Work in finished && atFinish == Value(v)
    // An error is the coroutine's own: as it finished, or escaping from its cancellation.
    ensures forall e :: o == Settles(Raises(e)) <==>
              if Work in finished then atFinish == Failed(e) else unwind == Ends(Failed(e)) && e != TimeoutExn
    // Failing that, the deadline beats any cancellation. Only work that ended with a value or
    // a cancellation has acknowledged it.
    ensures forall a :: o == Settles(TimesOut(a)) <==>
              && Work !in finished && Deadline in finished
              && (unwind.Ends? && unwind.end.Failed? ==> unwind.end.e == TimeoutExn)
              && (a <==> unwind.Ends? && !unwind.end.Failed?)
    // And a cancellation is the work's own, or one that nothing else beat.
    ensures forall c :: o == Settles(IsCancelled(c)) <==>
              if Work in finished then atFinish == Cancelled && !c
              else
                && Deadline !in finished && unwind.Ends? && !c
                && (unwind.end.Failed? ==> unwind.end.e == TimeoutExn)
    ensures o == Hangs <==> Work !in finished && Deadline !in finished && unwind.Ignores?
    ensures emitted == if !hasSignals then []
                       else if Work in finished then
                         (match atFinish
                          case Value(v) => [ReturnedSig(v)]
                          case Failed(e) => [ErroredSig(e)]
                          case Cancelled => [])
                       else if o.Settles? && o.r.TimesOut? then [TimeoutSig(o.r.acknowledged)]
                       else if o.Settles? && o.r.IsCancelled? then [CancelledSig]
                       else []
    ensures Tidy(Field(hasAmbient, hasTimeout), finished, unwind, done)
    ensures o.Settles? && (Work in finished || !o.r.Raises?) ==>
              done == Field(hasAmbient, hasTimeout) - (if Work !in finished && unwind.Ignores? then {Work} else {})
  {
    var stopped, acknowledged;
    emitted := [];
    stopped, o, acknowledged, done := TidyUp(finished, order, unwind);
    if stopped { return; }
    if Work in finished {
      match atFinish {
        case Cancelled =>
          // future_t.exception() raises here, before any signal.
          o := Settles(IsCancelled(false));
        case Failed(e) =>
          if hasSignals { emitted := emitted + [ErroredSig(e)]; }
          o := Settles(Raises(e));
        case Value(v) =>
          if hasSignals { emitted := emitted + [ReturnedSig(v)]; }
          o := Settles(Returns(v));
      }
      return;
    }
    if Deadline in finished {
      if hasSignals { emitted := emitted + [TimeoutSig(acknowledged)]; }
      o := Settles(TimesOut(acknowledged));
      return;
    }
    if hasSignals { emitted := emitted + [CancelledSig]; }
    o := Settles(IsCancelled(false));
  }

  /** The race body of iterate_async_sharing_context. The work returns None when the
      generator is drained, and a won cancellation raises koil's own error class. */
  method IterateRace(hasAmbient: bool, hasTimeout: bool, hasSignals: bool,
                     finished: set<Racer>, order: seq<Racer>, atFinish: End, unwind: Unwind)
    returns (o: RaceEnd, emitted: seq<Signal>, done: set<Racer>)
    requires finished != {} && finished <= Field(hasAmbient, hasTimeout)
    requires Enumerates(order, Field(hasAmbient, hasTimeout) - finished)
    ensures o == Verdict(Iterate, finished, atFinish, unwind)
    // Finished work decides, whatever else finished.
    ensures forall v :: o == Settles(Returns(v)) <==> Work in finished && atFinish == Value(v)
    // An error is the coroutine's own: as it finished, or escaping from its cancellation.
    ensures forall e :: o == Settles(Raises(e)) <==>
              if Work in finished then atFinish == Failed(e) else unwind == Ends(Failed(e)) && e != TimeoutExn
    // Failing that, the deadline beats any cancellation. Only work that ended with a value or
    // a cancellation has acknowledged it.
    ensures forall a :: o == Settles(TimesOut(a)) <==>
              && Work !in finished && Deadline in finished
              && (unwind.Ends? && unwind.end.Failed? ==> unwind.end.e == TimeoutExn)
              && (a <==> unwind.Ends? && !unwind.end.Failed?)
    // And a cancellation is the work's own, or one that nothing else beat.
    ensures forall c :: o == Settles(IsCancelled(c)) <==>
              if Work in finished then atFinish == Cancelled && !c
              else
                && Deadline !in finished && unwind.Ends? && c
                && (unwind.end.Failed? ==> unwind.end.e == TimeoutExn)
    ensures o == Hangs <==> Work !in finished && Deadline !in finished && unwind.Ignores?
    ensures emitted == if !hasSignals then []
                       else if Work in finished then
                         (match atFinish
                          case Value(v) => [DoneSig]
                          case Failed(e) => [ErroredSig(e)]
                          case Cancelled => [])
                       else if o.Settles? && o.r.TimesOut? then [TimeoutSig(o.r.acknowledged)]
                       else if o.Settles? && o.r.IsCancelled? then [CancelledSig]
                       else []
    ensures Tidy(Field(hasAmbient, hasTimeout), finished, unwind, done)
    ensures o.Settles? && (Work in finished || !o.r.Raises?) ==>
              done == Field(hasAmbient, hasTimeout) - (if Work !in finished && unwind.Ignores? then {Work} else {})
  {
    var stopped, acknowledged;
    emitted := [];
    stopped, o, acknowledged, done := TidyUp(finished, order, unwind);
    if stopped { return; }
    if Work in finished {
      match atFinish {
        case Cancelled =>
          o := Settles(IsCancelled(false));
        case Failed(e) =>
          if hasSignals { emitted := emitted + [ErroredSig(e)]; }
          o := Settles(Raises(e));
        case Value(v) =>
          if hasSignals { emitted := emitted + [DoneSig]; }
          o := Settles(Returns(v));
      }
      return;
    }
    if Deadline in finished {
      if hasSignals { emitted := emitted + [TimeoutSig(acknowledged)]; }
      o := Settles(TimesOut(acknowledged));
      return;
    }
    if hasSignals { emitted := emitted + [CancelledSig]; }
    o := Settles(IsCancelled(true));
  }
}
