/** KoilFuture.cancel and KoilFuture.result: the polled wait with its deadline. Times
    are real; the clock is carried along explicitly. */
module FutureResult {
  import opened Options
  import opened Race

  const POLL_INTERVAL := 0.05
  const GRACE_FALLBACK := 10.0

  /** _cancel_grace: the ambient koil's cancel_timeout, or the fallback. */
  function CancelGrace(koil: Option<Option<real>>): real {
    if koil.Some? && koil.value.Some? then koil.value.value else GRACE_FALLBACK
  }

  function Interval(pollInterval: Option<real>): real {
    if pollInterval.None? then POLL_INTERVAL else pollInterval.value
  }

  /** The environment of one result() call. The future completes at doneAt, or, if it
      is cancelled before that, at ackAt; None is never. Wait number i ends late(i)
      too late, and a Ctrl+C is delivered with it if interrupts(i). Between leaving the
      loop and the done check inside cancel(), slip passes. */
  datatype World = World(doneAt: Option<real>, ackAt: Option<real>, end: End,
                         late: nat -> real, interrupts: nat -> bool, slip: real)

  predicate DoneBy(at: Option<real>, now: real) { at.Some? && at.value <= now }

  ghost predicate LateBy(w: World, d: real) { 0.0 <= w.slip <= d && forall i: nat :: 0.0 <= w.late(i) <= d }

  /** When concurrent.futures.wait([future], timeout) returns. */
  function WaitEnds(at: Option<real>, start: real, timeout: real, late: real): real {
    (if DoneBy(at, start) then start else if DoneBy(at, start + timeout) then at.value else start + timeout) + late
  }

  datatype Fetched =
    | Got(v: int)
    | Threw(e: Exn)
    | WasCancelled
    | TimedOut(acknowledged: bool)
    | Interrupted
    | BadTimeout

  function Own(end: End): Fetched {
    match end
    case Value(v) => Got(v)
    case Failed(e) => Threw(e)
    case Cancelled => WasCancelled
  }

  /** k whole slices of length p. */
  function Slots(k: nat, p: real): real { if k == 0 then 0.0 else Slots(k - 1, p) + p }

  lemma {:induction false} SlotsIsProduct(k: nat, p: real)
    ensures Slots(k, p) == k as real * p
  {
    if k > 0 { SlotsIsProduct(k - 1, p); }
  }

  lemma SlotsBounded(k: nat, p: real, t: real)
    requires p > 0.0 && Slots(k, p) < t
    ensures k <= (t / p).Floor
  {
    SlotsIsProduct(k, p);
    assert t / p * p == t;
    assert k as real < t / p;
  }

  datatype Why = Completed | Expired | KeyboardInterrupt

  /** One slice: it ends at most d late, and early only because the future is done. */
  lemma SliceEnds(w: World, start: real, timeout: real, i: nat, d: real)
    requires LateBy(w, d) && timeout >= 0.0
    ensures var now := WaitEnds(w.doneAt, start, timeout, w.late(i));
            start <= now <= start + timeout + d && (DoneBy(w.doneAt, now) || start + timeout <= now)
  {
    assert 0.0 <= w.late(i) <= d;
  }

  /** The loop of result(): waits in slices until the future is done, the deadline has
      passed or a Ctrl+C arrives. The done check comes before the deadline check. */
  method Poll(timeout: Option<real>, interval: real, t0: real, w: World, ghost d: real)
    returns (why: Why, now: real, slices: nat)
    requires interval > 0.0 && LateBy(w, d)
    requires timeout.Some? ==> timeout.value >= 0.0
    requires timeout.None? ==> w.doneAt.Some?  // otherwise it waits for ever, as documented
    ensures now >= t0 && (timeout.Some? ==> now <= t0 + timeout.value + d)
    // Lateness does not accumulate: there are at most ceil(timeout / interval) slices.
    ensures timeout.Some? && slices > 0 ==> Slots(slices - 1, interval) < timeout.value
    ensures why.Completed? ==> DoneBy(w.doneAt, now)
    ensures why.Expired? ==> timeout.Some? && !DoneBy(w.doneAt, now) && t0 + timeout.value <= now
    ensures DoneBy(w.doneAt, t0) ==> why.Completed? && slices == 0 && now == t0
    ensures why.KeyboardInterrupt? <==> slices > 0 && w.interrupts(slices - 1)
    ensures forall i :: 0 <= i < slices - 1 ==> !w.interrupts(i)
  {
    slices, now := 0, t0;
    assert 0.0 <= w.late(0) <= d;
    ghost var horizon := if timeout.Some? then timeout.value else w.doneAt.value - t0;
    ghost var most := (horizon / interval).Floor;
    while !DoneBy(w.doneAt, now)
      invariant now >= t0 && (timeout.Some? ==> now <= t0 + timeout.value + d)
      invariant if slices == 0 then now == t0 else !DoneBy(w.doneAt, t0) && Slots(slices - 1, interval) < horizon
      invariant Slots(slices, interval) <= now - t0 ||
                (timeout.Some? && now >= t0 + timeout.value) || DoneBy(w.doneAt, now)
      invariant forall i :: 0 <= i < slices ==> !w.interrupts(i)
      decreases most + 2 - slices
    {
      var sliceTimeout := interval;
      if timeout.Some? {
        var remaining := t0 + timeout.value - now;
        if remaining <= 0.0 { return Expired, now, slices; }
        sliceTimeout := if interval <= remaining then interval else remaining;
      }
      SlotsBounded(slices, interval, horizon);
      SliceEnds(w, now, sliceTimeout, slices, d);
      now := WaitEnds(w.doneAt, now, sliceTimeout, w.late(slices));
      if w.interrupts(slices) { return KeyboardInterrupt, now, slices + 1; }
      slices := slices + 1;
    }
    why := Completed;
  }

  class KoilFuture {
    var cancelRequested: bool
    var cancelReason: Option<string>
    var timedOut: bool
    /** set() calls made on this future's event. */
    var asked: nat

    constructor ()
      ensures !cancelRequested && cancelReason == None && !timedOut && asked == 0
    {
      cancelRequested, cancelReason, timedOut, asked := false, None, false, 0;
    }

    /** cancel(): a request that is recorded and passed on iff the coroutine still runs. */
    method Cancel(done: bool, reason: Option<string>) returns (sent: bool)
      modifies `cancelRequested, `cancelReason, `asked
      ensures sent == !done
      ensures sent ==> cancelRequested && cancelReason == reason && asked == old(asked) + 1
      ensures !sent ==> unchanged(this)
    {
      if done { return false; }
      cancelRequested := true;
      cancelReason := reason;
      asked := asked + 1;
      return true;
    }

    /** _timeout_expired: signal, then grant the grace. A future that completes before
        cancel() looks is not signalled, and still reported as timed out. */
    method TimeoutExpired(w: World, grace: real, start: real, i: nat) returns (o: Fetched, now: real)
      modifies this
      ensures timedOut && o.TimedOut?
      ensures DoneBy(w.doneAt, start + w.slip) ==>
                && o.acknowledged && now == start + w.slip + w.late(i)
                && asked == old(asked) && cancelRequested == old(cancelRequested) && cancelReason == old(cancelReason)
      ensures !DoneBy(w.doneAt, start + w.slip) ==>
                && now == WaitEnds(w.ackAt, start + w.slip, grace, w.late(i))
                && (o.acknowledged <==> w.ackAt.Some? && w.ackAt.value <= now)
                && (!o.acknowledged && w.late(i) >= 0.0 ==> now == start + w.slip + grace + w.late(i))
                && asked == old(asked) + 1 && cancelRequested && cancelReason == Some("timeout")
    {
      timedOut := true;
      now := start + w.slip;
      var sent := Cancel(DoneBy(w.doneAt, now), Some("timeout"));
      var at := if sent then w.ackAt else w.doneAt;
      now := WaitEnds(at, now, grace, w.late(i));
      o := TimedOut(!sent || DoneBy(at, now));
    }

    /** result(timeout, poll_interval), called at t0. `slices` counts its waits and
        `checked` is when it last looked whether the future was done. */
    method Result(timeout: Option<real>, pollInterval: Option<real>, koil: Option<Option<real>>,
                  t0: real, w: World, ghost d: real)
      returns (o: Fetched, now: real, slices: nat, ghost checked: real)
      requires pollInterval.Some? ==> pollInterval.value > 0.0
      requires LateBy(w, d)
      requires timeout.None? ==> w.doneAt.Some?
      modifies this
      // A negative timeout is refused before anything happens.
      ensures o == BadTimeout <==> timeout.Some? && timeout.value < 0.0
      ensures o == BadTimeout ==> unchanged(this) && now == t0 && slices == 0
      ensures timeout.Some? && slices > 0 ==>
                (slices - 1) as real * (if pollInterval.Some? then pollInterval.value else 0.05) < timeout.value
      ensures var grace := if koil.Some? && koil.value.Some? then koil.value.value else 10.0;
              && (timeout.Some? && timeout.value >= 0.0 && grace >= 0.0 ==>
                    now <= t0 + timeout.value + grace + d + d + d)
              // The grace is granted in full to a coroutine that was signalled and does not acknowledge.
              && (o == TimedOut(false) ==>
                    && checked + w.slip + grace <= now <= checked + w.slip + grace + d
                    && !DoneBy(w.doneAt, checked + w.slip) && (w.ackAt.None? || now < w.ackAt.value))
              && (o == TimedOut(true) ==>
                    DoneBy(w.doneAt, checked + w.slip) || (w.ackAt.Some? && w.ackAt.value <= now))
      // Completion seen at a check is never reported as a timeout, not even for timeout 0.
      ensures o.TimedOut? ==>
                timeout.Some? && !DoneBy(w.doneAt, checked) && t0 + timeout.value <= checked <= t0 + timeout.value + d
      ensures DoneBy(w.doneAt, t0) && o != BadTimeout ==> o == Own(w.end) && slices == 0 && now == t0
      // Lateness is the only slack.
      ensures timeout.Some? && DoneBy(w.doneAt, t0 + timeout.value) ==> !o.TimedOut?
      ensures timeout.Some? && timeout.value >= 0.0 && !DoneBy(w.doneAt, t0 + timeout.value + d) ==>
                o.TimedOut? || o == Interrupted
      // Otherwise the coroutine's own ending is passed through, a TimeoutError included.
      ensures var seen := !o.TimedOut? && o != Interrupted && o != BadTimeout;
              && (seen ==> w.doneAt.Some? && w.doneAt.value <= checked == now)
              && (forall v :: o == Got(v) <==> seen && w.end == Value(v))
              && (forall e :: o == Threw(e) <==> seen && w.end == Failed(e))
              && (o == WasCancelled <==> seen && w.end == Cancelled)
      ensures o == Interrupted <==> slices > 0 && w.interrupts(slices - 1)
      ensures forall i :: 0 <= i < slices - 1 ==> !w.interrupts(i)
      ensures o.TimedOut? || o == Interrupted || o == BadTimeout || (o == Own(w.end) && DoneBy(w.doneAt, now))
      // The flags and the signal say what happened.
      ensures timedOut == (o.TimedOut? || old(timedOut))
      ensures var sent := (o.TimedOut? || o == Interrupted) && !DoneBy(w.doneAt, checked + w.slip);
              && cancelRequested == (sent || old(cancelRequested))
              && cancelReason == if !sent then old(cancelReason)
                                 else if o.TimedOut? then Some("timeout") else Some("keyboard interrupt")
      ensures asked == old(asked) +
                       (if (o.TimedOut? || o == Interrupted) && !DoneBy(w.doneAt, checked + w.slip) then 1 else 0)
    {
      slices, now, checked := 0, t0, t0;
      if timeout.Some? && timeout.value < 0.0 { return BadTimeout, now, slices, checked; }
      var why;
      why, now, slices := Poll(timeout, Interval(pollInterval), t0, w, d);
      assert timeout.Some? && slices > 0 ==>
               (slices - 1) as real * (if pollInterval.Some? then pollInterval.value else 0.05) < timeout.value by {
        if slices > 0 { SlotsIsProduct(slices - 1, Interval(pollInterval)); }
      }
      checked := now;
      assert 0.0 <= w.late(slices) <= d;
      match why {
        case Completed => o := Own(w.end);
        case KeyboardInterrupt =>
          now := now + w.slip;
          var _ := Cancel(DoneBy(w.doneAt, now), Some("keyboard interrupt"));
          o := Interrupted;
        case Expired => o, now := TimeoutExpired(w, CancelGrace(koil), now, slices);
      }
    }
  }
}
