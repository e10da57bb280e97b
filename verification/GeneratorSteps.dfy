/** _iterate_threaded as a transformation of the generator it drives: one worker
    hop per step, with the caller's context copied in and, when bridging, out. */
module GeneratorSteps {
  import opened Contexts

  /** One resumption of a sync generator: what it does next, and the user context
      variables it sets meanwhile. */
  datatype Step<S> =
    | Yields(v: int, next: S, writes: Ctx)
    | Returns(writes: Ctx)
    | Raises(e: Exn, writes: Ctx)

  /** close(): the finally blocks at the current yield. */
  datatype Close = Done(writes: Ctx) | Fails(e: Exn, writes: Ctx)

  /** A generator: from its state, what it is resumed with, and the user context. */
  datatype Gen<!S> = Gen(init: S, step: (S, int, Ctx) -> Step<S>, throw: (S, Exn, Ctx) -> Step<S>,
                         close: (S, Ctx) -> Close)

  /** What the consumer does at a yield: it may set variables of its own context. */
  datatype Act = Send(v: int, sets: Ctx) | Throw(e: Exn, sets: Ctx) | Exit(sets: Ctx)

  datatype Seen = Seen(v: int, ctx: Ctx)

  /** The last three endings are koil's: an error out of a generator that is left
      suspended at its yield, and two of unkoil_gen. */
  datatype End = Open | Exhausted | Raised(e: Exn) | Closed | Abandoned(e: Exn) | StopRaised | SendRejected

  /** `final` is the consumer's user context when the drive ends. */
  datatype Trace = Trace(seen: seq<Seen>, end: End, final: Ctx)

  function Before(first: Seen, rest: Trace): Trace { rest.(seen := [first] + rest.seen) }

  /** The None that starts a generator. */
  const NoValue := 0

  function Kept(u: Ctx, writes: Ctx, keep: bool): Ctx { if keep then u + UserPart(writes) else u }

  /** StopIteration does not leave a generator frame of either kind. */
  function Leaves(e: Exn): Exn { if e.StopIteration? then RuntimeError else e }

  /** The reference: the generator driven directly by the consumer, in the consumer's
      user context, from the outcome r of a resumption. With keep its writes stay, in
      the last resumption as in any other; without, the context is restored each time. */
  function Drive<S>(g: Gen<S>, r: Step<S>, acts: seq<Act>, u: Ctx, keep: bool): Trace
    decreases |acts|
  {
    var u1 := Kept(u, r.writes, keep);
    match r
    case Returns(_) => Trace([], Exhausted, u1)
    case Raises(e, _) => Trace([], Raised(e), u1)
    case Yields(v, next, _) =>
      Before(Seen(v, u1),
        if acts == [] then Trace([], Open, u1)
        else
          var u2 := u1 + UserPart(acts[0].sets);
          match acts[0]
          case Send(w, _) => Drive(g, g.step(next, w, u2), acts[1..], u2, keep)
          case Throw(e, _) => Drive(g, g.throw(next, e, u2), acts[1..], u2, keep)
          case Exit(_) => var c := g.close(next, u2); Trace([], CloseEnd(c), Kept(u2, c.writes, keep)))
  }

  function CloseEnd(c: Close): End { if c.Done? then Closed else Raised(c.e) }

  /** What a boundary can lose at the end of a drive: the writes of the last resumption, if
      that one did not yield, and the consumer's context it was made in. */
  datatype Loss = Loss(writes: Ctx, before: Ctx)

  /** The last resumption of the direct drive. A close that succeeds loses nothing where
      its hop is bridged. */
  function AtEnd<S>(g: Gen<S>, r: Step<S>, acts: seq<Act>, u: Ctx, keep: bool, closeBridged: bool): Loss
    decreases |acts|
  {
    if !r.Yields? then Loss(UserPart(r.writes), u)
    else if acts == [] then Loss(map[], Kept(u, r.writes, keep))
    else
      var u2 := Kept(u, r.writes, keep) + UserPart(acts[0].sets);
      match acts[0]
      case Send(w, _) => AtEnd(g, g.step(r.next, w, u2), acts[1..], u2, keep, closeBridged)
      case Throw(e, _) => AtEnd(g, g.throw(r.next, e, u2), acts[1..], u2, keep, closeBridged)
      case Exit(_) =>
        var c := g.close(r.next, u2);
        Loss(if c.Done? && closeBridged then map[] else UserPart(c.writes), u2)
  }

  /** _iterate_threaded's drive. An error thrown in at the yield is caught only if it is
      GeneratorExit; any other one leaves without the generator being told. */
  function KoilDrive<S>(g: Gen<S>, r: Step<S>, acts: seq<Act>, u: Ctx, bridge: bool): Trace
    decreases |acts|
  {
    match r
    case Returns(_) => Trace([], Exhausted, u)
    case Raises(e, _) => Trace([], Raised(e), u)
    case Yields(v, next, writes) =>
      var u1 := Kept(u, writes, bridge);
      Before(Seen(v, u1),
        if acts == [] then Trace([], Open, u1)
        else
          var u2 := u1 + UserPart(acts[0].sets);
          match acts[0]
          case Send(w, _) => KoilDrive(g, g.step(next, w, u2), acts[1..], u2, bridge)
          case Throw(e, _) => Trace([], Abandoned(Leaves(e)), u2)
          case Exit(_) => CloseTrace(g.close(next, u2), u2, bridge))
  }

  function CloseTrace(c: Close, u: Ctx, bridge: bool): Trace {
    Trace([], CloseEnd(c), Kept(u, c.writes, bridge && c.Done?))
  }

  lemma UserPartOfSum(c: Ctx, d: Ctx)
    ensures UserPart(c + UserPart(d)) == UserPart(c) + UserPart(d)
    ensures InternalPart(c + UserPart(d)) == InternalPart(c)
  {
  }

  /** A worker's user variables after the step's writes, set out into the caller. */
  lemma BridgedOut(c: Ctx, writes: Ctx, loop: int, event: int)
    ensures var worker := WorkerCtx(c, loop, event) + UserPart(writes);
            c + UserPart(worker) == c + UserPart(writes)
  {
    UserPartOfSum(WorkerCtx(c, loop, event), writes);
    UserPartOfWorker(c, loop, event);
  }

  /** The consumer sets variables of its own context. */
  method Rebind(ctx: Context, sets: Ctx)
    modifies ctx
    ensures UserPart(ctx.vars) == old(UserPart(ctx.vars)) + UserPart(sets)
    ensures InternalPart(ctx.vars) == old(InternalPart(ctx.vars))
  {
    UserPartOfSum(ctx.vars, sets);
    ctx.SetAll(UserPart(sets));
  }

  /** A worker that made these writes in its copy of the context is bridged out. */
  method BridgeOut(ctx: Context, writes: Ctx, loop: int, event: int)
    modifies ctx
    ensures UserPart(ctx.vars) == old(UserPart(ctx.vars)) + UserPart(writes)
    ensures InternalPart(ctx.vars) == old(InternalPart(ctx.vars))
  {
    BridgedOut(ctx.vars, writes, loop, event);
    UserPartOfSum(ctx.vars, writes);
    ctx.PropagateOut(WorkerCtx(ctx.vars, loop, event) + UserPart(writes));
  }

  /** A coroutine that made these writes after taking over the snapshot is collected. */
  method WriteBack(ctx: Context, writes: Ctx)
    modifies ctx
    ensures UserPart(ctx.vars) == old(UserPart(ctx.vars)) + UserPart(writes)
    ensures InternalPart(ctx.vars) == old(InternalPart(ctx.vars))
  {
    var after := ctx.vars + UserPart(writes);
    UserPartOfSum(ctx.vars, writes);
    assert ctx.vars + after == after;
    ctx.SetAll(after);
  }

  /** One hop: the generator is resumed in a worker, in a copy of this context. */
  method StepThreaded<S>(g: Gen<S>, st: S, sent: int, ctx: Context, bridge: bool, loop: int, event: int)
    returns (r: Step<S>)
    modifies ctx
    ensures r == g.step(st, sent, old(UserPart(ctx.vars)))
    ensures UserPart(ctx.vars) ==
            if r.Yields? && bridge then old(UserPart(ctx.vars)) + UserPart(r.writes) else old(UserPart(ctx.vars))
    ensures InternalPart(ctx.vars) == old(InternalPart(ctx.vars))
  {
    UserPartOfWorker(ctx.vars, loop, event);
    r := g.step(st, sent, UserPart(WorkerCtx(ctx.vars, loop, event)));
    if r.Yields? && bridge { BridgeOut(ctx, r.writes, loop, event); }
  }

  /** The close hop. */
  method CloseThreaded<S>(g: Gen<S>, st: S, ctx: Context, bridge: bool, loop: int, event: int) returns (t: Trace)
    modifies ctx
    ensures t == CloseTrace(g.close(st, old(UserPart(ctx.vars))), old(UserPart(ctx.vars)), bridge)
    ensures var c := g.close(st, old(UserPart(ctx.vars)));
            && (t.end == Closed <==> c.Done?)
            && (forall e :: t.end == Raised(e) <==> c.Fails? && c.e == e)
            && t.final == if c.Done? && bridge then old(UserPart(ctx.vars)) + UserPart(c.writes)
                          else old(UserPart(ctx.vars))
    ensures UserPart(ctx.vars) == t.final
    ensures InternalPart(ctx.vars) == old(InternalPart(ctx.vars))
  {
    UserPartOfWorker(ctx.vars, loop, event);
    var c := g.close(st, UserPart(WorkerCtx(ctx.vars, loop, event)));
    if c.Fails? { return Trace([], Raised(c.e), UserPart(ctx.vars)); }
    if bridge { BridgeOut(ctx, c.writes, loop, event); }
    return Trace([], Closed, UserPart(ctx.vars));
  }

  /** The whole drive is what was seen so far and then the rest. */
  predicate Continues(whole: Trace, seen: seq<Seen>, rest: Trace) { whole == rest.(seen := seen + rest.seen) }

  lemma ContinuesOn(whole: Trace, seen: seq<Seen>, first: Seen, rest: Trace)
    requires Continues(whole, seen, Before(first, rest))
    ensures Continues(whole, seen + [first], rest)
  {
    assert seen + ([first] + rest.seen) == seen + [first] + rest.seen;
  }

  lemma KoilDriveOn<S>(g: Gen<S>, r: Step<S>, acts: seq<Act>, n: nat, u: Ctx, bridge: bool,
                       whole: Trace, seen: seq<Seen>)
    requires n <= |acts| && r.Yields? && Continues(whole, seen, KoilDrive(g, r, acts[n..], u, bridge))
    ensures var u1 := Kept(u, r.writes, bridge);
            var seen1 := seen + [Seen(r.v, u1)];
            if n == |acts| then whole == Trace(seen1, Open, u1)
            else
              var u2 := u1 + UserPart(acts[n].sets);
              match acts[n]
              case Send(w, _) => Continues(whole, seen1, KoilDrive(g, g.step(r.next, w, u2), acts[n + 1..], u2, bridge))
              case Throw(e, _) => whole == Trace(seen1, Abandoned(Leaves(e)), u2)
              case Exit(_) => whole == CloseTrace(g.close(r.next, u2), u2, bridge).(seen := seen1)
  {
    if n < |acts| { assert acts[n..][1..] == acts[n + 1..]; }
  }

  /** _iterate_threaded, for every generator and every behaviour of the consumer, as a
      loop over worker hops. `events` are the ids of the per-call cancel events. */
  method IterateThreaded<S>(g: Gen<S>, acts: seq<Act>, ctx: Context, bridge: bool, loop: int, events: nat -> int)
    returns (t: Trace)
    modifies ctx
    ensures var u := old(UserPart(ctx.vars)); t == KoilDrive(g, g.step(g.init, NoValue, u), acts, u, bridge)
    ensures UserPart(ctx.vars) == t.final
    ensures InternalPart(ctx.vars) == old(InternalPart(ctx.vars))
  {
    var st, sent, seen, n := g.init, NoValue, [], 0;
    ghost var u0 := UserPart(ctx.vars);
    ghost var whole := KoilDrive(g, g.step(g.init, NoValue, u0), acts, u0, bridge);
    while true
      invariant 0 <= n <= |acts|
      invariant InternalPart(ctx.vars) == old(InternalPart(ctx.vars))
      invariant var u := UserPart(ctx.vars);
                Continues(whole, seen, KoilDrive(g, g.step(st, sent, u), acts[n..], u, bridge))
      decreases |acts| - n
    {
      ghost var u := UserPart(ctx.vars);
      var r := StepThreaded(g, st, sent, ctx, bridge, loop, events(n));
      if r.Returns? { return Trace(seen, Exhausted, UserPart(ctx.vars)); }
      if r.Raises? { return Trace(seen, Raised(r.e), UserPart(ctx.vars)); }
      KoilDriveOn(g, r, acts, n, u, bridge, whole, seen);
      seen := seen + [Seen(r.v, UserPart(ctx.vars))];
      if n == |acts| { return Trace(seen, Open, UserPart(ctx.vars)); }
      Rebind(ctx, acts[n].sets);
      if acts[n].Throw? { return Trace(seen, Abandoned(Leaves(acts[n].e)), UserPart(ctx.vars)); }
      if acts[n].Exit? {
        var c := CloseThreaded(g, r.next, ctx, bridge, loop, events(n));
        return c.(seen := seen);
      }
      st, sent, n := r.next, acts[n].v, n + 1;
    }
  }

  /** Where koil's drive stops: the last resumption, what the consumer still meant to do, and
      the context then. */
  function Stop<S>(g: Gen<S>, r: Step<S>, acts: seq<Act>, u: Ctx, bridge: bool): (Step<S>, seq<Act>, Ctx)
    decreases |acts|
  {
    if r.Yields? && acts != [] && acts[0].Send? then
      var u2 := (if bridge then u + UserPart(r.writes) else u) + UserPart(acts[0].sets);
      Stop(g, g.step(r.next, acts[0].v, u2), acts[1..], u2, bridge)
    else (r, acts, u)
  }

  /** How it ends, over whole drives: as the generator's last resumption or its close did, or
      with the error the consumer threw in. */
  lemma {:induction false} IterateEnds<S>(g: Gen<S>, r: Step<S>, acts: seq<Act>, u: Ctx, bridge: bool)
    ensures var k := KoilDrive(g, r, acts, u, bridge);
            var (z, rest, v) := Stop(g, r, acts, u, bridge);
            && |k.seen| == |acts| - |rest| + (if z.Yields? then 1 else 0)
            && (z.Returns? ==> k.end == Exhausted && k.final == v)
            && (z.Raises? ==> k.end == Raised(z.e) && k.final == v)
            && (z.Yields? ==>
                  var v1 := if bridge then v + UserPart(z.writes) else v;
                  && k.seen[|k.seen| - 1] == Seen(z.v, v1)
                  && (rest == [] ==> k.end == Open && k.final == v1)
                  && (rest != [] && rest[0].Throw? ==>
                        && k.final == v1 + UserPart(rest[0].sets)
                        && k.end == Abandoned(if rest[0].e == StopIteration then RuntimeError else rest[0].e))
                  && (rest != [] && rest[0].Exit? ==>
                        var c := g.close(z.next, v1 + UserPart(rest[0].sets));
                        && (c.Done? ==> k.end == Closed)
                        && (c.Fails? ==> k.end == Raised(c.e) && k.final == v1 + UserPart(rest[0].sets))))
    decreases |acts|
  {
    if r.Yields? && acts != [] && acts[0].Send? {
      var u2 := Kept(u, r.writes, bridge) + UserPart(acts[0].sets);
      IterateEnds(g, g.step(r.next, acts[0].v, u2), acts[1..], u2, bridge);
    }
  }

  // ---- against the direct drive ----

  /** What the consumer can tell of the ending. */
  function Shown(e: End): End { if e.Abandoned? then Raised(e.e) else e }

  /** Whether the consumer gets to throw, and whether the generator, told of it, would
      have let the error through. */
  datatype Thrown = Never | Passes | Answered

  function FirstThrow<S>(g: Gen<S>, r: Step<S>, acts: seq<Act>, u: Ctx, keep: bool): Thrown
    decreases |acts|
  {
    if !r.Yields? || acts == [] || acts[0].Exit? then Never
    else
      var u2 := Kept(u, r.writes, keep) + UserPart(acts[0].sets);
      match acts[0]
      case Send(w, _) => FirstThrow(g, g.step(r.next, w, u2), acts[1..], u2, keep)
      case Throw(e, _) =>
        var a := g.throw(r.next, e, u2);
        if a.Raises? && a.e == Leaves(e) then Passes else Answered
  }

  /** Generator refinement: the consumer sees the values, the contexts and the ending of
      the direct drive iff the first error it throws, if any, is one the generator lets
      through. */
  lemma {:induction false} IterateShowsIff<S>(g: Gen<S>, r: Step<S>, acts: seq<Act>, u: Ctx, keep: bool)
    ensures var d, k := Drive(g, r, acts, u, keep), KoilDrive(g, r, acts, u, keep);
            k.seen == d.seen && Shown(k.end) == Shown(d.end) <==> !FirstThrow(g, r, acts, u, keep).Answered?
    ensures KoilDrive(g, r, acts, u, keep).end.Abandoned? <==> !FirstThrow(g, r, acts, u, keep).Never?
    ensures !Drive(g, r, acts, u, keep).end.Abandoned?
    decreases |acts|
  {
    if r.Yields? && acts != [] && !acts[0].Exit? {
      var u2 := Kept(u, r.writes, keep) + UserPart(acts[0].sets);
      var a := if acts[0].Send? then g.step(r.next, acts[0].v, u2) else g.throw(r.next, acts[0].e, u2);
      var d, k := Drive(g, r, acts, u, keep), KoilDrive(g, r, acts, u, keep);
      IterateShowsIff(g, a, acts[1..], u2, keep);
      assert d.seen[1..] == Drive(g, a, acts[1..], u2, keep).seen;
      if acts[0].Send? { assert k.seen[1..] == KoilDrive(g, a, acts[1..], u2, keep).seen; }
    }
  }

  predicate Within(w: Ctx, c: Ctx) { forall v :: v in w ==> v in c && c[v] == w[v] }

  /** The two final contexts around a loss. */
  predicate Differ(loss: Loss, koil: Ctx, direct: Ctx, keep: bool) {
    || (koil == loss.before && direct == Kept(loss.before, loss.writes, keep) && UserPart(loss.writes) == loss.writes)
    || (loss.writes == map[] && koil == direct)
  }

  lemma LossDiffers(u: Ctx, writes: Ctx, keep: bool)
    ensures Differ(Loss(UserPart(writes), u), u, Kept(u, writes, keep), keep)
  {
    assert UserPart(UserPart(writes)) == UserPart(writes);
  }

  lemma {:induction false} FinalContexts<S>(g: Gen<S>, r: Step<S>, acts: seq<Act>, u: Ctx, keep: bool)
    requires !FirstThrow(g, r, acts, u, keep).Answered?
    ensures Differ(AtEnd(g, r, acts, u, keep, true),
                   KoilDrive(g, r, acts, u, keep).final, Drive(g, r, acts, u, keep).final, keep)
    decreases |acts|
  {
    if !r.Yields? {
      LossDiffers(u, r.writes, keep);
    } else if acts != [] {
      var u2 := Kept(u, r.writes, keep) + UserPart(acts[0].sets);
      match acts[0]
      case Send(v, _) => FinalContexts(g, g.step(r.next, v, u2), acts[1..], u2, keep);
      case Throw(e, _) => LossDiffers(u2, g.throw(r.next, e, u2).writes, keep);
      case Exit(_) => LossDiffers(u2, g.close(r.next, u2).writes, keep);
    }
  }

  lemma SumIsSame(c: Ctx, w: Ctx)
    ensures c + w == c <==> Within(w, c)
  {
    if c + w == c {
      forall v | v in w ensures v in c && c[v] == w[v] { assert (c + w)[v] == w[v]; }
    }
  }

  lemma SameIff(loss: Loss, koil: Ctx, direct: Ctx, keep: bool)
    requires Differ(loss, koil, direct, keep)
    ensures koil == direct <==> (keep ==> Within(loss.writes, loss.before))
  {
    SumIsSame(loss.before, loss.writes);
  }

  /** The consumer is then also left with the same context iff, when bridging, whatever
      the last resumption set was so before it: koil bridges out no step but a yield. */
  lemma IterateFinalIff<S>(g: Gen<S>, r: Step<S>, acts: seq<Act>, u: Ctx, keep: bool)
    requires !FirstThrow(g, r, acts, u, keep).Answered?
    ensures var loss := AtEnd(g, r, acts, u, keep, true);
            KoilDrive(g, r, acts, u, keep).final == Drive(g, r, acts, u, keep).final <==>
            (keep ==> Within(loss.writes, loss.before))
  {
    var d, k := Drive(g, r, acts, u, keep), KoilDrive(g, r, acts, u, keep);
    FinalContexts(g, r, acts, u, keep);
    SameIff(AtEnd(g, r, acts, u, keep, true), k.final, d.final, keep);
  }

  /** All of it, the generator's own fate included: iff no error is thrown in at all and
      nothing is lost at the end. */
  lemma IterateAgreesIff<S>(g: Gen<S>, r: Step<S>, acts: seq<Act>, u: Ctx, keep: bool)
    ensures var loss := AtEnd(g, r, acts, u, keep, true);
            KoilDrive(g, r, acts, u, keep) == Drive(g, r, acts, u, keep) <==>
            FirstThrow(g, r, acts, u, keep).Never? && (keep ==> Within(loss.writes, loss.before))
  {
    IterateShowsIff(g, r, acts, u, keep);
    if !FirstThrow(g, r, acts, u, keep).Answered? { IterateFinalIff(g, r, acts, u, keep); }
  }

  /** A generator that yields once and sets a variable as it returns. */
  const Parting := Gen(0,
                       (s: int, v: int, c: Ctx) => if s == 0 then Yields(5, 1, map[]) else Returns(map[User(0) := 1]),
                       (s: int, e: Exn, c: Ctx) => Raises(e, map[]), (s: int, c: Ctx) => Done(map[]))

  /** ... which nobody sees: not iterate_threaded_bridged's consumer, nor unkoil_gen's. */
  lemma LastWritesAreLost()
    ensures var acts, first := [Send(NoValue, map[])], Yields(5, 1, map[]);
            && Drive(Parting, first, acts, map[], true) == Trace([Seen(5, map[])], Exhausted, map[User(0) := 1])
            && KoilDrive(Parting, first, acts, map[], true) == Trace([Seen(5, map[])], Exhausted, map[])
            && UnkoilDrive(Parting, first, true, acts, map[]) == Trace([Seen(5, map[])], Exhausted, map[])
  {
    var acts, last := [Send(NoValue, map[])], Returns(map[User(0) := 1]);
    assert acts[1..] == [] && UserPart(map[User(0) := 1]) == map[User(0) := 1];
    assert Parting.step(1, NoValue, map[]) == last;
    assert Drive(Parting, last, [], map[], true) == Trace([], Exhausted, map[User(0) := 1]);
    assert KoilDrive(Parting, last, [], map[], true) == Trace([], Exhausted, map[]);
    assert UnkoilDrive(Parting, last, false, [], map[]) == Trace([], Exhausted, map[]);
  }

  /** A generator that catches what it is thrown and goes on. */
  const Resilient := Gen(0, (s: int, v: int, c: Ctx) => Yields(s, s + 1, map[]),
                         (s: int, e: Exn, c: Ctx) => Yields(100, s, map[]), (s: int, c: Ctx) => Done(map[]))

  /** ... and never gets to. */
  lemma ThrowIsNotForwarded()
    ensures var acts := [Throw(App(3), map[])];
            && Drive(Resilient, Yields(0, 1, map[]), acts, map[], true)
               == Trace([Seen(0, map[]), Seen(100, map[])], Open, map[])
            && KoilDrive(Resilient, Yields(0, 1, map[]), acts, map[], true)
               == Trace([Seen(0, map[])], Abandoned(App(3)), map[])
  {
    var again := Drive(Resilient, Yields(100, 1, map[]), [], map[], true);
    assert again == Trace([Seen(100, map[])], Open, map[]);
  }

  // ---- unkoil_gen: an async generator driven from sync code ----

  /** What aclose_async_gen_threadsafe does not report of a failing close. */
  predicate Swallowed(e: Exn) { e.StopIteration? || e.RuntimeError? || e.Cancelled? }

  /** The consumer just asks for the next value. */
  predicate AsksOn(a: Act) { a.Send? && a.v == NoValue }

  /** Anything else takes unkoil_gen to its finally block. That closes the generator, and
      an error out of the close takes over. */
  function Leaving<S>(g: Gen<S>, st: S, u: Ctx, a: Act): End {
    var c := g.close(st, u);
    if c.Fails? && !Swallowed(c.e) then Raised(c.e)
    else match a
      case Send(_, _) => SendRejected
      case Throw(e, _) => Raised(Leaves(e))
      case Exit(_) => Closed
  }

  /** unkoil_gen's drive: a first step that exhausts the generator is not caught, a sent
      value becomes an argument of __anext__, which takes none, and whatever ends the
      drive at a yield closes the generator, whose writes are then dropped. */
  function UnkoilDrive<S>(g: Gen<S>, r: Step<S>, first: bool, acts: seq<Act>, u: Ctx): Trace
    decreases |acts|
  {
    match r
    case Returns(_) => Trace([], if first then StopRaised else Exhausted, u)
    case Raises(e, _) => Trace([], Raised(e), u)
    case Yields(v, next, writes) =>
      var u1 := u + UserPart(writes);
      Before(Seen(v, u1),
        if acts == [] then Trace([], Open, u1)
        else
          var u2 := u1 + UserPart(acts[0].sets);
          if AsksOn(acts[0]) then UnkoilDrive(g, g.step(next, NoValue, u2), false, acts[1..], u2)
          else Trace([], Leaving(g, next, u2, acts[0]), u2))
  }

  lemma UnkoilOn<S>(g: Gen<S>, r: Step<S>, acts: seq<Act>, n: nat, u: Ctx, whole: Trace, seen: seq<Seen>)
    requires n <= |acts| && r.Yields? && Continues(whole, seen, UnkoilDrive(g, r, n == 0, acts[n..], u))
    ensures var u1 := u + UserPart(r.writes);
            var seen1 := seen + [Seen(r.v, u1)];
            if n == |acts| then whole == Trace(seen1, Open, u1)
            else
              var u2 := u1 + UserPart(acts[n].sets);
              if AsksOn(acts[n])
              then Continues(whole, seen1, UnkoilDrive(g, g.step(r.next, NoValue, u2), false, acts[n + 1..], u2))
              else whole == Trace(seen1, Leaving(g, r.next, u2, acts[n]), u2)
  {
    var u1 := u + UserPart(r.writes);
    var rest :=
      if n == |acts| then Trace([], Open, u1)
      else
        var u2 := u1 + UserPart(acts[n].sets);
        if AsksOn(acts[n]) then UnkoilDrive(g, g.step(r.next, NoValue, u2), false, acts[n + 1..], u2)
        else Trace([], Leaving(g, r.next, u2, acts[n]), u2);
    if n < |acts| { assert acts[n..][1..] == acts[n + 1..]; }
    assert UnkoilDrive(g, r, n == 0, acts[n..], u) == Before(Seen(r.v, u1), rest);
    ContinuesOn(whole, seen, Seen(r.v, u1), rest);
  }

  /** unkoil_gen, each step one unkoil call, up to the close its finally block makes. */
  method UnkoilGen<S>(g: Gen<S>, acts: seq<Act>, ctx: Context) returns (t: Trace)
    modifies ctx
    ensures var u := old(UserPart(ctx.vars)); t == UnkoilDrive(g, g.step(g.init, NoValue, u), true, acts, u)
    ensures UserPart(ctx.vars) == t.final
    ensures InternalPart(ctx.vars) == old(InternalPart(ctx.vars))
  {
    var st, seen, n := g.init, [], 0;
    ghost var u0 := UserPart(ctx.vars);
    ghost var whole := UnkoilDrive(g, g.step(g.init, NoValue, u0), true, acts, u0);
    while true
      invariant 0 <= n <= |acts|
      invariant InternalPart(ctx.vars) == old(InternalPart(ctx.vars))
      invariant var u := UserPart(ctx.vars);
                Continues(whole, seen, UnkoilDrive(g, g.step(st, NoValue, u), n == 0, acts[n..], u))
      decreases |acts| - n
    {
      var r := g.step(st, NoValue, UserPart(ctx.vars));
      if r.Returns? { return Trace(seen, if n == 0 then StopRaised else Exhausted, UserPart(ctx.vars)); }
      if r.Raises? { return Trace(seen, Raised(r.e), UserPart(ctx.vars)); }
      UnkoilOn(g, r, acts, n, UserPart(ctx.vars), whole, seen);
      WriteBack(ctx, r.writes);
      seen := seen + [Seen(r.v, UserPart(ctx.vars))];
      if n == |acts| { return Trace(seen, Open, UserPart(ctx.vars)); }
      Rebind(ctx, acts[n].sets);
      if !AsksOn(acts[n]) { return Trace(seen, Leaving(g, r.next, UserPart(ctx.vars), acts[n]), UserPart(ctx.vars)); }
      st, n := r.next, n + 1;
    }
  }

  function UnkoilStop<S>(g: Gen<S>, r: Step<S>, acts: seq<Act>, u: Ctx): (Step<S>, seq<Act>, Ctx)
    decreases |acts|
  {
    if r.Yields? && acts != [] && acts[0].Send? && acts[0].v == NoValue then
      var u2 := u + UserPart(r.writes) + UserPart(acts[0].sets);
      UnkoilStop(g, g.step(r.next, NoValue, u2), acts[1..], u2)
    else (r, acts, u)
  }

  /** How unkoil_gen ends, over whole drives. What the consumer does last decides, unless the
      close it leads to fails: then that error reaches the consumer, but for a RuntimeError
      or a cancellation, and StopIteration, which has become a RuntimeError by then. */
  lemma {:induction false} UnkoilEnds<S>(g: Gen<S>, r: Step<S>, first: bool, acts: seq<Act>, u: Ctx)
    ensures var k := UnkoilDrive(g, r, first, acts, u);
            var (z, rest, v) := UnkoilStop(g, r, acts, u);
            && (z.Returns? ==> k.end == (if first && rest == acts then StopRaised else Exhausted) && k.final == v)
            && (z.Raises? ==> k.end == Raised(z.e) && k.final == v)
            && (z.Yields? ==>
                  var v1 := v + UserPart(z.writes);
                  && (rest == [] ==> k.end == Open && k.final == v1)
                  && (rest != [] ==>
                        var v2 := v1 + UserPart(rest[0].sets);
                        var c := g.close(z.next, v2);
                        var quiet := c.Done? || c.e == RuntimeError || c.e == Cancelled || c.e == StopIteration;
                        && k.final == v2
                        && (!quiet ==> k.end == Raised(c.e))
                        && (quiet && rest[0].Send? ==> k.end == SendRejected)
                        && (quiet && rest[0].Exit? ==> k.end == Closed)
                        && (quiet && rest[0].Throw? ==>
                              k.end == Raised(if rest[0].e == StopIteration then RuntimeError else rest[0].e))))
    decreases |acts|
  {
    if r.Yields? && acts != [] && AsksOn(acts[0]) {
      var u2 := u + UserPart(r.writes) + UserPart(acts[0].sets);
      UnkoilEnds(g, g.step(r.next, NoValue, u2), false, acts[1..], u2);
      UnkoilStopShrinks(g, g.step(r.next, NoValue, u2), acts[1..], u2);
    }
  }

  lemma {:induction false} UnkoilShowsLast<S>(g: Gen<S>, r: Step<S>, first: bool, acts: seq<Act>, u: Ctx)
    ensures var k := UnkoilDrive(g, r, first, acts, u);
            var (z, rest, v) := UnkoilStop(g, r, acts, u);
            && |k.seen| == |acts| - |rest| + (if z.Yields? then 1 else 0)
            && (z.Yields? ==> k.seen[|k.seen| - 1] == Seen(z.v, v + UserPart(z.writes)))
    decreases |acts|
  {
    if r.Yields? && acts != [] && AsksOn(acts[0]) {
      var u2 := u + UserPart(r.writes) + UserPart(acts[0].sets);
      UnkoilShowsLast(g, g.step(r.next, NoValue, u2), false, acts[1..], u2);
    }
  }

  lemma {:induction false} UnkoilStopShrinks<S>(g: Gen<S>, r: Step<S>, acts: seq<Act>, u: Ctx)
    ensures |UnkoilStop(g, r, acts, u).1| <= |acts|
    decreases |acts|
  {
    if r.Yields? && acts != [] && AsksOn(acts[0]) {
      var u2 := u + UserPart(r.writes) + UserPart(acts[0].sets);
      UnkoilStopShrinks(g, g.step(r.next, NoValue, u2), acts[1..], u2);
    }
  }

  /** A resumption that ends the generator, with this ending. */
  predicate EndsAs<S>(a: Step<S>, end: End) { (a.Returns? && end == Exhausted) || (a.Raises? && end == Raised(a.e)) }

  /** The first thing the consumer does other than asking for the next value has the
      effect on the generator that closing it has. */
  predicate LeavesAlike<S>(g: Gen<S>, r: Step<S>, acts: seq<Act>, u: Ctx)
    decreases |acts|
  {
    r.Yields? && acts != [] ==>
      var u2 := u + UserPart(r.writes) + UserPart(acts[0].sets);
      match acts[0]
      case Send(w, _) =>
        if w == NoValue then LeavesAlike(g, g.step(r.next, NoValue, u2), acts[1..], u2)
        else EndsAs(g.step(r.next, w, u2), Leaving(g, r.next, u2, acts[0]))
      case Throw(e, _) => EndsAs(g.throw(r.next, e, u2), Leaving(g, r.next, u2, acts[0]))
      case Exit(_) => !(g.close(r.next, u2).Fails? && Swallowed(g.close(r.next, u2).e))
  }

  lemma {:induction false} UnkoilShowsIff<S>(g: Gen<S>, r: Step<S>, first: bool, acts: seq<Act>, u: Ctx)
    ensures var d, k := Drive(g, r, acts, u, true), UnkoilDrive(g, r, first, acts, u);
            k.seen == d.seen && k.end == d.end <==> (first ==> !r.Returns?) && LeavesAlike(g, r, acts, u)
    decreases |acts|
  {
    if r.Yields? && acts != [] && !acts[0].Exit? {
      var u2 := u + UserPart(r.writes) + UserPart(acts[0].sets);
      var a := if acts[0].Send? then g.step(r.next, acts[0].v, u2) else g.throw(r.next, acts[0].e, u2);
      var d, k := Drive(g, r, acts, u, true), UnkoilDrive(g, r, first, acts, u);
      var dr := Drive(g, a, acts[1..], u2, true);
      assert d.seen[1..] == dr.seen;
      if AsksOn(acts[0]) {
        UnkoilShowsIff(g, a, false, acts[1..], u2);
        assert k.seen[1..] == UnkoilDrive(g, a, false, acts[1..], u2).seen;
      } else {
        assert k.seen[1..] == [];
      }
    }
  }

  lemma {:induction false} UnkoilFinalContexts<S>(g: Gen<S>, r: Step<S>, first: bool, acts: seq<Act>, u: Ctx)
    requires LeavesAlike(g, r, acts, u)
    ensures Differ(AtEnd(g, r, acts, u, true, false),
                   UnkoilDrive(g, r, first, acts, u).final, Drive(g, r, acts, u, true).final, true)
    decreases |acts|
  {
    if !r.Yields? {
      LossDiffers(u, r.writes, true);
    } else if acts != [] {
      var u2 := u + UserPart(r.writes) + UserPart(acts[0].sets);
      match acts[0]
      case Send(v, _) =>
        if v == NoValue { UnkoilFinalContexts(g, g.step(r.next, v, u2), false, acts[1..], u2); }
        else { LossDiffers(u2, g.step(r.next, v, u2).writes, true); }
      case Throw(e, _) => LossDiffers(u2, g.throw(r.next, e, u2).writes, true);
      case Exit(_) => LossDiffers(u2, g.close(r.next, u2).writes, true);
    }
  }

  /** unkoil_gen agrees with driving the async generator directly iff the generator
      yields at least once or fails first, whatever the consumer does instead of asking
      for the next value amounts to closing it, and whatever the last resumption or the
      close set was so before it. */
  lemma UnkoilGenAgreesIff<S>(g: Gen<S>, acts: seq<Act>, u: Ctx)
    ensures var r := g.step(g.init, NoValue, u);
            var loss := AtEnd(g, r, acts, u, true, false);
            UnkoilDrive(g, r, true, acts, u) == Drive(g, r, acts, u, true) <==>
            !r.Returns? && LeavesAlike(g, r, acts, u) && Within(loss.writes, loss.before)
  {
    var r := g.step(g.init, NoValue, u);
    var d, k := Drive(g, r, acts, u, true), UnkoilDrive(g, r, true, acts, u);
    UnkoilShowsIff(g, r, true, acts, u);
    if LeavesAlike(g, r, acts, u) {
      UnkoilFinalContexts(g, r, true, acts, u);
      SameIff(AtEnd(g, r, acts, u, true, false), k.final, d.final, true);
    }
  }

  const Empty := Gen(0, (s: int, v: int, c: Ctx) => Returns(map[]),
                     (s: int, e: Exn, c: Ctx) => Raises(e, map[]), (s: int, c: Ctx) => Done(map[]))
  const Echo := Gen(0, (s: int, v: int, c: Ctx) => Yields(v, s, map[]),
                    (s: int, e: Exn, c: Ctx) => Raises(e, map[]), (s: int, c: Ctx) => Done(map[]))

  /** Three ways it fails, on the smallest generators: an empty generator raises
      StopAsyncIteration at its consumer, an echo never sees what was sent, and one that
      would catch an error never sees that. */
  lemma UnkoilGenDisagrees()
    ensures Drive(Empty, Returns(map[]), [], map[], true).end == Exhausted
    ensures UnkoilDrive(Empty, Returns(map[]), true, [], map[]).end == StopRaised
    ensures Drive(Echo, Yields(0, 0, map[]), [Send(5, map[])], map[], true).seen == [Seen(0, map[]), Seen(5, map[])]
    ensures UnkoilDrive(Echo, Yields(0, 0, map[]), true, [Send(5, map[])], map[]).end == SendRejected
    ensures Drive(Resilient, Yields(0, 1, map[]), [Throw(App(3), map[])], map[], true).end == Open
    ensures UnkoilDrive(Resilient, Yields(0, 1, map[]), true, [Throw(App(3), map[])], map[]).end == Raised(App(3))
  {
    assert Drive(Echo, Yields(5, 0, map[]), [], map[], true).seen == [Seen(5, map[])];
    ThrowIsNotForwarded();
  }
}
