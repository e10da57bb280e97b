/** Context variables crossing the bridge: what koil copies in and out, call by
    call, against direct execution. */
module Contexts {

  /** Context variables: the user's, and the three koil keeps for itself. */
  datatype Var = User(id: nat) | GlobalKoil | GlobalLoop | CancelEvent

  type Ctx = map<Var, int>

  function UserPart(c: Ctx): Ctx { map v | v in c && v.User? :: c[v] }

  function InternalPart(c: Ctx): Ctx { map v | v in c && !v.User? :: c[v] }

  /** The context a pool thread runs its function in. The koil instance is handed
      on, absent as 0; the loop and the event are the call's own. */
  function WorkerCtx(c: Ctx, loop: int, event: int): Ctx {
    c[GlobalKoil := if GlobalKoil in c then c[GlobalKoil] else 0][GlobalLoop := loop][CancelEvent := event]
  }

  datatype Exn = StopIteration | RuntimeError | Cancelled | KoilError | Unbound(id: nat) | App(code: int)

  datatype Outcome = Ok(v: int) | Err(e: Exn)

  /** Whether the environment lets a bridge call run to its end or cuts it short
      (cancellation, deadline, interrupt) with the given error. */
  datatype Fate = Completes | CutShort(e: Exn)

  /** Code on either side of the bridge. `base` is what the loop's task context
      holds of the submitter's variables before koil copies the snapshot in. */
  datatype Prog =
    | Lit(n: int)
    | Get(x: nat)
    | Let(x: nat, p: Prog)
    | Seq(p: Prog, q: Prog)
    | Raise(e: Exn)
    | Try(p: Prog, q: Prog)
    | Unkoil(p: Prog, base: Ctx, fate: Fate)
    | Threaded(p: Prog, bridged: bool, loop: int, event: int, fate: Fate)

  datatype Side = Sync | Async

  /** unkoil is called by sync code to run async code, run_threaded the other way round. */
  predicate Sided(p: Prog, side: Side) {
    match p
    case Lit(_) => true
    case Get(_) => true
    case Let(_, q) => Sided(q, side)
    case Seq(q, r) => Sided(q, side) && Sided(r, side)
    case Raise(_) => true
    case Try(q, r) => Sided(q, side) && Sided(r, side)
    case Unkoil(q, _, _) => side.Sync? && Sided(q, Async)
    case Threaded(q, _, _, _, _) => side.Async? && Sided(q, Sync)
  }

  function Lookup(c: Ctx, x: nat): Outcome { if User(x) in c then Ok(c[User(x)]) else Err(Unbound(x)) }

  /** Neither a coroutine nor a pool thread lets StopIteration out. */
  function Wrapped(o: Outcome): Outcome { if o == Err(StopIteration) then Err(RuntimeError) else o }

  /** The context of the loop-side task: whatever it started with, then the snapshot. */
  function TaskCtx(snapshot: Ctx, base: Ctx): Ctx {
    (map v | v in base && v in snapshot :: base[v]) + snapshot
  }

  /** Execution as koil does it, on whole contexts. */
  function Exec(p: Prog, c: Ctx): (Outcome, Ctx) {
    match p
    case Lit(n) => (Ok(n), c)
    case Get(x) => (Lookup(c, x), c)
    case Let(x, q) => var (o, d) := Exec(q, c); (o, if o.Ok? then d[User(x) := o.v] else d)
    case Seq(q, r) => var (o, d) := Exec(q, c); if o.Ok? then Exec(r, d) else (o, d)
    case Raise(e) => (Err(e), c)
    case Try(q, r) => var (o, d) := Exec(q, c); if o.Ok? then (o, d) else Exec(r, d)
    case Unkoil(q, base, fate) =>
      if GlobalLoop !in c then (Err(KoilError), c)
      else if fate.CutShort? then (Err(fate.e), c)
      else
        var (o, d) := Exec(q, TaskCtx(c, base));
        (Wrapped(o), if o.Ok? then c + d else c)
    case Threaded(q, bridged, loop, event, fate) =>
      if fate.CutShort? then (Err(fate.e), c)
      else
        var (o, d) := Exec(q, WorkerCtx(c, loop, event));
        (Wrapped(o), if o.Ok? && bridged then c + UserPart(d) else c)
  }

  /** The reference, on user variables alone and without any copying: a bridge call keeps
      its effects on success and undoes them on failure, and run_threaded keeps none.
      Only a coroutine turns StopIteration into RuntimeError. */
  function Direct(p: Prog, u: Ctx): (Outcome, Ctx) {
    match p
    case Lit(n) => (Ok(n), u)
    case Get(x) => (Lookup(u, x), u)
    case Let(x, q) => var (o, w) := Direct(q, u); (o, if o.Ok? then w[User(x) := o.v] else w)
    case Seq(q, r) => var (o, w) := Direct(q, u); if o.Ok? then Direct(r, w) else (o, w)
    case Raise(e) => (Err(e), u)
    case Try(q, r) => var (o, w) := Direct(q, u); if o.Ok? then (o, w) else Direct(r, w)
    case Unkoil(q, _, fate) =>
      if fate.CutShort? then (Err(fate.e), u)
      else
        var (o, w) := Direct(q, u);
        (Wrapped(o), if o.Ok? then w else u)
    case Threaded(q, bridged, _, _, fate) =>
      if fate.CutShort? then (Err(fate.e), u)
      else
        var (o, w) := Direct(q, u);
        (o, if o.Ok? && bridged then w else u)
  }

  /** Same outcome, but for StopIteration wrapped on the way out of a thread. */
  predicate Agrees(koil: Outcome, direct: Outcome) {
    koil == direct || (direct == Err(StopIteration) && koil == Err(RuntimeError))
  }

  /** Context variables are set, never removed, across a call. */
  lemma {:induction false} DirectGrows(p: Prog, u: Ctx)
    ensures u.Keys <= Direct(p, u).1.Keys
  {
    match p
    case Lit(_) =>
    case Get(_) =>
    case Raise(_) =>
    case Let(_, q) => DirectGrows(q, u);
    case Seq(q, r) => DirectGrows(q, u); DirectGrows(r, Direct(q, u).1);
    case Try(q, r) => DirectGrows(q, u); DirectGrows(r, Direct(q, u).1);
    case Unkoil(q, _, _) => DirectGrows(q, u);
    case Threaded(q, _, _, _, _) => DirectGrows(q, u);
  }

  /** What koil's execution of p owes: same outcome, same effect on the caller's user
      variables, nothing changed among koil's own. */
  predicate Preserved(p: Prog, c: Ctx) {
    var (o, d) := Exec(p, c);
    var (r, w) := Direct(p, UserPart(c));
    && Agrees(o, r)
    && UserPart(d) == w
    && InternalPart(d) == InternalPart(c)
  }

  lemma Parts(c: Ctx, d: Ctx)
    requires InternalPart(d) == InternalPart(c) && UserPart(c).Keys <= UserPart(d).Keys
    ensures c + d == d && c + UserPart(d) == d
  {
    forall v | v in c ensures v in d { assert if v.User? then v in UserPart(d) else v in InternalPart(d); }
    forall v | v in c + UserPart(d) || v in d ensures v in c + UserPart(d) && v in d && (c + UserPart(d))[v] == d[v] {
      if !v.User? { assert v in InternalPart(c) && InternalPart(c)[v] == InternalPart(d)[v]; }
    }
  }

  lemma UserPartOfWorker(c: Ctx, loop: int, event: int)
    ensures UserPart(WorkerCtx(c, loop, event)) == UserPart(c)
  {
  }

  /** Context semantics preservation, over every nesting of bridge calls. */
  lemma {:induction false} BridgePreserves(p: Prog, c: Ctx, side: Side)
    requires Sided(p, side) && (side.Sync? ==> GlobalLoop in c)
    ensures Preserved(p, c)
    decreases p, 0
  {
    match p
    case Lit(_) =>
    case Get(_) =>
    case Raise(_) =>
    case Let(x, q) => BridgePreserves(q, c, side);
    case Seq(q, r) =>
      BridgePreserves(q, c, side);
      SecondHalf(q, r, c, side);
    case Try(q, r) =>
      BridgePreserves(q, c, side);
      SecondHalf(q, r, c, side);
    case Unkoil(q, base, fate) =>
      if fate.Completes? {
        assert TaskCtx(c, base) == c;
        BridgePreserves(q, c, Async);
        DirectGrows(q, UserPart(c));
        Parts(c, Exec(q, c).1);
      }
    case Threaded(q, bridged, loop, event, fate) =>
      if fate.Completes? {
        UserPartOfWorker(c, loop, event);
        BridgePreserves(q, WorkerCtx(c, loop, event), Sync);
        ThreadedPreserves(q, bridged, loop, event, c);
      }
  }

  lemma ThreadedPreserves(q: Prog, bridged: bool, loop: int, event: int, c: Ctx)
    requires Preserved(q, WorkerCtx(c, loop, event)) && UserPart(WorkerCtx(c, loop, event)) == UserPart(c)
    ensures Preserved(Threaded(q, bridged, loop, event, Completes), c)
  {
    var d := Exec(q, WorkerCtx(c, loop, event)).1;
    assert UserPart(c + UserPart(d)) == UserPart(d) by {
      DirectGrows(q, UserPart(c));
      assert forall v :: v in UserPart(c) ==> v in UserPart(d);
    }
    assert InternalPart(c + UserPart(d)) == InternalPart(c);
  }

  lemma SecondHalf(q: Prog, r: Prog, c: Ctx, side: Side)
    requires Sided(r, side) && (side.Sync? ==> GlobalLoop in c) && Preserved(q, c)
    ensures Preserved(r, Exec(q, c).1)
    decreases r, 1
  {
    assert GlobalLoop in c ==> GlobalLoop in InternalPart(c);
    BridgePreserves(r, Exec(q, c).1, side);
  }

  /** A threaded call has exactly the outcome of the direct one iff the direct one
      does not end in StopIteration. */
  lemma ThreadedExactIff(q: Prog, bridged: bool, loop: int, event: int, fate: Fate, c: Ctx)
    requires Sided(q, Sync) && fate != CutShort(StopIteration)
    ensures var p := Threaded(q, bridged, loop, event, fate);
            Exec(p, c).0 == Direct(p, UserPart(c)).0 <==> Direct(p, UserPart(c)).0 != Err(StopIteration)
  {
    BridgePreserves(Threaded(q, bridged, loop, event, fate), c, Async);
  }

  // ---- against calls without any boundary ----

  /** A plain call: what the callee set stays set, also when it raises. Only a function run
      unbridged works on a copy. */
  function Plain(p: Prog, u: Ctx): (Outcome, Ctx) {
    match p
    case Lit(n) => (Ok(n), u)
    case Get(x) => (Lookup(u, x), u)
    case Let(x, q) => var (o, w) := Plain(q, u); (o, if o.Ok? then w[User(x) := o.v] else w)
    case Seq(q, r) => var (o, w) := Plain(q, u); if o.Ok? then Plain(r, w) else (o, w)
    case Raise(e) => (Err(e), u)
    case Try(q, r) => var (o, w) := Plain(q, u); if o.Ok? then (o, w) else Plain(r, w)
    case Unkoil(q, _, fate) =>
      if fate.CutShort? then (Err(fate.e), u)
      else
        var (o, w) := Plain(q, u);
        (Wrapped(o), w)
    case Threaded(q, bridged, _, _, fate) =>
      if fate.CutShort? then (Err(fate.e), u)
      else
        var (o, w) := Plain(q, u);
        (o, if bridged then w else u)
  }

  /** A body whose effects a bridge call would undo, if it let them out at all. */
  predicate Clean(q: Prog, u: Ctx) { Plain(q, u).0.Ok? || Plain(q, u).1 == u }

  /** Every bridge call made on the way, and let run to its end, either succeeds or has
      set nothing by the time it fails. */
  predicate CleanFailures(p: Prog, u: Ctx) {
    match p
    case Lit(_) => true
    case Get(_) => true
    case Raise(_) => true
    case Let(_, q) => CleanFailures(q, u)
    case Seq(q, r) => CleanFailures(q, u) && (Plain(q, u).0.Ok? ==> CleanFailures(r, Plain(q, u).1))
    case Try(q, r) => CleanFailures(q, u) && (Plain(q, u).0.Err? ==> CleanFailures(r, Plain(q, u).1))
    case Unkoil(q, _, fate) => fate.Completes? ==> CleanFailures(q, u) && Clean(q, u)
    case Threaded(q, bridged, _, _, fate) =>
      fate.Completes? ==> CleanFailures(q, u) && (bridged ==> Clean(q, u))
  }

  lemma {:induction false} CleanIsPlain(p: Prog, u: Ctx)
    requires CleanFailures(p, u)
    ensures Direct(p, u) == Plain(p, u)
  {
    match p
    case Lit(_) =>
    case Get(_) =>
    case Raise(_) =>
    case Let(_, q) => CleanIsPlain(q, u);
    case Seq(q, r) =>
      CleanIsPlain(q, u);
      if Plain(q, u).0.Ok? { CleanIsPlain(r, Plain(q, u).1); }
    case Try(q, r) =>
      CleanIsPlain(q, u);
      if Plain(q, u).0.Err? { CleanIsPlain(r, Plain(q, u).1); }
    case Unkoil(q, _, fate) => if fate.Completes? { CleanIsPlain(q, u); }
    case Threaded(q, _, _, _, fate) => if fate.Completes? { CleanIsPlain(q, u); }
  }

  /** The bridge is invisible to programs whose failures are clean, whatever they nest. */
  lemma InvisibleWhenClean(p: Prog, c: Ctx, side: Side)
    requires Sided(p, side) && (side.Sync? ==> GlobalLoop in c) && CleanFailures(p, UserPart(c))
    ensures Agrees(Exec(p, c).0, Plain(p, UserPart(c)).0) && UserPart(Exec(p, c).1) == Plain(p, UserPart(c)).1
  {
    BridgePreserves(p, c, side);
    CleanIsPlain(p, UserPart(c));
  }

  /** For a single call over such a body the condition is exact: the caller is left with
      the plain call's variables iff the body's own failure was clean. */
  lemma CallPlainIff(p: Prog, c: Ctx, side: Side)
    requires Sided(p, side) && (side.Sync? ==> GlobalLoop in c)
    requires (p.Unkoil? || (p.Threaded? && p.bridged)) && p.fate.Completes? && CleanFailures(p.p, UserPart(c))
    ensures UserPart(Exec(p, c).1) == Plain(p, UserPart(c)).1 <==> Clean(p.p, UserPart(c))
  {
    BridgePreserves(p, c, side);
    CleanIsPlain(p.p, UserPart(c));
  }

  /** Where it fails: a coroutine sets a variable and raises, and the caller, having caught
      the error, reads the variable. */
  lemma FailureUndoesWrites(c: Ctx)
    requires GlobalLoop in c && User(0) !in c
    ensures var p := Try(Unkoil(Seq(Let(0, Lit(1)), Raise(App(0))), map[], Completes), Get(0));
            Plain(p, UserPart(c)).0 == Ok(1) && Exec(p, c).0 == Err(Unbound(0))
  {
    var q := Seq(Let(0, Lit(1)), Raise(App(0)));
    assert Plain(Let(0, Lit(1)), UserPart(c)) == (Ok(1), UserPart(c)[User(0) := 1]);
    assert Plain(q, UserPart(c)) == (Err(App(0)), UserPart(c)[User(0) := 1]);
    assert Exec(Let(0, Lit(1)), TaskCtx(c, map[])).0 == Ok(1);
    assert Exec(q, TaskCtx(c, map[])).0 == Err(App(0));
  }

  // ---- results collected later (unkoil_task ... result()) ----

  /** What the coroutine itself changed. */
  function Writes(snapshot: Ctx, taskEnd: Ctx): Ctx {
    map v | v in taskEnd && (v !in snapshot || taskEnd[v] != snapshot[v]) :: taskEnd[v]
  }

  lemma MergesIff(snapshot: Ctx, taskEnd: Ctx, now: Ctx)
    requires snapshot.Keys <= taskEnd.Keys
    ensures now + taskEnd == now + Writes(snapshot, taskEnd) <==>
            forall v :: v in snapshot && taskEnd[v] == snapshot[v] ==> v in now && now[v] == snapshot[v]
  {
    var w := Writes(snapshot, taskEnd);
    if forall v :: v in snapshot && taskEnd[v] == snapshot[v] ==> v in now && now[v] == snapshot[v] {
      forall v | v in (now + taskEnd).Keys + (now + w).Keys
        ensures v in now + taskEnd && v in now + w && (now + taskEnd)[v] == (now + w)[v]
      {
        if v in taskEnd && v !in w { assert v in snapshot; }
      }
    } else {
      var v :| v in snapshot && taskEnd[v] == snapshot[v] && !(v in now && now[v] == snapshot[v]);
      assert v in now + taskEnd && (now + taskEnd)[v] == snapshot[v];
      assert v in now + w ==> v in now && (now + w)[v] == now[v];
    }
  }

  /** result(), called in the context `now`, of a coroutine submitted with `snapshot`: on
      success every variable of its final context is set, changed by it or not. */
  function Collected(p: Prog, base: Ctx, snapshot: Ctx, now: Ctx): Ctx {
    var (o, taskEnd) := Exec(p, TaskCtx(snapshot, base));
    if o.Ok? then now + taskEnd else now
  }

  /** Collecting amounts to applying what the coroutine itself changed. */
  predicate Harmless(p: Prog, base: Ctx, snapshot: Ctx, now: Ctx) {
    var (o, taskEnd) := Exec(p, TaskCtx(snapshot, base));
    Collected(p, base, snapshot, now) == if o.Ok? then now + Writes(snapshot, taskEnd) else now
  }

  /** For a given coroutine: iff the collecting context still has, with its value at the
      submission, every variable the coroutine left alone. */
  lemma LateResultMergesIff(p: Prog, base: Ctx, snapshot: Ctx, now: Ctx)
    requires Sided(p, Async)
    ensures var (o, taskEnd) := Exec(p, TaskCtx(snapshot, base));
            && snapshot.Keys <= taskEnd.Keys
            && (Harmless(p, base, snapshot, now) <==>
                (o.Ok? ==>
                   forall v :: v in snapshot && taskEnd[v] == snapshot[v] ==> v in now && now[v] == snapshot[v]))
  {
    assert TaskCtx(snapshot, base) == snapshot;
    var taskEnd := Exec(p, snapshot).1;
    BridgePreserves(p, snapshot, Async);
    DirectGrows(p, UserPart(snapshot));
    Parts(snapshot, taskEnd);
    assert snapshot.Keys <= (snapshot + taskEnd).Keys;
    MergesIff(snapshot, taskEnd, now);
  }

  /** For all coroutines at once, which the caller can see before the call: iff no variable
      of the snapshot is rebound or missing where the result is collected. */
  lemma LateResultSafeIff(snapshot: Ctx, now: Ctx)
    ensures (forall p, base :: Sided(p, Async) ==> Harmless(p, base, snapshot, now)) <==>
            forall v :: v in snapshot ==> v in now && now[v] == snapshot[v]
  {
    if forall v :: v in snapshot ==> v in now && now[v] == snapshot[v] {
      forall p, base | Sided(p, Async) ensures Harmless(p, base, snapshot, now) {
        LateResultMergesIff(p, base, snapshot, now);
      }
    } else if forall p, base :: Sided(p, Async) ==> Harmless(p, base, snapshot, now) {
      assert TaskCtx(snapshot, map[]) == snapshot;
      assert Harmless(Lit(0), map[], snapshot, now);
      LateResultMergesIff(Lit(0), map[], snapshot, now);
    }
  }

  /** A lost update: the caller rebinds a variable while a coroutine that never touches it
      is in flight, and collecting the result puts the old value back. */
  lemma LateResultLosesUpdate()
    ensures var snapshot: Ctx := map[User(0) := 1, GlobalLoop := 7];
            var now := snapshot[User(0) := 2];
            && Writes(snapshot, Exec(Lit(5), TaskCtx(snapshot, map[])).1) == map[]
            && User(0) in Collected(Lit(5), map[], snapshot, now)
            && Collected(Lit(5), map[], snapshot, now)[User(0)] == 1
  {
    var snapshot: Ctx := map[User(0) := 1, GlobalLoop := 7];
    assert TaskCtx(snapshot, map[]) == snapshot;
  }

  // ---- the copies as koil makes them, variable by variable ----

  class Context {
    var vars: Ctx

    constructor (c: Ctx)
      ensures vars == c
    { vars := c; }

    /** for ctx, value in other.items(): ctx.set(value) */
    method SetAll(other: Ctx)
      modifies this
      ensures vars == old(vars) + other
    {
      var todo := other.Keys;
      while todo != {}
        invariant todo <= other.Keys
        invariant vars == old(vars) + (map v | v in other && v !in todo :: other[v])
        decreases |todo|
      {
        var v :| v in todo;
        vars := vars[v := other[v]];
        todo := todo - {v};
      }
      assert (map v | v in other && v !in todo :: other[v]) == other;
    }

    /** _propagate_context_out: the same, skipping koil's own variables. */
    method PropagateOut(worker: Ctx)
      modifies this
      ensures vars == old(vars) + UserPart(worker)
    {
      var todo := worker.Keys;
      while todo != {}
        invariant todo <= worker.Keys
        invariant vars == old(vars) + (map v | v in worker && v.User? && v !in todo :: worker[v])
        decreases |todo|
      {
        var v :| v in todo;
        if v.User? { vars := vars[v := worker[v]]; }
        todo := todo - {v};
      }
      assert (map v | v in worker && v.User? && v !in todo :: worker[v]) == UserPart(worker);
    }

    /** unkoil from this context: snapshot, copy into the coroutine, run, write back. */
    method UnkoilCall(p: Prog, base: Ctx, fate: Fate) returns (o: Outcome)
      modifies this
      ensures (o, vars) == Exec(Unkoil(p, base, fate), old(vars))
      ensures GlobalLoop !in old(vars) ==> o == Err(KoilError) && vars == old(vars)
      ensures GlobalLoop in old(vars) && fate.CutShort? ==> o == Err(fate.e) && vars == old(vars)
      // The coroutine runs in the caller's variables, whatever its task started with; it gives
      // its own value or error, and its variables are the caller's on success alone.
      ensures GlobalLoop in old(vars) && fate.Completes? ==>
                var (res, after) := Exec(p, old(vars));
                && (forall v :: o == Ok(v) <==> res == Ok(v))
                && (forall e :: o == Err(e) <==>
                      (res == Err(e) && e != StopIteration) || (res == Err(StopIteration) && e == RuntimeError))
                && vars == if res.Ok? then old(vars) + after else old(vars)
    {
      assert TaskCtx(vars, base) == vars;
      if GlobalLoop !in vars { return Err(KoilError); }
      if fate.CutShort? { return Err(fate.e); }
      var snapshot := vars;
      var task := new Context(map v | v in base && v in snapshot :: base[v]);
      task.SetAll(snapshot);
      var (res, after) := Exec(p, task.vars);
      o := Wrapped(res);
      if res.Ok? { SetAll(after); }
    }

    /** _run_threaded from this context. */
    method ThreadedCall(p: Prog, bridged: bool, loop: int, event: int, fate: Fate) returns (o: Outcome)
      modifies this
      ensures (o, vars) == Exec(Threaded(p, bridged, loop, event, fate), old(vars))
      ensures fate.CutShort? ==> o == Err(fate.e) && vars == old(vars)
      // The function runs in a copy of the caller's variables with the call's own loop and
      // event; what it sets comes back only when bridging, on success, koil's own excepted.
      ensures fate.Completes? ==>
                var koil := if GlobalKoil in old(vars) then old(vars)[GlobalKoil] else 0;
                var (res, after) := Exec(p, old(vars)[GlobalKoil := koil][GlobalLoop := loop][CancelEvent := event]);
                && (forall v :: o == Ok(v) <==> res == Ok(v))
                && (forall e :: o == Err(e) <==>
                      (res == Err(e) && e != StopIteration) || (res == Err(StopIteration) && e == RuntimeError))
                && vars == if res.Ok? && bridged then old(vars) + (map v | v in after && v.User? :: after[v])
                           else old(vars)
    {
      if fate.CutShort? { return Err(fate.e); }
      var worker := new Context(vars);
      worker.vars := worker.vars[GlobalKoil := if GlobalKoil in vars then vars[GlobalKoil] else 0];
      worker.vars := worker.vars[GlobalLoop := loop];
      worker.vars := worker.vars[CancelEvent := event];
      var (res, after) := Exec(p, worker.vars);
      o := Wrapped(res);
      if res.Ok? && bridged { PropagateOut(after); }
    }
  }
}
