/** Values handed from Qt to the koil loop (koil/qt.py): the QtGenerator queue and
    the QtFuture that settles once. */
module QtHandover {
  import opened Contexts

  // ---- QtGenerator ----

  /** What Qt hands over: a value with the context it was yielded in, or an end. */
  datatype Item = Val(ctx: Ctx, v: int) | Stop | Throw(e: int)

  datatype Status = Consuming | Ended | Raised(e: int) | GaveUp

  /** `made` is everything Qt produced; `callbacks` are its call_soon_threadsafe
      messages still on their way, `queue` the asyncio queue, `taken` what the loop
      got from it and `given` the values acall yielded. */
  datatype Hand = Hand(made: seq<Item>, callbacks: seq<Item>, queue: seq<Item>, taken: seq<Item>,
                       given: seq<int>, status: Status)

  const Start := Hand([], [], [], [], [], Consuming)

  datatype Op = Make(item: Item) | Arrive | Take | GiveUp

  predicate Enabled(h: Hand, op: Op) {
    match op
    case Make(_) => true
    case Arrive => h.callbacks != []
    case Take => h.queue != [] && h.status.Consuming?
    case GiveUp => h.status.Consuming?
  }

  function Next(h: Hand, op: Op): Hand
    requires Enabled(h, op)
  {
    match op
    case Make(item) => h.(made := h.made + [item], callbacks := h.callbacks + [item])
    case Arrive => h.(callbacks := h.callbacks[1..], queue := h.queue + [h.callbacks[0]])
    case Take =>
      var item := h.queue[0];
      var t := h.(queue := h.queue[1..], taken := h.taken + [item]);
      (match item
       case Val(_, v) => t.(given := h.given + [v])
       case Stop => t.(status := Ended)
       case Throw(e) => t.(status := Raised(e)))
    case GiveUp => h.(status := GaveUp)
  }

  predicate IsRun(h: Hand, ops: seq<Op>, t: Hand)
    decreases |ops|
  {
    if ops == [] then h == t else Enabled(h, ops[0]) && IsRun(Next(h, ops[0]), ops[1..], t)
  }

  /** The values in front of the first stop or throw, and that end. */
  function ValuesBefore(items: seq<Item>): seq<int> {
    if items == [] || !items[0].Val? then [] else [items[0].v] + ValuesBefore(items[1..])
  }

  function FirstEnd(items: seq<Item>): Status {
    if items == [] then Consuming
    else match items[0]
      case Val(_, _) => FirstEnd(items[1..])
      case Stop => Ended
      case Throw(e) => Raised(e)
  }

  predicate Inv(h: Hand) {
    && h.taken + h.queue + h.callbacks == h.made
    && h.given == ValuesBefore(h.taken)
    && (h.status == FirstEnd(h.taken) || (h.status.GaveUp? && FirstEnd(h.taken).Consuming?))
  }

  lemma {:induction false} AppendItem(s: seq<Item>, x: Item)
    requires FirstEnd(s).Consuming?
    ensures ValuesBefore(s + [x]) == ValuesBefore(s) + ValuesBefore([x])
    ensures FirstEnd(s + [x]) == FirstEnd([x])
  {
    if s != [] {
      AppendItem(s[1..], x);
      assert (s + [x])[1..] == s[1..] + [x];
    } else {
      assert s + [x] == [x];
    }
  }

  lemma {:induction false} PrefixItems(s: seq<Item>, t: seq<Item>)
    ensures ValuesBefore(s) <= ValuesBefore(s + t)
    ensures !FirstEnd(s).Consuming? ==> ValuesBefore(s + t) == ValuesBefore(s) && FirstEnd(s + t) == FirstEnd(s)
  {
    if s != [] {
      PrefixItems(s[1..], t);
      assert (s + t)[1..] == s[1..] + t;
    }
  }

  lemma TakeKeepsInv(h: Hand, x: Item, rest: seq<Item>)
    requires Inv(h) && h.status.Consuming? && h.queue == [x] + rest
    ensures Inv(Next(h, Take))
  {
    AppendItem(h.taken, x);
    assert h.queue[0] == x && h.queue[1..] == rest;
    assert h.taken + [x] + rest == h.taken + h.queue;
    assert ValuesBefore([x]) == if x.Val? then [x.v] else [];
  }

  lemma NextKeepsInv(h: Hand, op: Op)
    requires Inv(h) && Enabled(h, op)
    ensures Inv(Next(h, op))
  {
    match op
    case Make(item) => assert h.taken + h.queue + (h.callbacks + [item]) == h.made + [item];
    case Arrive => assert h.callbacks == [h.callbacks[0]] + h.callbacks[1..];
    case Take => TakeKeepsInv(h, h.queue[0], h.queue[1..]);
    case GiveUp =>
  }

  lemma {:induction false} RunKeepsInv(h: Hand, ops: seq<Op>, t: Hand)
    requires Inv(h) && IsRun(h, ops, t)
    ensures Inv(t)
    decreases |ops|
  {
    if ops != [] {
      NextKeepsInv(h, ops[0]);
      RunKeepsInv(Next(h, ops[0]), ops[1..], t);
    }
  }

  /** The values up to n, spelled out. */
  predicate Shows(items: seq<Item>, given: seq<int>) {
    |given| <= |items| && forall i :: 0 <= i < |given| ==> items[i].Val? && items[i].v == given[i]
  }

  /** What ValuesBefore and FirstEnd say of each item. */
  lemma {:induction false} ValuesAreItems(items: seq<Item>)
    ensures var vs := ValuesBefore(items);
            && Shows(items, vs)
            && (|vs| == |items| <==> FirstEnd(items) == Consuming)
            && (FirstEnd(items) == Ended <==> |vs| < |items| && items[|vs|] == Stop)
            && (forall e :: FirstEnd(items) == Raised(e) <==> |vs| < |items| && items[|vs|] == Throw(e))
            && !FirstEnd(items).GaveUp?
  {
    if items != [] && items[0].Val? {
      ValuesAreItems(items[1..]);
      assert forall i :: 0 < i < |items| ==> items[i] == items[1..][i - 1];
    }
  }

  /** What Qt was told to hand over, in order. */
  function Made(ops: seq<Op>): seq<Item> {
    if ops == [] then [] else (if ops[0].Make? then [ops[0].item] else []) + Made(ops[1..])
  }

  lemma {:induction false} RunMakes(h: Hand, ops: seq<Op>, t: Hand)
    requires IsRun(h, ops, t)
    ensures t.made == h.made + Made(ops)
    decreases |ops|
  {
    if ops != [] { RunMakes(Next(h, ops[0]), ops[1..], t); }
  }

  lemma Conserved(h: Hand)
    requires Inv(h)
    ensures h.given <= ValuesBefore(h.made)
    ensures h.status.Ended? || h.status.Raised? ==> h.given == ValuesBefore(h.made) && h.status == FirstEnd(h.made)
    ensures h.status.Consuming? && h.queue == [] && h.callbacks == [] ==>
              h.given == ValuesBefore(h.made) && FirstEnd(h.made) == Consuming
  {
    PrefixItems(h.taken, h.queue + h.callbacks);
    assert h.taken + (h.queue + h.callbacks) == h.made;
    if h.queue == [] && h.callbacks == [] { assert h.taken == h.made; }
  }

  lemma PrefixShows(items: seq<Item>, given: seq<int>, vs: seq<int>)
    requires Shows(items, vs) && given <= vs
    ensures Shows(items, given)
  {
  }

  /** Conservation at every point of every interleaving: nothing Qt produced is lost,
      repeated or reordered; what acall yielded is a prefix of the values before Qt's
      first stop or throw; and once acall has ended it is exactly those, and it ended
      the way Qt did: it returns at a stop, and raises what Qt threw. */
  lemma Conservation(ops: seq<Op>, t: Hand)
    requires IsRun(Start, ops, t)
    ensures t.made == Made(ops)
    ensures t.taken + t.queue + t.callbacks == t.made
    ensures Shows(t.made, t.given) && t.given <= ValuesBefore(t.made)
    ensures t.status.Ended? || t.status.Raised? ==> t.given == ValuesBefore(t.made) && t.status == FirstEnd(t.made)
    ensures t.status.Ended? ==> |t.given| < |t.made| && t.made[|t.given|] == Stop
    ensures t.status.Raised? ==> |t.given| < |t.made| && t.made[|t.given|] == Throw(t.status.e)
    ensures t.status.Consuming? && t.queue == [] && t.callbacks == [] ==> |t.given| == |t.made|
  {
    RunKeepsInv(Start, ops, t);
    RunMakes(Start, ops, t);
    Conserved(t);
    ValuesAreItems(t.made);
    PrefixShows(t.made, t.given, ValuesBefore(t.made));
  }

  /** The context before the i-th yield. */
  function Prior(c: Ctx, at: seq<Ctx>, i: nat): Ctx
    requires i <= |at|
  { if i == 0 then c else at[i - 1] }

  /** The i-th value is yielded in the context before it with the variables Qt yielded it in
      set over that. */
  predicate AdoptsAt(c: Ctx, items: seq<Item>, at: seq<Ctx>, i: nat)
    requires i < |at| <= |items|
  { items[i].Val? && at[i] == Prior(c, at, i) + items[i].ctx }

  predicate Adopts(c: Ctx, items: seq<Item>, at: seq<Ctx>) {
    |at| <= |items| && forall i :: 0 <= i < |at| ==> AdoptsAt(c, items, at, i)
  }

  lemma AdoptsNext(c: Ctx, items: seq<Item>, at: seq<Ctx>, d: Ctx)
    requires Adopts(c, items, at) && |at| < |items| && items[|at|].Val? && d == Prior(c, at, |at|) + items[|at|].ctx
    ensures Adopts(c, items, at + [d])
  {
    var more := at + [d];
    forall i | 0 <= i < |more| ensures AdoptsAt(c, items, more, i) {
      assert Prior(c, more, i) == Prior(c, at, i);
      if i < |at| { assert AdoptsAt(c, items, at, i); }
    }
  }

  lemma ShownIsAll(items: seq<Item>, given: seq<int>)
    requires Shows(items, given) && (|given| < |items| ==> !items[|given|].Val?)
    ensures given == ValuesBefore(items)
  {
    ValuesAreItems(items);
  }

  /** What the consumer has been shown, and in which contexts. */
  predicate Consumed(c: Ctx, items: seq<Item>, given: seq<int>, at: seq<Ctx>, now: Ctx) {
    && Shows(items, given)
    && |at| == |given| && Adopts(c, items, at) && now == Prior(c, at, |at|)
  }

  lemma ConsumedNext(c: Ctx, items: seq<Item>, given: seq<int>, at: seq<Ctx>, now: Ctx, d: Ctx)
    requires Consumed(c, items, given, at, now)
    requires |given| < |items| && items[|given|].Val? && d == now + items[|given|].ctx
    ensures Consumed(c, items, given + [items[|given|].v], at + [d], d)
  {
    AdoptsNext(c, items, at, d);
  }

  /** The loop of acall over the items as they come out of the queue: exactly the values
      before the first end are yielded, and it ends as that one says. `at` are the
      consumer's contexts at the yields. */
  method Acall(items: seq<Item>, ctx: Context) returns (given: seq<int>, at: seq<Ctx>, end: Status)
    modifies ctx
    ensures given == ValuesBefore(items) && end == FirstEnd(items)
    ensures Consumed(old(ctx.vars), items, given, at, ctx.vars)
    ensures end == Consuming <==> |given| == |items|
    ensures end == Ended <==> |given| < |items| && items[|given|] == Stop
    ensures forall e :: end == Raised(e) <==> |given| < |items| && items[|given|] == Throw(e)
  {
    given, at := [], [];
    while |given| < |items| && items[|given|].Val?
      invariant Consumed(old(ctx.vars), items, given, at, ctx.vars)
      decreases |items| - |given|
    {
      ghost var now := ctx.vars;
      ctx.SetAll(items[|given|].ctx);
      ConsumedNext(old(ctx.vars), items, given, at, now, ctx.vars);
      given, at := given + [items[|given|].v], at + [ctx.vars];
    }
    ShownIsAll(items, given);
    ValuesAreItems(items);
    if |given| == |items| { return given, at, Consuming; }
    match items[|given|] {
      case Stop => end := Ended;
      case Throw(e) => end := Raised(e);
    }
  }

  // ---- QtFuture ----

  datatype Settle = Resolve(v: int) | Reject(e: int)

  datatype Aio = Pending | Done(s: Settle) | Withdrawn

  /** `made` are all resolve and reject calls, `callbacks` those not yet run. */
  datatype Fut = Fut(made: seq<Settle>, callbacks: seq<Settle>, aio: Aio)

  datatype FutOp = Call(s: Settle) | RunCallback | CancelAio

  predicate FutEnabled(f: Fut, op: FutOp) { op.RunCallback? ==> f.callbacks != [] }

  function FutNext(f: Fut, op: FutOp): Fut
    requires FutEnabled(f, op)
  {
    match op
    case Call(s) => f.(made := f.made + [s], callbacks := f.callbacks + [s])
    case RunCallback => f.(callbacks := f.callbacks[1..], aio := if f.aio.Pending? then Done(f.callbacks[0]) else f.aio)
    case CancelAio => f.(aio := if f.aio.Pending? then Withdrawn else f.aio)
  }

  predicate FutRun(f: Fut, ops: seq<FutOp>, t: Fut)
    decreases |ops|
  {
    if ops == [] then f == t else FutEnabled(f, ops[0]) && FutRun(FutNext(f, ops[0]), ops[1..], t)
  }

  predicate FutInv(f: Fut) {
    && (f.aio.Pending? ==> f.callbacks == f.made)
    && (f.aio.Done? ==> f.made != [] && f.aio.s == f.made[0])
  }

  /** A QtFuture settles at most once, with the first resolve or reject that was made:
      over every interleaving, whatever it holds is that one unless the awaiting side
      cancelled first, and it never changes again. */
  lemma {:induction false} SettlesOnce(f: Fut, ops: seq<FutOp>, t: Fut)
    requires FutInv(f) && FutRun(f, ops, t)
    ensures FutInv(t)
    ensures !f.aio.Pending? ==> t.aio == f.aio
    ensures f.made <= t.made
    decreases |ops|
  {
    if ops != [] {
      var g := FutNext(f, ops[0]);
      assert FutInv(g) && f.made <= g.made;
      SettlesOnce(g, ops[1..], t);
    }
  }

  /** The resolve and reject calls among the operations, in order. */
  function Calls(ops: seq<FutOp>): seq<Settle> {
    if ops == [] then [] else (if ops[0].Call? then [ops[0].s] else []) + Calls(ops[1..])
  }

  lemma {:induction false} RunCalls(f: Fut, ops: seq<FutOp>, t: Fut)
    requires FutRun(f, ops, t)
    ensures t.made == f.made + Calls(ops)
    ensures t.aio.Withdrawn? ==> f.aio.Withdrawn? || CancelAio in ops
    decreases |ops|
  {
    if ops != [] {
      RunCalls(FutNext(f, ops[0]), ops[1..], t);
      assert ops == [ops[0]] + ops[1..];
    }
  }

  lemma FirstSettleWins(ops: seq<FutOp>, t: Fut)
    requires FutRun(Fut([], [], Pending), ops, t)
    ensures t.made == Calls(ops)
    ensures t.aio.Withdrawn? ==> CancelAio in ops
    ensures t.aio.Done? ==> t.made != [] && t.aio.s == t.made[0]
    ensures t.made != [] && t.callbacks == [] && !t.aio.Withdrawn? ==> t.aio == Done(t.made[0])
  {
    SettlesOnce(Fut([], [], Pending), ops, t);
    RunCalls(Fut([], [], Pending), ops, t);
  }

  /** The object Qt holds. Its own flags are set at once, the asyncio future on the loop. */
  class QtFuture {
    var resolved: bool
    var rejected: bool
    var callbacks: seq<Settle>
    var aio: Aio
    ghost var made: seq<Settle>

    constructor ()
      ensures State() == Fut([], [], Pending) && !resolved && !rejected
    {
      resolved, rejected, callbacks, aio, made := false, false, [], Pending, [];
    }

    ghost function State(): Fut
      reads this
    { Fut(made, callbacks, aio) }

    method ResolveWith(v: int)
      modifies this
      ensures State() == FutNext(old(State()), Call(Resolve(v)))
      ensures resolved && rejected == old(rejected)
    {
      resolved := true;
      callbacks := callbacks + [Resolve(v)];
      made := made + [Resolve(v)];
    }

    method RejectWith(e: int)
      modifies this
      ensures State() == FutNext(old(State()), Call(Reject(e)))
      ensures rejected && resolved == old(resolved)
    {
      rejected := true;
      callbacks := callbacks + [Reject(e)];
      made := made + [Reject(e)];
    }

    /** _set_future_result / _set_future_exception, as the loop runs them: the done
        check and the set are one callback. */
    method OnLoop()
      requires callbacks != []
      modifies this
      ensures State() == FutNext(old(State()), RunCallback)
      ensures resolved == old(resolved) && rejected == old(rejected)
    {
      var s := callbacks[0];
      callbacks := callbacks[1..];
      if !aio.Pending? { return; }
      aio := Done(s);
    }
  }
}
