/** Entering and leaving Koil scopes, in any number of contexts at once, and the loop
    thread's shutdown. */
module Lifecycle {
  import opened Options
  import opened Race

  /** A loop thread: serving, closed down, or given up on while still alive. */
  datatype LoopState = Serving | ClosedDown | Abandoned

  /** What the two context variables hold in one context. `copied` is history: the
      context got them by being copied, not by an enter of its own. */
  datatype Seen = Seen(koil: nat, loop: nat, copied: bool)

  /** What each context sees, each Koil's own loop and running flag, the loops ever
      started, and those told to stop, oldest first. `at` is history: the context an
      owner was entered in, which koil does not record. */
  datatype World = World(ambient: map<nat, Seen>, own: map<nat, nat>, at: map<nat, nat>, running: set<nat>,
                         loops: seq<LoopState>, stopped: seq<nat>)

  const Initial := World(map[], map[], map[], {}, [], [])

  /** Fork: d is a copy of context c, as for a worker or a task. */
  datatype Op = Enter(c: nat, k: nat) | Exit(c: nat, k: nat, closes: bool) | Fork(c: nat, d: nat)

  /** Koil.__enter__ and __exit__. `closes` is whether the loop thread ends within the
      two bounded joins. */
  function Apply(w: World, op: Op): World {
    match op
    case Enter(c, k) =>
      var l := |w.loops|;
      var w' := if c in w.ambient then w
                else w.(ambient := w.ambient[c := Seen(k, l, false)], own := w.own[k := l], at := w.at[k := c],
                        loops := w.loops + [Serving]);
      w'.(running := w.running + {k})
    case Exit(c, k, closes) =>
      var w' := if k !in w.own then w
                else
                  var l := w.own[k];
                  w.(ambient := w.ambient - {c}, own := w.own - {k}, at := w.at - {k},
                     loops := if l < |w.loops| then w.loops[l := if closes then ClosedDown else Abandoned] else w.loops,
                     stopped := w.stopped + [l]);
      w'.(running := w.running - {k})
    case Fork(c, d) =>
      w.(ambient := if c in w.ambient then w.ambient[d := w.ambient[c].(copied := true)] else w.ambient - {d})
  }

  function ApplyAll(w: World, ops: seq<Op>): World
    decreases |ops|
  {
    if ops == [] then w else ApplyAll(Apply(w, ops[0]), ops[1..])
  }

  /** A Koil that owns a loop is left in the context it was entered in, and not entered
      where it would start another one. A copy is a fresh context. */
  predicate Fits(w: World, op: Op) {
    match op
    case Enter(c, k) => c in w.ambient || k !in w.own
    case Exit(c, k, _) => k in w.own && k in w.at ==> w.at[k] == c
    case Fork(_, d) => d !in w.ambient
  }

  predicate FitAll(w: World, ops: seq<Op>)
    decreases |ops|
  {
    ops == [] || (Fits(w, ops[0]) && FitAll(Apply(w, ops[0]), ops[1..]))
  }

  /** A Koil entered in a context owns the loop seen there; a copied context sees an owner
      and its loop, or a loop told to stop. */
  predicate SeenInv(w: World, c: nat)
    requires c in w.ambient
  {
    var v := w.ambient[c];
    && v.loop < |w.loops|
    && if v.copied then (v.koil in w.own && w.own[v.koil] == v.loop) || v.loop in w.stopped
       else v.koil in w.own && w.own[v.koil] == v.loop && v.koil in w.at && w.at[v.koil] == c
  }

  predicate OwnerInv(w: World, k: nat)
    requires k in w.own
  {
    && w.own[k] < |w.loops|
    && k in w.at && w.at[k] in w.ambient && w.ambient[w.at[k]] == Seen(k, w.own[k], false)
  }

  /** The serving loops are exactly the owned ones, each by one Koil, and exactly those not
      told to stop; none is told twice. */
  ghost predicate LoopsInv(w: World) {
    && (forall l :: 0 <= l < |w.loops| ==> (w.loops[l].Serving? <==> l !in w.stopped))
    && (forall l :: 0 <= l < |w.loops| ==> (w.loops[l].Serving? <==> exists k :: k in w.own && w.own[k] == l))
    && (forall j, k :: j in w.own && k in w.own && w.own[j] == w.own[k] ==> j == k)
    && (forall i :: 0 <= i < |w.stopped| ==> w.stopped[i] < |w.loops|)
    && (forall i, j :: 0 <= i < j < |w.stopped| ==> w.stopped[i] != w.stopped[j])
  }

  ghost predicate Inv(w: World) {
    && LoopsInv(w)
    && (forall c :: c in w.ambient ==> SeenInv(w, c))
    && (forall k :: k in w.own ==> OwnerInv(w, k))
  }

  lemma EnterKeeps(w: World, c: nat, k: nat)
    requires Inv(w) && c !in w.ambient && k !in w.own
    ensures Inv(Apply(w, Enter(c, k)))
  {
    var v := Apply(w, Enter(c, k));
    assert LoopsInv(v) by {
      assert v.own[k] == |w.loops|;
      forall l | 0 <= l < |v.loops| ensures v.loops[l].Serving? <==> exists j :: j in v.own && v.own[j] == l {
        if l < |w.loops| && w.loops[l].Serving? {
          var j :| j in w.own && w.own[j] == l;
          assert v.own[j] == l;
        }
      }
      forall j | j in w.own ensures w.own[j] < |w.loops| { assert OwnerInv(w, j); }
    }
    forall e | e in v.ambient ensures SeenInv(v, e) {
      if e != c { assert SeenInv(w, e); }
    }
    forall j | j in v.own ensures OwnerInv(v, j) {
      if j != k { assert OwnerInv(w, j); }
    }
  }

  lemma ExitKeepsLoops(w: World, k: nat, c: nat, closes: bool)
    requires Inv(w) && k in w.own
    ensures LoopsInv(Apply(w, Exit(c, k, closes)))
  {
    var v := Apply(w, Exit(c, k, closes));
    assert OwnerInv(w, k);
    assert w.loops[w.own[k]].Serving? && w.own[k] !in w.stopped;
    assert forall l :: l in v.stopped <==> l in w.stopped || l == w.own[k];
    forall l | 0 <= l < |v.loops| ensures v.loops[l].Serving? <==> exists j :: j in v.own && v.own[j] == l {
      if l != w.own[k] && w.loops[l].Serving? {
        var j :| j in w.own && w.own[j] == l;
        assert v.own[j] == l;
      }
    }
  }

  lemma ExitKeeps(w: World, c: nat, k: nat, closes: bool)
    requires Inv(w) && k in w.own && w.at[k] == c
    ensures Inv(Apply(w, Exit(c, k, closes)))
  {
    var v := Apply(w, Exit(c, k, closes));
    ExitKeepsLoops(w, k, c, closes);
    assert OwnerInv(w, k);
    assert w.own[k] in v.stopped && forall l :: l in w.stopped ==> l in v.stopped;
    forall e | e in v.ambient ensures SeenInv(v, e) { assert SeenInv(w, e); }
    forall j | j in v.own ensures OwnerInv(v, j) { assert OwnerInv(w, j); }
  }

  lemma ForkKeeps(w: World, c: nat, d: nat)
    requires Inv(w) && d !in w.ambient
    ensures Inv(Apply(w, Fork(c, d)))
  {
    var v := Apply(w, Fork(c, d));
    assert LoopsInv(v);
    forall e | e in v.ambient ensures SeenInv(v, e) {
      if e == d { assert SeenInv(w, c); } else { assert SeenInv(w, e); }
    }
    forall j | j in v.own ensures OwnerInv(v, j) { assert OwnerInv(w, j); }
  }

  /** Which operations keep the invariant: exactly those that fit. */
  lemma ApplyKeepsInvIff(w: World, op: Op)
    requires Inv(w) && (op.Fork? ==> op.d !in w.ambient)
    ensures Inv(Apply(w, op)) <==> Fits(w, op)
  {
    match op
    case Enter(c, k) =>
      if c !in w.ambient {
        if k !in w.own { EnterKeeps(w, c, k); } else { SecondLoopIsLost(w, c, k); }
      } else {
        SameButRunning(w, Apply(w, op));
      }
    case Exit(c, k, closes) =>
      if k in w.own {
        assert OwnerInv(w, k);
        if w.at[k] == c {
          ExitKeeps(w, c, k, closes);
        } else {
          var v := Apply(w, op);
          assert v.ambient[w.at[k]] == Seen(k, w.own[k], false) && k !in v.own;
          assert !SeenInv(v, w.at[k]);
        }
      } else {
        SameButRunning(w, Apply(w, op));
      }
    case Fork(c, d) => ForkKeeps(w, c, d);
  }

  lemma SameButRunning(w: World, v: World)
    requires Inv(w) && v == w.(running := v.running)
    ensures Inv(v)
  {
    assert LoopsInv(v);
    forall e | e in v.ambient ensures SeenInv(v, e) { assert SeenInv(w, e); }
    forall j | j in v.own ensures OwnerInv(v, j) { assert OwnerInv(w, j); }
  }

  /** A Koil that owns a loop and is entered where none is ambient starts another: the first
      goes on serving with nobody to stop it. */
  lemma SecondLoopIsLost(w: World, c: nat, k: nat)
    requires Inv(w) && c !in w.ambient && k in w.own
    ensures var v := Apply(w, Enter(c, k));
            && !Inv(v)
            && w.own[k] < |v.loops| && v.loops[w.own[k]].Serving?
            && forall j :: j in v.own ==> v.own[j] != w.own[k]
  {
    var v := Apply(w, Enter(c, k));
    var l := w.own[k];
    assert OwnerInv(w, k);
    assert w.loops[l].Serving?;
    assert v.loops[l] == w.loops[l];
    forall j | j in v.own ensures v.own[j] != l {
      if j != k { assert w.own[j] == v.own[j]; }
    }
  }

  /** The invariant holds after every interleaving of enters, exits and copies, in any
      number of contexts, that fits. */
  lemma {:induction false} ApplyAllKeepsInv(w: World, ops: seq<Op>)
    requires Inv(w) && FitAll(w, ops)
    ensures Inv(ApplyAll(w, ops))
    decreases |ops|
  {
    if ops != [] {
      ApplyKeepsInvIff(w, ops[0]);
      ApplyAllKeepsInv(Apply(w, ops[0]), ops[1..]);
    }
  }

  // ---- isolation ----

  function View(w: World, c: nat): Option<(nat, bool)> {
    if c in w.ambient then Some((w.ambient[c].koil, w.ambient[c].copied)) else None
  }

  /** What a context sees from its own enters and exits alone. */
  function Alone(v: Option<(nat, bool)>, op: Op): Option<(nat, bool)> {
    match op
    case Enter(_, k) => if v.None? then Some((k, false)) else v
    case Exit(_, k, _) => if v == Some((k, false)) then None else v
    case Fork(_, _) => v
  }

  function AloneAll(v: Option<(nat, bool)>, c: nat, ops: seq<Op>): Option<(nat, bool)>
    decreases |ops|
  {
    if ops == [] then v else AloneAll(if ops[0].c == c then Alone(v, ops[0]) else v, c, ops[1..])
  }

  /** c exists already, so no copy becomes it. */
  predicate NotForked(c: nat, ops: seq<Op>) { forall i :: 0 <= i < |ops| && ops[i].Fork? ==> ops[i].d != c }

  lemma StepIsAlone(w: World, op: Op, c: nat)
    requires Inv(w) && Fits(w, op) && (op.Fork? ==> op.d != c)
    ensures View(Apply(w, op), c) == if op.c == c then Alone(View(w, c), op) else View(w, c)
  {
    if op.Exit? && op.k in w.own { assert OwnerInv(w, op.k); }
    if c in w.ambient { assert SeenInv(w, c); }
  }

  /** Isolation: over every fitting interleaving, what a context sees is what its own
      operations alone give, whatever the other contexts do. */
  lemma {:induction false} Isolation(w: World, ops: seq<Op>, c: nat)
    requires Inv(w) && FitAll(w, ops) && NotForked(c, ops)
    ensures View(ApplyAll(w, ops), c) == AloneAll(View(w, c), c, ops)
    decreases |ops|
  {
    if ops != [] {
      ApplyKeepsInvIff(w, ops[0]);
      StepIsAlone(w, ops[0], c);
      assert forall i :: 0 <= i < |ops[1..]| ==> ops[1..][i] == ops[i + 1];
      Isolation(Apply(w, ops[0]), ops[1..], c);
    }
  }

  /** The scopes open in a context after well-nested operations there, outermost first.
      Entering an open Koil again, or leaving one that is not innermost, is not
      well-nested; leaving one that is not open is, and is ignored. */
  function Opened(open: seq<nat>, c: nat, ops: seq<Op>): Option<seq<nat>>
    decreases |ops|
  {
    if ops == [] then Some(open)
    else if ops[0].c != c then Opened(open, c, ops[1..])
    else
      match ops[0]
      case Enter(_, k) => if k in open then None else Opened(open + [k], c, ops[1..])
      case Exit(_, k, _) =>
        if k !in open then Opened(open, c, ops[1..])
        else if open[|open| - 1] == k then Opened(open[..|open| - 1], c, ops[1..])
        else None
      case Fork(_, _) => Opened(open, c, ops[1..])
  }

  function Outermost(open: seq<nat>): Option<(nat, bool)> { if open == [] then None else Some((open[0], false)) }

  predicate Distinct(open: seq<nat>) { forall i, j :: 0 <= i < j < |open| ==> open[i] != open[j] }

  lemma {:induction false} OutermostIsAmbient(open: seq<nat>, c: nat, ops: seq<Op>)
    requires Distinct(open) && Opened(open, c, ops).Some?
    ensures AloneAll(Outermost(open), c, ops) == Outermost(Opened(open, c, ops).value)
    decreases |ops|
  {
    if ops != [] {
      var next := open;
      if ops[0].c == c && ops[0].Enter? {
        next := open + [ops[0].k];
      } else if ops[0].c == c && ops[0].Exit? && ops[0].k in open {
        next := open[..|open| - 1];
        if |open| > 1 { assert open[0] != ops[0].k; }
      }
      OutermostIsAmbient(next, c, ops[1..]);
    }
  }

  predicate OnlyIn(c: nat, k: nat, ops: seq<Op>) {
    forall i :: 0 <= i < |ops| && !ops[i].Fork? && ops[i].k == k ==> ops[i].c == c
  }

  lemma {:induction false} RunningIsOpen(w: World, open: seq<nat>, c: nat, ops: seq<Op>, k: nat)
    requires Distinct(open) && Opened(open, c, ops).Some? && OnlyIn(c, k, ops) && (k in w.running <==> k in open)
    ensures k in ApplyAll(w, ops).running <==> k in Opened(open, c, ops).value
    decreases |ops|
  {
    if ops != [] {
      var next := open;
      if ops[0].c == c && ops[0].Enter? {
        next := open + [ops[0].k];
      } else if ops[0].c == c && ops[0].Exit? && ops[0].k in open {
        next := open[..|open| - 1];
        assert open == next + [ops[0].k];
      }
      assert forall i :: 0 <= i < |ops[1..]| ==> ops[1..][i] == ops[i + 1];
      RunningIsOpen(Apply(w, ops[0]), next, c, ops[1..], k);
    }
  }

  /** Nested scopes, over every fitting interleaving with other contexts: a context with
      well-nested scopes sees the outermost open one, which owns the loop seen there, and
      that loop is serving; with none open it sees nothing. A Koil used there alone is
      running exactly while it is open. */
  lemma NestedScopes(ops: seq<Op>, c: nat, k: nat)
    requires FitAll(Initial, ops) && NotForked(c, ops) && Opened([], c, ops).Some? && OnlyIn(c, k, ops)
    ensures var w := ApplyAll(Initial, ops); var open := Opened([], c, ops).value;
            && (open == [] ==> c !in w.ambient)
            && (open != [] ==>
                  && open[0] in w.own && w.own[open[0]] < |w.loops| && w.loops[w.own[open[0]]].Serving?
                  && c in w.ambient && w.ambient[c] == Seen(open[0], w.own[open[0]], false))
            && (k in w.running <==> k in open)
  {
    var w := ApplyAll(Initial, ops);
    ApplyAllKeepsInv(Initial, ops);
    Isolation(Initial, ops, c);
    OutermostIsAmbient([], c, ops);
    RunningIsOpen(Initial, [], c, ops, k);
    if c in w.ambient { assert SeenInv(w, c); }
  }

  // ---- what goes wrong otherwise ----

  /** Two contexts, two owners, two serving loops. */
  lemma TwoOwners()
    ensures var ops := [Enter(0, 7), Enter(1, 8)];
            FitAll(Initial, ops) && ApplyAll(Initial, ops).loops == [Serving, Serving]
  {
    var w1 := Apply(Initial, Enter(0, 7));
    var w2 := Apply(w1, Enter(1, 8));
    assert [Enter(0, 7), Enter(1, 8)][1..] == [Enter(1, 8)];
    assert FitAll(w1, [Enter(1, 8)]) && ApplyAll(w1, [Enter(1, 8)]) == w2;
  }

  /** A Koil left in a context other than its own: its own goes on seeing it, with a loop
      told to stop, and the other sees nothing although its own loop is serving. */
  lemma ForeignExit(w: World, c: nat, j: nat, k: nat, closes: bool)
    requires Inv(w) && j in w.own && k in w.own && j != k && w.at[j] == c
    ensures !Fits(w, Exit(c, k, closes))
    ensures var v := Apply(w, Exit(c, k, closes));
            && c !in v.ambient && j in v.own && v.own[j] < |v.loops| && v.loops[v.own[j]].Serving?
            && w.at[k] in v.ambient && v.ambient[w.at[k]].koil == k && v.ambient[w.at[k]].loop in v.stopped
  {
    assert OwnerInv(w, j) && OwnerInv(w, k);
  }

  /** A context copied inside a scope goes on seeing it after it was left; a Koil entered
      there starts nothing, and what is seen stays a loop told to stop. */
  lemma StaleCopy(w: World, c: nat, d: nat, j: nat, k: nat, closes: bool)
    requires Inv(w) && k in w.own && w.at[k] == c && d !in w.ambient && j !in w.own
    ensures var ops := [Fork(c, d), Exit(c, k, closes), Enter(d, j)];
            var v := ApplyAll(w, ops);
            && FitAll(w, ops) && j !in v.own
            && d in v.ambient && v.ambient[d] == Seen(k, w.own[k], true) && w.own[k] in v.stopped
  {
    assert OwnerInv(w, k);
    var w1 := Apply(w, Fork(c, d));
    var w2 := Apply(w1, Exit(c, k, closes));
    var ops := [Fork(c, d), Exit(c, k, closes), Enter(d, j)];
    assert ops[1..] == [Exit(c, k, closes), Enter(d, j)] && ops[1..][1..] == [Enter(d, j)] && ops[1..][1..][1..] == [];
    assert Fits(w, ops[0]) && Fits(w1, ops[1]) && Fits(w2, ops[2]);
    assert FitAll(w2, ops[1..][1..]) && FitAll(w1, ops[1..]);
    var w3 := Apply(w2, Enter(d, j));
    assert w3 == w2.(running := w2.running + {j});
    assert ApplyAll(w2, [Enter(d, j)]) == ApplyAll(w3, []) == w3;
    assert ApplyAll(w1, ops[1..]) == ApplyAll(w2, ops[1..][1..]);
  }

  // ---- the objects themselves ----

  /** The context variables of a process and the Koil objects that update them in place. */
  class Process {
    var ambient: map<nat, Seen>
    var own: map<nat, nat>
    ghost var at: map<nat, nat>
    var running: set<nat>
    var loops: seq<LoopState>
    var stopped: seq<nat>

    constructor ()
      ensures State() == Initial
    {
      ambient, own, at, running, loops, stopped := map[], map[], map[], {}, [], [];
    }

    ghost function State(): World
      reads this
    { World(ambient, own, at, running, loops, stopped) }

    method EnterKoil(c: nat, k: nat, inLoop: bool, syncInAsync: bool) returns (ok: bool)
      modifies this
      ensures ok == (inLoop ==> syncInAsync)
      ensures State() == if ok then Apply(old(State()), Enter(c, k)) else old(State())
      ensures ok && c !in old(ambient) ==>
                && loops == old(loops) + [Serving] && own == old(own)[k := old(|loops|)]
                && ambient == old(ambient)[c := Seen(k, old(|loops|), false)]
      ensures !ok || c in old(ambient) ==> loops == old(loops) && own == old(own) && ambient == old(ambient)
    {
      if inLoop && !syncInAsync { return false; }
      if c !in ambient {
        own, at := own[k := |loops|], at[k := c];
        ambient := ambient[c := Seen(k, |loops|, false)];
        loops := loops + [Serving];
      }
      running := running + {k};
      return true;
    }

    /** The loop thread would end `endsAfter` seconds from now, if ever. */
    method ExitKoil(c: nat, k: nat, endsAfter: Option<real>, cancelTimeout: real, joinTimeout: real)
      returns (waited: real)
      requires cancelTimeout >= 0.0 && joinTimeout >= 0.0 && (endsAfter.Some? ==> endsAfter.value >= 0.0)
      modifies this
      ensures State() ==
              Apply(old(State()), Exit(c, k, endsAfter.Some? && endsAfter.value <= cancelTimeout + joinTimeout))
      ensures 0.0 <= waited <= cancelTimeout + joinTimeout
      ensures k !in old(own) ==> waited == 0.0
      ensures k in old(own) ==>
                var l, most := old(own)[k], cancelTimeout + joinTimeout;
                var closes := endsAfter.Some? && endsAfter.value <= most;
                && waited == (if closes then endsAfter.value else most)
                && stopped == old(stopped) + [l] && k !in own && c !in ambient
                && (l < old(|loops|) ==> loops == old(loops)[l := if closes then ClosedDown else Abandoned])
    {
      waited := 0.0;
      if k in own {
        var l := own[k];
        stopped := stopped + [l];
        var alive := endsAfter.None? || endsAfter.value > cancelTimeout;
        waited := if alive then cancelTimeout else endsAfter.value;
        if alive {
          alive := endsAfter.None? || endsAfter.value > cancelTimeout + joinTimeout;
          waited := if alive then cancelTimeout + joinTimeout else endsAfter.value;
        }
        if l < |loops| { loops := loops[l := if alive then Abandoned else ClosedDown]; }
        own, at := own - {k}, at - {k};
        ambient := ambient - {c};
      }
      running := running - {k};
    }

    /** Whatever is done, here and in other contexts, while a block runs. */
    method Run(ops: seq<Op>)
      modifies this
      ensures State() == ApplyAll(old(State()), ops)
    {
      for i := 0 to |ops|
        invariant ApplyAll(old(State()), ops) == ApplyAll(State(), ops[i..])
      {
        assert ops[i..][1..] == ops[i + 1..];
        match ops[i]
        case Enter(c, k) => var _ := EnterKoil(c, k, false, true);
        case Exit(c, k, closes) => var _ := ExitKoil(c, k, if closes then Some(0.0) else None, 0.0, 0.0);
        case Fork(c, d) =>
          ambient := if c in ambient then ambient[d := ambient[c].(copied := true)] else ambient - {d};
      }
    }
  }

  // ---- blocks ----

  /** A block's body in context c: it fits, does not use the block's own Koil, if it has one,
      anywhere, nor in c the one ambient there. */
  predicate BlockBody(w: World, c: nat, mine: Option<nat>, ops: seq<Op>) {
    && FitAll(w, ops) && NotForked(c, ops)
    && forall i :: 0 <= i < |ops| && !ops[i].Fork? ==>
         Some(ops[i].k) != mine && (ops[i].c == c && c in w.ambient ==> ops[i].k != w.ambient[c].koil)
  }

  /** What a body leaves: the same ambient koil in c, and the block's Koil as it was. */
  predicate Undisturbed(w: World, v: World, c: nat, mine: Option<nat>) {
    && (c in w.ambient ==> c in v.ambient && v.ambient[c] == w.ambient[c])
    && (mine.Some? ==> SameOwner(w, v, mine.value))
    && (forall l :: l in w.stopped ==> l in v.stopped)
  }

  predicate SameOwner(w: World, v: World, k: nat) {
    && (k in v.own <==> k in w.own)
    && (k in w.own ==> k in v.own && v.own[k] == w.own[k] && k in w.at && k in v.at && v.at[k] == w.at[k])
  }

  lemma StepLeavesOwner(w: World, op: Op, c: nat, mine: Option<nat>)
    requires Inv(w) && Fits(w, op) && c in w.ambient
    requires if op.Fork? then op.d != c else Some(op.k) != mine && (op.c == c ==> op.k != w.ambient[c].koil)
    ensures Undisturbed(w, Apply(w, op), c, mine)
  {
    if mine.Some? && mine.value in w.own { assert OwnerInv(w, mine.value); }
    if op.Exit? && op.k in w.own { assert OwnerInv(w, op.k); }
    assert SeenInv(w, c);
  }

  lemma {:induction false} BodyLeavesOwner(w: World, c: nat, mine: Option<nat>, ops: seq<Op>)
    requires Inv(w) && c in w.ambient && BlockBody(w, c, mine, ops)
    ensures Inv(ApplyAll(w, ops)) && Undisturbed(w, ApplyAll(w, ops), c, mine)
    decreases |ops|
  {
    if ops != [] {
      var v := Apply(w, ops[0]);
      ApplyKeepsInvIff(w, ops[0]);
      StepLeavesOwner(w, ops[0], c, mine);
      assert forall i :: 0 <= i < |ops[1..]| ==> ops[1..][i] == ops[i + 1];
      BodyLeavesOwner(v, c, mine, ops[1..]);
    } else if mine.Some? && mine.value in w.own {
      assert OwnerInv(w, mine.value);
    }
  }

  /** The world in which the body of a with block runs. */
  function Inside(w: World, c: nat, k: nat): World { if c in w.ambient then w else Apply(w, Enter(c, k)) }

  /** The block's own Koil owns a loop in context c or none. */
  predicate Local(w: World, c: nat, mine: Option<nat>) {
    mine.Some? && mine.value in w.own && mine.value in w.at ==> w.at[mine.value] == c
  }

  /** The Koil a block in context c enters or leaves: the one it starts if none is
      ambient, else the one it believes to own. */
  function Mine(w: World, c: nat, given: nat, noted: Option<nat>): Option<nat> {
    if c !in w.ambient then Some(given) else noted
  }

  /** Entering a block: the Koil that is started, if any, is the ambient one. */
  lemma BlockEntered(w: World, c: nat, given: nat, noted: Option<nat>)
    requires Inv(w) && Local(w, c, Mine(w, c, given, noted))
    ensures var v := Inside(w, c, given);
            && Inv(v) && c in v.ambient && Local(v, c, Mine(w, c, given, noted))
            && (c !in w.ambient ==> given !in w.own && v.own == w.own[given := |w.loops|])
  {
    if given in w.own { assert OwnerInv(w, given); }
    if c !in w.ambient { ApplyKeepsInvIff(w, Enter(c, given)); }
  }

  /** Leaving it again. */
  lemma BlockLeft(w: World, c: nat, mine: Option<nat>, closes: bool)
    requires Inv(w) && Local(w, c, mine) && c in w.ambient && mine.Some?
    ensures var v := Apply(w, Exit(c, mine.value, closes));
            && Inv(v) && mine.value !in v.own
            && (if mine.value in w.own then c !in v.ambient && w.own[mine.value] in v.stopped
                else c in v.ambient && v.ambient[c] == w.ambient[c])
  {
    ApplyKeepsInvIff(w, Exit(c, mine.value, closes));
  }

  /** _KoiledContextManager: `given` is the Koil to start when none is ambient. */
  class KoiledContextManager {
    const given: nat
    var ownKoil: Option<nat>

    constructor (given: nat)
      ensures this.given == given && ownKoil == None
    {
      this.given, ownKoil := given, None;
    }

    /** __enter__; `aenterOk` is whether the wrapped __aenter__ succeeds. The Koil's own
        __enter__ is called outside the try, so its refusal undoes nothing. */
    method EnterCm(p: Process, c: nat, inLoop: bool, syncInAsync: bool, aenterOk: bool, closes: bool) returns (ok: bool)
      modifies this, p
      ensures ok == (aenterOk && !(c !in old(p.ambient) && inLoop && !syncInAsync))
      ensures if c !in old(p.ambient) && inLoop && !syncInAsync
              then p.State() == old(p.State()) && ownKoil == Some(given)
              else
                var w := Inside(old(p.State()), c, given);
                var mine := if c !in old(p.ambient) then Some(given) else old(ownKoil);
                if ok then p.State() == w && ownKoil == mine
                else p.State() == (if mine.Some? then Apply(w, Exit(c, mine.value, closes)) else w) && ownKoil == None
    {
      if c !in p.ambient {
        ownKoil := Some(given);
        var entered := p.EnterKoil(c, given, inLoop, syncInAsync);
        if !entered { return false; }
      }
      if !aenterOk && ownKoil.Some? {
        var _ := p.ExitKoil(c, ownKoil.value, if closes then Some(0.0) else None, 0.0, 0.0);
        ownKoil := None;
      }
      return aenterOk;
    }

    /** __exit__: the owned Koil goes down whether or not __aexit__ raised. */
    method ExitCm(p: Process, c: nat, aexitOk: bool, closes: bool) returns (ok: bool)
      modifies this, p
      ensures ok == aexitOk && ownKoil == None
      ensures p.State() == if old(ownKoil).Some? then Apply(old(p.State()), Exit(c, old(ownKoil).value, closes))
                           else old(p.State())
    {
      if ownKoil.Some? {
        var _ := p.ExitKoil(c, ownKoil.value, if closes then Some(0.0) else None, 0.0, 0.0);
        ownKoil := None;
      }
      return aexitOk;
    }

    /** with koiled_cm(...) in context c, whatever other contexts do meanwhile. If no koil is
        ambient and the Koil to start refuses, nothing happens, but the wrapper goes on
        believing it owns that Koil. Otherwise it ends owning none; the ambient koil
        afterwards is the one before, and the loop started for the block, if any, has been
        told to stop, whichever of __aenter__, the body and __aexit__ fails. The exception
        is the wrapper left over from a refusal: used inside the Koil it was given, it
        stops it. */
    method With(p: Process, c: nat, body: seq<Op>, inLoop: bool, syncInAsync: bool,
                aenterOk: bool, aexitOk: bool, closes: bool)
      returns (ok: bool)
      requires Inv(p.State()) && (ownKoil.None? || ownKoil == Some(given))
      requires Local(p.State(), c, Mine(p.State(), c, given, ownKoil))
      requires BlockBody(Inside(p.State(), c, given), c, Mine(p.State(), c, given, ownKoil), body)
      modifies this, p
      ensures Inv(p.State())
      ensures c !in old(p.ambient) && inLoop && !syncInAsync ==>
                !ok && p.State() == old(p.State()) && ownKoil == Some(given)
      ensures !(c !in old(p.ambient) && inLoop && !syncInAsync) ==>
                && ownKoil.None?
                && if c !in old(p.ambient) then c !in p.ambient && old(|p.loops|) in p.stopped && given !in p.own
                   else if old(ownKoil).Some? && given in old(p.own)
                   then c !in p.ambient && old(p.own)[given] in p.stopped && given !in p.own
                   else
                     && c in p.ambient && p.ambient[c] == old(p.ambient)[c]
                     && (old(ownKoil).Some? ==> given !in p.own)
    {
      ghost var w := p.State();
      ghost var mine := Mine(w, c, given, ownKoil);
      BlockEntered(w, c, given, ownKoil);
      if mine.Some? { BlockLeft(Inside(w, c, given), c, mine, closes); }
      ok := EnterCm(p, c, inLoop, syncInAsync, aenterOk, closes);
      if !ok { return; }
      BodyLeavesOwner(p.State(), c, mine, body);
      p.Run(body);
      if mine.Some? { BlockLeft(p.State(), c, mine, closes); }
      ok := ExitCm(p, c, aexitOk, closes);
    }
  }

  /** The sync methods @koilable adds: `field` is where it keeps the Koil it starts. */
  class Koilable {
    const given: nat
    var field: Option<nat>

    constructor (given: nat)
      ensures this.given == given && field == None
    {
      this.given, field := given, None;
    }

    method EnterObject(p: Process, c: nat, inLoop: bool, syncInAsync: bool, aenterOk: bool, closes: bool)
      returns (ok: bool)
      modifies this, p
      ensures ok == (aenterOk && !(c !in old(p.ambient) && inLoop && !syncInAsync))
      ensures c in old(p.ambient) ==> p.State() == old(p.State()) && field == old(field)
      ensures c !in old(p.ambient) ==>
                && field == (if old(field).None? then Some(given) else old(field))
                && p.State() == if inLoop && !syncInAsync then old(p.State())
                                else
                                  var w := Apply(old(p.State()), Enter(c, field.value));
                                  if ok then w else Apply(w, Exit(c, field.value, closes))
    {
      if c in p.ambient { return aenterOk; }
      if field.None? { field := Some(given); }
      var entered := p.EnterKoil(c, field.value, inLoop, syncInAsync);
      if !entered { return false; }
      if !aenterOk { var _ := p.ExitKoil(c, field.value, if closes then Some(0.0) else None, 0.0, 0.0); }
      return aenterOk;
    }

    /** A raising __aexit__ leaves before the Koil is exited. */
    method ExitObject(p: Process, c: nat, aexitOk: bool, closes: bool) returns (ok: bool)
      modifies p
      ensures ok == aexitOk
      ensures p.State() == if ok && field.Some? then Apply(old(p.State()), Exit(c, field.value, closes))
                           else old(p.State())
    {
      if !aexitOk { return false; }
      if field.Some? { var _ := p.ExitKoil(c, field.value, if closes then Some(0.0) else None, 0.0, 0.0); }
      return true;
    }

    /** with obj: of a koilable object, and exactly when it changes the ambient koil.
        Unlike koiled_cm, an __aexit__ that raises leaves the Koil that was started for the
        block running and ambient; and an object entered again inside its own block
        takes that block's Koil down. */
    method WithObject(p: Process, c: nat, body: seq<Op>, inLoop: bool, syncInAsync: bool,
                      aenterOk: bool, aexitOk: bool, closes: bool)
      returns (ok: bool)
      requires Inv(p.State()) && (field.None? || field == Some(given))
      requires Local(p.State(), c, Mine(p.State(), c, given, field))
      requires BlockBody(Inside(p.State(), c, given), c, Mine(p.State(), c, given, field), body)
      modifies this, p
      ensures Inv(p.State())
      ensures View(p.State(), c) != old(View(p.State(), c)) <==>
              if c in old(p.ambient) then aenterOk && aexitOk && old(field).Some? && given in old(p.own)
              else (inLoop ==> syncInAsync) && aenterOk && !aexitOk
      ensures View(p.State(), c) != old(View(p.State(), c)) ==>
                View(p.State(), c) == if c in old(p.ambient) then None else Some((given, false))
    {
      ghost var w := p.State();
      ghost var mine := Mine(w, c, given, field);
      BlockEntered(w, c, given, field);
      if mine.Some? { BlockLeft(Inside(w, c, given), c, mine, closes); }
      ok := EnterObject(p, c, inLoop, syncInAsync, aenterOk, closes);
      if !ok { return; }
      BodyLeavesOwner(p.State(), c, mine, body);
      p.Run(body);
      if mine.Some? { BlockLeft(p.State(), c, mine, closes); }
      ok := ExitObject(p, c, aexitOk, closes);
    }
  }

  // ---- the loop thread ----

  /** What happens on the stopping loop: a task ends, or it ends with SystemExit or
      KeyboardInterrupt, which the loop lets through. */
  datatype Event = Ends(t: nat, end: End) | Exits(t: nat)

  /** The closing of the async generators that are left. */
  datatype GensFate = GensShut | GensExit | GensHang

  /** `pending` are the tasks over which the loop was closed. */
  datatype Shutdown = NeverCloses | LoopClosed(pending: set<nat>, reported: set<nat>, gensShut: bool)

  predicate Once(evs: seq<Event>) { forall i, j :: 0 <= i < j < |evs| ==> evs[i].t != evs[j].t }

  function EndedIn(evs: seq<Event>): set<nat> { set i | 0 <= i < |evs| :: evs[i].t }

  function FirstExit(evs: seq<Event>): (n: nat)
    ensures n <= |evs| && (n < |evs| ==> evs[n].Exits?) && forall i :: 0 <= i < n ==> evs[i].Ends?
  {
    if evs == [] || evs[0].Exits? then 0 else
      assert forall i :: 0 < i < |evs| ==> evs[i] == evs[1..][i - 1];
      1 + FirstExit(evs[1..])
  }

  lemma EndedInNext(evs: seq<Event>, n: nat)
    requires n < |evs|
    ensures EndedIn(evs[..n + 1]) == EndedIn(evs[..n]) + {evs[n].t}
  {
    forall t | t in EndedIn(evs[..n]) ensures t in EndedIn(evs[..n + 1]) {
      var i :| 0 <= i < n && evs[..n][i].t == t;
      assert evs[..n + 1][i].t == t;
    }
    assert evs[..n + 1][n].t == evs[n].t;
    forall t | t in EndedIn(evs[..n + 1]) ensures t in EndedIn(evs[..n]) + {evs[n].t} {
      var i :| 0 <= i < n + 1 && evs[..n + 1][i].t == t;
      if i < n { assert evs[..n][i].t == t; }
    }
  }

  lemma EndedInGrows(evs: seq<Event>, n: nat, m: nat)
    requires n <= m <= |evs|
    ensures EndedIn(evs[..n]) <= EndedIn(evs[..m])
  {
    forall t | t in EndedIn(evs[..n]) ensures t in EndedIn(evs[..m]) {
      var i :| 0 <= i < n && evs[..n][i].t == t;
      assert evs[..m][i].t == t;
    }
  }

  predicate FailedIn(evs: seq<Event>, t: nat) {
    exists i :: 0 <= i < |evs| && evs[i].t == t && evs[i].Ends? && evs[i].end.Failed?
  }

  /** The run_until_complete of the gather: all tasks done, an exit let through, or neither. */
  datatype Gathered = AllDone(ends: map<nat, End>) | ExitRaised(pending: set<nat>) | StillWaiting

  /** How the tasks ended in the first n events, none of them an exit. */
  predicate Noted(evs: seq<Event>, n: nat, ends: map<nat, End>) {
    && n <= |evs| && ends.Keys == EndedIn(evs[..n])
    && forall i :: 0 <= i < n ==> evs[i].Ends? && evs[i].t in ends && ends[evs[i].t] == evs[i].end
  }

  lemma NotedNext(evs: seq<Event>, n: nat, ends: map<nat, End>)
    requires Once(evs) && Noted(evs, n, ends) && n < |evs| && evs[n].Ends?
    ensures Noted(evs, n + 1, ends[evs[n].t := evs[n].end])
  {
    EndedInNext(evs, n);
  }

  lemma HowEnded(evs: seq<Event>, n: nat, ends: map<nat, End>, t: nat)
    requires Once(evs) && Noted(evs, n, ends) && t in ends
    ensures t in ends && (ends[t].Failed? <==> FailedIn(evs, t))
  {
    var i :| 0 <= i < n && evs[..n][i].t == t;
    assert evs[i].t == t;
  }

  method Gather(tasks: set<nat>, evs: seq<Event>) returns (g: Gathered)
    requires Once(evs)
    ensures var x := FirstExit(evs);
            if tasks <= EndedIn(evs[..x]) then
              g.AllDone? && tasks <= g.ends.Keys && forall t :: t in tasks ==> (g.ends[t].Failed? <==> FailedIn(evs, t))
            else if x < |evs| then g == ExitRaised(tasks - EndedIn(evs[..x + 1]))
            else g.StillWaiting?
  {
    ghost var x := FirstExit(evs);
    var ends: map<nat, End>, n := map[], 0;
    while !(tasks <= ends.Keys)
      invariant 0 <= n <= x && Noted(evs, n, ends)
      decreases |evs| - n
    {
      if n == |evs| { return StillWaiting; }
      if evs[n].Exits? {
        EndedInNext(evs, n);
        return ExitRaised(tasks - (ends.Keys + {evs[n].t}));
      }
      NotedNext(evs, n, ends);
      ends := ends[evs[n].t := evs[n].end];
      n := n + 1;
    }
    EndedInGrows(evs, n, x);
    forall t | t in tasks ensures ends[t].Failed? <==> FailedIn(evs, t) { HowEnded(evs, n, ends, t); }
    return AllDone(ends);
  }

  /** run_threaded_event_loop after the stop, with `tasks` alive and cancelled. The loop is
      closed over none of them iff they all end before any exits, and the async
      generators can be shut down, or the last of them is the first to exit; it is closed
      over some iff one exits while another is pending. */
  method ShutDown(tasks: set<nat>, evs: seq<Event>, gens: GensFate) returns (r: Shutdown)
    requires Once(evs)
    ensures var x := FirstExit(evs);
            if tasks <= EndedIn(evs[..x]) then
              && (r.NeverCloses? <==> gens.GensHang?)
              && (r.LoopClosed? ==>
                    && r.pending == {} && (r.gensShut <==> gens.GensShut?)
                    && forall t :: t in r.reported <==> t in tasks && FailedIn(evs, t))
            else if x < |evs| then r == LoopClosed(tasks - EndedIn(evs[..x + 1]), {}, false)
            else r.NeverCloses?
  {
    var g := Gather(tasks, evs);
    if g.StillWaiting? { return NeverCloses; }
    if g.ExitRaised? { return LoopClosed(g.pending, {}, false); }
    var reported, todo := {}, tasks;
    while todo != {}
      invariant todo <= tasks
      invariant forall t :: t in reported <==> t in tasks && t !in todo && g.ends[t].Failed?
      decreases |todo|
    {
      var t :| t in todo;
      if g.ends[t].Failed? { reported := reported + {t}; }
      todo := todo - {t};
    }
    if gens.GensHang? { return NeverCloses; }
    return LoopClosed({}, reported, gens.GensShut?);
  }
}
