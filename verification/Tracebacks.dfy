/** Traceback pruning at the bridge's boundaries (koil/tracebacks.py). */
module Tracebacks {

  /** Modules, by the two whose frames are transport noise and all others. */
  datatype Module = ConcurrentFuturesBase | ConcurrentFuturesThread | OtherModule(id: nat)

  /** A traceback entry: the frame's __tracebackhide__ local, its module, and the rest. */
  datatype Frame = Frame(hide: bool, mod: Module, pos: int)

  type Traceback = seq<Frame>

  predicate Hidden(f: Frame) {
    f.hide || f.mod.ConcurrentFuturesBase? || f.mod.ConcurrentFuturesThread?
  }

  /** The frames worth showing, in order. */
  function Visible(t: Traceback): Traceback {
    if t == [] then [] else Shown(t[0]) + Visible(t[1..])
  }

  function Shown(f: Frame): Traceback { if Hidden(f) then [] else [f] }

  /** What a prune keeps, before it decides whether that is worth anything. */
  function Kept(t: Traceback, keep: bool): Traceback {
    if t != [] && keep then [t[0]] + Visible(t[1..]) else Visible(t)
  }

  /** _prune_one: left alone if nothing but a boundary marker would remain. */
  function Prune(t: Traceback, keep: bool): Traceback {
    var k := Kept(t, keep);
    if |k| <= (if keep then 1 else 0) then t else k
  }

  /** The loop of _prune_one over the linked entries. */
  method Collect(t: Traceback, keep: bool) returns (kept: Traceback)
    ensures kept == Kept(t, keep)
  {
    kept := [];
    for index := 0 to |t|
      invariant kept == Kept(t[..index], keep)
    {
      KeptSnoc(t[..index], t[index], keep);
      assert t[..index] + [t[index]] == t[..index + 1];
      if (index == 0 && keep) || !Hidden(t[index]) { kept := kept + [t[index]]; }
    }
    assert t[..|t|] == t;
  }

  /** The rebuild of the chain, last entry first. */
  method Rebuild(kept: Traceback) returns (r: Traceback)
    ensures r == kept
  {
    r := [];
    var i := |kept|;
    while i > 0
      invariant 0 <= i <= |kept| && r == kept[i..]
    {
      i := i - 1;
      r := [kept[i]] + r;
    }
  }

  method PruneOne(t: Traceback, keep: bool) returns (r: Traceback)
    ensures r == Prune(t, keep)
    ensures Pruned(t, keep, r)
  {
    KeptIsPruned(t, keep);
    if t == [] { return t; }
    var kept := Collect(t, keep);
    if |kept| <= (if keep then 1 else 0) { return t; }
    r := Rebuild(kept);
  }

  lemma Cut(s: Traceback, t: Traceback)
    requires s != []
    ensures s + t != [] && (s + t)[0] == s[0] && (s + t)[1..] == s[1..] + t
  {
  }

  lemma Associative(a: Traceback, b: Traceback, c: Traceback)
    ensures a + (b + c) == (a + b) + c
  {
  }

  lemma {:induction false} VisibleConcat(s: Traceback, t: Traceback)
    ensures Visible(s + t) == Visible(s) + Visible(t)
  {
    if s == [] {
      assert s + t == t;
    } else {
      calc {
        Visible(s + t);
        { Cut(s, t); }
        Shown(s[0]) + Visible(s[1..] + t);
        { VisibleConcat(s[1..], t); }
        Shown(s[0]) + (Visible(s[1..]) + Visible(t));
        { Associative(Shown(s[0]), Visible(s[1..]), Visible(t)); }
        Visible(s) + Visible(t);
      }
    }
  }

  lemma KeptSnoc(t: Traceback, f: Frame, keep: bool)
    ensures Kept(t + [f], keep) == Kept(t, keep) + (if (t == [] && keep) || !Hidden(f) then [f] else [])
  {
    VisibleConcat(t, [f]);
    if t != [] {
      VisibleConcat(t[1..], [f]);
      assert (t + [f])[1..] == t[1..] + [f];
    }
  }

  lemma {:induction false} VisibleTwice(t: Traceback)
    ensures Visible(Visible(t)) == Visible(t)
  {
    if t != [] {
      VisibleTwice(t[1..]);
      VisibleConcat(Shown(t[0]), Visible(t[1..]));
    }
  }

  lemma VisibleOfKept(t: Traceback, keep: bool)
    ensures Visible(Kept(t, keep)) == Visible(t)
  {
    if t != [] && keep {
      VisibleTwice(t[1..]);
      VisibleConcat([t[0]], Visible(t[1..]));
      VisibleConcat([t[0]], t[1..]);
      assert [t[0]] + t[1..] == t;
    } else {
      VisibleTwice(t);
    }
  }

  lemma VisibleOfPrune(t: Traceback, keep: bool)
    ensures Visible(Prune(t, keep)) == Visible(t)
    ensures Visible(t) == [] ==> Prune(t, keep) == t
  {
    VisibleOfKept(t, keep);
    if Visible(t) == [] && t != [] && keep {
      VisibleConcat([t[0]], t[1..]);
      assert [t[0]] + t[1..] == t;
    }
  }

  lemma KeptConcat(p: Traceback, t: Traceback, keep: bool)
    requires p != [] || !keep
    ensures Kept(p + t, keep) == Kept(p, keep) + Visible(t)
  {
    if p != [] && keep {
      calc {
        Kept(p + t, keep);
        { Cut(p, t); }
        [p[0]] + Visible(p[1..] + t);
        { VisibleConcat(p[1..], t); }
        [p[0]] + (Visible(p[1..]) + Visible(t));
        { Associative([p[0]], Visible(p[1..]), Visible(t)); }
        Kept(p, keep) + Visible(t);
      }
    } else {
      VisibleConcat(p, t);
    }
  }

  /** Absorption: whatever an inner boundary already pruned, in whichever mode, the
      outer boundary produces what it would have produced from the full traceback. */
  lemma PruneAbsorbs(p: Traceback, t: Traceback, inner: bool, outer: bool)
    requires p != [] || !outer
    ensures Prune(p + Prune(t, inner), outer) == Prune(p + t, outer)
  {
    VisibleOfPrune(t, inner);
    KeptConcat(p, t, outer);
    KeptConcat(p, Prune(t, inner), outer);
    // Both keep the same frames; where those are too few, t has none to show and was not pruned.
    if Visible(t) != [] { assert |Kept(p + t, outer)| > (if outer then 1 else 0); }
  }

  /** A boundary an exception crosses: the frames it adds, its catching frame in front, and
      whether its prune keeps that one. The loop side's does not. */
  datatype Boundary = Boundary(frames: Traceback, keep: bool)

  /** Crossing a list of boundaries, innermost first. */
  function Crossed(bs: seq<Boundary>, t: Traceback): Traceback
    decreases |bs|
  {
    if bs == [] then t
    else
      var n := |bs| - 1;
      Prune(bs[n].frames + Crossed(bs[..n], t), bs[n].keep)
  }

  function Stacked(bs: seq<Boundary>, t: Traceback): Traceback
    decreases |bs|
  {
    if bs == [] then t else bs[|bs| - 1].frames + Stacked(bs[..|bs| - 1], t)
  }

  /** Any number of nested boundaries, each in its own mode, shows what one final prune in
      the mode of the outermost would show. */
  lemma {:induction false} NestedBoundaries(bs: seq<Boundary>, t: Traceback)
    requires bs != [] && forall i :: 0 <= i < |bs| && bs[i].keep ==> bs[i].frames != []
    ensures Crossed(bs, t) == Prune(Stacked(bs, t), bs[|bs| - 1].keep)
    decreases |bs|
  {
    var n := |bs| - 1;
    if n > 0 {
      NestedBoundaries(bs[..n], t);
      PruneAbsorbs(bs[n].frames, Stacked(bs[..n], t), bs[n - 1].keep, bs[n].keep);
    }
  }

  /** u is t with frames left out. */
  predicate Subsequence(u: Traceback, t: Traceback)
    decreases |t|
  {
    u == [] || (t != [] && ((u[0] == t[0] && Subsequence(u[1..], t[1..])) || Subsequence(u, t[1..])))
  }

  lemma {:induction false} VisibleIsSubsequence(t: Traceback)
    ensures Subsequence(Visible(t), t)
  {
    if t != [] {
      VisibleIsSubsequence(t[1..]);
      assert if Hidden(t[0]) then Visible(t) == Visible(t[1..]) else Visible(t)[1..] == Visible(t[1..]);
    }
  }

  lemma {:induction false} SubsequenceOfSelf(t: Traceback)
    ensures Subsequence(t, t)
  {
    if t != [] { SubsequenceOfSelf(t[1..]); }
  }

  /** Pruning again changes nothing, only drops frames, keeps their order, never
      empties a traceback and keeps the boundary frame in front when asked to. */
  lemma PruneLaws(t: Traceback, keep: bool)
    ensures Prune(Prune(t, keep), keep) == Prune(t, keep)
    ensures Subsequence(Prune(t, keep), t)
    ensures t != [] ==> Prune(t, keep) != []
    ensures t != [] && keep ==> Prune(t, keep)[0] == t[0]
  {
    SubsequenceOfSelf(t);
    if t != [] && keep {
      VisibleTwice(t[1..]);
      VisibleIsSubsequence(t[1..]);
      var k := Kept(t, keep);
      assert k[1..] == Visible(t[1..]);
    } else {
      VisibleTwice(t);
      VisibleIsSubsequence(t);
    }
  }

  // ---- what a prune owes, frame by frame ----

  /** Neither the program's own __tracebackhide__ nor the transport's module. */
  predicate Telling(f: Frame) { !f.hide && f.mod != ConcurrentFuturesBase && f.mod != ConcurrentFuturesThread }

  /** If any frame, beyond a boundary frame that is kept, is worth showing, then r is t
      without the others: no hidden frame is left, every other one is, as often as before
      and in order, and the boundary stays in front. If none is, r is t. */
  ghost predicate Pruned(t: Traceback, keep: bool, r: Traceback) {
    var from := if keep then 1 else 0;
    if exists i :: from <= i < |t| && Telling(t[i]) then
      && (forall i :: from <= i < |r| ==> Telling(r[i]))
      && (keep ==> r != [] && r[0] == t[0])
      && SameCounts(r, t)
      && Subsequence(r, t)
    else r == t
  }

  lemma FirstFrame(t: Traceback)
    requires t != []
    ensures t == [t[0]] + t[1..] && multiset(t) == multiset{t[0]} + multiset(t[1..])
  {
    assert t == [t[0]] + t[1..];
  }

  lemma {:induction false} VisibleIsTelling(t: Traceback)
    ensures forall i :: 0 <= i < |Visible(t)| ==> Telling(Visible(t)[i])
  {
    if t != [] { VisibleIsTelling(t[1..]); }
  }

  lemma {:induction false} VisibleIfTelling(t: Traceback)
    ensures Visible(t) == [] <==> forall i :: 0 <= i < |t| ==> !Telling(t[i])
  {
    if t != [] {
      VisibleIfTelling(t[1..]);
      assert forall i :: 0 < i < |t| ==> t[i] == t[1..][i - 1];
    }
  }

  lemma {:induction false} VisibleCounts(t: Traceback, f: Frame)
    requires Telling(f)
    ensures multiset(Visible(t))[f] == multiset(t)[f]
  {
    if t != [] {
      FirstFrame(t);
      VisibleCounts(t[1..], f);
    }
  }

  lemma {:induction false} SubsequenceCounts(u: Traceback, t: Traceback, f: Frame)
    requires Subsequence(u, t)
    ensures multiset(u)[f] <= multiset(t)[f]
    decreases |t|
  {
    if u != [] {
      FirstFrame(t);
      FirstFrame(u);
      if u[0] == t[0] && Subsequence(u[1..], t[1..]) {
        SubsequenceCounts(u[1..], t[1..], f);
      } else {
        SubsequenceCounts(u, t[1..], f);
      }
    }
  }

  lemma {:induction false} SubsequenceTail(u: Traceback, t: Traceback)
    requires Subsequence(u, t) && u != []
    ensures Subsequence(u[1..], t)
    decreases |t|
  {
    if !(u[0] == t[0] && Subsequence(u[1..], t[1..])) { SubsequenceTail(u, t[1..]); }
  }

  lemma SubsequenceRest(u: Traceback, t: Traceback)
    requires Subsequence(u, t) && u != [] && t != [] && u[0] == t[0]
    ensures Subsequence(u[1..], t[1..])
  {
    if !Subsequence(u[1..], t[1..]) { SubsequenceTail(u, t[1..]); }
  }

  /** The same frames worth showing, equally often. */
  ghost predicate SameCounts(r: Traceback, t: Traceback) {
    forall f :: Telling(f) ==> multiset(r)[f] == multiset(t)[f]
  }

  lemma SameCountsBehind(x: Frame, r: Traceback, t: Traceback)
    requires SameCounts([x] + r, [x] + t)
    ensures SameCounts(r, t)
  {
    forall f | Telling(f) ensures multiset(r)[f] == multiset(t)[f] {
      assert multiset([x] + r)[f] == multiset([x] + t)[f];
    }
  }

  lemma SkipCounts(x: Frame, r: Traceback, t: Traceback)
    requires SameCounts(r, [x] + t) && !Telling(x)
    ensures SameCounts(r, t)
  {
    forall f | Telling(f) ensures multiset(r)[f] == multiset(t)[f] { assert multiset(r)[f] == multiset([x] + t)[f]; }
  }

  lemma StartsAlike(x: Frame, r: Traceback, t: Traceback)
    requires Telling(x) && SameCounts(r, [x] + t) && Subsequence(r, [x] + t)
    ensures r != [] && r[0] == x
  {
    assert multiset(r)[x] == multiset([x] + t)[x] > 0;
    assert ([x] + t)[1..] == t;
    if r[0] != x { SubsequenceCounts(r, t, x); }
  }

  lemma {:induction false} OnlyVisible(r: Traceback, t: Traceback)
    requires Subsequence(r, t) && SameCounts(r, t) && forall i :: 0 <= i < |r| ==> Telling(r[i])
    ensures r == Visible(t)
    decreases |t|
  {
    if t != [] {
      FirstFrame(t);
      if !Telling(t[0]) {
        SkipCounts(t[0], r, t[1..]);
        OnlyVisible(r, t[1..]);
      } else {
        StartsAlike(t[0], r, t[1..]);
        FirstFrame(r);
        SameCountsBehind(t[0], r[1..], t[1..]);
        SubsequenceRest(r, t);
        OnlyVisible(r[1..], t[1..]);
      }
    }
  }

  /** Both halves, for what lies behind a boundary frame and for a whole traceback. */
  lemma ShownBehind(x: Frame, t: Traceback)
    requires Visible(t) != []
    ensures Pruned([x] + t, true, [x] + Visible(t))
  {
    var u, k := [x] + t, [x] + Visible(t);
    VisibleIsTelling(t);
    VisibleIfTelling(t);
    VisibleIsSubsequence(t);
    assert u[1..] == t && k[1..] == Visible(t);
    forall f | Telling(f) ensures multiset(k)[f] == multiset(u)[f] { VisibleCounts(t, f); }
    assert forall i :: 1 <= i < |k| ==> k[i] == Visible(t)[i - 1];
    assert exists i :: 1 <= i < |u| && Telling(u[i]) by {
      var j :| 0 <= j < |t| && Telling(t[j]);
      assert u[j + 1] == t[j];
    }
  }

  lemma ShownAll(t: Traceback)
    requires Visible(t) != []
    ensures Pruned(t, false, Visible(t))
  {
    VisibleIsTelling(t);
    VisibleIfTelling(t);
    VisibleIsSubsequence(t);
    forall f | Telling(f) ensures multiset(Visible(t))[f] == multiset(t)[f] { VisibleCounts(t, f); }
  }

  lemma NothingShown(t: Traceback, keep: bool)
    requires Visible(if keep && t != [] then t[1..] else t) == []
    ensures Pruned(t, keep, t) && !exists i :: (if keep then 1 else 0) <= i < |t| && Telling(t[i])
  {
    VisibleIfTelling(if keep && t != [] then t[1..] else t);
    if keep { assert forall i :: 1 <= i < |t| ==> t[i] == t[1..][i - 1]; }
  }

  lemma KeptIsPruned(t: Traceback, keep: bool)
    ensures Pruned(t, keep, Prune(t, keep))
  {
    if Visible(if keep && t != [] then t[1..] else t) == [] {
      NothingShown(t, keep);
    } else if keep && t != [] {
      ShownBehind(t[0], t[1..]);
      assert [t[0]] + t[1..] == t;
    } else {
      ShownAll(t);
    }
  }

  /** The demands on a prune that keeps the boundary frame x, without it. */
  lemma WithoutBoundary(x: Frame, t: Traceback, r: Traceback) returns (q: Traceback)
    requires Pruned([x] + t, true, r) && Visible(t) != []
    ensures r == [x] + q && Subsequence(q, t)
    ensures forall i :: 0 <= i < |q| ==> Telling(q[i])
    ensures SameCounts([x] + q, [x] + t)
  {
    var u := [x] + t;
    VisibleIfTelling(t);
    var j :| 0 <= j < |t| && Telling(t[j]);
    assert 1 <= j + 1 < |u| && Telling(u[j + 1]);
    q := r[1..];
    assert r == [x] + q;
    assert u[1..] == t;
    SubsequenceRest(r, u);
    forall i | 0 <= i < |q| ensures Telling(q[i]) { assert q[i] == r[i + 1]; }
  }

  lemma PrunedBehind(x: Frame, t: Traceback, r: Traceback)
    requires Pruned([x] + t, true, r) && Visible(t) != []
    ensures r == [x] + Visible(t)
  {
    var q := WithoutBoundary(x, t, r);
    SameCountsBehind(x, q, t);
    OnlyVisible(q, t);
  }

  lemma PrunedAll(t: Traceback, r: Traceback)
    requires Pruned(t, false, r) && Visible(t) != []
    ensures r == Visible(t)
  {
    VisibleIfTelling(t);
    OnlyVisible(r, t);
  }

  /** These demands are met by pruning, and by nothing else. */
  lemma PruneIff(t: Traceback, keep: bool, r: Traceback)
    ensures Pruned(t, keep, r) <==> r == Prune(t, keep)
  {
    KeptIsPruned(t, keep);
    if Pruned(t, keep, r) {
      if Visible(if keep && t != [] then t[1..] else t) == [] {
        NothingShown(t, keep);
      } else if keep && t != [] {
        assert [t[0]] + t[1..] == t;
        PrunedBehind(t[0], t[1..], r);
      } else {
        PrunedAll(t, r);
      }
    }
  }

  // ---- the walk over chained exceptions ----

  class Exc {
    var traceback: Traceback
    var cause: Exc?
    var context: Exc?

    constructor ()
      ensures traceback == [] && cause == null && context == null
    {
      traceback, cause, context := [], null, null;
    }
  }

  /** The links of a set of exceptions: cause and context of each. */
  type Graph = map<Exc, (Exc?, Exc?)>

  ghost function Links(all: set<Exc>): Graph
    reads all`cause, all`context
  { map e | e in all :: (e.cause, e.context) }

  /** All chained exceptions of anything in the graph are in it. */
  ghost predicate Closed(g: Graph) {
    forall e :: e in g ==> (g[e].0 == null || g[e].0 in g) && (g[e].1 == null || g[e].1 in g)
  }

  ghost predicate ReachedIn(g: Graph, root: Exc, e: Exc, n: nat) {
    if n == 0 then e == root
    else exists m :: m in g && ReachedIn(g, root, m, n - 1) && (g[m].0 == e || g[m].1 == e)
  }

  /** e is root or chained to it, over any number of cause and context links. */
  ghost predicate Reached(g: Graph, root: Exc, e: Exc) { exists n: nat :: ReachedIn(g, root, e, n) }

  lemma ReachedNext(g: Graph, root: Exc, m: Exc, e: Exc)
    requires m in g && Reached(g, root, m) && (g[m].0 == e || g[m].1 == e)
    ensures Reached(g, root, e)
  {
    var n: nat :| ReachedIn(g, root, m, n);
    assert ReachedIn(g, root, e, n + 1);
  }

  /** A link of a seen exception that is dealt with: absent, seen, or still to come. */
  predicate Handled(link: Exc?, seen: set<Exc>, stack: seq<(Exc?, bool)>) {
    link == null || link in seen || (link, false) in stack
  }

  lemma {:induction false} ReachedIsSeen(g: Graph, seen: set<Exc>, root: Exc, e: Exc, n: nat)
    requires root in seen && seen <= g.Keys && ReachedIn(g, root, e, n)
    requires forall m :: m in seen ==> Handled(g[m].0, seen, []) && Handled(g[m].1, seen, [])
    ensures e in seen
  {
    if n > 0 {
      var m :| m in g && ReachedIn(g, root, m, n - 1) && (g[m].0 == e || g[m].1 == e);
      ReachedIsSeen(g, seen, root, m, n - 1);
    }
  }

  /** The frontier of the walk: what is seen or stacked is reachable, every link out of
      a seen exception is handled, and the root comes first, with its own flag. */
  ghost predicate Frontier(g: Graph, root: Exc, keep: bool, seen: set<Exc>, stack: seq<(Exc?, bool)>) {
    && root in g && Closed(g) && seen <= g.Keys
    && (if root in seen then forall x :: x in stack ==> !x.1 else seen == {} && stack == [(root, keep)])
    && (forall x :: x in stack && x.0 != null ==> x.0 in g && Reached(g, root, x.0))
    && (forall e :: e in seen ==> Reached(g, root, e))
    && (forall e :: e in seen ==> Handled(g[e].0, seen, stack) && Handled(g[e].1, seen, stack))
  }

  lemma SkipKeeps(g: Graph, root: Exc, keep: bool, seen: set<Exc>, stack: seq<(Exc?, bool)>, top: (Exc?, bool))
    requires Frontier(g, root, keep, seen, stack + [top]) && (top.0 == null || top.0 in seen)
    ensures Frontier(g, root, keep, seen, stack)
  {
    assert top in stack + [top];
    forall x | x in stack ensures x in stack + [top] { }
  }

  lemma VisitKeeps(g: Graph, root: Exc, keep: bool, seen: set<Exc>, stack: seq<(Exc?, bool)>, cur: Exc, k: bool)
    requires Frontier(g, root, keep, seen, stack + [(cur, k)]) && cur !in seen
    ensures cur in g && k == (keep && cur == root)
    ensures Frontier(g, root, keep, seen + {cur}, stack + [(g[cur].0, false), (g[cur].1, false)])
  {
    var before := stack + [(cur, k)];
    assert (cur, k) in before;
    var after := stack + [(g[cur].0, false), (g[cur].1, false)];
    if root !in seen { assert before[0] == (root, keep) && stack == []; }
    forall x | x in stack ensures x in before { }
    if g[cur].0 != null { ReachedNext(g, root, cur, g[cur].0); }
    if g[cur].1 != null { ReachedNext(g, root, cur, g[cur].1); }
    assert after[|stack|] == (g[cur].0, false) && after[|stack| + 1] == (g[cur].1, false);
    forall x | x in before && x != (cur, k) ensures x in after { }
  }

  lemma EmptyFrontier(g: Graph, root: Exc, keep: bool, seen: set<Exc>)
    requires Frontier(g, root, keep, seen, [])
    ensures forall e :: e in g ==> (e in seen <==> Reached(g, root, e))
  {
    forall e | e in g && Reached(g, root, e) ensures e in seen {
      var n: nat :| ReachedIn(g, root, e, n);
      ReachedIsSeen(g, seen, root, e, n);
    }
  }

  /** Exactly the seen exceptions are pruned; `was` holds the tracebacks before. */
  ghost predicate PrunedSoFar(was: map<Exc, Traceback>, root: Exc, keep: bool, seen: set<Exc>)
    reads was.Keys`traceback
  {
    forall e :: e in was ==> e.traceback == if e in seen then Prune(was[e], keep && e == root) else was[e]
  }

  lemma PrunedAsOwed(was: map<Exc, Traceback>, root: Exc, keep: bool, seen: set<Exc>)
    requires PrunedSoFar(was, root, keep, seen)
    ensures forall e :: e in was && e in seen ==> Pruned(was[e], keep && e == root, e.traceback)
  {
    forall e | e in was && e in seen ensures Pruned(was[e], keep && e == root, e.traceback) {
      PruneIff(was[e], keep && e == root, e.traceback);
    }
  }

  /** _prune_one on one of them. */
  method Visit(current: Exc, k: bool,
               ghost was: map<Exc, Traceback>, ghost root: Exc, ghost keep: bool, ghost seen: set<Exc>)
    requires current in was && current !in seen && k == (keep && current == root)
    requires PrunedSoFar(was, root, keep, seen)
    modifies current`traceback
    ensures PrunedSoFar(was, root, keep, seen + {current})
  {
    var pruned := PruneOne(current.traceback, k);
    current.traceback := pruned;
  }

  /** One turn of the loop. */
  method Turn(seen: set<Exc>, stack: seq<(Exc?, bool)>,
              ghost g: Graph, ghost was: map<Exc, Traceback>, ghost root: Exc, ghost keep: bool)
    returns (seen': set<Exc>, stack': seq<(Exc?, bool)>)
    requires stack != [] && Frontier(g, root, keep, seen, stack)
    requires was.Keys == g.Keys && PrunedSoFar(was, root, keep, seen)
    requires forall e :: e in g ==> g[e] == (e.cause, e.context)
    modifies was.Keys`traceback
    ensures Frontier(g, root, keep, seen', stack') && PrunedSoFar(was, root, keep, seen')
    ensures (seen' == seen && |stack'| < |stack|) || seen < seen' <= g.Keys
  {
    var rest, top := stack[..|stack| - 1], stack[|stack| - 1];
    assert stack == rest + [top];
    var (current, k) := top;
    if current == null || current in seen {
      SkipKeeps(g, root, keep, seen, rest, top);
      return seen, rest;
    }
    VisitKeeps(g, root, keep, seen, rest, current, k);
    Visit(current, k, was, root, keep, seen);
    seen' := seen + {current};
    stack' := rest + [(current.cause, false), (current.context, false)];
  }

  /** prune_traceback on any finite graph of chained exceptions, cycles included: it
      terminates, prunes exactly what is reachable from the root, each once, with the
      boundary frame kept for the root alone, and touches nothing else. */
  method PruneTraceback(exc: Exc, keep: bool, ghost all: set<Exc>)
    requires exc in all && Closed(Links(all))
    modifies all`traceback
    ensures forall e :: e in all ==>
              if Reached(Links(all), exc, e) then Pruned(old(e.traceback), keep && e == exc, e.traceback)
              else e.traceback == old(e.traceback)
    ensures forall e :: e in all ==>
              e.traceback == if Reached(Links(all), exc, e) then Prune(old(e.traceback), keep && e == exc)
                             else old(e.traceback)
  {
    var seen: set<Exc> := {};
    var stack: seq<(Exc?, bool)> := [(exc, keep)];
    ghost var g := Links(all);
    ghost var was: map<Exc, Traceback> := map e | e in all :: e.traceback;
    assert ReachedIn(g, exc, exc, 0);
    while stack != []
      invariant Frontier(g, exc, keep, seen, stack) && PrunedSoFar(was, exc, keep, seen)
      invariant forall e :: e in all ==> g[e] == (e.cause, e.context)
      decreases all - seen, |stack|
    {
      seen, stack := Turn(seen, stack, g, was, exc, keep);
    }
    EmptyFrontier(g, exc, keep, seen);
    assert Links(all) == g;
    PrunedAsOwed(was, exc, keep, seen);
  }
}
