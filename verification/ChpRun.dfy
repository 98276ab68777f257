/**
 The invariant of a running statement, and its preservation by every event of every slot.
 */
module ChpRun {
  import opened Prelude
  import opened ChpLang
  import opened ChpGraph
  import opened ChpControl
  import opened ChpMove
  import opened ChpTerm
  import opened ChpWork
  import opened ChpSim

  /** The graph of a compiled statement. */
  predicate Compiled(g: seq<Node>, c: Cmd, lay: Lay)
  {
    && Of(c, lay) && Sound(lay) && Faithful(lay) && Links(g, lay, None) && ChainsDown(g)
  }

  /** The pool lists exactly the free slots, without repeats, behind the used ones. */
  ghost predicate Pool<S>(m: Mach<S>)
  {
    && |m.holes| == |m.pc| && m.used <= |m.pc|
    && (forall i | 0 <= i < m.used :: m.holes[i] == -1)
    && (forall i | m.used <= i < |m.pc| :: 0 <= m.holes[i] < |m.pc| && m.pc[m.holes[i]].None?)
    && (forall i, j | m.used <= i < j < |m.pc| :: m.holes[i] != m.holes[j])
    && (forall s | 0 <= s < |m.pc| && m.pc[s].None? :: Pooled(m, s))
  }

  ghost predicate Pooled<S>(m: Mach<S>, s: nat)
  {
    exists i | m.used <= i < |m.holes| :: m.holes[i] == s
  }

  /** The slots hold the nodes the control tree says. */
  ghost predicate Placed<S>(lay: Lay, m: Mach<S>, c: Ctl)
  {
    && Fit(lay, c)
    && (forall s | s in Slots(c) :: s < |m.pc|)
    && (forall s | 0 <= s < |m.pc| :: m.pc[s] == if s in Slots(c) then Some(At(lay, c, s)) else None)
  }

  ghost predicate Counted<S>(lay: Lay, m: Mach<S>, c: Ctl)
  {
    && Fit(lay, c)
    && (forall x | x in Ids(lay) :: x < |m.tot|)
    && (forall x | 0 <= x < |m.tot| :: m.tot[x] == Count(lay, c, x))
  }

  ghost predicate Inv<S>(lay: Lay, m: Mach<S>, c: Ctl)
  {
    Placed(lay, m, c) && Counted(lay, m, c) && Pool(m) && m.used == Leaves(c)
  }

  // ----- the pool

  lemma ReleasePool<S>(m: Mach<S>, s: nat)
    requires Pool(m) && s < |m.pc| && m.pc[s].Some? && m.used > 0
    ensures Release(m, s).Some? && Pool(Release(m, s).value)
  {
    var m' := Release(m, s).value;
    forall t | 0 <= t < |m.pc| && m'.pc[t].None? ensures Pooled(m', t) {
      if t == s {
        assert m'.holes[m.used - 1] == s;
      } else {
        assert Pooled(m, t);
        var i :| m.used <= i < |m.holes| && m.holes[i] == t;
        assert m'.holes[i] == t;
      }
    }
  }

  lemma TakePool<S>(m: Mach<S>, node: Option<nat>)
    requires Pool(m) && m.used < |m.pc| && node.Some?
    ensures Take(m).Some?
    ensures var (m', t) := Take(m).value;
            && t < |m.pc| && m.pc[t].None? && m' == m.(holes := m'.holes, used := m.used + 1)
            && Pool(m'.(pc := m.pc[t := node]))
  {
    var (m', t) := Take(m).value;
    var m'' := m'.(pc := m.pc[t := node]);
    forall s | 0 <= s < |m.pc| && m''.pc[s].None? ensures Pooled(m'', s) {
      assert Pooled(m, s);
      var i :| m.used <= i < |m.holes| && m.holes[i] == s;
      assert m''.holes[i] == s;
    }
  }

  lemma MovePool<S>(m: Mach<S>, s: nat, node: Option<nat>)
    requires Pool(m) && s < |m.pc| && m.pc[s].Some? && node.Some?
    ensures Pool(m.(pc := m.pc[s := node]))
  {
    var m' := m.(pc := m.pc[s := node]);
    forall t | 0 <= t < |m.pc| && m'.pc[t].None? ensures Pooled(m', t) {
      assert Pooled(m, t);
      var i :| m.used <= i < |m.holes| && m.holes[i] == t;
      assert m'.holes[i] == t;
    }
  }

  lemma SamePool<S>(m: Mach<S>, tot: seq<nat>, store: S)
    requires Pool(m)
    ensures Pool(m.(tot := tot, store := store))
  {
    var m' := m.(tot := tot, store := store);
    forall t | 0 <= t < |m.pc| && m'.pc[t].None? ensures Pooled(m', t) {
      assert Pooled(m, t);
      var i :| m.used <= i < |m.holes| && m.holes[i] == t;
      assert m'.holes[i] == t;
    }
  }

  // ----- what is at a leaf

  lemma {:induction false} LeafIs(g: seq<Node>, lay: Lay, c: Ctl, s: nat, k: Option<nat>) returns (kl: Option<nat>)
    requires Sound(lay) && Faithful(lay) && Links(g, lay, k) && Fit(lay, c) && s in Slots(c)
    ensures var (l, d) := Leaf(lay, c, s);
            && Sound(l) && Faithful(l) && Links(g, l, kl) && Fit(l, d) && (d == Here(s) || d == Fin(s))
            && At(lay, c, s) == At(l, d, s) && At(lay, c, s) < |g|
            && (g[At(lay, c, s)].stmt.None? <==> d.Fin?)
            && Ids(l) <= Ids(lay)
    decreases c
  {
    hide NodesApart, IdsApart, SlotsApart;
    match c
    case In(i, d) =>
      SubNodes(lay.ls, i);
      kl := LeafIs(g, lay.ls[i], d, s,
                   Cont(lay, i, k));
    case Many(cs) =>
      SubNodes(lay.ls, Owner(cs, s));
      kl := LeafIs(g, lay.ls[Owner(cs, s)], cs[Owner(cs, s)], s, Some(lay.join));
    case _ => kl := k;
  }

  /** The invariant after a move of slot s along `next`. */
  lemma {:induction false} InvMoved<S>(g: seq<Node>, lay: Lay, m: Mach<S>, c: Ctl, c': Ctl, s: nat)
    requires Inv(lay, m, c) && s in Slots(c) && At(lay, c, s) < |g|
    requires g[At(lay, c, s)].next.Some? && !(g[At(lay, c, s)].stmt.Some? && g[At(lay, c, s)].stmt.value.SCond?)
    requires Moved(g, lay, c, c', s, g[At(lay, c, s)].next.value)
    ensures UpdatePc(g, m, s).Some? && Inv(lay, UpdatePc(g, m, s).value, c')
  {
    hide SlotsApart, AllOff, Fit, Slots, At, Count, Leaves, Pool, Relocated, Joined, SameCounts, Release, Ids;
    var t := g[At(lay, c, s)].next.value;
    if g[t].wait == 0 {
      InvPassed(lay, m, c, c', s, t);
    } else {
      InvJoined(lay, m, c, c', s, t, g[t].wait, g[t].totidx);
    }
  }

  lemma {:induction false} InvPassed<S>(lay: Lay, m: Mach<S>, c: Ctl, c': Ctl, s: nat, t: nat)
    requires Inv(lay, m, c) && s in Slots(c) && Fit(lay, c') && Relocated(lay, c, c', s, t) && SameCounts(lay, c, c')
    ensures s < |m.pc| && Inv(lay, m.(pc := m.pc[s := Some(t)]), c')
  {
    hide SlotsApart, AllOff, Fit, Slots, At, Count, Leaves, Pool;
    InvRelocated(lay, m, c, c', s, t, m.tot);
    assert m.(pc := m.pc[s := Some(t)], tot := m.tot) == m.(pc := m.pc[s := Some(t)]);
  }

  lemma {:induction false} InvJoined<S>(lay: Lay, m: Mach<S>, c: Ctl, c': Ctl, s: nat, t: nat, wait: nat, x: nat)
    requires Inv(lay, m, c) && s in Slots(c) && Fit(lay, c') && Joined(lay, c, c', s, t, wait, x)
    ensures s < |m.pc| && x < |m.tot| && m.tot[x] < wait
    ensures m.tot[x] + 1 == wait ==> Inv(lay, m.(pc := m.pc[s := Some(t)], tot := m.tot[x := 0]), c')
    ensures m.tot[x] + 1 < wait ==>
              var r := Release(m.(tot := m.tot[x := m.tot[x] + 1]), s); r.Some? && Inv(lay, r.value, c')
  {
    hide SlotsApart, AllOff, Fit, Slots, At, Count, Leaves, Pool, Release, Relocated, Released;
    if m.tot[x] + 1 == wait {
      InvRelocated(lay, m, c, c', s, t, m.tot[x := 0]);
    } else {
      InvReleased(lay, m, c, c', s, m.tot[x := m.tot[x] + 1]);
    }
  }

  lemma {:induction false} InvRelocated<S>(lay: Lay, m: Mach<S>, c: Ctl, c': Ctl, s: nat, t: nat, tot: seq<nat>)
    requires Inv(lay, m, c) && s in Slots(c) && Fit(lay, c') && Relocated(lay, c, c', s, t)
    requires |tot| == |m.tot| && forall x | 0 <= x < |tot| :: tot[x] == Count(lay, c', x)
    ensures Inv(lay, m.(pc := m.pc[s := Some(t)], tot := tot), c')
  {
    hide Fit, Slots, At, Count, Leaves, Pool, Ids;
    SamePool(m, tot, m.store);
    MovePool(m.(tot := tot), s, Some(t));
  }

  lemma {:induction false} InvReleased<S>(lay: Lay, m: Mach<S>, c: Ctl, c': Ctl, s: nat, tot: seq<nat>)
    requires Inv(lay, m, c) && s in Slots(c) && Fit(lay, c') && Released(lay, c, c', s)
    requires |tot| == |m.tot| && forall x | 0 <= x < |tot| :: tot[x] == Count(lay, c', x)
    ensures Release(m.(tot := tot), s).Some? && Inv(lay, Release(m.(tot := tot), s).value, c')
  {
    hide Fit, Slots, At, Count, Leaves, Pool, Ids, Release;
    LeafCount(c, s);
    SamePool(m, tot, m.store);
    ReleasePool(m.(tot := tot), s);
    ReleaseShape(m.(tot := tot), s);
  }

  lemma ReleaseShape<S>(m: Mach<S>, s: nat)
    requires Release(m, s).Some?
    ensures var m' := Release(m, s).value;
            s < |m.pc| && m'.pc == m.pc[s := None] && m'.tot == m.tot && m'.used == m.used - 1 && m'.store == m.store
  {
  }

  lemma LeafCount(c: Ctl, s: nat)
    requires s in Slots(c)
    ensures Leaves(c) > 0
  {
    match c
    case Many(cs) =>
      var j := Owner(cs, s);
      LeafCount(cs[j], s);
      SumLeavesSet(cs, j, Off);
    case _ =>
  }

  // ----- one move of a thread

  lemma {:induction false} UpFitsStay(lay: Lay, c: Ctl, s: nat, n: Ctl)
    requires Sound(lay) && Fit(lay, c) && s in Slots(c)
    requires Fit(Leaf(lay, c, s).0, n) && !n.Off? && s in Slots(n) && (Slots(n) - {s}) !! Slots(c)
    requires forall x :: Count(Leaf(lay, c, s).0, n, x) == 0
    ensures UpFits(lay, c, s, Stay(n))
    decreases c
  {
    hide NodesApart, IdsApart, SlotsApart;
    UpStay(lay, c, s, n);
    match c
    case In(i, d) => UpFitsStay(lay.ls[i], d, s, n);
    case Many(cs) =>
      assert Slots(cs[Owner(cs, s)]) <= Slots(c);
      UpFitsStay(lay.ls[Owner(cs, s)], cs[Owner(cs, s)], s, n);
    case _ =>
  }

  lemma {:induction false} UpFitsExit(g: seq<Node>, lay: Lay, c: Ctl, s: nat, k: Option<nat>)
    requires Sound(lay) && Links(g, lay, k) && Fit(lay, c) && s in Slots(c) && Leaving(Leaf(lay, c, s))
    ensures UpFits(lay, c, s, Exit)
    decreases c
  {
    hide NodesApart, IdsApart, SlotsApart;
    UpExit(g, lay, c, s, k);
    match c
    case In(i, d) =>
      UpFitsExit(g, lay.ls[i], d, s,
                 Cont(lay, i, k));
    case Many(cs) => UpFitsExit(g, lay.ls[Owner(cs, s)], cs[Owner(cs, s)], s, Some(lay.join));
    case _ =>
  }

  ghost function LeafTerm(lay: Lay, c: Ctl, s: nat): Cmd
    requires Fit(lay, c) && s in Slots(c) && Sound(Leaf(lay, c, s).0) && Fit(Leaf(lay, c, s).0, Leaf(lay, c, s).1)
  {
    Term(Leaf(lay, c, s).0, Leaf(lay, c, s).1)
  }

  /** The thread in slot s leaves its node along `next`: the slots, the pool and the counters. */
  lemma {:induction false} LeaveInv<S>(g: seq<Node>, lay: Lay, m: Mach<S>, c: Ctl, s: nat)
    requires Sound(lay) && Faithful(lay) && Links(g, lay, None)
    requires Inv(lay, m, c) && s in Slots(c) && Leaving(Leaf(lay, c, s))
    ensures UpFits(lay, c, s, Exit)
    ensures UpdatePc(g, m, s).Some? && Inv(lay, UpdatePc(g, m, s).value, After(Up(lay, c, s, Exit)))
  {
    hide NodesApart, IdsApart, SlotsApart, Links, Sound, Pool, Faithful, Up, UpFits;
    UpExit(g, lay, c, s, None);
    UpFitsExit(g, lay, c, s, None);
    NotCond(g, lay, c, s);
    match Up(lay, c, s, Exit)
    case Stay(d) => InvMoved(g, lay, m, c, d, s);
    case Exit =>
      InvReleased(lay, m, c, Off, s, m.tot);
      assert m.(tot := m.tot) == m;
  }

  /** The thread in slot s leaves its node along `next`. */
  lemma {:induction false} LeaveStep<S>(
      env: Env<S>, g: seq<Node>, cmd: Cmd, lay: Lay, m: Mach<S>, c: Ctl, s: nat, st: S, ch: Choice, silent: bool)
    returns (c': Ctl)
    requires Compiled(g, cmd, lay) && Inv(lay, m, c) && s in Slots(c) && Leaving(Leaf(lay, c, s))
    requires Sound(Leaf(lay, c, s).0) && Fit(Leaf(lay, c, s).0, Leaf(lay, c, s).1)
    requires Takes(env, LeafTerm(lay, c, s), st, Skip, m.store, ch.(path := []), silent)
    ensures UpdatePc(g, m, s).Some? && Inv(lay, UpdatePc(g, m, s).value, c')
    ensures Takes(env, Term(lay, c), st, Term(lay, c'), m.store, ch.(path := Path(c, s)), silent)
    ensures !Leaf(lay, c, s).0.LAct? ==> Load(lay, c') < Load(lay, c)
  {
    hide NodesApart, IdsApart, SlotsApart, Links, Sound, Pool, Load, Faithful, Up, UpFits, UpdatePc, Of, ChainsDown;
    c' := After(Up(lay, c, s, Exit));
    LeaveInv(g, lay, m, c, s);
    UpTerm(env, lay, c, s, Exit, st, m.store, ch, silent);
    if !Leaf(lay, c, s).0.LAct? { LeaveLoad(lay, c, s); NoLoad(lay); }
  }

  lemma NoLoad(lay: Lay)
    ensures Load(lay, Off) == 0
  {
  }

  lemma {:induction false} NotCond(g: seq<Node>, lay: Lay, c: Ctl, s: nat)
    requires Sound(lay) && Faithful(lay) && Links(g, lay, None) && Fit(lay, c) && s in Slots(c)
             && Leaving(Leaf(lay, c, s))
    ensures At(lay, c, s) < |g| && !(g[At(lay, c, s)].stmt.Some? && g[At(lay, c, s)].stmt.value.SCond?)
  {
    var kl := LeafIs(g, lay, c, s, None);
  }

  /** The thread in slot s gets a new position in its part. */
  lemma {:induction false} StayStep<S>(
      env: Env<S>, lay: Lay, c: Ctl, s: nat, n: Ctl, st: S, st': S, ch: Choice, silent: bool)
    returns (c': Ctl)
    requires Sound(lay) && Faithful(lay) && Fit(lay, c) && s in Slots(c)
    requires Sound(Leaf(lay, c, s).0) && Fit(Leaf(lay, c, s).0, Leaf(lay, c, s).1)
    requires Fit(Leaf(lay, c, s).0, n) && !n.Off? && s in Slots(n) && (Slots(n) - {s}) !! Slots(c)
    requires forall x :: Count(Leaf(lay, c, s).0, n, x) == 0
    requires Takes(env, LeafTerm(lay, c, s), st, Term(Leaf(lay, c, s).0, n), st', ch.(path := []), silent)
    ensures Replaced(lay, c, c', s, n)
    ensures Takes(env, Term(lay, c), st, Term(lay, c'), st', ch.(path := Path(c, s)), silent)
    ensures Up(lay, c, s, Stay(n)) == Stay(c') && UpFits(lay, c, s, Stay(n))
  {
    hide Sound, Faithful, Slots, Up, UpFits, Takes, Replaced, Leaves, Count, Leaf, Path;
    UpStay(lay, c, s, n);
    UpFitsStay(lay, c, s, n);
    UpTerm(env, lay, c, s, Stay(n), st, st', ch, silent);
    c' := Up(lay, c, s, Stay(n)).c;
  }

  /** A new position for slot s alone, at another node of the same part. */
  lemma {:induction false} InvShifted<S>(lay: Lay, m: Mach<S>, c: Ctl, c': Ctl, s: nat, n: Ctl)
    requires Inv(lay, m, c) && s in Slots(c) && Fit(Leaf(lay, c, s).0, n) && Replaced(lay, c, c', s, n)
    requires Slots(n) == {s} && Leaves(n) == 1
    ensures Inv(lay, m.(pc := m.pc[s := Some(At(Leaf(lay, c, s).0, n, s))]), c')
  {
    hide Fit, Slots, At, Count, Leaves, Pool, Ids, Leaf;
    MovePool(m, s, Some(At(Leaf(lay, c, s).0, n, s)));
  }

  // ----- going on through nodes without a statement

  lemma {:induction false} FoldStep<S>(env: Env<S>, g: seq<Node>, cmd: Cmd, lay: Lay, m: Mach<S>, c: Ctl, s: nat)
    returns (c': Ctl)
    requires Compiled(g, cmd, lay) && Inv(lay, m, c) && s < |m.pc|
    ensures Fold(g, m, s).Some? && Inv(lay, Fold(g, m, s).value, c') && Term(lay, c') == Term(lay, c)
    ensures var m' := Fold(g, m, s).value;
            && |m'.pc| == |m.pc| && m'.store == m.store
            && (m'.pc[s].Some? ==> m'.pc[s].value < |g| && g[m'.pc[s].value].stmt.Some?)
            && (forall t | 0 <= t < |m.pc| && t != s :: m'.pc[t] == m.pc[t])
    ensures Load(lay, c') <= Load(lay, c)
    decreases Height(g, m, s)
  {
    hide Load, Links, Sound, Faithful, Of, Pool, ChainsDown, UpdatePc, Slots;
    c' := c;
    if m.pc[s].Some? {
      var kl := LeafIs(g, lay, c, s, None);
      if g[At(lay, c, s)].stmt.None? {
        var d := LeaveStep(env, g, cmd, lay, m, c, s, m.store, Choice([], false, 0), true);
        UpdatePcShape(g, m, s);
        UpdatePcDown(g, m, s);
        c' := FoldStep(env, g, cmd, lay, UpdatePc(g, m, s).value, d, s);
      }
    }
  }
}
