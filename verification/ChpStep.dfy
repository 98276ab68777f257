/**
 One event of any slot: the cases of the stepper put together, and whole runs.
 */
module ChpStep {
  import opened Prelude
  import opened ChpLang
  import opened ChpGraph
  import opened ChpControl
  import opened ChpMove
  import opened ChpTerm
  import opened ChpWork
  import opened ChpSim
  import opened ChpRun
  import opened ChpExec

  /** A compiled statement running in its slots, control being where `c` says. */
  ghost predicate Running<S>(g: seq<Node>, cmd: Cmd, lay: Lay, m: Mach<S>, c: Ctl): (r: bool)
    ensures r ==> Sound(lay) && Fit(lay, c)
  {
    Compiled(g, cmd, lay) && WellFormed(cmd) && Inv(lay, m, c) && |m.pc| == MaxPc(cmd)
  }

  /** All live slots are at statements. */
  ghost predicate Settled<S>(g: seq<Node>, m: Mach<S>)
  {
    forall t | 0 <= t < |m.pc| && m.pc[t].Some? :: m.pc[t].value < |g| && g[m.pc[t].value].stmt.Some?
  }

  /** The result of an event: no assertion failed, and the term took at most one step, from store st. */
  ghost predicate Done<S>(
      env: Env<S>, g: seq<Node>, cmd: Cmd, lay: Lay, m: Mach<S>, c: Ctl, st: S, r: Option<Mach<S>>, c': Ctl,
          ch: Choice, silent: bool)
    requires Running(g, cmd, lay, m, c)
  {
    && r.Some? && Running(g, cmd, lay, r.value, c') && (Settled(g, m) ==> Settled(g, r.value))
    && Takes(env, Term(lay, c), st, Term(lay, c'), r.value.store, ch, silent)
  }

  // ----- the thread's statement

  ghost predicate AtLeaf<S>(g: seq<Node>, cmd: Cmd, lay: Lay, m: Mach<S>, c: Ctl, s: nat, l: Lay, kl: Option<nat>)
  {
    && Running(g, cmd, lay, m, c) && s in Slots(c) && Leaf(lay, c, s) == (l, Here(s))
    && Sound(l) && Faithful(l) && Links(g, l, kl) && Fit(l, Here(s)) && At(lay, c, s) == Entry1(l) < |g|
  }

  /** What AtLeaf says about the machine and the node. */
  lemma {:induction false} NodeAt<S>(g: seq<Node>, cmd: Cmd, lay: Lay, m: Mach<S>, c: Ctl, s: nat, l: Lay,
      kl: Option<nat>)
    requires AtLeaf(g, cmd, lay, m, c, s, l, kl)
    ensures s < |m.pc| && m.pc[s] == Some(Entry1(l)) && Entry1(l) < |g|
    ensures l.LAct? ==> g[Entry1(l)].stmt == Some(SAct(l.a))
    ensures l.LNop? ==> g[Entry1(l)].stmt == Some(SNop)
    ensures l.LComma? ==> g[Entry1(l)].stmt == Some(SFork(|l.ls|)) && g[Entry1(l)].all == Entries(l.ls)
    ensures l.LBranch? ==>
              && g[Entry1(l)].stmt == Some(if l.isLoop then SLoop(l.guards) else SCond(l.arb, l.guards))
              && g[Entry1(l)].all == Targets(l.ls, if l.isLoop then l.n else l.stop)
              && g[Entry1(l)].next == Some(l.stop) && l.stop < |g| && g[l.stop].wait == 0
    ensures l.LAct? || l.LNop? || l.LComma? || l.LBranch?
  {
    hide NodesApart, IdsApart, SlotsApart, Of, Pool, Count, Leaves;
  }

  lemma {:induction false} RunningFits<S>(g: seq<Node>, cmd: Cmd, lay: Lay, m: Mach<S>, c: Ctl)
    requires Running(g, cmd, lay, m, c)
    ensures Sound(lay) && Faithful(lay) && Links(g, lay, None) && ChainsDown(g) && Fit(lay, c)
  {
    hide NodesApart, IdsApart, SlotsApart, Of, Pool, Sound, Faithful, Links, ChainsDown;
  }

  lemma AtHere(l: Lay, s: nat)
    requires Fit(l, Here(s))
    ensures At(l, Here(s), s) == Entry1(l) && s in Slots(Here(s))
  {
  }

  /** Positions of a single thread at a node of its part. */
  lemma {:induction false} Tip(l: Lay, n: Ctl, s: nat)
    requires Fit(l, n) && (n == Here(s) || n == Fin(s))
    ensures !n.Off? && Slots(n) == {s} && Leaves(n) == 1 && forall x: nat :: Count(l, n, x) == 0
  {
  }

  lemma {:induction false} RunningStore<S>(g: seq<Node>, cmd: Cmd, lay: Lay, m: Mach<S>, c: Ctl, st: S)
    requires Running(g, cmd, lay, m, c)
    ensures Running(g, cmd, lay, m.(store := st), c)
  {
    hide Compiled, Fit, Slots, At, Pool, Count, Leaves, Ids;
    SamePool(m, m.tot, st);
    assert m.(tot := m.tot, store := st) == m.(store := st);
  }

  lemma {:induction false} SlotLive<S>(lay: Lay, m: Mach<S>, c: Ctl, s: nat)
    requires Inv(lay, m, c) && s in Slots(c)
    ensures s < |m.pc| && m.pc[s].Some?
  {
    hide Fit, Slots, At, Pool, Count, Leaves;
  }

  /** After a move of slot s, going on to the next statement completes the event. */
  lemma {:induction false} FoldDone<S>(
      env: Env<S>, g: seq<Node>, cmd: Cmd, lay: Lay, m: Mach<S>, c: Ctl, st: S, m1: Mach<S>, d: Ctl, s: nat,
          ch: Choice, silent: bool)
    returns (c': Ctl)
    requires Running(g, cmd, lay, m, c) && Running(g, cmd, lay, m1, d) && s < |m.pc|
    requires forall t | 0 <= t < |m.pc| && t != s :: m1.pc[t] == m.pc[t]
    requires Takes(env, Term(lay, c), st, Term(lay, d), m1.store, ch, silent)
    ensures Done(env, g, cmd, lay, m, c, st, Fold(g, m1, s), c', ch, silent) && Fold(g, m1, s).value.store == m1.store
    ensures Load(lay, c') <= Load(lay, d)
  {
    hide Load, Fit, Slots, At, Sound, Links, Of, Inv, Term, Takes, Compiled, Fold;
    c' := FoldStep(env, g, cmd, lay, m1, d, s);
  }

  /** A move along `next` and on to the next statement. */
  lemma {:induction false} LeaveAndSettle<S>(
      env: Env<S>, g: seq<Node>, cmd: Cmd, lay: Lay, m: Mach<S>, c: Ctl, s: nat, st: S, ch: Choice, silent: bool)
    returns (c': Ctl)
    requires Running(g, cmd, lay, m, c) && s in Slots(c) && Leaving(Leaf(lay, c, s))
    requires Sound(Leaf(lay, c, s).0) && Fit(Leaf(lay, c, s).0, Leaf(lay, c, s).1)
    requires Takes(env, LeafTerm(lay, c, s), st, Skip, m.store, ch.(path := []), silent)
    ensures Done(env, g, cmd, lay, m, c, st, Settle(g, UpdatePc(g, m, s), s), c', ch.(path := Path(c, s)), silent)
    ensures Settle(g, UpdatePc(g, m, s), s).value.store == m.store
    ensures !Leaf(lay, c, s).0.LAct? ==> Load(lay, c') < Load(lay, c)
  {
    hide Load, Fit, Slots, At, Leaf, Sound, Links, Of, Inv, Term, Takes, Compiled, Fold, Done, UpdatePc, LeafTerm;
    SlotLive(lay, m, c, s);
    UpdatePcShape(g, m, s);
    var d := LeaveStep(env, g, cmd, lay, m, c, s, st, ch, silent);
    c' := FoldDone(env, g, cmd, lay, m, c, st, UpdatePc(g, m, s).value, d, s, ch.(path := Path(c, s)), silent);
  }

  /** A jump to another node of the same part. */
  lemma {:induction false} ShiftRuns<S>(g: seq<Node>, cmd: Cmd, lay: Lay, m: Mach<S>, c: Ctl, d: Ctl, s: nat, n: Ctl)
    requires Running(g, cmd, lay, m, c) && s in Slots(c) && Fit(Leaf(lay, c, s).0, n)
    requires Replaced(lay, c, d, s, n) && Slots(n) == {s} && Leaves(n) == 1
    ensures s < |m.pc| && Running(g, cmd, lay, m.(pc := m.pc[s := Some(At(Leaf(lay, c, s).0, n, s))]), d)
  {
    hide Fit, Slots, At, Leaf, Sound, Compiled, Inv, Leaves, Replaced, WellFormed;
    SlotLive(lay, m, c, s);
    InvShifted(lay, m, c, d, s, n);
  }

  /** A jump to another node of the same part and on to the next statement. */
  lemma {:induction false} ShiftAndSettle<S>(
      env: Env<S>, g: seq<Node>, cmd: Cmd, lay: Lay, m: Mach<S>, c: Ctl, s: nat, l: Lay, n: Ctl, ch: Choice,
          silent: bool)
    returns (c': Ctl)
    requires Running(g, cmd, lay, m, c) && s in Slots(c) && Leaf(lay, c, s) == (l, Here(s)) && Sound(l)
             && Fit(l, Here(s))
    requires Fit(l, n) && !n.Off? && Slots(n) == {s} && Leaves(n) == 1 && forall x :: Count(l, n, x) == 0
    requires Takes(env, Term(l, Here(s)), m.store, Term(l, n), m.store, ch.(path := []), silent)
    ensures Done(env, g, cmd, lay, m, c, m.store, Place(g, m, s, Some(At(l, n, s))), c', ch.(path := Path(c, s)),
            silent)
  {
    hide Fit, Slots, At, Leaf, Sound, Links, Of, Running, Term, Takes, Count, Leaves, Fold, Done, Path;
    RunningFits(g, cmd, lay, m, c);
    var d := StayStep(env, lay, c, s, n, m.store, m.store, ch, silent);
    ShiftRuns(g, cmd, lay, m, c, d, s, n);
    c' := FoldDone(env, g, cmd, lay, m, c, m.store, m.(pc := m.pc[s := Some(At(l, n, s))]), d, s,
        ch.(path := Path(c, s)), silent);
  }

  /** One step of an action. */
  lemma ActTakes<S>(env: Env<S>, a: nat, flag: bool, st: S, ch: Choice)
    requires ch.flag == flag
    ensures var o := env.run(a, flag, st); Takes(env, Act(a), st, if o.done then Skip else Act(a), o.store, ch, false)
  {
  }

  lemma {:induction false} ActCase<S>(
      env: Env<S>, g: seq<Node>, cmd: Cmd, lay: Lay, m: Mach<S>, c: Ctl, s: nat, l: Lay, kl: Option<nat>,
          flag: bool, pick: nat)
    returns (c': Ctl, ch: Choice)
    requires AtLeaf(g, cmd, lay, m, c, s, l, kl) && l.LAct?
    ensures Done(env, g, cmd, lay, m, c, m.store, Execute(g, env, m, s, flag, pick), c', ch, false)
    ensures ch == Choice(Path(c, s), flag, pick)
  {
    hide NodesApart, IdsApart, SlotsApart, Of, Pool, Count, Leaves, Placed, Counted, Fit, Slots, At, Links, Sound,
         Faithful, Leaf, Fork, Entry, Path, UpdatePc, Fold, Running, Done;
    NodeAt(g, cmd, lay, m, c, s, l, kl);
    var o := env.run(l.a, flag, m.store);
    ch := Choice(Path(c, s), flag, pick);
    ActTakes(env, l.a, flag, m.store, ch.(path := []));
    var m' := m.(store := o.store);
    RunningStore(g, cmd, lay, m, c, o.store);
    if o.done {
      c' := ActLeaves(env, g, cmd, lay, m, m', c, s, l, ch);
    } else {
      c' := ActWaits(env, g, cmd, lay, m, m', c, s, l, ch);
    }
  }

  lemma {:induction false} ActLeaves<S>(
      env: Env<S>, g: seq<Node>, cmd: Cmd, lay: Lay, m: Mach<S>, m': Mach<S>, c: Ctl, s: nat, l: Lay, ch: Choice)
    returns (c': Ctl)
    requires Running(g, cmd, lay, m, c) && Running(g, cmd, lay, m', c) && m' == m.(store := m'.store)
    requires s in Slots(c) && Leaf(lay, c, s) == (l, Here(s)) && l.LAct? && Sound(l) && Fit(l, Here(s))
    requires Takes(env, Act(l.a), m.store, Skip, m'.store, ch.(path := []), false)
    ensures Done(env, g, cmd, lay, m, c, m.store, Settle(g, UpdatePc(g, m', s), s), c', ch.(path := Path(c, s)), false)
  {
    hide NodesApart, IdsApart, SlotsApart, Of, Inv, Fit, Slots, At, Links, Sound, Faithful, Leaf, UpdatePc, Fold,
         Takes, Settle;
    c' := LeaveAndSettle(env, g, cmd, lay, m', c, s, m.store, ch, false);
  }

  lemma {:induction false} ActWaits<S>(
      env: Env<S>, g: seq<Node>, cmd: Cmd, lay: Lay, m: Mach<S>, m': Mach<S>, c: Ctl, s: nat, l: Lay, ch: Choice)
    returns (c': Ctl)
    requires Running(g, cmd, lay, m, c) && Running(g, cmd, lay, m', c) && m' == m.(store := m'.store)
    requires s in Slots(c) && Leaf(lay, c, s) == (l, Here(s)) && l.LAct? && Sound(l) && Fit(l, Here(s))
    requires s < |m.pc| && m.pc[s] == Some(Entry1(l))
    requires Takes(env, Act(l.a), m.store, Act(l.a), m'.store, ch.(path := []), false)
    ensures Done(env, g, cmd, lay, m, c, m.store, Some(m'), c', ch.(path := Path(c, s)), false)
  {
    hide NodesApart, IdsApart, SlotsApart, Of, Inv, Slots, Links, Sound, Faithful, Leaf, Takes;
    RunningFits(g, cmd, lay, m, c);
    AtHere(l, s);
    Tip(l, Here(s), s);
    c' := StayStep(env, lay, c, s, Here(s), m.store, m'.store, ch, false);
    InvShifted(lay, m', c, c', s, Here(s));
    assert m'.(pc := m'.pc[s := Some(At(l, Here(s), s))]) == m';
  }

  lemma {:induction false} NopCase<S>(
      env: Env<S>, g: seq<Node>, cmd: Cmd, lay: Lay, m: Mach<S>, c: Ctl, s: nat, l: Lay, kl: Option<nat>,
          flag: bool, pick: nat)
    returns (c': Ctl, ch: Choice)
    requires AtLeaf(g, cmd, lay, m, c, s, l, kl) && l.LNop?
    ensures Done(env, g, cmd, lay, m, c, m.store, Execute(g, env, m, s, flag, pick), c', ch, true)
    ensures ch == Choice(Path(c, s), flag, pick)
    ensures Load(lay, c') < Load(lay, c)
  {
    hide Load, Running, Sound, Faithful, Links, Fit, Slots, Leaf, At, Path, Execute, UpdatePc, Settle, Done, Takes;
    NodeAt(g, cmd, lay, m, c, s, l, kl);
    RunningFits(g, cmd, lay, m, c);
    ch := Choice(Path(c, s), flag, pick);
    NopTakes(env, lay, c, s, l, m.store, ch.(path := []));
    c' := LeaveAndSettle(env, g, cmd, lay, m, c, s, m.store, ch, true);
    ExecuteNop(g, env, m, s, Entry1(l), flag, pick);
  }

  lemma {:induction false} NopTakes<S>(env: Env<S>, lay: Lay, c: Ctl, s: nat, l: Lay, st: S, ch: Choice)
    requires Fit(lay, c) && s in Slots(c) && Leaf(lay, c, s) == (l, Here(s)) && l.LNop? && Sound(l) && Fit(l, Here(s))
    ensures Takes(env, LeafTerm(lay, c, s), st, Skip, st, ch, true)
  {
    hide Fit, Slots, Leaf, Sound;
  }

  // ----- what executing a statement comes to

  lemma ExecuteNop<S>(g: seq<Node>, env: Env<S>, m: Mach<S>, s: nat, e: nat, flag: bool, pick: nat)
    requires s < |m.pc| && m.pc[s] == Some(e) && e < |g| && g[e].stmt == Some(SNop)
    ensures Execute(g, env, m, s, flag, pick) == Settle(g, UpdatePc(g, m, s), s)
  {
    hide Settle, UpdatePc;
  }

  lemma ExecuteAct<S>(g: seq<Node>, env: Env<S>, m: Mach<S>, s: nat, e: nat, a: nat, flag: bool, pick: nat)
    requires s < |m.pc| && m.pc[s] == Some(e) && e < |g| && g[e].stmt == Some(SAct(a))
    ensures var o := env.run(a, flag, m.store);
            var m' := m.(store := o.store);
            Execute(g, env, m, s, flag, pick) == if o.done then Settle(g, UpdatePc(g, m', s), s) else Some(m')
  {
    hide Settle, UpdatePc;
  }

  lemma ExecuteFork<S>(g: seq<Node>, env: Env<S>, m: Mach<S>, s: nat, e: nat, flag: bool, pick: nat)
    requires s < |m.pc| && m.pc[s] == Some(e) && e < |g| && g[e].stmt.Some? && g[e].stmt.value.SFork?
    ensures Execute(g, env, m, s, flag, pick) == Fork(g, m, s, g[e].all, 0, true)
  {
    hide Fork;
  }

  lemma ExecutePick<S>(g: seq<Node>, env: Env<S>, m: Mach<S>, s: nat, e: nat, isLoop: bool, arb: bool,
      guards: seq<Option<nat>>, flag: bool, pick: nat)
    requires s < |m.pc| && m.pc[s] == Some(e) && e < |g|
    requires g[e].stmt == Some(if isLoop then SLoop(guards) else SCond(arb, guards))
    requires Allowed(env, arb && !isLoop, guards, m.store, pick) && pick < |g[e].all| && g[e].all[pick].Some?
    ensures Execute(g, env, m, s, flag, pick) == Place(g, m, s, g[e].all[pick])
  {
    hide Place, Allowed;
  }

  lemma ExecuteExit<S>(g: seq<Node>, env: Env<S>, m: Mach<S>, s: nat, e: nat, guards: seq<Option<nat>>, flag: bool,
      pick: nat)
    requires s < |m.pc| && m.pc[s] == Some(e) && e < |g| && g[e].stmt == Some(SLoop(guards))
    requires !Allowed(env, false, guards, m.store, pick) && !AnyMatch(env, guards, m.store)
    requires g[e].next.Some? && g[e].next.value < |g| && g[g[e].next.value].wait == 0
    ensures Execute(g, env, m, s, flag, pick) == Place(g, m, s, g[e].next)
  {
    hide Fold, Allowed, AnyMatch;
  }

  lemma {:induction false} ForkCase<S>(
      env: Env<S>, g: seq<Node>, cmd: Cmd, lay: Lay, m: Mach<S>, c: Ctl, s: nat, l: Lay, kl: Option<nat>,
          flag: bool, pick: nat)
    returns (c': Ctl, ch: Choice)
    requires AtLeaf(g, cmd, lay, m, c, s, l, kl) && l.LComma?
    ensures Done(env, g, cmd, lay, m, c, m.store, Execute(g, env, m, s, flag, pick), c', ch, true)
    ensures ch == Choice(Path(c, s), flag, pick)
    ensures Load(lay, c') < Load(lay, c)
  {
    hide Load, Fit, Slots, At, Term, Links, Sound, Faithful, Leaf, Fork, Entry, Entry1, Path, Inv, Execute, Compiled,
         EntriesReady, Done;
    RunningFits(g, cmd, lay, m, c);
    NodeAt(g, cmd, lay, m, c, s, l, kl);
    ch := Choice(Path(c, s), flag, pick);
    CommaEntries(g, l, kl);
    c' := ForkStep(env, g, cmd, lay, m, c, s, l);
    ExecuteFork(g, env, m, s, Entry1(l), flag, pick);
    InvFits(lay, Fork(g, m, s, Entries(l.ls), 0, true).value, c');
    ForkDone(env, g, cmd, lay, m, c, l, Fork(g, m, s, Entries(l.ls), 0, true).value, c', ch);
  }

  lemma InvFits<S>(lay: Lay, m: Mach<S>, c: Ctl)
    requires Inv(lay, m, c)
    ensures Fit(lay, c)
  {
    hide Fit, Slots, At, Pool, Count, Leaves;
  }

  lemma {:induction false} ForkDone<S>(env: Env<S>, g: seq<Node>, cmd: Cmd, lay: Lay, m: Mach<S>, c: Ctl, l: Lay,
      m': Mach<S>, c': Ctl, ch: Choice)
    requires Running(g, cmd, lay, m, c) && Inv(lay, m', c') && m'.store == m.store && |m'.pc| == |m.pc|
    requires Fit(lay, c') && Term(lay, c') == Term(lay, c) && l.LComma? && EntriesReady(g, l.ls)
    requires forall t | 0 <= t < |m.pc| && m'.pc[t] != m.pc[t] ::
               exists j | 0 <= j < |l.ls| :: !l.ls[j].LNull? && m'.pc[t] == Entry(l.ls[j])
    ensures Done(env, g, cmd, lay, m, c, m.store, Some(m'), c', ch, true)
  {
    hide Fit, Term, Sound, Inv, Compiled, Entry;
  }

  /** The position inside alternative i: its first node, or straight back when it is empty. */
  function Alternative(l: Lay, i: nat, s: nat): Ctl
    requires l.LBranch? && i < |l.ls|
  {
    if l.ls[i].LNull? then (if l.isLoop then Here(s) else Fin(s)) else In(i, Enter(l.ls[i], s))
  }

  lemma {:induction false} AlternativeIs(l: Lay, i: nat, s: nat)
    requires Sound(l) && Faithful(l) && l.LBranch? && i < |l.ls|
    ensures Fit(l, Alternative(l, i, s)) && !Alternative(l, i, s).Off? && Slots(Alternative(l, i, s)) == {s}
    ensures Leaves(Alternative(l, i, s)) == 1 && forall x :: Count(l, Alternative(l, i, s), x) == 0
    ensures Targets(l.ls, if l.isLoop then l.n else l.stop)[i] == Some(At(l, Alternative(l, i, s), s))
    ensures Term(l, Alternative(l, i, s))
            == if l.isLoop then ThenLoop(Ready(l.bs[i]), BranchTerm(true, l.arb, l.guards, l.bs)) else Ready(l.bs[i])
  {
    hide NodesApart, IdsApart, SlotsApart;
    if l.ls[i].LNull? {
      assert Of(l.bs[i], l.ls[i]);
    } else {
      EnterFits(l.ls[i], s);
      EnterTerm(l.bs[i], l.ls[i], s);
      InCounts(l, i, Enter(l.ls[i], s));
    }
  }

  lemma {:induction false} PickCase<S>(
      env: Env<S>, g: seq<Node>, cmd: Cmd, lay: Lay, m: Mach<S>, c: Ctl, s: nat, l: Lay, kl: Option<nat>,
          flag: bool, pick: nat)
    returns (c': Ctl, ch: Choice)
    requires AtLeaf(g, cmd, lay, m, c, s, l, kl) && l.LBranch? && Allowed(env, l.arb
             && !l.isLoop, l.guards, m.store, pick)
    ensures Done(env, g, cmd, lay, m, c, m.store, Execute(g, env, m, s, flag, pick), c', ch, false)
    ensures ch == Choice(Path(c, s), flag, pick)
  {
    hide Count, Leaves, Allowed, Slots, Links, Path, Faithful, Sound, Fit, Term, Leaf, At, Running, Execute, Place,
         Done, Alternative, Takes, Entry1;
    NodeAt(g, cmd, lay, m, c, s, l, kl);
    ch := Choice(Path(c, s), flag, pick);
    BranchParts(l);
    AllowedIn(env, l.arb && !l.isLoop, l.guards, m.store, pick);
    AlternativeIs(l, pick, s);
    PickTakes(env, l, pick, s, m.store, ch.(path := []));
    ExecutePick(g, env, m, s, Entry1(l), l.isLoop, l.arb, l.guards, flag, pick);
    c' := ShiftAndSettle(env, g, cmd, lay, m, c, s, l, Alternative(l, pick, s), ch, false);
  }

  lemma BranchParts(l: Lay)
    requires Sound(l) && l.LBranch?
    ensures |l.guards| == |l.bs| == |l.ls|
  {
  }

  /** Taking an enabled alternative is a step of the structured semantics. */
  lemma {:induction false} PickTakes<S>(env: Env<S>, l: Lay, pick: nat, s: nat, st: S, ch: Choice)
    requires Sound(l) && l.LBranch? && pick < |l.ls| == |l.bs| && Fit(l, Here(s)) && Fit(l, Alternative(l, pick, s))
    requires Allowed(env, l.arb && !l.isLoop, l.guards, st, pick) && ch.pick == pick
    requires Term(l, Alternative(l, pick, s))
             == if l.isLoop then ThenLoop(Ready(l.bs[pick]), BranchTerm(true, l.arb, l.guards, l.bs))
                else Ready(l.bs[pick])
    ensures Takes(env, Term(l, Here(s)), st, Term(l, Alternative(l, pick, s)), st, ch, false)
  {
    hide Allowed, Alternative, Sound, Ready, ThenLoop;
  }

  lemma AllowedIn<S>(env: Env<S>, arb: bool, guards: seq<Option<nat>>, st: S, i: nat)
    requires Allowed(env, arb, guards, st, i)
    ensures i < |guards| && AnyMatch(env, guards, st)
  {
  }

  /** A loop with no true guard ends. */
  lemma {:induction false} LoopExitCase<S>(
      env: Env<S>, g: seq<Node>, cmd: Cmd, lay: Lay, m: Mach<S>, c: Ctl, s: nat, l: Lay, kl: Option<nat>,
          flag: bool, pick: nat)
    returns (c': Ctl, ch: Choice)
    requires AtLeaf(g, cmd, lay, m, c, s, l, kl) && l.LBranch? && l.isLoop && !AnyMatch(env, l.guards, m.store)
    ensures Done(env, g, cmd, lay, m, c, m.store, Execute(g, env, m, s, flag, pick), c', ch, false)
    ensures ch == Choice(Path(c, s), flag, pick)
  {
    hide Count, Leaves, Allowed, AnyMatch, Slots, Links, Path, Faithful, Sound, Fit, Term, Leaf, At, Running, Execute,
         Place, Done, Takes, Entry1;
    NodeAt(g, cmd, lay, m, c, s, l, kl);
    LoopEnd(l, s);
    Tip(l, Fin(s), s);
    ch := Choice(Path(c, s), flag, pick);
    NotAllowed(env, l.guards, m.store, pick);
    ExitTakes(env, l, s, m.store, ch.(path := []));
    ExecuteExit(g, env, m, s, Entry1(l), l.guards, flag, pick);
    c' := ShiftAndSettle(env, g, cmd, lay, m, c, s, l, Fin(s), ch, false);
  }

  lemma NotAllowed<S>(env: Env<S>, guards: seq<Option<nat>>, st: S, pick: nat)
    requires !AnyMatch(env, guards, st)
    ensures !Allowed(env, false, guards, st, pick)
  {
  }

  lemma LoopEnd(l: Lay, s: nat)
    requires l.LBranch?
    ensures Fit(l, Fin(s)) && At(l, Fin(s), s) == l.stop
  {
  }

  lemma {:induction false} ExitTakes<S>(env: Env<S>, l: Lay, s: nat, st: S, ch: Choice)
    requires Sound(l) && l.LBranch? && l.isLoop && Fit(l, Here(s)) && Fit(l, Fin(s)) && !AnyMatch(env, l.guards, st)
    ensures Takes(env, Term(l, Here(s)), st, Term(l, Fin(s)), st, ch, false)
  {
    hide AnyMatch, Sound, Allowed;
    NotAllowed(env, l.guards, st, ch.pick);
  }

  /** A selection waits when no guard is true; an alternative that is not enabled is never taken. */
  lemma {:induction false} WaitCase<S>(
      env: Env<S>, g: seq<Node>, cmd: Cmd, lay: Lay, m: Mach<S>, c: Ctl, s: nat, l: Lay, kl: Option<nat>,
          flag: bool, pick: nat)
    requires AtLeaf(g, cmd, lay, m, c, s, l, kl) && l.LBranch? && !Allowed(env, l.arb
             && !l.isLoop, l.guards, m.store, pick)
    requires l.isLoop ==> AnyMatch(env, l.guards, m.store)
    ensures Execute(g, env, m, s, flag, pick) == Some(m)
  {
    hide NodesApart, IdsApart, SlotsApart, Of, Pool, Leaves, AnyMatch, Allowed, Inv, Links, Sound, Faithful, Fit;
    NodeAt(g, cmd, lay, m, c, s, l, kl);
  }
}
