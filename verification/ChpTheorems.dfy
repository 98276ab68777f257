/**
 The theorems about compiled programs: one event, whole runs, and what holds in every reachable state.
 */
module ChpTheorems {
  import opened Prelude
  import opened ChpLang
  import opened ChpGraph
  import opened ChpControl
  import opened ChpMove
  import opened ChpTerm
  import opened ChpWork
  import opened ChpSim
  import opened ChpRun
  import opened ChpExec
  import opened ChpStep

  // ----- one event

  /** The statement that a settled slot is about to execute. */
  lemma {:induction false} LeafHere<S>(g: seq<Node>, cmd: Cmd, lay: Lay, m: Mach<S>, c: Ctl, s: nat)
    returns (l: Lay, kl: Option<nat>)
    requires Running(g, cmd, lay, m, c) && s < |m.pc| && m.pc[s].Some?
    requires m.pc[s].value < |g| && g[m.pc[s].value].stmt.Some?
    ensures AtLeaf(g, cmd, lay, m, c, s, l, kl)
  {
    hide NodesApart, IdsApart, SlotsApart, Of, Pool, Sound, Faithful, Links, ChainsDown, Count, Leaves, Slots, At,
         Leaf, Ids;
    RunningFits(g, cmd, lay, m, c);
    kl := LeafIs(g, lay, c, s, None);
    l := Leaf(lay, c, s).0;
    assert Leaf(lay, c, s) == (l, Here(s));
    AtHere(l, s);
  }

  /** Executing the statement a slot is at. */
  lemma {:induction false} ExecuteCase<S>(
      env: Env<S>, g: seq<Node>, cmd: Cmd, lay: Lay, m: Mach<S>, c: Ctl, s: nat, l: Lay, kl: Option<nat>,
          flag: bool, pick: nat)
    returns (c': Ctl, ch: Choice, silent: bool)
    requires AtLeaf(g, cmd, lay, m, c, s, l, kl)
    ensures Done(env, g, cmd, lay, m, c, m.store, Execute(g, env, m, s, flag, pick), c', ch, silent)
    ensures ch == Choice(Path(c, s), flag, pick)
    ensures silent <==> !Acts(g, env, m, s, pick)
    ensures l.LNop? || l.LComma? ==> Load(lay, c') < Load(lay, c) && silent
    ensures !l.LNop? && !l.LComma? && silent ==>
              Next(env, LeafTerm(lay, c, s), m.store, ch).None? && Execute(g, env, m, s, flag, pick) == Some(m)
  {
    hide Load, LeafTerm, Running, Sound, Faithful, Links, Fit, Slots, At, Leaf, Entry1, Allowed, AnyMatch, Execute,
         Path, Takes, Settled, Acts;
    ActsAt(env, g, cmd, lay, m, c, s, l, kl, pick);
    NodeAt(g, cmd, lay, m, c, s, l, kl);
    if l.LAct? {
      silent := false;
      c', ch := ActCase(env, g, cmd, lay, m, c, s, l, kl, flag, pick);
    } else if l.LNop? {
      silent := true;
      c', ch := NopCase(env, g, cmd, lay, m, c, s, l, kl, flag, pick);
    } else if l.LComma? {
      silent := true;
      c', ch := ForkCase(env, g, cmd, lay, m, c, s, l, kl, flag, pick);
    } else if Allowed(env, l.arb && !l.isLoop, l.guards, m.store, pick) {
      silent := false;
      c', ch := PickCase(env, g, cmd, lay, m, c, s, l, kl, flag, pick);
    } else if l.isLoop && !AnyMatch(env, l.guards, m.store) {
      silent := false;
      c', ch := LoopExitCase(env, g, cmd, lay, m, c, s, l, kl, flag, pick);
    } else {
      silent, c', ch := true, c, Choice(Path(c, s), flag, pick);
      WaitCase(env, g, cmd, lay, m, c, s, l, kl, flag, pick);
      Unmoved(env, g, cmd, lay, m, c, ch);
      RunningFits(g, cmd, lay, m, c);
      NoMove(env, lay, c, s, l, m.store, ch);
    }
  }

  /** Which statements act. */
  lemma {:induction false} ActsAt<S>(
      env: Env<S>, g: seq<Node>, cmd: Cmd, lay: Lay, m: Mach<S>, c: Ctl, s: nat, l: Lay, kl: Option<nat>, pick: nat)
    requires AtLeaf(g, cmd, lay, m, c, s, l, kl)
    ensures Acts(g, env, m, s, pick)
            <==> l.LAct? || (l.LBranch? && (Allowed(env, l.arb && !l.isLoop, l.guards, m.store, pick)
                                            || (l.isLoop && !AnyMatch(env, l.guards, m.store))))
  {
    hide AtLeaf, Allowed, AnyMatch, Entry1, Targets, Entries;
    NodeAt(g, cmd, lay, m, c, s, l, kl);
  }

  /** A selection with no alternative to take cannot move in the structured semantics either. */
  lemma {:induction false} NoMove<S>(env: Env<S>, lay: Lay, c: Ctl, s: nat, l: Lay, st: S, ch: Choice)
    requires Fit(lay, c) && s in Slots(c) && Leaf(lay, c, s) == (l, Here(s)) && l.LBranch? && Sound(l)
             && Fit(l, Here(s))
    requires !Allowed(env, l.arb && !l.isLoop, l.guards, st, ch.pick) && (l.isLoop ==> AnyMatch(env, l.guards, st))
    ensures Next(env, LeafTerm(lay, c, s), st, ch).None?
  {
    hide Slots, Allowed, AnyMatch;
  }

  lemma {:induction false} Unmoved<S>(env: Env<S>, g: seq<Node>, cmd: Cmd, lay: Lay, m: Mach<S>, c: Ctl, ch: Choice)
    requires Running(g, cmd, lay, m, c)
    ensures Done(env, g, cmd, lay, m, c, m.store, Some(m), c, ch, true)
  {
    hide Compiled, Inv, Settled, Term;
  }

  /**
   Any event of any slot: no assertion fails, the invariant stays, and the term left to run is the same as
   before or one step of the structured semantics further.
   */
  lemma {:induction false} StepRefines<S>(
      env: Env<S>, g: seq<Node>, cmd: Cmd, lay: Lay, m: Mach<S>, c: Ctl, s: nat, flag: bool, pick: nat)
    returns (c': Ctl, ch: Choice, silent: bool)
    requires Running(g, cmd, lay, m, c) && s < |m.pc|
    ensures Done(env, g, cmd, lay, m, c, m.store, Step(g, env, m, s, flag, pick), c', ch, silent)
    ensures Settled(g, m) ==> (silent <==> !Acts(g, env, m, s, pick))
  {
    hide Execute, Fold, Inv, Compiled, Term, Takes, AtLeaf, Path, Acts;
    FoldSettled(g, env, m, s, pick);
    RunningFits(g, cmd, lay, m, c);
    Stutter(env, Term(lay, c), m.store, Choice([], false, 0));
    var c1 := FoldDone(env, g, cmd, lay, m, c, m.store, m, c, s, Choice([], false, 0), true);
    var m1 := Fold(g, m, s).value;
    assert Fold(g, m, s).Some? && Running(g, cmd, lay, m1, c1);
    c', ch, silent := c1, Choice([], false, 0), true;
    if m1.pc[s].Some? {
      Landed(env, g, cmd, lay, m, c, s);
      var l, kl := LeafHere(g, cmd, lay, m1, c1, s);
      c', ch, silent := ExecuteCase(env, g, cmd, lay, m1, c1, s, l, kl, flag && m1.pc[s] == m.pc[s], pick);
      Joint(env, g, cmd, lay, m, c, m1, c1, Step(g, env, m, s, flag, pick), c', ch, silent);
    }
  }

  /** A settled slot stays where it is, and a free one does nothing. */
  lemma {:induction false} FoldSettled<S>(g: seq<Node>, env: Env<S>, m: Mach<S>, s: nat, pick: nat)
    requires s < |m.pc|
    ensures Settled(g, m) ==> Fold(g, m, s) == Some(m)
    ensures m.pc[s].None? ==> !Acts(g, env, m, s, pick)
  {
  }

  lemma Stutter<S>(env: Env<S>, t: Cmd, st: S, ch: Choice)
    ensures Takes(env, t, st, t, st, ch, true)
  {
  }

  lemma {:induction false} Landed<S>(env: Env<S>, g: seq<Node>, cmd: Cmd, lay: Lay, m: Mach<S>, c: Ctl, s: nat)
    requires Running(g, cmd, lay, m, c) && s < |m.pc|
    ensures Fold(g, m, s).Some?
    ensures var m' := Fold(g, m, s).value;
            |m'.pc| == |m.pc| && (m'.pc[s].Some? ==> m'.pc[s].value < |g| && g[m'.pc[s].value].stmt.Some?)
  {
    hide Inv, Compiled, Fold;
    var d := FoldStep(env, g, cmd, lay, m, c, s);
  }

  lemma {:induction false} Joint<S>(
      env: Env<S>, g: seq<Node>, cmd: Cmd, lay: Lay, m: Mach<S>, c: Ctl, m1: Mach<S>, c1: Ctl, r: Option<Mach<S>>,
          c': Ctl, ch: Choice, silent: bool)
    requires Running(g, cmd, lay, m, c) && Done(env, g, cmd, lay, m, c, m.store, Some(m1), c1, Choice([], false,
             0), true)
    requires Running(g, cmd, lay, m1, c1) && Done(env, g, cmd, lay, m1, c1, m1.store, r, c', ch, silent)
    ensures Done(env, g, cmd, lay, m, c, m.store, r, c', ch, silent)
  {
    hide Inv, Compiled, Settled, Term, Next;
  }

  // ----- runs

  /** An event of a slot; `pick` resolves the choice at a selection, `flag` marks a wake-up. */
  datatype Event = Event(slot: nat, flag: bool, pick: nat)

  function Run<S>(g: seq<Node>, env: Env<S>, m: Mach<S>, evs: seq<Event>): Option<Mach<S>>
  {
    if evs == [] then Some(m)
    else
      var e := evs[|evs| - 1];
      match Run(g, env, m, evs[..|evs| - 1])
      case None => None
      case Some(m') => Step(g, env, m', e.slot, e.flag, e.pick)
  }

  /** How many events of a run do something. */
  function Actions<S>(g: seq<Node>, env: Env<S>, m: Mach<S>, evs: seq<Event>): nat
    requires Run(g, env, m, evs).Some?
  {
    if evs == [] then 0
    else
      var n := |evs| - 1;
      Actions(g, env, m, evs[..n])
      + if Acts(g, env, Run(g, env, m, evs[..n]).value, evs[n].slot, evs[n].pick) then 1 else 0
  }

  /** Events name slots that exist. */
  predicate InRange(evs: seq<Event>, npc: nat)
  {
    forall i | 0 <= i < |evs| :: evs[i].slot < npc
  }

  /** What the builder and the simulator's constructor establish. */
  ghost predicate Program(g: seq<Node>, cmd: Cmd, lay: Lay, npc: nat, counters: nat)
  {
    && WellFormed(cmd) && npc == MaxPc(cmd) >= 1 && Compiled(g, cmd, lay) && !lay.LNull?
    && forall x | x in Ids(lay) :: x < counters
  }

  lemma {:induction false} BuiltIsProgram(g: seq<Node>, cur: nat, counters: nat, cmd: Cmd, ret: Option<nat>,
      stop: nat, lay: Lay)
    requires WellFormed(cmd) && Built([], g, 0, cur, cmd, ret, stop, lay) && ChainsDown(g) && cur <= counters
             && ret.Some?
    ensures Program(g, cmd, lay, MaxPc(cmd), counters) && ret == Entry(lay)
  {
    hide Sound, Links, ChainsDown, Of, Nodes;
    OfFaithful(cmd, lay);
    MaxPcPositive(cmd);
  }

  /** The initial state. */
  lemma {:induction false} Starts<S>(g: seq<Node>, cmd: Cmd, lay: Lay, npc: nat, counters: nat, store: S)
    requires Program(g, cmd, lay, npc, counters)
    ensures var m := Initial(npc, counters, Entry(lay), store);
            Running(g, cmd, lay, m, Enter(lay, 0)) && Settled(g, m) && Term(lay, Enter(lay, 0)) == Ready(cmd)
            && m.store == store
  {
    hide Links, Sound, ChainsDown, Of, Faithful, Ids, Enter, Entry, Fit, At, Slots, Count, Leaves, Term, Initial, Inv,
         Pool, Settled;
    EnterFits(lay, 0);
    EnterTerm(cmd, lay, 0);
    EntryStmt(g, lay, None);
    InitialInv(lay, npc, counters, store, Enter(lay, 0));
    InitialSettled(g, npc, counters, Entry(lay).value, store);
  }

  lemma {:induction false} InitialInv<S>(lay: Lay, npc: nat, counters: nat, store: S, c: Ctl)
    requires npc >= 1 && Fit(lay, c) && Slots(c) == {0} && Leaves(c) == 1 && (forall x: nat :: Count(lay, c, x) == 0)
    requires forall x | x in Ids(lay) :: x < counters
    ensures var m := Initial(npc, counters, Some(At(lay, c, 0)), store);
            Inv(lay, m, c) && |m.pc| == npc && m.store == store
  {
    hide Fit, At, Slots, Count, Leaves, Ids, Pool;
    InitialPool(npc, counters, At(lay, c, 0), store);
  }

  lemma {:induction false} InitialPool<S>(npc: nat, counters: nat, entry: nat, store: S)
    requires npc >= 1
    ensures Pool(Initial(npc, counters, Some(entry), store))
  {
    var m := Initial(npc, counters, Some(entry), store);
    forall s | 0 <= s < |m.pc| && m.pc[s].None? ensures Pooled(m, s) {
      assert m.holes[s] == s;
    }
  }

  lemma InitialSettled<S>(g: seq<Node>, npc: nat, counters: nat, entry: nat, store: S)
    requires npc >= 1 && entry < |g| && g[entry].stmt.Some?
    ensures Settled(g, Initial(npc, counters, Some(entry), store))
  {
  }

  lemma ReplayMore<S>(
      env: Env<S>, t0: Cmd, s0: S, trace: seq<Choice>, t: Cmd, s: S, ch: Choice, silent: bool, t': Cmd, s': S)
    requires Replay(env, t0, s0, trace) == Some((t, s)) && Takes(env, t, s, t', s', ch, silent)
    ensures Replay(env, t0, s0, if silent then trace else trace + [ch]) == Some((t', s'))
  {
    if !silent { assert (trace + [ch])[..|trace|] == trace; }
  }

  /**
   Every run, under every schedule of events and every resolution of choices: no assertion of the stepper
   fails, and the run is a run of the structured semantics that has reached the same store, with one step for
   every event that does something.
   */
  lemma {:induction false} RunRefines<S>(
      env: Env<S>, g: seq<Node>, cmd: Cmd, lay: Lay, npc: nat, counters: nat, store: S, evs: seq<Event>)
    returns (c: Ctl, trace: seq<Choice>)
    requires Program(g, cmd, lay, npc, counters) && InRange(evs, npc)
    ensures var r := Run(g, env, Initial(npc, counters, Entry(lay), store), evs);
            && r.Some? && Running(g, cmd, lay, r.value, c) && Settled(g, r.value)
            && Replay(env, Ready(cmd), store, trace) == Some((Term(lay, c), r.value.store))
    ensures |trace| == Actions(g, env, Initial(npc, counters, Entry(lay), store), evs)
    decreases |evs|
  {
    hide Initial, Step, Compiled, Inv, Settled, Term, Next, Enter, Acts;
    Starts(g, cmd, lay, npc, counters, store);
    if evs == [] {
      c, trace := Enter(lay, 0), [];
    } else {
      var n := |evs| - 1;
      var c0, trace0 := RunRefines(env, g, cmd, lay, npc, counters, store, evs[..n]);
      var m := Run(g, env, Initial(npc, counters, Entry(lay), store), evs[..n]).value;
      assert |m.pc| == npc;
      c, trace := RunMore(env, g, cmd, lay, m, c0, store, trace0, evs[n]);
    }
  }

  lemma {:induction false} RunMore<S>(
      env: Env<S>, g: seq<Node>, cmd: Cmd, lay: Lay, m: Mach<S>, c0: Ctl, store: S, trace0: seq<Choice>, e: Event)
    returns (c: Ctl, trace: seq<Choice>)
    requires Running(g, cmd, lay, m, c0) && Settled(g, m) && e.slot < |m.pc|
    requires Replay(env, Ready(cmd), store, trace0) == Some((Term(lay, c0), m.store))
    ensures var r := Step(g, env, m, e.slot, e.flag, e.pick);
            && r.Some? && Running(g, cmd, lay, r.value, c) && Settled(g, r.value)
            && Replay(env, Ready(cmd), store, trace) == Some((Term(lay, c), r.value.store))
    ensures |trace| == |trace0| + if Acts(g, env, m, e.slot, e.pick) then 1 else 0
  {
    hide Step, Compiled, Inv, Settled, Term, Takes, Replay, Acts;
    var ch, silent;
    c, ch, silent := StepRefines(env, g, cmd, lay, m, c0, e.slot, e.flag, e.pick);
    var m' := Step(g, env, m, e.slot, e.flag, e.pick).value;
    RunningFits(g, cmd, lay, m, c0);
    RunningFits(g, cmd, lay, m', c);
    trace := if silent then trace0 else trace0 + [ch];
    ReplayMore(env, Ready(cmd), store, trace0, Term(lay, c0), m.store, ch, silent, Term(lay, c), m'.store);
  }
}
