/**
 The other direction: every run of the structured semantics is a run of the compiled graph. A thread that is
 at a fork or an idle node can always go on, and does so finitely often; once every thread is at an action, a
 selection or a loop, each step of the structured semantics is one event of one slot.
 */
module ChpComplete {
  import opened Prelude
  import opened ChpLang
  import opened ChpGraph
  import opened ChpControl
  import opened ChpMove
  import opened ChpTerm
  import opened ChpWork
  import opened ChpSim
  import opened ChpRun
  import opened ChpExec
  import opened ChpStep
  import opened ChpTheorems
  import opened ChpReach

  /** Every thread is at an action, a selection or a loop. */
  ghost predicate Normal(lay: Lay, c: Ctl)
    requires Fit(lay, c)
    decreases c
  {
    match c
    case Off => true
    case Here(_) => lay.LAct? || lay.LBranch?
    case Fin(_) => false
    case In(i, d) => Normal(lay.ls[i], d)
    case Many(cs) => forall j | 0 <= j < |cs| :: Normal(lay.ls[j], cs[j])
  }

  /** A thread that is not: at a fork, an idle node or a closing node. */
  lemma {:induction false} Straggler(lay: Lay, c: Ctl) returns (s: nat)
    requires Fit(lay, c) && !Normal(lay, c)
    ensures s in Slots(c)
    ensures Fit(Leaf(lay, c, s).0, Leaf(lay, c, s).1)
    ensures var (l, d) := Leaf(lay, c, s); d == Fin(s) || (d == Here(s) && (l.LNop? || l.LComma?))
    decreases c
  {
    match c
    case Here(t) => s := t;
    case Fin(t) => s := t;
    case In(i, d) => s := Straggler(lay.ls[i], d);
    case Many(cs) =>
      var j :| 0 <= j < |cs| && !Normal(lay.ls[j], cs[j]);
      s := Straggler(lay.ls[j], cs[j]);
      OwnerIs(cs, j, s);
  }

  lemma {:induction false} RunFirst<S>(g: seq<Node>, env: Env<S>, m: Mach<S>, e: Event, evs: seq<Event>)
    requires Step(g, env, m, e.slot, e.flag, e.pick).Some?
    ensures Run(g, env, m, [e] + evs) == Run(g, env, Step(g, env, m, e.slot, e.flag, e.pick).value, evs)
    decreases |evs|
  {
    hide Step;
    if evs == [] {
      assert [e] + evs == [e] && [e][..0] == [];
    } else {
      var n := |evs| - 1;
      RunFirst(g, env, m, e, evs[..n]);
      assert ([e] + evs)[..n + 1] == [e] + evs[..n];
    }
  }

  lemma {:induction false} RunAppend<S>(g: seq<Node>, env: Env<S>, m: Mach<S>, es: seq<Event>, fs: seq<Event>)
    requires Run(g, env, m, es).Some?
    ensures Run(g, env, m, es + fs) == Run(g, env, Run(g, env, m, es).value, fs)
    decreases |fs|
  {
    hide Step;
    if fs == [] {
      assert es + fs == es;
    } else {
      var n := |fs| - 1;
      RunAppend(g, env, m, es, fs[..n]);
      assert (es + fs)[..|es| + n] == es + fs[..n];
    }
  }

  /** Executing the statement of a settled slot, and nothing else. */
  lemma {:induction false} StepSettled<S>(g: seq<Node>, env: Env<S>, m: Mach<S>, s: nat, flag: bool, pick: nat)
    requires Settled(g, m) && s < |m.pc| && m.pc[s].Some?
    ensures Step(g, env, m, s, flag, pick) == Execute(g, env, m, s, flag, pick)
  {
    hide Execute;
  }

  /**
   An event of a settled slot, exactly: if it does something it is the step of the structured semantics that this
   thread makes, with the event's flag and alternative; else nothing changes but the place of control.
   */
  lemma {:induction false} EventExactly<S>(
      env: Env<S>, g: seq<Node>, cmd: Cmd, lay: Lay, m: Mach<S>, c: Ctl, s: nat, flag: bool, pick: nat)
    returns (c': Ctl)
    requires Running(g, cmd, lay, m, c) && Settled(g, m) && s in Slots(c)
    ensures var r := Step(g, env, m, s, flag, pick);
            && r.Some? && Running(g, cmd, lay, r.value, c') && Settled(g, r.value)
            && if Acts(g, env, m, s, pick) then
                 Next(env, Term(lay, c), m.store, Choice(Path(c, s), flag, pick))
                 == Some((Term(lay, c'), r.value.store))
               else r.value.store == m.store && Term(lay, c') == Term(lay, c)
  {
    hide Running, Slots, Term, Execute, Step, Path, Next, LeafTerm, Acts, Leaf, Load;
    RunningFits(g, cmd, lay, m, c);
    SlotOf(g, cmd, lay, m, c, s);
    var l, kl := LeafHere(g, cmd, lay, m, c, s);
    StepSettled(g, env, m, s, flag, pick);
    var ch, silent;
    c', ch, silent := ExecuteCase(env, g, cmd, lay, m, c, s, l, kl, flag, pick);
    RunningFits(g, cmd, lay, Execute(g, env, m, s, flag, pick).value, c');
  }

  /** One event of bookkeeping. */
  lemma {:induction false} Tidy<S>(env: Env<S>, g: seq<Node>, cmd: Cmd, lay: Lay, m: Mach<S>, c: Ctl)
    returns (e: Event, c': Ctl)
    requires Running(g, cmd, lay, m, c) && Settled(g, m) && Fit(lay, c) && Sound(lay) && !Normal(lay, c)
    ensures e.slot < |m.pc|
    ensures var r := Step(g, env, m, e.slot, e.flag, e.pick);
            r.Some? && Running(g, cmd, lay, r.value, c') && Settled(g, r.value) && r.value.store == m.store
    ensures Fit(lay, c') && Term(lay, c') == Term(lay, c) && Load(lay, c') < Load(lay, c)
  {
    hide Running, Normal, Slots, At, Leaf, Term, Load, Execute, Step, LeafTerm, Path, Next;
    var s := Straggler(lay, c);
    SlotOf(g, cmd, lay, m, c, s);
    var l, kl := LeafHere(g, cmd, lay, m, c, s);
    e := Event(s, false, 0);
    StepSettled(g, env, m, s, false, 0);
    var ch, silent;
    c', ch, silent := ExecuteCase(env, g, cmd, lay, m, c, s, l, kl, false, 0);
    RunningFits(g, cmd, lay, Execute(g, env, m, s, false, 0).value, c');
  }

  lemma {:induction false} SlotOf<S>(g: seq<Node>, cmd: Cmd, lay: Lay, m: Mach<S>, c: Ctl, s: nat)
    requires Running(g, cmd, lay, m, c) && Fit(lay, c) && s in Slots(c)
    ensures s < |m.pc| && m.pc[s].Some?
  {
    hide Fit, Slots, At, Pool, Count, Leaves, Compiled;
  }

  /** Bookkeeping comes to an end, and neither the store nor the term left to run has changed. */
  lemma {:induction false} Quiesce<S>(env: Env<S>, g: seq<Node>, cmd: Cmd, lay: Lay, m: Mach<S>, c: Ctl)
    returns (evs: seq<Event>, c': Ctl)
    requires Running(g, cmd, lay, m, c) && Settled(g, m) && Fit(lay, c) && Sound(lay)
    ensures InRange(evs, |m.pc|)
    ensures var r := Run(g, env, m, evs);
            r.Some? && Running(g, cmd, lay, r.value, c') && Settled(g, r.value) && r.value.store == m.store
    ensures Fit(lay, c') && Normal(lay, c') && Term(lay, c') == Term(lay, c)
    decreases Load(lay, c)
  {
    hide Compiled, Inv, Settled, Fit, Sound, Normal, Term, Load, Step;
    if Normal(lay, c) {
      evs, c' := [], c;
    } else {
      var e, c1 := Tidy(env, g, cmd, lay, m, c);
      var rest;
      rest, c' := Quiesce(env, g, cmd, lay, Step(g, env, m, e.slot, e.flag, e.pick).value, c1);
      RunFirst(g, env, m, e, rest);
      evs := [e] + rest;
    }
  }

  // ----- which slot a step of the structured semantics belongs to

  lemma {:induction false} NormalTerm(lay: Lay, c: Ctl)
    requires Fit(lay, c) && Sound(lay) && Normal(lay, c) && !c.Off?
    ensures !Term(lay, c).Skip?
    decreases c
  {
    match c
    case In(i, d) => NormalTerm(lay.ls[i], d);
    case Many(cs) =>
      var j :| 0 <= j < |cs| && !cs[j].Off?;
      NormalTerm(lay.ls[j], cs[j]);
      assert TermAll(lay.ls, cs)[j] == Term(lay.ls[j], cs[j]);
    case _ =>
  }

  lemma {:induction false} FindSlot<S>(env: Env<S>, lay: Lay, c: Ctl, st: S, ch: Choice) returns (s: nat)
    requires Fit(lay, c) && Sound(lay) && Normal(lay, c) && Next(env, Term(lay, c), st, ch).Some?
    ensures s in Slots(c) && Leaf(lay, c, s).1 == Here(s) && (Leaf(lay, c, s).0.LAct? || Leaf(lay, c, s).0.LBranch?)
    ensures Sound(Leaf(lay, c, s).0) && Fit(Leaf(lay, c, s).0, Leaf(lay, c, s).1)
    ensures Next(env, Term(lay, c), st, ch) == Next(env, Term(lay, c), st, Choice(Path(c, s), ch.flag, ch.pick))
    ensures Next(env, LeafTerm(lay, c, s), st, Choice([], ch.flag, ch.pick)).Some?
    decreases c
  {
    hide NodesApart, IdsApart, SlotsApart;
    match c
    case Here(t) => s := t;
    case In(i, d) =>
      NormalTerm(lay.ls[i], d);
      NextAround(env, lay, i, Term(lay.ls[i], d), st, ch);
      s := FindSlot(env, lay.ls[i], d, st, ch);
      NextAround(env, lay, i, Term(lay.ls[i], d), st, Choice(Path(d, s), ch.flag, ch.pick));
      assert Leaf(lay, c, s) == Leaf(lay.ls[i], d, s);
    case Many(cs) =>
      NormalTerm(lay, c);
      s := FindBranch(env, lay, cs, st, ch);
    case _ =>
  }

  lemma {:induction false} FindBranch<S>(env: Env<S>, lay: Lay, cs: seq<Ctl>, st: S, ch: Choice) returns (s: nat)
    requires Fit(lay, Many(cs)) && Sound(lay) && Normal(lay, Many(cs)) && Next(env, Term(lay, Many(cs)), st, ch).Some?
    requires !Term(lay, Many(cs)).Skip?
    ensures s in Slots(Many(cs))
    ensures var (l, d) := Leaf(lay, Many(cs), s); d == Here(s) && (l.LAct? || l.LBranch?) && Sound(l) && Fit(l, d)
    ensures Next(env, Term(lay, Many(cs)), st, ch)
            == Next(env, Term(lay, Many(cs)), st, Choice(Path(Many(cs), s), ch.flag, ch.pick))
    ensures Next(env, LeafTerm(lay, Many(cs), s), st, Choice([], ch.flag, ch.pick)).Some?
    decreases cs
  {
    hide NodesApart, IdsApart;
    var ts := TermAll(lay.ls, cs);
    assert Term(lay, Many(cs)) == Comma(ts);
    var j := ch.path[0];
    s := FindSlot(env, lay.ls[j], cs[j], st, ch.(path := ch.path[1..]));
    OwnerIs(cs, j, s);
    assert Leaf(lay, Many(cs), s) == Leaf(lay.ls[j], cs[j], s);
    var path := Path(cs[j], s);
    assert Path(Many(cs), s) == [j] + path && ([j] + path)[0] == j && ([j] + path)[1..] == path;
  }

  lemma {:induction false} NextAround<S>(env: Env<S>, lay: Lay, i: nat, t: Cmd, st: S, ch: Choice)
    requires Sound(lay) && (lay.LSemi? || lay.LBranch?) && i < |lay.ls| && !t.Skip?
    ensures Next(env, Around(lay, i, t), st, ch)
            == match Next(env, t, st, ch) case None => None case Some(r) => Some((Around(lay, i, r.0), r.1))
  {
    if lay.LSemi? {
      NextThen(env, t, lay.cs[i + 1..], st, ch);
    } else if lay.isLoop {
      var loop := BranchTerm(true, lay.arb, lay.guards, lay.bs);
      NextThen(env, t, [loop], st, ch);
      ThenOneLoop(t, loop);
      if Next(env, t, st, ch).Some? { ThenOneLoop(Next(env, t, st, ch).value.0, loop); }
    }
  }

  lemma {:induction false} NextThen<S>(env: Env<S>, t: Cmd, rest: seq<Cmd>, st: S, ch: Choice)
    requires !t.Skip?
    ensures Next(env, Then(t, rest), st, ch)
            == match Next(env, t, st, ch) case None => None case Some(r) => Some((Then(r.0, rest), r.1))
  {
    if rest == [] {
      if Next(env, t, st, ch).Some? { ThenNothing(Next(env, t, st, ch).value.0); }
    } else {
      assert ([t] + rest)[0] == t && ([t] + rest)[1..] == rest;
    }
  }

  lemma ThenNothing(t: Cmd)
    ensures Then(t, []) == t
  {
  }

  // ----- the simulation of structured steps

  /** A step of the structured semantics is one event. */
  lemma {:induction false} Realise<S>(env: Env<S>, g: seq<Node>, cmd: Cmd, lay: Lay, m: Mach<S>, c: Ctl, ch: Choice)
    returns (e: Event, c': Ctl)
    requires Running(g, cmd, lay, m, c) && Settled(g, m) && Fit(lay, c) && Sound(lay) && Normal(lay, c)
    requires Next(env, Term(lay, c), m.store, ch).Some?
    ensures e.slot < |m.pc|
    ensures var r := Step(g, env, m, e.slot, e.flag, e.pick);
            && r.Some? && Running(g, cmd, lay, r.value, c') && Settled(g, r.value)
            && Fit(lay, c') && Next(env, Term(lay, c), m.store, ch) == Some((Term(lay, c'), r.value.store))
  {
    hide Running, Normal, Slots, At, Term, Load, Execute, Step, Path, Next, Leaf, LeafTerm, Sound, Faithful, Links,
         Entry1;
    var s := FindSlot(env, lay, c, m.store, ch);
    SlotOf(g, cmd, lay, m, c, s);
    var l, kl := LeafHere(g, cmd, lay, m, c, s);
    e := Event(s, ch.flag, ch.pick);
    StepSettled(g, env, m, s, ch.flag, ch.pick);
    var ch', silent;
    c', ch', silent := ExecuteCase(env, g, cmd, lay, m, c, s, l, kl, ch.flag, ch.pick);
    PathFree(env, l, s, m.store, Choice([], ch.flag, ch.pick), ch', lay, c);
    RunningFits(g, cmd, lay, Execute(g, env, m, s, ch.flag, ch.pick).value, c');
  }

  /** At an action, a selection or a loop the comma branches of the choice do not matter. */
  lemma {:induction false} PathFree<S>(env: Env<S>, l: Lay, s: nat, st: S, ch: Choice, ch': Choice, lay: Lay, c: Ctl)
    requires Fit(lay, c) && s in Slots(c) && Leaf(lay, c, s) == (l, Here(s)) && Sound(l) && Fit(l, Here(s))
    requires l.LAct? || l.LBranch?
    requires ch.flag == ch'.flag && ch.pick == ch'.pick
    ensures Next(env, LeafTerm(lay, c, s), st, ch) == Next(env, LeafTerm(lay, c, s), st, ch')
  {
    hide Allowed, AnyMatch;
  }

  /**
   Every run of the structured semantics, up to any point, is matched by a run of the compiled graph that
   reaches the same store with the same term left to run, and every thread at an action, selection or loop.
   */
  lemma {:induction false} ReplayRealised<S>(
      env: Env<S>, g: seq<Node>, cmd: Cmd, lay: Lay, npc: nat, counters: nat, store: S, trace: seq<Choice>)
    returns (evs: seq<Event>, c: Ctl)
    requires Program(g, cmd, lay, npc, counters) && Replay(env, Ready(cmd), store, trace).Some?
    ensures InRange(evs, npc)
    ensures var r := Run(g, env, Initial(npc, counters, Entry(lay), store), evs);
            && r.Some? && Running(g, cmd, lay, r.value, c) && Settled(g, r.value)
            && Fit(lay, c) && Sound(lay) && Normal(lay, c)
            && Replay(env, Ready(cmd), store, trace) == Some((Term(lay, c), r.value.store))
    decreases |trace|
  {
    hide Initial, Step, Compiled, Inv, Settled, Term, Next, Enter, Normal, Sound, Fit, Run;
    var m0 := Initial(npc, counters, Entry(lay), store);
    if trace == [] {
      Starts(g, cmd, lay, npc, counters, store);
      RunningFits(g, cmd, lay, m0, Enter(lay, 0));
      evs, c := Quiesce(env, g, cmd, lay, m0, Enter(lay, 0));
    } else {
      var n := |trace| - 1;
      var evs0, c0 := ReplayRealised(env, g, cmd, lay, npc, counters, store, trace[..n]);
      evs, c := RealiseMore(env, g, cmd, lay, m0, evs0, c0, trace[n]);
    }
  }

  lemma {:induction false} RealiseMore<S>(
      env: Env<S>, g: seq<Node>, cmd: Cmd, lay: Lay, m0: Mach<S>, evs0: seq<Event>, c0: Ctl, ch: Choice)
    returns (evs: seq<Event>, c: Ctl)
    requires InRange(evs0, MaxPc(cmd)) && Run(g, env, m0, evs0).Some?
    requires Running(g, cmd, lay, Run(g, env, m0, evs0).value, c0) && Settled(g, Run(g, env, m0, evs0).value)
    requires Fit(lay, c0) && Sound(lay) && Normal(lay, c0)
             && Next(env, Term(lay, c0), Run(g, env, m0, evs0).value.store, ch).Some?
    ensures InRange(evs, MaxPc(cmd)) && Run(g, env, m0, evs).Some?
    ensures var m := Run(g, env, m0, evs).value;
            && Running(g, cmd, lay, m, c) && Settled(g, m) && Fit(lay, c) && Normal(lay, c)
            && Next(env, Term(lay, c0), Run(g, env, m0, evs0).value.store, ch) == Some((Term(lay, c), m.store))
  {
    hide Step, Compiled, Inv, Settled, Term, Next, Normal, Sound, Fit;
    var m := Run(g, env, m0, evs0).value;
    var e, c1 := Realise(env, g, cmd, lay, m, c0, ch);
    var m1 := Step(g, env, m, e.slot, e.flag, e.pick).value;
    var rest;
    rest, c := Quiesce(env, g, cmd, lay, m1, c1);
    RunFirst(g, env, m, e, rest);
    RunAppend(g, env, m0, evs0, [e] + rest);
    evs := evs0 + ([e] + rest);
  }

  // ----- the compiled program and the structured one

  /** The run ends with all slots free. */
  predicate Finishes<S(==)>(g: seq<Node>, env: Env<S>, m0: Mach<S>, evs: seq<Event>, store: S)
  {
    var r := Run(g, env, m0, evs);
    InRange(evs, |m0.pc|) && r.Some? && Live(r.value) == {} && r.value.store == store
  }

  predicate Replays<S(==)>(env: Env<S>, cmd: Cmd, store: S, trace: seq<Choice>, store': S)
  {
    Replay(env, Ready(cmd), store, trace) == Some((Skip, store'))
  }

  /**
   Compilation preserves meaning: the compiled program can end in a store exactly when the structured
   program can.
   */
  lemma {:induction false} SameFinalStores<S>(
      env: Env<S>, g: seq<Node>, cmd: Cmd, lay: Lay, npc: nat, counters: nat, store: S, store': S)
    requires Program(g, cmd, lay, npc, counters)
    ensures (exists evs :: Finishes(g, env, Initial(npc, counters, Entry(lay), store), evs, store'))
            <==> (exists trace :: Replays(env, cmd, store, trace, store'))
  {
    hide Initial, Compiled, Inv, Settled, Term, Next, Normal, Sound, Run, Replay, Live;
    Starts(g, cmd, lay, npc, counters, store);
    var m0 := Initial(npc, counters, Entry(lay), store);
    if evs :| Finishes(g, env, m0, evs, store') {
      var c, trace := RunRefines(env, g, cmd, lay, npc, counters, store, evs);
      UsedIsLive(g, cmd, lay, Run(g, env, m0, evs).value, c);
      assert Replays(env, cmd, store, trace, store');
    }
    if trace :| Replays(env, cmd, store, trace, store') {
      var evs, c := ReplayRealised(env, g, cmd, lay, npc, counters, store, trace);
      AllFree(g, cmd, lay, Run(g, env, m0, evs).value, c);
      assert Finishes(g, env, m0, evs, store');
    }
  }

  lemma {:induction false} AllFree<S>(g: seq<Node>, cmd: Cmd, lay: Lay, m: Mach<S>, c: Ctl)
    requires Running(g, cmd, lay, m, c) && Fit(lay, c) && Sound(lay) && Normal(lay, c) && Term(lay, c) == Skip
    ensures Live(m) == {}
  {
    hide Compiled, Pool, Of;
    if !c.Off? { NormalTerm(lay, c); }
    assert Slots(c) == {};
  }

  /** Where the structured program is stuck, so is the compiled one: no event of any slot changes anything. */
  lemma {:induction false} StuckAlike<S>(
      env: Env<S>, g: seq<Node>, cmd: Cmd, lay: Lay, m: Mach<S>, c: Ctl, s: nat, flag: bool, pick: nat)
    requires Running(g, cmd, lay, m, c) && Settled(g, m) && Fit(lay, c) && Sound(lay) && Normal(lay, c) && s < |m.pc|
    requires forall ch :: Next(env, Term(lay, c), m.store, ch).None?
    ensures Step(g, env, m, s, flag, pick) == Some(m)
  {
    hide Running, Normal, Slots, At, Term, Load, Execute, Path, Next, Leaf, LeafTerm, Sound, Faithful, Links, Entry1;
    if m.pc[s].Some? {
      var l, kl := LeafHere(g, cmd, lay, m, c, s);
      NormalLeaf(lay, c, s);
      var c', ch, silent := ExecuteCase(env, g, cmd, lay, m, c, s, l, kl, flag, pick);
    }
  }

  lemma {:induction false} NormalLeaf(lay: Lay, c: Ctl, s: nat)
    requires Fit(lay, c) && Normal(lay, c) && s in Slots(c)
    ensures Leaf(lay, c, s).0.LAct? || Leaf(lay, c, s).0.LBranch?
    decreases c
  {
    hide SlotsApart;
    match c
    case In(i, d) => NormalLeaf(lay.ls[i], d, s);
    case Many(cs) => NormalLeaf(lay.ls[Owner(cs, s)], cs[Owner(cs, s)], s);
    case _ =>
  }
}
