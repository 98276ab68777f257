/**
 From the statement to the end of a simulation: build the graph, allocate the slots, let events happen.
 */
module ChpMain {
  import opened Prelude
  import opened ChpLang
  import opened ChpGraph
  import opened ChpControl
  import opened ChpTerm
  import opened ChpBuilder
  import opened ChpSim
  import opened ChpRun
  import opened ChpExec
  import opened ChpStep
  import opened ChpTheorems
  import opened ChpReach
  import M = ChpMachine

  /** In every selection and loop node the unguarded alternative is the last one. */
  predicate GuardsOk(g: seq<Node>, nodes: set<nat>)
  {
    forall n | n in nodes && n < |g| && g[n].stmt.Some? ::
      g[n].stmt.value.SCond? || g[n].stmt.value.SLoop? ==> ElseLast(g[n].stmt.value.guards)
  }

  lemma {:induction false} GuardsKept(g: seq<Node>, c: Cmd, lay: Lay, k: Option<nat>)
    requires WellFormed(c) && Of(c, lay) && Links(g, lay, k)
    ensures GuardsOk(g, Nodes(lay))
    decreases c
  {
    hide GuardsOk, Nodes, NodesOf, Links, Cont;
    if lay.LNull? || lay.LNop? || lay.LAct? {
      GuardsPlain(g, lay, k);
    } else {
      forall i | 0 <= i < |lay.ls| ensures Links(g, lay.ls[i], PartCont(lay, i, k)) { LinksPart(g, lay, i, k); }
      match c
      case Semi(cs) =>
        if |cs| == 1 {
          GuardsKept(g, cs[0], lay, k);
        } else {
          forall i | 0 <= i < |cs| ensures GuardsOk(g, Nodes(lay.ls[i])) {
            GuardsKept(g, cs[i], lay.ls[i], PartCont(lay, i, k));
          }
          GuardsWhole(g, lay, k);
        }
      case Comma(cs) =>
        if |cs| == 1 {
          GuardsKept(g, cs[0], lay, k);
        } else {
          forall i | 0 <= i < |cs| ensures GuardsOk(g, Nodes(lay.ls[i])) {
            GuardsKept(g, cs[i], lay.ls[i], PartCont(lay, i, k));
          }
          GuardsWhole(g, lay, k);
        }
      case Select(_, _, bs) =>
        forall i | 0 <= i < |bs| ensures GuardsOk(g, Nodes(lay.ls[i])) {
          GuardsKept(g, bs[i], lay.ls[i], PartCont(lay, i, k));
        }
        GuardsWhole(g, lay, k);
      case Loop(_, bs) =>
        forall i | 0 <= i < |bs| ensures GuardsOk(g, Nodes(lay.ls[i])) {
          GuardsKept(g, bs[i], lay.ls[i], PartCont(lay, i, k));
        }
        GuardsWhole(g, lay, k);
      case DoLoop(_, body) =>
        var loop := lay.ls[1];
        LinksPart(g, loop, 0, PartCont(lay, 1, k));
        GuardsKept(g, body, lay.ls[0], PartCont(lay, 0, k));
        GuardsKept(g, body, loop.ls[0], PartCont(loop, 0, PartCont(lay, 1, k)));
        GuardsWhole(g, loop, PartCont(lay, 1, k));
        GuardsWhole(g, lay, k);
      case _ =>
    }
  }

  function PartCont(lay: Lay, i: nat, k: Option<nat>): Option<nat>
    requires lay.LSemi? || lay.LComma? || lay.LBranch?
  {
    if lay.LComma? then Some(lay.join) else Cont(lay, i, k)
  }

  lemma LinksPart(g: seq<Node>, lay: Lay, i: nat, k: Option<nat>)
    requires (lay.LSemi? || lay.LComma? || lay.LBranch?) && i < |lay.ls| && Links(g, lay, k)
    ensures Links(g, lay.ls[i], PartCont(lay, i, k))
  {
  }

  lemma GuardsPlain(g: seq<Node>, lay: Lay, k: Option<nat>)
    requires (lay.LNull? || lay.LNop? || lay.LAct?) && Links(g, lay, k)
    ensures GuardsOk(g, Nodes(lay))
  {
  }

  /** The nodes of the parts, and the statement's own. */
  lemma {:induction false} GuardsWhole(g: seq<Node>, lay: Lay, k: Option<nat>)
    requires (lay.LSemi? || lay.LComma? || lay.LBranch?) && Links(g, lay, k)
    requires (lay.LBranch? ==> ElseLast(lay.guards)) && forall i | 0 <= i < |lay.ls| :: GuardsOk(g, Nodes(lay.ls[i]))
    ensures GuardsOk(g, Nodes(lay))
  {
    hide Links, NodesOf;
    if lay.LComma? || lay.LBranch? { OwnNodes(g, lay, k); }
    forall n | n in NodesOf(lay.ls) && n < |g| && g[n].stmt.Some?
      ensures g[n].stmt.value.SCond? || g[n].stmt.value.SLoop? ==> ElseLast(g[n].stmt.value.guards)
    {
      var i := PartOf(lay.ls, n);
    }
  }

  lemma OwnNodes(g: seq<Node>, lay: Lay, k: Option<nat>)
    requires (lay.LComma? || lay.LBranch?) && Links(g, lay, k) && (lay.LBranch? ==> ElseLast(lay.guards))
    ensures GuardsOk(g, if lay.LComma? then {lay.fork, lay.join} else {lay.n, lay.stop})
  {
  }

  lemma PartOf(ls: seq<Lay>, n: nat) returns (i: nat)
    requires n in NodesOf(ls)
    ensures i < |ls| && n in Nodes(ls[i])
  {
    i :| 0 <= i < |ls| && n in Nodes(ls[i]);
  }

  /** An event of a slot, and the number the random source would give at a nondeterministic selection. */
  datatype Stimulus = Stimulus(slot: nat, flag: bool, random: nat)

  // ----- used slots and live slots

  /** What the builder gives for a whole program, and the simulator's constructor is given. */
  ghost predicate Loaded(g: seq<Node>, c: Cmd, lay: Lay, ret: Option<nat>, stop: nat, cur: nat, npc: nat, counters: nat)
  {
    && WellFormed(c) && Built([], g, 0, cur, c, ret, stop, lay) && ChainsDown(g)
    && cur <= counters && npc == MaxPc(c) >= 1
  }

  /** Nothing to run: the first slot is marked used, but no slot is live. */
  ghost predicate Vacuous<S>(m: Mach<S>, c: Cmd, store: S)
  {
    MaxPc(c) >= 1 && m == Initial(MaxPc(c), |m.tot|, None, store) && Ready(c) == Skip
  }

  /** A program of skips: events of its slots change nothing, and one slot stays marked used with none live. */
  lemma {:induction false} VacuousCount<S>(
      env: Env<S>, g: seq<Node>, c: Cmd, npc: nat, counters: nat, store: S, evs: seq<Event>)
    requires WellFormed(c) && Idle(c) && npc == MaxPc(c) >= 1 && InRange(evs, npc)
    ensures var m := Initial(npc, counters, None, store);
            Run(g, env, m, evs) == Some(m) && m.used == 1 && Live(m) == {}
    decreases |evs|
  {
    MaxPcPositive(c);
    ReadyIdle(c);
    if evs != [] {
      var n := |evs| - 1;
      var m := Initial(npc, counters, None, store);
      VacuousCount(env, g, c, npc, counters, store, evs[..n]);
      VacuousStep(env, g, c, m, store, evs[n].slot, evs[n].flag, evs[n].pick);
    }
  }

  /**
   The number of used slots is the number of live ones in every reachable state of a program that has something
   to run, and in no state of a program that has not.
   */
  lemma {:induction false} CountExact<S>(
      env: Env<S>, g: seq<Node>, c: Cmd, lay: Lay, ret: Option<nat>, stop: nat, cur: nat, npc: nat, counters: nat,
      store: S, evs: seq<Event>)
    requires Loaded(g, c, lay, ret, stop, cur, npc, counters) && InRange(evs, npc)
    ensures var r := Run(g, env, Initial(npc, counters, ret, store), evs);
            r.Some? && (r.value.used == |Live(r.value)| <==> !Idle(c))
  {
    hide Run, Running, Initial, Live, Sound, Links, Of, Lean, ChainsDown, Nodes, Ids;
    NullIsIdle(c, lay);
    if Idle(c) {
      VacuousCount(env, g, c, npc, counters, store, evs);
    } else {
      BuiltIsProgram(g, cur, counters, c, ret, stop, lay);
      var ctl, trace := RunRefines(env, g, c, lay, npc, counters, store, evs);
      UsedIsLive(g, c, lay, Run(g, env, Initial(npc, counters, ret, store), evs).value, ctl);
    }
  }

  /** The smallest program whose count is wrong. */
  lemma SkipMiscounts<S>(env: Env<S>, store: S)
    ensures Loaded([], Skip, LNull, None, 0, 0, 1, 0)
    ensures var m := Initial(1, 0, None, store);
            Run([], env, m, []) == Some(m) && m.used == 1 && Live(m) == {}
  {
  }

  /** What holds between events. */
  ghost predicate Between<S>(
      env: Env<S>, g: seq<Node>, cmd: Cmd, lay: Lay, m: Mach<S>, store: S, c: Ctl, trace: seq<Choice>)
  {
    if lay.LNull? then Vacuous(m, cmd, store) && trace == []
    else
      && Running(g, cmd, lay, m, c) && Settled(g, m) && Fit(lay, c) && Sound(lay)
      && Replay(env, Ready(cmd), store, trace) == Some((Term(lay, c), m.store))
  }

  /** Any event may happen next. */
  lemma {:induction false} BetweenSteps<S>(
      env: Env<S>, g: seq<Node>, cmd: Cmd, lay: Lay, m: Mach<S>, store: S, c: Ctl, trace: seq<Choice>, s: nat,
          flag: bool)
    requires Between(env, g, cmd, lay, m, store, c, trace) && s < |m.pc|
    ensures forall p :: Step(g, env, m, s, flag, p).Some?
  {
    hide Compiled, Inv, Settled, Sound, Fit, Term, Step;
    if lay.LNull? {
      forall p ensures Step(g, env, m, s, flag, p).Some? { VacuousStep(env, g, cmd, m, store, s, flag, p); }
    } else {
      forall p ensures Step(g, env, m, s, flag, p).Some? {
        var c', ch, silent := StepRefines(env, g, cmd, lay, m, c, s, flag, p);
      }
    }
  }

  lemma {:induction false} BetweenNext<S>(
      env: Env<S>, g: seq<Node>, cmd: Cmd, lay: Lay, m: Mach<S>, store: S, c: Ctl, trace: seq<Choice>, s: nat,
          flag: bool, p: nat)
    returns (c': Ctl, trace': seq<Choice>)
    requires Between(env, g, cmd, lay, m, store, c, trace) && s < |m.pc|
    ensures Step(g, env, m, s, flag, p).Some? && |Step(g, env, m, s, flag, p).value.pc| == |m.pc|
    ensures Between(env, g, cmd, lay, Step(g, env, m, s, flag, p).value, store, c', trace')
    ensures |trace'| == |trace| + if Acts(g, env, m, s, p) then 1 else 0
  {
    hide Compiled, Inv, Settled, Sound, Fit, Term, Step, Replay, Acts;
    if lay.LNull? {
      c', trace' := c, trace;
      VacuousStep(env, g, cmd, m, store, s, flag, p);
    } else {
      c', trace' := RunMore(env, g, cmd, lay, m, c, store, trace, Event(s, flag, p));
      RunningFits(g, cmd, lay, Step(g, env, m, s, flag, p).value, c');
    }
  }

  /** Between events every slot is free or at a statement. */
  lemma {:induction false} BetweenStill<S>(
      env: Env<S>, g: seq<Node>, cmd: Cmd, lay: Lay, m: Mach<S>, store: S, c: Ctl, trace: seq<Choice>, s: nat)
    requires Between(env, g, cmd, lay, m, store, c, trace) && s < |m.pc|
    ensures Fold(g, m, s) == Some(m)
  {
    hide Running, Replay, Sound, Fit;
    FoldSettled(g, env, m, s, 0);
  }

  lemma VacuousStep<S>(env: Env<S>, g: seq<Node>, cmd: Cmd, m: Mach<S>, store: S, s: nat, flag: bool, p: nat)
    requires Vacuous(m, cmd, store) && s < |m.pc|
    ensures Step(g, env, m, s, flag, p) == Some(m) && !Acts(g, env, m, s, p)
  {
  }

  // ----- the events of a simulation

  /** The stimuli for slots that exist. */
  function Heard(schedule: seq<Stimulus>, npc: nat): seq<Stimulus>
  {
    if schedule == [] then []
    else
      var n := |schedule| - 1;
      Heard(schedule[..n], npc) + if schedule[n].slot < npc then [schedule[n]] else []
  }

  /** A whole simulation: the graph, the state it starts in, and the events. */
  datatype Log<S> = Log(g: seq<Node>, start: Mach<S>, evs: seq<Event>)

  /** The events are those of the stimuli, and every selection and loop chooses as it should. */
  ghost predicate Obeys<S>(env: Env<S>, log: Log<S>, heard: seq<Stimulus>)
  {
    && |log.evs| == |heard|
    && forall i | 0 <= i < |heard| ::
         var r := Run(log.g, env, log.start, log.evs[..i]);
         && log.evs[i].slot == heard[i].slot && log.evs[i].flag == heard[i].flag
         && r.Some? && M.Picked(log.g, env, r.value, heard[i].slot, heard[i].random, log.evs[i].pick)
  }

  /** The state reached, and as many steps of the structured program as events that did something. */
  ghost predicate Reached<S>(env: Env<S>, log: Log<S>, m: Mach<S>, trace: seq<Choice>)
  {
    Run(log.g, env, log.start, log.evs) == Some(m) && |trace| == Actions(log.g, env, log.start, log.evs)
  }

  lemma NoEventYet<S>(env: Env<S>, g: seq<Node>, m: Mach<S>)
    ensures Obeys(env, Log(g, m, []), []) && Reached(env, Log(g, m, []), m, [])
  {
  }

  lemma ReachedIs<S>(env: Env<S>, log: Log<S>, m: Mach<S>, trace: seq<Choice>)
    requires Reached(env, log, m, trace)
    ensures Run(log.g, env, log.start, log.evs) == Some(m) && |trace| == Actions(log.g, env, log.start, log.evs)
  {
  }

  lemma NoneHeard(schedule: seq<Stimulus>, npc: nat)
    ensures Heard(schedule[..0], npc) == []
  {
  }

  lemma HeardMore(schedule: seq<Stimulus>, npc: nat, i: nat)
    requires i < |schedule|
    ensures var heard := Heard(schedule[..i], npc);
            Heard(schedule[..i + 1], npc) == if schedule[i].slot < npc then heard + [schedule[i]] else heard
  {
    assert schedule[..i + 1][..i] == schedule[..i];
  }

  lemma {:induction false} OneMoreEvent<S>(
      env: Env<S>, log: Log<S>, heard: seq<Stimulus>, m: Mach<S>, trace: seq<Choice>, st: Stimulus, pick: nat,
      trace': seq<Choice>)
    requires Obeys(env, log, heard) && Reached(env, log, m, trace)
    requires M.Picked(log.g, env, m, st.slot, st.random, pick) && Step(log.g, env, m, st.slot, st.flag, pick).Some?
    requires |trace'| == |trace| + if Acts(log.g, env, m, st.slot, pick) then 1 else 0
    ensures var log' := log.(evs := log.evs + [Event(st.slot, st.flag, pick)]);
            && Obeys(env, log', heard + [st])
            && Reached(env, log', Step(log.g, env, m, st.slot, st.flag, pick).value, trace')
  {
    hide M.Picked, Step, Acts;
    var evs := log.evs + [Event(st.slot, st.flag, pick)];
    assert forall i | 0 <= i <= |log.evs| :: evs[..i] == log.evs[..i];
    assert log.evs[..|log.evs|] == log.evs;
  }

  /** An event at a selection with a true guard, or at a loop, is a step of the structured program. */
  lemma {:induction false} ObeysActs<S>(env: Env<S>, log: Log<S>, heard: seq<Stimulus>, i: nat)
    requires Obeys(env, log, heard) && i < |heard|
    ensures var r := Run(log.g, env, log.start, log.evs[..i]);
            && r.Some?
            && match NodeOf(log.g, r.value, heard[i].slot)
               case Some(Node(Some(SCond(_, guards)), _, _, _, _)) =>
                 Acts(log.g, env, r.value, heard[i].slot, log.evs[i].pick) <==> AnyMatch(env, guards, r.value.store)
               case Some(Node(Some(SLoop(_)), _, _, _, _)) =>
                 Acts(log.g, env, r.value, heard[i].slot, log.evs[i].pick)
               case _ => true
  {
    hide M.Picked, Run, Acts;
    var r := Run(log.g, env, log.start, log.evs[..i]);
    M.PickedActs(log.g, env, r.value, heard[i].slot, heard[i].random, log.evs[i].pick);
  }

  /**
   Builds the graph of a statement and simulates it under any schedule. What comes out is a store that the
   structured program can reach, and a final one if no slot is in use any more. Every event that does something is
   one step of the structured program, and no event at a selection passes over a true guard.
   */
  method Simulate<S>(c: Cmd, env: Env<S>, store: S, schedule: seq<Stimulus>)
    returns (final: S, done: bool, ghost trace: seq<Choice>, ghost rest: Cmd, ghost log: Log<S>)
    requires WellFormed(c)
    ensures |log.start.pc| == MaxPc(c) && Obeys(env, log, Heard(schedule, MaxPc(c)))
    ensures Run(log.g, env, log.start, log.evs).Some? && Run(log.g, env, log.start, log.evs).value.store == final
    ensures |trace| == Actions(log.g, env, log.start, log.evs)
    ensures Replay(env, Ready(c), store, trace) == Some((rest, final))
    ensures done ==> rest == Skip
  {
    hide Between, Built, ChainsDown, WellFormed, Initial, Enter, Replay, Ready, ElseLast, Counters, Idle, Obeys,
         M.Picked, Run, Actions, Acts, Heard, Reached;
    var b := new Builder();
    var ret, stop, lay := b.BuildProgram(c);
    var npc := MaxProgramCounters(c);
    MaxPcPositive(c);
    var sim := new M.Simulator(b.nodes, env, ret, npc, b.max, store);
    ghost var g := b.nodes;
    ghost var ctl := Enter(lay, 0);
    trace := [];
    LoadedStarts(env, g, c, lay, ret, stop, b.cur, npc, b.max, store);
    log := Log(g, Initial(npc, b.max, ret, store), []);
    NoEventYet(env, g, log.start);
    NoneHeard(schedule, npc);
    for i := 0 to |schedule|
      invariant sim.Separate() && sim.pc.Length == npc && sim.g == g && sim.env == env
      invariant fresh(sim) && fresh(sim.pc) && fresh(sim.holes) && fresh(sim.tot)
      invariant |sim.State().pc| == npc && Between(env, g, c, lay, sim.State(), store, ctl, trace)
      invariant log.g == g && |log.start.pc| == npc && Reached(env, log, sim.State(), trace)
      invariant Obeys(env, log, Heard(schedule[..i], npc))
    {
      HeardMore(schedule, npc, i);
      if schedule[i].slot < npc {
        ghost var m := sim.State();
        BetweenSteps(env, g, c, lay, m, store, ctl, trace, schedule[i].slot, schedule[i].flag);
        var pick := sim.Step(schedule[i].slot, schedule[i].flag, schedule[i].random);
        BetweenStill(env, g, c, lay, m, store, ctl, trace, schedule[i].slot);
        ghost var trace0 := trace;
        ctl, trace := BetweenNext(env, g, c, lay, m, store, ctl, trace, schedule[i].slot, schedule[i].flag, pick);
        OneMoreEvent(env, log, Heard(schedule[..i], npc), m, trace0, schedule[i], pick, trace);
        log := log.(evs := log.evs + [Event(schedule[i].slot, schedule[i].flag, pick)]);
      }
    }
    assert schedule[..|schedule|] == schedule;
    ReachedIs(env, log, sim.State(), trace);
    final := sim.store;
    done := ret.None? || sim.used == 0;
    rest := BetweenRest(env, g, c, lay, sim.State(), store, ctl, trace);
  }

  /** A program just loaded. */
  lemma {:induction false} LoadedStarts<S>(
      env: Env<S>, g: seq<Node>, c: Cmd, lay: Lay, ret: Option<nat>, stop: nat, cur: nat, npc: nat, counters: nat,
      store: S)
    requires Loaded(g, c, lay, ret, stop, cur, npc, counters)
    ensures Between(env, g, c, lay, Initial(npc, counters, ret, store), store, Enter(lay, 0), [])
    ensures |Initial(npc, counters, ret, store).pc| == npc && (ret.None? <==> lay.LNull?)
    ensures forall n | 0 <= n < |g| && g[n].stmt.Some? ::
              (g[n].stmt.value.SCond? || g[n].stmt.value.SLoop? ==> ElseLast(g[n].stmt.value.guards))
  {
    hide Sound, Links, Of, Lean, ChainsDown, Nodes, Ids, Running, Settled, Fit, Term, Enter, Entry, ElseLast, Ready;
    GuardsKept(g, c, lay, None);
    BuiltEmpty(c, lay);
    if ret.Some? {
      BuiltIsProgram(g, cur, counters, c, ret, stop, lay);
      Starts(g, c, lay, npc, counters, store);
      RunningFits(g, c, lay, Initial(npc, counters, ret, store), Enter(lay, 0));
    }
  }

  /** What is left to run; nothing, when no slot is used. */
  lemma {:induction false} BetweenRest<S>(
      env: Env<S>, g: seq<Node>, cmd: Cmd, lay: Lay, m: Mach<S>, store: S, c: Ctl, trace: seq<Choice>)
    returns (rest: Cmd)
    requires Between(env, g, cmd, lay, m, store, c, trace)
    ensures Replay(env, Ready(cmd), store, trace) == Some((rest, m.store))
    ensures lay.LNull? || m.used == 0 ==> rest == Skip
  {
    hide Running, Settled, Fit, Sound, Term;
    if lay.LNull? {
      rest := Skip;
    } else {
      rest := Term(lay, c);
      UsedIsLive(g, cmd, lay, m, c);
      assert m.used == 0 ==> Live(m) == {};
    }
  }

  lemma {:induction false} BuiltEmpty(c: Cmd, lay: Lay)
    requires Of(c, lay)
    ensures lay.LNull? ==> Ready(c) == Skip
  {
  }
}
