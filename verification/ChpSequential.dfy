/**
 Programs without concurrency: a big-step meaning, its agreement with the small-step one, and what follows for
 compiled programs.
 */
module ChpSequential {
  import opened Prelude
  import opened ChpLang
  import opened ChpGraph
  import opened ChpControl
  import opened ChpTerm
  import opened ChpSim
  import opened ChpTheorems
  import opened ChpComplete

  /** No comma of two or more branches, and no nondeterministic selection. */
  predicate Sequential(c: Cmd)
  {
    match c
    case Semi(cs) => forall i | 0 <= i < |cs| :: Sequential(cs[i])
    case Comma(cs) => |cs| <= 1 && forall i | 0 <= i < |cs| :: Sequential(cs[i])
    case Select(arb, _, bs) => !arb && forall i | 0 <= i < |bs| :: Sequential(bs[i])
    case Loop(_, bs) => forall i | 0 <= i < |bs| :: Sequential(bs[i])
    case DoLoop(_, body) => Sequential(body)
    case _ => true
  }

  /** What an action does when it is tried once for each flag, if it blocks until the last try and then completes. */
  function Tries<S>(env: Env<S>, a: nat, s: S, flags: seq<bool>): Option<S>
    decreases |flags|
  {
    if flags == [] then None
    else
      var o := env.run(a, flags[0], s);
      if o.done then (if |flags| == 1 then Some(o.store) else None) else Tries(env, a, o.store, flags[1..])
  }

  /** However often an action blocks and whatever wakes it, there is only one store it can complete with. */
  ghost predicate Settled<S(!new)>(env: Env<S>)
  {
    forall a, s, fs, fs' | Tries(env, a, s, fs).Some? && Tries(env, a, s, fs').Some? ::
      Tries(env, a, s, fs) == Tries(env, a, s, fs')
  }

  /** The store an action completes with, or None if it blocks for ever. */
  ghost function Effect<S>(env: Env<S>, a: nat, s: S): (r: Option<S>)
    ensures r.Some? ==> exists fs :: Tries(env, a, s, fs) == r
    ensures r.None? ==> forall fs :: Tries(env, a, s, fs).None?
  {
    if exists fs :: Tries(env, a, s, fs).Some? then
      var fs :| Tries(env, a, s, fs).Some?;
      Tries(env, a, s, fs)
    else None
  }

  lemma {:induction false} EffectIs<S(!new)>(env: Env<S>, a: nat, s: S, fs: seq<bool>)
    requires Settled(env) && Tries(env, a, s, fs).Some?
    ensures Effect(env, a, s) == Tries(env, a, s, fs)
  {
  }

  /** Trying once more: the action completes, or what it can still complete with is what it could before. */
  lemma {:induction false} EffectTried<S(!new)>(env: Env<S>, a: nat, s: S, flag: bool)
    requires Settled(env)
    ensures var o := env.run(a, flag, s);
            if o.done then Effect(env, a, s) == Some(o.store)
            else Effect(env, a, o.store).Some? ==> Effect(env, a, s) == Effect(env, a, o.store)
  {
    var o := env.run(a, flag, s);
    if o.done {
      EffectIs(env, a, s, [flag]);
    } else if fs :| Tries(env, a, o.store, fs).Some? {
      assert ([flag] + fs)[1..] == fs;
      EffectIs(env, a, s, [flag] + fs);
      EffectIs(env, a, o.store, fs);
    }
  }

  /** The first alternative at or after i that matches. */
  function FirstMatch<S>(env: Env<S>, gs: seq<Option<nat>>, s: S, i: nat): (r: Option<nat>)
    ensures r.Some? ==> i <= r.value < |gs| && Matches(env, gs, s, r.value)
    ensures r.Some? ==> forall j | i <= j < r.value :: !Matches(env, gs, s, j)
    ensures r.None? ==> forall j | i <= j < |gs| :: !Matches(env, gs, s, j)
    decreases if i <= |gs| then |gs| - i else 0
  {
    if i >= |gs| then None else if Matches(env, gs, s, i) then Some(i) else FirstMatch(env, gs, s, i + 1)
  }

  /**
   The store a program ends in, or None: an action blocks for ever, a selection has no true guard, or more than
   `fuel` loop iterations are needed. The first true guard wins, a loop ends when no guard holds, a do-loop runs its
   body first.
   */
  ghost function Eval<S>(env: Env<S>, c: Cmd, s: S, fuel: nat): Option<S>
    decreases fuel, c
  {
    match c
    case Skip => Some(s)
    case Act(a) => Effect(env, a, s)
    case Semi(cs) => EvalSeq(env, cs, s, fuel)
    case Comma(cs) => EvalSeq(env, cs, s, fuel)
    case Select(_, gs, bs) =>
      var p := FirstMatch(env, gs, s, 0);
      if p.None? || p.value >= |bs| then None else Eval(env, bs[p.value], s, fuel)
    case Loop(gs, bs) =>
      var p := FirstMatch(env, gs, s, 0);
      if p.None? then Some(s)
      else if p.value >= |bs| || fuel == 0 then None
      else
        (match Eval(env, bs[p.value], s, fuel - 1)
         case None => None
         case Some(s1) => Eval(env, c, s1, fuel - 1))
    case DoLoop(g, body) =>
      match Eval(env, body, s, fuel)
      case None => None
      case Some(s1) => EvalLoop(env, g, body, s1, fuel)
  }

  /** The loop after the first round of a do-loop. */
  ghost function EvalLoop<S>(env: Env<S>, g: Option<nat>, body: Cmd, s: S, fuel: nat): Option<S>
    decreases fuel, body, 0
  {
    if FirstMatch(env, [g], s, 0).None? then Some(s)
    else if fuel == 0 then None
    else
      match Eval(env, body, s, fuel - 1)
      case None => None
      case Some(s1) => EvalLoop(env, g, body, s1, fuel - 1)
  }

  ghost function EvalSeq<S>(env: Env<S>, cs: seq<Cmd>, s: S, fuel: nat): Option<S>
    decreases fuel, cs
  {
    if cs == [] then Some(s)
    else
      match Eval(env, cs[0], s, fuel)
      case None => None
      case Some(s1) => EvalSeq(env, cs[1..], s1, fuel)
  }

  lemma {:induction false} LoopIs<S>(env: Env<S>, g: Option<nat>, body: Cmd, s: S, fuel: nat)
    ensures EvalLoop(env, g, body, s, fuel) == Eval(env, Loop([g], [body]), s, fuel)
    decreases fuel
  {
    if fuel > 0 && Eval(env, body, s, fuel - 1).Some? {
      LoopIs(env, g, body, Eval(env, body, s, fuel - 1).value, fuel - 1);
    }
  }

  // ----- more fuel does not matter

  lemma {:induction false} EvalMore<S>(env: Env<S>, c: Cmd, s: S, fuel: nat)
    ensures Eval(env, c, s, fuel).Some? ==> Eval(env, c, s, fuel + 1) == Eval(env, c, s, fuel)
    decreases fuel, c
  {
    match c
    case Semi(cs) => EvalSeqMore(env, cs, s, fuel);
    case Comma(cs) => EvalSeqMore(env, cs, s, fuel);
    case Select(_, gs, bs) =>
      var p := FirstMatch(env, gs, s, 0);
      if p.Some? && p.value < |bs| { EvalMore(env, bs[p.value], s, fuel); }
    case Loop(gs, bs) =>
      var p := FirstMatch(env, gs, s, 0);
      if p.Some? && p.value < |bs| && fuel > 0 {
        EvalMore(env, bs[p.value], s, fuel - 1);
        if Eval(env, bs[p.value], s, fuel - 1).Some? { EvalMore(env, c, Eval(env, bs[p.value], s, fuel - 1).value,
            fuel - 1); }
      }
    case DoLoop(g, body) =>
      EvalMore(env, body, s, fuel);
      if Eval(env, body, s, fuel).Some? { EvalLoopMore(env, g, body, Eval(env, body, s, fuel).value, fuel); }
    case _ =>
  }

  lemma {:induction false} EvalLoopMore<S>(env: Env<S>, g: Option<nat>, body: Cmd, s: S, fuel: nat)
    ensures EvalLoop(env, g, body, s, fuel).Some? ==> EvalLoop(env, g, body, s, fuel + 1) == EvalLoop(env, g, body,
            s, fuel)
    decreases fuel, body, 0
  {
    if fuel > 0 {
      EvalMore(env, body, s, fuel - 1);
      if Eval(env, body, s, fuel - 1).Some? { EvalLoopMore(env, g, body, Eval(env, body, s, fuel - 1).value,
          fuel - 1); }
    }
  }

  lemma {:induction false} EvalSeqMore<S>(env: Env<S>, cs: seq<Cmd>, s: S, fuel: nat)
    ensures EvalSeq(env, cs, s, fuel).Some? ==> EvalSeq(env, cs, s, fuel + 1) == EvalSeq(env, cs, s, fuel)
    decreases fuel, cs
  {
    if cs != [] {
      EvalMore(env, cs[0], s, fuel);
      if Eval(env, cs[0], s, fuel).Some? { EvalSeqMore(env, cs[1..], Eval(env, cs[0], s, fuel).value, fuel); }
    }
  }

  lemma {:induction false} EvalFuel<S>(env: Env<S>, c: Cmd, s: S, fuel: nat, fuel': nat)
    requires fuel <= fuel' && Eval(env, c, s, fuel).Some?
    ensures Eval(env, c, s, fuel') == Eval(env, c, s, fuel)
    decreases fuel' - fuel
  {
    if fuel < fuel' {
      EvalMore(env, c, s, fuel);
      EvalFuel(env, c, s, fuel + 1, fuel');
    }
  }

  // ----- ready terms

  /** h and then rest. */
  ghost function EvalThen<S>(env: Env<S>, h: Cmd, rest: seq<Cmd>, s: S, fuel: nat): Option<S>
  {
    match Eval(env, h, s, fuel) case None => None case Some(s1) => EvalSeq(env, rest, s1, fuel)
  }

  lemma {:induction false} ReadyMeans<S>(env: Env<S>, c: Cmd, s: S, fuel: nat)
    requires Sequential(c)
    ensures Eval(env, Ready(c), s, fuel) == Eval(env, c, s, fuel) && Sequential(Ready(c))
    decreases c
  {
    match c
    case Semi(cs) => ReadySeqMeans(env, cs, s, fuel);
    case Comma(cs) =>
      if |cs| == 1 {
        ReadyMeans(env, cs[0], s, fuel);
        assert cs == [cs[0]];
        OneMeans(env, cs[0], s, fuel);
      }
    case DoLoop(g, body) =>
      ReadyMeans(env, body, s, fuel);
      var loop := Loop([g], [body]);
      assert Sequential(loop);
      if Eval(env, body, s, fuel).Some? { LoopIs(env, g, body, Eval(env, body, s, fuel).value, fuel); }
      ThenLoopMeans(env, Ready(body), loop, s, fuel);
    case _ =>
  }

  lemma {:induction false} ThenLoopMeans<S>(env: Env<S>, h: Cmd, loop: Cmd, s: S, fuel: nat)
    requires loop.Loop?
    ensures Eval(env, ThenLoop(h, loop), s, fuel)
            == match Eval(env, h, s, fuel) case None => None case Some(s1) => Eval(env, loop, s1, fuel)
    ensures Sequential(h) && Sequential(loop) ==> Sequential(ThenLoop(h, loop))
  {
    if !h.Skip? && Eval(env, h, s, fuel).Some? {
      assert [h, loop][1..] == [loop];
      OneMeans(env, loop, Eval(env, h, s, fuel).value, fuel);
    }
  }

  lemma OneMeans<S>(env: Env<S>, c: Cmd, s: S, fuel: nat)
    ensures EvalSeq(env, [c], s, fuel) == Eval(env, c, s, fuel)
  {
    assert [c][1..] == [];
  }

  lemma {:induction false} ReadySeqMeans<S>(env: Env<S>, cs: seq<Cmd>, s: S, fuel: nat)
    requires forall i | 0 <= i < |cs| :: Sequential(cs[i])
    ensures Eval(env, ReadySeq(cs), s, fuel) == EvalSeq(env, cs, s, fuel) && Sequential(ReadySeq(cs))
    decreases cs
  {
    if cs != [] {
      ReadyMeans(env, cs[0], s, fuel);
      ReadySeqMeans(env, cs[1..], s, fuel);
      var r := Ready(cs[0]);
      if !r.Skip? {
        if |cs| == 1 {
          assert cs[1..] == [];
        } else {
          var t := [r] + cs[1..];
          assert t[0] == r && t[1..] == cs[1..];
        }
      }
    }
  }

  lemma {:induction false} ThenMeans<S>(env: Env<S>, h: Cmd, rest: seq<Cmd>, s: S, fuel: nat)
    requires Sequential(h) && forall i | 0 <= i < |rest| :: Sequential(rest[i])
    ensures Eval(env, Then(h, rest), s, fuel) == EvalThen(env, h, rest, s, fuel) && Sequential(Then(h, rest))
  {
    if h.Skip? {
      ReadySeqMeans(env, rest, s, fuel);
    } else if rest != [] {
      var t := [h] + rest;
      assert t[0] == h && t[1..] == rest;
    }
  }

  // ----- small steps and the big step

  /** What is left after a small step ends where the whole did, with at most one loop iteration less to go. */
  lemma {:induction false} StepMeans<S(!new)>(env: Env<S>, t: Cmd, s: S, ch: Choice, t': Cmd, s': S, fuel: nat)
    requires Settled(env) && Sequential(t) && Next(env, t, s, ch) == Some((t', s'))
    ensures Sequential(t')
    ensures Eval(env, t', s', fuel).Some? ==> Eval(env, t, s, fuel + 1) == Eval(env, t', s', fuel)
    decreases t
  {
    match t
    case Act(a) => EffectTried(env, a, s, ch.flag);
    case Semi(cs) =>
      var r := Next(env, cs[0], s, ch).value;
      StepMeans(env, cs[0], s, ch, r.0, r.1, fuel);
      ThenMeans(env, r.0, cs[1..], s', fuel);
      if Eval(env, r.0, s', fuel).Some? { EvalSeqMore(env, cs[1..], Eval(env, r.0, s', fuel).value, fuel); }
    case Comma(cs) =>
      assert ch.path[0] == 0;
      var r := Next(env, cs[0], s, ch.(path := ch.path[1..])).value;
      StepMeans(env, cs[0], s, ch.(path := ch.path[1..]), r.0, r.1, fuel);
      assert cs[0 := r.0] == [r.0] && cs == [cs[0]];
      ParOne(r.0);
      OneMeans(env, cs[0], s, fuel + 1);
    case Select(_, gs, bs) =>
      FirstIs(env, gs, s, ch.pick);
      ReadyMeans(env, bs[ch.pick], s, fuel);
      EvalMore(env, bs[ch.pick], s, fuel);
    case Loop(gs, bs) =>
      if Allowed(env, false, gs, s, ch.pick) && ch.pick < |bs| {
        FirstIs(env, gs, s, ch.pick);
        ReadyMeans(env, bs[ch.pick], s, fuel);
        ThenLoopMeans(env, Ready(bs[ch.pick]), t, s, fuel);
      }
    case _ =>
  }

  lemma ParOne(t: Cmd)
    ensures Par([t]) == t
  {
    assert [t][0] == t;
    if t.Skip? { assert AllSkip([t]); } else { assert !AllSkip([t]); }
  }

  lemma FirstIs<S>(env: Env<S>, gs: seq<Option<nat>>, s: S, i: nat)
    requires Allowed(env, false, gs, s, i)
    ensures FirstMatch(env, gs, s, 0) == Some(i)
  {
  }

  /** A small-step run that ends shows the big-step result. */
  lemma {:induction false} ReplayMeans<S(!new)>(env: Env<S>, t: Cmd, s: S, trace: seq<Choice>, s': S)
      returns (fuel: nat)
    requires Settled(env) && Sequential(t) && Replay(env, t, s, trace) == Some((Skip, s'))
    ensures Eval(env, t, s, fuel) == Some(s')
    decreases |trace|
  {
    hide Next, Settled;
    if trace == [] {
      fuel := 0;
    } else {
      hide Eval;
      var n := |trace| - 1;
      ReplayFirst(env, t, s, trace);
      var r := Next(env, t, s, trace[0]).value;
      StepMeans(env, t, s, trace[0], r.0, r.1, 0);
      var f := ReplayMeans(env, r.0, r.1, trace[1..], s');
      StepMeans(env, t, s, trace[0], r.0, r.1, f);
      fuel := f + 1;
    }
  }

  lemma {:induction false} ReplayFirst<S>(env: Env<S>, t: Cmd, s: S, trace: seq<Choice>)
    requires trace != [] && Replay(env, t, s, trace).Some?
    ensures Next(env, t, s, trace[0]).Some?
    ensures var r := Next(env, t, s, trace[0]).value; Replay(env, r.0, r.1, trace[1..]) == Replay(env, t, s, trace)
    decreases |trace|
  {
    var n := |trace| - 1;
    if n > 0 {
      ReplayFirst(env, t, s, trace[..n]);
      assert trace[..n][1..] == trace[1..][..n - 1];
    } else {
      assert trace[..0] == [];
    }
  }

  lemma {:induction false} ReplayAppend<S>(env: Env<S>, t: Cmd, s: S, tr: seq<Choice>, tr': seq<Choice>)
    requires Replay(env, t, s, tr).Some?
    ensures var r := Replay(env, t, s, tr).value; Replay(env, t, s, tr + tr') == Replay(env, r.0, r.1, tr')
    decreases |tr'|
  {
    hide Next;
    if tr' == [] {
      assert tr + tr' == tr;
    } else {
      var n := |tr'| - 1;
      ReplayAppend(env, t, s, tr, tr'[..n]);
      assert (tr + tr')[..|tr| + n] == tr + tr'[..n];
    }
  }

  /** A run of a part is a run of the sequence it starts. */
  lemma {:induction false} ReplayThen<S>(env: Env<S>, t: Cmd, rest: seq<Cmd>, s: S, tr: seq<Choice>)
    requires Replay(env, t, s, tr).Some?
    ensures var r := Replay(env, t, s, tr).value; Replay(env, Then(t, rest), s, tr) == Some((Then(r.0, rest), r.1))
    decreases |tr|
  {
    if tr != [] {
      var n := |tr| - 1;
      ReplayThen(env, t, rest, s, tr[..n]);
      var r := Replay(env, t, s, tr[..n]).value;
      NextThen(env, r.0, rest, r.1, tr[n]);
    }
  }

  const PLAIN: Choice := Choice([], false, 0)

  /** A big-step result shows a small-step run that ends. */
  lemma {:induction false} EvalReplays<S(!new)>(env: Env<S>, c: Cmd, s: S, fuel: nat) returns (trace: seq<Choice>)
    requires Settled(env) && Sequential(c) && Eval(env, c, s, fuel).Some?
    ensures Replay(env, Ready(c), s, trace) == Some((Skip, Eval(env, c, s, fuel).value))
    decreases fuel, 1, c
  {
    match c
    case Skip => trace := [];
    case Act(a) =>
      var fs: seq<bool> :| Tries(env, a, s, fs).Some?;
      EffectIs(env, a, s, fs);
      trace := TriesReplay(env, a, s, fs);
    case Semi(cs) => trace := SeqReplays(env, cs, s, fuel);
    case Comma(cs) =>
      if cs == [] {
        trace := [];
      } else {
        trace := EvalReplays(env, cs[0], s, fuel);
        assert cs == [cs[0]] && ReadyAll(cs) == [Ready(cs[0])];
        OneMeans(env, cs[0], s, fuel);
      }
    case Select(arb, gs, bs) =>
      var p := FirstMatch(env, gs, s, 0).value;
      var tr := EvalReplays(env, bs[p], s, fuel);
      trace := [PLAIN.(pick := p)] + tr;
      ReplayOne(env, c, s, PLAIN.(pick := p));
      ReplayAppend(env, c, s, [PLAIN.(pick := p)], tr);
    case Loop(gs, bs) => trace := LoopReplays(env, c, s, fuel);
    case DoLoop(g, body) =>
      var loop := Loop([g], [body]);
      var s1 := Eval(env, body, s, fuel).value;
      LoopIs(env, g, body, s1, fuel);
      var tr := EvalReplays(env, body, s, fuel);
      var tr' := LoopReplays(env, loop, s1, fuel);
      ThenOneLoop(Ready(body), loop);
      ThenOneLoop(Skip, loop);
      ReplayThen(env, Ready(body), [loop], s, tr);
      ReplayAppend(env, Then(Ready(body), [loop]), s, tr, tr');
      trace := tr + tr';
  }

  /** The tries of an action as a run. */
  lemma {:induction false} TriesReplay<S>(env: Env<S>, a: nat, s: S, fs: seq<bool>) returns (trace: seq<Choice>)
    requires Tries(env, a, s, fs).Some?
    ensures Replay(env, Act(a), s, trace) == Some((Skip, Tries(env, a, s, fs).value))
    decreases |fs|
  {
    var ch := PLAIN.(flag := fs[0]);
    ReplayOne(env, Act(a), s, ch);
    if env.run(a, fs[0], s).done {
      trace := [ch];
    } else {
      var rest := TriesReplay(env, a, env.run(a, fs[0], s).store, fs[1..]);
      ReplayAppend(env, Act(a), s, [ch], rest);
      trace := [ch] + rest;
    }
  }

  lemma ReplayOne<S>(env: Env<S>, t: Cmd, s: S, ch: Choice)
    ensures Replay(env, t, s, [ch]) == Next(env, t, s, ch)
  {
    assert [ch][..0] == [];
  }

  lemma {:induction false} LoopReplays<S(!new)>(env: Env<S>, c: Cmd, s: S, fuel: nat) returns (trace: seq<Choice>)
    requires Settled(env) && c.Loop? && Sequential(c) && Eval(env, c, s, fuel).Some?
    ensures Replay(env, c, s, trace) == Some((Skip, Eval(env, c, s, fuel).value))
    decreases fuel, 0
  {
    var p := FirstMatch(env, c.guards, s, 0);
    if p.None? {
      trace := [PLAIN];
      ReplayOne(env, c, s, PLAIN);
    } else {
      var ch := PLAIN.(pick := p.value);
      var body := c.bodies[p.value];
      var s1 := Eval(env, body, s, fuel - 1).value;
      var tr := EvalReplays(env, body, s, fuel - 1);
      var tr' := LoopReplays(env, c, s1, fuel - 1);
      ThenOneLoop(Ready(body), c);
      ThenOneLoop(Skip, c);
      ReplayOne(env, c, s, ch);
      ReplayThen(env, Ready(body), [c], s, tr);
      ReplayAppend(env, Then(Ready(body), [c]), s, tr, tr');
      ReplayAppend(env, c, s, [ch], tr + tr');
      trace := [ch] + (tr + tr');
    }
  }

  lemma {:induction false} SeqReplays<S(!new)>(env: Env<S>, cs: seq<Cmd>, s: S, fuel: nat) returns (trace: seq<Choice>)
    requires Settled(env) && (forall i | 0 <= i < |cs| :: Sequential(cs[i])) && EvalSeq(env, cs, s, fuel).Some?
    ensures Replay(env, ReadySeq(cs), s, trace) == Some((Skip, EvalSeq(env, cs, s, fuel).value))
    decreases fuel, 1, cs
  {
    if cs == [] {
      trace := [];
    } else {
      var s1 := Eval(env, cs[0], s, fuel).value;
      var tr := EvalReplays(env, cs[0], s, fuel);
      var tr' := SeqReplays(env, cs[1..], s1, fuel);
      ReadySeqThen(cs, 0);
      ReplayThen(env, Ready(cs[0]), cs[1..], s, tr);
      ReplayAppend(env, ReadySeq(cs), s, tr, tr');
      trace := tr + tr';
    }
  }

  // ----- compiled sequential programs

  ghost predicate Evaluates<S>(env: Env<S>, c: Cmd, s: S, fuel: nat, s': S)
  {
    Eval(env, c, s, fuel) == Some(s')
  }

  /**
   For a program without concurrency, stepping the compiled graph to its end gives exactly the store of the
   big-step meaning, and it can come to an end exactly when the big-step meaning does, however often its actions
   block on the way.
   */
  lemma {:induction false} SameResult<S(!new)>(
      env: Env<S>, g: seq<Node>, cmd: Cmd, lay: Lay, npc: nat, counters: nat, store: S, store': S)
    requires Program(g, cmd, lay, npc, counters) && Sequential(cmd) && Settled(env)
    ensures (exists evs :: Finishes(g, env, Initial(npc, counters, Entry(lay), store), evs, store'))
            <==> (exists fuel :: Evaluates(env, cmd, store, fuel, store'))
  {
    hide Program, Finishes, Eval, Replay;
    SameFinalStores(env, g, cmd, lay, npc, counters, store, store');
    if trace :| Replays(env, cmd, store, trace, store') {
      ReadyMeans(env, cmd, store, 0);
      var fuel := ReplayMeans(env, Ready(cmd), store, trace, store');
      ReadyMeans(env, cmd, store, fuel);
      assert Evaluates(env, cmd, store, fuel, store');
    }
    if fuel :| Evaluates(env, cmd, store, fuel, store') {
      var trace := EvalReplays(env, cmd, store, fuel);
      assert Replays(env, cmd, store, trace, store');
    }
  }

  /** Whatever the schedule, a program without concurrency ends in one store. */
  lemma {:induction false} OneResult<S(!new)>(
      env: Env<S>, g: seq<Node>, cmd: Cmd, lay: Lay, npc: nat, counters: nat, store: S,
      evs: seq<Event>, evs': seq<Event>, s: S, s': S)
    requires Program(g, cmd, lay, npc, counters) && Sequential(cmd) && Settled(env)
    requires Finishes(g, env, Initial(npc, counters, Entry(lay), store), evs, s)
    requires Finishes(g, env, Initial(npc, counters, Entry(lay), store), evs', s')
    ensures s == s'
  {
    hide Program, Finishes, Eval;
    SameResult(env, g, cmd, lay, npc, counters, store, s);
    SameResult(env, g, cmd, lay, npc, counters, store, s');
    var f: nat :| Evaluates(env, cmd, store, f, s);
    var f': nat :| Evaluates(env, cmd, store, f', s');
    EvalFuel(env, cmd, store, f, if f < f' then f' else f);
    EvalFuel(env, cmd, store, f', if f < f' then f' else f);
  }

  /** All runs of structured programs without concurrency end in one store. */
  ghost predicate Deterministic<S(!new)>(env: Env<S>)
  {
    forall c, s, tr, tr', s1, s2 | Sequential(c) && Replays(env, c, s, tr, s1) && Replays(env, c, s, tr', s2) ::
      s1 == s2
  }

  /** What has to be known of the actions, exactly: however each is tried, it completes with one store. */
  lemma {:induction false} DeterministicExactly<S(!new)>(env: Env<S>)
    ensures Deterministic(env) <==> Settled(env)
  {
    hide Replay, Eval;
    if Settled(env) {
      forall c, s, tr, tr', s1, s2 | Sequential(c) && Replays(env, c, s, tr, s1) && Replays(env, c, s, tr', s2)
        ensures s1 == s2
      {
        OneEnd(env, c, s, tr, tr', s1, s2);
      }
    }
    if Deterministic(env) {
      forall a, s, fs, fs' | Tries(env, a, s, fs).Some? && Tries(env, a, s, fs').Some?
        ensures Tries(env, a, s, fs) == Tries(env, a, s, fs')
      {
        var tr := TriesReplay(env, a, s, fs);
        var tr' := TriesReplay(env, a, s, fs');
        assert Ready(Act(a)) == Act(a) && Sequential(Act(a));
        assert Replays(env, Act(a), s, tr, Tries(env, a, s, fs).value);
        assert Replays(env, Act(a), s, tr', Tries(env, a, s, fs').value);
      }
    }
  }

  lemma {:induction false} OneEnd<S(!new)>(
      env: Env<S>, c: Cmd, s: S, tr: seq<Choice>, tr': seq<Choice>, s1: S, s2: S)
    requires Settled(env) && Sequential(c) && Replays(env, c, s, tr, s1) && Replays(env, c, s, tr', s2)
    ensures s1 == s2
  {
    hide Replay, Eval;
    ReadyMeans(env, c, s, 0);
    var f := ReplayMeans(env, Ready(c), s, tr, s1);
    var f' := ReplayMeans(env, Ready(c), s, tr', s2);
    EvalFuel(env, Ready(c), s, f, if f < f' then f' else f);
    EvalFuel(env, Ready(c), s, f', if f < f' then f' else f);
  }
}
