/**
 Forks and joins over whole runs: each execution of a fork is followed by exactly one passing of its join before the
 fork is executed again.
 */
module ChpJoins {
  import opened Prelude
  import opened ChpLang
  import opened ChpGraph
  import opened ChpControl
  import opened ChpMove
  import opened ChpTerm
  import opened ChpSim
  import opened ChpRun
  import opened ChpExec
  import opened ChpStep
  import opened ChpTheorems
  import opened ChpReach

  // ----- the commas under way

  /** The joins of the commas that have been forked and whose join has not been passed. */
  ghost function Open(lay: Lay, c: Ctl): set<nat>
    requires Fit(lay, c)
    decreases c
  {
    match c
    case Fin(_) => if lay.LComma? then {lay.join} else {}
    case In(i, d) => Open(lay.ls[i], d)
    case Many(cs) => {lay.join} + OpenIn(lay.ls, cs)
    case _ => {}
  }

  ghost function OpenIn(ls: seq<Lay>, cs: seq<Ctl>): set<nat>
    requires |ls| == |cs| && forall i | 0 <= i < |cs| :: Fit(ls[i], cs[i])
    decreases cs
  {
    set i, j | 0 <= i < |cs| && j in Open(ls[i], cs[i]) :: j
  }

  lemma {:induction false} OpenNodes(lay: Lay, c: Ctl)
    requires Fit(lay, c)
    ensures Open(lay, c) <= Nodes(lay)
    decreases c
  {
    match c
    case In(i, d) =>
      OpenNodes(lay.ls[i], d);
      SubNodes(lay.ls, i);
    case Many(cs) =>
      forall i | 0 <= i < |cs| ensures Open(lay.ls[i], cs[i]) <= NodesOf(lay.ls) {
        OpenNodes(lay.ls[i], cs[i]);
        SubNodes(lay.ls, i);
      }
    case _ =>
  }

  lemma {:induction false} EnterOpen(lay: Lay, s: nat)
    requires Fit(lay, Enter(lay, s))
    ensures Open(lay, Enter(lay, s)) == {}
    decreases lay
  {
    if lay.LSemi? && FirstBusy(lay.ls, 0).Some? {
      FirstBusyIn(lay.ls, 0);
      EnterOpen(lay.ls[FirstBusy(lay.ls, 0).value], s);
    }
  }

  /** The slot's own comma, when it is at the join. */
  lemma {:induction false} LeafOpen(lay: Lay, c: Ctl, s: nat)
    requires Sound(lay) && Fit(lay, c) && s in Slots(c)
    ensures var (l, n) := Leaf(lay, c, s); Fit(l, n) && Open(l, n) <= Open(lay, c) && Nodes(l) <= Nodes(lay)
    decreases c
  {
    hide SlotsApart, OpenIn, NodesOf, Sound;
    match c
    case In(i, d) =>
      SoundPart(lay, i);
      LeafOpen(lay.ls[i], d, s);
      SubNodes(lay.ls, i);
    case Many(cs) =>
      var j := Owner(cs, s);
      SoundPart(lay, j);
      LeafOpen(lay.ls[j], cs[j], s);
      SubNodes(lay.ls, j);
      OpenSplit(lay.ls, cs, j);
    case _ =>
  }

  /** A thread at the fork of a comma: that comma is not under way. */
  lemma {:induction false} LeafClosed(lay: Lay, c: Ctl, s: nat)
    requires Sound(lay) && Fit(lay, c) && s in Slots(c)
    ensures var (l, n) := Leaf(lay, c, s); n.Here? && l.LComma? ==> l.join !in Open(lay, c)
    decreases c
  {
    hide SlotsApart, OpenIn, NodesOf, Sound;
    match c
    case In(i, d) =>
      SoundPart(lay, i);
      LeafClosed(lay.ls[i], d, s);
    case Many(cs) =>
      var j := Owner(cs, s);
      SoundPart(lay, j);
      LeafClosed(lay.ls[j], cs[j], s);
      LeafOpen(lay.ls[j], cs[j], s);
      OpenSplit(lay.ls, cs, j);
      OpenApart(lay, cs, j);
    case _ =>
  }

  lemma {:induction false} OtherBranch(lay: Lay, cs: seq<Ctl>, i: nat, j: nat)
    requires Sound(lay) && Fit(lay, Many(cs)) && i < |cs| && j < |cs| && i != j
    ensures Open(lay.ls[i], cs[i]) !! Nodes(lay.ls[j])
  {
    OpenNodes(lay.ls[i], cs[i]);
    assert Nodes(lay.ls[i]) !! Nodes(lay.ls[j]);
  }

  ghost function ResOpen(lay: Lay, r: Res): set<nat>
    requires Fits(lay, r)
  {
    if r.Stay? then Open(lay, r.c) else {}
  }

  /** A move at the leaf changes what is under way at the leaf, and nothing else. */
  lemma {:induction false} UpOpen(lay: Lay, c: Ctl, s: nat, r: Res)
    requires Sound(lay) && Fit(lay, c) && s in Slots(c) && UpFits(lay, c, s, r)
    requires Fit(Leaf(lay, c, s).0, Leaf(lay, c, s).1) && Fits(Leaf(lay, c, s).0, r)
    ensures var (l, n) := Leaf(lay, c, s);
            ResOpen(lay, Up(lay, c, s, r)) == Open(lay, c) - Open(l, n) + ResOpen(l, r)
    decreases c
  {
    hide SlotsApart, Sound, Enter, FirstBusy, OpenIn;
    match c
    case In(i, d) =>
      SoundPart(lay, i);
      UpOpen(lay.ls[i], d, s, r);
      if Up(lay.ls[i], d, s, r).Exit? && lay.LSemi? && FirstBusy(lay.ls, i + 1).Some? {
        FirstBusyIn(lay.ls, i + 1);
        EnterOpen(lay.ls[FirstBusy(lay.ls, i + 1).value], s);
      }
    case Many(cs) =>
      SoundPart(lay, Owner(cs, s));
      UpOpen(lay.ls[Owner(cs, s)], cs[Owner(cs, s)], s, r);
      UpOpenMany(lay, cs, s, r);
    case _ =>
  }

  /** The commas under way in all branches but one. */
  ghost function OpenBut(ls: seq<Lay>, cs: seq<Ctl>, j: nat): set<nat>
    requires |ls| == |cs| && forall i | 0 <= i < |cs| :: Fit(ls[i], cs[i])
  {
    set i, x | 0 <= i < |cs| && i != j && x in Open(ls[i], cs[i]) :: x
  }

  lemma {:induction false} OpenSplit(ls: seq<Lay>, cs: seq<Ctl>, j: nat)
    requires |ls| == |cs| && (forall i | 0 <= i < |cs| :: Fit(ls[i], cs[i])) && j < |cs|
    ensures OpenIn(ls, cs) == OpenBut(ls, cs, j) + Open(ls[j], cs[j])
  {
    forall x | x in OpenIn(ls, cs) ensures x in OpenBut(ls, cs, j) + Open(ls[j], cs[j]) {
      var i :| 0 <= i < |cs| && x in Open(ls[i], cs[i]);
    }
  }

  lemma {:induction false} OpenButSame(ls: seq<Lay>, cs: seq<Ctl>, cs': seq<Ctl>, j: nat)
    requires |ls| == |cs| == |cs'| && (forall i | 0 <= i < |cs| :: Fit(ls[i], cs[i]) && Fit(ls[i], cs'[i]))
    requires forall i | 0 <= i < |cs| && i != j :: cs'[i] == cs[i]
    ensures OpenBut(ls, cs', j) == OpenBut(ls, cs, j)
  {
  }

  lemma {:induction false} OpenOff(ls: seq<Lay>, cs: seq<Ctl>)
    requires |ls| == |cs| && (forall i | 0 <= i < |cs| :: Fit(ls[i], cs[i])) && AllOff(cs)
    ensures OpenIn(ls, cs) == {}
  {
  }

  lemma {:induction false} OpenApart(lay: Lay, cs: seq<Ctl>, j: nat)
    requires Sound(lay) && Fit(lay, Many(cs)) && j < |cs|
    ensures OpenBut(lay.ls, cs, j) !! Nodes(lay.ls[j]) && lay.join !in Nodes(lay.ls[j])
  {
    SubNodes(lay.ls, j);
    forall x | x in OpenBut(lay.ls, cs, j) ensures x !in Nodes(lay.ls[j]) {
      var i :| 0 <= i < |cs| && i != j && x in Open(lay.ls[i], cs[i]);
      OtherBranch(lay, cs, i, j);
    }
  }

  lemma {:induction false} UpOpenMany(lay: Lay, cs: seq<Ctl>, s: nat, r: Res)
    requires Sound(lay) && Fit(lay, Many(cs)) && s in Slots(Many(cs)) && UpFits(lay, Many(cs), s, r)
    requires Fit(Leaf(lay, Many(cs), s).0, Leaf(lay, Many(cs), s).1) && Fits(Leaf(lay, Many(cs), s).0, r)
    requires var (l, n) := Leaf(lay, Many(cs), s);
             var j := Owner(cs, s);
             ResOpen(lay.ls[j], Up(lay.ls[j], cs[j], s, r)) == Open(lay.ls[j], cs[j]) - Open(l, n) + ResOpen(l, r)
    ensures var (l, n) := Leaf(lay, Many(cs), s);
            ResOpen(lay, Up(lay, Many(cs), s, r)) == Open(lay, Many(cs)) - Open(l, n) + ResOpen(l, r)
  {
    hide SlotsApart, OpenIn, OpenBut, Sound, Nodes, Slots;
    var (l, n) := Leaf(lay, Many(cs), s);
    var j := Owner(cs, s);
    var u := Up(lay.ls[j], cs[j], s, r);
    var cs' := cs[j := After(u)];
    SoundPart(lay, j);
    LeafOpen(lay.ls[j], cs[j], s);
    OpenNodes(l, n);
    OpenApart(lay, cs, j);
    OpenReplaced(lay, cs, j, After(u));
    OffOpen(lay.ls[j]);
    if u.Exit? && AllOff(cs') { OpenOff(lay.ls, cs'); }
  }

  lemma {:induction false} OpenReplaced(lay: Lay, cs: seq<Ctl>, j: nat, d: Ctl)
    requires Fit(lay, Many(cs)) && j < |cs| && Fit(lay.ls[j], d)
    ensures OpenIn(lay.ls, cs) == OpenBut(lay.ls, cs, j) + Open(lay.ls[j], cs[j])
    ensures forall i | 0 <= i < |cs| :: Fit(lay.ls[i], cs[j := d][i])
    ensures OpenIn(lay.ls, cs[j := d]) == OpenBut(lay.ls, cs, j) + Open(lay.ls[j], d)
  {
    hide OpenIn, OpenBut, Open, SlotsApart, AllOff;
    OpenSplit(lay.ls, cs, j);
    OpenSplit(lay.ls, cs[j := d], j);
    OpenButSame(lay.ls, cs, cs[j := d], j);
  }

  lemma SoundPart(lay: Lay, j: nat)
    requires Sound(lay) && (lay.LSemi? || lay.LComma? || lay.LBranch?) && j < |lay.ls|
    ensures Sound(lay.ls[j])
  {
  }

  // ----- counting

  /** The joins passed while slot s goes on through nodes without a statement. */
  function Passes<S>(g: seq<Node>, m: Mach<S>, s: nat): multiset<nat>
    decreases Height(g, m, s)
  {
    match NodeOf(g, m, s)
    case None => multiset{}
    case Some(n) =>
      if n.stmt.Some? then multiset{}
      else
        var here := if n.wait > 0 then multiset{m.pc[s].value} else multiset{};
        match UpdatePc(g, m, s)
        case None => here
        case Some(m') => here + if Height(g, m', s) < Height(g, m, s) then Passes(g, m', s) else multiset{}
  }

  /** The same for the branches of a comma as they are started. */
  function ForkPasses<S>(g: seq<Node>, m: Mach<S>, s: nat, all: seq<Option<nat>>, i: nat, first: bool): multiset<nat>
    decreases |all| - i
  {
    if i >= |all| then multiset{}
    else if all[i].None? then ForkPasses(g, m, s, all, i + 1, first)
    else
      match if first then Some((m, s)) else Take(m)
      case None => multiset{}
      case Some(r) =>
        if r.1 >= |r.0.pc| then multiset{}
        else
          Passes(g, r.0.(pc := r.0.pc[r.1 := all[i]]), r.1)
          + (match Place(g, r.0, r.1, all[i])
             case None => multiset{}
             case Some(m') => ForkPasses(g, m', s, all, i + 1, false))
  }

  /** The joins passed by slot s after executing the statement it is at. */
  function ExecutePasses<S>(g: seq<Node>, env: Env<S>, m: Mach<S>, s: nat, flag: bool, pick: nat): multiset<nat>
  {
    match NodeOf(g, m, s)
    case None => multiset{}
    case Some(n) =>
      match n.stmt
      case None => multiset{}
      case Some(SFork(_)) => ForkPasses(g, m, s, n.all, 0, true)
      case Some(SNop) => SettlePasses(g, UpdatePc(g, m, s), s)
      case Some(SAct(a)) =>
        var o := env.run(a, flag, m.store);
        if o.done then SettlePasses(g, UpdatePc(g, m.(store := o.store), s), s) else multiset{}
      case Some(SCond(arb, guards)) =>
        if Allowed(env, arb, guards, m.store, pick) then GotoPasses(g, m, s, n, pick) else multiset{}
      case Some(SLoop(guards)) =>
        if Allowed(env, false, guards, m.store, pick) then GotoPasses(g, m, s, n, pick)
        else if AnyMatch(env, guards, m.store) then multiset{}
        else SettlePasses(g, UpdatePc(g, m, s), s)
  }

  function SettlePasses<S>(g: seq<Node>, m: Option<Mach<S>>, s: nat): multiset<nat>
  {
    match m case None => multiset{} case Some(m') => Passes(g, m', s)
  }

  function GotoPasses<S>(g: seq<Node>, m: Mach<S>, s: nat, n: Node, pick: nat): multiset<nat>
  {
    if pick < |n.all| && n.all[pick].Some? && s < |m.pc| then Passes(g, m.(pc := m.pc[s := n.all[pick]]), s)
    else multiset{}
  }

  /** The join that belongs to the fork slot s executes, if it is at one. */
  function Forks<S>(g: seq<Node>, m: Mach<S>, s: nat): multiset<nat>
  {
    match NodeOf(g, m, s)
    case None => multiset{}
    case Some(n) =>
      if n.stmt.Some? && n.stmt.value.SFork? && n.next.Some? then multiset{n.next.value} else multiset{}
  }

  /** What an event forks and passes. */
  datatype Tally = Tally(forks: multiset<nat>, passes: multiset<nat>)

  function StepTally<S>(g: seq<Node>, env: Env<S>, m: Mach<S>, s: nat, flag: bool, pick: nat): Tally
  {
    match Fold(g, m, s)
    case None => Tally(multiset{}, Passes(g, m, s))
    case Some(m1) =>
      if s >= |m1.pc| || s >= |m.pc| || m1.pc[s].None? then Tally(multiset{}, Passes(g, m, s))
      else
        Tally(Forks(g, m1, s),
              Passes(g, m, s) + ExecutePasses(g, env, m1, s, flag && m1.pc[s] == m.pc[s], pick))
  }

  /** All forks executed and all joins passed in a run. */
  function RunTally<S>(g: seq<Node>, env: Env<S>, m: Mach<S>, evs: seq<Event>): Tally
  {
    if evs == [] then Tally(multiset{}, multiset{})
    else
      var e := evs[|evs| - 1];
      var t := RunTally(g, env, m, evs[..|evs| - 1]);
      match Run(g, env, m, evs[..|evs| - 1])
      case None => t
      case Some(m') =>
        var u := StepTally(g, env, m', e.slot, e.flag, e.pick);
        Tally(t.forks + u.forks, t.passes + u.passes)
  }

  // ----- one event keeps the balance

  function Bit(open: set<nat>, j: nat): nat { if j in open then 1 else 0 }

  /** For every join: what was under way and what has been forked is what is under way and what has been passed. */
  ghost predicate Balance(lay: Lay, c: Ctl, forks: multiset<nat>, passes: multiset<nat>, c': Ctl)
  {
    && Fit(lay, c) && Fit(lay, c')
    && forall j: nat :: Bit(Open(lay, c), j) + forks[j] == Bit(Open(lay, c'), j) + passes[j]
  }

  /** A thread that goes on from a node without a statement passes a join exactly when it is at one. */
  lemma {:induction false} FinWait(g: seq<Node>, l: Lay, kl: Option<nat>, s: nat)
    requires Sound(l) && Links(g, l, kl) && Fit(l, Fin(s))
    ensures Stop(l) < |g| && g[Stop(l)].stmt.None? && (g[Stop(l)].wait > 0 <==> l.LComma?)
    ensures Open(l, Fin(s)) == if l.LComma? then {Stop(l)} else {}
  {
    if l.LComma? { BusyPositive(l.ls); }
  }

  /** Leaving a node along `next`. */
  lemma {:induction false} LeaveOpen<S>(g: seq<Node>, cmd: Cmd, lay: Lay, m: Mach<S>, c: Ctl, s: nat) returns (c': Ctl)
    requires Running(g, cmd, lay, m, c) && s in Slots(c) && Leaving(Leaf(lay, c, s))
    ensures UpdatePc(g, m, s).Some? && Running(g, cmd, lay, UpdatePc(g, m, s).value, c') && Fit(lay, c) && Fit(lay, c')
    ensures var (l, n) := Leaf(lay, c, s);
            Fit(l, n) && Open(l, n) <= Open(lay, c) && Open(lay, c') == Open(lay, c) - Open(l, n)
  {
    hide Inv, Sound, Links, Faithful, ChainsDown, Of, Slots, Leaf, Up, UpFits, UpdatePc, Leaving, Fit, Open;
    RunningFits(g, cmd, lay, m, c);
    assert Inv(lay, m, c);
    SlotLive(lay, m, c, s);
    LeaveInv(g, lay, m, c, s);
    UpdatePcShape(g, m, s);
    LeafOpen(lay, c, s);
    UpOpen(lay, c, s, Exit);
    c' := After(Up(lay, c, s, Exit));
    OffOpen(lay);
    assert Running(g, cmd, lay, UpdatePc(g, m, s).value, c');
    RunningFits(g, cmd, lay, UpdatePc(g, m, s).value, c');
  }

  lemma OffOpen(lay: Lay)
    ensures Fit(lay, Off) && Open(lay, Off) == {}
  {
  }

  /** One move of a thread at a node without a statement: if the node is a join, that join is passed. */
  lemma {:induction false} PassOpen<S>(g: seq<Node>, cmd: Cmd, lay: Lay, m: Mach<S>, c: Ctl, s: nat)
    returns (d: Ctl, here: multiset<nat>)
    requires Running(g, cmd, lay, m, c) && s < |m.pc| && m.pc[s].Some? && m.pc[s].value < |g|
    requires g[m.pc[s].value].stmt.None?
    ensures UpdatePc(g, m, s).Some? && Running(g, cmd, lay, UpdatePc(g, m, s).value, d)
    ensures Balance(lay, c, multiset{}, here, d)
    ensures here == if g[m.pc[s].value].wait > 0 then multiset{m.pc[s].value} else multiset{}
  {
    hide Inv, Sound, Links, Faithful, ChainsDown, Of, Slots, Leaf, UpdatePc, Fit, Open, At, Running;
    RunningFits(g, cmd, lay, m, c);
    RunningInv(g, cmd, lay, m, c);
    LiveSlot(lay, m, c, s);
    var kl := LeafIs(g, lay, c, s, None);
    var l, n := Leaf(lay, c, s).0, Leaf(lay, c, s).1;
    AtFin(l, s);
    FinWait(g, l, kl, s);
    d := LeaveOpen(g, cmd, lay, m, c, s);
    here := if g[m.pc[s].value].wait > 0 then multiset{m.pc[s].value} else multiset{};
    ClosedOne(lay, c, d, Open(l, n), here);
  }

  lemma {:induction false} ClosedOne(lay: Lay, c: Ctl, d: Ctl, closed: set<nat>, here: multiset<nat>)
    requires Fit(lay, c) && Fit(lay, d) && closed <= Open(lay, c) && Open(lay, d) == Open(lay, c) - closed
    requires forall j: nat :: here[j] == Bit(closed, j)
    ensures Balance(lay, c, multiset{}, here, d)
  {
    hide Open, Fit;
    forall j: nat ensures Bit(Open(lay, c), j) == Bit(Open(lay, d), j) + here[j] {
      assert j in Open(lay, c) <==> j in Open(lay, d) || j in closed;
    }
  }

  lemma RunningInv<S>(g: seq<Node>, cmd: Cmd, lay: Lay, m: Mach<S>, c: Ctl)
    requires Running(g, cmd, lay, m, c)
    ensures Inv(lay, m, c)
  {
  }

  lemma {:induction false} PcIn<S>(g: seq<Node>, cmd: Cmd, lay: Lay, m: Mach<S>, c: Ctl, s: nat)
    requires Running(g, cmd, lay, m, c) && s < |m.pc|
    ensures m.pc[s].Some? ==> m.pc[s].value < |g|
  {
    hide Inv, Sound, Links, Faithful, ChainsDown, Of, Slots, Fit, Running, Leaf, At;
    RunningFits(g, cmd, lay, m, c);
    RunningInv(g, cmd, lay, m, c);
    if m.pc[s].Some? {
      LiveSlot(lay, m, c, s);
      var kl := LeafIs(g, lay, c, s, None);
    }
  }

  /** Going on through nodes without a statement. */
  lemma {:induction false} FoldOpen<S>(g: seq<Node>, cmd: Cmd, lay: Lay, m: Mach<S>, c: Ctl, s: nat) returns (c': Ctl)
    requires Running(g, cmd, lay, m, c) && s < |m.pc|
    ensures Fold(g, m, s).Some? && Running(g, cmd, lay, Fold(g, m, s).value, c')
    ensures Balance(lay, c, multiset{}, Passes(g, m, s), c')
    decreases Height(g, m, s)
  {
    hide Inv, Sound, Links, Faithful, ChainsDown, Of, Fit, Open, UpdatePc, Passes, Balance;
    RunningFits(g, cmd, lay, m, c);
    c' := c;
    PcIn(g, cmd, lay, m, c, s);
    if m.pc[s].Some? && g[m.pc[s].value].stmt.None? {
      var d, here := PassOpen(g, cmd, lay, m, c, s);
      var m' := UpdatePc(g, m, s).value;
      UpdatePcShape(g, m, s);
      UpdatePcDown(g, m, s);
      c' := FoldOpen(g, cmd, lay, m', d, s);
      PassesOn(g, m, s);
      var none: multiset<nat> := multiset{};
      BalanceMore(lay, c, none, here, d, none, Passes(g, m', s), c');
      assert none + none == none;
    } else {
      PassesNothing(g, m, s);
      BalanceNone(lay, c);
    }
  }

  lemma {:induction false} PassesOn<S>(g: seq<Node>, m: Mach<S>, s: nat)
    requires ChainsDown(g) && s < |m.pc| && m.pc[s].Some? && m.pc[s].value < |g| && g[m.pc[s].value].stmt.None?
    requires UpdatePc(g, m, s).Some?
    ensures Passes(g, m, s) == (if g[m.pc[s].value].wait > 0 then multiset{m.pc[s].value} else multiset{})
                               + Passes(g, UpdatePc(g, m, s).value, s)
  {
    hide UpdatePc, ChainsDown;
    UpdatePcDown(g, m, s);
  }

  lemma PassesNothing<S>(g: seq<Node>, m: Mach<S>, s: nat)
    requires s < |m.pc| && (m.pc[s].Some? ==> m.pc[s].value < |g| && g[m.pc[s].value].stmt.Some?)
    ensures Passes(g, m, s) == multiset{}
  {
  }

  lemma {:induction false} LiveSlot<S>(lay: Lay, m: Mach<S>, c: Ctl, s: nat)
    requires Inv(lay, m, c) && s < |m.pc| && m.pc[s].Some?
    ensures s in Slots(c) && m.pc[s] == Some(At(lay, c, s))
  {
    hide Fit, Slots, At, Pool, Count, Leaves;
  }

  lemma AtFin(l: Lay, s: nat)
    requires Fit(l, Fin(s))
    ensures s in Slots(Fin(s)) && At(l, Fin(s), s) == Stop(l)
  {
  }

  /** A jump to another node of the same part, and on to the next statement. */
  lemma {:induction false} ShiftOpen<S>(g: seq<Node>, cmd: Cmd, lay: Lay, m: Mach<S>, c: Ctl, s: nat, l: Lay, n: Ctl)
    returns (c': Ctl)
    requires Running(g, cmd, lay, m, c) && s in Slots(c) && Leaf(lay, c, s) == (l, Here(s)) && Fit(l, Here(s))
    requires Fit(l, n) && !n.Off? && Slots(n) == {s} && Leaves(n) == 1 && (forall x :: Count(l, n, x) == 0)
    requires Open(l, n) == {}
    ensures s < |m.pc| && Place(g, m, s, Some(At(l, n, s))).Some?
    ensures Running(g, cmd, lay, Place(g, m, s, Some(At(l, n, s))).value, c')
    ensures Balance(lay, c, multiset{}, Passes(g, m.(pc := m.pc[s := Some(At(l, n, s))]), s), c')
  {
    hide Sound, Links, Faithful, ChainsDown, Of, Slots, Leaf, Up, UpFits, Fit, Open, At, Count, Leaves, Fold, Passes,
         Inv, Replaced;
    RunningFits(g, cmd, lay, m, c);
    SlotLive(lay, m, c, s);
    UpStay(lay, c, s, n);
    UpFitsStay(lay, c, s, n);
    UpOpen(lay, c, s, Stay(n));
    HereOpen(l, s);
    var d := Up(lay, c, s, Stay(n)).c;
    InvShifted(lay, m, c, d, s, n);
    c' := FoldOpen(g, cmd, lay, m.(pc := m.pc[s := Some(At(l, n, s))]), d, s);
  }

  lemma HereOpen(l: Lay, s: nat)
    requires Fit(l, Here(s))
    ensures Open(l, Here(s)) == {}
  {
  }

  lemma {:induction false} AlternativeOpen(l: Lay, i: nat, s: nat)
    requires l.LBranch? && i < |l.ls| && Fit(l, Alternative(l, i, s))
    ensures Open(l, Alternative(l, i, s)) == {}
  {
    if !l.ls[i].LNull? { EnterOpen(l.ls[i], s); }
  }

  /** Entries carry statements, so nothing is passed while the branches start. */
  lemma {:induction false} NothingPassed<S>(g: seq<Node>, ls: seq<Lay>, m: Mach<S>, s: nat, i: nat, first: bool)
    requires EntriesReady(g, ls) && forall j | 0 <= j < |ls| && ls[j].LNull? :: Entry(ls[j]).None?
    ensures ForkPasses(g, m, s, Entries(ls), i, first) == multiset{}
    decreases |ls| - i
  {
    if i < |ls| {
      if ls[i].LNull? {
        NothingPassed(g, ls, m, s, i + 1, first);
      } else {
        var r := if first then Some((m, s)) else Take(m);
        if r.Some? && r.value.1 < |r.value.0.pc| {
          PlaceReady(g, r.value.0, r.value.1, Entry(ls[i]).value);
          NothingPassed(g, ls, Place(g, r.value.0, r.value.1, Entry(ls[i])).value, s, i + 1, false);
        }
      }
    }
  }

  /** The tree with the branches of the comma l started. */
  lemma {:induction false} ForkTreeOpen(lay: Lay, c: Ctl, s: nat, l: Lay, n: Ctl)
    requires Sound(lay) && Fit(lay, c) && s in Slots(c) && Leaf(lay, c, s) == (l, Here(s)) && l.LComma?
    requires Fit(l, Here(s)) && Fit(l, n) && !n.Off? && s in Slots(n) && (Slots(n) - {s}) !! Slots(c)
    requires (forall x: nat :: Count(l, n, x) == 0) && Open(l, n) == {l.join}
    ensures Up(lay, c, s, Stay(n)).Stay? && Balance(lay, c, multiset{l.join}, multiset{}, Up(lay, c, s, Stay(n)).c)
  {
    hide Sound, Slots, Leaf, Up, UpFits, Fit, Open, Count, Replaced, Balance;
    UpStay(lay, c, s, n);
    UpFitsStay(lay, c, s, n);
    UpOpen(lay, c, s, Stay(n));
    LeafOpen(lay, c, s);
    LeafClosed(lay, c, s);
    HereOpen(l, s);
    OpenedOne(lay, c, Up(lay, c, s, Stay(n)).c, l.join);
  }

  lemma {:induction false} ForkOpen<S>(g: seq<Node>, cmd: Cmd, lay: Lay, m: Mach<S>, c: Ctl, s: nat, l: Lay,
      kl: Option<nat>) returns (c': Ctl)
    requires AtLeaf(g, cmd, lay, m, c, s, l, kl) && l.LComma?
    ensures Fork(g, m, s, Entries(l.ls), 0, true).Some?
    ensures Running(g, cmd, lay, Fork(g, m, s, Entries(l.ls), 0, true).value, c')
    ensures Balance(lay, c, multiset{l.join}, multiset{}, c')
  {
    hide Sound, Links, Faithful, ChainsDown, Of, Slots, Leaf, Up, Fit, Open, At, Count, Leaves, Inv, Fork, Fresh,
         EntriesReady, Balance, Forked;
    RunningFits(g, cmd, lay, m, c);
    CommaEntries(g, l, kl);
    var sl := ForkMove(g, cmd, lay, m, c, s, l);
    ForkedOpen(l, sl);
    ForkTreeOpen(lay, c, s, l, Many(EnterAll(l.ls, sl)));
    c' := Up(lay, c, s, Stay(Many(EnterAll(l.ls, sl)))).c;
  }

  lemma {:induction false} OpenedOne(lay: Lay, c: Ctl, c': Ctl, j: nat)
    requires Fit(lay, c) && Fit(lay, c') && j !in Open(lay, c) && Open(lay, c') == Open(lay, c) + {j}
    ensures Balance(lay, c, multiset{j}, multiset{}, c')
  {
    hide Open, Fit;
  }

  lemma {:induction false} ForkedOpen(l: Lay, sl: seq<nat>)
    requires l.LComma? && |sl| == |l.ls| && Fit(l, Many(EnterAll(l.ls, sl)))
    ensures Open(l, Many(EnterAll(l.ls, sl))) == {l.join}
  {
    var cs := EnterAll(l.ls, sl);
    forall i | 0 <= i < |cs| ensures Open(l.ls[i], cs[i]) == {} { EnterOpen(l.ls[i], sl[i]); }
  }

  /** Leaving a node with a plain statement, and on to the next statement. */
  lemma {:induction false} PlainOpen<S>(g: seq<Node>, cmd: Cmd, lay: Lay, m: Mach<S>, c: Ctl, s: nat, l: Lay)
    returns (c': Ctl)
    requires Running(g, cmd, lay, m, c) && s in Slots(c) && Leaf(lay, c, s) == (l, Here(s)) && (l.LAct? || l.LNop?)
    ensures Settle(g, UpdatePc(g, m, s), s).Some?
    ensures Running(g, cmd, lay, Settle(g, UpdatePc(g, m, s), s).value, c')
    ensures Balance(lay, c, multiset{}, SettlePasses(g, UpdatePc(g, m, s), s), c')
  {
    hide Inv, Compiled, Slots, Leaf, UpdatePc, Fit, Open, Passes, Fold;
    RunningFits(g, cmd, lay, m, c);
    assert Inv(lay, m, c);
    SlotLive(lay, m, c, s);
    UpdatePcShape(g, m, s);
    var d := LeaveOpen(g, cmd, lay, m, c, s);
    HereOpen(l, s);
    assert Open(lay, d) == Open(lay, c);
    c' := FoldOpen(g, cmd, lay, UpdatePc(g, m, s).value, d, s);
  }

  /** Executing the statement slot s is at, and what that forks and passes. */
  ghost predicate Tallied<S>(
      env: Env<S>, g: seq<Node>, cmd: Cmd, lay: Lay, m: Mach<S>, c: Ctl, s: nat, flag: bool, pick: nat, c': Ctl)
  {
    && Execute(g, env, m, s, flag, pick).Some?
    && Running(g, cmd, lay, Execute(g, env, m, s, flag, pick).value, c')
    && Balance(lay, c, Forks(g, m, s), ExecutePasses(g, env, m, s, flag, pick), c')
  }

  lemma {:induction false} ExecuteOpen<S>(
      env: Env<S>, g: seq<Node>, cmd: Cmd, lay: Lay, m: Mach<S>, c: Ctl, s: nat, l: Lay, kl: Option<nat>,
      flag: bool, pick: nat)
    returns (c': Ctl)
    requires AtLeaf(g, cmd, lay, m, c, s, l, kl)
    ensures Tallied(env, g, cmd, lay, m, c, s, flag, pick, c')
  {
    hide Inv, Fit, Running, AtLeaf, Allowed, AnyMatch, Tallied;
    NodeAt(g, cmd, lay, m, c, s, l, kl);
    if l.LAct? {
      c' := ActOpen(env, g, cmd, lay, m, c, s, l, kl, flag, pick);
    } else if l.LNop? {
      c' := NopOpen(env, g, cmd, lay, m, c, s, l, kl, flag, pick);
    } else if l.LComma? {
      c' := CommaOpen(env, g, cmd, lay, m, c, s, l, kl, flag, pick);
    } else if Allowed(env, l.arb && !l.isLoop, l.guards, m.store, pick) {
      c' := PickOpen(env, g, cmd, lay, m, c, s, l, kl, flag, pick);
    } else if l.isLoop && !AnyMatch(env, l.guards, m.store) {
      c' := ExitOpen(env, g, cmd, lay, m, c, s, l, kl, flag, pick);
    } else {
      c' := c;
      WaitOpen(env, g, cmd, lay, m, c, s, l, kl, flag, pick);
    }
  }

  lemma {:induction false} ActOpen<S>(
      env: Env<S>, g: seq<Node>, cmd: Cmd, lay: Lay, m: Mach<S>, c: Ctl, s: nat, l: Lay, kl: Option<nat>,
      flag: bool, pick: nat)
    returns (c': Ctl)
    requires AtLeaf(g, cmd, lay, m, c, s, l, kl) && l.LAct?
    ensures Tallied(env, g, cmd, lay, m, c, s, flag, pick, c')
  {
    hide Slots, Leaf, UpdatePc, Fit, Running, AtLeaf, Sound, Links, Faithful, Settle, SettlePasses, Balance, Execute,
         ExecutePasses, Forks, Entry1;
    NodeAt(g, cmd, lay, m, c, s, l, kl);
    AtLeafIs(g, cmd, lay, m, c, s, l, kl);
    ExecuteAct(g, env, m, s, Entry1(l), l.a, flag, pick);
    ActPasses(g, env, m, s, Entry1(l), l.a, flag, pick);
    var o := env.run(l.a, flag, m.store);
    RunningStore(g, cmd, lay, m, c, o.store);
    c' := c;
    if o.done {
      c' := PlainOpen(g, cmd, lay, m.(store := o.store), c, s, l);
    } else {
      BalanceNone(lay, c);
    }
  }

  lemma ActPasses<S>(g: seq<Node>, env: Env<S>, m: Mach<S>, s: nat, e: nat, a: nat, flag: bool, pick: nat)
    requires s < |m.pc| && m.pc[s] == Some(e) && e < |g| && g[e].stmt == Some(SAct(a))
    ensures var o := env.run(a, flag, m.store);
            ExecutePasses(g, env, m, s, flag, pick)
            == if o.done then SettlePasses(g, UpdatePc(g, m.(store := o.store), s), s) else multiset{}
    ensures Forks(g, m, s) == multiset{}
  {
    hide SettlePasses, UpdatePc;
  }

  lemma {:induction false} NopOpen<S>(
      env: Env<S>, g: seq<Node>, cmd: Cmd, lay: Lay, m: Mach<S>, c: Ctl, s: nat, l: Lay, kl: Option<nat>,
      flag: bool, pick: nat)
    returns (c': Ctl)
    requires AtLeaf(g, cmd, lay, m, c, s, l, kl) && l.LNop?
    ensures Tallied(env, g, cmd, lay, m, c, s, flag, pick, c')
  {
    hide Slots, Leaf, UpdatePc, Fit, Running, AtLeaf, Sound, Links, Faithful, Settle, SettlePasses, Balance;
    NodeAt(g, cmd, lay, m, c, s, l, kl);
    AtLeafIs(g, cmd, lay, m, c, s, l, kl);
    c' := PlainOpen(g, cmd, lay, m, c, s, l);
  }

  lemma {:induction false} CommaOpen<S>(
      env: Env<S>, g: seq<Node>, cmd: Cmd, lay: Lay, m: Mach<S>, c: Ctl, s: nat, l: Lay, kl: Option<nat>,
      flag: bool, pick: nat)
    returns (c': Ctl)
    requires AtLeaf(g, cmd, lay, m, c, s, l, kl) && l.LComma?
    ensures Tallied(env, g, cmd, lay, m, c, s, flag, pick, c')
  {
    hide Slots, Leaf, Fit, Running, AtLeaf, Sound, Links, Faithful, Fork, ForkPasses, Balance, Entries, EntriesReady;
    NodeAt(g, cmd, lay, m, c, s, l, kl);
    AtLeafIs(g, cmd, lay, m, c, s, l, kl);
    CommaEntries(g, l, kl);
    NothingPassed(g, l.ls, m, s, 0, true);
    CommaNext(g, l, kl);
    c' := ForkOpen(g, cmd, lay, m, c, s, l, kl);
  }

  lemma {:induction false} WaitOpen<S>(
      env: Env<S>, g: seq<Node>, cmd: Cmd, lay: Lay, m: Mach<S>, c: Ctl, s: nat, l: Lay, kl: Option<nat>,
      flag: bool, pick: nat)
    requires AtLeaf(g, cmd, lay, m, c, s, l, kl) && l.LBranch?
    requires !Allowed(env, l.arb && !l.isLoop, l.guards, m.store, pick)
    requires l.isLoop ==> AnyMatch(env, l.guards, m.store)
    ensures Tallied(env, g, cmd, lay, m, c, s, flag, pick, c)
  {
    hide Slots, Leaf, Fit, Running, AtLeaf, Sound, Links, Faithful, Balance, Allowed, AnyMatch;
    NodeAt(g, cmd, lay, m, c, s, l, kl);
    AtLeafIs(g, cmd, lay, m, c, s, l, kl);
    BalanceNone(lay, c);
  }

  lemma {:induction false} AtLeafIs<S>(g: seq<Node>, cmd: Cmd, lay: Lay, m: Mach<S>, c: Ctl, s: nat, l: Lay,
      kl: Option<nat>)
    requires AtLeaf(g, cmd, lay, m, c, s, l, kl)
    ensures Running(g, cmd, lay, m, c) && Fit(lay, c) && s in Slots(c) && Leaf(lay, c, s) == (l, Here(s))
    ensures Sound(l) && Faithful(l) && Links(g, l, kl) && Fit(l, Here(s))
  {
    hide Running, Sound, Faithful, Links, Fit, Slots, Leaf, At;
    RunningFits(g, cmd, lay, m, c);
  }

  lemma CommaNext(g: seq<Node>, l: Lay, kl: Option<nat>)
    requires l.LComma? && Links(g, l, kl)
    ensures l.fork < |g| && g[l.fork].next == Some(l.join)
  {
  }

  /** Taking an alternative. */
  lemma {:induction false} PickOpen<S>(
      env: Env<S>, g: seq<Node>, cmd: Cmd, lay: Lay, m: Mach<S>, c: Ctl, s: nat, l: Lay, kl: Option<nat>,
      flag: bool, pick: nat)
    returns (c': Ctl)
    requires AtLeaf(g, cmd, lay, m, c, s, l, kl) && l.LBranch?
    requires Allowed(env, l.arb && !l.isLoop, l.guards, m.store, pick)
    ensures Tallied(env, g, cmd, lay, m, c, s, flag, pick, c')
  {
    hide AtLeaf, Place, Passes, Allowed, Balance, Execute, ExecutePasses, Forks, Entry1, Targets, Running, Fit,
         Sound, Entries, AnyMatch;
    NodeAt(g, cmd, lay, m, c, s, l, kl);
    AllowedIn(env, l.arb && !l.isLoop, l.guards, m.store, pick);
    c' := PickShift(g, cmd, lay, m, c, s, l, kl, pick);
    ExecutePick(g, env, m, s, Entry1(l), l.isLoop, l.arb, l.guards, flag, pick);
    PickPasses(g, env, m, s, Entry1(l), l.isLoop, l.arb, l.guards, flag, pick);
  }

  lemma {:induction false} PickShift<S>(
      g: seq<Node>, cmd: Cmd, lay: Lay, m: Mach<S>, c: Ctl, s: nat, l: Lay, kl: Option<nat>, pick: nat)
    returns (c': Ctl)
    requires AtLeaf(g, cmd, lay, m, c, s, l, kl) && l.LBranch? && pick < |l.guards|
    ensures |l.guards| == |l.ls| && s < |m.pc|
    ensures var t := Targets(l.ls, if l.isLoop then l.n else l.stop)[pick];
            && t.Some? && Place(g, m, s, t).Some? && Running(g, cmd, lay, Place(g, m, s, t).value, c')
            && Balance(lay, c, multiset{}, Passes(g, m.(pc := m.pc[s := t]), s), c')
  {
    hide Slots, Leaf, Fit, Open, Passes, Running, AtLeaf, Sound, Links, Faithful, At, Place, Alternative, Count, Leaves,
         Balance, Term, Targets, Ready, ThenLoop, BranchTerm;
    AtLeafIs(g, cmd, lay, m, c, s, l, kl);
    BranchParts(l);
    AlternativeIs(l, pick, s);
    AlternativeOpen(l, pick, s);
    c' := ShiftOpen(g, cmd, lay, m, c, s, l, Alternative(l, pick, s));
  }

  lemma PickPasses<S>(g: seq<Node>, env: Env<S>, m: Mach<S>, s: nat, e: nat, isLoop: bool, arb: bool,
      guards: seq<Option<nat>>, flag: bool, pick: nat)
    requires s < |m.pc| && m.pc[s] == Some(e) && e < |g|
    requires g[e].stmt == Some(if isLoop then SLoop(guards) else SCond(arb, guards))
    requires Allowed(env, arb && !isLoop, guards, m.store, pick) && pick < |g[e].all| && g[e].all[pick].Some?
    ensures ExecutePasses(g, env, m, s, flag, pick) == Passes(g, m.(pc := m.pc[s := g[e].all[pick]]), s)
    ensures Forks(g, m, s) == multiset{}
  {
    hide Passes, Allowed;
  }

  /** A loop that ends. */
  lemma {:induction false} ExitOpen<S>(
      env: Env<S>, g: seq<Node>, cmd: Cmd, lay: Lay, m: Mach<S>, c: Ctl, s: nat, l: Lay, kl: Option<nat>,
      flag: bool, pick: nat)
    returns (c': Ctl)
    requires AtLeaf(g, cmd, lay, m, c, s, l, kl) && l.LBranch? && l.isLoop
    requires !Allowed(env, false, l.guards, m.store, pick) && !AnyMatch(env, l.guards, m.store)
    ensures Tallied(env, g, cmd, lay, m, c, s, flag, pick, c')
  {
    hide Slots, Leaf, Fit, Open, Passes, Running, AtLeaf, Sound, Links, Faithful, At, Place, Allowed, AnyMatch, Count,
         Leaves, Balance, Execute, ExecutePasses, Forks, Entry1;
    NodeAt(g, cmd, lay, m, c, s, l, kl);
    AtLeafIs(g, cmd, lay, m, c, s, l, kl);
    BranchFin(l, s);
    Tip(l, Fin(s), s);
    ExecuteExit(g, env, m, s, Entry1(l), l.guards, flag, pick);
    ExitPasses(g, env, m, s, Entry1(l), l.guards, flag, pick);
    c' := ShiftOpen(g, cmd, lay, m, c, s, l, Fin(s));
  }

  lemma ExitPasses<S>(g: seq<Node>, env: Env<S>, m: Mach<S>, s: nat, e: nat, guards: seq<Option<nat>>, flag: bool,
      pick: nat)
    requires s < |m.pc| && m.pc[s] == Some(e) && e < |g| && g[e].stmt == Some(SLoop(guards))
    requires !Allowed(env, false, guards, m.store, pick) && !AnyMatch(env, guards, m.store)
    requires g[e].next.Some? && g[e].next.value < |g| && g[g[e].next.value].wait == 0
    ensures ExecutePasses(g, env, m, s, flag, pick) == Passes(g, m.(pc := m.pc[s := g[e].next]), s)
    ensures Forks(g, m, s) == multiset{}
  {
    hide Passes, Allowed, AnyMatch;
  }

  lemma BranchFin(l: Lay, s: nat)
    requires l.LBranch?
    ensures Fit(l, Fin(s)) && Open(l, Fin(s)) == {} && At(l, Fin(s), s) == l.stop
  {
  }

  /** Any event of any slot. */
  lemma {:induction false} StepOpen<S>(
      env: Env<S>, g: seq<Node>, cmd: Cmd, lay: Lay, m: Mach<S>, c: Ctl, s: nat, flag: bool, pick: nat)
    returns (c': Ctl)
    requires Running(g, cmd, lay, m, c) && s < |m.pc|
    ensures Step(g, env, m, s, flag, pick).Some? && Running(g, cmd, lay, Step(g, env, m, s, flag, pick).value, c')
    ensures var t := StepTally(g, env, m, s, flag, pick); Balance(lay, c, t.forks, t.passes, c')
  {
    hide Execute, Fold, Running, AtLeaf, Passes, ExecutePasses, Forks, Fit, Sound, Balance, Step, StepTally;
    c' := FoldOpen(g, cmd, lay, m, c, s);
    Landed(env, g, cmd, lay, m, c, s);
    StepParts(g, env, m, s, flag, pick);
    var m1 := Fold(g, m, s).value;
    if m1.pc[s].Some? {
      var d := c';
      var l, kl := LeafHere(g, cmd, lay, m1, d, s);
      var flag1 := flag && m1.pc[s] == m.pc[s];
      c' := ExecuteOpen(env, g, cmd, lay, m1, d, s, l, kl, flag1, pick);
      var none: multiset<nat>, forks := multiset{}, Forks(g, m1, s);
      BalanceMore(lay, c, none, Passes(g, m, s), d, forks, ExecutePasses(g, env, m1, s, flag1, pick), c');
      assert none + forks == forks;
    }
  }

  /** An event is going on to a statement and executing that. */
  lemma StepParts<S>(g: seq<Node>, env: Env<S>, m: Mach<S>, s: nat, flag: bool, pick: nat)
    requires s < |m.pc| && Fold(g, m, s).Some? && |Fold(g, m, s).value.pc| == |m.pc|
    ensures var m1 := Fold(g, m, s).value;
            var flag1 := flag && m1.pc[s] == m.pc[s];
            && Step(g, env, m, s, flag, pick)
               == (if m1.pc[s].None? then Some(m1) else Execute(g, env, m1, s, flag1, pick))
            && StepTally(g, env, m, s, flag, pick)
               == if m1.pc[s].None? then Tally(multiset{}, Passes(g, m, s))
                  else Tally(Forks(g, m1, s), Passes(g, m, s) + ExecutePasses(g, env, m1, s, flag1, pick))
  {
    hide Fold, Execute, Passes, ExecutePasses, Forks;
  }

  lemma BalanceNone(lay: Lay, c: Ctl)
    requires Fit(lay, c)
    ensures Balance(lay, c, multiset{}, multiset{}, c)
  {
  }

  lemma {:induction false} BalanceMore(lay: Lay, c: Ctl, f: multiset<nat>, p: multiset<nat>, d: Ctl, f': multiset<nat>,
      p': multiset<nat>, c': Ctl)
    requires Balance(lay, c, f, p, d) && Balance(lay, d, f', p', c')
    ensures Balance(lay, c, f + f', p + p', c')
  {
    hide Open, Fit;
    forall j: nat ensures Bit(Open(lay, c), j) + (f + f')[j] == Bit(Open(lay, c'), j) + (p + p')[j] {
      assert Bit(Open(lay, c), j) + f[j] == Bit(Open(lay, d), j) + p[j];
      assert Bit(Open(lay, d), j) + f'[j] == Bit(Open(lay, c'), j) + p'[j];
    }
  }

  // ----- runs

  /** Over a run the forks executed are the joins passed and the commas still under way. */
  lemma {:induction false} RunBalance<S>(
      env: Env<S>, g: seq<Node>, cmd: Cmd, lay: Lay, npc: nat, counters: nat, store: S, evs: seq<Event>)
    returns (c: Ctl)
    requires Program(g, cmd, lay, npc, counters) && InRange(evs, npc)
    ensures var m := Initial(npc, counters, Entry(lay), store);
            var r := Run(g, env, m, evs);
            var t := RunTally(g, env, m, evs);
            && r.Some? && Running(g, cmd, lay, r.value, c) && Fit(lay, c)
            && forall j: nat :: t.forks[j] == t.passes[j] + Bit(Open(lay, c), j)
    decreases |evs|
  {
    hide Initial, Step, Compiled, Inv, Open, Fit, StepTally, Enter;
    var m0 := Initial(npc, counters, Entry(lay), store);
    Starts(g, cmd, lay, npc, counters, store);
    if evs == [] {
      c := Enter(lay, 0);
      RunningFits(g, cmd, lay, m0, c);
      EnterOpen(lay, 0);
    } else {
      var n := |evs| - 1;
      var d := RunBalance(env, g, cmd, lay, npc, counters, store, evs[..n]);
      var m := Run(g, env, m0, evs[..n]).value;
      c := StepOpen(env, g, cmd, lay, m, d, evs[n].slot, evs[n].flag, evs[n].pick);
      var u := StepTally(g, env, m, evs[n].slot, evs[n].flag, evs[n].pick);
      var t := RunTally(g, env, m0, evs[..n]);
      forall j: nat ensures (t.forks + u.forks)[j] == (t.passes + u.passes)[j] + Bit(Open(lay, c), j) {
        assert Bit(Open(lay, d), j) + u.forks[j] == Bit(Open(lay, c), j) + u.passes[j];
      }
    }
  }

  /**
   In every run under every schedule, and for every join: its fork has been executed as often as it has been passed,
   or once more. So every execution of a comma passes its join exactly once before the comma is executed again, and
   in a program that has come to its end as often as it was forked.
   */
  lemma {:induction false} JoinsOnce<S>(
      env: Env<S>, g: seq<Node>, cmd: Cmd, lay: Lay, npc: nat, counters: nat, store: S, evs: seq<Event>)
    requires Program(g, cmd, lay, npc, counters) && InRange(evs, npc)
    ensures var m := Initial(npc, counters, Entry(lay), store);
            var r := Run(g, env, m, evs);
            var t := RunTally(g, env, m, evs);
            && r.Some?
            && (forall j: nat :: t.passes[j] <= t.forks[j] <= t.passes[j] + 1)
            && (Live(r.value) == {} ==> t.forks == t.passes)
  {
    hide Run, RunTally, Initial, Compiled, Open, Fit, Slots, Pool, Counted;
    var m := Initial(npc, counters, Entry(lay), store);
    var c := RunBalance(env, g, cmd, lay, npc, counters, store, evs);
    if Live(Run(g, env, m, evs).value) == {} {
      LiveSlots(lay, Run(g, env, m, evs).value, c);
      NoSlots(lay, c);
      OffOpen(lay);
    }
  }

  lemma {:induction false} LiveSlots<S>(lay: Lay, m: Mach<S>, c: Ctl)
    requires Inv(lay, m, c)
    ensures Live(m) == Slots(c)
  {
    hide Fit, Slots, At, Pool, Count, Leaves;
  }
}
