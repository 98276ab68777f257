/**
 Every event keeps the invariant and is at most one step of the structured semantics.
 */
module ChpExec {
  import opened Prelude
  import opened ChpLang
  import opened ChpGraph
  import opened ChpControl
  import opened ChpMove
  import opened ChpTerm
  import opened ChpWork
  import opened ChpSim
  import opened ChpRun

  // ----- the thread bound

  lemma MaxPcPositive(c: Cmd)
    requires WellFormed(c)
    ensures MaxPc(c) >= 1
  {
    match c
    case Semi(cs) => MaxPcOfLeast(cs, 1, |cs| - 1);
    case Comma(cs) => SumPcLeast(cs, |cs| - 1);
    case Select(_, _, bs) => MaxPcPositive(bs[|bs| - 1]); MaxPcOfLeast(bs, 0, |bs| - 1);
    case Loop(_, bs) => MaxPcPositive(bs[|bs| - 1]); MaxPcOfLeast(bs, 0, |bs| - 1);
    case _ =>
  }

  lemma MaxPcOfLeast(cs: seq<Cmd>, least: nat, i: nat)
    requires i < |cs|
    ensures MaxPc(cs[i]) <= MaxPcOf(cs, least) && least <= MaxPcOf(cs, least)
  {
    var n := |cs| - 1;
    if i < n { MaxPcOfLeast(cs[..n], least, i); }
    else if n > 0 { MaxPcOfLeast(cs[..n], least, 0); }
  }

  lemma SumPcLeast(cs: seq<Cmd>, i: nat)
    requires i < |cs| && forall j | 0 <= j < |cs| :: WellFormed(cs[j])
    ensures SumPc(cs) >= 1
  {
    MaxPcPositive(cs[|cs| - 1]);
  }

  /** A statement never has more live threads than the slots computed for it. */
  lemma {:induction false} LeavesBound(c: Cmd, lay: Lay, d: Ctl)
    requires Of(c, lay) && WellFormed(c) && Fit(lay, d)
    ensures Leaves(d) <= MaxPc(c)
    decreases c, 0
  {
    hide SlotsApart;
    if d.Off? || d.Here? || d.Fin? {
      MaxPcPositive(c);
    } else {
      match c
      case Semi(cs) =>
        if |cs| == 1 { LeavesBound(cs[0], lay, d); MaxPcOfLeast(cs, 1, 0); }
        else { LeavesBound(cs[d.i], lay.ls[d.i], d.c); MaxPcOfLeast(cs, 1, d.i); }
      case Comma(cs) =>
        if |cs| == 1 { LeavesBound(cs[0], lay, d); assert SumPc(cs) == SumPc(cs[..0]) + MaxPc(cs[0]); }
        else {
          forall j | 0 <= j < |cs| ensures Leaves(d.cs[j]) <= MaxPc(cs[j]) { LeavesBound(cs[j], lay.ls[j], d.cs[j]); }
          SumBound(cs, d.cs);
        }
      case Select(_, _, bs) => LeavesBound(bs[d.i], lay.ls[d.i], d.c); MaxPcOfLeast(bs, 0, d.i);
      case Loop(_, bs) => LeavesBound(bs[d.i], lay.ls[d.i], d.c); MaxPcOfLeast(bs, 0, d.i);
      case DoLoop(g, body) => DoLoopBound(g, body, lay, d);
      case _ =>
    }
  }

  lemma {:induction false} DoLoopBound(g: Option<nat>, body: Cmd, lay: Lay, d: Ctl)
    requires Of(DoLoop(g, body), lay) && WellFormed(body) && Fit(lay, d) && d.In?
    ensures Leaves(d) <= MaxPc(body)
    decreases body, 1
  {
    MaxPcPositive(body);
    if d.i == 0 {
      LeavesBound(body, lay.ls[0], d.c);
    } else if d.c.In? {
      LeavesBound(body, lay.ls[1].ls[0], d.c.c);
    }
  }

  lemma SumBound(cs: seq<Cmd>, ds: seq<Ctl>)
    requires |cs| == |ds| && forall j | 0 <= j < |cs| :: Leaves(ds[j]) <= MaxPc(cs[j])
    ensures SumLeaves(ds) <= SumPc(cs)
  {
    if cs != [] { SumBound(cs[..|cs| - 1], ds[..|ds| - 1]); }
  }

  // ----- starting the branches of a comma

  function EnterAll(ls: seq<Lay>, sl: seq<nat>): (r: seq<Ctl>)
    requires |ls| == |sl|
    ensures |r| == |ls|
    ensures forall j | 0 <= j < |ls| :: r[j] == Enter(ls[j], sl[j])
  {
    seq(|ls|, j requires 0 <= j < |ls| => Enter(ls[j], sl[j]))
  }

  /** One slot per branch that has nodes: s for one of them, slots that are not in use for the others. */
  ghost predicate Fresh(ls: seq<Lay>, sl: seq<nat>, s: nat, used: set<nat>)
  {
    && |sl| == |ls|
    && (exists f | 0 <= f < |ls| :: !ls[f].LNull? && sl[f] == s)
    && (forall j | 0 <= j < |ls| && !ls[j].LNull? :: sl[j] == s || sl[j] !in used)
    && (forall i, j | 0 <= i < j < |ls| && !ls[i].LNull? && !ls[j].LNull? :: sl[i] != sl[j])
  }

  /** One tree per branch: a single thread at its entry, or nothing. */
  ghost predicate Entered(ls: seq<Lay>, sl: seq<nat>, cs: seq<Ctl>)
  {
    && |cs| == |ls| == |sl|
    && forall j | 0 <= j < |cs| ::
         && Fit(ls[j], cs[j]) && Slots(cs[j]) == (if ls[j].LNull? then {} else {sl[j]})
         && (cs[j].Off? <==> ls[j].LNull?) && Leaves(cs[j]) == if ls[j].LNull? then 0 else 1
  }

  lemma {:induction false} EnterAllIs(lay: Lay, sl: seq<nat>)
    requires Sound(lay) && lay.LComma? && |sl| == |lay.ls|
    ensures Entered(lay.ls, sl, EnterAll(lay.ls, sl))
  {
    hide NodesApart, IdsApart;
    var cs := EnterAll(lay.ls, sl);
    forall j | 0 <= j < |cs|
      ensures Fit(lay.ls[j], cs[j]) && Slots(cs[j]) == (if lay.ls[j].LNull? then {} else {sl[j]})
      ensures (cs[j].Off? <==> lay.ls[j].LNull?) && Leaves(cs[j]) == if lay.ls[j].LNull? then 0 else 1
    {
      if !lay.ls[j].LNull? { EnterFits(lay.ls[j], sl[j]); }
    }
  }

  lemma {:induction false} ForkTree(lay: Lay, sl: seq<nat>, s: nat, used: set<nat>)
    requires Sound(lay) && lay.LComma? && Fresh(lay.ls, sl, s, used)
    ensures var n := Many(EnterAll(lay.ls, sl));
            && Fit(lay, n) && s in Slots(n) && (Slots(n) - {s}) !! used && Leaves(n) == Busy(lay.ls)
            && (forall x: nat :: Count(lay, n, x) == 0)
            && (forall j | 0 <= j < |lay.ls| && !lay.ls[j].LNull? ::
                  sl[j] in Slots(n) && Some(At(lay, n, sl[j])) == Entry(lay.ls[j]))
            && (forall t | t in Slots(n) :: exists j | 0 <= j < |lay.ls| :: !lay.ls[j].LNull? && t == sl[j])
  {
    hide Sound, Fit, Slots, At, Count, SumLeaves, Entry;
    var cs := EnterAll(lay.ls, sl);
    EnterAllIs(lay, sl);
    ForkFits(lay, sl, cs, s, used);
    ForkAt(lay, sl, cs);
    ForkLeaves(lay.ls, cs);
    ForkCounts(lay, cs, sl);
  }

  lemma {:induction false} ForkFits(lay: Lay, sl: seq<nat>, cs: seq<Ctl>, s: nat, used: set<nat>)
    requires lay.LComma? && Fresh(lay.ls, sl, s, used) && Entered(lay.ls, sl, cs)
    ensures Fit(lay, Many(cs)) && s in Slots(Many(cs)) && (Slots(Many(cs)) - {s}) !! used
    ensures forall t | t in Slots(Many(cs)) :: exists j | 0 <= j < |lay.ls| :: !lay.ls[j].LNull? && t == sl[j]
  {
    var f :| 0 <= f < |lay.ls| && !lay.ls[f].LNull? && sl[f] == s;
    assert !cs[f].Off?;
    assert SlotsApart(cs);
    forall t | t in Slots(Many(cs)) ensures exists j | 0 <= j < |lay.ls| :: !lay.ls[j].LNull? && t == sl[j] {
      var j := Owner(cs, t);
      assert !lay.ls[j].LNull? && t == sl[j];
    }
  }

  lemma {:induction false} ForkAt(lay: Lay, sl: seq<nat>, cs: seq<Ctl>)
    requires Sound(lay) && lay.LComma? && |sl| == |lay.ls| && cs == EnterAll(lay.ls, sl) && Fit(lay, Many(cs))
    ensures forall j | 0 <= j < |lay.ls| && !lay.ls[j].LNull? ::
              sl[j] in Slots(Many(cs)) && Some(At(lay, Many(cs), sl[j])) == Entry(lay.ls[j])
  {
    hide NodesApart, IdsApart, SlotsApart;
    forall j | 0 <= j < |lay.ls| && !lay.ls[j].LNull?
      ensures sl[j] in Slots(Many(cs)) && Some(At(lay, Many(cs), sl[j])) == Entry(lay.ls[j])
    {
      EnterFits(lay.ls[j], sl[j]);
      OwnerIs(cs, j, sl[j]);
    }
  }

  lemma ForkLeaves(ls: seq<Lay>, cs: seq<Ctl>)
    requires |ls| == |cs| && forall j | 0 <= j < |cs| :: Leaves(cs[j]) == if ls[j].LNull? then 0 else 1
    ensures SumLeaves(cs) == Busy(ls)
  {
    if cs != [] { ForkLeaves(ls[..|ls| - 1], cs[..|cs| - 1]); }
  }

  lemma {:induction false} ForkCounts(lay: Lay, cs: seq<Ctl>, sl: seq<nat>)
    requires Sound(lay) && lay.LComma? && |sl| == |lay.ls| && cs == EnterAll(lay.ls, sl) && Fit(lay, Many(cs))
    ensures forall x: nat :: Count(lay, Many(cs), x) == 0
  {
    forall x: nat ensures Count(lay, Many(cs), x) == 0 {
      forall j | 0 <= j < |cs| ensures Count(lay.ls[j], cs[j], x) == 0 {
        if !lay.ls[j].LNull? { EnterFits(lay.ls[j], sl[j]); }
      }
      SumCountOnly(lay.ls, cs, x, 0);
      forall j | 0 <= j < |cs| ensures lay.ls[j].LNull? || !cs[j].Off? {
        if !lay.ls[j].LNull? { EnterFits(lay.ls[j], sl[j]); }
      }
      NoneArrived(lay.ls, cs);
    }
  }

  lemma NoneArrived(ls: seq<Lay>, cs: seq<Ctl>)
    requires |ls| == |cs| && forall j | 0 <= j < |cs| :: ls[j].LNull? || !cs[j].Off?
    ensures Arrived(ls, cs) == 0
  {
    if cs != [] { NoneArrived(ls[..|ls| - 1], cs[..|cs| - 1]); }
  }

  /** Every live entry on the way is a node with a statement, so nothing is skipped. */
  predicate EntriesReady(g: seq<Node>, ls: seq<Lay>)
  {
    forall j | 0 <= j < |ls| && !ls[j].LNull? ::
      Entry(ls[j]).Some? && Entry(ls[j]).value < |g| && g[Entry(ls[j]).value].stmt.Some?
  }

  /** What starting the branches from i on does: slots sl[i..] now hold their entries. */
  ghost predicate Forked<S>(m: Mach<S>, m': Mach<S>, ls: seq<Lay>, sl: seq<nat>, s: nat, i: nat, first: bool)
  {
    && |m'.pc| == |m.pc| && |sl| == |ls| && m'.tot == m.tot && m'.store == m.store && Pool(m')
    && m'.used == m.used + BusyFrom(ls, i) - (if first && BusyFrom(ls, i) > 0 then 1 else 0)
    && (forall j | i <= j < |ls| && !ls[j].LNull? :: sl[j] < |m.pc| && m'.pc[sl[j]] == Entry(ls[j]))
    && (forall j | i <= j < |ls| && !ls[j].LNull? :: m.pc[sl[j]].None? || (first && sl[j] == s))
    && (forall j, k | i <= j < k < |ls| && !ls[j].LNull? && !ls[k].LNull? :: sl[j] != sl[k])
    && (first && BusyFrom(ls, i) > 0 ==> exists f | i <= f < |ls| :: !ls[f].LNull? && sl[f] == s)
    && (forall t | 0 <= t < |m.pc| && !Started(ls, sl, i, t) :: m'.pc[t] == m.pc[t])
  }

  predicate Started(ls: seq<Lay>, sl: seq<nat>, i: nat, t: nat)
    requires |sl| == |ls|
  {
    exists j | i <= j < |ls| :: !ls[j].LNull? && sl[j] == t
  }

  lemma PlaceReady<S>(g: seq<Node>, m: Mach<S>, s: nat, n: nat)
    requires s < |m.pc| && n < |g| && g[n].stmt.Some?
    ensures Place(g, m, s, Some(n)) == Some(m.(pc := m.pc[s := Some(n)]))
  {
  }

  lemma {:induction false} ForkEffect<S>(g: seq<Node>, ls: seq<Lay>, m: Mach<S>, s: nat, i: nat, first: bool)
    returns (sl: seq<nat>)
    requires EntriesReady(g, ls) && Pool(m) && s < |m.pc| && m.pc[s].Some? && i <= |ls|
    requires m.used + BusyFrom(ls, i) - (if first && BusyFrom(ls, i) > 0 then 1 else 0) <= |m.pc|
    requires forall j | 0 <= j < |ls| && ls[j].LNull? :: Entry(ls[j]).None?
    ensures Fork(g, m, s, Entries(ls), i, first).Some? && |sl| == |ls|
    ensures Forked(m, Fork(g, m, s, Entries(ls), i, first).value, ls, sl, s, i, first)
    decreases |ls| - i
  {
    hide Pool, Place, Take, Entry, EntriesReady, Forked;
    if i == |ls| {
      sl := seq(|ls|, _ => 0);
      ForkedNone(m, ls, sl, s, first);
    } else if ls[i].LNull? {
      sl := ForkEffect(g, ls, m, s, i + 1, first);
      ForkedSkip(m, Fork(g, m, s, Entries(ls), i + 1, first).value, ls, sl, s, i, first);
    } else if first {
      EntryReady(g, ls, i);
      var m1 := m.(pc := m.pc[s := Entry(ls[i])]);
      MovePool(m, s, Entry(ls[i]));
      PlaceReady(g, m, s, Entry(ls[i]).value);
      var sl' := ForkEffect(g, ls, m1, s, i + 1, false);
      sl := sl'[i := s];
      ForkedOne(m, m1, Fork(g, m1, s, Entries(ls), i + 1, false).value, ls, sl', s, i, s);
    } else {
      EntryReady(g, ls, i);
      TakePool(m, Entry(ls[i]));
      var (m0, t) := Take(m).value;
      var m1 := m0.(pc := m.pc[t := Entry(ls[i])]);
      PlaceReady(g, m0, t, Entry(ls[i]).value);
      var sl' := ForkEffect(g, ls, m1, s, i + 1, false);
      sl := sl'[i := t];
      ForkedOne(m, m1, Fork(g, m1, s, Entries(ls), i + 1, false).value, ls, sl', s, i, t);
    }
  }

  lemma EntryReady(g: seq<Node>, ls: seq<Lay>, i: nat)
    requires EntriesReady(g, ls) && i < |ls| && !ls[i].LNull?
    ensures Entry(ls[i]).Some? && Entry(ls[i]).value < |g| && g[Entry(ls[i]).value].stmt.Some?
  {
  }

  lemma ForkedNone<S>(m: Mach<S>, ls: seq<Lay>, sl: seq<nat>, s: nat, first: bool)
    requires |sl| == |ls| && Pool(m)
    ensures Forked(m, m, ls, sl, s, |ls|, first)
  {
    hide Pool;
  }

  lemma {:induction false} ForkedSkip<S>(m: Mach<S>, m': Mach<S>, ls: seq<Lay>, sl: seq<nat>, s: nat, i: nat,
      first: bool)
    requires i < |ls| && ls[i].LNull? && Forked(m, m', ls, sl, s, i + 1, first)
    ensures Forked(m, m', ls, sl, s, i, first)
  {
    hide Pool;
    forall t | 0 <= t < |m.pc| && !Started(ls, sl, i, t) ensures m'.pc[t] == m.pc[t] {
      assert !Started(ls, sl, i + 1, t);
    }
  }

  lemma {:induction false} ForkedOne<S>(m: Mach<S>, m1: Mach<S>, m': Mach<S>, ls: seq<Lay>, sl: seq<nat>, s: nat,
      i: nat, t: nat)
    requires i < |ls| && !ls[i].LNull? && t < |m.pc| && (m.pc[t].None? || t == s) && Entry(ls[i]).Some?
    requires m1.pc == m.pc[t := Entry(ls[i])] && m1.tot == m.tot && m1.store == m.store
    requires m1.used == m.used + (if t == s then 0 else 1)
    requires s < |m.pc| && m.pc[s].Some?
    requires Forked(m1, m', ls, sl, s, i + 1, false)
    ensures Forked(m, m', ls, sl[i := t], s, i, t == s)
  {
    var sl' := sl[i := t];
    assert !Started(ls, sl, i + 1, t);
    assert sl'[i] == t && forall j | i + 1 <= j < |ls| :: sl'[j] == sl[j];
    forall u | 0 <= u < |m.pc| && !Started(ls, sl', i, u) ensures m'.pc[u] == m.pc[u] {
      assert u != t && !Started(ls, sl, i + 1, u);
    }
  }

  lemma CommaEntries(g: seq<Node>, lay: Lay, k: Option<nat>)
    requires Sound(lay) && lay.LComma? && Links(g, lay, k)
    ensures EntriesReady(g, lay.ls) && forall j | 0 <= j < |lay.ls| && lay.ls[j].LNull? :: Entry(lay.ls[j]).None?
  {
    forall j | 0 <= j < |lay.ls| && !lay.ls[j].LNull?
      ensures Entry(lay.ls[j]).Some? && Entry(lay.ls[j]).value < |g| && g[Entry(lay.ls[j]).value].stmt.Some?
    {
      EntryStmt(g, lay.ls[j], Some(lay.join));
    }
  }

  /** Slot s is at the fork of the comma l. */
  ghost predicate AtFork(g: seq<Node>, lay: Lay, c: Ctl, s: nat, l: Lay)
  {
    && Fit(lay, c) && s in Slots(c) && Leaf(lay, c, s) == (l, Here(s)) && l.LComma? && Sound(l) && Faithful(l)
    && EntriesReady(g, l.ls) && (forall j | 0 <= j < |l.ls| && l.ls[j].LNull? :: Entry(l.ls[j]).None?)
  }

  /** There is room in the pool for all branches of a comma. */
  lemma {:induction false} ForkRoom<S>(g: seq<Node>, cmd: Cmd, lay: Lay, m: Mach<S>, c: Ctl, s: nat, l: Lay)
    requires Compiled(g, cmd, lay) && WellFormed(cmd) && Inv(lay, m, c) && |m.pc| == MaxPc(cmd)
             && AtFork(g, lay, c, s, l)
    ensures m.used + Busy(l.ls) - 1 <= |m.pc|
  {
    hide Fit, Slots, At, Leaf, Sound, Leaves, Links, Of;
    var sl := HypotheticalSlots(l, s, |m.pc|, Slots(c));
    ForkTree(l, sl, s, Slots(c));
    UpStay(lay, c, s, Many(EnterAll(l.ls, sl)));
    LeavesBound(cmd, lay, Up(lay, c, s, Stay(Many(EnterAll(l.ls, sl)))).c);
  }

  lemma {:induction false} HypotheticalSlots(l: Lay, s: nat, npc: nat, used: set<nat>) returns (sl: seq<nat>)
    requires Sound(l) && l.LComma? && forall t | t in used :: t < npc
    ensures Fresh(l.ls, sl, s, used)
  {
    var f :| 0 <= f < |l.ls| && !l.ls[f].LNull?;
    sl := seq(|l.ls|, j => if j == f then s else s + npc + j + 1);
    assert sl[f] == s;
  }

  /** Starting the branches of a comma: the slots, the pool and the counters. */
  lemma {:induction false} ForkMove<S>(g: seq<Node>, cmd: Cmd, lay: Lay, m: Mach<S>, c: Ctl, s: nat, l: Lay)
    returns (sl: seq<nat>)
    requires Compiled(g, cmd, lay) && WellFormed(cmd) && Inv(lay, m, c) && |m.pc| == MaxPc(cmd)
             && AtFork(g, lay, c, s, l)
    ensures Fork(g, m, s, Entries(l.ls), 0, true).Some? && |sl| == |l.ls| && Fresh(l.ls, sl, s, Slots(c))
    ensures var n := Many(EnterAll(l.ls, sl));
            && Fit(l, n) && s in Slots(n) && (Slots(n) - {s}) !! Slots(c) && (forall x: nat :: Count(l, n, x) == 0)
    ensures var m' := Fork(g, m, s, Entries(l.ls), 0, true).value;
            && Inv(lay, m', After(Up(lay, c, s, Stay(Many(EnterAll(l.ls, sl))))))
            && Forked(m, m', l.ls, sl, s, 0, true) && |m'.pc| == |m.pc|
  {
    hide Fit, Slots, At, Leaf, Sound, Leaves, Links, Of, Pool, NodesApart, IdsApart, SlotsApart, Up;
    ForkRoom(g, cmd, lay, m, c, s, l);
    ForkBusy(l);
    sl := ForkEffect(g, l.ls, m, s, 0, true);
    var m' := Fork(g, m, s, Entries(l.ls), 0, true).value;
    ForkFresh(m, m', l, sl, s, Slots(c));
    ForkTree(l, sl, s, Slots(c));
    var n := Many(EnterAll(l.ls, sl));
    UpStay(lay, c, s, n);
    ForkInv(lay, m, m', c, Up(lay, c, s, Stay(n)).c, s, l, n, sl);
  }

  lemma {:induction false} ForkStep<S>(
      env: Env<S>, g: seq<Node>, cmd: Cmd, lay: Lay, m: Mach<S>, c: Ctl, s: nat, l: Lay)
    returns (c': Ctl)
    requires Compiled(g, cmd, lay) && WellFormed(cmd) && Inv(lay, m, c) && |m.pc| == MaxPc(cmd)
             && AtFork(g, lay, c, s, l)
    ensures Fork(g, m, s, Entries(l.ls), 0, true).Some?
    ensures var m' := Fork(g, m, s, Entries(l.ls), 0, true).value;
            Inv(lay, m', c') && m'.store == m.store && Term(lay, c') == Term(lay, c) && |m'.pc| == |m.pc|
    ensures Load(lay, c') < Load(lay, c)
    ensures var m' := Fork(g, m, s, Entries(l.ls), 0, true).value;
            forall t | 0 <= t < |m.pc| && m'.pc[t] != m.pc[t] ::
              exists j | 0 <= j < |l.ls| :: !l.ls[j].LNull? && m'.pc[t] == Entry(l.ls[j])
  {
    hide Fit, Slots, At, Leaf, Sound, Faithful, Leaves, Links, Of, ChainsDown, Load, Up, Inv, Fresh, Count, Term,
         Fork, Forked;
    var sl := ForkMove(g, cmd, lay, m, c, s, l);
    ForkResidue(env, lay, c, s, l, sl, m.store);
    ForkedChange(m, Fork(g, m, s, Entries(l.ls), 0, true).value, l.ls, sl, s);
    c' := After(Up(lay, c, s, Stay(Many(EnterAll(l.ls, sl)))));
  }

  /** Forking leaves the same term to run. */
  lemma {:induction false} ForkResidue<S>(env: Env<S>, lay: Lay, c: Ctl, s: nat, l: Lay, sl: seq<nat>, st: S)
    requires Sound(lay) && Faithful(lay) && Fit(lay, c) && s in Slots(c) && Leaf(lay, c, s) == (l, Here(s))
    requires l.LComma? && Sound(l) && Faithful(l) && |sl| == |l.ls|
    requires var n := Many(EnterAll(l.ls, sl));
             && Fit(l, n) && s in Slots(n) && (Slots(n) - {s}) !! Slots(c) && (forall x: nat :: Count(l, n, x) == 0)
    ensures var c' := After(Up(lay, c, s, Stay(Many(EnterAll(l.ls, sl)))));
            Fit(lay, c') && Term(lay, c') == Term(lay, c) && Load(lay, c') < Load(lay, c)
  {
    hide Slots, At, Leaf, Sound, Faithful, Leaves, Load, Up, UpFits, Count, Term;
    ForkTerm(l, sl, s);
    var c' := StayStep(env, lay, c, s, Many(EnterAll(l.ls, sl)), st, st, Choice([], false, 0), true);
    ForkLoad(lay, c, c', s, l, sl);
  }

  lemma {:induction false} ForkedChange<S>(m: Mach<S>, m': Mach<S>, ls: seq<Lay>, sl: seq<nat>, s: nat)
    requires Forked(m, m', ls, sl, s, 0, true)
    ensures |m'.pc| == |m.pc| && m'.store == m.store
    ensures forall t | 0 <= t < |m.pc| && m'.pc[t] != m.pc[t] ::
              exists j | 0 <= j < |ls| :: !ls[j].LNull? && m'.pc[t] == Entry(ls[j])
  {
    hide Pool;
    forall t | 0 <= t < |m.pc| && m'.pc[t] != m.pc[t]
      ensures exists j | 0 <= j < |ls| :: !ls[j].LNull? && m'.pc[t] == Entry(ls[j])
    {
      assert Started(ls, sl, 0, t);
    }
  }

  lemma {:induction false} ForkLoad(lay: Lay, c: Ctl, c': Ctl, s: nat, l: Lay, sl: seq<nat>)
    requires Fit(lay, c) && s in Slots(c) && Leaf(lay, c, s) == (l, Here(s)) && l.LComma? && |sl| == |l.ls|
    requires Fit(l, Many(EnterAll(l.ls, sl))) && UpFits(lay, c, s, Stay(Many(EnterAll(l.ls, sl))))
    requires Up(lay, c, s, Stay(Many(EnterAll(l.ls, sl)))) == Stay(c')
    ensures Load(lay, c') < Load(lay, c)
  {
    hide Slots, SlotsApart, Up, Leaf;
    ForkWeight(l, EnterAll(l.ls, sl), sl, s);
    UpWeight(lay, c, s, Stay(Many(EnterAll(l.ls, sl))));
  }

  lemma {:induction false} ForkBusy(l: Lay)
    requires Sound(l) && l.LComma?
    ensures BusyFrom(l.ls, 0) == Busy(l.ls) > 0
  {
    BusyFromAll(l.ls, 0);
    assert l.ls[..0] == [];
    BusyPositive(l.ls);
  }

  lemma {:induction false} ForkFresh<S>(m: Mach<S>, m': Mach<S>, l: Lay, sl: seq<nat>, s: nat, used: set<nat>)
    requires l.LComma? && Forked(m, m', l.ls, sl, s, 0, true) && BusyFrom(l.ls, 0) > 0
    requires forall t | t in used :: t < |m.pc| && m.pc[t].Some?
    ensures Fresh(l.ls, sl, s, used)
  {
    hide Pool;
  }

  lemma {:induction false} ForkTerm(l: Lay, sl: seq<nat>, s: nat)
    requires Sound(l) && Faithful(l) && l.LComma? && |sl| == |l.ls| && Fit(l, Many(EnterAll(l.ls, sl)))
    ensures Term(l, Many(EnterAll(l.ls, sl))) == Term(l, Here(s))
  {
    var cs := EnterAll(l.ls, sl);
    forall j | 0 <= j < |l.ls| ensures Term(l.ls[j], cs[j]) == Ready(l.cs[j]) {
      if !l.ls[j].LNull? { EnterTerm(l.cs[j], l.ls[j], sl[j]); }
    }
    assert TermAll(l.ls, cs) == ReadyAll(l.cs);
  }

  lemma {:induction false} ForkInv<S>(
      lay: Lay, m: Mach<S>, m': Mach<S>, c: Ctl, c': Ctl, s: nat, l: Lay, n: Ctl, sl: seq<nat>)
    requires Inv(lay, m, c) && s in Slots(c) && l == Leaf(lay, c, s).0 && l.LComma? && Fit(l, n)
    requires Replaced(lay, c, c', s, n) && Leaves(n) == Busy(l.ls) && Busy(l.ls) > 0
    requires Forked(m, m', l.ls, sl, s, 0, true) && BusyFrom(l.ls, 0) == Busy(l.ls)
    requires forall j | 0 <= j < |l.ls| && !l.ls[j].LNull? ::
               sl[j] in Slots(n) && Some(At(l, n, sl[j])) == Entry(l.ls[j])
    requires forall t | t in Slots(n) :: exists j | 0 <= j < |l.ls| :: !l.ls[j].LNull? && t == sl[j]
    ensures Inv(lay, m', c')
  {
    hide Fit, Slots, At, Count, Leaves, Leaf, Pool, Ids, Placed, BusyFrom, Entry, Busy;
    ForkPlaced(lay, m, m', c, c', s, l, n, sl);
  }

  lemma {:induction false} ForkPlaced<S>(
      lay: Lay, m: Mach<S>, m': Mach<S>, c: Ctl, c': Ctl, s: nat, l: Lay, n: Ctl, sl: seq<nat>)
    requires Placed(lay, m, c) && s in Slots(c) && l == Leaf(lay, c, s).0 && l.LComma? && Fit(l, n)
    requires Replaced(lay, c, c', s, n) && Forked(m, m', l.ls, sl, s, 0, true) && BusyFrom(l.ls, 0) > 0
    requires forall j | 0 <= j < |l.ls| && !l.ls[j].LNull? ::
               sl[j] in Slots(n) && Some(At(l, n, sl[j])) == Entry(l.ls[j])
    requires forall t | t in Slots(n) :: exists j | 0 <= j < |l.ls| :: !l.ls[j].LNull? && t == sl[j]
    ensures Placed(lay, m', c')
  {
    hide Fit, Slots, At, Count, Leaves, Leaf, Pool, SameCounts, BusyFrom, Entry;
    forall t | 0 <= t < |m.pc| ensures m'.pc[t] == if t in Slots(c') then Some(At(lay, c', t)) else None {
      if t in Slots(n) {
        assert exists j | 0 <= j < |l.ls| :: !l.ls[j].LNull? && t == sl[j];
      } else {
        assert !Started(l.ls, sl, 0, t);
      }
    }
  }
}
