/**
 What holds in every reachable state of a compiled program: the slot pool, the join counters that several
 joins share, and the passing of a join.
 */
module ChpReach {
  import opened Prelude
  import opened ChpLang
  import opened ChpGraph
  import opened ChpControl
  import opened ChpMove
  import opened ChpTerm
  import opened ChpSim
  import opened ChpRun
  import opened ChpExec
  import opened ChpStep
  import opened ChpTheorems

  // ----- live slots

  function Live<S>(m: Mach<S>): set<nat>
  {
    set s: nat | s < |m.pc| && m.pc[s].Some?
  }

  lemma {:induction false} SlotCount(lay: Lay, c: Ctl)
    requires Fit(lay, c)
    ensures |Slots(c)| == Leaves(c)
    decreases c
  {
    match c
    case In(i, d) => SlotCount(lay.ls[i], d);
    case Many(cs) =>
      forall j | 0 <= j < |cs| ensures |Slots(cs[j])| == Leaves(cs[j]) { SlotCount(lay.ls[j], cs[j]); }
      SlotSum(cs);
    case _ =>
  }

  lemma {:induction false} SlotSum(cs: seq<Ctl>)
    requires SlotsApart(cs) && forall j | 0 <= j < |cs| :: |Slots(cs[j])| == Leaves(cs[j])
    ensures |Slots(Many(cs))| == SumLeaves(cs)
    decreases |cs|
  {
    if cs == [] {
      assert Slots(Many(cs)) == {};
    } else {
      hide Slots;
      var n := |cs| - 1;
      assert forall j | 0 <= j < n :: cs[..n][j] == cs[j];
      SlotSum(cs[..n]);
      SlotsSplit(cs);
    }
  }

  lemma {:induction false} SlotsSplit(cs: seq<Ctl>)
    requires SlotsApart(cs) && cs != []
    ensures var n := |cs| - 1;
            Slots(Many(cs)) == Slots(Many(cs[..n])) + Slots(cs[n]) && Slots(Many(cs[..n])) !! Slots(cs[n])
  {
    var n := |cs| - 1;
    forall s ensures s in Slots(Many(cs)) <==> s in Slots(Many(cs[..n])) || s in Slots(cs[n]) {
      if s in Slots(Many(cs)) {
        var j := Owner(cs, s);
        if j < n { assert s in Slots(cs[..n][j]); }
      }
    }
  }

  /** Slots in use, live program counters and the bound computed from the statement. */
  lemma {:induction false} UsedIsLive<S>(g: seq<Node>, cmd: Cmd, lay: Lay, m: Mach<S>, c: Ctl)
    requires Running(g, cmd, lay, m, c)
    ensures m.used == |Live(m)| <= MaxPc(cmd) && Pool(m)
    ensures Live(m) == {} ==> Term(lay, c) == Skip
  {
    hide Compiled, Pool, SlotsApart, Of;
    RunningFits(g, cmd, lay, m, c);
    assert Live(m) == Slots(c);
    SlotCount(lay, c);
    assert Of(cmd, lay) by { CompiledOf(g, cmd, lay); }
    LeavesBound(cmd, lay, c);
    if Slots(c) == {} { NoSlots(lay, c); }
  }

  lemma CompiledOf(g: seq<Node>, cmd: Cmd, lay: Lay)
    requires Compiled(g, cmd, lay)
    ensures Of(cmd, lay)
  {
  }

  lemma {:induction false} NoSlots(lay: Lay, c: Ctl)
    requires Fit(lay, c) && Slots(c) == {}
    ensures c.Off?
    decreases c
  {
    match c
    case In(i, d) => NoSlots(lay.ls[i], d);
    case Many(cs) =>
      forall j | 0 <= j < |cs| ensures cs[j].Off? {
        assert forall s | s in Slots(cs[j]) :: s in Slots(c);
        NoSlots(lay.ls[j], cs[j]);
      }
      assert AllOff(cs);
    case _ =>
  }

  // ----- join counters

  /** The joins at which some branches have arrived and others have not. */
  ghost function Waiting(lay: Lay, c: Ctl): set<nat>
    requires Fit(lay, c)
    decreases c
  {
    match c
    case In(i, d) => Waiting(lay.ls[i], d)
    case Many(cs) => (if Arrived(lay.ls, cs) > 0 then {lay.join} else {}) + WaitingIn(lay.ls, cs)
    case _ => {}
  }

  ghost function WaitingIn(ls: seq<Lay>, cs: seq<Ctl>): set<nat>
    requires |ls| == |cs| && forall i | 0 <= i < |cs| :: Fit(ls[i], cs[i])
    decreases cs
  {
    set i, j | 0 <= i < |cs| && j in Waiting(ls[i], cs[i]) :: j
  }

  /** A partly counted join: its counter is below its `wait`. */
  lemma {:induction false} WaitingCounter(g: seq<Node>, lay: Lay, c: Ctl, k: Option<nat>, j: nat)
    requires Sound(lay) && Links(g, lay, k) && Fit(lay, c) && j in Waiting(lay, c)
    ensures j < |g| && g[j].totidx in Ids(lay) && 0 < Count(lay, c, g[j].totidx) < g[j].wait
    decreases c
  {
    hide NodesApart, IdsApart, SlotsApart;
    match c
    case In(i, d) =>
      SubNodes(lay.ls, i);
      WaitingCounter(g, lay.ls[i], d, Cont(lay, i, k), j);
    case Many(cs) =>
      if j in WaitingIn(lay.ls, cs) {
        var i :| 0 <= i < |cs| && j in Waiting(lay.ls[i], cs[i]);
        SubNodes(lay.ls, i);
        WaitingCounter(g, lay.ls[i], cs[i], Some(lay.join), j);
        ManyCount(lay, cs, i, g[j].totidx);
      } else {
        NotAllArrived(lay, cs);
      }
    case _ =>
  }

  lemma {:induction false} NotAllArrived(lay: Lay, cs: seq<Ctl>)
    requires Fit(lay, Many(cs))
    ensures Arrived(lay.ls, cs) < Busy(lay.ls)
  {
    ArrivedAll(lay.ls, cs);
    var i :| 0 <= i < |cs| && !cs[i].Off?;
    BusyBranch(lay.ls[i], cs[i]);
  }

  /** Joins that share a counter are never both partly counted. */
  lemma {:induction false} WaitingApart(g: seq<Node>, lay: Lay, c: Ctl, k: Option<nat>, j: nat, j': nat)
    requires Sound(lay) && Links(g, lay, k) && Fit(lay, c) && j in Waiting(lay, c) && j' in Waiting(lay, c)
    requires j < |g| && j' < |g| && g[j].totidx == g[j'].totidx
    ensures j == j'
    decreases c
  {
    hide NodesApart, SlotsApart;
    match c
    case In(i, d) =>
      WaitingApart(g, lay.ls[i], d, Cont(lay, i, k), j, j');
    case Many(cs) =>
      WaitingWhere(g, lay, cs, k, j);
      WaitingWhere(g, lay, cs, k, j');
      if j in WaitingIn(lay.ls, cs) && j' in WaitingIn(lay.ls, cs) {
        var i :| 0 <= i < |cs| && j in Waiting(lay.ls[i], cs[i]);
        var i' :| 0 <= i' < |cs| && j' in Waiting(lay.ls[i'], cs[i']);
        WaitingCounter(g, lay.ls[i], cs[i], Some(lay.join), j);
        WaitingCounter(g, lay.ls[i'], cs[i'], Some(lay.join), j');
        assert Ids(lay.ls[i]) !! Ids(lay.ls[i']) || i == i';
        WaitingApart(g, lay.ls[i], cs[i], Some(lay.join), j, j');
      }
    case _ =>
  }

  lemma {:induction false} WaitingWhere(g: seq<Node>, lay: Lay, cs: seq<Ctl>, k: Option<nat>, j: nat)
    requires Sound(lay) && Links(g, lay, k) && Fit(lay, Many(cs)) && j in Waiting(lay, Many(cs)) && j < |g|
    ensures if j in WaitingIn(lay.ls, cs) then g[j].totidx != lay.tix else j == lay.join && g[j].totidx == lay.tix
  {
    hide NodesApart, SlotsApart, IdsApart;
    if j in WaitingIn(lay.ls, cs) {
      var i :| 0 <= i < |cs| && j in Waiting(lay.ls[i], cs[i]);
      SubNodes(lay.ls, i);
      WaitingCounter(g, lay.ls[i], cs[i], Some(lay.join), j);
    }
  }

  /** A counter that no partly counted join uses is zero. */
  lemma {:induction false} IdleCounter(g: seq<Node>, lay: Lay, c: Ctl, k: Option<nat>, x: nat)
    requires Sound(lay) && Links(g, lay, k) && Fit(lay, c)
    requires forall j | j in Waiting(lay, c) && j < |g| :: g[j].totidx != x
    ensures Count(lay, c, x) == 0
    decreases c
  {
    hide NodesApart, SlotsApart, IdsApart;
    match c
    case In(i, d) =>
      IdleCounter(g, lay.ls[i], d, Cont(lay, i, k), x);
    case Many(cs) =>
      forall i | 0 <= i < |cs| ensures Count(lay.ls[i], cs[i], x) == 0 {
        assert forall j | j in Waiting(lay.ls[i], cs[i]) :: j in WaitingIn(lay.ls, cs);
        IdleCounter(g, lay.ls[i], cs[i], Some(lay.join), x);
      }
      SumCountOnly(lay.ls, cs, x, 0);
      if x == lay.tix { assert lay.join !in Waiting(lay, c); }
    case _ =>
  }

  /**
   The shared join counters in every reachable state: a counter belongs to at most one partly counted join,
   is below what that join waits for, and is zero when there is none.
   */
  lemma {:induction false} JoinCounters<S>(g: seq<Node>, cmd: Cmd, lay: Lay, m: Mach<S>, c: Ctl)
    requires Running(g, cmd, lay, m, c) && Fit(lay, c)
    ensures forall j | j in Waiting(lay, c) ::
              j < |g| && g[j].totidx < |m.tot| && 0 < m.tot[g[j].totidx] < g[j].wait
    ensures forall j, j' | j in Waiting(lay, c) && j' in Waiting(lay, c) ::
              j < |g| && j' < |g| && (g[j].totidx == g[j'].totidx ==> j == j')
    ensures forall x | 0 <= x < |m.tot| && m.tot[x] > 0 ::
              exists j | j in Waiting(lay, c) :: j < |g| && g[j].totidx == x
  {
    hide NodesApart, SlotsApart, IdsApart, Pool, Slots, At, Waiting, Sound, Faithful, Links, ChainsDown, Of;
    RunningFits(g, cmd, lay, m, c);
    forall j | j in Waiting(lay, c) ensures j < |g| && g[j].totidx < |m.tot| && 0 < m.tot[g[j].totidx] < g[j].wait {
      WaitingCounter(g, lay, c, None, j);
    }
    forall j, j' | j in Waiting(lay, c) && j' in Waiting(lay, c) && g[j].totidx == g[j'].totidx ensures j == j' {
      WaitingApart(g, lay, c, None, j, j');
    }
    forall x | 0 <= x < |m.tot| && m.tot[x] > 0 ensures exists j | j in Waiting(lay, c) :: j < |g| && g[j].totidx == x {
      if !exists j | j in Waiting(lay, c) :: j < |g| && g[j].totidx == x { IdleCounter(g, lay, c, None, x); }
    }
  }

  // ----- threads are in different places

  lemma {:induction false} AtIn(lay: Lay, c: Ctl, s: nat)
    requires Fit(lay, c) && s in Slots(c)
    ensures At(lay, c, s) in Nodes(lay) && At(lay, c, s) in Nodes(Leaf(lay, c, s).0)
    ensures Nodes(Leaf(lay, c, s).0) <= Nodes(lay)
    decreases c
  {
    hide SlotsApart;
    match c
    case In(i, d) => AtIn(lay.ls[i], d, s); SubNodes(lay.ls, i);
    case Many(cs) => AtIn(lay.ls[Owner(cs, s)], cs[Owner(cs, s)], s); SubNodes(lay.ls, Owner(cs, s));
    case _ =>
  }

  /** A thread at the first or closing node of a part has that part to itself. */
  lemma {:induction false} Alone2(lay: Lay, c: Ctl, s: nat, t: nat)
    requires Sound(lay) && Fit(lay, c) && s in Slots(c) && t in Slots(c) && s != t
    ensures At(lay, c, t) !in Nodes(Leaf(lay, c, s).0)
    decreases c
  {
    hide SlotsApart, IdsApart;
    match c
    case In(i, d) => Alone2(lay.ls[i], d, s, t);
    case Many(cs) =>
      var i, j := Owner(cs, s), Owner(cs, t);
      if i == j {
        Alone2(lay.ls[i], cs[i], s, t);
      } else {
        AtIn(lay.ls[i], cs[i], s);
        AtIn(lay.ls[j], cs[j], t);
        assert Nodes(lay.ls[i]) !! Nodes(lay.ls[j]);
      }
    case _ =>
  }

  /** No two threads are ever at the same node. */
  lemma {:induction false} DistinctNodes<S>(g: seq<Node>, cmd: Cmd, lay: Lay, m: Mach<S>, c: Ctl, s: nat, t: nat)
    requires Running(g, cmd, lay, m, c) && s in Live(m) && t in Live(m) && s != t
    ensures m.pc[s] != m.pc[t]
  {
    hide NodesApart, SlotsApart, IdsApart, Pool, Sound, Faithful, Links, ChainsDown, Of, Count, Leaves, Slots, At, Leaf;
    RunningFits(g, cmd, lay, m, c);
    AtIn(lay, c, s);
    Alone2(lay, c, s, t);
  }

  // ----- passing a join

  lemma {:induction false} LeafCounter(lay: Lay, c: Ctl, s: nat, x: nat)
    requires Sound(lay) && Fit(lay, c) && s in Slots(c) && x in Ids(Leaf(lay, c, s).0)
    ensures Fit(Leaf(lay, c, s).0, Leaf(lay, c, s).1)
    ensures x in Ids(lay) && Count(lay, c, x) == Count(Leaf(lay, c, s).0, Leaf(lay, c, s).1, x)
    decreases c
  {
    hide NodesApart, SlotsApart, IdsApart;
    match c
    case In(i, d) => LeafCounter(lay.ls[i], d, s, x); SubNodes(lay.ls, i);
    case Many(cs) =>
      var i := Owner(cs, s);
      LeafCounter(lay.ls[i], cs[i], s, x);
      SubNodes(lay.ls, i);
      ManyCount(lay, cs, i, x);
    case _ =>
  }

  /**
   A thread that stands at a join is the only one left in the whole comma: every other branch has finished,
   no other thread is at any of its nodes, and the counter is back at zero.
   */
  lemma {:induction false} AtJoin<S>(g: seq<Node>, cmd: Cmd, lay: Lay, m: Mach<S>, c: Ctl, s: nat) returns (l: Lay)
    requires Running(g, cmd, lay, m, c) && s in Live(m) && m.pc[s].value < |g| && g[m.pc[s].value].wait > 0
    ensures l.LComma? && l.join == m.pc[s].value && Nodes(l) <= Nodes(lay)
    ensures forall t | t in Live(m) && t != s :: m.pc[t].value !in Nodes(l)
    ensures l.tix < |m.tot| && m.tot[l.tix] == 0
  {
    hide NodesApart, SlotsApart, IdsApart, Pool, Faithful, ChainsDown, Of, Leaves, Slots, At, Leaf, Nodes;
    RunningFits(g, cmd, lay, m, c);
    var kl := LeafIs(g, lay, c, s, None);
    l := Leaf(lay, c, s).0;
    var n := Leaf(lay, c, s).1;
    JoinLeaf(g, l, n, kl, s);
    AtIn(lay, c, s);
    forall t | t in Live(m) && t != s ensures m.pc[t].value !in Nodes(l) { Alone2(lay, c, s, t); }
    LeafCounter(lay, c, s, l.tix);
  }

  lemma {:induction false} JoinLeaf(g: seq<Node>, l: Lay, n: Ctl, kl: Option<nat>, s: nat)
    requires Links(g, l, kl) && Fit(l, n) && (n == Here(s) || n == Fin(s)) && At(l, n, s) < |g|
    requires g[At(l, n, s)].wait > 0
    ensures l.LComma? && n == Fin(s) && l.join == At(l, n, s) && l.tix in Ids(l) && Count(l, n, l.tix) == 0
  {
  }

  /** What an arrival at join j does: below the last it counts and gives up the slot, the last one goes through. */
  ghost predicate Arrives<S>(g: seq<Node>, m: Mach<S>, m': Mach<S>, s: nat, j: nat)
    requires s < |m.pc| == |m'.pc| && j < |g|
  {
    var x := g[j].totidx;
    && x < |m.tot| && m.tot[x] < g[j].wait
    && if m.tot[x] + 1 < g[j].wait then m'.pc[s].None? && m'.tot == m.tot[x := m.tot[x] + 1] && m'.used == m.used - 1
       else m'.pc[s] == Some(j) && m'.tot == m.tot[x := 0] && m'.used == m.used
  }

  lemma {:induction false} ArrivalEffect<S>(g: seq<Node>, m: Mach<S>, s: nat, j: nat)
    requires s < |m.pc| && m.pc[s].Some? && m.pc[s].value < |g| && j < |g|
    requires g[m.pc[s].value].next == Some(j) && g[j].wait > 0
    requires !(g[m.pc[s].value].stmt.Some? && g[m.pc[s].value].stmt.value.SCond?)
    requires UpdatePc(g, m, s).Some? && g[j].totidx < |m.tot| && m.tot[g[j].totidx] < g[j].wait
    ensures |UpdatePc(g, m, s).value.pc| == |m.pc| && Arrives(g, m, UpdatePc(g, m, s).value, s, j)
  {
  }

  /**
   One arrival at a join. Below the last it only counts and gives up its slot; the last one goes through,
   alone, and the counter is zero again.
   */
  lemma {:induction false} Arrival<S>(g: seq<Node>, cmd: Cmd, lay: Lay, m: Mach<S>, c: Ctl, s: nat, j: nat)
    returns (c': Ctl, l: Lay)
    requires Running(g, cmd, lay, m, c) && s in Live(m) && m.pc[s].value < |g|
    requires g[m.pc[s].value].next == Some(j) && j < |g| && g[j].wait > 0
    requires g[m.pc[s].value].stmt.None? || !g[m.pc[s].value].stmt.value.SFork?
    ensures UpdatePc(g, m, s).Some? && Running(g, cmd, lay, UpdatePc(g, m, s).value, c')
    ensures Arrives(g, m, UpdatePc(g, m, s).value, s, j)
    ensures var m' := UpdatePc(g, m, s).value;
            m'.pc[s] == Some(j) ==>
              && l.LComma? && l.join == j && Nodes(l) <= Nodes(lay)
              && forall t | t in Live(m') && t != s :: m'.pc[t].value !in Nodes(l)
  {
    hide Running, Arrives, UpdatePc, Nodes, Fit, Slots;
    l := LNull;
    c' := ArrivalTree(g, cmd, lay, m, c, s, j);
    ArrivalEffect(g, m, s, j);
    if UpdatePc(g, m, s).value.pc[s] == Some(j) { l := AtJoin(g, cmd, lay, UpdatePc(g, m, s).value, c', s); }
  }

  /** The control tree after an arrival. */
  lemma {:induction false} ArrivalTree<S>(g: seq<Node>, cmd: Cmd, lay: Lay, m: Mach<S>, c: Ctl, s: nat,
      j: nat) returns (c': Ctl)
    requires Running(g, cmd, lay, m, c) && s in Live(m) && m.pc[s].value < |g|
    requires g[m.pc[s].value].next == Some(j) && j < |g| && g[j].wait > 0
    requires g[m.pc[s].value].stmt.None? || !g[m.pc[s].value].stmt.value.SFork?
    ensures UpdatePc(g, m, s).Some? && Running(g, cmd, lay, UpdatePc(g, m, s).value, c')
    ensures g[j].totidx < |m.tot| && m.tot[g[j].totidx] < g[j].wait
    ensures !(g[m.pc[s].value].stmt.Some? && g[m.pc[s].value].stmt.value.SCond?)
  {
    hide NodesApart, SlotsApart, IdsApart, Pool, Faithful, ChainsDown, Of, Leaves, Slots, At, Leaf, Nodes, Links,
         Sound, Ids, Count, Fit, Left, Up, UpdatePc, Moved;
    RunningFits(g, cmd, lay, m, c);
    ArrivalLeaves(g, lay, c, s, j);
    UpExit(g, lay, c, s, None);
    ArrivalMoves(g, lay, c, s, j);
    c' := Up(lay, c, s, Exit).c;
    InvMoved(g, lay, m, c, c', s);
    UpdatePcShape(g, m, s);
    ArrivalBound(g, lay, m, c, c', s, j);
  }

  lemma {:induction false} ArrivalBound<S>(g: seq<Node>, lay: Lay, m: Mach<S>, c: Ctl, c': Ctl, s: nat, j: nat)
    requires Inv(lay, m, c) && s in Slots(c) && j < |g| && g[j].wait > 0 && Moved(g, lay, c, c', s, j)
    ensures g[j].totidx < |m.tot| && m.tot[g[j].totidx] < g[j].wait
  {
    hide Fit, Slots, At, Count, Leaves, Pool, Ids, Relocated, Released;
  }

  lemma {:induction false} ArrivalLeaves(g: seq<Node>, lay: Lay, c: Ctl, s: nat, j: nat)
    requires Sound(lay) && Faithful(lay) && Links(g, lay, None) && Fit(lay, c) && s in Slots(c) && At(lay, c, s) < |g|
    requires g[At(lay, c, s)].next == Some(j) && j < |g| && g[j].wait > 0
    requires g[At(lay, c, s)].stmt.None? || !g[At(lay, c, s)].stmt.value.SFork?
    ensures Leaving(Leaf(lay, c, s)) && !(g[At(lay, c, s)].stmt.Some? && g[At(lay, c, s)].stmt.value.SCond?)
  {
    hide NodesApart, SlotsApart, IdsApart, Slots, At, Leaf;
    var kl := LeafIs(g, lay, c, s, None);
    var l, n := Leaf(lay, c, s).0, Leaf(lay, c, s).1;
    LeafNode(g, l, n, kl, s);
  }

  lemma {:induction false} LeafNode(g: seq<Node>, l: Lay, n: Ctl, kl: Option<nat>, s: nat)
    requires Links(g, l, kl) && Fit(l, n) && (n == Here(s) || n == Fin(s)) && At(l, n, s) < |g|
    ensures n == Here(s) && l.LBranch? ==> g[At(l, n, s)].next == Some(l.stop) && l.stop < |g| && g[l.stop].wait == 0
    ensures n == Here(s) && l.LComma? ==> g[At(l, n, s)].stmt.Some? && g[At(l, n, s)].stmt.value.SFork?
    ensures Leaving((l, n)) ==> !(g[At(l, n, s)].stmt.Some? && g[At(l, n, s)].stmt.value.SCond?)
  {
  }

  lemma {:induction false} ArrivalMoves(g: seq<Node>, lay: Lay, c: Ctl, s: nat, j: nat)
    requires Fit(lay, c) && s in Slots(c) && Left(g, lay, c, s, Up(lay, c, s, Exit), None)
    requires At(lay, c, s) < |g| && g[At(lay, c, s)].next == Some(j)
    ensures Up(lay, c, s, Exit).Stay? && Moved(g, lay, c, Up(lay, c, s, Exit).c, s, j)
  {
    hide Moved, Alone, Slots, At, Up;
  }
}
