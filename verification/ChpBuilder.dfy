/**
 The recursive graph builder. It appends nodes, sets their `next` fields as statements are joined up, and
 hands out join counters: statements in sequence and alternatives start again from the same counter,
 branches of a comma do not.
 */
module ChpBuilder {
  import opened Prelude
  import opened ChpLang
  import opened ChpGraph

  // ----- lists of statements under construction

  /** Statements built one after another, on nodes lo up to hi. */
  ghost predicate Parts(cs: seq<Cmd>, ls: seq<Lay>, lo: nat, hi: nat)
  {
    && |ls| == |cs| && lo <= hi
    && (forall i | 0 <= i < |ls| :: Of(cs[i], ls[i]) && Lean(cs[i], ls[i]) && Sound(ls[i]))
    && IsRange(NodesOf(ls), lo, hi) && NodesApart(ls)
  }

  /** One more statement, just built on the nodes from g0 to g. */
  ghost predicate OneMore(g0: seq<Node>, g: seq<Node>, c: Cmd, l: Lay, entry: Option<nat>, stop: nat)
  {
    && g0 <= g && Of(c, l) && Lean(c, l) && Sound(l) && Links(g, l, None) && IsRange(Nodes(l), |g0|, |g|)
    && entry == Entry(l) && (entry.None? <==> l.LNull?)
    && (entry.Some? ==> stop == Stop(l) && stop < |g|)
  }

  lemma {:induction false} BuiltOneMore(
      g0: seq<Node>, g: seq<Node>, cur0: nat, cur: nat, c: Cmd, ret: Option<nat>, stop: nat, lay: Lay)
    requires Built(g0, g, cur0, cur, c, ret, stop, lay)
    ensures OneMore(g0, g, c, lay, ret, stop) && IdsIn(Ids(lay), cur0, cur) && cur0 <= cur && g0 <= g
    ensures ret.Some? ==> stop < |g|
    ensures ret == Entry(lay) && (ret.None? <==> lay.LNull?)
  {
  }

  predicate IdsIn(ids: set<nat>, lo: nat, hi: nat)
  {
    forall x | x in ids :: lo <= x < hi
  }

  lemma {:induction false} NodesAppend(ls: seq<Lay>, l: Lay)
    ensures NodesOf(ls + [l]) == NodesOf(ls) + Nodes(l)
  {
    var ls' := ls + [l];
    assert ls'[|ls|] == l && forall i | 0 <= i < |ls| :: ls'[i] == ls[i];
    forall x | x in NodesOf(ls) ensures x in NodesOf(ls') {
      var i :| 0 <= i < |ls| && x in Nodes(ls[i]);
      SubNodes(ls', i);
    }
  }

  lemma {:induction false} IdsAppend(ls: seq<Lay>, l: Lay)
    ensures IdsOf(ls + [l]) == IdsOf(ls) + Ids(l)
  {
    var ls' := ls + [l];
    assert ls'[|ls|] == l && forall i | 0 <= i < |ls| :: ls'[i] == ls[i];
    forall x | x in IdsOf(ls) ensures x in IdsOf(ls') {
      var i :| 0 <= i < |ls| && x in Ids(ls[i]);
      SubNodes(ls', i);
    }
  }

  lemma {:induction false} PartsAppend(cs: seq<Cmd>, ls: seq<Lay>, lo: nat, mid: nat, hi: nat, c: Cmd, l: Lay)
    requires Parts(cs, ls, lo, mid) && mid <= hi
    requires Of(c, l) && Lean(c, l) && Sound(l) && IsRange(Nodes(l), mid, hi)
    ensures Parts(cs + [c], ls + [l], lo, hi)
  {
    hide Of, Lean, Sound, Nodes, NodesOf;
    NodesAppend(ls, l);
    forall i, j | 0 <= i < j < |ls| + 1 ensures Nodes((ls + [l])[i]) !! Nodes((ls + [l])[j]) {
      SubNodes(ls, i);
    }
  }

  lemma {:induction false} IdsApartAppend(ls: seq<Lay>, l: Lay, lo: nat, mid: nat, hi: nat)
    requires IdsApart(ls) && IdsIn(IdsOf(ls), lo, mid) && IdsIn(Ids(l), mid, hi)
    ensures IdsApart(ls + [l])
  {
    forall i, j | 0 <= i < j < |ls| + 1 ensures Ids((ls + [l])[i]) !! Ids((ls + [l])[j]) {
      SubNodes(ls, i);
    }
  }

  // ----- statements in sequence

  ghost predicate SemiSoFar(g: seq<Node>, cs: seq<Cmd>, ls: seq<Lay>, lo: nat, ret: Option<nat>, stop: nat)
  {
    && Parts(cs, ls, lo, |g|) && Chain(g, ls, None)
    && ret == FirstEntry(ls, 0, None) && (ret.Some? <==> HasNodes(ls))
    && (ret.Some? ==> stop == LastStop(ls, |ls|) && lo <= stop < |g|)
  }

  lemma {:induction false} ChainFrame(g: seq<Node>, g': seq<Node>, ls: seq<Lay>, k: Option<nat>)
    requires Chain(g, ls, k) && |g| <= |g'|
    requires forall n | n in NodesOf(ls) && n < |g| :: g'[n] == g[n]
    ensures Chain(g', ls, k)
  {
    forall i | 0 <= i < |ls| ensures Links(g', ls[i], FirstEntry(ls, i + 1, k)) {
      SubNodes(ls, i);
      Frame(g, g', ls[i], FirstEntry(ls, i + 1, k));
    }
  }

  lemma {:induction false} ChainAppend(g: seq<Node>, ls: seq<Lay>, l: Lay)
    requires Links(g, l, None)
    requires Chain(g, ls, if l.LNull? then None else Entry(l))
    ensures Chain(g, ls + [l], None)
  {
    forall i | 0 <= i < |ls + [l]| ensures Links(g, (ls + [l])[i], FirstEntry(ls + [l], i + 1, None)) {
      ChainAppendAt(g, ls, l, i);
    }
  }

  lemma {:induction false} ChainAppendAt(g: seq<Node>, ls: seq<Lay>, l: Lay, i: nat)
    requires Links(g, l, None) && i <= |ls|
    requires Chain(g, ls, if l.LNull? then None else Entry(l))
    ensures Links(g, (ls + [l])[i], FirstEntry(ls + [l], i + 1, None))
  {
    if i < |ls| { FirstEntryAppend(ls, l, i + 1, None); }
  }

  /** The last stop of a list is one of its own nodes. */
  lemma {:induction false} LastStopIn(ls: seq<Lay>)
    requires HasNodes(ls) && forall i | 0 <= i < |ls| :: Sound(ls[i])
    ensures LastStop(ls, |ls|) in NodesOf(ls)
  {
    var m := LastStopFound(ls, |ls|);
    EntryStop(ls[m]);
    SubNodes(ls, m);
  }

  /** Building one more statement and linking the previous stop to it. */
  lemma {:induction false} SemiStep(
      g0: seq<Node>, g: seq<Node>, cs: seq<Cmd>, ls: seq<Lay>, lo: nat, ret: Option<nat>, stop: nat,
      c: Cmd, l: Lay, entry: Option<nat>, stop': nat)
    requires SemiSoFar(g0, cs, ls, lo, ret, stop) && OneMore(g0, g, c, l, entry, stop')
    ensures SemiSoFar(if entry.Some? && ret.Some? then SetNext(g, stop, entry) else g, cs + [c], ls + [l], lo,
                      if ret.None? then entry else ret, if entry.Some? then stop' else stop)
  {
    hide Links, Sound, Of, Nodes, NodesOf, Chain, FirstEntry, Entry, NodesApart;
    var g' := if entry.Some? && ret.Some? then SetNext(g, stop, entry) else g;
    ChainFrame(g0, g, ls, None);
    if entry.Some? && ret.Some? {
      RetargetChain(g, ls, None, entry);
      LastStopIn(ls);
      Frame(g, g', l, None);
    } else if entry.Some? {
      EmptyChain(g, ls, entry);
    }
    ChainAppend(g', ls, l);
    FirstEntryAppend(ls, l, 0, None);
    PartsAppend(cs, ls, lo, |g0|, |g|, c, l);
    LastStopAppend(ls, l, |ls|);
    HasNodesAppend(ls, l);
    if entry.Some? {
      if ret.None? {
        FirstEntryNone(ls, 0, entry);
      } else {
        var m :| 0 <= m < |ls| && !ls[m].LNull?;
        FirstEntryCont(ls, 0, m, None, entry);
      }
      EntryStop(l);
    }
  }

  lemma HasNodesAppend(ls: seq<Lay>, l: Lay)
    ensures HasNodes(ls + [l]) <==> HasNodes(ls) || !l.LNull?
  {
    var ls' := ls + [l];
    if HasNodes(ls) {
      var m :| 0 <= m < |ls| && !ls[m].LNull?;
      assert !ls'[m].LNull?;
    }
    if !l.LNull? { assert !ls'[|ls|].LNull?; }
  }

  lemma {:induction false} EmptyChain(g: seq<Node>, ls: seq<Lay>, k: Option<nat>)
    requires !HasNodes(ls)
    ensures Chain(g, ls, k)
  {
  }

  // ----- statements that all go on to the same node

  predicate AllTo(g: seq<Node>, ls: seq<Lay>, k: Option<nat>)
  {
    forall i | 0 <= i < |ls| :: Links(g, ls[i], k)
  }

  lemma {:induction false} AllToFrame(g: seq<Node>, g': seq<Node>, ls: seq<Lay>, k: Option<nat>)
    requires AllTo(g, ls, k) && |g| <= |g'|
    requires forall n | n in NodesOf(ls) && n < |g| :: g'[n] == g[n]
    ensures AllTo(g', ls, k)
  {
    forall i | 0 <= i < |ls| ensures Links(g', ls[i], k) {
      SubNodes(ls, i);
      Frame(g, g', ls[i], k);
    }
  }

  ghost predicate FanSoFar(g: seq<Node>, cs: seq<Cmd>, ls: seq<Lay>, lo: nat, back: nat)
  {
    Parts(cs, ls, lo, |g|) && AllTo(g, ls, Some(back))
  }

  /** Building one more alternative or branch and linking its stop to the common node. */
  lemma {:induction false} FanStep(
      g0: seq<Node>, g: seq<Node>, cs: seq<Cmd>, ls: seq<Lay>, lo: nat, back: nat,
      c: Cmd, l: Lay, entry: Option<nat>, stop: nat)
    requires FanSoFar(g0, cs, ls, lo, back) && OneMore(g0, g, c, l, entry, stop)
    ensures FanSoFar(if entry.Some? then SetNext(g, stop, Some(back)) else g, cs + [c], ls + [l], lo, back)
    ensures entry.Some? ==> |g0| <= stop < |g|
  {
    var g' := if entry.Some? then SetNext(g, stop, Some(back)) else g;
    if entry.Some? {
      EntryStop(l);
      Retarget(g, l, None, Some(back));
    }
    AllToFrame(g0, g', ls, Some(back));
    PartsAppend(cs, ls, lo, |g0|, |g|, c, l);
  }

  lemma {:induction false} TargetsAppend(ls: seq<Lay>, l: Lay, back: nat, entry: Option<nat>)
    requires entry == Entry(l) && (entry.None? <==> l.LNull?)
    ensures Targets(ls + [l], back) == Targets(ls, back) + [if entry.Some? then entry else Some(back)]
  {
    hide Entry;
  }

  lemma {:induction false} IdsMore(ls: seq<Lay>, l: Lay, lo: nat, a: nat, b: nat)
    requires IdsIn(IdsOf(ls), lo, a) && IdsIn(Ids(l), lo, b)
    ensures IdsIn(IdsOf(ls + [l]), lo, Max(a, b))
  {
    hide IdsOf, Ids;
    IdsAppend(ls, l);
  }

  lemma EntriesAppend(ls: seq<Lay>, l: Lay)
    ensures Entries(ls + [l]) == Entries(ls) + [Entry(l)]
  {
    hide Entry;
  }

  lemma {:induction false} IdsOnward(ls: seq<Lay>, l: Lay, lo: nat, mid: nat, hi: nat)
    requires IdsIn(IdsOf(ls), lo, mid) && IdsIn(Ids(l), mid, hi) && lo <= mid <= hi
    ensures IdsIn(IdsOf(ls + [l]), lo, hi)
  {
    hide IdsOf, Ids;
    IdsAppend(ls, l);
  }

  lemma IdsNone(lo: nat)
    ensures IdsIn(IdsOf([]), lo, lo)
  {
  }

  // ----- finished statements

  lemma SemiStart(g: seq<Node>)
    ensures SemiSoFar(g, [], [], |g|, None, 0) && IdsOf([]) == {}
  {
  }

  lemma {:induction false} SemiDone(g0: seq<Node>, g: seq<Node>, cur0: nat, cur: nat, cs: seq<Cmd>, ls: seq<Lay>,
      ret: Option<nat>, stop: nat)
    requires |cs| != 1 && g0 <= g && SemiSoFar(g, cs, ls, |g0|, ret, stop)
    requires cur0 <= cur && IdsIn(IdsOf(ls), cur0, cur)
    ensures Built(g0, g, cur0, cur, Semi(cs), ret, stop, if ret.Some? then LSemi(cs, ls) else LNull)
  {
    hide Links, Of, Lean, Sound, Nodes, NodesOf, IsRange, Ids, IdsOf, Entry, Stop, Chain, HasNodes, FirstEntry,
         LastStop, NodesApart;
    if ret.None? {
      EmptyList(cs, ls, |g0|, |g|);
      NothingBuilt(g, cur0, cur, Semi(cs));
    } else {
      SemiLaid(cs, ls, |g0|, |g|);
      SemiOne(g, cs, ls);
    }
  }

  lemma {:induction false} SemiLaid(cs: seq<Cmd>, ls: seq<Lay>, lo: nat, hi: nat)
    requires |cs| != 1 && Parts(cs, ls, lo, hi) && HasNodes(ls)
    ensures Of(Semi(cs), LSemi(cs, ls)) && Lean(Semi(cs), LSemi(cs, ls)) && Sound(LSemi(cs, ls))
    ensures IsRange(Nodes(LSemi(cs, ls)), lo, hi)
  {
    hide NodesOf, IsRange, NodesApart, HasNodes;
  }

  lemma SemiOne(g: seq<Node>, cs: seq<Cmd>, ls: seq<Lay>)
    requires Chain(g, ls, None)
    ensures Links(g, LSemi(cs, ls), None) && Entry(LSemi(cs, ls)) == FirstEntry(ls, 0, None)
    ensures Stop(LSemi(cs, ls)) == LastStop(ls, |ls|) && Ids(LSemi(cs, ls)) == IdsOf(ls)
  {
    hide Chain, FirstEntry, LastStop, IdsOf;
  }

  lemma {:induction false} EmptyList(cs: seq<Cmd>, ls: seq<Lay>, lo: nat, hi: nat)
    requires !HasNodes(ls) && Parts(cs, ls, lo, hi)
    ensures Ready(Semi(cs)).Skip? && Ready(Comma(cs)).Skip? && lo == hi
  {
    EmptySemi(cs, ls);
    assert forall i | 0 <= i < |cs| :: ls[i].LNull?;
    assert lo !in NodesOf(ls);
  }

  lemma {:induction false} EmptyFan(g: seq<Node>, cs: seq<Cmd>, ls: seq<Lay>, lo: nat, back: nat)
    requires !HasNodes(ls) && FanSoFar(g, cs, ls, lo, back)
    ensures Ready(Comma(cs)).Skip? && lo == |g|
  {
    EmptyList(cs, ls, lo, |g|);
  }

  lemma EmptySemi(cs: seq<Cmd>, ls: seq<Lay>)
    requires |cs| == |ls| && !HasNodes(ls) && forall i | 0 <= i < |cs| :: Of(cs[i], ls[i])
    ensures ReadySeq(cs).Skip?
  {
    if cs != [] {
      assert ls[0].LNull?;
      EmptySemi(cs[1..], ls[1..]);
    }
  }

  lemma NothingBuilt(g: seq<Node>, cur0: nat, cur: nat, c: Cmd)
    requires Ready(c).Skip? && cur0 <= cur
    ensures Built(g, g, cur0, cur, c, None, 0, LNull)
  {
  }

  lemma FanStart(g: seq<Node>, back: nat)
    ensures FanSoFar(g, [], [], |g|, back) && IdsOf([]) == {} && IdsApart([]) && Busy([]) == 0
    ensures Entries([]) == [] && Targets([], back) == []
  {
  }

  /** The last writes of a comma: fork and join. */
  lemma {:induction false} CommaDone(
      g0: seq<Node>, g1: seq<Node>, g: seq<Node>, cur0: nat, cur: nat, cs: seq<Cmd>, ls: seq<Lay>, fork: nat, join: nat)
    requires |cs| != 1 && fork == |g0| && join == |g0| + 1
    requires g0 + [Node(None, None, [], 0, 0), Node(None, None, [], 0, 0)] <= g1
    requires FanSoFar(g1, cs, ls, |g0| + 2, join) && HasNodes(ls) && IdsApart(ls)
    requires cur0 < cur && IdsIn(IdsOf(ls), cur0 + 1, cur)
    requires g == g1[fork := Node(Some(SFork(|cs|)), Some(join), Entries(ls), 0, 0)][join := Node(None, None, [],
             Busy(ls), cur0)]
    ensures Built(g0, g, cur0, cur, Comma(cs), Some(fork), join, LComma(fork, join, cur0, cs, ls))
  {
    hide Sound, IsRange, IdsOf, NodesOf, FirstEntry, Chain, ReadySeq, HasNodes;
    AllToFrame(g1, g, ls, Some(join)) by { CommaApart(cs, ls, |g0|, |g|, cur0, cur); }
    CommaSound(cs, ls, |g0|, |g|, cur0, cur);
  }

  lemma {:induction false} CommaApart(cs: seq<Cmd>, ls: seq<Lay>, lo: nat, hi: nat, cur0: nat, cur: nat)
    requires Parts(cs, ls, lo + 2, hi)
    ensures lo !in NodesOf(ls) && lo + 1 !in NodesOf(ls)
  {
  }

  lemma {:induction false} CommaSound(cs: seq<Cmd>, ls: seq<Lay>, lo: nat, hi: nat, cur0: nat, cur: nat)
    requires |cs| != 1 && Parts(cs, ls, lo + 2, hi) && HasNodes(ls) && IdsApart(ls)
    requires cur0 < cur && IdsIn(IdsOf(ls), cur0 + 1, cur)
    ensures Sound(LComma(lo, lo + 1, cur0, cs, ls)) && IsRange(Nodes(LComma(lo, lo + 1, cur0, cs, ls)), lo, hi)
  {
  }

  /** The last write of a selection or loop: where its alternatives start. */
  lemma {:induction false} BranchDone(
      g0: seq<Node>, g1: seq<Node>, g: seq<Node>, cur0: nat, cur: nat, c: Cmd, isLoop: bool, arb: bool,
      guards: seq<Option<nat>>, bs: seq<Cmd>, ls: seq<Lay>, n: nat, stop: nat)
    requires c == if isLoop then Loop(guards, bs) else Select(arb, guards, bs)
    requires n == |g0| && stop == |g0| + 1 && (isLoop ==> !arb) && |guards| == |bs|
    requires g0 + [Node(Some(if isLoop then SLoop(guards) else SCond(arb, guards)), Some(stop), [], 0, 0),
                   Node(None, None, [], 0, 0)] <= g1
    requires FanSoFar(g1, bs, ls, |g0| + 2, if isLoop then n else stop)
    requires cur0 <= cur && IdsIn(IdsOf(ls), cur0, cur)
    requires g == g1[n := g1[n].(all := Targets(ls, if isLoop then n else stop))]
    ensures Built(g0, g, cur0, cur, c, Some(n), stop, LBranch(n, stop, isLoop, arb, guards, bs, ls))
  {
    AllToFrame(g1, g, ls, Some(if isLoop then n else stop));
  }

  class Builder {
    var nodes: seq<Node>
    var cur: nat                 // next free join counter
    var max: nat                 // join counters needed so far

    ghost predicate Valid()
      reads this
    {
      ChainsDown(nodes) && cur <= max
    }

    constructor ()
      ensures Valid() && nodes == [] && cur == 0 && max == 0
    {
      nodes, cur, max := [], 0, 0;
    }

    method NewNode(stmt: Option<Stmt>) returns (n: nat)
      requires Valid()
      modifies this`nodes
      ensures Valid() && n == |old(nodes)|
      ensures nodes == old(nodes) + [Node(stmt, None, [], 0, 0)]
    {
      n := |nodes|;
      nodes := nodes + [Node(stmt, None, [], 0, 0)];
    }

    /** A node with a statement, and the closing node it goes on to. */
    method NewPair(stmt: Stmt) returns (n: nat, stop: nat)
      requires Valid()
      modifies this`nodes
      ensures Valid() && n == |old(nodes)| && stop == |old(nodes)| + 1
      ensures nodes == old(nodes) + [Node(Some(stmt), Some(stop), [], 0, 0), Node(None, None, [], 0, 0)]
    {
      hide ChainsDown;
      n := NewNode(Some(stmt));
      stop := NewNode(None);
      Link(n, stop);
    }

    /** `n->next = k` */
    method Link(n: nat, k: nat)
      requires Valid() && n < |nodes| && k < |nodes|
      requires nodes[n].stmt.Some? || nodes[k].stmt.Some? || k < n
      modifies this`nodes
      ensures Valid() && nodes == SetNext(old(nodes), n, Some(k))
    {
      nodes := nodes[n := nodes[n].(next := Some(k))];
    }

    /** The final writes to the nodes of a comma. */
    method FinishComma(fork: nat, join: nat, all: seq<Option<nat>>, count: nat, totidx: nat)
      requires Valid() && fork < |nodes| && join < |nodes| && fork != join
      modifies this`nodes
      ensures Valid()
      ensures nodes == old(nodes)[fork := Node(Some(SFork(|all|)), Some(join), all, 0, 0)]
                                 [join := old(nodes[join]).(wait := count, totidx := totidx)]
    {
      nodes := nodes[fork := Node(Some(SFork(|all|)), Some(join), all, 0, 0)];
      nodes := nodes[join := nodes[join].(wait := count, totidx := totidx)];
    }

    /** Drops the two nodes of a comma that has nothing to run. */
    method DropTwo()
      requires Valid() && |nodes| >= 2
      requires ChainsDown(nodes[..|nodes| - 2])
      modifies this`nodes
      ensures Valid() && nodes == old(nodes)[..|old(nodes)| - 2]
    {
      nodes := nodes[..|nodes| - 2];
    }

    method SetAll(n: nat, all: seq<Option<nat>>)
      requires Valid() && n < |nodes|
      modifies this`nodes
      ensures Valid() && nodes == old(nodes)[n := old(nodes[n]).(all := all)]
    {
      nodes := nodes[n := nodes[n].(all := all)];
    }

    /** A program with nothing to run, and no other, gets no nodes. */
    method BuildProgram(c: Cmd) returns (ret: Option<nat>, stop: nat, ghost lay: Lay)
      requires Valid() && WellFormed(c)
      modifies this
      ensures Valid() && cur == old(cur) + Counters(c) && max == Max(old(max), cur)
      ensures Built(old(nodes), nodes, old(cur), cur, c, ret, stop, lay)
      ensures ret.None? <==> Idle(c)
    {
      ret, stop, lay := Build(c);
      NullIsIdle(c, lay);
    }

    method Build(c: Cmd) returns (ret: Option<nat>, stop: nat, ghost lay: Lay)
      requires Valid() && WellFormed(c)
      modifies this
      ensures Valid() && cur == old(cur) + Counters(c) && max == Max(old(max), cur)
      ensures Built(old(nodes), nodes, old(cur), cur, c, ret, stop, lay)
      decreases c, 0
    {
      hide Built, Counters;
      CountersSmall(c);
      match c
      case Skip =>
        ret, stop, lay := None, 0, LNull;
        NothingBuilt(nodes, cur, cur, c);
      case Act(a) =>
        stop := NewNode(Some(SAct(a)));
        ret, lay := Some(stop), LAct(stop, a);
        ActBuilt(old(nodes), cur, a);
      case Semi(cs) =>
        if |cs| == 1 {
          ret, stop, lay := Build(cs[0]);
          SingleBuilt(old(nodes), nodes, old(cur), cur, c, cs[0], ret, stop, lay);
        } else {
          ret, stop, lay := BuildSemi(c, cs);
        }
      case Comma(cs) =>
        if |cs| == 1 {
          ret, stop, lay := Build(cs[0]);
          SingleBuilt(old(nodes), nodes, old(cur), cur, c, cs[0], ret, stop, lay);
        } else {
          ret, stop, lay := BuildComma(c, cs);
        }
      case Select(arb, gs, bs) =>
        ret, stop, lay := BuildBranch(c, false, arb, gs, bs);
      case Loop(gs, bs) =>
        ret, stop, lay := BuildBranch(c, true, false, gs, bs);
      case DoLoop(g, body) =>
        ret, stop, lay := BuildDoLoop(c, g, body);
    }

    method BuildSemi(c: Cmd, cs: seq<Cmd>) returns (ret: Option<nat>, stop: nat, ghost lay: Lay)
      requires Valid() && WellFormed(c) && c == Semi(cs) && |cs| != 1
      modifies this
      ensures Valid() && cur == old(cur) + Counters(c) && max == Max(old(max), cur)
      ensures Built(old(nodes), nodes, old(cur), cur, c, ret, stop, lay)
      decreases cs
    {
      hide Links, Sound, Of, Chain, Nodes, NodesOf, Ids, IdsOf, AllTo, Entry, FirstEntry, Stop, LastStop, HasNodes,
           Parts, NodesApart, Ready, ChainsDown, Built, OneMore, FanSoFar, IdsApart, Busy, SumCounters, MostCounters;
      var count := cur;
      var usedSlots := cur;
      ret, stop := None, 0;
      ghost var ls: seq<Lay> := [];
      SemiStart(nodes);
      CountersNone(cs);
      for i := 0 to |cs|
        invariant Valid() && old(nodes) <= nodes
        invariant |ls| == i && SemiSoFar(nodes, cs[..i], ls, |old(nodes)|, ret, stop)
        invariant usedSlots == count + MostCounters(cs[..i]) && max == Max(old(max), usedSlots)
        invariant IdsIn(IdsOf(ls), count, usedSlots)
      {
        CountersMore(cs, i);
        cur := count;
        ghost var g0 := nodes;
        ghost var cur0 := cur;
        var tmp, tmp2, l := Build(cs[i]);
        BuiltOneMore(g0, nodes, cur0, cur, cs[i], tmp, tmp2, l);
        SemiStep(g0, nodes, cs[..i], ls, |old(nodes)|, ret, stop, cs[i], l, tmp, tmp2);
        if tmp.Some? {
          EntryStmt(nodes, l, None);
          if ret.None? {
            ret := tmp;
          } else {
            Link(stop, tmp.value);
          }
          stop := tmp2;
        }
        usedSlots := Max(usedSlots, cur);
        IdsAppend(ls, l);
        assert cs[..i] + [cs[i]] == cs[..i + 1];
        ls := ls + [l];
      }
      cur := usedSlots;
      assert cs[..|cs|] == cs;
      SemiDone(old(nodes), nodes, count, cur, cs, ls, ret, stop);
      lay := if ret.Some? then LSemi(cs, ls) else LNull;
    }

    /** One branch or alternative, which goes on to the node `back` when it has any nodes. */
    method BuildTo(c: Cmd, back: nat, ghost cs: seq<Cmd>, ghost ls: seq<Lay>, ghost lo: nat)
      returns (entry: Option<nat>, ghost l: Lay)
      requires Valid() && WellFormed(c) && back < lo <= |nodes| && FanSoFar(nodes, cs, ls, lo, back)
      modifies this
      ensures Valid() && cur == old(cur) + Counters(c) && max == Max(old(max), cur)
      ensures FanSoFar(nodes, cs + [c], ls + [l], lo, back) && nodes[..lo] == old(nodes[..lo]) && lo <= |nodes|
      ensures entry == Entry(l) && (entry.None? <==> l.LNull?) && IdsIn(Ids(l), old(cur), cur)
      decreases c, 1
    {
      hide Built, OneMore, FanSoFar, Links, Sound, Of, Nodes, Ids, Entry, ChainsDown;
      var stop;
      entry, stop, l := Build(c);
      BuiltOneMore(old(nodes), nodes, old(cur), cur, c, entry, stop, l);
      FanStep(old(nodes), nodes, cs, ls, lo, back, c, l, entry, stop);
      if entry.Some? { Link(stop, back); }
    }

    method BuildComma(c: Cmd, cs: seq<Cmd>) returns (ret: Option<nat>, stop: nat, ghost lay: Lay)
      requires Valid() && WellFormed(c) && c == Comma(cs) && |cs| != 1
      modifies this
      ensures Valid() && cur == old(cur) + Counters(c) && max == Max(old(max), cur)
      ensures Built(old(nodes), nodes, old(cur), cur, c, ret, stop, lay)
      decreases cs
    {
      hide Links, Sound, Of, Chain, Nodes, NodesOf, Ids, IdsOf, AllTo, Entry, FirstEntry, Stop, LastStop, HasNodes,
           Parts, NodesApart, Ready, ChainsDown, Built, OneMore, FanSoFar, IdsApart, Busy, SumCounters, MostCounters,
           Entries, IdsIn, Counters, WellFormed;
      CommaParts(c, cs);
      var fork := NewNode(None);
      stop := NewNode(None);
      ghost var top := nodes;
      var tmp := cur;
      cur := cur + 1;
      if cur > max { max := cur; }
      var count := 0;
      var all: seq<Option<nat>> := [];
      ghost var ls: seq<Lay> := [];
      FanStart(nodes, stop);
      IdsNone(cur);
      CountersNone(cs);
      for i := 0 to |cs|
        invariant Valid() && |top| <= |nodes| && nodes[..|top|] == top
        invariant |ls| == i && FanSoFar(nodes, cs[..i], ls, |top|, stop)
        invariant all == Entries(ls) && count == Busy(ls)
        invariant cur == tmp + 1 + SumCounters(cs[..i]) && max == Max(old(max), cur)
        invariant tmp + 1 <= cur && IdsIn(IdsOf(ls), tmp + 1, cur) && IdsApart(ls)
      {
        CountersMore(cs, i);
        ghost var cur0 := cur;
        var entry, l := BuildTo(cs[i], stop, cs[..i], ls, |top|);
        all := all + [entry];
        if entry.Some? { count := count + 1; }
        BusyAppend(ls, l);
        EntriesAppend(ls, l);
        IdsOnward(ls, l, tmp + 1, cur0, cur);
        IdsApartAppend(ls, l, tmp + 1, cur0, cur);
        assert cs[..i] + [cs[i]] == cs[..i + 1];
        ls := ls + [l];
      }
      assert cs[..|cs|] == cs;
      BusyPositive(ls);
      if count > 0 {
        ghost var g0 := nodes;
        FinishComma(fork, stop, all, count, tmp);
        ret := Some(fork);
        lay := LComma(fork, stop, tmp, cs, ls);
        CommaDone(old(nodes), g0, nodes, tmp, cur, cs, ls, fork, stop);
      } else {
        EmptyFan(nodes, cs, ls, |top|, stop);
        assert nodes[..|nodes| - 2] == old(nodes);
        DropTwo();
        NothingBuilt(nodes, tmp, cur, c);
        ret, stop, lay := None, 0, LNull;
      }
    }

    method BuildBranch(c: Cmd, isLoop: bool, arb: bool, guards: seq<Option<nat>>, bs: seq<Cmd>)
      returns (ret: Option<nat>, stop: nat, ghost lay: Lay)
      requires Valid() && WellFormed(c)
      requires c == if isLoop then Loop(guards, bs) else Select(arb, guards, bs)
      requires isLoop ==> !arb
      modifies this
      ensures Valid() && cur == old(cur) + Counters(c) && max == Max(old(max), cur)
      ensures Built(old(nodes), nodes, old(cur), cur, c, ret, stop, lay)
      decreases bs
    {
      hide Links, Sound, Of, Chain, Nodes, NodesOf, Ids, IdsOf, AllTo, Entry, FirstEntry, Stop, LastStop, HasNodes,
           Parts, NodesApart, Ready, ChainsDown, Built, OneMore, FanSoFar, IdsApart, Busy, SumCounters, MostCounters,
           Targets, IdsIn, Counters, WellFormed;
      var n;
      n, stop := NewPair(if isLoop then SLoop(guards) else SCond(arb, guards));
      var back := if isLoop then n else stop;
      ghost var top := nodes;
      var usedSlots := cur;
      var count := cur;
      var all: seq<Option<nat>> := [];
      ghost var ls: seq<Lay> := [];
      FanStart(nodes, back);
      IdsNone(count);
      BranchParts(c, bs);
      CountersNone(bs);
      for i := 0 to |bs|
        invariant Valid() && |top| <= |nodes| && nodes[..|top|] == top
        invariant |ls| == i && FanSoFar(nodes, bs[..i], ls, |top|, back)
        invariant all == Targets(ls, back)
        invariant usedSlots == count + MostCounters(bs[..i]) && max == Max(old(max), usedSlots)
        invariant IdsIn(IdsOf(ls), count, usedSlots)
      {
        CountersMore(bs, i);
        cur := count;
        var entry, l := BuildTo(bs[i], back, bs[..i], ls, |top|);
        all := all + [if entry.Some? then entry else Some(back)];
        TargetsAppend(ls, l, back, entry);
        IdsMore(ls, l, count, usedSlots, cur);
        usedSlots := Max(usedSlots, cur);
        assert bs[..i] + [bs[i]] == bs[..i + 1];
        ls := ls + [l];
      }
      cur := usedSlots;
      assert bs[..|bs|] == bs;
      ghost var g0 := nodes;
      SetAll(n, all);
      BranchDone(old(nodes), g0, nodes, count, cur, c, isLoop, arb, guards, bs, ls, n, stop);
      ret := Some(n);
      lay := LBranch(n, stop, isLoop, arb, guards, bs, ls);
    }

    /** The body, or an idle node when it has none. */
    method BuildBody(body: Cmd) returns (ret: nat, stop: nat, ghost lay: Lay)
      requires Valid() && WellFormed(body)
      modifies this
      ensures Valid() && cur == old(cur) + Counters(body) && max == Max(old(max), cur)
      ensures old(nodes) <= nodes && Of(body, lay) && LeanBody(body, lay) && Sound(lay) && !lay.LNull?
      ensures Links(nodes, lay, None) && Some(ret) == Entry(lay) && stop == Stop(lay) && stop < |nodes|
      ensures IsRange(Nodes(lay), |old(nodes)|, |nodes|) && IdsIn(Ids(lay), old(cur), cur)
      decreases body, 1
    {
      var r, s, l := Build(body);
      if r.None? {
        ret := NewNode(Some(SNop));
        stop, lay := ret, LNop(ret);
      } else {
        ret, stop, lay := r.value, s, l;
      }
    }

    method BuildDoLoop(c: Cmd, g: Option<nat>, body: Cmd) returns (ret: Option<nat>, stop: nat, ghost lay: Lay)
      requires Valid() && WellFormed(c) && c == DoLoop(g, body)
      modifies this
      ensures Valid() && cur == old(cur) + Counters(c) && max == Max(old(max), cur)
      ensures Built(old(nodes), nodes, old(cur), cur, c, ret, stop, lay)
      decreases body, 2
    {
      hide Links, Sound, Of, Lean, LeanBody, Nodes, Ids, Entry, Stop, ChainsDown, Built, WellFormed, Counters,
           DoLoopLay;
      DoLoopParts(c, g, body);
      var nret, ntmp, first := BuildBody(body);
      ghost var g1 := nodes;
      var n;
      n, stop := NewPair(SLoop([g]));
      ghost var g2 := nodes;
      var entry, tmp2, again := BuildBody(body);
      ghost var g3 := nodes;
      EntryStop(again);
      Link(tmp2, n);
      SetAll(n, [Some(entry)]);
      Link(ntmp, n);
      ret := Some(nret);
      lay := DoLoopLay(g, body, n, first, again);
      DoLoopDone(old(nodes), g1, g2, g3, g, body, first, ntmp, again, tmp2, old(cur), cur);
    }
  }

  lemma ActBuilt(g0: seq<Node>, cur: nat, a: nat)
    ensures Built(g0, g0 + [Node(Some(SAct(a)), None, [], 0, 0)], cur, cur, Act(a), Some(|g0|), |g0|, LAct(|g0|, a))
  {
  }

  lemma CommaParts(c: Cmd, cs: seq<Cmd>)
    requires WellFormed(c) && c == Comma(cs) && |cs| != 1
    ensures Counters(c) == 1 + SumCounters(cs) && forall i | 0 <= i < |cs| :: WellFormed(cs[i])
  {
    hide SumCounters;
  }

  lemma BranchParts(c: Cmd, bs: seq<Cmd>)
    requires WellFormed(c) && (c.Select? || c.Loop?) && bs == c.bodies
    ensures Counters(c) == MostCounters(bs) && |c.guards| == |bs| && forall i | 0 <= i < |bs| :: WellFormed(bs[i])
  {
    hide MostCounters;
  }

  lemma DoLoopParts(c: Cmd, g: Option<nat>, body: Cmd)
    requires WellFormed(c) && c == DoLoop(g, body)
    ensures Counters(c) == 2 * Counters(body) && WellFormed(body)
  {
  }

  lemma CountersSmall(c: Cmd)
    ensures c.Skip? || c.Act? ==> Counters(c) == 0
    ensures (c.Semi? || c.Comma?) && |c.cs| == 1 ==> Counters(c) == Counters(c.cs[0])
  {
    if c.Semi? && |c.cs| == 1 {
      CountersMore(c.cs, 0);
      CountersNone(c.cs);
      assert c.cs[..1] == c.cs;
    }
  }

  /** A list of one statement is built like that statement. */
  lemma {:induction false} SingleBuilt(
      g0: seq<Node>, g: seq<Node>, cur0: nat, cur: nat, c: Cmd, d: Cmd, ret: Option<nat>, stop: nat, lay: Lay)
    requires (c == Semi([d]) || c == Comma([d])) && Built(g0, g, cur0, cur, d, ret, stop, lay)
    ensures Built(g0, g, cur0, cur, c, ret, stop, lay)
  {
    hide Links, Sound, Of, Lean, Nodes, Ids, Entry, Stop;
    Singleton(c, d, lay);
  }

  lemma Singleton(c: Cmd, d: Cmd, lay: Lay)
    requires c == Semi([d]) || c == Comma([d])
    requires Of(d, lay) && Lean(d, lay)
    ensures Of(c, lay) && Lean(c, lay)
  {
    var ds := [d];
    assert ds[0] == d && ds[1..] == [];
    if lay.LNull? || lay.LNop? {
      assert ReadySeq(ds[1..]) == Skip;
      assert Ready(Semi(ds)) == ReadySeq(ds) == Skip;
      assert ReadyAll(ds)[0] == Ready(d);
    }
  }

  function DoLoopLay(g: Option<nat>, body: Cmd, n: nat, first: Lay, again: Lay): Lay
  {
    LSemi([body, Loop([g], [body])], [first, LBranch(n, n + 1, true, false, [g], [body], [again])])
  }

  lemma {:induction false} DoLoopSound(g: Option<nat>, body: Cmd, first: Lay, again: Lay, lo: nat, mid: nat, hi: nat)
    requires !first.LNull? && Sound(first) && IsRange(Nodes(first), lo, mid)
    requires !again.LNull? && Sound(again) && IsRange(Nodes(again), mid + 2, hi)
    requires lo <= mid && mid + 2 <= hi
    ensures Sound(DoLoopLay(g, body, mid, first, again))
    ensures IsRange(Nodes(DoLoopLay(g, body, mid, first, again)), lo, hi)
    ensures Ids(DoLoopLay(g, body, mid, first, again)) == Ids(first) + Ids(again)
  {
    hide Sound, Nodes, NodesOf, Ids, IdsOf;
    LoopNodes(LBranch(mid, mid + 1, true, false, [g], [body], [again]));
    SemiNodes([body, Loop([g], [body])], [first, LBranch(mid, mid + 1, true, false, [g], [body], [again])]);
    var loop := LBranch(mid, mid + 1, true, false, [g], [body], [again]);
    PairNodes(first, loop);
    OneNodes(again);
    LoopSound(loop, again);
    SemiSound([body, Loop([g], [body])], first, loop);
  }

  lemma LoopNodes(loop: Lay)
    requires loop.LBranch?
    ensures Nodes(loop) == {loop.n, loop.stop} + NodesOf(loop.ls) && Ids(loop) == IdsOf(loop.ls)
  {
    hide NodesOf, IdsOf;
  }

  lemma SemiNodes(cs: seq<Cmd>, ls: seq<Lay>)
    ensures Nodes(LSemi(cs, ls)) == NodesOf(ls) && Ids(LSemi(cs, ls)) == IdsOf(ls)
  {
    hide NodesOf, IdsOf;
  }

  lemma {:induction false} OneNodes(l: Lay)
    ensures NodesOf([l]) == Nodes(l) && IdsOf([l]) == Ids(l)
  {
    NodesAppend([], l);
    IdsAppend([], l);
    assert [] + [l] == [l];
  }

  lemma {:induction false} PairNodes(l: Lay, m: Lay)
    ensures NodesOf([l, m]) == Nodes(l) + Nodes(m) && IdsOf([l, m]) == Ids(l) + Ids(m)
  {
    OneNodes(l);
    NodesAppend([l], m);
    IdsAppend([l], m);
    assert [l] + [m] == [l, m];
  }

  lemma {:induction false} SemiSound(cs: seq<Cmd>, l: Lay, m: Lay)
    requires |cs| == 2 && Sound(l) && Sound(m) && !l.LNull? && Nodes(l) !! Nodes(m)
    ensures Sound(LSemi(cs, [l, m]))
  {
    var ls := [l, m];
    assert !ls[0].LNull?;
  }

  lemma {:induction false} DoLoopOf(g: Option<nat>, body: Cmd, n: nat, first: Lay, again: Lay)
    requires !first.LNull? && Of(body, first) && LeanBody(body, first)
    requires !again.LNull? && Of(body, again) && LeanBody(body, again)
    ensures Of(DoLoop(g, body), DoLoopLay(g, body, n, first, again))
    ensures Lean(DoLoop(g, body), DoLoopLay(g, body, n, first, again))
  {
  }

  lemma {:induction false} LoopSound(loop: Lay, again: Lay)
    requires loop.LBranch? && loop.ls == [again] && |loop.guards| == |loop.bs| == 1 && Sound(again)
    requires loop.n != loop.stop && loop.n !in Nodes(again) && loop.stop !in Nodes(again)
    ensures Sound(loop)
  {
  }

  /** A do-loop: two copies of the body around one loop node. */
  lemma {:induction false} DoLoopDone(
      g0: seq<Node>, g1: seq<Node>, g2: seq<Node>, g3: seq<Node>, g: Option<nat>, body: Cmd,
      first: Lay, ntmp: nat, again: Lay, tmp2: nat, cur0: nat, cur: nat)
    requires g0 <= g1 && Links(g1, first, None) && Sound(first) && !first.LNull? && ntmp == Stop(first)
    requires IsRange(Nodes(first), |g0|, |g1|)
    requires Of(body, first) && Of(body, again) && LeanBody(body, first) && LeanBody(body, again)
    requires g2 == g1 + [Node(Some(SLoop([g])), Some(|g1| + 1), [], 0, 0), Node(None, None, [], 0, 0)]
    requires g2 <= g3 && Links(g3, again, None) && Sound(again) && !again.LNull? && tmp2 == Stop(again)
    requires IsRange(Nodes(again), |g2|, |g3|) && tmp2 < |g3| && ntmp < |g1|
    requires (forall x | x in Ids(first) :: cur0 <= x < cur) && (forall x | x in Ids(again) :: cur0 <= x < cur)
             && cur0 <= cur
    ensures Built(g0, SetNext(SetNext(g3, tmp2, Some(|g1|))[|g1| := Node(Some(SLoop([g])), Some(|g1| + 1),
            [Entry(again)], 0, 0)],
                              ntmp, Some(|g1|)),
                  cur0, cur, DoLoop(g, body), Entry(first), |g1| + 1, DoLoopLay(g, body, |g1|, first, again))
  {
    hide Sound, Of, Lean, LeanBody, Links, Nodes, Ids, Entry, Stop;
    DoLoopWired(g1, g2, g3, g, body, first, ntmp, again, tmp2);
    DoLoopSound(g, body, first, again, |g0|, |g1|, |g3|);
    DoLoopOf(g, body, |g1|, first, again);
    StopBehind(first, |g0|, |g1|);
    StopBehind(again, |g2|, |g3|);
    EntryStop(first);
  }

  lemma StopBehind(lay: Lay, lo: nat, hi: nat)
    requires Sound(lay) && !lay.LNull? && IsRange(Nodes(lay), lo, hi)
    ensures lo <= Stop(lay) < hi
  {
    EntryStop(lay);
  }

  /** The wiring: the first copy goes on to the loop, the second comes back to it. */
  lemma {:induction false} DoLoopWired(
      g1: seq<Node>, g2: seq<Node>, g3: seq<Node>, g: Option<nat>, body: Cmd, first: Lay, ntmp: nat, again: Lay,
      tmp2: nat)
    requires Links(g1, first, None) && Sound(first) && !first.LNull? && ntmp == Stop(first) && ntmp < |g1|
    requires forall x | x in Nodes(first) :: x < |g1|
    requires g2 == g1 + [Node(Some(SLoop([g])), Some(|g1| + 1), [], 0, 0), Node(None, None, [], 0, 0)]
    requires g2 <= g3 && Links(g3, again, None) && Sound(again) && !again.LNull? && tmp2 == Stop(again) && tmp2 < |g3|
    requires forall x | x in Nodes(again) :: |g2| <= x < |g3|
    ensures var lay := DoLoopLay(g, body, |g1|, first, again);
            && Links(SetNext(SetNext(g3, tmp2, Some(|g1|))[|g1| := Node(Some(SLoop([g])), Some(|g1| + 1),
                             [Entry(again)], 0, 0)], ntmp, Some(|g1|)), lay, None)
            && Entry(lay) == Entry(first) && Stop(lay) == |g1| + 1
  {
    hide Sound, Links, Nodes, FirstEntry, Entry, Stop, LastStop;
    var n := |g1|;
    var g4 := SetNext(g3, tmp2, Some(n));
    var g5 := g4[n := Node(Some(SLoop([g])), Some(n + 1), [Entry(again)], 0, 0)];
    var g6 := SetNext(g5, ntmp, Some(n));
    var loop := LBranch(n, n + 1, true, false, [g], [body], [again]);
    EntryStop(first);
    EntryStop(again);
    Retarget(g3, again, None, Some(n));
    Frame(g4, g6, again, Some(n));
    Frame(g1, g5, first, None);
    Retarget(g5, first, None, Some(n));
    OneTarget(again, n);
    LoopLinks(g6, loop, again);
    LoopEntry(loop);
    DoLoopLinks(g6, [body, Loop([g], [body])], first, loop);
  }

  lemma OneTarget(l: Lay, n: nat)
    requires !l.LNull?
    ensures Targets([l], n) == [Entry(l)]
  {
  }

  lemma LoopEntry(loop: Lay)
    requires loop.LBranch?
    ensures Entry(loop) == Some(loop.n) && Stop(loop) == loop.stop
  {
  }

  lemma {:induction false} LoopLinks(g: seq<Node>, loop: Lay, again: Lay)
    requires loop.LBranch? && loop.isLoop && loop.ls == [again] && loop.n < |g| && loop.stop < |g|
    requires g[loop.n] == Node(Some(SLoop(loop.guards)), Some(loop.stop), Targets([again], loop.n), 0, 0)
    requires g[loop.stop] == Node(None, None, [], 0, 0) && Links(g, again, Some(loop.n))
    ensures Links(g, loop, None)
  {
  }

  lemma {:induction false} DoLoopLinks(g: seq<Node>, cs: seq<Cmd>, first: Lay, loop: Lay)
    requires loop.LBranch? && !first.LNull? && Links(g, first, Entry(loop)) && Links(g, loop, None)
    ensures Links(g, LSemi(cs, [first, loop]), None)
    ensures Entry(LSemi(cs, [first, loop])) == Entry(first) && Stop(LSemi(cs, [first, loop])) == loop.stop
  {
    var ls := [first, loop];
    FirstEntryFound(ls, 1, 1, None);
    FirstEntryNone(ls, 2, None);
    assert LastStop(ls, 2) == Stop(ls[1]);
  }
}
