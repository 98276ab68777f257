/**
 What one thread's move does to the control tree: to the nodes of the other threads, to the join counters
 and to the term left to run.
 */
module ChpMove {
  import opened Prelude
  import opened ChpLang
  import opened ChpGraph
  import opened ChpControl

  // ----- one branch of a comma changes

  /** Branch j becomes d, whose slots are its old ones or new. */
  ghost predicate BranchSet(lay: Lay, cs: seq<Ctl>, j: nat, d: Ctl, cs': seq<Ctl>)
  {
    && Fit(lay, Many(cs)) && j < |cs| && Fit(lay.ls[j], d)
    && (forall t | t in Slots(d) && t in Slots(Many(cs)) :: t in Slots(cs[j]))
    && cs' == cs[j := d] && !AllOff(cs')
  }

  lemma {:induction false} ManySetFit(lay: Lay, cs: seq<Ctl>, j: nat, d: Ctl, cs': seq<Ctl>)
    requires BranchSet(lay, cs, j, d, cs')
    ensures Fit(lay, Many(cs'))
  {
    forall i, k | 0 <= i < k < |cs'| ensures Slots(cs'[i]) !! Slots(cs'[k]) {
      assert Slots(cs[i]) <= Slots(Many(cs)) && Slots(cs[k]) <= Slots(Many(cs));
    }
  }

  lemma {:induction false} ManySetSlot(lay: Lay, cs: seq<Ctl>, j: nat, d: Ctl, cs': seq<Ctl>, t: nat)
    requires BranchSet(lay, cs, j, d, cs') && Fit(lay, Many(cs'))
    ensures t in Slots(Many(cs')) <==> t in Slots(d) || (t in Slots(Many(cs)) && t !in Slots(cs[j]))
    ensures t in Slots(d) ==> At(lay, Many(cs'), t) == At(lay.ls[j], d, t)
    ensures t !in Slots(d) && t in Slots(Many(cs')) ==> At(lay, Many(cs'), t) == At(lay, Many(cs), t)
  {
    if t in Slots(d) {
      OwnerIs(cs', j, t);
    } else if t in Slots(Many(cs)) {
      var i := Owner(cs, t);
      OwnerIs(cs, i, t);
      if i != j { OwnerIs(cs', i, t); } else { NotElsewhere(lay, cs, j, cs', t); }
    } else {
      forall i | 0 <= i < |cs'| ensures t !in Slots(cs'[i]) { assert t !in Slots(cs[i]); }
    }
  }

  lemma {:induction false} NotElsewhere(lay: Lay, cs: seq<Ctl>, j: nat, cs': seq<Ctl>, t: nat)
    requires Fit(lay, Many(cs)) && j < |cs| == |cs'| && t in Slots(cs[j]) && t !in Slots(cs'[j])
    requires forall i | 0 <= i < |cs| && i != j :: cs'[i] == cs[i]
    ensures t !in Slots(Many(cs'))
  {
    forall i | 0 <= i < |cs'| ensures t !in Slots(cs'[i]) {
      if i != j { assert Slots(cs[i]) !! Slots(cs[j]); }
    }
  }

  lemma {:induction false} ManySetCount(lay: Lay, cs: seq<Ctl>, j: nat, d: Ctl, x: nat)
    requires Fit(lay, Many(cs)) && j < |cs| && Fit(lay.ls[j], d) && !lay.ls[j].LNull?
    requires Fit(lay, Many(cs[j := d]))
    ensures x != lay.tix ==>
              Count(lay, Many(cs[j := d]), x)
              == Count(lay, Many(cs), x) - Count(lay.ls[j], cs[j], x) + Count(lay.ls[j], d, x)
    ensures Count(lay, Many(cs[j := d]), lay.tix)
            == Count(lay, Many(cs), lay.tix) - (if cs[j].Off? then 1 else 0) + if d.Off? then 1 else 0
  {
    SumCountSet(lay.ls, cs, x, j, d);
    ArrivedSet(lay.ls, cs, j, d);
  }

  /** In branch j, a counter of branch j has the value it has in the whole comma. */
  lemma {:induction false} ManyCount(lay: Lay, cs: seq<Ctl>, j: nat, x: nat)
    requires Sound(lay) && Fit(lay, Many(cs)) && j < |cs| && x in Ids(lay.ls[j])
    ensures x != lay.tix && Count(lay, Many(cs), x) == Count(lay.ls[j], cs[j], x)
  {
    SubNodes(lay.ls, j);
    forall i | 0 <= i < |cs| && i != j ensures Count(lay.ls[i], cs[i], x) == 0 {
      assert Ids(lay.ls[i]) !! Ids(lay.ls[j]);
      CountOutside(lay.ls[i], cs[i], x);
    }
    SumCountOnly(lay.ls, cs, x, j);
  }

  lemma {:induction false} BusyBranch(lay: Lay, c: Ctl)
    requires Fit(lay, c) && !c.Off?
    ensures !lay.LNull?
  {
  }

  // ----- the thread stays in its part

  /** The leaf of slot s becomes n, whose other slots are new; nothing else changes. */
  ghost predicate Replaced(lay: Lay, c: Ctl, c': Ctl, s: nat, n: Ctl)
    requires Fit(lay, c) && s in Slots(c) && Fit(Leaf(lay, c, s).0, n)
  {
    && Fit(lay, c') && !c'.Off?
    && ReplacedSlots(lay, c, c', s, Leaf(lay, c, s).0, n)
    && SameCounts(lay, c, c')
  }

  ghost predicate ReplacedSlots(lay: Lay, c: Ctl, c': Ctl, s: nat, leaf: Lay, n: Ctl)
    requires Fit(lay, c) && s in Slots(c) && Fit(leaf, n) && Fit(lay, c')
  {
    && Slots(c') == Slots(c) + Slots(n)
    && (forall t | t in Slots(n) :: At(lay, c', t) == At(leaf, n, t))
    && (forall t | t in Slots(c) && t != s :: At(lay, c', t) == At(lay, c, t))
    && Leaves(c') == Leaves(c) - 1 + Leaves(n)
  }

  ghost predicate SameCounts(lay: Lay, c: Ctl, c': Ctl)
    requires Fit(lay, c) && Fit(lay, c')
  {
    forall x: nat :: Count(lay, c', x) == Count(lay, c, x)
  }

  lemma {:induction false} UpStay(lay: Lay, c: Ctl, s: nat, n: Ctl)
    requires Sound(lay) && Fit(lay, c) && s in Slots(c)
    requires Fit(Leaf(lay, c, s).0, n) && !n.Off? && s in Slots(n) && (Slots(n) - {s}) !! Slots(c)
    requires forall x :: Count(Leaf(lay, c, s).0, n, x) == 0
    ensures Up(lay, c, s, Stay(n)).Stay? && Replaced(lay, c, Up(lay, c, s, Stay(n)).c, s, n)
    decreases c, 0
  {
    match c
    case In(i, d) => UpStayIn(lay, i, d, s, n);
    case Many(cs) => UpStayMany(lay, cs, s, n);
    case _ =>
  }

  lemma {:induction false} UpStayIn(lay: Lay, i: nat, d: Ctl, s: nat, n: Ctl)
    requires Sound(lay) && Fit(lay, In(i, d)) && s in Slots(d)
    requires Fit(Leaf(lay.ls[i], d, s).0, n) && !n.Off? && s in Slots(n) && (Slots(n) - {s}) !! Slots(d)
    requires forall x :: Count(Leaf(lay.ls[i], d, s).0, n, x) == 0
    ensures Up(lay, In(i, d), s, Stay(n)).Stay? && Replaced(lay, In(i, d), Up(lay, In(i, d), s, Stay(n)).c, s, n)
    decreases d, 1
  {
    UpStay(lay.ls[i], d, s, n);
    InReplaced(lay, i, d, Up(lay.ls[i], d, s, Stay(n)).c, s, n);
  }

  lemma {:induction false} InReplaced(lay: Lay, i: nat, d: Ctl, d': Ctl, s: nat, n: Ctl)
    requires Fit(lay, In(i, d)) && s in Slots(d) && Fit(Leaf(lay.ls[i], d, s).0, n) && Replaced(lay.ls[i], d, d', s, n)
    ensures Replaced(lay, In(i, d), In(i, d'), s, n)
  {
    hide Fit, Slots, At, Count, Leaves, Leaf;
    InFits(lay, i, d);
    InFits(lay, i, d');
    assert Leaf(lay, In(i, d), s) == Leaf(lay.ls[i], d, s) by { InLeaf(lay, i, d, s); }
    InIs(lay, i, d);
    InIs(lay, i, d');
  }

  /** A position inside one part of a sequence, selection or loop is that position in the whole. */
  lemma {:induction false} InIs(lay: Lay, i: nat, d: Ctl)
    requires (lay.LSemi? || lay.LBranch?) && i < |lay.ls| && !d.Off? && Fit(lay.ls[i], d)
    ensures Fit(lay, In(i, d)) && Slots(In(i, d)) == Slots(d) && Leaves(In(i, d)) == Leaves(d)
    ensures forall u | u in Slots(d) :: At(lay, In(i, d), u) == At(lay.ls[i], d, u)
    ensures forall x: nat :: Count(lay, In(i, d), x) == Count(lay.ls[i], d, x)
  {
  }

  lemma InFits(lay: Lay, i: nat, d: Ctl)
    requires Fit(lay, In(i, d)) || ((lay.LSemi? || lay.LBranch?) && i < |lay.ls| && !d.Off? && Fit(lay.ls[i], d))
    ensures Fit(lay, In(i, d)) && (lay.LSemi? || lay.LBranch?) && i < |lay.ls| && !d.Off? && Fit(lay.ls[i], d)
  {
  }

  lemma InLeaf(lay: Lay, i: nat, d: Ctl, s: nat)
    requires Fit(lay, In(i, d)) && s in Slots(d)
    ensures s in Slots(In(i, d)) && Leaf(lay, In(i, d), s) == Leaf(lay.ls[i], d, s)
  {
  }

  lemma {:induction false} UpStayMany(lay: Lay, cs: seq<Ctl>, s: nat, n: Ctl)
    requires Sound(lay) && Fit(lay, Many(cs)) && s in Slots(Many(cs))
    requires Fit(Leaf(lay, Many(cs), s).0, n) && !n.Off? && s in Slots(n) && (Slots(n) - {s}) !! Slots(Many(cs))
    requires forall x :: Count(Leaf(lay, Many(cs), s).0, n, x) == 0
    ensures Up(lay, Many(cs), s, Stay(n)).Stay? && Replaced(lay, Many(cs), Up(lay, Many(cs), s, Stay(n)).c, s, n)
    decreases cs
  {
    var j := Owner(cs, s);
    assert Slots(cs[j]) <= Slots(Many(cs));
    assert Leaf(lay, Many(cs), s) == Leaf(lay.ls[j], cs[j], s);
    UpStay(lay.ls[j], cs[j], s, n);
    BranchReplaced(lay, cs, j, s, n, Up(lay.ls[j], cs[j], s, Stay(n)).c);
  }

  lemma {:induction false} BranchReplaced(lay: Lay, cs: seq<Ctl>, j: nat, s: nat, n: Ctl, d: Ctl)
    requires Sound(lay) && Fit(lay, Many(cs)) && s in Slots(Many(cs)) && j == Owner(cs, s)
    requires Fit(Leaf(lay.ls[j], cs[j], s).0, n) && s in Slots(n) && (Slots(n) - {s}) !! Slots(Many(cs))
    requires Replaced(lay.ls[j], cs[j], d, s, n)
    ensures Replaced(lay, Many(cs), Many(cs[j := d]), s, n)
  {
    hide NodesApart, SlotsApart, IdsApart;
    BranchIsSet(lay, cs, j, s, n, d);
    BranchReplacedAll(lay, cs, j, s, Leaf(lay, Many(cs), s).0, n, d, cs[j := d]);
    BranchCounts(lay, cs, j, d);
  }

  lemma {:induction false} BranchIsSet(lay: Lay, cs: seq<Ctl>, j: nat, s: nat, n: Ctl, d: Ctl)
    requires Fit(lay, Many(cs)) && s in Slots(Many(cs)) && j == Owner(cs, s)
    requires Fit(Leaf(lay.ls[j], cs[j], s).0, n) && s in Slots(n) && (Slots(n) - {s}) !! Slots(Many(cs))
    requires Replaced(lay.ls[j], cs[j], d, s, n)
    ensures BranchSet(lay, cs, j, d, cs[j := d]) && Fit(lay, Many(cs[j := d]))
  {
    assert !cs[j := d][j].Off?;
    ManySetFit(lay, cs, j, d, cs[j := d]);
  }

  lemma {:induction false} BranchReplacedAll(
      lay: Lay, cs: seq<Ctl>, j: nat, s: nat, leaf: Lay, n: Ctl, d: Ctl, cs': seq<Ctl>)
    requires Fit(lay, Many(cs)) && s in Slots(Many(cs)) && j == Owner(cs, s) && Fit(lay, Many(cs'))
    requires Fit(leaf, n) && s in Slots(n) && Fit(lay.ls[j], d) && ReplacedSlots(lay.ls[j], cs[j], d, s, leaf, n)
    requires BranchSet(lay, cs, j, d, cs')
    ensures ReplacedSlots(lay, Many(cs), Many(cs'), s, leaf, n)
  {
    hide At, SlotsApart, NodesApart, IdsApart, AllOff, Ids;
    forall t: nat
      ensures t in Slots(Many(cs')) <==> t in Slots(Many(cs)) || t in Slots(n)
      ensures t in Slots(n) ==> At(lay, Many(cs'), t) == At(leaf, n, t)
      ensures t in Slots(Many(cs)) && t != s ==> At(lay, Many(cs'), t) == At(lay, Many(cs), t)
    {
      BranchReplacedAt(lay, cs, j, s, leaf, n, d, cs', t);
    }
    SumLeavesSet(cs, j, d);
  }

  lemma {:induction false} BranchReplacedAt(
      lay: Lay, cs: seq<Ctl>, j: nat, s: nat, leaf: Lay, n: Ctl, d: Ctl, cs': seq<Ctl>, t: nat)
    requires Fit(lay, Many(cs)) && s in Slots(Many(cs)) && j == Owner(cs, s) && Fit(lay, Many(cs'))
    requires Fit(leaf, n) && s in Slots(n) && Fit(lay.ls[j], d) && ReplacedSlots(lay.ls[j], cs[j], d, s, leaf, n)
    requires BranchSet(lay, cs, j, d, cs')
    ensures t in Slots(Many(cs')) <==> t in Slots(Many(cs)) || t in Slots(n)
    ensures t in Slots(n) ==> At(lay, Many(cs'), t) == At(leaf, n, t)
    ensures t in Slots(Many(cs)) && t != s ==> t in Slots(Many(cs')) && At(lay, Many(cs'), t) == At(lay, Many(cs), t)
  {
    ManySetSlot(lay, cs, j, d, cs', t);
    if t in Slots(cs[j]) { OwnerIs(cs, j, t); }
  }

  lemma {:induction false} BranchCounts(lay: Lay, cs: seq<Ctl>, j: nat, d: Ctl)
    requires Fit(lay, Many(cs)) && j < |cs| && Fit(lay.ls[j], d) && !cs[j].Off? && !d.Off?
    requires Fit(lay, Many(cs[j := d]))
    requires SameCounts(lay.ls[j], cs[j], d)
    ensures SameCounts(lay, Many(cs), Many(cs[j := d]))
  {
    BusyBranch(lay.ls[j], d);
    forall x ensures Count(lay, Many(cs[j := d]), x) == Count(lay, Many(cs), x) {
      ManySetCount(lay, cs, j, d, x);
    }
  }

  // ----- the thread leaves its part

  /** A leaf that its thread leaves along `next`: a plain statement, an idle node or a closing node. */
  predicate Leaving(leaf: (Lay, Ctl))
  {
    leaf.1.Fin? || (leaf.1.Here? && (leaf.0.LAct? || leaf.0.LNop?))
  }

  ghost predicate Relocated(lay: Lay, c: Ctl, c': Ctl, s: nat, t: nat)
    requires Fit(lay, c) && s in Slots(c) && Fit(lay, c')
  {
    && Slots(c') == Slots(c) && At(lay, c', s) == t && Leaves(c') == Leaves(c)
    && (forall u | u in Slots(c) && u != s :: At(lay, c', u) == At(lay, c, u))
  }

  ghost predicate Released(lay: Lay, c: Ctl, c': Ctl, s: nat)
    requires Fit(lay, c) && s in Slots(c) && Fit(lay, c')
  {
    && Slots(c') == Slots(c) - {s} && Leaves(c') == Leaves(c) - 1
    && (forall u | u in Slots(c') :: At(lay, c', u) == At(lay, c, u))
  }

  /**
   The thread in slot s has gone to node t. At a join it is counted; the last one to arrive goes on and the
   counter is zero again, every earlier one gives up its slot.
   */
  ghost predicate Moved(g: seq<Node>, lay: Lay, c: Ctl, c': Ctl, s: nat, t: nat)
    requires Fit(lay, c) && s in Slots(c)
  {
    && Fit(lay, c') && !c'.Off? && t < |g|
    && if g[t].wait == 0 then Relocated(lay, c, c', s, t) && SameCounts(lay, c, c')
       else Joined(lay, c, c', s, t, g[t].wait, g[t].totidx)
  }

  ghost predicate Joined(lay: Lay, c: Ctl, c': Ctl, s: nat, t: nat, wait: nat, x: nat)
    requires Fit(lay, c) && s in Slots(c) && Fit(lay, c')
  {
    && x in Ids(lay) && Count(lay, c, x) < wait
    && (forall y | y != x :: Count(lay, c', y) == Count(lay, c, y))
    && if Count(lay, c, x) + 1 == wait then Relocated(lay, c, c', s, t) && Count(lay, c', x) == 0
       else Released(lay, c, c', s) && Count(lay, c', x) == Count(lay, c, x) + 1
  }

  lemma {:induction false} InMoved(g: seq<Node>, lay: Lay, i: nat, d: Ctl, d': Ctl, s: nat, t: nat)
    requires Fit(lay, In(i, d)) && s in Slots(d) && Moved(g, lay.ls[i], d, d', s, t)
    ensures Moved(g, lay, In(i, d), In(i, d'), s, t)
  {
    hide Fit, Slots, At, Count, Leaves, Ids, IdsOf;
    InFits(lay, i, d);
    InIs(lay, i, d);
    InIs(lay, i, d');
    PartIds(lay, i);
  }

  lemma PartIds(lay: Lay, i: nat)
    requires (lay.LSemi? || lay.LBranch? || lay.LComma?) && i < |lay.ls|
    ensures Ids(lay.ls[i]) <= Ids(lay)
  {
    SubNodes(lay.ls, i);
  }

  lemma {:induction false} InCounts(lay: Lay, i: nat, d: Ctl)
    requires Fit(lay, In(i, d))
    ensures forall x: nat :: Count(lay, In(i, d), x) == Count(lay.ls[i], d, x)
  {
  }

  lemma {:induction false} ManyRelocated(lay: Lay, cs: seq<Ctl>, j: nat, d: Ctl, s: nat, t: nat)
    requires Fit(lay, Many(cs)) && s in Slots(Many(cs)) && j == Owner(cs, s)
    requires Fit(lay.ls[j], d) && !d.Off? && Relocated(lay.ls[j], cs[j], d, s, t)
    ensures Fit(lay, Many(cs[j := d])) && Relocated(lay, Many(cs), Many(cs[j := d]), s, t)
  {
    hide Fit, At, Count, SumLeaves, Slots, SlotsApart;
    var cs' := cs[j := d];
    assert !cs'[j].Off?;
    ManyFits(lay, cs, j);
    assert Slots(d) == Slots(cs[j]);
    ManySetFit(lay, cs, j, d, cs');
    forall u: nat
      ensures u in Slots(Many(cs')) <==> u in Slots(Many(cs))
      ensures u in Slots(Many(cs)) ==> At(lay, Many(cs'), u) == if u == s then t else At(lay, Many(cs), u)
    {
      RelocatedAt(lay, cs, j, d, cs', s, t, u);
    }
    SumLeavesSet(cs, j, d);
  }

  lemma ManyFits(lay: Lay, cs: seq<Ctl>, j: nat)
    requires Fit(lay, Many(cs)) && j < |cs|
    ensures lay.LComma? && |cs| == |lay.ls| && Fit(lay.ls[j], cs[j])
  {
  }

  lemma {:induction false} RelocatedAt(lay: Lay, cs: seq<Ctl>, j: nat, d: Ctl, cs': seq<Ctl>, s: nat, t: nat, u: nat)
    requires BranchSet(lay, cs, j, d, cs') && Fit(lay, Many(cs'))
    requires s in Slots(cs[j]) && Relocated(lay.ls[j], cs[j], d, s, t)
    ensures u in Slots(Many(cs')) <==> u in Slots(Many(cs))
    ensures u in Slots(Many(cs)) ==> At(lay, Many(cs'), u) == if u == s then t else At(lay, Many(cs), u)
  {
    ManySetSlot(lay, cs, j, d, cs', u);
    if u in Slots(cs[j]) { OwnerIs(cs, j, u); }
  }

  lemma {:induction false} ReleasedAt(lay: Lay, cs: seq<Ctl>, j: nat, d: Ctl, cs': seq<Ctl>, s: nat, u: nat)
    requires BranchSet(lay, cs, j, d, cs') && Fit(lay, Many(cs'))
    requires s in Slots(cs[j]) && Released(lay.ls[j], cs[j], d, s)
    ensures u in Slots(Many(cs')) <==> u in Slots(Many(cs)) && u != s
    ensures u in Slots(Many(cs')) ==> At(lay, Many(cs'), u) == At(lay, Many(cs), u)
  {
    ManySetSlot(lay, cs, j, d, cs', u);
    if u in Slots(cs[j]) { OwnerIs(cs, j, u); }
  }

  lemma {:induction false} ManyReleased(lay: Lay, cs: seq<Ctl>, j: nat, d: Ctl, s: nat)
    requires Fit(lay, Many(cs)) && s in Slots(Many(cs)) && j == Owner(cs, s)
    requires Fit(lay.ls[j], d) && Released(lay.ls[j], cs[j], d, s)
    requires !AllOff(cs[j := d])
    ensures Fit(lay, Many(cs[j := d])) && Released(lay, Many(cs), Many(cs[j := d]), s)
  {
    hide Fit, At, Count, SumLeaves, Slots, SlotsApart;
    var cs' := cs[j := d];
    ManyFits(lay, cs, j);
    ManySetFit(lay, cs, j, d, cs');
    forall u: nat
      ensures u in Slots(Many(cs')) <==> u in Slots(Many(cs)) && u != s
      ensures u in Slots(Many(cs')) ==> At(lay, Many(cs'), u) == At(lay, Many(cs), u)
    {
      ReleasedAt(lay, cs, j, d, cs', s, u);
    }
    SumLeavesSet(cs, j, d);
  }

  /** A move inside one branch is a move of the comma. */
  lemma {:induction false} ManyMoved(g: seq<Node>, lay: Lay, cs: seq<Ctl>, j: nat, d: Ctl, s: nat, t: nat)
    requires Sound(lay) && Fit(lay, Many(cs)) && s in Slots(Many(cs)) && j == Owner(cs, s)
    requires Moved(g, lay.ls[j], cs[j], d, s, t)
    ensures Moved(g, lay, Many(cs), Many(cs[j := d]), s, t)
  {
    if g[t].wait == 0 {
      ManyRelocated(lay, cs, j, d, s, t);
      BranchCounts(lay, cs, j, d);
    } else {
      ManyMovedJoin(lay, cs, j, d, s, t, g[t].wait, g[t].totidx);
    }
  }

  lemma {:induction false} ManyMovedJoin(lay: Lay, cs: seq<Ctl>, j: nat, d: Ctl, s: nat, t: nat, wait: nat, x: nat)
    requires Sound(lay) && Fit(lay, Many(cs)) && s in Slots(Many(cs)) && j == Owner(cs, s)
    requires Fit(lay.ls[j], d) && !d.Off? && Joined(lay.ls[j], cs[j], d, s, t, wait, x)
    ensures Fit(lay, Many(cs[j := d])) && Joined(lay, Many(cs), Many(cs[j := d]), s, t, wait, x)
  {
    hide SlotsApart, NodesApart, IdsApart, AllOff;
    SubNodes(lay.ls, j);
    ManyShifted(lay, cs, j, d, s, t);
    ManyJoined(lay, cs, j, d, x);
  }

  lemma {:induction false} ManyShifted(lay: Lay, cs: seq<Ctl>, j: nat, d: Ctl, s: nat, t: nat)
    requires Fit(lay, Many(cs)) && s in Slots(Many(cs)) && j == Owner(cs, s)
    requires Fit(lay.ls[j], d) && !d.Off?
    requires Relocated(lay.ls[j], cs[j], d, s, t) || Released(lay.ls[j], cs[j], d, s)
    ensures Fit(lay, Many(cs[j := d]))
    ensures Relocated(lay.ls[j], cs[j], d, s, t) ==> Relocated(lay, Many(cs), Many(cs[j := d]), s, t)
    ensures Released(lay.ls[j], cs[j], d, s) ==> Released(lay, Many(cs), Many(cs[j := d]), s)
  {
    if Relocated(lay.ls[j], cs[j], d, s, t) {
      ManyRelocated(lay, cs, j, d, s, t);
    } else {
      assert !cs[j := d][j].Off?;
      ManyReleased(lay, cs, j, d, s);
    }
  }

  /** A join inside branch j changes its own counter in the comma and no other. */
  lemma {:induction false} ManyJoined(lay: Lay, cs: seq<Ctl>, j: nat, d: Ctl, x: nat)
    requires Sound(lay) && Fit(lay, Many(cs)) && j < |cs| && Fit(lay.ls[j], d) && !d.Off? && !cs[j].Off?
    requires Fit(lay, Many(cs[j := d])) && x in Ids(lay.ls[j])
    requires forall y | y != x :: Count(lay.ls[j], d, y) == Count(lay.ls[j], cs[j], y)
    ensures Count(lay, Many(cs), x) == Count(lay.ls[j], cs[j], x)
    ensures Count(lay, Many(cs[j := d]), x) == Count(lay.ls[j], d, x)
    ensures forall y | y != x :: Count(lay, Many(cs[j := d]), y) == Count(lay, Many(cs), y)
  {
    BusyBranch(lay.ls[j], d);
    ManyCount(lay, cs, j, x);
    ManyCount(lay, cs[j := d], j, x);
    forall y | y != x ensures Count(lay, Many(cs[j := d]), y) == Count(lay, Many(cs), y) {
      ManySetCount(lay, cs, j, d, y);
    }
  }

  /** The thread has run its branch to the end and is counted at the join. */
  lemma {:induction false} BranchArrives(g: seq<Node>, lay: Lay, cs: seq<Ctl>, j: nat, s: nat, k: Option<nat>)
    requires Sound(lay) && Links(g, lay, k) && Fit(lay, Many(cs)) && s in Slots(Many(cs)) && j == Owner(cs, s)
    requires Slots(cs[j]) == {s} && Leaves(cs[j]) == 1 && forall x :: Count(lay.ls[j], cs[j], x) == 0
    requires Busy(lay.ls) > 0
    ensures Moved(g, lay, Many(cs), if AllOff(cs[j := Off]) then Fin(s) else Many(cs[j := Off]),
                  s, lay.join)
  {
    hide Sound, Links, Slots, At, Leaves, SumCount, SumLeaves, Arrived, Busy, AllOff, Relocated, Released, Ids;
    JoinNode(g, lay, k);
    ArrivedCount(lay, cs);
    if AllOff(cs[j := Off]) {
      LastArrives(lay, cs, j, s);
    } else {
      EarlyArrives(lay, cs, j, s);
    }
  }

  lemma JoinNode(g: seq<Node>, lay: Lay, k: Option<nat>)
    requires Links(g, lay, k) && lay.LComma?
    ensures lay.join < |g| && g[lay.join].wait == Busy(lay.ls) && g[lay.join].totidx == lay.tix && lay.tix in Ids(lay)
  {
  }

  lemma ArrivedCount(lay: Lay, cs: seq<Ctl>)
    requires Fit(lay, Many(cs))
    ensures Count(lay, Many(cs), lay.tix) == Arrived(lay.ls, cs)
  {
  }

  lemma {:induction false} LastArrives(lay: Lay, cs: seq<Ctl>, j: nat, s: nat)
    requires Sound(lay) && Fit(lay, Many(cs)) && s in Slots(Many(cs)) && j == Owner(cs, s)
    requires Slots(cs[j]) == {s} && Leaves(cs[j]) == 1 && forall x :: Count(lay.ls[j], cs[j], x) == 0
    requires AllOff(cs[j := Off])
    ensures Relocated(lay, Many(cs), Fin(s), s, lay.join)
    ensures Arrived(lay.ls, cs) + 1 == Busy(lay.ls)
    ensures forall x | x != lay.tix :: Count(lay, Many(cs), x) == 0
  {
    hide Sound, SumLeaves, Arrived, SumCount, Busy, SlotsApart, AllOff;
    LastOthers(lay, cs, j);
    BusyBranch(lay.ls[j], cs[j]);
    ArrivedSet(lay.ls, cs, j, Off);
    ArrivedAll(lay.ls, cs[j := Off]);
    SumLeavesOff(cs[j := Off]);
    SumLeavesSet(cs, j, Off);
    LastCounts(lay, cs, j);
  }

  lemma {:induction false} LastOthers(lay: Lay, cs: seq<Ctl>, j: nat)
    requires Fit(lay, Many(cs)) && j < |cs| && AllOff(cs[j := Off])
    ensures Slots(Many(cs)) == Slots(cs[j]) && forall i | 0 <= i < |cs| && i != j :: cs[i].Off?
    ensures forall i | 0 <= i < |cs| && !lay.ls[i].LNull? :: cs[j := Off][i].Off?
  {
    forall i | 0 <= i < |cs| && i != j ensures cs[i].Off? { assert cs[j := Off][i] == cs[i]; }
    forall t ensures t in Slots(Many(cs)) <==> t in Slots(cs[j]) { }
  }

  lemma {:induction false} LastCounts(lay: Lay, cs: seq<Ctl>, j: nat)
    requires Fit(lay, Many(cs)) && j < |cs| && (forall i | 0 <= i < |cs| && i != j :: cs[i].Off?)
    requires forall x :: Count(lay.ls[j], cs[j], x) == 0
    ensures forall x | x != lay.tix :: Count(lay, Many(cs), x) == 0
  {
    forall x | x != lay.tix ensures Count(lay, Many(cs), x) == 0 { SumCountOnly(lay.ls, cs, x, j); }
  }

  lemma SumLeavesOff(cs: seq<Ctl>)
    requires AllOff(cs)
    ensures SumLeaves(cs) == 0
  {
  }

  lemma {:induction false} EarlyArrives(lay: Lay, cs: seq<Ctl>, j: nat, s: nat)
    requires Sound(lay) && Fit(lay, Many(cs)) && s in Slots(Many(cs)) && j == Owner(cs, s)
    requires Slots(cs[j]) == {s} && Leaves(cs[j]) == 1 && forall x :: Count(lay.ls[j], cs[j], x) == 0
    requires !AllOff(cs[j := Off])
    ensures Fit(lay, Many(cs[j := Off])) && Released(lay, Many(cs), Many(cs[j := Off]), s)
    ensures Count(lay, Many(cs[j := Off]), lay.tix) == Count(lay, Many(cs), lay.tix) + 1 < Busy(lay.ls)
    ensures forall x | x != lay.tix :: Count(lay, Many(cs[j := Off]), x) == Count(lay, Many(cs), x)
  {
    hide Sound, SumLeaves, Arrived, SumCount, Busy, SlotsApart, Slots, At;
    var cs' := cs[j := Off];
    var i :| 0 <= i < |cs| && !cs'[i].Off?;
    assert cs'[i] == cs[i] && i != j;
    BusyBranch(lay.ls[i], cs[i]);
    BusyBranch(lay.ls[j], cs[j]);
    OffAlone(lay, cs, j, s);
    ManyReleased(lay, cs, j, Off, s);
    ArrivedSet(lay.ls, cs, j, Off);
    ArrivedAll(lay.ls, cs');
    forall x | x != lay.tix ensures Count(lay, Many(cs'), x) == Count(lay, Many(cs), x) {
      ManySetCount(lay, cs, j, Off, x);
    }
  }

  lemma OffAlone(lay: Lay, cs: seq<Ctl>, j: nat, s: nat)
    requires Fit(lay, Many(cs)) && j < |cs| && Slots(cs[j]) == {s} && Leaves(cs[j]) == 1
    ensures Fit(lay.ls[j], Off) && Released(lay.ls[j], cs[j], Off, s)
  {
  }

  /**
   A thread leaving its part: either the whole statement is left, for the continuation, or the thread has
   moved to the node `next` points to.
   */
  ghost predicate Left(g: seq<Node>, lay: Lay, c: Ctl, s: nat, r: Res, k: Option<nat>)
    requires Fit(lay, c) && s in Slots(c)
  {
    && At(lay, c, s) < |g|
    && match r
       case Exit => Alone(lay, c, s) && g[At(lay, c, s)].next == k
       case Stay(c') => g[At(lay, c, s)].next.Some? && Moved(g, lay, c, c', s, g[At(lay, c, s)].next.value)
  }

  /** The thread in slot s is the only one left in the statement. */
  ghost predicate Alone(lay: Lay, c: Ctl, s: nat)
    requires Fit(lay, c)
  {
    Slots(c) == {s} && Leaves(c) == 1 && forall x: nat :: Count(lay, c, x) == 0
  }

  lemma {:induction false} UpExit(g: seq<Node>, lay: Lay, c: Ctl, s: nat, k: Option<nat>)
    requires Sound(lay) && Links(g, lay, k) && Fit(lay, c) && s in Slots(c) && Leaving(Leaf(lay, c, s))
    ensures Left(g, lay, c, s, Up(lay, c, s, Exit), k)
    decreases c
  {
    hide NodesApart, SlotsApart, IdsApart;
    match c
    case In(i, d) =>
      if lay.LSemi? {
        UpExit(g, lay.ls[i], d, s, FirstEntry(lay.ls, i + 1, k));
        SemiLeft(g, lay, i, d, s, k);
      } else {
        UpExit(g, lay.ls[i], d, s, Some(if lay.isLoop then lay.n else lay.stop));
        BranchLeft(g, lay, i, d, s, k);
      }
    case Many(cs) =>
      var j := Owner(cs, s);
      assert Leaf(lay, c, s) == Leaf(lay.ls[j], cs[j], s);
      UpExit(g, lay.ls[j], cs[j], s, Some(lay.join));
      CommaLeft(g, lay, cs, j, s, k);
    case _ =>
  }

  lemma {:induction false} SemiLeft(g: seq<Node>, lay: Lay, i: nat, d: Ctl, s: nat, k: Option<nat>)
    requires Sound(lay) && lay.LSemi? && Links(g, lay, k) && Fit(lay, In(i, d)) && s in Slots(d)
    requires Left(g, lay.ls[i], d, s, Up(lay.ls[i], d, s, Exit), FirstEntry(lay.ls, i + 1, k))
    ensures Left(g, lay, In(i, d), s, Up(lay, In(i, d), s, Exit), k)
  {
    hide NodesApart, SlotsApart, IdsApart;
    match Up(lay.ls[i], d, s, Exit)
    case Stay(d') => InMoved(g, lay, i, d, d', s, g[At(lay.ls[i], d, s)].next.value);
    case Exit => SemiNextPart(g, lay, i, d, s, k);
  }

  lemma {:induction false} SemiNextPart(g: seq<Node>, lay: Lay, i: nat, d: Ctl, s: nat, k: Option<nat>)
    requires Sound(lay) && lay.LSemi? && Links(g, lay, k) && Fit(lay, In(i, d)) && s in Slots(d)
    requires Up(lay.ls[i], d, s, Exit).Exit?
    requires Left(g, lay.ls[i], d, s, Exit, FirstEntry(lay.ls, i + 1, k))
    ensures Left(g, lay, In(i, d), s, Up(lay, In(i, d), s, Exit), k)
  {
    hide Fit, Slots, At, Count, Leaves, Links, Sound, Enter, Entry, FirstEntry, FirstBusy;
    InFits(lay, i, d);
    InIs(lay, i, d);
    FirstBusyIs(lay.ls, i + 1, k);
    if FirstBusy(lay.ls, i + 1).Some? {
      NextPart(g, lay, FirstBusy(lay.ls, i + 1).value, s, k);
    }
  }

  lemma {:induction false} NextPart(g: seq<Node>, lay: Lay, j: nat, s: nat, k: Option<nat>)
    requires Sound(lay) && lay.LSemi? && Links(g, lay, k) && j < |lay.ls| && !lay.ls[j].LNull?
    ensures Fit(lay, In(j, Enter(lay.ls[j], s))) && Alone(lay, In(j, Enter(lay.ls[j], s)), s)
    ensures Entry(lay.ls[j]) == Some(At(lay, In(j, Enter(lay.ls[j], s)), s))
    ensures Entry(lay.ls[j]).value < |g| && g[Entry(lay.ls[j]).value].wait == 0
  {
    EnterFits(lay.ls[j], s);
    EntryStmt(g, lay.ls[j], FirstEntry(lay.ls, j + 1, k));
    InCounts(lay, j, Enter(lay.ls[j], s));
  }

  lemma {:induction false} BranchLeft(g: seq<Node>, lay: Lay, i: nat, d: Ctl, s: nat, k: Option<nat>)
    requires Sound(lay) && lay.LBranch? && Links(g, lay, k) && Fit(lay, In(i, d)) && s in Slots(d)
    requires Left(g, lay.ls[i], d, s, Up(lay.ls[i], d, s, Exit), Some(if lay.isLoop then lay.n else lay.stop))
    ensures Left(g, lay, In(i, d), s, Up(lay, In(i, d), s, Exit), k)
  {
    match Up(lay.ls[i], d, s, Exit)
    case Stay(d') => InMoved(g, lay, i, d, d', s, g[At(lay.ls[i], d, s)].next.value);
    case Exit => InCounts(lay, i, d);
  }

  lemma {:induction false} CommaLeft(g: seq<Node>, lay: Lay, cs: seq<Ctl>, j: nat, s: nat, k: Option<nat>)
    requires Sound(lay) && Links(g, lay, k) && Fit(lay, Many(cs)) && s in Slots(Many(cs)) && j == Owner(cs, s)
    requires Left(g, lay.ls[j], cs[j], s, Up(lay.ls[j], cs[j], s, Exit), Some(lay.join))
    ensures Left(g, lay, Many(cs), s, Up(lay, Many(cs), s, Exit), k)
  {
    match Up(lay.ls[j], cs[j], s, Exit)
    case Stay(d) => ManyMoved(g, lay, cs, j, d, s, g[At(lay.ls[j], cs[j], s)].next.value);
    case Exit =>
      BusyBranch(lay.ls[j], cs[j]);
      BusyPositive(lay.ls);
      BranchArrives(g, lay, cs, j, s, k);
  }
}
