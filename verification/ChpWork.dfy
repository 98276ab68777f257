/**
 A bound on the bookkeeping left before every thread is at an action, a selection or a loop: forks, idle
 nodes and closing nodes still to be passed. Bookkeeping makes it smaller, so it cannot go on for ever.
 */
module ChpWork {
  import opened Prelude
  import opened ChpLang
  import opened ChpGraph
  import opened ChpControl

  function Work(lay: Lay): nat
  {
    match lay
    case LNop(_) => 1
    case LSemi(_, ls) => WorkFrom(ls, 0)
    case LComma(_, _, _, _, ls) => 2 + WorkFrom(ls, 0)
    case _ => 0
  }

  function WorkFrom(ls: seq<Lay>, i: nat): nat
    decreases ls, if i <= |ls| then |ls| - i else 0
  {
    if i >= |ls| then 0 else Work(ls[i]) + WorkFrom(ls, i + 1)
  }

  ghost function Weight(lay: Lay, c: Ctl): nat
    requires Fit(lay, c)
    decreases c
  {
    match c
    case Off => 0
    case Here(_) => Work(lay)
    case Fin(_) => 1
    case In(i, d) => Weight(lay.ls[i], d) + if lay.LSemi? then WorkFrom(lay.ls, i + 1) else if lay.isLoop then 0 else 1
    case Many(cs) => 1 + SumWeight(lay.ls, cs, 0)
  }

  ghost function SumWeight(ls: seq<Lay>, cs: seq<Ctl>, i: nat): nat
    requires |ls| == |cs| && forall j | 0 <= j < |cs| :: Fit(ls[j], cs[j])
    decreases cs, if i <= |cs| then |cs| - i else 0
  {
    if i >= |cs| then 0 else Weight(ls[i], cs[i]) + SumWeight(ls, cs, i + 1)
  }

  lemma {:induction false} SumWeightSame(ls: seq<Lay>, cs: seq<Ctl>, cs': seq<Ctl>, i: nat)
    requires |ls| == |cs| == |cs'| && forall j | 0 <= j < |cs| :: Fit(ls[j], cs[j]) && Fit(ls[j], cs'[j])
    requires forall j | i <= j < |cs| :: cs'[j] == cs[j]
    ensures SumWeight(ls, cs', i) == SumWeight(ls, cs, i)
    decreases |cs| - i
  {
    if i < |cs| { SumWeightSame(ls, cs, cs', i + 1); }
  }

  lemma {:induction false} SumWeightSet(ls: seq<Lay>, cs: seq<Ctl>, j: nat, d: Ctl, i: nat)
    requires |ls| == |cs| && (forall k | 0 <= k < |cs| :: Fit(ls[k], cs[k])) && i <= j < |cs| && Fit(ls[j], d)
    requires forall k | 0 <= k < |cs| :: Fit(ls[k], cs[j := d][k])
    ensures SumWeight(ls, cs[j := d], i) == SumWeight(ls, cs, i) - Weight(ls[j], cs[j]) + Weight(ls[j], d)
    ensures Weight(ls[j], cs[j]) <= SumWeight(ls, cs, i)
    decreases j - i
  {
    if i < j { SumWeightSet(ls, cs, j, d, i + 1); } else { SumWeightSame(ls, cs, cs[j := d], j + 1); }
  }

  lemma {:induction false} WorkSkips(ls: seq<Lay>, i: nat)
    ensures match FirstBusy(ls, i)
            case None => WorkFrom(ls, i) == 0
            case Some(j) => j < |ls| && WorkFrom(ls, i) == Work(ls[j]) + WorkFrom(ls, j + 1)
    decreases if i <= |ls| then |ls| - i else 0
  {
    if i < |ls| && ls[i].LNull? { WorkSkips(ls, i + 1); }
  }

  lemma {:induction false} EnterWeight(lay: Lay, s: nat)
    requires Fit(lay, Enter(lay, s))
    ensures Weight(lay, Enter(lay, s)) == Work(lay)
    decreases lay
  {
    if lay.LSemi? {
      WorkSkips(lay.ls, 0);
      if FirstBusy(lay.ls, 0).Some? { EnterWeight(lay.ls[FirstBusy(lay.ls, 0).value], s); }
    }
  }

  ghost function ResWeight(lay: Lay, r: Res): nat
    requires r.Stay? ==> Fit(lay, r.c)
  {
    if r.Stay? then Weight(lay, r.c) else 0
  }

  /** A leaf that gets lighter makes the whole tree lighter. */
  lemma {:induction false} UpWeight(lay: Lay, c: Ctl, s: nat, r: Res)
    requires Fit(lay, c) && s in Slots(c) && UpFits(lay, c, s, r)
    requires Fit(Leaf(lay, c, s).0, Leaf(lay, c, s).1) && Fits(Leaf(lay, c, s).0, r)
    requires ResWeight(Leaf(lay, c, s).0, r) < Weight(Leaf(lay, c, s).0, Leaf(lay, c, s).1)
    ensures ResWeight(lay, Up(lay, c, s, r)) < Weight(lay, c)
    decreases c
  {
    hide SlotsApart, AllOff, Work, WorkFrom, SumWeight, Enter;
    match c
    case In(i, d) =>
      UpWeight(lay.ls[i], d, s, r);
      UpWeightIn(lay, i, d, s, r);
    case Many(cs) => UpWeightMany(lay, cs, s, r);
    case _ =>
  }

  lemma {:induction false} UpWeightIn(lay: Lay, i: nat, d: Ctl, s: nat, r: Res)
    requires Fit(lay, In(i, d)) && s in Slots(d) && UpFits(lay, In(i, d), s, r)
    requires ResWeight(lay.ls[i], Up(lay.ls[i], d, s, r)) < Weight(lay.ls[i], d)
    ensures ResWeight(lay, Up(lay, In(i, d), s, r)) < Weight(lay, In(i, d))
  {
    hide Slots, SlotsApart, AllOff, Leaf, Enter, FirstBusy;
    if Up(lay.ls[i], d, s, r).Exit? && lay.LSemi? {
      WorkSkips(lay.ls, i + 1);
      if FirstBusy(lay.ls, i + 1).Some? { EnterWeight(lay.ls[FirstBusy(lay.ls, i + 1).value], s); }
    }
  }

  lemma {:induction false} UpWeightMany(lay: Lay, cs: seq<Ctl>, s: nat, r: Res)
    requires Fit(lay, Many(cs)) && s in Slots(Many(cs)) && UpFits(lay, Many(cs), s, r)
    requires Fit(Leaf(lay, Many(cs), s).0, Leaf(lay, Many(cs), s).1) && Fits(Leaf(lay, Many(cs), s).0, r)
    requires ResWeight(Leaf(lay, Many(cs), s).0, r) < Weight(Leaf(lay, Many(cs), s).0, Leaf(lay, Many(cs), s).1)
    ensures ResWeight(lay, Up(lay, Many(cs), s, r)) < Weight(lay, Many(cs))
    decreases cs
  {
    hide SlotsApart;
    var j := Owner(cs, s);
    UpWeight(lay.ls[j], cs[j], s, r);
    var u := Up(lay.ls[j], cs[j], s, r);
    SumWeightSet(lay.ls, cs, j, if u.Stay? then u.c else Off, 0);
  }

  /** The branches of a fork together are lighter than the fork. */
  lemma {:induction false} ForkWeight(lay: Lay, cs: seq<Ctl>, sl: seq<nat>, s: nat)
    requires lay.LComma? && |cs| == |sl| == |lay.ls| && Fit(lay, Many(cs))
    requires forall j | 0 <= j < |cs| :: cs[j] == Enter(lay.ls[j], sl[j])
    ensures Weight(lay, Many(cs)) < Weight(lay, Here(s))
  {
    EnterSum(lay.ls, cs, sl, 0);
  }

  lemma {:induction false} EnterSum(ls: seq<Lay>, cs: seq<Ctl>, sl: seq<nat>, i: nat)
    requires |cs| == |sl| == |ls| && i <= |cs| && forall j | 0 <= j < |cs| :: Fit(ls[j], cs[j])
    requires forall j | 0 <= j < |cs| :: cs[j] == Enter(ls[j], sl[j])
    ensures SumWeight(ls, cs, i) == WorkFrom(ls, i)
    decreases |cs| - i
  {
    if i < |cs| {
      EnterWeight(ls[i], sl[i]);
      EnterSum(ls, cs, sl, i + 1);
    }
  }

  /** The bookkeeping left, for any tree. */
  ghost function Load(lay: Lay, c: Ctl): nat
  {
    if Fit(lay, c) then Weight(lay, c) else 0
  }

  /** Leaving a node that is not an action is bookkeeping. */
  lemma {:induction false} LeaveLoad(lay: Lay, c: Ctl, s: nat)
    requires Fit(lay, c) && s in Slots(c) && UpFits(lay, c, s, Exit) && Fit(Leaf(lay, c, s).0, Leaf(lay, c, s).1)
    requires Leaf(lay, c, s).0.LNop? || Leaf(lay, c, s).1.Fin?
    requires Leaf(lay, c, s).1.Here? || Leaf(lay, c, s).1.Fin?
    ensures match Up(lay, c, s, Exit) case Stay(d) => Load(lay, d) < Load(lay, c) case Exit => 0 < Load(lay, c)
  {
    UpWeight(lay, c, s, Exit);
  }
}
