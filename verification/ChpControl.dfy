/**
 Where control is while a statement runs: a tree over its layout with one leaf per live thread.

 From a tree one reads off which node each thread is at, the value of every join counter, how many threads
 there are, and the term that is left to run. `Up` says what becomes of the tree when one thread does
 something at its leaf.
 */
module ChpControl {
  import opened Prelude
  import opened ChpLang
  import opened ChpGraph

  datatype Ctl =
    | Off                          // no thread here: not started, or finished
    | Here(s: nat)                 // the thread in slot s is at the first node
    | Fin(s: nat)                  // the thread in slot s is at the closing node
    | In(i: nat, c: Ctl)           // control is inside the i-th part
    | Many(cs: seq<Ctl>)           // one tree per branch of a comma

  function Parts(lay: Lay): seq<Lay>
  {
    if lay.LSemi? || lay.LComma? || lay.LBranch? then lay.ls else []
  }

  function Slots(c: Ctl): set<nat>
  {
    match c
    case Off => {}
    case Here(s) => {s}
    case Fin(s) => {s}
    case In(_, d) => Slots(d)
    case Many(cs) => set j, s | 0 <= j < |cs| && s in Slots(cs[j]) :: s
  }

  ghost predicate SlotsApart(cs: seq<Ctl>)
  {
    forall i, j | 0 <= i < j < |cs| :: Slots(cs[i]) !! Slots(cs[j])
  }

  predicate AllOff(cs: seq<Ctl>)
  {
    forall j | 0 <= j < |cs| :: cs[j].Off?
  }

  /** The tree has the shape of the layout, and no slot is used twice. */
  ghost predicate Fit(lay: Lay, c: Ctl)
  {
    match c
    case Off => true
    case Here(_) => lay.LAct? || lay.LNop? || lay.LComma? || lay.LBranch?
    case Fin(_) => lay.LComma? || lay.LBranch?
    case In(i, d) => (lay.LSemi? || lay.LBranch?) && i < |lay.ls| && !d.Off? && Fit(lay.ls[i], d)
    case Many(cs) =>
      && lay.LComma? && |cs| == |lay.ls| && SlotsApart(cs)
      && !AllOff(cs)
      && forall j | 0 <= j < |cs| :: Fit(lay.ls[j], cs[j])
  }

  /** The branch a slot belongs to. */
  ghost function Owner(cs: seq<Ctl>, s: nat): (j: nat)
    requires s in Slots(Many(cs))
    ensures j < |cs| && s in Slots(cs[j])
  {
    var j :| 0 <= j < |cs| && s in Slots(cs[j]);
    j
  }

  /** The node the thread in slot s is at. */
  ghost function At(lay: Lay, c: Ctl, s: nat): nat
    requires Fit(lay, c) && s in Slots(c)
    decreases c
  {
    match c
    case Here(_) => Entry1(lay)
    case Fin(_) => Stop(lay)
    case In(i, d) => At(lay.ls[i], d, s)
    case Many(cs) => At(lay.ls[Owner(cs, s)], cs[Owner(cs, s)], s)
  }

  function Entry1(lay: Lay): nat
  {
    match lay
    case LAct(n, _) => n
    case LNop(n) => n
    case LComma(f, _, _, _, _) => f
    case LBranch(n, _, _, _, _, _, _) => n
    case _ => 0
  }

  /** The number of live threads. */
  function Leaves(c: Ctl): nat
  {
    match c
    case Off => 0
    case Here(_) => 1
    case Fin(_) => 1
    case In(_, d) => Leaves(d)
    case Many(cs) => SumLeaves(cs)
  }

  function SumLeaves(cs: seq<Ctl>): nat
  {
    if cs == [] then 0 else SumLeaves(cs[..|cs| - 1]) + Leaves(cs[|cs| - 1])
  }

  /** How many branches have arrived at their join. */
  function Arrived(ls: seq<Lay>, cs: seq<Ctl>): nat
    requires |ls| == |cs|
  {
    if ls == [] then 0
    else Arrived(ls[..|ls| - 1], cs[..|cs| - 1]) + if !ls[|ls| - 1].LNull? && cs[|cs| - 1].Off? then 1 else 0
  }

  /** The value join counter x has. */
  ghost function Count(lay: Lay, c: Ctl, x: nat): nat
    requires Fit(lay, c)
    decreases c
  {
    match c
    case Off => 0
    case Here(_) => 0
    case Fin(_) => 0
    case In(i, d) => Count(lay.ls[i], d, x)
    case Many(cs) => if x == lay.tix then Arrived(lay.ls, cs) else SumCount(lay.ls, cs, x)
  }

  ghost function SumCount(ls: seq<Lay>, cs: seq<Ctl>, x: nat): nat
    requires |ls| == |cs| && forall j | 0 <= j < |cs| :: Fit(ls[j], cs[j])
    decreases cs
  {
    if cs == [] then 0
    else SumCount(ls[..|ls| - 1], cs[..|cs| - 1], x) + Count(ls[|ls| - 1], cs[|cs| - 1], x)
  }

  /** What is left to run. */
  ghost function Term(lay: Lay, c: Ctl): Cmd
    requires Fit(lay, c) && Sound(lay)
    decreases c
  {
    match c
    case Off => Skip
    case Fin(_) => Skip
    case Here(_) =>
      (match lay
       case LAct(_, a) => Act(a)
       case LComma(_, _, _, cs, _) => Par(ReadyAll(cs))
       case LBranch(_, _, isLoop, arb, guards, bs, _) => BranchTerm(isLoop, arb, guards, bs)
       case _ => Skip)
    case In(i, d) =>
      var t := Term(lay.ls[i], d);
      if lay.LSemi? then Then(t, lay.cs[i + 1..])
      else if lay.isLoop then ThenLoop(t, BranchTerm(true, lay.arb, lay.guards, lay.bs)) else t
    case Many(cs) => Par(TermAll(lay.ls, cs))
  }

  function BranchTerm(isLoop: bool, arb: bool, guards: seq<Option<nat>>, bs: seq<Cmd>): Cmd
  {
    if isLoop then Loop(guards, bs) else Select(arb, guards, bs)
  }

  ghost function TermAll(ls: seq<Lay>, cs: seq<Ctl>): (r: seq<Cmd>)
    requires |ls| == |cs|
    requires forall j | 0 <= j < |cs| :: Fit(ls[j], cs[j]) && Sound(ls[j])
    ensures |r| == |cs|
    ensures forall j | 0 <= j < |cs| :: r[j] == Term(ls[j], cs[j])
    decreases cs
  {
    seq(|cs|, j requires 0 <= j < |cs| => Term(ls[j], cs[j]))
  }

  // ----- entering a statement

  /** The first position at or after i that has nodes. */
  function FirstBusy(ls: seq<Lay>, i: nat): Option<nat>
    decreases if i <= |ls| then |ls| - i else 0
  {
    if i >= |ls| then None else if ls[i].LNull? then FirstBusy(ls, i + 1) else Some(i)
  }

  lemma FirstBusyIs(ls: seq<Lay>, i: nat, k: Option<nat>)
    ensures match FirstBusy(ls, i)
            case None => (forall j | i <= j < |ls| :: ls[j].LNull?) && FirstEntry(ls, i, k) == k
            case Some(m) => i <= m < |ls| && !ls[m].LNull? && (forall j | i <= j < m :: ls[j].LNull?)
                            && FirstEntry(ls, i, k) == Entry(ls[m])
    decreases if i <= |ls| then |ls| - i else 0
  {
    if i < |ls| && ls[i].LNull? { FirstBusyIs(ls, i + 1, k); }
  }

  /** One thread starting a statement. */
  function Enter(lay: Lay, s: nat): Ctl
  {
    match lay
    case LNull => Off
    case LSemi(_, ls) =>
      (match FirstBusy(ls, 0)
       case None => Off
       case Some(i) => FirstBusyIn(ls, 0); In(i, Enter(ls[i], s)))
    case _ => Here(s)
  }

  lemma FirstBusyIn(ls: seq<Lay>, i: nat)
    ensures FirstBusy(ls, i).Some? ==> i <= FirstBusy(ls, i).value < |ls|
  {
    FirstBusyIs(ls, i, None);
  }

  lemma {:induction false} EnterFits(lay: Lay, s: nat)
    requires Sound(lay) && !lay.LNull?
    ensures !Enter(lay, s).Off? && Fit(lay, Enter(lay, s)) && Slots(Enter(lay, s)) == {s} && Leaves(Enter(lay, s)) == 1
    ensures Entry(lay) == Some(At(lay, Enter(lay, s), s))
    ensures forall x :: Count(lay, Enter(lay, s), x) == 0
    decreases lay
  {
    if lay.LSemi? {
      FirstBusyIs(lay.ls, 0, None);
      var m :| 0 <= m < |lay.ls| && !lay.ls[m].LNull?;
      var i := FirstBusy(lay.ls, 0).value;
      EnterFits(lay.ls[i], s);
    }
  }

  lemma ReadySeqDrop(cs: seq<Cmd>, i: nat)
    requires i <= |cs| && forall j | 0 <= j < i :: Ready(cs[j]).Skip?
    ensures ReadySeq(cs) == ReadySeq(cs[i..])
    decreases i
  {
    if i == 0 {
      assert cs[0..] == cs;
    } else {
      ReadySeqDrop(cs[1..], i - 1);
      assert cs[1..][i - 1..] == cs[i..];
    }
  }

  lemma ReadySeqThen(cs: seq<Cmd>, i: nat)
    requires i < |cs| && forall j | 0 <= j < i :: Ready(cs[j]).Skip?
    ensures ReadySeq(cs) == Then(Ready(cs[i]), cs[i + 1..])
  {
    ReadySeqDrop(cs, i);
    assert cs[i..][0] == cs[i] && cs[i..][1..] == cs[i + 1..];
    if Ready(cs[i]).Skip? { } else if cs[i + 1..] == [] { } else { }
  }

  /** Starting a statement leaves all of it to run. */
  lemma {:induction false} EnterTerm(c: Cmd, lay: Lay, s: nat)
    requires Of(c, lay) && Sound(lay) && !lay.LNull? && Fit(lay, Enter(lay, s))
    ensures Term(lay, Enter(lay, s)) == Ready(c)
    decreases c
  {
    if lay.LNop? || lay.LAct? || lay.LBranch? {
      EnterLeaf(c, lay, s);
    } else {
      match c
      case Semi(cs) =>
        if |cs| == 1 {
          EnterTerm(cs[0], lay, s);
          ReadySeqThen(cs, 0);
        } else {
          FirstBusyIs(lay.ls, 0, None);
          var i := FirstBusy(lay.ls, 0).value;
          EnterTerm(cs[i], lay.ls[i], s);
          EnterSemi(cs, lay, i, s);
        }
      case Comma(cs) =>
        if |cs| == 1 {
          EnterTerm(cs[0], lay, s);
          assert ReadyAll(cs) == [Ready(cs[0])];
        }
      case DoLoop(g, body) =>
        EnterTerm(body, lay.ls[0], s);
        EnterDoLoop(g, body, lay, s);
      case _ =>
    }
  }

  lemma {:induction false} EnterLeaf(c: Cmd, lay: Lay, s: nat)
    requires Of(c, lay) && Sound(lay) && (lay.LNop? || lay.LAct? || lay.LBranch?)
    ensures Term(lay, Here(s)) == Ready(c)
    decreases c
  {
    match c
    case Semi(cs) =>
      if |cs| == 1 {
        if !lay.LNop? { EnterLeaf(cs[0], lay, s); ReadySeqThen(cs, 0); }
      }
    case Comma(cs) =>
      if |cs| == 1 {
        if !lay.LNop? { EnterLeaf(cs[0], lay, s); assert ReadyAll(cs) == [Ready(cs[0])]; }
      }
    case _ =>
  }

  lemma {:induction false} EnterSemi(cs: seq<Cmd>, lay: Lay, i: nat, s: nat)
    requires Sound(lay) && lay.LSemi? && lay.cs == cs && FirstBusy(lay.ls, 0) == Some(i) && i < |cs|
    requires forall j | 0 <= j < |cs| :: Of(cs[j], lay.ls[j])
    requires Fit(lay.ls[i], Enter(lay.ls[i], s)) && Term(lay.ls[i], Enter(lay.ls[i], s)) == Ready(cs[i])
    requires Fit(lay, Enter(lay, s))
    ensures Term(lay, Enter(lay, s)) == ReadySeq(cs)
  {
    FirstBusyIs(lay.ls, 0, None);
    forall j | 0 <= j < i ensures Ready(cs[j]).Skip? {
      assert lay.ls[j].LNull? && Of(cs[j], lay.ls[j]);
    }
    ReadySeqThen(cs, i);
  }

  lemma {:induction false} EnterDoLoop(g: Option<nat>, body: Cmd, lay: Lay, s: nat)
    requires Sound(lay) && Of(DoLoop(g, body), lay) && lay.LSemi?
    requires Fit(lay, Enter(lay, s))
    requires Term(lay.ls[0], Enter(lay.ls[0], s)) == Ready(body)
    ensures Term(lay, Enter(lay, s)) == Ready(DoLoop(g, body))
  {
    var loop := Loop([g], [body]);
    assert FirstBusy(lay.ls, 0) == Some(0);
    assert lay.cs[1..] == [loop];
    assert ReadySeq([loop]) == loop;
  }

  // ----- one thread acting at its leaf

  /** What happens to a part: it stays, in a new shape, or its last thread leaves it. */
  datatype Res = Stay(c: Ctl) | Exit

  /** What is left of the tree. */
  function After(r: Res): Ctl
  {
    if r.Stay? then r.c else Off
  }

  ghost function Leaf(lay: Lay, c: Ctl, s: nat): (Lay, Ctl)
    requires Fit(lay, c) && s in Slots(c)
    decreases c
  {
    match c
    case In(i, d) => Leaf(lay.ls[i], d, s)
    case Many(cs) => Leaf(lay.ls[Owner(cs, s)], cs[Owner(cs, s)], s)
    case _ => (lay, c)
  }

  /**
   Replaces the leaf of slot s by r. A thread that leaves a part goes on to the next part of a sequence,
   back to the loop node, to the closing node of a selection, or to the join, where it goes on only if all
   other branches have arrived.
   */
  ghost function Up(lay: Lay, c: Ctl, s: nat, r: Res): Res
    requires Fit(lay, c) && s in Slots(c)
    decreases c
  {
    match c
    case In(i, d) =>
      (match Up(lay.ls[i], d, s, r)
       case Stay(d') => Stay(In(i, d'))
       case Exit =>
         if lay.LSemi? then
           (match FirstBusy(lay.ls, i + 1)
            case None => Exit
            case Some(j) => FirstBusyIn(lay.ls, i + 1); Stay(In(j, Enter(lay.ls[j], s))))
         else Stay(if lay.isLoop then Here(s) else Fin(s)))
    case Many(cs) =>
      var j := Owner(cs, s);
      (match Up(lay.ls[j], cs[j], s, r)
       case Stay(d') => Stay(Many(cs[j := d']))
       case Exit =>
         var cs' := cs[j := Off];
         if AllOff(cs') then Stay(Fin(s)) else Stay(Many(cs')))
    case _ => r
  }

  ghost predicate Fits(lay: Lay, r: Res)
  {
    r.Stay? ==> Fit(lay, r.c)
  }

  /** Every tree on the way up has the shape of its layout. */
  ghost predicate UpFits(lay: Lay, c: Ctl, s: nat, r: Res)
    requires Fit(lay, c) && s in Slots(c)
    decreases c
  {
    && Fits(lay, Up(lay, c, s, r))
    && match c
       case In(i, d) => UpFits(lay.ls[i], d, s, r)
       case Many(cs) => UpFits(lay.ls[Owner(cs, s)], cs[Owner(cs, s)], s, r)
       case _ => true
  }

  // ----- replacing one branch of a comma

  lemma OwnerIs(cs: seq<Ctl>, j: nat, s: nat)
    requires j < |cs| && SlotsApart(cs) && s in Slots(cs[j])
    ensures s in Slots(Many(cs)) && Owner(cs, s) == j
  {
  }

  lemma SumLeavesSet(cs: seq<Ctl>, j: nat, d: Ctl)
    requires j < |cs|
    ensures SumLeaves(cs[j := d]) == SumLeaves(cs) - Leaves(cs[j]) + Leaves(d)
    ensures Leaves(cs[j]) <= SumLeaves(cs)
  {
    var n := |cs| - 1;
    if j < n {
      SumLeavesSet(cs[..n], j, d);
      assert cs[j := d][..n] == cs[..n][j := d];
    } else {
      assert cs[j := d][..n] == cs[..n];
    }
  }

  lemma {:induction false} SumCountSet(ls: seq<Lay>, cs: seq<Ctl>, x: nat, j: nat, d: Ctl)
    requires |ls| == |cs| && (forall i | 0 <= i < |cs| :: Fit(ls[i], cs[i])) && j < |cs| && Fit(ls[j], d)
    ensures SumCount(ls, cs[j := d], x) == SumCount(ls, cs, x) - Count(ls[j], cs[j], x) + Count(ls[j], d, x)
    ensures Count(ls[j], cs[j], x) <= SumCount(ls, cs, x)
    decreases |cs|
  {
    var n := |cs| - 1;
    if j < n {
      SumCountSet(ls[..n], cs[..n], x, j, d);
      assert cs[j := d][..n] == cs[..n][j := d];
    } else {
      assert cs[j := d][..n] == cs[..n];
    }
  }

  lemma ArrivedSet(ls: seq<Lay>, cs: seq<Ctl>, j: nat, d: Ctl)
    requires |ls| == |cs| && j < |cs| && !ls[j].LNull?
    ensures Arrived(ls, cs[j := d]) == Arrived(ls, cs) - (if cs[j].Off? then 1 else 0) + if d.Off? then 1 else 0
    ensures cs[j].Off? ==> Arrived(ls, cs) >= 1
    decreases |cs|
  {
    var n := |cs| - 1;
    if j < n {
      ArrivedSet(ls[..n], cs[..n], j, d);
      assert cs[j := d][..n] == cs[..n][j := d];
    } else {
      assert cs[j := d][..n] == cs[..n];
    }
  }

  /** The join is complete exactly when every branch that has nodes has arrived. */
  lemma ArrivedAll(ls: seq<Lay>, cs: seq<Ctl>)
    requires |ls| == |cs|
    ensures Arrived(ls, cs) <= Busy(ls)
    ensures Arrived(ls, cs) == Busy(ls) <==> forall j | 0 <= j < |cs| && !ls[j].LNull? :: cs[j].Off?
    decreases |cs|
  {
    if ls != [] {
      var n := |ls| - 1;
      ArrivedAll(ls[..n], cs[..n]);
      assert forall j | 0 <= j < n :: ls[..n][j] == ls[j] && cs[..n][j] == cs[j];
    }
  }

  lemma {:induction false} CountOutside(lay: Lay, c: Ctl, x: nat)
    requires Fit(lay, c) && x !in Ids(lay)
    ensures Count(lay, c, x) == 0
    decreases c
  {
    match c
    case In(i, d) =>
      SubNodes(lay.ls, i);
      CountOutside(lay.ls[i], d, x);
    case Many(cs) =>
      forall i | 0 <= i < |cs| ensures Count(lay.ls[i], cs[i], x) == 0 {
        SubNodes(lay.ls, i);
        CountOutside(lay.ls[i], cs[i], x);
      }
      if |cs| > 0 { SumCountOnly(lay.ls, cs, x, 0); }
    case _ =>
  }

  /** A counter that is zero in all other branches is counted by branch j alone. */
  lemma {:induction false} SumCountOnly(ls: seq<Lay>, cs: seq<Ctl>, x: nat, j: nat)
    requires |ls| == |cs| && (forall i | 0 <= i < |cs| :: Fit(ls[i], cs[i]))
    requires forall i | 0 <= i < |cs| && i != j :: Count(ls[i], cs[i], x) == 0
    ensures SumCount(ls, cs, x) == if j < |cs| then Count(ls[j], cs[j], x) else 0
    decreases |cs|
  {
    if cs != [] {
      var n := |cs| - 1;
      assert forall i | 0 <= i < n :: ls[..n][i] == ls[i] && cs[..n][i] == cs[i];
      SumCountOnly(ls[..n], cs[..n], x, j);
    }
  }
}
