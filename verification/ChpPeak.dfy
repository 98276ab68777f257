/**
 How many threads a statement can have at once, and how many joins can be open at once: the numbers of program
 counters and join counters that a statement needs, and what the simulator reserves for it.
 */
module ChpPeak {
  import opened Prelude
  import opened ChpLang
  import opened ChpGraph
  import opened ChpControl
  import opened ChpExec

  /** What is counted. */
  datatype Kind = Threads | Joins

  /** The joins under which control is. */
  function Open(d: Ctl): nat
  {
    match d
    case In(_, e) => Open(e)
    case Many(ds) => 1 + SumOpen(ds)
    case _ => 0
  }

  function SumOpen(ds: seq<Ctl>): nat
  {
    if ds == [] then 0 else SumOpen(ds[..|ds| - 1]) + Open(ds[|ds| - 1])
  }

  function Measure(k: Kind, d: Ctl): nat
  {
    if k.Threads? then Leaves(d) else Open(d)
  }

  function SumMeasure(k: Kind, ds: seq<Ctl>): nat
  {
    if ds == [] then 0 else SumMeasure(k, ds[..|ds| - 1]) + Measure(k, ds[|ds| - 1])
  }

  /** The most there can be: parts in sequence and alternatives exclude each other, branches of a comma add up. */
  function Peak(k: Kind, c: Cmd): nat
  {
    match c
    case Skip => if k.Threads? then 1 else 0
    case Act(_) => if k.Threads? then 1 else 0
    case Semi(cs) => HighestPeak(k, cs)
    case Comma(cs) =>
      if |cs| == 1 then Peak(k, cs[0]) else SumPeak(k, cs) + if k.Joins? then 1 else 0
    case Select(_, _, bs) => HighestPeak(k, bs)
    case Loop(_, bs) => HighestPeak(k, bs)
    case DoLoop(_, body) => Peak(k, body)
  }

  function HighestPeak(k: Kind, cs: seq<Cmd>): nat
  {
    if cs == [] then 0 else Max(HighestPeak(k, cs[..|cs| - 1]), Peak(k, cs[|cs| - 1]))
  }

  function SumPeak(k: Kind, cs: seq<Cmd>): nat
  {
    if cs == [] then 0 else SumPeak(k, cs[..|cs| - 1]) + Peak(k, cs[|cs| - 1])
  }

  lemma HighestIs(k: Kind, cs: seq<Cmd>, i: nat)
    requires i < |cs|
    ensures Peak(k, cs[i]) <= HighestPeak(k, cs)
  {
    if i < |cs| - 1 { HighestIs(k, cs[..|cs| - 1], i); }
  }

  // ----- never more

  /** No position of control has more than the peak. */
  lemma {:induction false} PeakBound(k: Kind, c: Cmd, lay: Lay, d: Ctl)
    requires Of(c, lay) && WellFormed(c) && Fit(lay, d)
    ensures Measure(k, d) <= Peak(k, c)
    decreases c, 0
  {
    hide SlotsApart;
    if d.Off? || d.Here? || d.Fin? {
      PeakPositive(k, c);
    } else {
      match c
      case Semi(cs) =>
        if |cs| == 1 { PeakBound(k, cs[0], lay, d); HighestIs(k, cs, 0); }
        else { PeakBound(k, cs[d.i], lay.ls[d.i], d.c); HighestIs(k, cs, d.i); }
      case Comma(cs) =>
        if |cs| == 1 { PeakBound(k, cs[0], lay, d); }
        else {
          forall j | 0 <= j < |cs| ensures Measure(k, d.cs[j]) <= Peak(k, cs[j]) {
            PeakBound(k, cs[j], lay.ls[j], d.cs[j]);
          }
          SumPeakBound(k, cs, d.cs);
          ManyMeasure(k, d.cs);
        }
      case Select(_, _, bs) => PeakBound(k, bs[d.i], lay.ls[d.i], d.c); HighestIs(k, bs, d.i);
      case Loop(_, bs) => PeakBound(k, bs[d.i], lay.ls[d.i], d.c); HighestIs(k, bs, d.i);
      case DoLoop(g, body) => DoLoopPeak(k, g, body, lay, d);
      case _ =>
    }
  }

  lemma {:induction false} DoLoopPeak(k: Kind, g: Option<nat>, body: Cmd, lay: Lay, d: Ctl)
    requires Of(DoLoop(g, body), lay) && WellFormed(body) && Fit(lay, d) && d.In?
    ensures Measure(k, d) <= Peak(k, body)
    decreases body, 1
  {
    PeakPositive(k, body);
    assert Measure(k, d) == Measure(k, d.c);
    if d.i == 0 {
      PeakBound(k, body, lay.ls[0], d.c);
    } else if d.c.In? {
      assert Measure(k, d.c) == Measure(k, d.c.c);
      PeakBound(k, body, lay.ls[1].ls[0], d.c.c);
    }
  }

  lemma {:induction false} PeakPositive(k: Kind, c: Cmd)
    requires WellFormed(c)
    ensures k.Threads? ==> Peak(k, c) >= 1
  {
    match c
    case Semi(cs) => PeakPositive(k, cs[0]); HighestIs(k, cs, 0);
    case Comma(cs) => PeakPositive(k, cs[|cs| - 1]);
    case Select(_, _, bs) => PeakPositive(k, bs[0]); HighestIs(k, bs, 0);
    case Loop(_, bs) => PeakPositive(k, bs[0]); HighestIs(k, bs, 0);
    case DoLoop(_, body) => PeakPositive(k, body);
    case _ =>
  }

  lemma SumPeakBound(k: Kind, cs: seq<Cmd>, ds: seq<Ctl>)
    requires |cs| == |ds| && forall j | 0 <= j < |cs| :: Measure(k, ds[j]) <= Peak(k, cs[j])
    ensures SumMeasure(k, ds) <= SumPeak(k, cs)
  {
    hide Measure, Peak;
    if cs != [] { SumPeakBound(k, cs[..|cs| - 1], ds[..|ds| - 1]); }
  }

  lemma {:induction false} ManyMeasure(k: Kind, ds: seq<Ctl>)
    ensures Measure(k, Many(ds)) == SumMeasure(k, ds) + if k.Joins? then 1 else 0
  {
    SumsAgree(k, ds);
  }

  lemma {:induction false} SumsAgree(k: Kind, ds: seq<Ctl>)
    ensures SumMeasure(k, ds) == if k.Threads? then SumLeaves(ds) else SumOpen(ds)
    decreases |ds|
  {
    if ds != [] { SumsAgree(k, ds[..|ds| - 1]); }
  }

  // ----- as many

  /** Every part has something to run. */
  predicate Full(c: Cmd)
  {
    match c
    case Skip => false
    case Act(_) => true
    case Semi(cs) => forall i | 0 <= i < |cs| :: Full(cs[i])
    case Comma(cs) => forall i | 0 <= i < |cs| :: Full(cs[i])
    case Select(_, _, bs) => forall i | 0 <= i < |bs| :: Full(bs[i])
    case Loop(_, bs) => forall i | 0 <= i < |bs| :: Full(bs[i])
    case DoLoop(_, body) => Full(body)
  }

  lemma {:induction false} FullRuns(c: Cmd)
    requires Full(c) && WellFormed(c)
    ensures !Idle(c)
    decreases c
  {
    match c
    case Semi(cs) => FullRuns(cs[0]);
    case Comma(cs) => FullRuns(cs[0]);
    case _ =>
  }

  /** The slots of the tree are among `many` in a row from lo on. */
  ghost predicate SlotsIn(d: Ctl, lo: nat, many: nat)
  {
    forall s | s in Slots(d) :: lo <= s < lo + many
  }

  /** A position of control with n threads or open joins, in slots from lo on. */
  ghost predicate Top(k: Kind, lay: Lay, d: Ctl, lo: nat, many: nat, n: nat)
  {
    Fit(lay, d) && !d.Off? && Measure(k, d) == n && SlotsIn(d, lo, many)
  }

  /** The peak is reached: a statement in which every part has something to run can have that many. */
  lemma {:induction false} PeakReached(k: Kind, c: Cmd, lay: Lay, lo: nat) returns (d: Ctl)
    requires Of(c, lay) && WellFormed(c) && Full(c)
    ensures Top(k, lay, d, lo, MaxPc(c), Peak(k, c))
    decreases c, 1
  {
    hide Top, Ready, Fit, Slots, SlotsIn, Leaves, Open;
    FullRuns(c);
    ReadyIdle(c);
    match c
    case Act(_) => d := TopHere(k, lay, lo);
    case Semi(cs) =>
      if |cs| == 1 {
        d := PeakReached(k, cs[0], lay, lo);
        OnlyPart(k, cs);
      } else {
        d := TopPart(k, cs, lay, 1, lo);
      }
    case Comma(cs) =>
      if |cs| == 1 {
        d := PeakReached(k, cs[0], lay, lo);
        OnlyPart(k, cs);
      } else {
        d := TopMany(k, cs, lay, lo);
      }
    case Select(_, _, bs) => d := TopPart(k, bs, lay, 0, lo);
    case Loop(_, bs) => d := TopPart(k, bs, lay, 0, lo);
    case DoLoop(_, body) =>
      var e := PeakReached(k, body, lay.ls[0], lo);
      d := In(0, e);
      TopIn(k, lay, 0, e, lo, MaxPc(body), MaxPc(body), Peak(k, body));
  }

  lemma {:induction false} TopHere(k: Kind, lay: Lay, lo: nat) returns (d: Ctl)
    requires lay.LAct?
    ensures Top(k, lay, d, lo, 1, if k.Threads? then 1 else 0)
  {
    d := Here(lo);
  }

  lemma {:induction false} TopIn(k: Kind, lay: Lay, i: nat, e: Ctl, lo: nat, many: nat, more: nat, n: nat)
    requires (lay.LSemi? || lay.LBranch?) && i < |lay.ls| && Top(k, lay.ls[i], e, lo, many, n) && many <= more
    ensures Top(k, lay, In(i, e), lo, more, n)
  {
  }

  lemma {:induction false} OnlyPart(k: Kind, cs: seq<Cmd>)
    requires |cs| == 1 && WellFormed(cs[0])
    ensures MaxPcOf(cs, 1) == SumPc(cs) == MaxPc(cs[0]) && HighestPeak(k, cs) == Peak(k, cs[0])
  {
    MaxPcPositive(cs[0]);
    assert MaxPcOf(cs[..0], 1) == 1 && SumPc(cs[..0]) == 0 && HighestPeak(k, cs[..0]) == 0;
  }

  /** The part with the most. */
  lemma {:induction false} TopPart(k: Kind, cs: seq<Cmd>, lay: Lay, least: nat, lo: nat) returns (d: Ctl)
    requires (lay.LSemi? || lay.LBranch?) && |lay.ls| == |cs| > 0
    requires forall i | 0 <= i < |cs| :: Of(cs[i], lay.ls[i]) && WellFormed(cs[i]) && Full(cs[i])
    ensures Top(k, lay, d, lo, MaxPcOf(cs, least), HighestPeak(k, cs))
    decreases cs, 0
  {
    hide Of, Full, WellFormed, Top;
    var i := Highest(k, cs);
    var e := PeakReached(k, cs[i], lay.ls[i], lo);
    MaxPcOfLeast(cs, least, i);
    d := In(i, e);
    TopIn(k, lay, i, e, lo, MaxPc(cs[i]), MaxPcOf(cs, least), Peak(k, cs[i]));
  }

  lemma {:induction false} Highest(k: Kind, cs: seq<Cmd>) returns (i: nat)
    requires cs != []
    ensures i < |cs| && Peak(k, cs[i]) == HighestPeak(k, cs)
    decreases |cs|
  {
    var n := |cs| - 1;
    if n == 0 {
      i := 0;
    } else {
      i := Highest(k, cs[..n]);
      if Peak(k, cs[n]) >= Peak(k, cs[i]) { i := n; }
    }
  }

  lemma {:induction false} TopMany(k: Kind, cs: seq<Cmd>, lay: Lay, lo: nat) returns (d: Ctl)
    requires lay.LComma? && |lay.ls| == |cs| > 0
    requires forall i | 0 <= i < |cs| :: Of(cs[i], lay.ls[i]) && WellFormed(cs[i]) && Full(cs[i])
    ensures Top(k, lay, d, lo, SumPc(cs), SumPeak(k, cs) + if k.Joins? then 1 else 0)
    decreases cs, 1
  {
    hide Of, Full, WellFormed, Top, TopAt;
    var ds := TopAll(k, cs, lay.ls, lo);
    d := Many(ds);
    TopFits(k, cs, lay, ds, lo);
  }

  ghost predicate TopAt(k: Kind, cs: seq<Cmd>, ls: seq<Lay>, ds: seq<Ctl>, lo: nat, i: nat)
    requires i < |cs| == |ls| == |ds|
  {
    Top(k, ls[i], ds[i], lo + SumPc(cs[..i]), MaxPc(cs[i]), Peak(k, cs[i]))
  }

  /** All branches of a comma with the most each can have, their slots one behind the other. */
  lemma {:induction false} TopAll(k: Kind, cs: seq<Cmd>, ls: seq<Lay>, lo: nat) returns (ds: seq<Ctl>)
    requires |ls| == |cs| && forall i | 0 <= i < |cs| :: Of(cs[i], ls[i]) && WellFormed(cs[i]) && Full(cs[i])
    ensures |ds| == |cs| && forall i | 0 <= i < |ds| :: TopAt(k, cs, ls, ds, lo, i)
    decreases cs, 0
  {
    hide Of, Full, WellFormed, Top, TopAt, SumPc, MaxPc, Peak;
    if cs == [] {
      ds := [];
    } else {
      var n := |cs| - 1;
      var es := TopAll(k, cs[..n], ls[..n], lo);
      var e := PeakReached(k, cs[n], ls[n], lo + SumPc(cs[..n]));
      ds := es + [e];
      forall i | 0 <= i < |ds| ensures TopAt(k, cs, ls, ds, lo, i) {
        if i < n { assert TopAt(k, cs[..n], ls[..n], es, lo, i); }
        TopMore(k, cs, ls, es, e, lo, i);
      }
    }
  }

  lemma {:induction false} TopMore(k: Kind, cs: seq<Cmd>, ls: seq<Lay>, es: seq<Ctl>, e: Ctl, lo: nat, i: nat)
    requires i < |cs| == |ls| == |es| + 1
    requires i < |es| ==> TopAt(k, cs[..|es|], ls[..|es|], es, lo, i)
    requires i == |es| ==> Top(k, ls[i], e, lo + SumPc(cs[..i]), MaxPc(cs[i]), Peak(k, cs[i]))
    ensures TopAt(k, cs, ls, es + [e], lo, i)
  {
    hide Top, SumPc, MaxPc, Peak;
    if i < |es| { assert cs[..|es|][..i] == cs[..i]; }
  }

  lemma {:induction false} TopSum(k: Kind, cs: seq<Cmd>, ds: seq<Ctl>)
    requires |ds| == |cs| && forall i | 0 <= i < |ds| :: Measure(k, ds[i]) == Peak(k, cs[i])
    ensures SumMeasure(k, ds) == SumPeak(k, cs)
    decreases |ds|
  {
    hide Measure, Peak;
    if ds != [] { TopSum(k, cs[..|cs| - 1], ds[..|ds| - 1]); }
  }

  lemma {:induction false} TopFits(k: Kind, cs: seq<Cmd>, lay: Lay, ds: seq<Ctl>, lo: nat)
    requires lay.LComma? && |lay.ls| == |ds| == |cs| > 0
    requires forall i | 0 <= i < |ds| :: TopAt(k, cs, lay.ls, ds, lo, i)
    ensures Top(k, lay, Many(ds), lo, SumPc(cs), SumPeak(k, cs) + if k.Joins? then 1 else 0)
  {
    hide Slots, Measure, Peak, SumPc, MaxPc, SlotsIn, TopAt, Top, Fit;
    forall i | 0 <= i < |ds|
      ensures Fit(lay.ls[i], ds[i]) && !ds[i].Off? && Measure(k, ds[i]) == Peak(k, cs[i])
      ensures SlotsIn(ds[i], lo + SumPc(cs[..i]), MaxPc(cs[i]))
    {
      assert TopAt(k, cs, lay.ls, ds, lo, i);
      TopIs(k, cs, lay.ls, ds, lo, i);
    }
    TopApart(cs, ds, lo);
    TopSum(k, cs, ds);
    ManyMeasure(k, ds);
    SlotsOfAll(cs, ds, lo);
    ManyIs(k, lay, ds, lo, SumPc(cs));
  }

  lemma {:induction false} ManyIs(k: Kind, lay: Lay, ds: seq<Ctl>, lo: nat, many: nat)
    requires lay.LComma? && |lay.ls| == |ds| > 0 && SlotsApart(ds)
    requires forall i | 0 <= i < |ds| :: Fit(lay.ls[i], ds[i]) && !ds[i].Off?
    requires SlotsIn(Many(ds), lo, many)
    ensures Top(k, lay, Many(ds), lo, many, Measure(k, Many(ds)))
  {
    hide Slots, SlotsIn, SlotsApart, Measure;
    assert !AllOff(ds) by { assert !ds[0].Off?; }
  }

  lemma {:induction false} TopIs(k: Kind, cs: seq<Cmd>, ls: seq<Lay>, ds: seq<Ctl>, lo: nat, i: nat)
    requires i < |cs| == |ls| == |ds| && TopAt(k, cs, ls, ds, lo, i)
    ensures Fit(ls[i], ds[i]) && !ds[i].Off? && Measure(k, ds[i]) == Peak(k, cs[i])
    ensures SlotsIn(ds[i], lo + SumPc(cs[..i]), MaxPc(cs[i]))
  {
    hide Fit, Measure, Peak, MaxPc, SlotsIn, SumPc;
  }

  lemma {:induction false} TopApart(cs: seq<Cmd>, ds: seq<Ctl>, lo: nat)
    requires |ds| == |cs| && forall i | 0 <= i < |ds| :: SlotsIn(ds[i], lo + SumPc(cs[..i]), MaxPc(cs[i]))
    ensures SlotsApart(ds)
  {
    hide Slots, SumPc, MaxPc;
    forall i, j | 0 <= i < j < |ds| ensures Slots(ds[i]) !! Slots(ds[j]) {
      SumPcUpTo(cs, i, j);
      forall s | s in Slots(ds[i]) ensures s !in Slots(ds[j]) {
        assert SlotsIn(ds[i], lo + SumPc(cs[..i]), MaxPc(cs[i]));
      }
    }
  }

  lemma {:induction false} SlotsOfAll(cs: seq<Cmd>, ds: seq<Ctl>, lo: nat)
    requires |ds| == |cs|
    requires forall i | 0 <= i < |ds| :: SlotsIn(ds[i], lo + SumPc(cs[..i]), MaxPc(cs[i]))
    ensures SlotsIn(Many(ds), lo, SumPc(cs))
  {
    hide SumPc, MaxPc;
    assert cs[..|cs|] == cs;
    forall s | s in Slots(Many(ds)) ensures lo <= s < lo + SumPc(cs) {
      var i :| 0 <= i < |ds| && s in Slots(ds[i]);
      SumPcUpTo(cs, i, |cs|);
    }
  }

  lemma {:induction false} SumPcUpTo(cs: seq<Cmd>, i: nat, j: nat)
    requires i < j <= |cs|
    ensures SumPc(cs[..i]) + MaxPc(cs[i]) <= SumPc(cs[..j])
    decreases j
  {
    assert cs[..j][..j - 1] == cs[..j - 1];
    if i < j - 1 { SumPcUpTo(cs, i, j - 1); }
  }

  // ----- what the simulator reserves

  /** No comma that runs in parallel stands inside a do-loop. */
  predicate JoinsOutsideDoLoops(c: Cmd)
  {
    match c
    case Semi(cs) => forall i | 0 <= i < |cs| :: JoinsOutsideDoLoops(cs[i])
    case Comma(cs) => forall i | 0 <= i < |cs| :: JoinsOutsideDoLoops(cs[i])
    case Select(_, _, bs) => forall i | 0 <= i < |bs| :: JoinsOutsideDoLoops(bs[i])
    case Loop(_, bs) => forall i | 0 <= i < |bs| :: JoinsOutsideDoLoops(bs[i])
    case DoLoop(_, body) => Counters(body) == 0
    case _ => true
  }

  /** The slots reserved are the most threads there can be. */
  lemma {:induction false} SlotsExact(c: Cmd)
    requires WellFormed(c)
    ensures MaxPc(c) == Peak(Threads, c)
    decreases c, 1
  {
    match c
    case Semi(cs) => HighestExact(cs, 1);
    case Comma(cs) =>
      if |cs| == 1 { SlotsExact(cs[0]); OnlyPart(Threads, cs); } else { SumExact(cs); }
    case Select(_, _, bs) => HighestExact(bs, 0);
    case Loop(_, bs) => HighestExact(bs, 0);
    case DoLoop(_, body) => SlotsExact(body);
    case _ =>
  }

  lemma {:induction false} HighestExact(cs: seq<Cmd>, least: nat)
    requires cs != [] && least <= 1 && forall i | 0 <= i < |cs| :: WellFormed(cs[i])
    ensures MaxPcOf(cs, least) == HighestPeak(Threads, cs)
    decreases cs, 0
  {
    hide WellFormed;
    var n := |cs| - 1;
    SlotsExact(cs[n]);
    MaxPcPositive(cs[n]);
    if n > 0 { HighestExact(cs[..n], least); }
  }

  lemma {:induction false} SumExact(cs: seq<Cmd>)
    requires forall i | 0 <= i < |cs| :: WellFormed(cs[i])
    ensures SumPc(cs) == SumPeak(Threads, cs)
    decreases cs, 0
  {
    hide WellFormed;
    if cs != [] {
      SlotsExact(cs[|cs| - 1]);
      SumExact(cs[..|cs| - 1]);
    }
  }

  /**
   The join counters given to a statement are at least as many as there can be open joins, and no more unless a
   comma stands inside a do-loop, which is built twice.
   */
  lemma {:induction false} CountersExact(c: Cmd)
    ensures Peak(Joins, c) <= Counters(c)
    ensures JoinsOutsideDoLoops(c) ==> Peak(Joins, c) == Counters(c)
    decreases c, 1
  {
    match c
    case Semi(cs) => CountersOfAll(cs);
    case Comma(cs) => if |cs| == 1 { CountersExact(cs[0]); } else { CountersOfAll(cs); }
    case Select(_, _, bs) => CountersOfAll(bs);
    case Loop(_, bs) => CountersOfAll(bs);
    case DoLoop(_, body) => CountersExact(body);
    case _ =>
  }

  lemma {:induction false} CountersOfAll(cs: seq<Cmd>)
    ensures HighestPeak(Joins, cs) <= MostCounters(cs) && SumPeak(Joins, cs) <= SumCounters(cs)
    ensures (forall i | 0 <= i < |cs| :: JoinsOutsideDoLoops(cs[i])) ==>
              HighestPeak(Joins, cs) == MostCounters(cs) && SumPeak(Joins, cs) == SumCounters(cs)
    decreases cs, 0
  {
    hide JoinsOutsideDoLoops;
    if cs != [] {
      CountersExact(cs[|cs| - 1]);
      CountersOfAll(cs[..|cs| - 1]);
    }
  }
}
