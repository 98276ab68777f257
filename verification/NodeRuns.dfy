/**
 What the scheduling of one node is for: the decision table against a two-valued reading of the networks, what an
 input change and an event leave pending, and whole runs of a node that is in no exclusion group.
 */
module NodeRuns {
  import opened Prelude
  import opened Logic3
  import opened PrsRules
  import opened PrsSim

  // ----- the decision table

  /** Neither side may still turn out otherwise. */
  predicate Definite(u: Pull, d: Pull)
  {
    !u.v.X? && !d.v.X?
  }

  /** Definite pulls on a node: none, it holds; one, it follows; both, the stronger one wins, if there is one. */
  function Resolved(u: Pull, d: Pull, cur: V3): V3
    requires Definite(u, d)
  {
    var up, down := u.v.One?, d.v.One?;
    if !up && !down then cur
    else if up && (!down || (d.weak && !u.weak)) then One
    else if down && (!up || (u.weak && !d.weak)) then Zero
    else X
  }

  /** However the two pulls turn out, the node resolves to v. */
  ghost predicate AlwaysResolves(u: Pull, d: Pull, cur: V3, v: V3)
  {
    forall u', d' | PullRefines(u, u') && PullRefines(d, d') && Definite(u', d') :: Resolved(u', d', cur) == v
  }

  /** How an unknown pull may turn out: not conducting, or conducting. */
  function Off(p: Pull): Pull { if p.v.X? then Pull(Zero, false) else p }
  function On(p: Pull): Pull { if p.v.X? then Pull(One, p.weak) else p }

  /**
   The decision table is exact: a node heads for 0 or 1 if and only if its pulls resolve to that value however
   they turn out; else it heads for X.
   */
  lemma {:induction false} TableExact(u: Pull, d: Pull, cur: V3, v: V3)
    requires !v.X?
    ensures Next(Decide(u, d, cur), cur) == v <==> AlwaysResolves(u, d, cur, v)
  {
    var w := Next(Decide(u, d, cur), cur);
    if w == v {
      forall u', d' | PullRefines(u, u') && PullRefines(d, d') && Definite(u', d')
        ensures Resolved(u', d', cur) == v
      {
        DecideMonotone(u, d, u', d', cur);
        DefiniteTable(u', d', cur);
      }
    } else if AlwaysResolves(u, d, cur, v) {
      Witness(u, d, cur, v);
    }
  }

  lemma DefiniteTable(u: Pull, d: Pull, cur: V3)
    requires Definite(u, d)
    ensures Next(Decide(u, d, cur), cur) == Resolved(u, d, cur)
  {
  }

  /** Four ways for the pulls to turn out are enough to tell. */
  lemma Witness(u: Pull, d: Pull, cur: V3, v: V3)
    requires !v.X? && AlwaysResolves(u, d, cur, v)
    ensures Next(Decide(u, d, cur), cur) == v
  {
    assert Resolved(Off(u), Off(d), cur) == v && Resolved(Off(u), On(d), cur) == v;
    assert Resolved(On(u), Off(d), cur) == v && Resolved(On(u), On(d), cur) == v;
  }

  /** A node that is pulled neither way keeps its value. */
  lemma {:induction false} Holds(n: Nets, s: State, cur: V3)
    requires PullOf(n.up, n.upWeak, s).v.Zero? && PullOf(n.dn, n.dnWeak, s).v.Zero?
    ensures Heading(n, s, cur) == cur
  {
    hide PullOf;
  }

  // ----- the four networks

  /** Strong networks decide; weak ones do where no strong one conducts; a tie is X, and nothing at all holds. */
  function ByStrength(up: V3, upWeak: V3, dn: V3, dnWeak: V3, cur: V3): V3
  {
    if up.One? || dn.One? then (if up.One? && dn.One? then X else if up.One? then One else Zero)
    else if upWeak.One? && dnWeak.One? then X
    else if upWeak.One? then One
    else if dnWeak.One? then Zero
    else cur
  }

  /** However the four networks turn out, the node goes to v. */
  ghost predicate AlwaysGoes(up: V3, upWeak: V3, dn: V3, dnWeak: V3, cur: V3, v: V3)
  {
    forall a, b, c, d | Known(up, a) && Known(upWeak, b) && Known(dn, c) && Known(dnWeak, d) ::
      ByStrength(a, b, c, d, cur) == v
  }

  /** A weak network that conducts is out of sight behind a strong one that may, and nothing pulls the other way. */
  predicate Masked(up: V3, upWeak: V3, dn: V3, dnWeak: V3, cur: V3)
  {
    || (up.X? && upWeak.One? && dn.Zero? && dnWeak.Zero? && !cur.One?)
    || (dn.X? && dnWeak.One? && up.Zero? && upWeak.Zero? && !cur.Zero?)
  }

  function PullIs(strong: V3, weak: V3): Pull
  {
    if !strong.Zero? then Pull(strong, false) else Pull(weak, !weak.Zero?)
  }

  /** A value for an unknown network: v. */
  function As(a: V3, v: V3): V3 { if a.X? then v else a }

  lemma AsKnown(a: V3, v: V3)
    requires !v.X?
    ensures Known(a, As(a, v))
  {
  }

  lemma {:induction false} GoesSound(up: V3, upWeak: V3, dn: V3, dnWeak: V3, cur: V3, v: V3)
    requires !v.X? && Next(Decide(PullIs(up, upWeak), PullIs(dn, dnWeak), cur), cur) == v
    ensures AlwaysGoes(up, upWeak, dn, dnWeak, cur, v)
  {
    forall a, b, c, d | Known(up, a) && Known(upWeak, b) && Known(dn, c) && Known(dnWeak, d)
      ensures ByStrength(a, b, c, d, cur) == v { }
  }

  /** One way to turn out: each side's unknown networks get two values. */
  lemma {:induction false} OneWay(up: V3, upWeak: V3, dn: V3, dnWeak: V3, cur: V3, v: V3, x: V3, x': V3, y: V3, y': V3)
    requires AlwaysGoes(up, upWeak, dn, dnWeak, cur, v) && !x.X? && !x'.X? && !y.X? && !y'.X?
    ensures ByStrength(As(up, x), As(upWeak, x'), As(dn, y), As(dnWeak, y'), cur) == v
  {
    hide Known, ByStrength, As;
    AsKnown(up, x);
    AsKnown(upWeak, x');
    AsKnown(dn, y);
    AsKnown(dnWeak, y');
  }

  /** Only the unknown networks of one side turned on, or of both, or of none. */
  lemma {:induction false} GoesWitness(up: V3, upWeak: V3, dn: V3, dnWeak: V3, cur: V3, v: V3)
    requires !v.X? && AlwaysGoes(up, upWeak, dn, dnWeak, cur, v) && !Masked(up, upWeak, dn, dnWeak, cur)
    ensures Next(Decide(PullIs(up, upWeak), PullIs(dn, dnWeak), cur), cur) == v
  {
    hide AlwaysGoes;
    OneWay(up, upWeak, dn, dnWeak, cur, v, Zero, Zero, Zero, Zero);
    OneWay(up, upWeak, dn, dnWeak, cur, v, One, One, Zero, Zero);
    OneWay(up, upWeak, dn, dnWeak, cur, v, Zero, Zero, One, One);
    OneWay(up, upWeak, dn, dnWeak, cur, v, One, One, One, One);
  }

  lemma MaskedGoes(up: V3, upWeak: V3, dn: V3, dnWeak: V3, cur: V3)
    requires Masked(up, upWeak, dn, dnWeak, cur)
    ensures var v := if up.X? then One else Zero;
            AlwaysGoes(up, upWeak, dn, dnWeak, cur, v)
            && Next(Decide(PullIs(up, upWeak), PullIs(dn, dnWeak), cur), cur) != v
  {
  }

  /**
   What a node heads for is exactly what its four networks say: it heads for 0 or 1 if and only if it goes there
   however unknown networks turn out, unless a weak network is masked.
   */
  lemma {:induction false} NetworksExact(n: Nets, s: State, cur: V3)
    ensures var a, b, c, d := EvalNet(n.up, s), EvalNet(n.upWeak, s), EvalNet(n.dn, s), EvalNet(n.dnWeak, s);
            (forall v: V3 | !v.X? :: Heading(n, s, cur) == v <==> AlwaysGoes(a, b, c, d, cur, v))
            <==> !Masked(a, b, c, d, cur)
  {
    var a, b, c, d := EvalNet(n.up, s), EvalNet(n.upWeak, s), EvalNet(n.dn, s), EvalNet(n.dnWeak, s);
    assert PullOf(n.up, n.upWeak, s) == PullIs(a, b) && PullOf(n.dn, n.dnWeak, s) == PullIs(c, d);
    hide AlwaysGoes, Masked, Decide, PullOf, PullIs, EvalNet;
    if Masked(a, b, c, d, cur) {
      MaskedGoes(a, b, c, d, cur);
      assert Heading(n, s, cur) != if a.X? then One else Zero;
    } else {
      forall v: V3 | !v.X? ensures Heading(n, s, cur) == v <==> AlwaysGoes(a, b, c, d, cur, v) {
        if Heading(n, s, cur) == v { GoesSound(a, b, c, d, cur, v); }
        if AlwaysGoes(a, b, c, d, cur, v) { GoesWitness(a, b, c, d, cur, v); }
      }
    }
  }

  // ----- one input change

  /** The network that pulls to v conducts. */
  predicate Conducts(n: Nets, s: State, v: V3)
  {
    match v
    case One => PullOf(n.up, n.upWeak, s).v.One?
    case Zero => PullOf(n.dn, n.dnWeak, s).v.One?
    case X => false
  }

  function AfterInput(n: Nets, q: Sched, s: State, cur: V3): Sched
  {
    Propagated(q, PullOf(n.up, n.upWeak, s), PullOf(n.dn, n.dnWeak, s), cur)
  }

  function Quiet(): Sched { Sched(NoFlag, None) }
  function Coming(v: V3): Sched { Sched(Pending(v), Some(v)) }

  /** A pending 0 or 1 is not to happen any more. */
  predicate Unstable(n: Nets, q: Sched, s: State, cur: V3)
  {
    match q.flags
    case NoFlag => false
    case Pending(v) => !v.X? && (!Conducts(n, s, v) || cur.X?)
  }

  /**
   What an input change does: a node that heads for another value gets that value scheduled, unless it is so
   already; one that heads for the value it has goes to X if a pending transition has become unstable, or, if it
   is X, has that withdrawn; in all other cases nothing is scheduled and nothing is withdrawn.
   */
  lemma {:induction false} InputChange(n: Nets, q: Sched, s: State, cur: V3)
    ensures var w := Heading(n, s, cur);
            AfterInput(n, q, s, cur)
            == if w != cur then (if q.flags == Pending(w) then q else Coming(w))
               else if !Unstable(n, q, s, cur) then q
               else if cur.X? then Quiet()
               else Coming(X)
  {
    hide PullOf;
  }

  // ----- one event

  /** The event leaves no transition of the node outstanding. */
  predicate Clears(q: Sched, t: V3, accepted: bool)
  {
    !accepted || q.flags == NoFlag || q.flags == Pending(t)
  }

  function AfterEvent(n: Nets, q: Sched, t: V3, accepted: bool, s: State, cur: V3): Sched
  {
    Stepped(q, t, accepted, PullOf(n.up, n.upWeak, s), PullOf(n.dn, n.dnWeak, s), cur)
  }

  /**
   What an event leaves: the flag of another transition stays; else nothing is pending, unless the node became X and
   heads for a definite value other than its own, which is then scheduled.
   */
  lemma {:induction false} EventDone(n: Nets, q: Sched, t: V3, accepted: bool, s: State, cur: V3)
    ensures var w := Heading(n, s, X);
            AfterEvent(n, q, t, accepted, s, cur)
            == if !Clears(q, t, accepted) then Sched(q.flags, None)
               else if t.X? && !w.X? && w != cur then Coming(w)
               else Quiet()
  {
    hide PullOf;
    var u, d := PullOf(n.up, n.upWeak, s), PullOf(n.dn, n.dnWeak, s);
    CleanUpAgrees(u, d, Zero);
    CleanUpAgrees(u, d, One);
    CleanUpAgrees(u, d, X);
  }

  /** After an event to 0 or 1 the next input change schedules exactly what the node then heads for, if anything. */
  lemma {:induction false} FreshAfterEvent(n: Nets, q: Sched, t: V3, accepted: bool, s: State, s': State, cur: V3)
    requires Clears(q, t, accepted) && !t.X?
    ensures var w := Heading(n, s', cur);
            AfterInput(n, AfterEvent(n, q, t, accepted, s, cur), s', cur) == if w == cur then Quiet() else Coming(w)
  {
    hide Heading, Stepped, Propagated;
    EventDone(n, q, t, accepted, s, cur);
    InputChange(n, Quiet(), s', cur);
  }

  /** The same after a withdrawal. */
  lemma {:induction false} FreshAfterFlush(n: Nets, q: Sched, s: State, cur: V3)
    requires q.pending.Some?
    ensures var w := Heading(n, s, cur);
            AfterInput(n, Flushed(q), s, cur) == if w == cur then Quiet() else Coming(w)
  {
    hide Heading, Propagated;
    InputChange(n, Quiet(), s, cur);
  }

  // ----- whole runs

  /** A node with its inputs, its value and what is scheduled for it. */
  datatype Gate = Gate(s: State, cur: V3, q: Sched)

  datatype Event = Input(s: State) | Fire

  /** The inputs change, or the pending transition happens. */
  function Moved(n: Nets, g: Gate, e: Event): Gate
  {
    match e
    case Input(s) => Gate(s, g.cur, AfterInput(n, g.q, s, g.cur))
    case Fire =>
      match g.q.pending
      case None => g
      case Some(t) => Gate(g.s, t, AfterEvent(n, g.q, t, true, g.s, t))
  }

  function Run(n: Nets, g: Gate, es: seq<Event>): Gate
  {
    if es == [] then g else Moved(n, Run(n, g, es[..|es| - 1]), es[|es| - 1])
  }

  /** With nothing pending the node has the value it heads for; a pending 0 or 1 is the value it heads for. */
  predicate Follows(n: Nets, g: Gate)
  {
    match g.q.flags
    case NoFlag => g.q.pending.None? && Heading(n, g.s, g.cur) == g.cur
    case Pending(v) => g.q.pending == Some(v) && v != g.cur && (!v.X? ==> Heading(n, g.s, g.cur) == v)
  }

  /**
   The inputs change so that a pending transition still conducts, but is overpowered by the other network, to the
   value that the node has.
   */
  predicate Overtaken(n: Nets, g: Gate, s: State)
  {
    match g.q.flags
    case NoFlag => false
    case Pending(v) => !v.X? && v == Not3(g.cur) && Conducts(n, s, v) && Heading(n, s, g.cur) == g.cur
  }

  lemma {:induction false} InputFollows(n: Nets, g: Gate, s: State)
    requires Follows(n, g)
    ensures Follows(n, Moved(n, g, Input(s))) <==> !Overtaken(n, g, s)
  {
    hide Heading, Propagated, Conducts;
    InputChange(n, g.q, s, g.cur);
  }

  lemma {:induction false} FireFollows(n: Nets, g: Gate)
    requires Follows(n, g)
    ensures Follows(n, Moved(n, g, Fire))
  {
    hide PullOf, Stepped;
    if g.q.pending.Some? { EventDone(n, g.q, g.q.pending.value, true, g.s, g.q.pending.value); }
  }

  /** No input change of the run overtakes a pending transition. */
  predicate NeverOvertaken(n: Nets, g: Gate, es: seq<Event>)
  {
    forall k | 0 <= k < |es| && es[k].Input? :: !Overtaken(n, Run(n, g, es[..k]), es[k].s)
  }

  lemma RunNext(n: Nets, g: Gate, es: seq<Event>, k: nat)
    requires k < |es|
    ensures Run(n, g, es[..k + 1]) == Moved(n, Run(n, g, es[..k]), es[k])
  {
    assert es[..k + 1][..k] == es[..k];
  }

  lemma {:induction false} FollowsTo(n: Nets, g: Gate, es: seq<Event>, k: nat)
    requires Follows(n, g) && NeverOvertaken(n, g, es) && k <= |es|
    ensures Follows(n, Run(n, g, es[..k]))
  {
    hide Follows, Overtaken, Moved;
    if k > 0 {
      FollowsTo(n, g, es, k - 1);
      RunNext(n, g, es, k - 1);
      var g' := Run(n, g, es[..k - 1]);
      match es[k - 1]
      case Input(s) => InputFollows(n, g', s);
      case Fire => FireFollows(n, g');
    }
  }

  /**
   Throughout a run the node follows its networks, with nothing pending only at the value it heads for, if and only
   if no input change overtakes a pending transition.
   */
  lemma {:induction false} FollowsExactly(n: Nets, g: Gate, es: seq<Event>)
    requires Follows(n, g)
    ensures (forall k | 0 <= k <= |es| :: Follows(n, Run(n, g, es[..k]))) <==> NeverOvertaken(n, g, es)
  {
    hide Follows, Overtaken, Moved;
    if NeverOvertaken(n, g, es) {
      forall k | 0 <= k <= |es| ensures Follows(n, Run(n, g, es[..k])) { FollowsTo(n, g, es, k); }
    } else {
      var k :| 0 <= k < |es| && es[k].Input? && Overtaken(n, Run(n, g, es[..k]), es[k].s);
      RunNext(n, g, es, k);
      if Follows(n, Run(n, g, es[..k])) {
        InputFollows(n, Run(n, g, es[..k]), es[k].s);
        assert !Follows(n, Run(n, g, es[..k + 1]));
      }
    }
  }

  /** After it has been overtaken, the node moves to a value it does not head for, with nothing pending. */
  lemma {:induction false} OvertakenEnds(n: Nets, g: Gate, s: State)
    requires Follows(n, g) && Overtaken(n, g, s)
    ensures var g' := Moved(n, Moved(n, g, Input(s)), Fire);
            g'.q == Quiet() && g'.cur == Not3(g.cur) && Heading(n, s, g'.cur) == g.cur
  {
    hide PullOf, Propagated, Stepped;
    InputChange(n, g.q, s, g.cur);
    EventDone(n, g.q, g.q.pending.value, true, s, g.q.pending.value);
  }

  /** A weak pull-up by input 0 and a strong pull-down by input 1. */
  function Ratioed(): Nets
  {
    Nets(None, Some(NVar(0)), Some(NVar(1)), None)
  }

  /** It is overtaken when 1 follows 0 before the node has risen: it ends at 1, pulled down strongly. */
  lemma RatioedOvertaken()
    ensures var low, up, both: State := _ => Zero, v => if v == 0 then One else Zero, _ => One;
            var g := Run(Ratioed(), Gate(low, Zero, Quiet()), [Input(up), Input(both), Fire]);
            Follows(Ratioed(), Gate(low, Zero, Quiet())) && g == Gate(both, One, Quiet())
            && Heading(Ratioed(), both, One) == Zero
  {
    var low, up, both: State := _ => Zero, v => if v == 0 then One else Zero, _ => One;
    var g0 := Gate(low, Zero, Quiet());
    var es := [Input(up), Input(both), Fire];
    assert es[..3] == es && es[..0] == [];
    RunNext(Ratioed(), g0, es, 0);
    RunNext(Ratioed(), g0, es, 1);
    RunNext(Ratioed(), g0, es, 2);
  }
}
