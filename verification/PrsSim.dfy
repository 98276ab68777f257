/**
 A node driven by production rules: which value its networks drive it to, and the object that keeps one
 pending event for it.
 */
module PrsSim {
  import opened Prelude
  import opened Logic3
  import opened PrsRules

  /** A network's value and whether only its weak part conducts. */
  datatype Pull = Pull(v: V3, weak: bool)

  function PullOf(strong: Option<Net>, weak: Option<Net>, s: State): Pull
  {
    if !EvalNet(strong, s).Zero? then Pull(EvalNet(strong, s), false)
    else Pull(EvalNet(weak, s), !EvalNet(weak, s).Zero?)
  }

  datatype Target = Nothing | SetTo(v: V3) | MakeX

  /** The decision table; `cur` is the node's present value. */
  function Decide(u: Pull, d: Pull, cur: V3): Target
  {
    match (u.v, d.v)
    case (Zero, Zero) => Nothing
    case (Zero, One) => SetTo(Zero)
    case (Zero, X) => if cur.One? then MakeX else Nothing
    case (One, Zero) => SetTo(One)
    case (One, X) => if !u.weak && d.weak then SetTo(One) else MakeX
    case (One, One) => if u.weak && !d.weak then SetTo(Zero) else if !u.weak && d.weak then SetTo(One) else MakeX
    case (X, Zero) => if cur.Zero? then MakeX else Nothing
    case (X, One) => if u.weak && !d.weak then SetTo(Zero) else MakeX
    case (X, X) => MakeX
  }

  /** The value the node is heading for. */
  function Next(t: Target, cur: V3): V3
  {
    match t case Nothing => cur case SetTo(v) => v case MakeX => X
  }

  function Heading(n: Nets, s: State, cur: V3): V3
  {
    Next(Decide(PullOf(n.up, n.upWeak, s), PullOf(n.dn, n.dnWeak, s), cur), cur)
  }

  /** How a pull may turn out once unknown inputs are known. */
  predicate PullRefines(p: Pull, q: Pull)
  {
    match p.v
    case Zero => q.v.Zero?
    case One => q == p
    case X => q.v.Zero? || q.weak || !p.weak
  }

  lemma {:induction false} PullMonotone(strong: Option<Net>, weak: Option<Net>, s: State, s': State)
    requires Resolves(s, s')
    ensures PullRefines(PullOf(strong, weak, s), PullOf(strong, weak, s'))
  {
    if strong.Some? { EvalMonotone(strong.value, s, s'); }
    if weak.Some? { EvalMonotone(weak.value, s, s'); }
  }

  /** The decision table respects refinement of both pulls. */
  lemma {:induction false} DecideMonotone(u: Pull, d: Pull, u': Pull, d': Pull, cur: V3)
    requires PullRefines(u, u') && PullRefines(d, d')
    ensures !Next(Decide(u, d, cur), cur).X? ==> Next(Decide(u', d', cur), cur) == Next(Decide(u, d, cur), cur)
  {
  }

  /**
   Unknown inputs are sound: if a node heads for a definite value, driven or held, then it heads for the same
   value however the unknown inputs turn out, for all rules, strong and weak.
   */
  lemma {:induction false} UnknownSound(n: Nets, s: State, s': State, cur: V3)
    requires Resolves(s, s') && !Heading(n, s, cur).X?
    ensures Heading(n, s', cur) == Heading(n, s, cur)
  {
    PullMonotone(n.up, n.upWeak, s, s');
    PullMonotone(n.dn, n.dnWeak, s, s');
    DecideMonotone(PullOf(n.up, n.upWeak, s), PullOf(n.dn, n.dnWeak, s),
                   PullOf(n.up, n.upWeak, s'), PullOf(n.dn, n.dnWeak, s'), cur);
  }

  /**
   A node with one combinational rule never pulls both ways, and heads for the value of its expression (or the
   negation, for a down rule) whatever it is now.
   */
  lemma {:induction false} CombinationalNode(ls: Labels, bound: nat, r: Rule, s: State, cur: V3)
    requires Acyclic(ls) && Below(ls, r.e, bound) && r.arrow.Combinational?
    ensures var n := AddRules(ls, bound, [r]);
            var u, d := PullOf(n.up, n.upWeak, s), PullOf(n.dn, n.dnWeak, s);
            && !(u.v.One? && d.v.One?)
            && Heading(n, s, cur) == if r.up then Meaning(ls, r.e, bound, s) else Not3(Meaning(ls, r.e, bound, s))
  {
    ConvertMeans(ls, r.e, bound, s);
    assert [r][..0] == [];
    assert AddRules(ls, bound, [r]) == AddRule(ls, bound, Nets(None, None, None, None), r);
  }

  // ----- scheduling

  /** What is pending: nothing, 0, 1 or X. */
  datatype Flags = NoFlag | Pending(v: V3)

  /** The flags, and the value of the event scheduled last, if it has not been withdrawn. */
  datatype Sched = Sched(flags: Flags, pending: Option<V3>)

  function SetVal(q: Sched, cur: V3, x: V3): Sched
  {
    if cur != x && q.flags != Pending(x) then Sched(Pending(x), Some(x)) else q
  }

  function GoUnknown(q: Sched, cur: V3): Sched
  {
    if cur != X then if q.flags != Pending(X) then Sched(Pending(X), Some(X)) else q
    else if q.flags == Pending(Zero) || q.flags == Pending(One) then Sched(NoFlag, None)
    else q
  }

  /** An input has changed: a pending transition that is no longer driven is withdrawn, then the table decides. */
  function Propagated(q: Sched, u: Pull, d: Pull, cur: V3): Sched
  {
    var q1 := if q.flags == Pending(One) && u.v != One then GoUnknown(q, cur) else q;
    var q2 := if q1.flags == Pending(Zero) && d.v != One then GoUnknown(q1, cur) else q1;
    match Decide(u, d, cur)
    case Nothing => q2
    case SetTo(v) => SetVal(q2, cur, v)
    case MakeX => GoUnknown(q2, cur)
  }

  /**
   After an input change a pending 1 is pulled up, a pending 0 is pulled down, and a node that heads for another
   value has that value pending.
   */
  lemma {:induction false} PropagatedIsDriven(q: Sched, n: Nets, s: State, cur: V3)
    ensures var u, d := PullOf(n.up, n.upWeak, s), PullOf(n.dn, n.dnWeak, s);
            var q' := Propagated(q, u, d, cur);
            && (q'.flags == Pending(One) ==> u.v == One)
            && (q'.flags == Pending(Zero) ==> d.v == One)
            && (Heading(n, s, cur) != cur ==> q'.flags == Pending(Heading(n, s, cur)))
  {
    hide PullOf;
  }

  /** A group makes room for another of its nodes: the transition that is pending is withdrawn. */
  function Flushed(q: Sched): Sched
  {
    if q.pending.Some? then Sched(NoFlag, None) else q
  }

  /** When the node has just become X with nothing pending: the definite value it is driven to, if any. */
  function CleanUp(u: Pull, d: Pull): Option<V3>
  {
    if u.v.Zero? then if d.v.One? then Some(Zero) else None
    else if u.v.One? then
      if d.v.Zero? then Some(One)
      else if d.v.X? && !u.weak && d.weak then Some(One)
      else if d.v.One? && u.weak && !d.weak then Some(Zero)
      else if d.v.One? && !u.weak && d.weak then Some(One)
      else None
    else if d.v.One? && u.weak && !d.weak then Some(Zero)
    else None
  }

  /** The clean-up drives a node exactly where the decision table does, to the same value. */
  lemma CleanUpAgrees(u: Pull, d: Pull, v: V3)
    ensures CleanUp(u, d) == Some(v) <==> Decide(u, d, X) == SetTo(v)
  {
  }

  /** The scheduled event t has happened; `accepted` says whether the store took the value, `cur` what it has now. */
  function Stepped(q: Sched, t: V3, accepted: bool, u: Pull, d: Pull, cur: V3): Sched
  {
    var q1 := Sched(if q.flags == Pending(t) || !accepted then NoFlag else q.flags, None);
    if t == X && q1.flags == NoFlag then
      match CleanUp(u, d)
      case None => q1
      case Some(v) => SetVal(q1, cur, v)
    else q1
  }

  /** A node that has become X with nothing else pending is sent on to the definite value it heads for, if any. */
  lemma {:induction false} UnknownIsCleanedUp(q: Sched, n: Nets, s: State)
    requires q.flags == Pending(X) || q.flags == NoFlag
    ensures var u, d := PullOf(n.up, n.upWeak, s), PullOf(n.dn, n.dnWeak, s);
            var w := Heading(n, s, X);
            Stepped(q, X, true, u, d, X) == if w == X then Sched(NoFlag, None) else Sched(Pending(w), Some(w))
  {
    hide PullOf;
    var u, d := PullOf(n.up, n.upWeak, s), PullOf(n.dn, n.dnWeak, s);
    CleanUpAgrees(u, d, Zero);
    CleanUpAgrees(u, d, One);
    CleanUpAgrees(u, d, X);
  }

  class OnePrsSim {
    const nets: Nets
    var flags: Flags
    var pending: Option<V3>

    function Scheduled(): Sched
      reads this
    {
      Sched(flags, pending)
    }

    constructor (nets: Nets)
      ensures this.nets == nets && Scheduled() == Sched(NoFlag, None)
    {
      this.nets, flags, pending := nets, NoFlag, None;
    }

    method DoSetVal(cur: V3, x: V3)
      modifies this`flags, this`pending
      ensures Scheduled() == SetVal(old(Scheduled()), cur, x)
    {
      if cur != x && flags != Pending(x) {
        flags := Pending(x);
        pending := Some(x);
      }
    }

    method MakeNodeX(cur: V3)
      modifies this`flags, this`pending
      ensures Scheduled() == GoUnknown(old(Scheduled()), cur)
    {
      if cur != X {
        if flags != Pending(X) {
          flags := Pending(X);
          pending := Some(X);
        }
      } else if flags == Pending(Zero) || flags == Pending(One) {
        flags := NoFlag;
        pending := None;
      }
    }

    method Propagate(s: State, cur: V3)
      modifies this`flags, this`pending
      ensures Scheduled()
              == Propagated(old(Scheduled()), PullOf(nets.up, nets.upWeak, s), PullOf(nets.dn, nets.dnWeak, s), cur)
    {
      var u := PullOf(nets.up, nets.upWeak, s);
      var d := PullOf(nets.dn, nets.dnWeak, s);
      if flags == Pending(One) && u.v != One { MakeNodeX(cur); }
      if flags == Pending(Zero) && d.v != One { MakeNodeX(cur); }
      match Decide(u, d, cur)
      case Nothing =>
      case SetTo(v) => DoSetVal(cur, v);
      case MakeX => MakeNodeX(cur);
    }

    method FlushPending()
      modifies this`flags, this`pending
      ensures Scheduled() == Flushed(old(Scheduled()))
    {
      if pending.Some? {
        pending := None;
        flags := NoFlag;
      }
    }

    method Step(t: V3, accepted: bool, s: State, cur: V3)
      modifies this`flags, this`pending
      ensures Scheduled()
              == Stepped(old(Scheduled()), t, accepted, PullOf(nets.up, nets.upWeak, s), PullOf(nets.dn,
                  nets.dnWeak, s), cur)
    {
      pending := None;
      if flags == Pending(t) { flags := NoFlag; }
      if !accepted { flags := NoFlag; }
      if t == X && flags == NoFlag {
        var u := PullOf(nets.up, nets.upWeak, s);
        var d := PullOf(nets.dn, nets.dnWeak, s);
        match CleanUp(u, d)
        case None =>
        case Some(v) => DoSetVal(cur, v);
      }
    }
  }
}
