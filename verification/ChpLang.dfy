/**
 Structured CHP and its small-step meaning.

 Expressions are opaque: a statement carries an action number, a guard carries an expression number, and
 an environment says what they do to a store. The small-step function `Next` works on *ready* terms, in
 which finished parts have been dropped, so that a term is `Skip` exactly when nothing is left to do.
 Nothing in this module knows about graphs, program counters or join counters.
 */
module ChpLang {
  import opened Prelude

  /** A guard is absent for `else` and for the unguarded loop. */
  datatype Cmd =
    | Skip
    | Act(a: nat)                          // assignment, send, receive or built-in function
    | Semi(cs: seq<Cmd>)
    | Comma(cs: seq<Cmd>)
    | Select(arb: bool, guards: seq<Option<nat>>, bodies: seq<Cmd>)  // arb: the nondeterministic selection
    | Loop(guards: seq<Option<nat>>, bodies: seq<Cmd>)
    | DoLoop(g: Option<nat>, body: Cmd)

  /** What executing an action does: a blocked action stays where it is, and may have changed the store. */
  datatype Outcome<S> = Outcome(done: bool, store: S)

  /** `run` is told whether the event is a wake-up (the event flag). */
  datatype Env<!S> = Env(run: (nat, bool, S) -> Outcome<S>, holds: (nat, S) -> bool)

  /** What the parser guarantees: lists are not empty, and `else` is the last alternative. */
  predicate WellFormed(c: Cmd)
  {
    match c
    case Skip => true
    case Act(_) => true
    case Semi(cs) => cs != [] && forall i | 0 <= i < |cs| :: WellFormed(cs[i])
    case Comma(cs) => cs != [] && forall i | 0 <= i < |cs| :: WellFormed(cs[i])
    case Select(_, gs, bs) =>
      gs != [] && |gs| == |bs| && ElseLast(gs) && forall i | 0 <= i < |bs| :: WellFormed(bs[i])
    case Loop(gs, bs) =>
      gs != [] && |gs| == |bs| && ElseLast(gs) && forall i | 0 <= i < |bs| :: WellFormed(bs[i])
    case DoLoop(_, body) => WellFormed(body)
  }

  predicate ElseLast(guards: seq<Option<nat>>)
  {
    forall i | 0 <= i < |guards| - 1 :: guards[i].Some?
  }

  predicate Matches<S>(env: Env<S>, guards: seq<Option<nat>>, s: S, i: nat)
    requires i < |guards|
  {
    guards[i].None? || env.holds(guards[i].value, s)
  }

  predicate AnyMatch<S>(env: Env<S>, guards: seq<Option<nat>>, s: S)
  {
    exists i | 0 <= i < |guards| :: Matches(env, guards, s, i)
  }

  /**
   The alternatives a selection may take: the first that matches, or, for the nondeterministic selection,
   any whose guard is true; `else` only when nothing before it matches.
   */
  predicate Allowed<S>(env: Env<S>, arb: bool, guards: seq<Option<nat>>, s: S, i: nat)
  {
    && i < |guards|
    && Matches(env, guards, s, i)
    && (!arb || guards[i].None? ==> forall j | 0 <= j < i :: !Matches(env, guards, s, j))
  }

  // ----- ready terms

  /** `h` followed by `rest`, dropping finished parts. */
  function Then(h: Cmd, rest: seq<Cmd>): Cmd
  {
    if h.Skip? then ReadySeq(rest) else if rest == [] then h else Semi([h] + rest)
  }

  function ThenLoop(h: Cmd, loop: Cmd): Cmd
  {
    if h.Skip? then loop else Semi([h, loop])
  }

  predicate AllSkip(cs: seq<Cmd>)
  {
    forall i | 0 <= i < |cs| :: cs[i].Skip?
  }

  function Par(cs: seq<Cmd>): Cmd
  {
    if AllSkip(cs) then Skip else if |cs| == 1 then cs[0] else Comma(cs)
  }

  /** Drops what is finished before the first step: empty statements, lists of them, single-element lists. */
  function Ready(c: Cmd): Cmd
  {
    match c
    case Skip => Skip
    case Act(_) => c
    case Semi(cs) => ReadySeq(cs)
    case Comma(cs) => Par(ReadyAll(cs))
    case Select(_, _, _) => c
    case Loop(_, _) => c
    case DoLoop(g, body) => ThenLoop(Ready(body), Loop([g], [body]))
  }

  function ReadySeq(cs: seq<Cmd>): Cmd
  {
    if cs == [] then Skip
    else
      var r := Ready(cs[0]);
      if r.Skip? then ReadySeq(cs[1..]) else if |cs| == 1 then r else Semi([r] + cs[1..])
  }

  function ReadyAll(cs: seq<Cmd>): (r: seq<Cmd>)
    ensures |r| == |cs|
    ensures forall i | 0 <= i < |cs| :: r[i] == Ready(cs[i])
  {
    seq(|cs|, i requires 0 <= i < |cs| => Ready(cs[i]))
  }

  /** Only skips: nothing to run. */
  predicate Idle(c: Cmd)
  {
    match c
    case Skip => true
    case Semi(cs) => forall i | 0 <= i < |cs| :: Idle(cs[i])
    case Comma(cs) => forall i | 0 <= i < |cs| :: Idle(cs[i])
    case _ => false
  }

  lemma {:induction false} ReadyIdle(c: Cmd)
    ensures Ready(c).Skip? <==> Idle(c)
    decreases c
  {
    match c
    case Semi(cs) =>
      forall i | 0 <= i < |cs| ensures Ready(cs[i]).Skip? <==> Idle(cs[i]) { ReadyIdle(cs[i]); }
      ReadySeqIdle(cs);
    case Comma(cs) =>
      forall i | 0 <= i < |cs| ensures Ready(cs[i]).Skip? <==> Idle(cs[i]) { ReadyIdle(cs[i]); }
      var rs := ReadyAll(cs);
      if AllSkip(rs) {
        assert forall i | 0 <= i < |cs| :: rs[i].Skip?;
      } else {
        var i :| 0 <= i < |rs| && !rs[i].Skip?;
        assert !Idle(cs[i]);
      }
    case _ =>
  }

  lemma {:induction false} ReadySeqIdle(cs: seq<Cmd>)
    ensures ReadySeq(cs).Skip? <==> forall i | 0 <= i < |cs| :: Ready(cs[i]).Skip?
    decreases |cs|
  {
    if cs != [] {
      ReadySeqIdle(cs[1..]);
      assert forall i | 1 <= i < |cs| :: cs[1..][i - 1] == cs[i];
    }
  }

  // ----- one step

  /** The scheduler's choices for one step: which comma branches, the event flag, which alternative. */
  datatype Choice = Choice(path: seq<nat>, flag: bool, pick: nat)

  /**
   One step of a ready term, or None when the chosen part of it cannot move. First true guard wins, a
   loop ends when no guard holds, a selection with no true guard waits, comma branches interleave.
   */
  function Next<S>(env: Env<S>, t: Cmd, s: S, ch: Choice): Option<(Cmd, S)>
    decreases t
  {
    match t
    case Skip => None
    case Act(a) =>
      var o := env.run(a, ch.flag, s);
      Some((if o.done then Skip else t, o.store))
    case Semi(cs) =>
      if cs == [] then None
      else (
        match Next(env, cs[0], s, ch)
        case None => None
        case Some(r) => Some((Then(r.0, cs[1..]), r.1))
      )
    case Comma(cs) =>
      if ch.path == [] || ch.path[0] >= |cs| then None
      else (
        match Next(env, cs[ch.path[0]], s, ch.(path := ch.path[1..]))
        case None => None
        case Some(r) => Some((Par(cs[ch.path[0] := r.0]), r.1))
      )
    case Select(arb, gs, bs) =>
      if Allowed(env, arb, gs, s, ch.pick) && ch.pick < |bs| then Some((Ready(bs[ch.pick]), s)) else None
    case Loop(gs, bs) =>
      if Allowed(env, false, gs, s, ch.pick) && ch.pick < |bs| then Some((ThenLoop(Ready(bs[ch.pick]), t), s))
      else if AnyMatch(env, gs, s) then None
      else Some((Skip, s))
    case DoLoop(_, _) => None
  }

  /** A whole run under a list of choices. */
  function Replay<S>(env: Env<S>, t: Cmd, s: S, chs: seq<Choice>): Option<(Cmd, S)>
    decreases chs
  {
    if chs == [] then Some((t, s))
    else
      match Replay(env, t, s, chs[..|chs| - 1])
      case None => None
      case Some(r) => Next(env, r.0, r.1, chs[|chs| - 1])
  }

  // ----- thread bound

  function Max(a: nat, b: nat): nat { if a >= b then a else b }

  /** The number of program counters reserved for a statement. */
  function MaxPc(c: Cmd): nat
  {
    match c
    case Skip => 1
    case Act(_) => 1
    case Semi(cs) => MaxPcOf(cs, 1)
    case Comma(cs) => SumPc(cs)
    case Select(_, _, bs) => MaxPcOf(bs, 0)
    case Loop(_, bs) => MaxPcOf(bs, 0)
    case DoLoop(_, body) => MaxPc(body)
  }

  function MaxPcOf(cs: seq<Cmd>, least: nat): nat
  {
    if cs == [] then least else Max(MaxPcOf(cs[..|cs| - 1], least), MaxPc(cs[|cs| - 1]))
  }

  function SumPc(cs: seq<Cmd>): nat
  {
    if cs == [] then 0 else SumPc(cs[..|cs| - 1]) + MaxPc(cs[|cs| - 1])
  }

  // ----- join counters

  /**
   The number of join counters a statement is given: statements in sequence and alternatives use the same ones
   over again, branches of a comma do not, and a do-loop is built twice.
   */
  function Counters(c: Cmd): nat
  {
    match c
    case Skip => 0
    case Act(_) => 0
    case Semi(cs) => MostCounters(cs)
    case Comma(cs) => if |cs| == 1 then Counters(cs[0]) else 1 + SumCounters(cs)
    case Select(_, _, bs) => MostCounters(bs)
    case Loop(_, bs) => MostCounters(bs)
    case DoLoop(_, body) => 2 * Counters(body)
  }

  function MostCounters(cs: seq<Cmd>): nat
  {
    if cs == [] then 0 else Max(MostCounters(cs[..|cs| - 1]), Counters(cs[|cs| - 1]))
  }

  function SumCounters(cs: seq<Cmd>): nat
  {
    if cs == [] then 0 else SumCounters(cs[..|cs| - 1]) + Counters(cs[|cs| - 1])
  }

  lemma CountersMore(cs: seq<Cmd>, i: nat)
    requires i < |cs|
    ensures SumCounters(cs[..i + 1]) == SumCounters(cs[..i]) + Counters(cs[i])
    ensures MostCounters(cs[..i + 1]) == Max(MostCounters(cs[..i]), Counters(cs[i]))
  {
    assert cs[..i + 1][..i] == cs[..i];
  }

  lemma CountersNone(cs: seq<Cmd>)
    ensures SumCounters(cs[..0]) == MostCounters(cs[..0]) == 0
  {
  }

  /** The recursion over the statement tree, as the simulator computes it before allocating its slots. */
  method MaxProgramCounters(c: Cmd) returns (ret: nat)
    ensures ret == MaxPc(c)
    decreases c
  {
    match c
    case Skip => ret := 1;
    case Act(_) => ret := 1;
    case Semi(cs) =>
      ret := LargestOf(cs, 1);
    case Comma(cs) =>
      ret := 0;
      for i := 0 to |cs|
        invariant ret == SumPc(cs[..i])
      {
        assert cs[..i + 1][..i] == cs[..i];
        var val := MaxProgramCounters(cs[i]);
        ret := ret + val;
      }
      assert cs[..|cs|] == cs;
    case Select(_, _, bs) =>
      ret := LargestOf(bs, 0);
    case Loop(_, bs) =>
      ret := LargestOf(bs, 0);
    case DoLoop(_, body) =>
      ret := MaxProgramCounters(body);
  }

  method LargestOf(cs: seq<Cmd>, least: nat) returns (ret: nat)
    ensures ret == MaxPcOf(cs, least)
    decreases cs
  {
    ret := least;
    for i := 0 to |cs|
      invariant ret == MaxPcOf(cs[..i], least)
    {
      assert cs[..i + 1][..i] == cs[..i];
      var val := MaxProgramCounters(cs[i]);
      if val > ret { ret := val; }
    }
    assert cs[..|cs|] == cs;
  }
}
