/**
 The stepper: program-counter slots, the pool of free slots, join counters and the store, and what one
 event does to them. A result of None means that an assertion of the program failed, an array was indexed
 outside its bounds, or control ran in a circle of nodes that have no statement.
 */
module ChpSim {
  import opened Prelude
  import opened ChpLang
  import opened ChpGraph

  datatype Mach<S> = Mach(pc: seq<Option<nat>>, holes: seq<int>, used: nat, tot: seq<nat>, store: S)

  /** Gives the slot back to the pool. */
  function Release<S>(m: Mach<S>, s: nat): Option<Mach<S>>
  {
    if s < |m.pc| && 0 < m.used <= |m.holes| then
      Some(m.(pc := m.pc[s := None], holes := m.holes[m.used - 1 := s], used := m.used - 1))
    else None
  }

  /** The node slot s is at. */
  function NodeOf<S>(g: seq<Node>, m: Mach<S>, s: nat): Option<Node>
  {
    if s < |m.pc| && m.pc[s].Some? && m.pc[s].value < |g| then Some(g[m.pc[s].value]) else None
  }

  /** Moves slot s along `next`; arrivals at a join are counted and only the last one goes on. */
  function UpdatePc<S>(g: seq<Node>, m: Mach<S>, s: nat): Option<Mach<S>>
  {
    match NodeOf(g, m, s)
    case None => None
    case Some(n) =>
      if n.next.None? || (n.stmt.Some? && n.stmt.value.SCond?) then Release(m, s)
      else if n.next.value >= |g| then None
      else
        var t := g[n.next.value];
        if t.wait > 0 then
          if t.totidx >= |m.tot| then None
          else if t.wait == m.tot[t.totidx] + 1 then
            Some(m.(pc := m.pc[s := n.next], tot := m.tot[t.totidx := 0]))
          else
            Release(m.(tot := m.tot[t.totidx := m.tot[t.totidx] + 1]), s)
        else Some(m.(pc := m.pc[s := n.next]))
  }

  /** How far down the node order slot s is, while it has no statement. */
  function Height<S>(g: seq<Node>, m: Mach<S>, s: nat): nat
  {
    match NodeOf(g, m, s)
    case None => 0
    case Some(n) => if n.stmt.None? then m.pc[s].value + 1 else 0
  }

  /** Goes on through nodes without a statement. */
  function Fold<S>(g: seq<Node>, m: Mach<S>, s: nat): Option<Mach<S>>
    decreases Height(g, m, s)
  {
    if s >= |m.pc| then None
    else if m.pc[s].None? then Some(m)
    else
      match NodeOf(g, m, s)
      case None => None
      case Some(n) =>
        if n.stmt.Some? then Some(m)
        else
          match UpdatePc(g, m, s)
          case None => None
          case Some(m') => if Height(g, m', s) < Height(g, m, s) then Fold(g, m', s) else None
  }

  /** Takes a free slot from the pool. */
  function Take<S>(m: Mach<S>): Option<(Mach<S>, nat)>
  {
    if m.used < |m.pc| && m.used < |m.holes| && 0 <= m.holes[m.used] < |m.pc| then
      Some((m.(holes := m.holes[m.used := -1], used := m.used + 1), m.holes[m.used]))
    else None
  }

  /** Starts the branches of a comma from position i on; the first one started keeps the slot. */
  function Fork<S>(g: seq<Node>, m: Mach<S>, s: nat, all: seq<Option<nat>>, i: nat, first: bool): Option<Mach<S>>
    decreases |all| - i
  {
    if i >= |all| then Some(m)
    else if all[i].None? then Fork(g, m, s, all, i + 1, first)
    else if first then
      match Place(g, m, s, all[i])
      case None => None
      case Some(m') => Fork(g, m', s, all, i + 1, false)
    else
      match Take(m)
      case None => None
      case Some(r) =>
        match Place(g, r.0, r.1, all[i])
        case None => None
        case Some(m') => Fork(g, m', s, all, i + 1, false)
  }

  /** Puts slot s at a node and schedules its next event. */
  function Place<S>(g: seq<Node>, m: Mach<S>, s: nat, node: Option<nat>): Option<Mach<S>>
  {
    if s < |m.pc| then Fold(g, m.(pc := m.pc[s := node]), s) else None
  }

  /** The next event of slot s, if it is still live. */
  function Settle<S>(g: seq<Node>, m: Option<Mach<S>>, s: nat): Option<Mach<S>>
  {
    match m
    case None => None
    case Some(m') => Fold(g, m', s)
  }

  /**
   One event for slot s. `pick` is the alternative taken at a selection or loop; `flag` says whether the
   event is a wake-up.
   */
  function Step<S>(g: seq<Node>, env: Env<S>, m: Mach<S>, s: nat, flag: bool, pick: nat): Option<Mach<S>>
  {
    match Fold(g, m, s)
    case None => None
    case Some(m1) =>
      if s >= |m1.pc| || s >= |m.pc| then None
      else if m1.pc[s].None? then Some(m1)
      else Execute(g, env, m1, s, flag && m1.pc[s] == m.pc[s], pick)
  }

  function Execute<S>(g: seq<Node>, env: Env<S>, m: Mach<S>, s: nat, flag: bool, pick: nat): Option<Mach<S>>
  {
    match NodeOf(g, m, s)
    case None => None
    case Some(n) =>
      match n.stmt
      case None => None
      case Some(SFork(_)) => Fork(g, m, s, n.all, 0, true)
      case Some(SNop) => Settle(g, UpdatePc(g, m, s), s)
      case Some(SAct(a)) =>
        var o := env.run(a, flag, m.store);
        var m' := m.(store := o.store);
        if o.done then Settle(g, UpdatePc(g, m', s), s) else Some(m')
      case Some(SCond(arb, guards)) =>
        if Allowed(env, arb, guards, m.store, pick) then Goto(g, m, s, n, pick) else Some(m)
      case Some(SLoop(guards)) =>
        if Allowed(env, false, guards, m.store, pick) then Goto(g, m, s, n, pick)
        else if AnyMatch(env, guards, m.store) then Some(m)
        else Settle(g, UpdatePc(g, m, s), s)
  }

  function Goto<S>(g: seq<Node>, m: Mach<S>, s: nat, n: Node, pick: nat): Option<Mach<S>>
  {
    if pick >= |n.all| then None
    else if n.all[pick].None? then Release(m, s)
    else Place(g, m, s, n.all[pick])
  }

  /** Whether an event of slot s does something: it runs an action, takes an alternative or ends a loop. */
  predicate Acts<S>(g: seq<Node>, env: Env<S>, m: Mach<S>, s: nat, pick: nat)
  {
    match NodeOf(g, m, s)
    case None => false
    case Some(n) =>
      match n.stmt
      case Some(SAct(_)) => true
      case Some(SCond(arb, guards)) => Allowed(env, arb, guards, m.store, pick)
      case Some(SLoop(guards)) => Allowed(env, false, guards, m.store, pick) || !AnyMatch(env, guards, m.store)
      case _ => false
  }

  lemma UpdatePcShape<S>(g: seq<Node>, m: Mach<S>, s: nat)
    requires s < |m.pc|
    ensures UpdatePc(g, m, s).Some? ==>
              var m' := UpdatePc(g, m, s).value;
              |m'.pc| == |m.pc| && m'.store == m.store && forall t | 0 <= t < |m.pc| && t != s :: m'.pc[t] == m.pc[t]
  {
  }

  /** In a well-ordered graph, going on through nodes without a statement goes down. */
  lemma UpdatePcDown<S>(g: seq<Node>, m: Mach<S>, s: nat)
    requires ChainsDown(g) && s < |m.pc| && Height(g, m, s) > 0 && UpdatePc(g, m, s).Some?
    ensures Height(g, UpdatePc(g, m, s).value, s) < Height(g, m, s)
  {
  }

  /** The state a simulation starts in. */
  function Initial<S>(npc: nat, counters: nat, entry: Option<nat>, store: S): Mach<S>
    requires npc >= 1
  {
    Mach([entry] + seq(npc - 1, _ => None), [-1] + seq(npc - 1, i => i + 1), 1, seq(counters, _ => 0), store)
  }
}
