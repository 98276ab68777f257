/**
 The simulation graph: nodes, the layout of a statement on them, and the builder.

 A node pointer is an index into the node sequence. A *layout* says which nodes a statement was compiled
 to; `Links` says that those nodes are wired so that control runs through the statement and then goes to
 a continuation node. The builder returns the layout of what it built.
 */
module ChpGraph {
  import opened Prelude
  import opened ChpLang

  datatype Stmt =
    | SAct(a: nat)
    | SFork(n: nat)
    | SCond(arb: bool, guards: seq<Option<nat>>)
    | SLoop(guards: seq<Option<nat>>)
    | SNop

  /** A node without a statement only passes control on; `wait` is positive exactly for joins. */
  datatype Node = Node(stmt: Option<Stmt>, next: Option<nat>, all: seq<Option<nat>>, wait: nat, totidx: nat)

  datatype Lay =
    | LNull
    | LAct(n: nat, a: nat)
    | LNop(n: nat)
    | LSemi(cs: seq<Cmd>, ls: seq<Lay>)
    | LComma(fork: nat, join: nat, tix: nat, cs: seq<Cmd>, ls: seq<Lay>)
    | LBranch(n: nat, stop: nat, isLoop: bool, arb: bool, guards: seq<Option<nat>>, bs: seq<Cmd>, ls: seq<Lay>)

  /** `lay` is a layout of `c`: single-element lists vanish, a do-loop is its body and then a loop. */
  predicate Of(c: Cmd, lay: Lay)
    decreases c
  {
    if lay.LNull? || lay.LNop? then Ready(c).Skip?
    else
      match c
      case Skip => false
      case Act(a) => lay.LAct? && lay.a == a
      case Semi(cs) =>
        if |cs| == 1 then Of(cs[0], lay)
        else lay.LSemi? && lay.cs == cs && |lay.ls| == |cs| && forall i | 0 <= i < |cs| :: Of(cs[i], lay.ls[i])
      case Comma(cs) =>
        if |cs| == 1 then Of(cs[0], lay)
        else lay.LComma? && lay.cs == cs && |lay.ls| == |cs| && forall i | 0 <= i < |cs| :: Of(cs[i], lay.ls[i])
      case Select(arb, gs, bs) =>
        && lay.LBranch? && !lay.isLoop && lay.arb == arb && lay.guards == gs && lay.bs == bs
        && |lay.ls| == |bs| && forall i | 0 <= i < |bs| :: Of(bs[i], lay.ls[i])
      case Loop(gs, bs) =>
        && lay.LBranch? && lay.isLoop && !lay.arb && lay.guards == gs && lay.bs == bs
        && |lay.ls| == |bs| && forall i | 0 <= i < |bs| :: Of(bs[i], lay.ls[i])
      case DoLoop(g, body) =>
        && lay.LSemi? && lay.cs == [body, Loop([g], [body])] && |lay.ls| == 2
        && !lay.ls[0].LNull? && Of(body, lay.ls[0])
        && lay.ls[1].LBranch? && lay.ls[1].isLoop && !lay.ls[1].arb
        && lay.ls[1].guards == [g] && lay.ls[1].bs == [body] && |lay.ls[1].ls| == 1
        && !lay.ls[1].ls[0].LNull? && Of(body, lay.ls[1].ls[0])
  }

  /** Idle nodes stand only for the empty bodies of do-loops. */
  predicate Lean(c: Cmd, lay: Lay)
    requires Of(c, lay)
    decreases c, 0
  {
    if lay.LNull? then true
    else if lay.LNop? then false
    else
      match c
      case Semi(cs) =>
        if |cs| == 1 then Lean(cs[0], lay) else forall i | 0 <= i < |cs| :: Lean(cs[i], lay.ls[i])
      case Comma(cs) =>
        if |cs| == 1 then Lean(cs[0], lay) else forall i | 0 <= i < |cs| :: Lean(cs[i], lay.ls[i])
      case Select(_, _, bs) => forall i | 0 <= i < |bs| :: Lean(bs[i], lay.ls[i])
      case Loop(_, bs) => forall i | 0 <= i < |bs| :: Lean(bs[i], lay.ls[i])
      case DoLoop(_, body) => LeanBody(body, lay.ls[0]) && LeanBody(body, lay.ls[1].ls[0])
      case _ => true
  }

  predicate LeanBody(body: Cmd, lay: Lay)
    requires Of(body, lay)
    decreases body, 1
  {
    lay.LNop? || Lean(body, lay)
  }

  // ----- the nodes of a layout

  function Entry(lay: Lay): Option<nat>
  {
    match lay
    case LNull => None
    case LAct(n, _) => Some(n)
    case LNop(n) => Some(n)
    case LSemi(_, ls) => FirstEntry(ls, 0, None)
    case LComma(f, _, _, _, _) => Some(f)
    case LBranch(n, _, _, _, _, _, _) => Some(n)
  }

  /** The entry of the first statement at or after position i that has nodes, else k. */
  function FirstEntry(ls: seq<Lay>, i: nat, k: Option<nat>): Option<nat>
    decreases ls, if i <= |ls| then |ls| - i else 0
  {
    if i >= |ls| then k
    else if ls[i].LNull? then FirstEntry(ls, i + 1, k)
    else Entry(ls[i])
  }

  function Stop(lay: Lay): nat
  {
    match lay
    case LNull => 0
    case LAct(n, _) => n
    case LNop(n) => n
    case LSemi(_, ls) => LastStop(ls, |ls|)
    case LComma(_, j, _, _, _) => j
    case LBranch(_, stop, _, _, _, _, _) => stop
  }

  function LastStop(ls: seq<Lay>, i: nat): nat
    requires i <= |ls|
    decreases ls, i
  {
    if i == 0 then 0
    else if ls[i - 1].LNull? then LastStop(ls, i - 1)
    else Stop(ls[i - 1])
  }

  function Nodes(lay: Lay): set<nat>
  {
    match lay
    case LNull => {}
    case LAct(n, _) => {n}
    case LNop(n) => {n}
    case LSemi(_, ls) => NodesOf(ls)
    case LComma(f, j, _, _, ls) => {f, j} + NodesOf(ls)
    case LBranch(n, stop, _, _, _, _, ls) => {n, stop} + NodesOf(ls)
  }

  function NodesOf(ls: seq<Lay>): set<nat>
  {
    set i, x | 0 <= i < |ls| && x in Nodes(ls[i]) :: x
  }

  /** The join counters a layout uses. */
  function Ids(lay: Lay): set<nat>
  {
    match lay
    case LNull => {}
    case LAct(_, _) => {}
    case LNop(_) => {}
    case LSemi(_, ls) => IdsOf(ls)
    case LComma(_, _, x, _, ls) => {x} + IdsOf(ls)
    case LBranch(_, _, _, _, _, _, ls) => IdsOf(ls)
  }

  function IdsOf(ls: seq<Lay>): set<nat>
  {
    set i, x | 0 <= i < |ls| && x in Ids(ls[i]) :: x
  }

  predicate HasNodes(ls: seq<Lay>)
  {
    exists i | 0 <= i < |ls| :: !ls[i].LNull?
  }

  predicate NodesApart(ls: seq<Lay>)
  {
    forall i, j | 0 <= i < j < |ls| :: Nodes(ls[i]) !! Nodes(ls[j])
  }

  predicate IdsApart(ls: seq<Lay>)
  {
    forall i, j | 0 <= i < j < |ls| :: Ids(ls[i]) !! Ids(ls[j])
  }

  /** No node is used twice; branches of one comma share no join counter. */
  predicate Sound(lay: Lay)
  {
    match lay
    case LNull => true
    case LAct(_, _) => true
    case LNop(_) => true
    case LSemi(cs, ls) =>
      && |cs| == |ls| && HasNodes(ls) && NodesApart(ls)
      && forall i | 0 <= i < |ls| :: Sound(ls[i])
    case LComma(f, j, x, cs, ls) =>
      && |cs| == |ls| >= 2 && HasNodes(ls) && NodesApart(ls) && IdsApart(ls)
      && f != j && f !in NodesOf(ls) && j !in NodesOf(ls) && x !in IdsOf(ls)
      && forall i | 0 <= i < |ls| :: Sound(ls[i])
    case LBranch(n, stop, _, _, guards, bs, ls) =>
      && |guards| == |bs| == |ls| && NodesApart(ls)
      && n != stop && n !in NodesOf(ls) && stop !in NodesOf(ls)
      && forall i | 0 <= i < |ls| :: Sound(ls[i])
  }

  function Busy(ls: seq<Lay>): nat
  {
    if ls == [] then 0
    else Busy(ls[..|ls| - 1]) + if ls[|ls| - 1].LNull? then 0 else 1
  }

  /** The branches from position i on that have nodes. */
  function BusyFrom(ls: seq<Lay>, i: nat): nat
    decreases if i <= |ls| then |ls| - i else 0
  {
    if i >= |ls| then 0 else BusyFrom(ls, i + 1) + if ls[i].LNull? then 0 else 1
  }

  lemma BusyFromAll(ls: seq<Lay>, i: nat)
    requires i <= |ls|
    ensures Busy(ls) == Busy(ls[..i]) + BusyFrom(ls, i)
    decreases |ls| - i
  {
    if i < |ls| {
      BusyFromAll(ls, i + 1);
      assert ls[..i + 1][..i] == ls[..i];
    } else {
      assert ls[..i] == ls;
    }
  }

  function Entries(ls: seq<Lay>): (r: seq<Option<nat>>)
    ensures |r| == |ls|
  {
    seq(|ls|, i requires 0 <= i < |ls| => Entry(ls[i]))
  }

  /** Where each alternative starts; an empty one goes straight back. */
  function Targets(ls: seq<Lay>, back: nat): (r: seq<Option<nat>>)
    ensures |r| == |ls|
  {
    seq(|ls|, i requires 0 <= i < |ls| => if ls[i].LNull? then Some(back) else Entry(ls[i]))
  }

  // ----- wiring

  /** The nodes of `lay` are wired as the statement demands, and control leaves it for `k`. */
  predicate Links(g: seq<Node>, lay: Lay, k: Option<nat>)
    decreases lay
  {
    match lay
    case LNull => true
    case LAct(n, a) => n < |g| && g[n] == Node(Some(SAct(a)), k, [], 0, 0)
    case LNop(n) => n < |g| && g[n] == Node(Some(SNop), k, [], 0, 0)
    case LSemi(_, ls) => Chain(g, ls, k)
    case LComma(f, j, x, _, ls) =>
      && f < |g| && j < |g|
      && g[f] == Node(Some(SFork(|ls|)), Some(j), Entries(ls), 0, 0)
      && g[j] == Node(None, k, [], Busy(ls), x)
      && forall i | 0 <= i < |ls| :: Links(g, ls[i], Some(j))
    case LBranch(n, stop, isLoop, arb, guards, _, ls) =>
      var back := if isLoop then n else stop;
      && n < |g| && stop < |g|
      && g[n] == Node(Some(if isLoop then SLoop(guards) else SCond(arb, guards)), Some(stop), Targets(ls, back), 0, 0)
      && g[stop] == Node(None, k, [], 0, 0)
      && forall i | 0 <= i < |ls| :: Links(g, ls[i], Some(back))
  }

  /** Where control goes after part i of a sequence, selection or loop that itself goes on to k. */
  function Cont(lay: Lay, i: nat, k: Option<nat>): Option<nat>
    requires lay.LSemi? || lay.LBranch?
  {
    if lay.LSemi? then FirstEntry(lay.ls, i + 1, k) else Some(if lay.isLoop then lay.n else lay.stop)
  }

  predicate Chain(g: seq<Node>, ls: seq<Lay>, k: Option<nat>)
    decreases ls
  {
    forall i | 0 <= i < |ls| :: Links(g, ls[i], FirstEntry(ls, i + 1, k))
  }

  /** Following `next` through nodes without a statement goes down in the node order. */
  predicate ChainsDown(g: seq<Node>)
  {
    forall n | 0 <= n < |g| && g[n].next.Some? ::
      && g[n].next.value < |g|
      && (g[n].stmt.None? && g[g[n].next.value].stmt.None? ==> g[n].next.value < n)
  }

  // ----- facts about wiring

  lemma SubNodes(ls: seq<Lay>, i: nat)
    requires i < |ls|
    ensures Nodes(ls[i]) <= NodesOf(ls)
    ensures Ids(ls[i]) <= IdsOf(ls)
  {
  }

  lemma FirstEntryFound(ls: seq<Lay>, i: nat, m: nat, k: Option<nat>)
    requires i <= m < |ls| && !ls[m].LNull?
    requires forall j | i <= j < m :: ls[j].LNull?
    ensures FirstEntry(ls, i, k) == Entry(ls[m])
    decreases m - i
  {
    if i < m { FirstEntryFound(ls, i + 1, m, k); }
  }

  lemma FirstEntryNone(ls: seq<Lay>, i: nat, k: Option<nat>)
    requires forall j | i <= j < |ls| :: ls[j].LNull?
    ensures FirstEntry(ls, i, k) == k
    decreases |ls| - i
  {
    if i < |ls| { FirstEntryNone(ls, i + 1, k); }
  }

  /** Only the last statements see the continuation. */
  lemma FirstEntryCont(ls: seq<Lay>, i: nat, m: nat, k: Option<nat>, k': Option<nat>)
    requires i <= m < |ls| && !ls[m].LNull?
    ensures FirstEntry(ls, i, k) == FirstEntry(ls, i, k')
    decreases m - i
  {
    if i < m && ls[i].LNull? { FirstEntryCont(ls, i + 1, m, k, k'); }
  }

  lemma FirstEntryAppend(ls: seq<Lay>, l: Lay, i: nat, k: Option<nat>)
    requires i <= |ls|
    ensures FirstEntry(ls + [l], i, k) == FirstEntry(ls, i, if l.LNull? then k else Entry(l))
    decreases |ls| - i
  {
    if i < |ls| { FirstEntryAppend(ls, l, i + 1, k); }
  }

  lemma LastStopFound(ls: seq<Lay>, i: nat) returns (m: nat)
    requires i <= |ls|
    requires exists j | 0 <= j < i :: !ls[j].LNull?
    ensures m < i && !ls[m].LNull? && LastStop(ls, i) == Stop(ls[m])
    ensures forall j | m < j < i :: ls[j].LNull?
    decreases i
  {
    if ls[i - 1].LNull? { m := LastStopFound(ls, i - 1); } else { m := i - 1; }
  }

  lemma LastStopAppend(ls: seq<Lay>, l: Lay, i: nat)
    requires i <= |ls|
    ensures LastStop(ls + [l], i) == LastStop(ls, i)
    decreases i
  {
    if i > 0 { LastStopAppend(ls, l, i - 1); }
  }

  lemma FirstEntryShape(ls: seq<Lay>, i: nat, k: Option<nat>)
    requires exists m | i <= m < |ls| :: !ls[m].LNull?
    requires forall j | 0 <= j < |ls| :: Sound(ls[j])
    ensures exists m | i <= m < |ls| :: !ls[m].LNull? && FirstEntry(ls, i, k) == Entry(ls[m])
    decreases |ls| - i
  {
    if ls[i].LNull? { FirstEntryShape(ls, i + 1, k); }
  }

  /** A statement with nodes has an entry and a stop among them. */
  lemma EntryStop(lay: Lay)
    requires Sound(lay) && !lay.LNull?
    ensures Entry(lay).Some? && Entry(lay).value in Nodes(lay)
    ensures Stop(lay) in Nodes(lay)
    decreases lay
  {
    if lay.LSemi? {
      FirstEntryShape(lay.ls, 0, None);
      var m :| 0 <= m < |lay.ls| && !lay.ls[m].LNull? && FirstEntry(lay.ls, 0, None) == Entry(lay.ls[m]);
      EntryStop(lay.ls[m]);
      var p := LastStopFound(lay.ls, |lay.ls|);
      EntryStop(lay.ls[p]);
    }
  }

  /** The entry carries a statement. */
  lemma EntryStmt(g: seq<Node>, lay: Lay, k: Option<nat>)
    requires Sound(lay) && !lay.LNull? && Links(g, lay, k)
    ensures Entry(lay).Some? && Entry(lay).value < |g| && g[Entry(lay).value].stmt.Some?
    ensures g[Entry(lay).value].wait == 0
    decreases lay
  {
    if lay.LSemi? {
      FirstEntryShape(lay.ls, 0, None);
      var m :| 0 <= m < |lay.ls| && !lay.ls[m].LNull? && FirstEntry(lay.ls, 0, None) == Entry(lay.ls[m]);
      EntryStmt(g, lay.ls[m], FirstEntry(lay.ls, m + 1, k));
    }
  }

  /** Exactly the statements with nothing to run have no nodes. */
  lemma {:induction false} NullIsIdle(c: Cmd, lay: Lay)
    requires Of(c, lay) && Lean(c, lay) && Sound(lay)
    ensures lay.LNull? <==> Idle(c)
    decreases c
  {
    ReadyIdle(c);
    if !lay.LNull? {
      match c
      case Semi(cs) =>
        if |cs| == 1 {
          NullIsIdle(cs[0], lay);
        } else {
          var m :| 0 <= m < |lay.ls| && !lay.ls[m].LNull?;
          NullIsIdle(cs[m], lay.ls[m]);
        }
      case Comma(cs) =>
        if |cs| == 1 {
          NullIsIdle(cs[0], lay);
        } else {
          var m :| 0 <= m < |lay.ls| && !lay.ls[m].LNull?;
          NullIsIdle(cs[m], lay.ls[m]);
        }
      case _ =>
    }
  }

  /** `Links` only looks at the statement's own nodes. */
  lemma {:induction false} Frame(g: seq<Node>, g': seq<Node>, lay: Lay, k: Option<nat>)
    requires Links(g, lay, k) && |g| <= |g'|
    requires forall n | n in Nodes(lay) && n < |g| :: g'[n] == g[n]
    ensures Links(g', lay, k)
    decreases lay
  {
    match lay
    case LNull =>
    case LAct(_, _) =>
    case LNop(_) =>
    case LSemi(_, ls) =>
      forall i | 0 <= i < |ls| ensures Links(g', ls[i], FirstEntry(ls, i + 1, k)) {
        SubNodes(ls, i);
        Frame(g, g', ls[i], FirstEntry(ls, i + 1, k));
      }
    case LComma(_, j, _, _, ls) =>
      forall i | 0 <= i < |ls| ensures Links(g', ls[i], Some(j)) {
        SubNodes(ls, i);
        Frame(g, g', ls[i], Some(j));
      }
    case LBranch(n, stop, isLoop, _, _, _, ls) =>
      var back := if isLoop then n else stop;
      forall i | 0 <= i < |ls| ensures Links(g', ls[i], Some(back)) {
        SubNodes(ls, i);
        Frame(g, g', ls[i], Some(back));
      }
  }

  function SetNext(g: seq<Node>, n: nat, k: Option<nat>): (r: seq<Node>)
    requires n < |g|
    ensures |r| == |g|
  {
    g[n := g[n].(next := k)]
  }

  /** Setting the stop node's `next` sends control to the new continuation and changes nothing else. */
  lemma {:induction false} Retarget(g: seq<Node>, lay: Lay, k: Option<nat>, k': Option<nat>)
    requires Sound(lay) && !lay.LNull? && Links(g, lay, k)
    requires Stop(lay) < |g|
    ensures Links(SetNext(g, Stop(lay), k'), lay, k')
    decreases lay, 0
  {
    var g' := SetNext(g, Stop(lay), k');
    match lay
    case LAct(_, _) =>
    case LNop(_) =>
    case LSemi(_, ls) => RetargetChain(g, ls, k, k');
    case LComma(_, j, _, _, ls) =>
      forall i | 0 <= i < |ls| ensures Links(g', ls[i], Some(j)) {
        SubNodes(ls, i);
        Frame(g, g', ls[i], Some(j));
      }
    case LBranch(n, stop, isLoop, _, _, _, ls) =>
      var back := if isLoop then n else stop;
      forall i | 0 <= i < |ls| ensures Links(g', ls[i], Some(back)) {
        SubNodes(ls, i);
        Frame(g, g', ls[i], Some(back));
      }
  }

  lemma {:induction false} RetargetChain(g: seq<Node>, ls: seq<Lay>, k: Option<nat>, k': Option<nat>)
    requires HasNodes(ls) && NodesApart(ls) && Chain(g, ls, k)
    requires forall i | 0 <= i < |ls| :: Sound(ls[i])
    requires LastStop(ls, |ls|) < |g|
    ensures Chain(SetNext(g, LastStop(ls, |ls|), k'), ls, k')
    decreases ls, 1
  {
    var m := LastStopFound(ls, |ls|);
    Retarget(g, ls[m], FirstEntry(ls, m + 1, k), k');
    forall i | 0 <= i < |ls| ensures Links(SetNext(g, Stop(ls[m]), k'), ls[i], FirstEntry(ls, i + 1, k')) {
      RetargetAt(g, ls, i, m, k, k');
    }
  }

  /**
   What comes before the last statement neither owns its stop node nor sees the continuation; what comes
   after it has no nodes.
   */
  lemma {:induction false} RetargetAt(g: seq<Node>, ls: seq<Lay>, i: nat, m: nat, k: Option<nat>, k': Option<nat>)
    requires i < |ls| && m < |ls| && !ls[m].LNull? && Sound(ls[m]) && Stop(ls[m]) < |g|
    requires forall j | m < j < |ls| :: ls[j].LNull?
    requires Links(g, ls[i], FirstEntry(ls, i + 1, k)) && NodesApart(ls)
    requires Links(SetNext(g, Stop(ls[m]), k'), ls[m], k')
    ensures Links(SetNext(g, Stop(ls[m]), k'), ls[i], FirstEntry(ls, i + 1, k'))
  {
    if i == m {
      FirstEntryNone(ls, m + 1, k');
    } else if i < m {
      EntryStop(ls[m]);
      FirstEntryCont(ls, i + 1, m, k, k');
      Frame(g, SetNext(g, Stop(ls[m]), k'), ls[i], FirstEntry(ls, i + 1, k));
    }
  }

  // ----- the builder

  ghost predicate IsRange(s: set<nat>, lo: nat, hi: nat)
  {
    forall x: nat :: x in s <==> lo <= x < hi
  }

  lemma BusyAppend(ls: seq<Lay>, l: Lay)
    ensures Busy(ls + [l]) == Busy(ls) + if l.LNull? then 0 else 1
  {
    assert (ls + [l])[..|ls|] == ls;
  }

  lemma BusyPositive(ls: seq<Lay>)
    ensures Busy(ls) <= |ls|
    ensures Busy(ls) > 0 <==> HasNodes(ls)
  {
    if ls != [] {
      BusyPositive(ls[..|ls| - 1]);
      assert forall i | 0 <= i < |ls| - 1 :: ls[..|ls| - 1][i] == ls[i];
    }
  }

  /** What compiling `c` onto the nodes `g0` must give. */
  ghost predicate Built(g0: seq<Node>, g: seq<Node>, cur0: nat, cur: nat, c: Cmd, ret: Option<nat>, stop: nat, lay: Lay)
  {
    && g0 <= g && cur0 <= cur
    && Of(c, lay) && Lean(c, lay) && Sound(lay) && Links(g, lay, None)
    && ret == Entry(lay) && (ret.None? <==> lay.LNull?)
    && (ret.Some? ==> stop == Stop(lay) && stop < |g|)
    && IsRange(Nodes(lay), |g0|, |g|)
    && (forall x | x in Ids(lay) :: cur0 <= x < cur)
  }
}
