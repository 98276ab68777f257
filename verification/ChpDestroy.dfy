/**
 Destroying a graph. The destructor uses the `wait` field of the nodes both as a mark, -1 for nodes being
 deleted or not to be entered, and as the number of deletions a join still has to wait for.

 A cell says what has become of a node. Deleting a node twice and looking at a deleted node are errors (None).
 */
module ChpDestroy {
  import opened Prelude
  import opened ChpLang
  import opened ChpGraph

  /** A node is live, in its destructor, or freed. */
  datatype Status = Alive | Dying | Freed
  datatype Cell = Cell(status: Status, wait: int)
  type Heap = seq<Cell>

  function Living(h: Heap): set<nat>
  {
    set n: nat | n < |h| && h[n].status.Alive?
  }

  lemma LivingLess(h: Heap, n: nat, d: Cell)
    requires n < |h| && !d.status.Alive?
    ensures Living(h[n := d]) == Living(h) - {n}
    ensures |Living(h[n := d])| <= |Living(h)|
    ensures h[n].status.Alive? ==> |Living(h[n := d])| < |Living(h)|
  {
    assert Living(h[n := d]) == Living(h) - {n};
  }

  lemma LivingSame(h: Heap, n: nat, w: int)
    requires n < |h|
    ensures Living(h[n := h[n].(wait := w)]) == Living(h)
  {
    assert Living(h[n := h[n].(wait := w)]) == Living(h);
  }

  /** The destructor of node n. */
  function Delete(g: seq<Node>, h: Heap, n: nat): (r: Option<Heap>)
    requires |h| == |g|
    ensures r.Some? ==> |r.value| == |h| && |Living(r.value)| <= |Living(h)|
    decreases |Living(h)|, 0
  {
    if n >= |h| || !h[n].status.Alive? then None
    else
      LivingLess(h, n, Cell(Dying, -1));
      match Inside(g, h[n := Cell(Dying, -1)], g[n])
      case None => None
      case Some(h2) =>
        match if g[n].stmt.Some? && g[n].stmt.value.SFork? then Some(h2) else Go(g, h2, g[n].next)
        case None => None
        case Some(h3) => LivingLess(h3, n, h3[n].(status := Freed)); if h3[n].status.Alive? then None
            else Some(h3[n := h3[n].(status := Freed)])
  }

  /** What the destructor deletes because of the statement. */
  function Inside(g: seq<Node>, h: Heap, n: Node): (r: Option<Heap>)
    requires |h| == |g|
    ensures r.Some? ==> |r.value| == |h| && |Living(r.value)| <= |Living(h)|
    decreases |Living(h)|, |n.all| + 2
  {
    if n.stmt.None? then Some(h)
    else
      match n.stmt.value
      case SFork(_) => DeleteAll(g, h, n.all, 0)
      case SAct(_) => Some(h)
      case SNop => Some(h)
      case _ =>
        if n.next.None? || n.next.value >= |h| || h[n.next.value].status.Freed? then None
        else
          var x := n.next.value;
          LivingSame(h, x, -1);
          match DeleteAll(g, h[x := h[x].(wait := -1)], n.all, 0)
          case None => None
          case Some(h2) =>
            LivingSame(h2, x, h[x].wait);
            if h2[x].status.Freed? then None else Some(h2[x := h2[x].(wait := h[x].wait)])
  }

  function DeleteAll(g: seq<Node>, h: Heap, all: seq<Option<nat>>, i: nat): (r: Option<Heap>)
    requires |h| == |g|
    ensures r.Some? ==> |r.value| == |h| && |Living(r.value)| <= |Living(h)|
    decreases |Living(h)|, if i <= |all| then |all| - i + 1 else 1
  {
    if i >= |all| then Some(h)
    else if all[i].None? then DeleteAll(g, h, all, i + 1)
    else if all[i].value >= |h| || h[all[i].value].status.Freed? then None
    else if h[all[i].value].wait == -1 then DeleteAll(g, h, all, i + 1)
    else
      match Delete(g, h, all[i].value)
      case None => None
      case Some(h2) => DeleteAll(g, h2, all, i + 1)
  }

  /** What the destructor does about `next`. */
  function Go(g: seq<Node>, h: Heap, next: Option<nat>): (r: Option<Heap>)
    requires |h| == |g|
    ensures r.Some? ==> |r.value| == |h| && |Living(r.value)| <= |Living(h)|
    decreases |Living(h)|, 1
  {
    if next.None? then Some(h)
    else if next.value >= |h| || h[next.value].status.Freed? then None
    else
      var w := h[next.value].wait;
      if w > 1 then LivingSame(h, next.value, w - 1); Some(h[next.value := h[next.value].(wait := w - 1)])
      else if w != -1 then Delete(g, h, next.value)
      else Some(h)
  }

  // ----- nodes that are already freed play no part

  function Free(h: Heap, p: set<nat>): (r: Heap)
    ensures |r| == |h|
    ensures forall n | 0 <= n < |h| :: r[n] == if n in p then Cell(Freed, -1) else h[n]
  {
    seq(|h|, n requires 0 <= n < |h| => if n in p then Cell(Freed, -1) else h[n])
  }

  /** h, with what h' says about the nodes in p. */
  function Mix(h: Heap, h': Heap, p: set<nat>): (r: Heap)
    requires |h'| == |h|
    ensures |r| == |h|
    ensures forall n | 0 <= n < |h| :: r[n] == if n in p then h'[n] else h[n]
  {
    seq(|h|, n requires 0 <= n < |h| => if n in p then h'[n] else h[n])
  }

  predicate Gone(h: Heap, p: set<nat>)
  {
    forall n | n in p && n < |h| :: h[n].status.Freed?
  }

  /** A result that does not depend on the nodes in p, and leaves them as they were. */
  predicate Framed(h: Heap, r: Option<Heap>, h': Heap, r': Option<Heap>, p: set<nat>)
    requires |h'| == |h|
  {
    && r.Some? && |r.value| == |h| && (forall n | n in p && n < |h| :: r.value[n] == h[n])
    && r' == Some(Mix(r.value, h', p))
  }

  lemma MixSet(h: Heap, h': Heap, p: set<nat>, n: nat, d: Cell)
    requires |h'| == |h| && n < |h| && n !in p
    ensures Mix(h, h', p)[n := d] == Mix(h[n := d], h', p)
  {
  }

  lemma {:induction false} DeleteFrame(g: seq<Node>, h: Heap, n: nat, h': Heap, p: set<nat>)
    requires |h| == |g| == |h'| && Gone(h, p) && Delete(g, h, n).Some?
    ensures Framed(h, Delete(g, h, n), h', Delete(g, Mix(h, h', p), n), p)
    decreases |Living(h)|, 0
  {
    var h1 := h[n := Cell(Dying, -1)];
    LivingLess(h, n, Cell(Dying, -1));
    MixSet(h, h', p, n, Cell(Dying, -1));
    InsideFrame(g, h1, g[n], h', p);
    var h2 := Inside(g, h1, g[n]).value;
    if !(g[n].stmt.Some? && g[n].stmt.value.SFork?) { GoFrame(g, h2, g[n].next, h', p); }
    var h3 := if g[n].stmt.Some? && g[n].stmt.value.SFork? then h2 else Go(g, h2, g[n].next).value;
    MixSet(h3, h', p, n, h3[n].(status := Freed));
  }

  lemma {:induction false} InsideFrame(g: seq<Node>, h: Heap, n: Node, h': Heap, p: set<nat>)
    requires |h| == |g| == |h'| && Gone(h, p) && Inside(g, h, n).Some?
    ensures Framed(h, Inside(g, h, n), h', Inside(g, Mix(h, h', p), n), p)
    decreases |Living(h)|, |n.all| + 2
  {
    if n.stmt.Some? && n.stmt.value.SFork? {
      AllFrame(g, h, n.all, 0, h', p);
    } else if n.stmt.Some? && !n.stmt.value.SAct? && !n.stmt.value.SNop? {
      var x := n.next.value;
      LivingSame(h, x, -1);
      MixSet(h, h', p, x, h[x].(wait := -1));
      AllFrame(g, h[x := h[x].(wait := -1)], n.all, 0, h', p);
      var h2 := DeleteAll(g, h[x := h[x].(wait := -1)], n.all, 0).value;
      MixSet(h2, h', p, x, h2[x].(wait := h[x].wait));
    }
  }

  lemma {:induction false} AllFrame(g: seq<Node>, h: Heap, all: seq<Option<nat>>, i: nat, h': Heap, p: set<nat>)
    requires |h| == |g| == |h'| && Gone(h, p) && DeleteAll(g, h, all, i).Some?
    ensures Framed(h, DeleteAll(g, h, all, i), h', DeleteAll(g, Mix(h, h', p), all, i), p)
    decreases |Living(h)|, if i <= |all| then |all| - i + 1 else 1
  {
    if i < |all| {
      if all[i].None? || h[all[i].value].wait == -1 {
        AllFrame(g, h, all, i + 1, h', p);
      } else {
        DeleteFrame(g, h, all[i].value, h', p);
        AllFrame(g, Delete(g, h, all[i].value).value, all, i + 1, h', p);
      }
    }
  }

  lemma {:induction false} GoFrame(g: seq<Node>, h: Heap, next: Option<nat>, h': Heap, p: set<nat>)
    requires |h| == |g| == |h'| && Gone(h, p) && Go(g, h, next).Some?
    ensures Framed(h, Go(g, h, next), h', Go(g, Mix(h, h', p), next), p)
    decreases |Living(h)|, 1
  {
    if next.Some? {
      var w := h[next.value].wait;
      if w > 1 { MixSet(h, h', p, next.value, h[next.value].(wait := w - 1)); }
      else if w != -1 { DeleteFrame(g, h, next.value, h', p); }
    }
  }

  // ----- deleting a statement

  /** The statement's nodes have not been touched. */
  predicate Whole(g: seq<Node>, h: Heap, p: set<nat>)
  {
    forall n | n in p :: n < |h| && n < |g| && h[n] == Cell(Alive, g[n].wait)
  }

  /** A node whose inside is done: what is left is `next`, as if the node were gone already. */
  lemma {:induction false} NodeDone(g: seq<Node>, h: Heap, n: nat, h2: Heap)
    requires |h| == |g| == |h2| && n < |h| && h[n].status.Alive? && !(g[n].stmt.Some? && g[n].stmt.value.SFork?)
    requires Inside(g, h[n := Cell(Dying, -1)], g[n]) == Some(h2) && h2[n] == Cell(Dying, -1)
    requires Go(g, Free(h2, {n}), g[n].next).Some?
    ensures Delete(g, h, n) == Go(g, Free(h2, {n}), g[n].next)
  {
    var h1 := Free(h2, {n});
    GoFrame(g, h1, g[n].next, h2, {n});
    assert Mix(h1, h2, {n}) == h2;
    var r := Go(g, h1, g[n].next).value;
    assert Mix(r, h2, {n})[n := Cell(Freed, -1)] == r;
  }

  /** Deleting the first node of a statement deletes all of it and then goes on to the continuation. */
  lemma {:induction false} DeleteLay(g: seq<Node>, h: Heap, lay: Lay, k: Option<nat>)
    requires |h| == |g| && Sound(lay) && Links(g, lay, k) && !lay.LNull? && Whole(g, h, Nodes(lay))
    requires Go(g, Free(h, Nodes(lay)), k).Some?
    ensures Entry(lay).Some? && Delete(g, h, Entry(lay).value) == Go(g, Free(h, Nodes(lay)), k)
    decreases lay, 3
  {
    hide NodesApart, IdsApart, Go, Delete;
    match lay
    case LAct(n, _) => DeletePlain(g, h, n, k);
    case LNop(n) => DeletePlain(g, h, n, k);
    case LSemi(_, ls) =>
      NodesSplit(ls, 0);
      var m :| 0 <= m < |ls| && !ls[m].LNull?;
      FirstEntryCont(ls, 0, m, None, k);
      GoEntry(g, h, lay, k);
      DeleteSemi(g, h, lay, 0, k);
    case LComma(_, _, _, _, _) => DeleteComma(g, h, lay, k);
    case LBranch(_, _, _, _, _, _, _) => DeleteBranch(g, h, lay, k);
  }

  lemma {:induction false} DeletePlain(g: seq<Node>, h: Heap, n: nat, k: Option<nat>)
    requires |h| == |g| && n < |g| && g[n].stmt.Some? && (g[n].stmt.value.SAct? || g[n].stmt.value.SNop?)
             && g[n].next == k
    requires h[n].status.Alive? && Go(g, Free(h, {n}), k).Some?
    ensures Delete(g, h, n) == Go(g, Free(h, {n}), k)
  {
    var h1 := h[n := Cell(Dying, -1)];
    assert Free(h1, {n}) == Free(h, {n});
    NodeDone(g, h, n, h1);
  }

  lemma {:induction false} FreeMore(h: Heap, p: set<nat>, q: set<nat>)
    ensures Free(Free(h, p), q) == Free(h, p + q)
  {
  }

  /** Nodes of the statements from position i on. */
  function NodesFrom(ls: seq<Lay>, i: nat): set<nat>
  {
    set j, x | i <= j < |ls| && x in Nodes(ls[j]) :: x
  }

  lemma {:induction false} NodesSplit(ls: seq<Lay>, i: nat)
    requires i < |ls|
    ensures NodesFrom(ls, i) == Nodes(ls[i]) + NodesFrom(ls, i + 1)
    ensures NodesApart(ls) ==> Nodes(ls[i]) !! NodesFrom(ls, i + 1)
    ensures NodesFrom(ls, 0) == NodesOf(ls)
  {
  }

  lemma {:induction false} GoEntry(g: seq<Node>, h: Heap, lay: Lay, k: Option<nat>)
    requires |h| == |g| && Sound(lay) && Links(g, lay, k) && !lay.LNull? && Whole(g, h, Nodes(lay))
    ensures Entry(lay).Some? && Go(g, h, Entry(lay)) == Delete(g, h, Entry(lay).value)
  {
    hide NodesApart, IdsApart, Delete;
    EntryStop(lay);
    EntryStmt(g, lay, k);
  }

  /** The statements of a sequence, from position i on. */
  lemma {:induction false} DeleteSemi(g: seq<Node>, h: Heap, lay: Lay, i: nat, k: Option<nat>)
    requires |h| == |g| && Sound(lay) && Links(g, lay, k) && lay.LSemi? && i <= |lay.ls|
    requires Whole(g, h, NodesFrom(lay.ls, i)) && Go(g, Free(h, NodesFrom(lay.ls, i)), k).Some?
    ensures Go(g, h, FirstEntry(lay.ls, i, k)) == Go(g, Free(h, NodesFrom(lay.ls, i)), k)
    decreases lay, 1, |lay.ls| - i
  {
    hide IdsApart, NodesApart, Go, Delete, Whole, Sound, Links, Nodes, NodesFrom, Free;
    if i == |lay.ls| {
      FreeNothing(h, lay.ls);
    } else {
      var l := lay.ls[i];
      SemiPart(g, lay, i, k);
      NodesSplit(lay.ls, i);
      WholeParts(g, h, Nodes(l), NodesFrom(lay.ls, i + 1));
      if l.LNull? {
        assert NodesFrom(lay.ls, i) == NodesFrom(lay.ls, i + 1);
        DeleteSemi(g, h, lay, i + 1, k);
      } else {
        FreeMore(h, Nodes(l), NodesFrom(lay.ls, i + 1));
        DeleteSemi(g, Free(h, Nodes(l)), lay, i + 1, k);
        DeleteLay(g, h, l, FirstEntry(lay.ls, i + 1, k));
        GoEntry(g, h, l, FirstEntry(lay.ls, i + 1, k));
      }
    }
  }

  lemma FreeNothing(h: Heap, ls: seq<Lay>)
    ensures NodesFrom(ls, |ls|) == {} && Free(h, NodesFrom(ls, |ls|)) == h
  {
  }

  lemma {:induction false} SemiPart(g: seq<Node>, lay: Lay, i: nat, k: Option<nat>)
    requires Sound(lay) && Links(g, lay, k) && lay.LSemi? && i < |lay.ls|
    ensures Sound(lay.ls[i]) && Links(g, lay.ls[i], FirstEntry(lay.ls, i + 1, k)) && NodesApart(lay.ls)
    ensures lay.ls[i].LNull? ==> Nodes(lay.ls[i]) == {}
  {
  }

  lemma {:induction false} WholeParts(g: seq<Node>, h: Heap, p: set<nat>, q: set<nat>)
    requires Whole(g, h, p + q)
    ensures Whole(g, h, p) && Whole(g, h, q) && (p !! q ==> Whole(g, Free(h, p), q))
  {
  }

  // ----- a comma

  /** The branches before i have been deleted; their arrivals at the join have been counted. */
  function Forking(h: Heap, lay: Lay, i: nat): (r: Heap)
    requires lay.LComma? && i <= |lay.ls| && lay.fork < |h| && lay.join < |h|
    ensures |r| == |h|
  {
    Free(h[lay.fork := Cell(Dying, -1)][lay.join := Cell(Alive, BusyFrom(lay.ls, i))], NodesOf(lay.ls[..i]))
  }

  /** Nodes outside the branches seen so far are as they were. */
  lemma {:induction false} ForkingNext(g: seq<Node>, h: Heap, lay: Lay, i: nat)
    requires |h| == |g| && Sound(lay) && lay.LComma? && i < |lay.ls| && lay.fork < |h| && lay.join < |h|
    requires Whole(g, h, Nodes(lay))
    ensures Whole(g, Forking(h, lay, i), Nodes(lay.ls[i]))
    ensures Forking(h, lay, i)[lay.join] == Cell(Alive, BusyFrom(lay.ls, i))
    ensures Free(Forking(h, lay, i), Nodes(lay.ls[i]))[lay.join := Cell(Alive, BusyFrom(lay.ls, i + 1))]
            == Forking(h, lay, i + 1)
    ensures Free(Forking(h, lay, i), Nodes(lay.ls[i]))[lay.join] == Cell(Alive, BusyFrom(lay.ls, i))
  {
    hide IdsApart, NodesApart, NodesOf;
    NodesUpTo(lay.ls, i);
    SubNodes(lay.ls, i);
  }

  lemma {:induction false} NodesUpTo(ls: seq<Lay>, i: nat)
    requires i < |ls|
    ensures NodesOf(ls[..i + 1]) == NodesOf(ls[..i]) + Nodes(ls[i]) && NodesOf(ls[..i + 1]) <= NodesOf(ls)
    ensures NodesApart(ls) ==> NodesOf(ls[..i]) !! Nodes(ls[i])
  {
    assert forall j | 0 <= j < i :: ls[..i + 1][j] == ls[..i][j] == ls[j];
    assert ls[..i + 1][i] == ls[i];
    forall x | x in NodesOf(ls[..i]) ensures x in NodesOf(ls[..i + 1]) {
      var j :| 0 <= j < i && x in Nodes(ls[..i][j]);
      assert x in Nodes(ls[..i + 1][j]);
    }
  }

  /** The branches from i on: with none left that has nodes, nothing happens; else the last one frees the join. */
  lemma {:induction false} DeleteBranches(g: seq<Node>, h: Heap, lay: Lay, i: nat, k: Option<nat>)
    requires |h| == |g| && Sound(lay) && Links(g, lay, k) && lay.LComma? && i <= |lay.ls| && Whole(g, h, Nodes(lay))
    requires BusyFrom(lay.ls, i) > 0
    requires Go(g, Free(h[lay.fork := Cell(Dying, -1)], NodesOf(lay.ls) + {lay.join}), k).Some?
    ensures DeleteAll(g, Forking(h, lay, i), Entries(lay.ls), i)
            == Go(g, Free(h[lay.fork := Cell(Dying, -1)], NodesOf(lay.ls) + {lay.join}), k)
    decreases lay, 1, |lay.ls| - i
  {
    hide Go, Delete, DeleteAll, Whole, Forking, Sound, Links, Nodes, NodesOf, BusyFrom, Entries, Entry;
    BusyStep(lay.ls, i);
    CommaNodes(g, lay, k);
    var l := lay.ls[i];
    var hi := Forking(h, lay, i);
    ForkingNext(g, h, lay, i);
    SoundPart(lay, i);
    if l.LNull? {
      AllSkips(g, hi, lay.ls, i);
      assert Free(hi, {}) == hi;
      assert hi[lay.join := Cell(Alive, BusyFrom(lay.ls, i))] == hi;
      DeleteBranches(g, h, lay, i + 1, k);
    } else {
      JoinTurn(g, h, lay, i, k);
      DeleteLay(g, hi, l, Some(lay.join));
      EntryIs(g, hi, l, Some(lay.join));
      AllDeletes(g, hi, lay.ls, i);
      if BusyFrom(lay.ls, i) > 1 {
        DeleteBranches(g, h, lay, i + 1, k);
      } else {
        RestEmpty(g, Go(g, Free(hi, Nodes(l)), Some(lay.join)).value, lay.ls, i + 1);
      }
    }
  }

  lemma BusyStep(ls: seq<Lay>, i: nat)
    requires BusyFrom(ls, i) > 0
    ensures i < |ls| && BusyFrom(ls, i) == BusyFrom(ls, i + 1) + if ls[i].LNull? then 0 else 1
  {
  }

  lemma CommaNodes(g: seq<Node>, lay: Lay, k: Option<nat>)
    requires Links(g, lay, k) && lay.LComma?
    ensures lay.fork < |g| && g[lay.fork] == Node(Some(SFork(|lay.ls|)), Some(lay.join), Entries(lay.ls), 0, 0)
    ensures lay.join < |g| && g[lay.join] == Node(None, k, [], Busy(lay.ls), lay.tix)
    ensures lay.fork in Nodes(lay) && lay.join in Nodes(lay) && Nodes(lay) == {lay.fork, lay.join} + NodesOf(lay.ls)
    ensures forall i | 0 <= i < |lay.ls| :: Links(g, lay.ls[i], Some(lay.join))
  {
    hide Entries, Busy, NodesOf;
  }

  lemma AllSkips(g: seq<Node>, h: Heap, ls: seq<Lay>, i: nat)
    requires |h| == |g| && i < |ls| && Entry(ls[i]).None?
    ensures DeleteAll(g, h, Entries(ls), i) == DeleteAll(g, h, Entries(ls), i + 1)
  {
    hide Entry;
  }

  lemma AllDeletes(g: seq<Node>, h: Heap, ls: seq<Lay>, i: nat)
    requires |h| == |g| && i < |ls| && Entry(ls[i]).Some? && Entry(ls[i]).value < |h|
    requires h[Entry(ls[i]).value] == Cell(Alive, 0)
    ensures DeleteAll(g, h, Entries(ls), i)
            == match Delete(g, h, Entry(ls[i]).value)
               case None => None
               case Some(h2) => DeleteAll(g, h2, Entries(ls), i + 1)
  {
    hide Entry, Delete;
  }

  lemma SoundPart(lay: Lay, i: nat)
    requires Sound(lay) && (lay.LSemi? || lay.LComma? || lay.LBranch?) && i < |lay.ls|
    ensures Sound(lay.ls[i]) && (lay.ls[i].LNull? ==> Entry(lay.ls[i]).None? && Nodes(lay.ls[i]) == {})
  {
  }

  lemma {:induction false} EntryIs(g: seq<Node>, h: Heap, lay: Lay, k: Option<nat>)
    requires |h| == |g| && Sound(lay) && Links(g, lay, k) && !lay.LNull? && Whole(g, h, Nodes(lay))
    ensures Entry(lay).Some? && Entry(lay).value < |h| && h[Entry(lay).value] == Cell(Alive, 0)
  {
    hide NodesApart, IdsApart;
    EntryStop(lay);
    EntryStmt(g, lay, k);
  }

  /** What happens at the join when a branch that has nodes has been deleted. */
  lemma {:induction false} JoinTurn(g: seq<Node>, h: Heap, lay: Lay, i: nat, k: Option<nat>)
    requires |h| == |g| && Sound(lay) && Links(g, lay, k) && lay.LComma? && i < |lay.ls| && Whole(g, h, Nodes(lay))
    requires !lay.ls[i].LNull?
    requires Go(g, Free(h[lay.fork := Cell(Dying, -1)], NodesOf(lay.ls) + {lay.join}), k).Some?
    ensures Go(g, Free(Forking(h, lay, i), Nodes(lay.ls[i])), Some(lay.join))
            == if BusyFrom(lay.ls, i) > 1 then Some(Forking(h, lay, i + 1))
               else Go(g, Free(h[lay.fork := Cell(Dying, -1)], NodesOf(lay.ls) + {lay.join}), k)
  {
    hide Whole, Sound, Links, Nodes, NodesOf, BusyFrom, Forking, Delete, Entries, Busy;
    BusyThere(lay.ls, i);
    BusyStep(lay.ls, i);
    CommaNodes(g, lay, k);
    ForkingNext(g, h, lay, i);
    var hj := Free(Forking(h, lay, i), Nodes(lay.ls[i]));
    if BusyFrom(lay.ls, i) <= 1 {
      LastFrees(h, lay, i);
      NodeDone(g, hj, lay.join, hj[lay.join := Cell(Dying, -1)]);
    }
  }

  lemma BusyThere(ls: seq<Lay>, i: nat)
    requires i < |ls| && !ls[i].LNull?
    ensures BusyFrom(ls, i) > 0
  {
  }

  lemma {:induction false} LastFrees(h: Heap, lay: Lay, i: nat)
    requires Sound(lay) && lay.LComma? && i < |lay.ls| && !lay.ls[i].LNull? && BusyFrom(lay.ls, i) <= 1
    requires lay.fork < |h| && lay.join < |h|
    ensures Free(Free(Forking(h, lay, i), Nodes(lay.ls[i]))[lay.join := Cell(Dying, -1)], {lay.join})
            == Free(h[lay.fork := Cell(Dying, -1)], NodesOf(lay.ls) + {lay.join})
  {
    hide Sound, Nodes, NodesOf, BusyFrom;
    LastBranch(lay.ls, i);
    NodesUpTo(lay.ls, i);
    ForkApart(lay);
  }

  lemma ForkApart(lay: Lay)
    requires Sound(lay) && lay.LComma?
    ensures lay.fork != lay.join && lay.fork !in NodesOf(lay.ls) && lay.join !in NodesOf(lay.ls)
  {
  }

  lemma {:induction false} LastBranch(ls: seq<Lay>, i: nat)
    requires i < |ls| && !ls[i].LNull? && BusyFrom(ls, i) <= 1
    ensures NodesOf(ls[..i + 1]) == NodesOf(ls)
  {
    forall x | x in NodesOf(ls) ensures x in NodesOf(ls[..i + 1]) {
      var j :| 0 <= j < |ls| && x in Nodes(ls[j]);
      if j > i { NoBusy(ls, i + 1, j); }
      assert x in Nodes(ls[..i + 1][j]);
    }
    assert NodesOf(ls[..i + 1]) <= NodesOf(ls) by { NodesUpTo(ls, i); }
  }

  lemma NoBusy(ls: seq<Lay>, i: nat, j: nat)
    requires i <= j < |ls| && BusyFrom(ls, i) == 0
    ensures ls[j].LNull?
    decreases j - i
  {
    if i < j { NoBusy(ls, i + 1, j); }
  }

  lemma {:induction false} RestEmpty(g: seq<Node>, h: Heap, ls: seq<Lay>, i: nat)
    requires |h| == |g| && i <= |ls| && BusyFrom(ls, i) == 0
    ensures DeleteAll(g, h, Entries(ls), i) == Some(h)
    decreases |ls| - i
  {
    if i < |ls| { RestEmpty(g, h, ls, i + 1); }
  }

  lemma {:induction false} DeleteComma(g: seq<Node>, h: Heap, lay: Lay, k: Option<nat>)
    requires |h| == |g| && Sound(lay) && Links(g, lay, k) && lay.LComma? && Whole(g, h, Nodes(lay))
    requires Go(g, Free(h, Nodes(lay)), k).Some?
    ensures Delete(g, h, lay.fork) == Go(g, Free(h, Nodes(lay)), k)
    decreases lay, 2
  {
    hide Go, Delete, DeleteAll, Sound, Links, Nodes, NodesOf, Forking, Entries, BusyFrom, Busy, Whole;
    CommaNodes(g, lay, k);
    var f := lay.fork;
    var h1 := h[f := Cell(Dying, -1)];
    ForkingNone(g, h, lay);
    GoFrame(g, Free(h, Nodes(lay)), k, h1, {f});
    ForkApart(lay);
    assert Mix(Free(h, Nodes(lay)), h1, {f}) == Free(h1, NodesOf(lay.ls) + {lay.join});
    DeleteBranches(g, h, lay, 0, k);
    var r := Go(g, Free(h, Nodes(lay)), k).value;
    DeleteFork(g, h, f, Mix(r, h1, {f}));
    assert Mix(r, h1, {f})[f := Cell(Freed, -1)] == r;
  }

  lemma {:induction false} ForkingNone(g: seq<Node>, h: Heap, lay: Lay)
    requires |h| == |g| && Sound(lay) && lay.LComma? && Whole(g, h, Nodes(lay))
    requires lay.join < |g| && g[lay.join].wait == Busy(lay.ls) && lay.fork < |g| && g[lay.fork].wait == 0
    ensures h[lay.fork] == Cell(Alive, 0) && BusyFrom(lay.ls, 0) > 0
    ensures Forking(h, lay, 0) == h[lay.fork := Cell(Dying, -1)]
  {
    hide NodesApart, IdsApart;
    BusyFromAll(lay.ls, 0);
    assert lay.ls[..0] == [];
    BusyPositive(lay.ls);
    assert lay.fork in Nodes(lay) && lay.join in Nodes(lay);
  }

  /** The destructor of a fork frees it when its branches have been deleted. */
  lemma DeleteFork(g: seq<Node>, h: Heap, f: nat, h2: Heap)
    requires |h| == |g| == |h2| && f < |g| && g[f].stmt.Some? && g[f].stmt.value.SFork? && h[f].status.Alive?
    requires DeleteAll(g, h[f := Cell(Dying, -1)], g[f].all, 0) == Some(h2) && h2[f] == Cell(Dying, -1)
    ensures Delete(g, h, f) == Some(h2[f := Cell(Freed, -1)])
  {
    hide DeleteAll;
  }

  // ----- a selection or loop

  /** The alternatives before i have been deleted; the closing node is marked. */
  function Choosing(h: Heap, lay: Lay, i: nat): (r: Heap)
    requires lay.LBranch? && i <= |lay.ls| && lay.n < |h| && lay.stop < |h|
    ensures |r| == |h|
  {
    Free(h[lay.n := Cell(Dying, -1)][lay.stop := Cell(Alive, -1)], NodesOf(lay.ls[..i]))
  }

  lemma {:induction false} ChoosingNext(g: seq<Node>, h: Heap, lay: Lay, i: nat)
    requires |h| == |g| && Sound(lay) && lay.LBranch? && i < |lay.ls| && lay.n < |h| && lay.stop < |h|
    requires Whole(g, h, Nodes(lay))
    ensures Whole(g, Choosing(h, lay, i), Nodes(lay.ls[i]))
    ensures Free(Choosing(h, lay, i), Nodes(lay.ls[i])) == Choosing(h, lay, i + 1)
    ensures Choosing(h, lay, i)[lay.n] == Cell(Dying, -1) && Choosing(h, lay, i)[lay.stop] == Cell(Alive, -1)
    ensures Choosing(h, lay, i + 1)[lay.n] == Cell(Dying, -1) && Choosing(h, lay, i + 1)[lay.stop] == Cell(Alive, -1)
  {
    hide IdsApart, NodesOf, Nodes, NodesApart, Whole;
    NodesUpTo(lay.ls, i);
    BranchApart(lay, i);
    WholeChoice(g, h, lay, i);
    FreeMore(h[lay.n := Cell(Dying, -1)][lay.stop := Cell(Alive, -1)], NodesOf(lay.ls[..i]), Nodes(lay.ls[i]));
  }

  lemma {:induction false} BranchApart(lay: Lay, i: nat)
    requires Sound(lay) && lay.LBranch? && i < |lay.ls|
    ensures lay.n != lay.stop && NodesApart(lay.ls)
    ensures lay.n !in NodesOf(lay.ls[..i + 1]) && lay.stop !in NodesOf(lay.ls[..i + 1])
    ensures lay.n !in NodesOf(lay.ls[..i]) && lay.stop !in NodesOf(lay.ls[..i])
  {
    NodesUpTo(lay.ls, i);
  }

  lemma {:induction false} WholeChoice(g: seq<Node>, h: Heap, lay: Lay, i: nat)
    requires |h| == |g| && Sound(lay) && lay.LBranch? && i < |lay.ls| && lay.n < |h| && lay.stop < |h|
    requires Whole(g, h, Nodes(lay))
    ensures Whole(g, Choosing(h, lay, i), Nodes(lay.ls[i]))
  {
    hide IdsApart, NodesApart, NodesOf, Links;
    NodesUpTo(lay.ls, i);
    SubNodes(lay.ls, i);
  }

  lemma {:induction false} DeleteAlternatives(g: seq<Node>, h: Heap, lay: Lay, i: nat, k: Option<nat>)
    requires |h| == |g| && Sound(lay) && Links(g, lay, k) && lay.LBranch? && i <= |lay.ls| && Whole(g, h, Nodes(lay))
    ensures DeleteAll(g, Choosing(h, lay, i), Targets(lay.ls, if lay.isLoop then lay.n else lay.stop), i)
            == Some(Choosing(h, lay, |lay.ls|))
    decreases lay, 1, |lay.ls| - i
  {
    hide IdsApart, NodesApart, Delete, Whole, Choosing, Sound;
    if i < |lay.ls| {
      var l := lay.ls[i];
      var hi := Choosing(h, lay, i);
      var back := if lay.isLoop then lay.n else lay.stop;
      ChoosingNext(g, h, lay, i);
      SoundPart(lay, i);
      DeleteAlternatives(g, h, lay, i + 1, k);
      if l.LNull? {
        assert Free(hi, {}) == hi;
      } else {
        EntryIs(g, hi, l, Some(back));
        DeleteLay(g, hi, l, Some(back));
      }
    }
  }

  lemma {:induction false} DeleteBranch(g: seq<Node>, h: Heap, lay: Lay, k: Option<nat>)
    requires |h| == |g| && Sound(lay) && Links(g, lay, k) && lay.LBranch? && Whole(g, h, Nodes(lay))
    requires Go(g, Free(h, Nodes(lay)), k).Some?
    ensures Delete(g, h, lay.n) == Go(g, Free(h, Nodes(lay)), k)
    decreases lay, 2
  {
    hide IdsApart, NodesApart, Go, DeleteAll;
    var n, x := lay.n, lay.stop;
    var h1 := h[n := Cell(Dying, -1)];
    DeleteAlternatives(g, h, lay, 0, k);
    assert lay.ls[..0] == [] && lay.ls[..|lay.ls|] == lay.ls;
    assert Choosing(h, lay, 0) == h1[x := h1[x].(wait := -1)];
    var h2 := Free(h1, NodesOf(lay.ls));
    assert Choosing(h, lay, |lay.ls|)[x := Cell(Alive, 0)] == h2;
    assert Inside(g, h1, g[n]) == Some(h2);
    DeleteClosing(g, Free(h2, {n}), x, k, Free(h, Nodes(lay)));
    NodeDone(g, h, n, h2);
  }

  /** The closing node. */
  lemma {:induction false} DeleteClosing(g: seq<Node>, h: Heap, x: nat, k: Option<nat>, h': Heap)
    requires |h| == |g| == |h'| && x < |g| && g[x] == Node(None, k, [], 0, 0) && h[x] == Cell(Alive, 0)
    requires h' == Free(h, {x}) && Go(g, h', k).Some?
    ensures Go(g, h, Some(x)) == Go(g, h', k)
  {
    assert Free(h[x := Cell(Dying, -1)], {x}) == h';
    NodeDone(g, h, x, h[x := Cell(Dying, -1)]);
  }

  // ----- the whole graph

  function AllNew(g: seq<Node>): (h: Heap)
    ensures |h| == |g|
  {
    seq(|g|, n requires 0 <= n < |g| => Cell(Alive, g[n].wait))
  }

  /**
   Deleting the entry of any compiled graph terminates without touching a deleted node, deletes every node,
   and deletes none twice.
   */
  lemma {:induction false} DestroyAll(g: seq<Node>, cur: nat, c: Cmd, ret: Option<nat>, stop: nat, lay: Lay)
    requires Built([], g, 0, cur, c, ret, stop, lay) && ret.Some?
    ensures var r := Delete(g, AllNew(g), ret.value); r.Some? && forall n | 0 <= n < |g| :: r.value[n].status.Freed?
  {
    hide Of, Sound, Links, Delete;
    DeleteLay(g, AllNew(g), lay, None);
  }

  /** The destructor as it runs, on the `wait` fields in place. */
  class Destructor {
    const g: seq<Node>
    const cells: array<Cell>

    constructor (g: seq<Node>)
      ensures this.g == g && fresh(cells) && cells.Length == |g| && cells[..] == AllNew(g)
    {
      this.g := g;
      cells := new Cell[|g|](n requires 0 <= n < |g| => Cell(Alive, g[n].wait));
      new;
      assert cells[..] == AllNew(g);
    }

    method Destroy(n: nat)
      requires cells.Length == |g| && Delete(g, cells[..], n).Some?
      modifies cells
      ensures cells[..] == Delete(g, old(cells[..]), n).value
      decreases |Living(cells[..])|, 0
    {
      LivingLess(cells[..], n, Cell(Dying, -1));
      cells[n] := Cell(Dying, -1);
      assert cells[..] == old(cells[..])[n := Cell(Dying, -1)];
      DestroyInside(g[n]);
      if !(g[n].stmt.Some? && g[n].stmt.value.SFork?) {
        DestroyNext(g[n].next);
      }
      cells[n] := cells[n].(status := Freed);
    }

    method DestroyInside(n: Node)
      requires cells.Length == |g| && Inside(g, cells[..], n).Some?
      modifies cells
      ensures cells[..] == Inside(g, old(cells[..]), n).value
      decreases |Living(cells[..])|, |n.all| + 2
    {
      if n.stmt.Some? {
        match n.stmt.value
        case SFork(_) => DestroyEach(n.all);
        case SAct(_) =>
        case SNop =>
        case _ =>
          var x := n.next.value;
          var nw := cells[x].wait;
          LivingSame(cells[..], x, -1);
          cells[x] := cells[x].(wait := -1);
          assert cells[..] == old(cells[..])[x := old(cells[..])[x].(wait := -1)];
          DestroyEach(n.all);
          cells[x] := cells[x].(wait := nw);
      }
    }

    method DestroyEach(all: seq<Option<nat>>)
      requires cells.Length == |g| && DeleteAll(g, cells[..], all, 0).Some?
      modifies cells
      ensures cells[..] == DeleteAll(g, old(cells[..]), all, 0).value
      decreases |Living(cells[..])|, |all| + 1
    {
      ghost var result := DeleteAll(g, cells[..], all, 0);
      for i := 0 to |all|
        invariant DeleteAll(g, cells[..], all, i) == result
        invariant |Living(cells[..])| <= |Living(old(cells[..]))|
      {
        if all[i].Some? && cells[all[i].value].wait != -1 {
          Destroy(all[i].value);
        }
      }
    }

    method DestroyNext(next: Option<nat>)
      requires cells.Length == |g| && Go(g, cells[..], next).Some?
      modifies cells
      ensures cells[..] == Go(g, old(cells[..]), next).value
      decreases |Living(cells[..])|, 1
    {
      if next.Some? {
        if cells[next.value].wait > 1 {
          cells[next.value] := cells[next.value].(wait := cells[next.value].wait - 1);
        } else if cells[next.value].wait != -1 {
          Destroy(next.value);
        }
      }
    }
  }
}
