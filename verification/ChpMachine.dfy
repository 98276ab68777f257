/**
 The simulator object itself: arrays of program counters, free slots and join counters, updated in place by
 each event. Every method is tied to the function of the same name on the abstract state.
 */
module ChpMachine {
  import opened Prelude
  import opened ChpLang
  import opened ChpGraph
  import Spec = ChpSim

  /** The positions of true guards, in order, among the first n. */
  function TrueGuards<S>(env: Env<S>, guards: seq<Option<nat>>, st: S, n: nat): seq<nat>
    requires n <= |guards|
  {
    if n == 0 then []
    else TrueGuards(env, guards, st, n - 1)
         + if guards[n - 1].Some? && env.holds(guards[n - 1].value, st) then [n - 1] else []
  }

  lemma TrueGuardsAre<S>(env: Env<S>, guards: seq<Option<nat>>, st: S, n: nat)
    requires n <= |guards|
    ensures var ts := TrueGuards(env, guards, st, n);
            && (forall i | 0 <= i < |ts| :: ts[i] < n && guards[ts[i]].Some? && env.holds(guards[ts[i]].value, st))
            && (forall j | 0 <= j < n && guards[j].Some? && env.holds(guards[j].value, st) :: j in ts)
            && (forall i, j | 0 <= i < j < |ts| :: ts[i] < ts[j])
  {
  }

  /** A true guard that is the first one, or any one in the nondeterministic selection, may be taken. */
  lemma TrueAllowed<S>(env: Env<S>, arb: bool, guards: seq<Option<nat>>, st: S, k: nat)
    requires ElseLast(guards) && k < |TrueGuards(env, guards, st, |guards|)| && (arb || k == 0)
    ensures var i := TrueGuards(env, guards, st, |guards|)[k];
            Allowed(env, arb, guards, st, i) && i < |guards| && guards[i].Some?
  {
    TrueGuardsAre(env, guards, st, |guards|);
    var ts := TrueGuards(env, guards, st, |guards|);
    if !arb {
      forall j | 0 <= j < ts[0] ensures !Matches(env, guards, st, j) {
        assert j !in ts;
      }
    }
  }

  /** Without a true guard only the unguarded alternative may be taken. */
  lemma ElseAllowed<S>(env: Env<S>, arb: bool, guards: seq<Option<nat>>, st: S)
    requires ElseLast(guards) && TrueGuards(env, guards, st, |guards|) == []
    ensures AnyMatch(env, guards, st) <==> guards != [] && guards[|guards| - 1].None?
    ensures AnyMatch(env, guards, st) ==> Allowed(env, arb, guards, st, |guards| - 1)
  {
    hide TrueGuards;
    TrueGuardsAre(env, guards, st, |guards|);
    forall j | 0 <= j < |guards| ensures Matches(env, guards, st, j) <==> j == |guards| - 1 && guards[j].None? {
      assert j !in TrueGuards(env, guards, st, |guards|);
    }
  }

  /**
   The choice at a selection or loop, in two passes as the simulator makes it: collect the true guards, pick
   one of them, then walk the alternatives again to find it, or else the unguarded one.
   */
  method Choose<S>(env: Env<S>, arb: bool, guards: seq<Option<nat>>, st: S, random: nat) returns (choice: Option<nat>)
    requires ElseLast(guards)
    ensures choice.None? <==> !AnyMatch(env, guards, st)
    ensures choice.Some? ==> Allowed(env, arb, guards, st, choice.value)
    ensures var ts := TrueGuards(env, guards, st, |guards|); arb && random < |ts| ==> choice == Some(ts[random])
  {
    var cnt := 0;
    var list: seq<nat> := [];
    for i := 0 to |guards|
      invariant cnt == if i == |guards| && i > 0 && guards[i - 1].None? then i - 1 else i
      invariant list == TrueGuards(env, guards, st, i)
    {
      if guards[i].Some? {
        if env.holds(guards[i].value, st) { list := list + [cnt]; }
        cnt := cnt + 1;
      }
    }
    var at := if arb && random < |list| then random else 0;
    if list != [] { TrueAllowed(env, arb, guards, st, at); } else { ElseAllowed(env, arb, guards, st); }
    choice := Find(guards, if list != [] then Some(list[at]) else None);
    if choice.Some? { assert AnyMatch(env, guards, st) by { assert Matches(env, guards, st, choice.value); } }
  }

  /** The first alternative that is the chosen one or has no guard. */
  method Find(guards: seq<Option<nat>>, chosen: Option<nat>) returns (choice: Option<nat>)
    requires ElseLast(guards) && (chosen.Some? ==> chosen.value < |guards| && guards[chosen.value].Some?)
    ensures chosen.Some? ==> choice == chosen
    ensures chosen.None? ==> choice == if guards != [] && guards[|guards| - 1].None? then Some(|guards| - 1) else None
  {
    var cnt := 0;
    while cnt < |guards|
      invariant cnt <= |guards|
      invariant forall j | 0 <= j < cnt :: guards[j].Some? && Some(j) != chosen
    {
      if Some(cnt) == chosen || guards[cnt].None? { return Some(cnt); }
      cnt := cnt + 1;
    }
    choice := None;
  }

  /** At a selection or loop with a true guard: an alternative that may be taken, a random one where that matters. */
  predicate Chosen<S>(env: Env<S>, arb: bool, guards: seq<Option<nat>>, st: S, random: nat, pick: nat)
  {
    var ts := TrueGuards(env, guards, st, |guards|);
    AnyMatch(env, guards, st) ==>
      Allowed(env, arb, guards, st, pick) && (arb && random < |ts| ==> pick == ts[random])
  }

  /** The alternative an event of slot s goes on with. */
  predicate Picked<S>(g: seq<Node>, env: Env<S>, m: Spec.Mach<S>, s: nat, random: nat, pick: nat)
  {
    match Spec.NodeOf(g, m, s)
    case None => true
    case Some(n) =>
      match n.stmt
      case Some(SCond(arb, guards)) => Chosen(env, arb, guards, m.store, random, pick)
      case Some(SLoop(guards)) => Chosen(env, false, guards, m.store, random, pick)
      case _ => true
  }

  /** An event at a selection acts if any guard is true, and an event at a loop always does. */
  lemma {:induction false} PickedActs<S>(g: seq<Node>, env: Env<S>, m: Spec.Mach<S>, s: nat, random: nat, pick: nat)
    requires Picked(g, env, m, s, random, pick)
    ensures match Spec.NodeOf(g, m, s)
            case Some(Node(Some(SCond(_, guards)), _, _, _, _)) =>
              Spec.Acts(g, env, m, s, pick) <==> AnyMatch(env, guards, m.store)
            case Some(Node(Some(SLoop(_)), _, _, _, _)) => Spec.Acts(g, env, m, s, pick)
            case _ => true
  {
    hide TrueGuards;
    match Spec.NodeOf(g, m, s)
    case Some(Node(Some(SCond(arb, guards)), _, _, _, _)) =>
      if Spec.Acts(g, env, m, s, pick) { assert Matches(env, guards, m.store, pick); }
    case _ =>
  }

  class Simulator<!S> {
    const g: seq<Node>
    const env: Env<S>
    const pc: array<Option<nat>>
    const holes: array<int>
    const tot: array<nat>
    var used: nat
    var store: S

    /** The arrays are different objects. */
    ghost predicate Separate()
    {
      (pc as object) != (holes as object) && (pc as object) != (tot as object) && (holes as object) != (tot as object)
    }

    /** The abstract state. */
    ghost function State(): Spec.Mach<S>
      reads this, pc, holes, tot
    {
      Spec.Mach(pc[..], holes[..], used, tot[..], store)
    }

    constructor (g: seq<Node>, env: Env<S>, entry: Option<nat>, npc: nat, counters: nat, store: S)
      requires npc >= 1
      ensures Separate() && fresh(pc) && fresh(holes) && fresh(tot)
      ensures this.g == g && this.env == env
      ensures State() == Spec.Initial(npc, counters, entry, store)
    {
      this.g, this.env, this.store, used := g, env, store, 1;
      pc := new Option<nat>[npc](_ => None);
      holes := new int[npc](i => i);
      tot := new nat[counters](_ => 0);
      new;
      pc[0] := entry;
      holes[0] := -1;
      assert pc[..] == Spec.Initial(npc, counters, entry, store).pc;
      assert holes[..] == Spec.Initial(npc, counters, entry, store).holes;
    }

    method Release(s: nat)
      requires Separate() && Spec.Release(State(), s).Some?
      modifies this`used, pc, holes
      ensures State() == Spec.Release(old(State()), s).value
    {
      pc[s] := None;
      holes[used - 1] := s;
      used := used - 1;
    }

    method UpdatePc(s: nat)
      requires Separate() && Spec.UpdatePc(g, State(), s).Some?
      modifies this`used, pc, holes, tot
      ensures State() == Spec.UpdatePc(g, old(State()), s).value
    {
      var n := g[pc[s].value];
      if n.next.None? || (n.stmt.Some? && n.stmt.value.SCond?) {
        Release(s);
      } else if g[n.next.value].wait > 0 {
        var x := g[n.next.value].totidx;
        tot[x] := tot[x] + 1;
        if g[n.next.value].wait == tot[x] {
          tot[x] := 0;
          pc[s] := n.next;
        } else {
          Release(s);
        }
      } else {
        pc[s] := n.next;
      }
    }

    /** Goes on to the next statement; says whether the slot moved. */
    method NextEvent(s: nat) returns (moved: bool)
      requires Separate() && Spec.Fold(g, State(), s).Some?
      modifies this`used, pc, holes, tot
      ensures State() == Spec.Fold(g, old(State()), s).value
      ensures s < pc.Length && (pc[s].Some? ==> (moved <==> pc[s] != old(pc[s])))
    {
      moved := false;
      ghost var start := State();
      while pc[s].Some? && g[pc[s].value].stmt.None?
        invariant Spec.Fold(g, State(), s) == Spec.Fold(g, start, s) && Spec.Fold(g, start, s).Some?
                  && |State().pc| == |start.pc|
        invariant s < pc.Length
        invariant if moved then Spec.Height(g, State(), s) < Spec.Height(g, start, s) else State() == start
        decreases Spec.Height(g, State(), s)
      {
        ghost var before := State();
        Spec.UpdatePcShape(g, before, s);
        UpdatePc(s);
        moved := true;
      }
    }

    /** Starts the branches of a comma; the first keeps the slot, the others take free ones. */
    method Fork(s: nat, all: seq<Option<nat>>)
      requires Separate() && Spec.Fork(g, State(), s, all, 0, true).Some?
      modifies this`used, pc, holes, tot
      ensures State() == Spec.Fork(g, old(State()), s, all, 0, true).value
    {
      var first := true;
      ghost var result := Spec.Fork(g, State(), s, all, 0, true);
      for i := 0 to |all|
        invariant Spec.Fork(g, State(), s, all, i, first) == result && result.Some?
      {
        if all[i].Some? {
          var idx := s;
          if first {
            first := false;
          } else {
            idx := holes[used];
            used := used + 1;
            holes[used - 1] := -1;
          }
          pc[idx] := all[i];
          var _ := NextEvent(idx);
        }
      }
    }

    /** One event. `random` resolves a nondeterministic selection; `pick` is the alternative it came to. */
    method Step(s: nat, flag: bool, random: nat) returns (pick: nat)
      requires Separate() && forall p :: Spec.Step(g, env, State(), s, flag, p).Some?
      requires forall n | 0 <= n < |g| && g[n].stmt.Some? ::
                 (g[n].stmt.value.SCond? || g[n].stmt.value.SLoop? ==> ElseLast(g[n].stmt.value.guards))
      modifies this, pc, holes, tot
      ensures State() == Spec.Step(g, env, old(State()), s, flag, pick).value
      ensures Spec.Fold(g, old(State()), s).Some?
      ensures Picked(g, env, Spec.Fold(g, old(State()), s).value, s, random, pick)
    {
      hide TrueGuards, Allowed, AnyMatch;
      pick := 0;
      ghost var start := State();
      assert Spec.Step(g, env, start, s, flag, 0).Some?;
      var moved := NextEvent(s);
      if pc[s].None? { return; }
      var fl := flag && !moved;
      ghost var m := State();
      assert forall p :: Spec.Step(g, env, start, s, flag, p) == Spec.Execute(g, env, m, s, fl, p);
      pick := Execute(s, fl, random);
    }

    method Execute(s: nat, flag: bool, random: nat) returns (pick: nat)
      requires Separate() && forall p :: Spec.Execute(g, env, State(), s, flag, p).Some?
      requires forall n | 0 <= n < |g| && g[n].stmt.Some? ::
                 (g[n].stmt.value.SCond? || g[n].stmt.value.SLoop? ==> ElseLast(g[n].stmt.value.guards))
      modifies this, pc, holes, tot
      ensures State() == Spec.Execute(g, env, old(State()), s, flag, pick).value
      ensures Picked(g, env, old(State()), s, random, pick)
    {
      hide TrueGuards;
      pick := 0;
      ghost var m := State();
      assert Spec.Execute(g, env, m, s, flag, 0).Some?;
      var n := g[pc[s].value];
      match n.stmt.value
      case SFork(_) =>
        Fork(s, n.all);
      case SNop =>
        UpdatePc(s);
        var _ := NextEvent(s);
      case SAct(a) =>
        var o := env.run(a, flag, store);
        store := o.store;
        if o.done {
          UpdatePc(s);
          var _ := NextEvent(s);
        }
      case SCond(arb, guards) =>
        var choice := Choose(env, arb, guards, store, random);
        if choice.Some? {
          pick := choice.value;
          assert Spec.Execute(g, env, m, s, flag, pick).Some?;
          Goto(s, n, pick);
        }
      case SLoop(guards) =>
        var choice := Choose(env, false, guards, store, random);
        if choice.Some? {
          pick := choice.value;
          assert Spec.Execute(g, env, m, s, flag, pick).Some?;
          Goto(s, n, pick);
        } else {
          UpdatePc(s);
          var _ := NextEvent(s);
        }
    }

    method Goto(s: nat, n: Node, pick: nat)
      requires Separate() && s < pc.Length && Spec.Goto(g, State(), s, n, pick).Some?
      modifies this`used, pc, holes, tot
      ensures State() == Spec.Goto(g, old(State()), s, n, pick).value
    {
      if n.all[pick].None? {
        Release(s);
      } else {
        pc[s] := n.all[pick];
        var _ := NextEvent(s);
      }
    }
  }
}
