/**
 Timing forks: after an edge of the root, an edge of `a` has to come before an edge of `b`, and by a margin.
 Each fork is a small state machine; forks are found through the linked lists of the signals they mention.
 */
module TimingFork {
  import opened Prelude
  import opened Logic3
  import opened Threaded

  datatype Phase = Inactive | Start | Pending | PendingDelay

  /** Which edges of a signal matter. */
  datatype Edges = Edges(up: bool, dn: bool)

  datatype Fork = Fork(root: nat, a: nat, b: nat, margin: nat, fr: Edges, fa: Edges, fb: Edges, phase: Phase, ts: nat)

  predicate Triggers(f: Edges, v: V3)
  {
    (v.One? && f.up) || (v.Zero? && f.dn)
  }

  /** A signal gets a value at a time; the second component says whether a violation is reported. */
  function Update(f: Fork, sig: nat, v: V3, now: nat): (Fork, bool)
  {
    var f1 := if f.root == sig then f.(phase := if Triggers(f.fr, v) then Start else Inactive) else f;
    var (f2, r2) := if f.a == sig then UpdateA(f1, v, now) else (f1, false);
    var (f3, r3) := if f.b == sig then UpdateB(f2, v, now) else (f2, false);
    (f3, r2 || r3)
  }

  function UpdateA(f: Fork, v: V3, now: nat): (Fork, bool)
  {
    if f.phase.Inactive? || !Triggers(f.fa, v) then (f, false)
    else
      match f.phase
      case Pending => (f.(phase := Inactive), true)
      case Start => (if f.margin != 0 then f.(ts := now, phase := PendingDelay) else f, false)
      case PendingDelay => (f.(ts := now), false)
      case Inactive => (f, false)
  }

  function UpdateB(f: Fork, v: V3, now: nat): (Fork, bool)
  {
    if f.phase.Inactive? || !Triggers(f.fb, v) then (f, false)
    else if f.phase.PendingDelay? then if f.ts + f.margin > now then (f.(phase := Inactive), true) else (f, false)
    else (f.(phase := Pending), false)
  }

  // ----- the monitor as a summary of history

  /** An edge that matters, after the last edge of the root: of `a` or of `b`, and when. */
  datatype Edge = A(t: nat) | B(t: nat)

  predicate SeenA(h: seq<Edge>)
  {
    exists i | 0 <= i < |h| :: h[i].A?
  }

  predicate SeenB(h: seq<Edge>)
  {
    exists i | 0 <= i < |h| :: h[i].B?
  }

  /** When the last edge of `a` was. */
  function LastA(h: seq<Edge>): nat
  {
    if h == [] then 0 else if h[|h| - 1].A? then h[|h| - 1].t else LastA(h[..|h| - 1])
  }

  lemma {:induction false} LastAIs(h: seq<Edge>) returns (i: nat)
    requires SeenA(h)
    ensures i < |h| && h[i] == A(LastA(h)) && forall j | i < j < |h| :: h[j].B?
    decreases |h|
  {
    var n := |h| - 1;
    if h[n].A? {
      i := n;
    } else {
      var k :| 0 <= k < |h| && h[k].A?;
      assert h[..n][k].A?;
      i := LastAIs(h[..n]);
      assert forall j | i < j < n :: h[j] == h[..n][j];
    }
  }

  /**
   What the next edge e violates, in terms of the edges h so far. Without a margin: an `a` after a `b`. With a
   margin: an `a` when the first edge was `b`; a `b` less than the margin after the last `a` when the first was `a`.
   */
  predicate Violates(margin: nat, h: seq<Edge>, e: Edge)
  {
    if margin == 0 then e.A? && SeenB(h)
    else if h == [] then false
    else if h[0].B? then e.A?
    else e.B? && e.t < LastA(h) + margin
  }

  /** Whether a violation has been reported already: at most one is, after an edge of the root. */
  predicate Reported(margin: nat, h: seq<Edge>)
  {
    h != [] && (Reported(margin, h[..|h| - 1]) || Violates(margin, h[..|h| - 1], h[|h| - 1]))
  }

  /** The phase that edges h lead to. */
  function PhaseOf(margin: nat, h: seq<Edge>): Phase
  {
    if Reported(margin, h) then Inactive
    else if h == [] then Start
    else if margin == 0 then if SeenB(h) then Pending else Start
    else if h[0].B? then Pending
    else PendingDelay
  }

  /** The state machine is at the summary of the edges h. */
  ghost predicate Summarises(f: Fork, h: seq<Edge>)
  {
    && f.phase == PhaseOf(f.margin, h)
    && (f.phase.PendingDelay? ==> SeenA(h) && f.ts == LastA(h))
  }

  predicate DistinctSignals(f: Fork)
  {
    f.root != f.a && f.root != f.b && f.a != f.b
  }

  /** An edge of the root starts a new history. */
  lemma RootEdge(f: Fork, v: V3, now: nat)
    requires DistinctSignals(f)
    ensures var (f', r) := Update(f, f.root, v, now);
            !r && if Triggers(f.fr, v) then Summarises(f', []) else f'.phase == Inactive
  {
  }

  /**
   The monitor is an exact summary: an edge of `a` or `b` is reported exactly when it is the first violation
   since the last edge of the root.
   */
  lemma {:induction false} ForkEdge(f: Fork, h: seq<Edge>, isA: bool, v: V3, now: nat)
    requires DistinctSignals(f) && Summarises(f, h) && Triggers(if isA then f.fa else f.fb, v)
    ensures var e := if isA then A(now) else B(now);
            var (f', r) := Update(f, if isA then f.a else f.b, v, now);
            && (r <==> !Reported(f.margin, h) && Violates(f.margin, h, e))
            && Summarises(f', h + [e])
  {
    var e := if isA then A(now) else B(now);
    var h' := h + [e];
    assert h'[..|h|] == h && h'[|h|] == e;
    assert h != [] ==> h'[0] == h[0];
    EdgesMore(h, e);
  }

  lemma EdgesMore(h: seq<Edge>, e: Edge)
    ensures SeenA(h + [e]) <==> SeenA(h) || e.A?
    ensures SeenB(h + [e]) <==> SeenB(h) || e.B?
    ensures SeenA(h + [e]) ==> LastA(h + [e]) == if e.A? then e.t else if SeenA(h) then LastA(h) else 0
    ensures h != [] && h[0].A? ==> SeenA(h)
  {
    var h' := h + [e];
    assert h'[|h|] == e && h'[..|h|] == h;
    if SeenA(h) {
      var i :| 0 <= i < |h| && h[i].A?;
      assert h'[i].A?;
    }
    if SeenB(h) {
      var i :| 0 <= i < |h| && h[i].B?;
      assert h'[i].B?;
    }
  }

  /** Anything else leaves the monitor alone; before the first edge of the root, and after a report, nothing is. */
  lemma ForkQuiet(f: Fork, sig: nat, v: V3, now: nat)
    requires DistinctSignals(f) && sig != f.root
    requires f.phase.Inactive? || (!(sig == f.a && Triggers(f.fa, v)) && !(sig == f.b && Triggers(f.fb, v)))
    ensures Update(f, sig, v, now) == (f, false)
  {
  }

  // ----- whole histories

  /** A signal gets a value at a time. */
  datatype Change = Change(sig: nat, v: V3, now: nat)

  function Monitor(f: Fork, cs: seq<Change>): Fork
  {
    if cs == [] then f else var c := cs[|cs| - 1]; Update(Monitor(f, cs[..|cs| - 1]), c.sig, c.v, c.now).0
  }

  /** None before the first edge of the root or after one that switches the fork off; else the edges since. */
  function History(f: Fork, cs: seq<Change>): Option<seq<Edge>>
  {
    if cs == [] then None
    else
      var c, h := cs[|cs| - 1], History(f, cs[..|cs| - 1]);
      if c.sig == f.root then if Triggers(f.fr, c.v) then Some([]) else None
      else if h.None? then None
      else if c.sig == f.a && Triggers(f.fa, c.v) then Some(h.value + [A(c.now)])
      else if c.sig == f.b && Triggers(f.fb, c.v) then Some(h.value + [B(c.now)])
      else h
  }

  /**
   After any changes of any signals, the next change is reported exactly when it is an edge of `a` or `b` that is
   the first violation since the last edge of the root.
   */
  lemma {:induction false} MonitorReports(f: Fork, cs: seq<Change>, c: Change)
    requires DistinctSignals(f) && f.phase.Inactive?
    ensures var m, h := Monitor(f, cs), History(f, cs);
            Update(m, c.sig, c.v, c.now).1
            <==> h.Some? && !Reported(f.margin, h.value)
                 && ((c.sig == f.a && Triggers(f.fa, c.v) && Violates(f.margin, h.value, A(c.now)))
                     || (c.sig == f.b && Triggers(f.fb, c.v) && Violates(f.margin, h.value, B(c.now))))
  {
    MonitorAt(f, cs);
    var m, h := Monitor(f, cs), History(f, cs);
    if c.sig == f.root {
      RootEdge(m, c.v, c.now);
    } else if h.Some? && c.sig == f.a && Triggers(f.fa, c.v) {
      ForkEdge(m, h.value, true, c.v, c.now);
    } else if h.Some? && c.sig == f.b && Triggers(f.fb, c.v) {
      ForkEdge(m, h.value, false, c.v, c.now);
    } else {
      ForkQuiet(m, c.sig, c.v, c.now);
    }
  }

  lemma {:induction false} MonitorAt(f: Fork, cs: seq<Change>)
    requires DistinctSignals(f) && f.phase.Inactive?
    ensures var m := Monitor(f, cs);
            && m == f.(phase := m.phase, ts := m.ts)
            && (match History(f, cs) case None => m.phase.Inactive? case Some(h) => Summarises(m, h))
    decreases |cs|
  {
    hide Summarises;
    if cs != [] {
      var n := |cs| - 1;
      MonitorAt(f, cs[..n]);
      var m, h, c := Monitor(f, cs[..n]), History(f, cs[..n]), cs[n];
      if c.sig == f.root {
        RootEdge(m, c.v, c.now);
      } else if h.Some? && c.sig == f.a && Triggers(f.fa, c.v) {
        ForkEdge(m, h.value, true, c.v, c.now);
      } else if h.Some? && c.sig == f.b && Triggers(f.fb, c.v) {
        ForkEdge(m, h.value, false, c.v, c.now);
      } else {
        ForkQuiet(m, c.sig, c.v, c.now);
      }
    }
  }

  // ----- the table of forks

  function Signals(f: Fork): seq<nat>
  {
    [f.root, f.a, f.b]
  }

  /** Same root, ends and margin. */
  predicate Equal(f: Fork, g: Fork)
  {
    f.root == g.root && f.a == g.a && f.b == g.b && f.margin == g.margin
  }

  // ----- what is lost when an equal fork is dropped

  predicate SameEdges(f: Fork, g: Fork)
  {
    f.fr == g.fr && f.fa == g.fa && f.fb == g.fb
  }

  /** Each signal of a fork has an edge that matters. */
  predicate Edged(f: Fork)
  {
    (f.fr.up || f.fr.dn) && (f.fa.up || f.fa.dn) && (f.fb.up || f.fb.dn)
  }

  /** Whether the fork reports a change, after others. */
  predicate Reports(f: Fork, cs: seq<Change>, c: Change)
  {
    Update(Monitor(f, cs), c.sig, c.v, c.now).1
  }

  ghost predicate ReportAlike(f: Fork, g: Fork)
  {
    forall cs, c :: Reports(f, cs, c) == Reports(g, cs, c)
  }

  lemma {:induction false} SameHistory(f: Fork, g: Fork, cs: seq<Change>)
    requires f.root == g.root && f.a == g.a && f.b == g.b && SameEdges(f, g)
    ensures History(f, cs) == History(g, cs)
    decreases |cs|
  {
    if cs != [] { SameHistory(f, g, cs[..|cs| - 1]); }
  }

  /** The root, then `b`, then `a`: reported if and only if all three are edges that matter. */
  lemma {:induction false} BeforeTheOther(f: Fork, vr: V3, vb: V3, va: V3)
    requires DistinctSignals(f) && f.phase.Inactive?
    ensures Reports(f, [Change(f.root, vr, 0), Change(f.b, vb, 0)], Change(f.a, va, 0))
            <==> Triggers(f.fr, vr) && Triggers(f.fb, vb) && Triggers(f.fa, va)
  {
    hide Triggers;
    var cs := [Change(f.root, vr, 0), Change(f.b, vb, 0)];
    assert cs[..1] == [Change(f.root, vr, 0)] && cs[..1][..0] == [];
    assert Monitor(f, cs[..1]) == Update(f, f.root, vr, 0).0;
  }

  /** An edge that matters to one of two forks only, if there is one. */
  lemma {:induction false} MoreEdges(f: Fork, g: Fork) returns (vr: V3, vb: V3, va: V3)
    requires Edged(f)
    ensures Triggers(f.fr, vr) && Triggers(f.fb, vb) && Triggers(f.fa, va)
    ensures (forall v :: Triggers(f.fr, v) ==> Triggers(g.fr, v)) || !Triggers(g.fr, vr)
    ensures (forall v :: Triggers(f.fb, v) ==> Triggers(g.fb, v)) || !Triggers(g.fb, vb)
    ensures (forall v :: Triggers(f.fa, v) ==> Triggers(g.fa, v)) || !Triggers(g.fa, va)
  {
    vr := if (f.fr.up && !g.fr.up) || !f.fr.dn then One else Zero;
    vb := if (f.fb.up && !g.fb.up) || !f.fb.dn then One else Zero;
    va := if (f.fa.up && !g.fa.up) || !f.fa.dn then One else Zero;
  }

  /**
   A fork is dropped when one with the same signals and margin is registered. What is registered reports everything
   that the dropped one would have, and nothing else, if and only if the same edges matter to both.
   */
  lemma {:induction false} DroppedExactly(f: Fork, g: Fork)
    requires Equal(f, g) && DistinctSignals(f) && f.phase.Inactive? && g.phase.Inactive? && Edged(f) && Edged(g)
    ensures ReportAlike(f, g) <==> SameEdges(f, g)
  {
    hide Triggers, Edged, Reports;
    if SameEdges(f, g) {
      forall cs, c ensures Reports(f, cs, c) == Reports(g, cs, c) { SameReports(f, g, cs, c); }
    }
    if ReportAlike(f, g) {
      EdgesWithin(f, g);
      EdgesWithin(g, f);
      BothWays(f.fr, g.fr);
      BothWays(f.fa, g.fa);
      BothWays(f.fb, g.fb);
    }
  }

  lemma {:induction false} SameReports(f: Fork, g: Fork, cs: seq<Change>, c: Change)
    requires Equal(f, g) && SameEdges(f, g) && DistinctSignals(f) && f.phase.Inactive? && g.phase.Inactive?
    ensures Reports(f, cs, c) == Reports(g, cs, c)
  {
    hide Update, Monitor, Triggers;
    SameHistory(f, g, cs);
    MonitorReports(f, cs, c);
    MonitorReports(g, cs, c);
  }

  lemma {:induction false} EdgesWithin(f: Fork, g: Fork)
    requires Equal(f, g) && DistinctSignals(f) && f.phase.Inactive? && g.phase.Inactive? && Edged(f)
    requires ReportAlike(f, g)
    ensures forall v :: Triggers(f.fr, v) ==> Triggers(g.fr, v)
    ensures forall v :: Triggers(f.fb, v) ==> Triggers(g.fb, v)
    ensures forall v :: Triggers(f.fa, v) ==> Triggers(g.fa, v)
  {
    hide Triggers, Edged, Reports;
    var vr, vb, va := MoreEdges(f, g);
    BeforeTheOther(f, vr, vb, va);
    BeforeTheOther(g, vr, vb, va);
  }

  lemma BothWays(e: Edges, e': Edges)
    requires forall v :: Triggers(e, v) ==> Triggers(e', v)
    requires forall v :: Triggers(e', v) ==> Triggers(e, v)
    ensures e == e'
  {
    assert Triggers(e, One) == Triggers(e', One) && Triggers(e, Zero) == Triggers(e', Zero);
  }

  /** One fork as an object, whose state changes in place. */
  class ActTimingConstraint {
    const root: nat
    const a: nat
    const b: nat
    const margin: nat
    const fr: Edges
    const fa: Edges
    const fb: Edges
    var phase: Phase
    var ts: nat

    function State(): Fork
      reads this
    {
      Fork(root, a, b, margin, fr, fa, fb, phase, ts)
    }

    constructor (f: Fork)
      ensures State() == f.(phase := Inactive)
    {
      root, a, b, margin, fr, fa, fb := f.root, f.a, f.b, f.margin, f.fr, f.fa, f.fb;
      phase, ts := Inactive, f.ts;
    }

    method UpdateSignal(sig: nat, v: V3, now: nat) returns (violated: bool)
      modifies this
      ensures (State(), violated) == Update(old(State()), sig, v, now)
    {
      violated := false;
      if root == sig { phase := if Triggers(fr, v) then Start else Inactive; }
      if a == sig && phase != Inactive && Triggers(fa, v) {
        if phase == Pending {
          phase := Inactive;
          violated := true;
        } else if phase == Start {
          if margin != 0 { ts, phase := now, PendingDelay; }
        } else {
          ts := now;
        }
      }
      if b == sig && phase != Inactive && Triggers(fb, v) {
        if phase != PendingDelay {
          phase := Pending;
        } else if ts + margin > now {
          phase := Inactive;
          violated := true;
        }
      }
    }
  }

  class ForkTable {
    var items: seq<Item>
    var objs: seq<ActTimingConstraint>
    var heads: Heads

    ghost predicate Valid()
      reads this, objs
    {
      && |items| == |objs| && (forall i | 0 <= i < |objs| :: items[i].n == Signals(objs[i].State()))
      && (forall i, j | 0 <= i < j < |objs| :: objs[i] != objs[j])
      && Threaded.Valid(items, heads)
      && forall i, j | 0 <= i < j < |objs| :: !Equal(objs[i].State(), objs[j].State())
    }

    /** The registered forks, oldest first. */
    ghost function Forks(): (r: seq<Fork>)
      reads this, objs
      ensures |r| == |objs| && forall i | 0 <= i < |r| :: r[i] == objs[i].State()
    {
      seq(|objs|, i requires 0 <= i < |objs| reads this, objs => objs[i].State())
    }

    constructor ()
      ensures Valid() && objs == []
    {
      items, objs, heads := [], [], map[];
    }

    /** Looks along the list of the root for a fork that is equal to f. */
    method IsDup(f: Fork) returns (dup: bool)
      requires Valid()
      ensures dup <==> exists i | 0 <= i < |objs| :: Equal(Forks()[i], f)
    {
      hide Latest, Place, Threaded.Next;
      var tmp: Option<nat> := Head(heads, f.root);
      HeadStep(items, heads, f.root);
      while tmp.Some?
        invariant tmp.Some? ==> tmp.value < |items| && f.root in items[tmp.value].n
        invariant forall i | 0 <= i < |objs| :: Met(items, f.root, tmp, i) ==> !Equal(Forks()[i], f)
        decreases if tmp.Some? then tmp.value + 1 else 0
      {
        if Equal(objs[tmp.value].State(), f) {
          assert Equal(Forks()[tmp.value], f);
          return true;
        }
        NextStep(items, heads, f.root, tmp.value);
        tmp := Threaded.Next(items[tmp.value], f.root);
      }
      dup := false;
      forall i | 0 <= i < |objs| ensures !Equal(Forks()[i], f) {
        assert items[i].n == Signals(Forks()[i]) && Signals(Forks()[i])[0] == Forks()[i].root;
        assert f.root in items[i].n ==> Met(items, f.root, None, i);
      }
    }

    /** The links of a new object, one for the first place of each signal, and the table that starts with it. */
    method Thread(n: seq<nat>) returns (nxt: seq<Option<nat>>, h: Heads)
      requires |n| == 3
      ensures |nxt| == 3 && forall j | 0 <= j < 3 :: n[j] !in n[..j] ==> nxt[j] == Head(heads, n[j])
      ensures forall s :: Head(h, s) == if s in n then Some(|items|) else Head(heads, s)
    {
      h, nxt := heads, [];
      for i := 0 to 3
        invariant |nxt| == i
        invariant forall s :: Head(h, s) == if s in n[..i] then Some(|items|) else Head(heads, s)
        invariant forall j | 0 <= j < i :: n[j] !in n[..j] ==> nxt[j] == Head(heads, n[j])
      {
        assert n[..i + 1] == n[..i] + [n[i]];
        if (i < 1 || n[i] != n[i - 1]) && (i < 2 || n[i] != n[i - 2]) {
          nxt := nxt + [Head(h, n[i])];
          h := h[n[i] := |items|];
        } else {
          nxt := nxt + [None];
        }
      }
      assert n[..3] == n;
    }

    /** Registers a fork, unless there is an equal one. */
    method Add(f: Fork) returns (dup: bool)
      requires Valid()
      modifies this
      ensures Valid() && |objs| >= |old(objs)| && objs[..|old(objs)|] == old(objs)
      ensures dup <==> exists i | 0 <= i < |old(objs)| :: Equal(old(Forks())[i], f)
      ensures Forks() == if dup then old(Forks()) else old(Forks()) + [f.(phase := Inactive)]
      ensures dup ==> objs == old(objs)
      ensures forall i | |old(objs)| <= i < |objs| :: fresh(objs[i])
    {
      hide Threaded.Valid, Equal, Signals;
      dup := IsDup(f);
      if !dup { Insert(f); }
    }

    /** Puts a new monitor in front of the lists of its signals. */
    method Insert(f: Fork)
      requires Valid() && forall i | 0 <= i < |objs| :: !Equal(Forks()[i], f)
      modifies this
      ensures Valid() && |objs| == |old(objs)| + 1 && objs[..|old(objs)|] == old(objs) && fresh(objs[|old(objs)|])
      ensures Forks() == old(Forks()) + [f.(phase := Inactive)]
    {
      hide Latest, Place, Threaded.Next, Threaded.Valid, Equal, Triggers, Head, Signals;
      ThreeSignals(f);
      var nxt, h := Thread(Signals(f));
      var it := Item(Signals(f), nxt);
      LinksFirst(it, heads);
      Register(items, heads, it, h);
      Put(f, it, h);
    }

    method Put(f: Fork, it: Item, h: Heads)
      requires Valid() && forall i | 0 <= i < |objs| :: !Equal(Forks()[i], f)
      requires it.n == Signals(f) && Threaded.Valid(items + [it], h)
      modifies this
      ensures Valid() && |objs| == |old(objs)| + 1 && objs[..|old(objs)|] == old(objs) && fresh(objs[|old(objs)|])
      ensures Forks() == old(Forks()) + [f.(phase := Inactive)]
    {
      hide Threaded.Valid, Equal, Signals;
      ghost var fs := Forks();
      var tc := new ActTimingConstraint(f);
      items, heads, objs := items + [it], h, objs + [tc];
      assert forall i | 0 <= i < |fs| :: objs[i] == old(objs[i]) && Forks()[i] == fs[i];
      OneMoreFork(fs, Forks(), f);
    }

    /** A signal gets a value: every fork that mentions it is updated once, and no other. */
    method UpdateAll(sig: nat, v: V3, now: nat)
      requires Valid()
      modifies objs
      ensures Valid() && |Forks()| == |old(Forks())|
      ensures forall i | 0 <= i < |Forks()| ::
                Forks()[i] == if sig in Signals(old(Forks())[i]) then Update(old(Forks())[i], sig, v, now).0
                    else old(Forks())[i]
    {
      hide Latest, Place, Threaded.Next, Threaded.Valid, Update, Equal, Signals, Head;
      var tc: Option<nat> := Head(heads, sig);
      HeadStep(items, heads, sig);
      while tc.Some?
        invariant tc.Some? ==> tc.value < |items| && sig in items[tc.value].n
        invariant forall i | 0 <= i < |objs| ::
                    objs[i].State() == if Met(items, sig, tc, i) then Update(old(Forks())[i], sig, v, now).0
                        else old(Forks())[i]
        decreases if tc.Some? then tc.value + 1 else 0
      {
        NextStep(items, heads, sig, tc.value);
        var _ := objs[tc.value].UpdateSignal(sig, v, now);
        tc := Threaded.Next(items[tc.value], sig);
      }
      StillDistinct(old(Forks()), Forks(), sig, v, now);
    }
  }

  lemma ThreeSignals(f: Fork)
    ensures |Signals(f)| == 3
  {
  }

  lemma {:induction false} LinksFirst(it: Item, heads: Heads)
    requires |it.n| == |it.nxt|
    requires forall j | 0 <= j < |it.n| && it.n[j] !in it.n[..j] :: it.nxt[j] == Head(heads, it.n[j])
    ensures forall s | s in it.n :: Threaded.Next(it, s) == Head(heads, s)
  {
    hide Threaded.Next, Place, Head;
    forall s | s in it.n ensures Threaded.Next(it, s) == Head(heads, s) { FirstLink(it, s); }
  }

  /** A new fork that is equal to none keeps the forks different. */
  lemma {:induction false} OneMoreFork(fs: seq<Fork>, fs': seq<Fork>, f: Fork)
    requires |fs'| == |fs| + 1 && fs'[|fs|] == f.(phase := Inactive) && forall i | 0 <= i < |fs| :: fs'[i] == fs[i]
    requires forall i, j | 0 <= i < j < |fs| :: !Equal(fs[i], fs[j])
    requires forall i | 0 <= i < |fs| :: !Equal(fs[i], f)
    ensures forall i, j | 0 <= i < j < |fs'| :: !Equal(fs'[i], fs'[j])
    ensures fs' == fs + [f.(phase := Inactive)] && Signals(f.(phase := Inactive)) == Signals(f)
  {
  }

  /** Updating does not change what a fork mentions. */
  lemma {:induction false} StillDistinct(fs: seq<Fork>, fs': seq<Fork>, sig: nat, v: V3, now: nat)
    requires |fs'| == |fs|
    requires forall i | 0 <= i < |fs| :: fs'[i] == fs[i] || fs'[i] == Update(fs[i], sig, v, now).0
    ensures forall i | 0 <= i < |fs| :: Signals(fs'[i]) == Signals(fs[i])
    ensures forall i, j | 0 <= i < |fs| && 0 <= j < |fs| :: Equal(fs'[i], fs'[j]) <==> Equal(fs[i], fs[j])
  {
    forall i | 0 <= i < |fs| ensures fs'[i] == fs[i].(phase := fs'[i].phase, ts := fs'[i].ts) {
      UpdateShape(fs[i], sig, v, now);
    }
  }

  lemma UpdateShape(f: Fork, sig: nat, v: V3, now: nat)
    ensures var g := Update(f, sig, v, now).0; g == f.(phase := g.phase, ts := g.ts)
  {
  }

  lemma FirstLink(it: Item, s: nat)
    requires s in it.n && |it.nxt| == |it.n|
    ensures exists j | 0 <= j < |it.n| :: it.n[j] == s && s !in it.n[..j] && Threaded.Next(it, s) == it.nxt[j]
  {
    var j := Place(it.n, s).value;
    assert s !in it.n[..j];
  }
}
