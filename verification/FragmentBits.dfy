/**
 Which compiled methods fit the eight-bit resume position of a fragmented channel, counting only what a call that
 starts the method can meet.
 */
module FragmentBits {
  import opened Prelude
  import opened ChanLang
  import opened ChanMethods
  import opened ChanRun
  import opened Fragment

  // ----- guards

  function OwnGuards(gs: seq<Option<nat>>): set<nat>
  {
    set i | 0 <= i < |gs| && gs[i].Some? :: gs[i].value
  }

  function Guards(h: Hse): set<nat>
  {
    match h
    case Seq(cs) => GuardsOf(cs)
    case Sel(gs, bs) => OwnGuards(gs) + GuardsOf(bs)
    case _ => {}
  }

  function GuardsOf(hs: seq<Hse>): set<nat>
  {
    if hs == [] then {} else GuardsOf(hs[..|hs| - 1]) + Guards(hs[|hs| - 1])
  }

  /** Each guard is an expression of its own, and `else` is the last alternative. */
  predicate Separate(h: Hse)
  {
    match h
    case Seq(cs) => SeparateOf(cs)
    case Sel(gs, bs) =>
      && SeparateOf(bs) && OwnGuards(gs) !! GuardsOf(bs)
      && (forall i | 0 <= i < |gs| - 1 :: gs[i].Some?)
      && (forall i, j | 0 <= i < j < |gs| && gs[j].Some? :: gs[i] != gs[j])
    case _ => true
  }

  predicate SeparateOf(hs: seq<Hse>)
  {
    hs == [] || (SeparateOf(hs[..|hs| - 1]) && Separate(hs[|hs| - 1])
                 && GuardsOf(hs[..|hs| - 1]) !! Guards(hs[|hs| - 1]))
  }

  lemma {:induction false} GuardsIn(hs: seq<Hse>, i: nat)
    requires i < |hs|
    ensures Guards(hs[i]) <= GuardsOf(hs)
    ensures SeparateOf(hs) ==> Separate(hs[i])
    decreases |hs|
  {
    if i < |hs| - 1 { GuardsIn(hs[..|hs| - 1], i); }
  }

  /** Exactly the guards of `off` are false; actions change nothing. */
  function Off<S>(off: set<nat>): Env<S>
  {
    Env((_, s) => s, (g, _) => g !in off)
  }

  // ----- code without a false guard is passed

  lemma {:induction false} Passes<S>(op: seq<Op>, i: nat, h: Hse, off: set<nat>, s: S)
    requires WellFormed(h) && CodeAt(op, i, h) && Guards(h) !! off
    ensures Run(Off(off), op, i, s) == Run(Off(off), op, i + Len(h), s)
    decreases h, 0
  {
    hide CodeAt, AltLen, Emit;
    match h
    case Nothing =>
    case Skip => SingleOp(op, i, h);
    case Do(_) => SingleOp(op, i, h);
    case Seq(cs) =>
      assert op[i..i + LenOf(cs)] == EmitOf(cs, i) by { SeqCode(op, i, cs); }
      PassesOf(op, i, cs, off, s);
    case Sel(gs, bs) =>
      GuardsIn(bs, 0);
      SelCode(op, i, gs, bs, 0);
      AltLenNone();
      Passes(op, i + 1, bs[0], off, s);
      FirstTaken(op, i, gs, bs, off, s);
  }

  /** A selection with its first guard true: from the test into the first alternative, and from there to the end. */
  lemma {:induction false} FirstTaken<S>(op: seq<Op>, i: nat, gs: seq<Option<nat>>, bs: seq<Hse>, off: set<nat>, s: S)
    requires bs != [] && |gs| == |bs| && CodeAt(op, i, Sel(gs, bs)) && OwnGuards(gs) !! off
    requires Run(Off(off), op, i + 1, s) == Run(Off(off), op, i + 1 + Len(bs[0]), s)
    ensures Run(Off(off), op, i, s) == Run(Off(off), op, i + Len(Sel(gs, bs)), s)
  {
    hide CodeAt, AltLen, Len, Emit;
    SelCode(op, i, gs, bs, 0);
    SelLen(gs, bs);
    AltLenNone();
    if gs[0].Some? { assert gs[0].value in OwnGuards(gs); }
    var env: Env<S> := Off(off);
    var close := i + AltLen(bs);
    assert Run(env, op, i + 1 + Len(bs[0]), s) == Run(env, op, close, s);
  }

  lemma SingleOp(op: seq<Op>, i: nat, h: Hse)
    requires (h.Skip? || h.Do?) && CodeAt(op, i, h)
    ensures Len(h) == 1 && i < |op| && op[i] == if h.Skip? then OSkip else ODo(h.a)
  {
    assert op[i] == op[i..i + 1][0];
  }

  lemma SeqCode(op: seq<Op>, i: nat, cs: seq<Hse>)
    requires CodeAt(op, i, Seq(cs))
    ensures i + LenOf(cs) <= |op| && op[i..i + LenOf(cs)] == EmitOf(cs, i)
  {
  }

  lemma {:induction false} PassesOf<S>(op: seq<Op>, i: nat, cs: seq<Hse>, off: set<nat>, s: S)
    requires AllWellFormed(cs) && GuardsOf(cs) !! off
    requires i + LenOf(cs) <= |op| && op[i..i + LenOf(cs)] == EmitOf(cs, i)
    ensures Run(Off(off), op, i, s) == Run(Off(off), op, i + LenOf(cs), s)
    decreases cs, 1
  {
    hide CodeAt;
    if cs != [] {
      var n := |cs| - 1;
      SeqLast(op, i, cs);
      PassesOf(op, i, cs[..n], off, s);
      Passes(op, i + LenOf(cs[..n]), cs[n], off, s);
    }
  }

  // ----- every selection can be the one that waits

  /** The last guard test of a selection: a false guard there means waiting. */
  predicate WaitTest(op: seq<Op>, w: nat)
  {
    w < |op| && op[w].OSel? && op[w].g.Some? && op[w].next <= w
  }

  /** The alternative in whose code a position lies. */
  lemma {:induction false} WhichAlt(bs: seq<Hse>, w: nat, n: nat) returns (j: nat)
    requires n <= |bs| && w < AltLen(bs[..n])
    ensures j < n && AltLen(bs[..j]) <= w < AltLen(bs[..j + 1])
    decreases n
  {
    if n > 0 && w < AltLen(bs[..n - 1]) { j := WhichAlt(bs, w, n - 1); } else { j := n - 1; }
  }

  /**
   Every waiting test in the code of h is reached from the start of h for some truth values of the guards, those
   outside h being given.
   */
  lemma {:induction false} Reaches<S>(op: seq<Op>, i: nat, h: Hse, w: nat, given: set<nat>, s: S)
      returns (off: set<nat>)
    requires WellFormed(h) && Separate(h) && CodeAt(op, i, h) && given !! Guards(h)
    requires i <= w < i + Len(h) && WaitTest(op, w)
    ensures given <= off <= given + Guards(h) && Run(Off(off), op, i, s) == Stalled(op[w].next, s)
    decreases h, 0
  {
    hide CodeAt, Run, Emit, AltLen, Off, OwnGuards;
    match h
    case Skip => SingleOp(op, i, h);
    case Do(_) => SingleOp(op, i, h);
    case Seq(cs) =>
      SeqCode(op, i, cs);
      off := ReachesOf(op, i, cs, w, given, s);
    case Sel(gs, bs) =>
      var j := WaitIn(op, i, gs, bs, w);
      GuardsIn(bs, j);
      GuardsBefore(gs, j);
      if w == i + AltLen(bs[..j]) {
        off := given + OwnGuards(gs);
        AllOff(op, i, gs, bs, off, s);
      } else {
        off := Reaches(op, i + AltLen(bs[..j]) + 1, bs[j], w, given + OwnGuards(gs[..j]), s);
        Taken(op, i, gs, bs, j, off, s);
      }
  }

  /** The alternative of a selection in which a waiting test stands: at its own test it must be the last. */
  lemma {:induction false} WaitIn(op: seq<Op>, i: nat, gs: seq<Option<nat>>, bs: seq<Hse>, w: nat) returns (j: nat)
    requires bs != [] && |gs| == |bs| && CodeAt(op, i, Sel(gs, bs)) && i <= w < i + Len(Sel(gs, bs)) && WaitTest(op, w)
    ensures j < |bs| && CodeAt(op, i + AltLen(bs[..j]) + 1, bs[j])
    ensures if w == i + AltLen(bs[..j]) then j == |bs| - 1 && gs[j].Some? && op[w].next == i
            else i + AltLen(bs[..j]) + 1 <= w < i + AltLen(bs[..j]) + 1 + Len(bs[j])
  {
    hide CodeAt, AltLen, Len, Emit;
    SelCode(op, i, gs, bs, 0);
    SelLen(gs, bs);
    assert bs[..|bs|] == bs;
    j := WhichAlt(bs, w - i, |bs|);
    SelCode(op, i, gs, bs, j);
    AltLenMore(bs, j);
  }

  /** The guards before an alternative are not its own. */
  lemma {:induction false} GuardsBefore(gs: seq<Option<nat>>, j: nat)
    requires j < |gs|
    ensures OwnGuards(gs[..j]) <= OwnGuards(gs)
    ensures (forall i | 0 <= i < j :: gs[i] != gs[j]) && gs[j].Some? ==> gs[j].value !in OwnGuards(gs[..j])
    ensures gs[j].Some? ==> gs[j].value in OwnGuards(gs)
  {
    forall x | x in OwnGuards(gs[..j]) ensures x in OwnGuards(gs) {
      var i :| 0 <= i < j && gs[..j][i] == Some(x);
      assert gs[i] == Some(x);
    }
  }

  lemma {:induction false} ReachesOf<S>(op: seq<Op>, i: nat, cs: seq<Hse>, w: nat, given: set<nat>, s: S)
      returns (off: set<nat>)
    requires AllWellFormed(cs) && SeparateOf(cs) && given !! GuardsOf(cs)
    requires i + LenOf(cs) <= |op| && op[i..i + LenOf(cs)] == EmitOf(cs, i)
    requires i <= w < i + LenOf(cs) && WaitTest(op, w)
    ensures given <= off <= given + GuardsOf(cs) && Run(Off(off), op, i, s) == Stalled(op[w].next, s)
    decreases cs, 1
  {
    hide CodeAt, Run, Emit, EmitOf, Len, Off, WaitTest;
    var n := |cs| - 1;
    SeqLast(op, i, cs);
    if w < i + LenOf(cs[..n]) {
      off := ReachesOf(op, i, cs[..n], w, given, s);
    } else {
      off := Reaches(op, i + LenOf(cs[..n]), cs[n], w, given, s);
      PassesOf(op, i, cs[..n], off, s);
    }
  }

  /** With all its guards false a selection waits. */
  lemma {:induction false} AllOff<S>(op: seq<Op>, i: nat, gs: seq<Option<nat>>, bs: seq<Hse>, off: set<nat>, s: S)
    requires bs != [] && |gs| == |bs| && CodeAt(op, i, Sel(gs, bs)) && OwnGuards(gs) <= off
    requires forall k | 0 <= k < |gs| :: gs[k].Some?
    ensures Run(Off(off), op, i, s) == Stalled(i, s)
  {
    hide CodeAt, AltLen, Len, Emit, Run;
    AltLenNone();
    SelCode(op, i, gs, bs, 0);
    SelRun(Off(off), op, i, gs, bs, 0, s);
    forall k | 0 <= k < |gs| ensures !Holds(Off(off), gs[k], s) { assert gs[k].value in OwnGuards(gs); }
  }

  /** With the guards before it false and its own true, alternative j is taken. */
  lemma {:induction false} Taken<S>(op: seq<Op>, i: nat, gs: seq<Option<nat>>, bs: seq<Hse>, j: nat, off: set<nat>,
      s: S)
    requires |gs| == |bs| && j < |bs| && CodeAt(op, i, Sel(gs, bs))
    requires OwnGuards(gs[..j]) <= off && (gs[j].Some? ==> gs[j].value !in off)
    requires forall k | 0 <= k < j :: gs[k].Some?
    ensures Run(Off(off), op, i, s) == Run(Off(off), op, i + AltLen(bs[..j]) + 1, s)
  {
    hide CodeAt, AltLen, Len, Emit, Run;
    AltLenNone();
    SelCode(op, i, gs, bs, 0);
    SelRun(Off(off), op, i, gs, bs, 0, s);
    forall k | 0 <= k < j ensures !Holds(Off(off), gs[k], s) {
      assert gs[..j][k] == gs[k] && gs[k].value in OwnGuards(gs[..j]);
    }
    assert Holds(Off(off), gs[j], s);
  }

  /**
   For a method whose guards are expressions of their own: a call that starts it always stores a position from
   which it can resume exactly when no selection that may wait stands at or beyond position 0xff.
   */
  lemma {:induction false} StartBits<S>(h: Hse, s0: S)
    requires WellFormed(h) && Separate(h)
    ensures (forall env: Env<S>, s: S :: Faithful(Run(env, Emit(h, 0), 0, s))) <==> MicroOk(Emit(h, 0))
  {
    hide Run, Emit;
    var op := Emit(h, 0);
    if MicroOk(op) {
      forall env: Env<S>, s: S ensures Faithful(Run(env, op, 0, s)) {
        if Run(env, op, 0, s).Stalled? { StallIndex(env, op, 0, s); }
      }
    } else {
      var w :| 0 <= w < |op| && op[w].OSel? && op[w].g.Some? && op[w].next <= w && op[w].next >= DONE;
      assert op[0..|op|] == op;
      var off := Reaches(op, 0, h, w, {}, s0);
      assert !Faithful(Run(Off(off), op, 0, s0));
    }
  }
}
