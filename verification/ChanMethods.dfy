/**
 Channel methods as linear code: the compiler with its back-patched selections, the interpreter that stalls and
 resumes, and the proof that the code does what the structured program does.
 */
module ChanMethods {
  import opened Prelude
  import opened ChanLang

  /** A false guard jumps to `next`; a jump that does not go forward means: wait, and resume there. */
  datatype Op =
    | OSkip
    | ODo(a: Action)
    | OGoto(target: nat)
    | OSel(g: Option<nat>, next: nat)

  // ----- the code of a program

  function Len(h: Hse): nat
  {
    match h
    case Nothing => 0
    case Skip => 1
    case Do(_) => 1
    case Seq(cs) => LenOf(cs)
    case Sel(_, bs) => AltLen(bs) + 1
  }

  function LenOf(cs: seq<Hse>): nat
  {
    if cs == [] then 0 else LenOf(cs[..|cs| - 1]) + Len(cs[|cs| - 1])
  }

  /** Each alternative has its guard test in front of it and a jump behind it. */
  function AltLen(bs: seq<Hse>): nat
  {
    if bs == [] then 0 else AltLen(bs[..|bs| - 1]) + Len(bs[|bs| - 1]) + 2
  }

  /** The code of h, placed at position `at`. */
  function Emit(h: Hse, at: nat): (r: seq<Op>)
    ensures |r| == Len(h)
    decreases h, 0
  {
    match h
    case Nothing => []
    case Skip => [OSkip]
    case Do(a) => [ODo(a)]
    case Seq(cs) => EmitOf(cs, at)
    case Sel(gs, bs) =>
      if |gs| != |bs| then seq(Len(h), _ => OSkip)
      else Alts(gs, bs, at, |bs|, seq(|bs|, _ => at + AltLen(bs))) + [OSkip]
  }

  function EmitOf(cs: seq<Hse>, at: nat): (r: seq<Op>)
    ensures |r| == LenOf(cs)
    decreases cs, 1
  {
    if cs == [] then [] else EmitOf(cs[..|cs| - 1], at) + Emit(cs[|cs| - 1], at + LenOf(cs[..|cs| - 1]))
  }

  /** The first n alternatives of a selection at `root`; the jump behind alternative j goes to ts[j]. */
  function Alts(gs: seq<Option<nat>>, bs: seq<Hse>, root: nat, n: nat, ts: seq<nat>): (r: seq<Op>)
    requires n <= |bs| == |gs| && n <= |ts|
    ensures |r| == AltLen(bs[..n])
    decreases bs, 2, n
  {
    if n == 0 then []
    else
      assert bs[..n][..n - 1] == bs[..n - 1];
      Alts(gs, bs, root, n - 1, ts)
      + [OSel(gs[n - 1], if n < |bs| then root + AltLen(bs[..n]) else root)]
      + Emit(bs[n - 1], root + AltLen(bs[..n - 1]) + 1)
      + [OGoto(ts[n - 1])]
  }

  lemma AltLenMore(bs: seq<Hse>, n: nat)
    requires n < |bs|
    ensures AltLen(bs[..n + 1]) == AltLen(bs[..n]) + Len(bs[n]) + 2
  {
    assert bs[..n + 1][..n] == bs[..n];
  }

  lemma AltLenMono(bs: seq<Hse>, m: nat, n: nat)
    requires m <= n <= |bs|
    ensures AltLen(bs[..m]) <= AltLen(bs[..n])
    ensures m < n ==> AltLen(bs[..m]) + 2 <= AltLen(bs[..n])
    decreases n - m
  {
    if m < n {
      AltLenMore(bs, n - 1);
      AltLenMono(bs, m, n - 1);
    }
  }

  lemma {:induction false} AltsPrefix(gs: seq<Option<nat>>, bs: seq<Hse>, root: nat, n: nat, ts: seq<nat>, m: nat)
    requires m <= n <= |bs| == |gs| && n <= |ts|
    ensures AltLen(bs[..m]) <= AltLen(bs[..n])
    ensures Alts(gs, bs, root, n, ts)[..AltLen(bs[..m])] == Alts(gs, bs, root, m, ts)
    decreases n
  {
    if m < n {
      AltLenMore(bs, n - 1);
      AltsPrefix(gs, bs, root, n - 1, ts, m);
      assert Alts(gs, bs, root, n, ts)[..AltLen(bs[..n - 1])] == Alts(gs, bs, root, n - 1, ts);
    }
  }

  /** Alternative j stands in c, which starts at position root. */
  predicate AltStands(c: seq<Op>, gs: seq<Option<nat>>, bs: seq<Hse>, root: nat, ts: seq<nat>, j: nat)
    requires j < |bs| == |gs| && j < |ts|
  {
    var p := AltLen(bs[..j]);
    && p + Len(bs[j]) + 2 <= |c|
    && c[p] == OSel(gs[j], if j + 1 < |bs| then root + AltLen(bs[..j + 1]) else root)
    && c[p + 1..p + 1 + Len(bs[j])] == Emit(bs[j], root + p + 1)
    && c[p + 1 + Len(bs[j])] == OGoto(ts[j])
  }

  lemma {:induction false} AltLast(gs: seq<Option<nat>>, bs: seq<Hse>, root: nat, ts: seq<nat>, j: nat)
    requires j < |bs| == |gs| && j < |ts|
    ensures AltStands(Alts(gs, bs, root, j + 1, ts), gs, bs, root, ts, j)
  {
    hide Emit;
    AltLenMore(bs, j);
  }

  lemma {:induction false} AltExtends(c: seq<Op>, d: seq<Op>, gs: seq<Option<nat>>, bs: seq<Hse>, root: nat,
      ts: seq<nat>, j: nat)
    requires j < |bs| == |gs| && j < |ts| && |d| <= |c| && c[..|d|] == d && AltStands(d, gs, bs, root, ts, j)
    ensures AltStands(c, gs, bs, root, ts, j)
  {
    hide Emit, AltLen, Len;
    var p, q := AltLen(bs[..j]) + 1, AltLen(bs[..j]) + 1 + Len(bs[j]);
    assert forall x | 0 <= x < |d| :: c[x] == c[..|d|][x] == d[x];
    assert c[p..q] == d[p..q];
  }

  /** Where alternative j stands in the code. */
  lemma {:induction false} AltsAt(gs: seq<Option<nat>>, bs: seq<Hse>, root: nat, n: nat, ts: seq<nat>, j: nat)
    requires j < n <= |bs| == |gs| && n <= |ts|
    ensures AltStands(Alts(gs, bs, root, n, ts), gs, bs, root, ts, j)
  {
    hide Emit, AltStands, Alts, AltLen;
    AltLast(gs, bs, root, ts, j);
    AltsPrefix(gs, bs, root, n, ts, j + 1);
    AltExtends(Alts(gs, bs, root, n, ts), Alts(gs, bs, root, j + 1, ts), gs, bs, root, ts, j);
  }

  /** Changing one jump target changes one operation. */
  lemma {:induction false} AltsPatch(gs: seq<Option<nat>>, bs: seq<Hse>, root: nat, n: nat, ts: seq<nat>, j: nat,
      t: nat)
    requires j < n <= |bs| == |gs| && n <= |ts|
    ensures var p := AltLen(bs[..j]) + Len(bs[j]) + 1;
            && p < AltLen(bs[..n])
            && Alts(gs, bs, root, n, ts[j := t]) == Alts(gs, bs, root, n, ts)[p := OGoto(t)]
    decreases n
  {
    hide Emit, Len, AltLen, Alts;
    AltLenMore(bs, n - 1);
    AltsMore(gs, bs, root, n, ts);
    AltsMore(gs, bs, root, n, ts[j := t]);
    if j < n - 1 {
      AltsPatch(gs, bs, root, n - 1, ts, j, t);
    } else {
      AltsSame(gs, bs, root, n - 1, ts, ts[j := t]);
    }
  }

  /** The last alternative. */
  lemma AltsMore(gs: seq<Option<nat>>, bs: seq<Hse>, root: nat, n: nat, ts: seq<nat>)
    requires 0 < n <= |bs| == |gs| && n <= |ts|
    ensures Alts(gs, bs, root, n, ts)
            == Alts(gs, bs, root, n - 1, ts)
               + [OSel(gs[n - 1], if n < |bs| then root + AltLen(bs[..n]) else root)]
               + Emit(bs[n - 1], root + AltLen(bs[..n - 1]) + 1) + [OGoto(ts[n - 1])]
  {
    hide Emit;
  }

  lemma {:induction false} AltsSame(gs: seq<Option<nat>>, bs: seq<Hse>, root: nat, n: nat, ts: seq<nat>, ts': seq<nat>)
    requires n <= |bs| == |gs| && n <= |ts| && n <= |ts'| && forall j | 0 <= j < n :: ts[j] == ts'[j]
    ensures Alts(gs, bs, root, n, ts) == Alts(gs, bs, root, n, ts')
    decreases n
  {
    if n > 0 { AltsSame(gs, bs, root, n - 1, ts, ts'); }
  }

  // ----- the compiler

  class Compiler {
    var op: seq<Op>

    constructor ()
      ensures op == []
    {
      op := [];
    }

    method Compile(h: Hse)
      requires WellFormed(h)
      modifies this
      ensures op == old(op) + Emit(h, |old(op)|)
      decreases h, 2
    {
      match h
      case Nothing =>
      case Skip => op := op + [OSkip];
      case Do(a) => op := op + [ODo(a)];
      case Seq(cs) =>
        for i := 0 to |cs|
          invariant op == old(op) + EmitOf(cs[..i], |old(op)|)
        {
          assert cs[..i + 1][..i] == cs[..i];
          Compile(cs[i]);
        }
        assert cs[..|cs|] == cs;
      case Sel(gs, bs) => CompileSelection(h, gs, bs);
    }

    /** The guard test, the body, and a jump whose target is not known yet. */
    method CompileAlternative(g: Option<nat>, body: Hse, last: bool, root: nat)
      requires WellFormed(body)
      modifies this
      ensures op == old(op) + [OSel(g, if last then root else |old(op)| + Len(body) + 2)]
                            + Emit(body, |old(op)| + 1) + [OGoto(0)]
      decreases body, 3
    {
      var pos := |op|;
      op := op + [OSel(g, 0)];
      Compile(body);
      op := op + [OGoto(0)];
      op := op[pos := op[pos].(next := if last then root else |op|)];
    }

    method CompileSelection(h: Hse, gs: seq<Option<nat>>, bs: seq<Hse>)
      requires WellFormed(h) && h == Sel(gs, bs)
      modifies this
      ensures op == old(op) + Emit(h, |old(op)|)
      decreases h, 1
    {
      hide Emit, AltLen, Alts, Len, WellFormed;
      SelParts(h, gs, bs);
      var root := |op|;
      ghost var n := |bs|;
      ghost var ts: seq<nat> := seq(n, _ => 0);
      AltsNone(gs, bs, root, ts);
      for i := 0 to |gs|
        invariant op == old(op) + Alts(gs, bs, root, i, ts)
      {
        AltLenMore(bs, i);
        AltsMore(gs, bs, root, i + 1, ts);
        CompileAlternative(gs[i], bs[i], i + 1 == |gs|, root);
      }
      assert bs[..n] == bs;
      var close := |op|;
      AltLenMore(bs, n - 1);
      AltsPatch(gs, bs, root, n, ts, n - 1, close);
      op := op[|op| - 1 := OGoto(close)];
      op := op + [OSkip];
      Patch(gs, bs, root, ts[n - 1 := close]);
      SelectionCode(h, gs, bs, root);
    }

    /** Follows the guard tests of the selection just emitted and sets the jump in front of each but the first. */
    method Patch(gs: seq<Option<nat>>, bs: seq<Hse>, root: nat, ghost ts0: seq<nat>)
      requires |gs| == |bs| == |ts0| && bs != [] && root + AltLen(bs) + 1 == |op|
      requires bs[..|bs|] == bs && op[root..] == Alts(gs, bs, root, |bs|, ts0) + [OSkip]
      requires ts0[|bs| - 1] == root + AltLen(bs)
      modifies this
      ensures op == old(op)[..root] + Alts(gs, bs, root, |bs|, seq(|bs|, _ => root + AltLen(bs))) + [OSkip]
    {
      hide Emit, AltLen, Alts;
      ghost var n := |bs|;
      ghost var ts: seq<nat> := ts0;
      ghost var q := 0;
      ghost var before := op[..root];
      var close := |op| - 1;
      var tmp := root;
      var more := true;
      AltLenNone();
      while more
        invariant q < n && |ts| == n && close == root + AltLen(bs)
        invariant op == before + (Alts(gs, bs, root, n, ts) + [OSkip])
        invariant forall j | 0 <= j < n && (j < q || j == n - 1) :: ts[j] == close
        invariant if more then tmp == root + AltLen(bs[..q]) else q == n - 1
        decreases n - q, if more then 1 else 0
      {
        AltsAt(gs, bs, root, n, ts, q);
        assert op[tmp].OSel?;
        tmp := op[tmp].next;
        AltLenMore(bs, q);
        if tmp != root {
          assert op[tmp - 1].OGoto?;
          AltsPatch(gs, bs, root, n, ts, q, close);
          ts := ts[q := close];
          op := op[tmp - 1 := OGoto(close)];
          q := q + 1;
        }
        more := tmp != root;
      }
      AltsSame(gs, bs, root, n, ts, seq(n, _ => close));
      assert before + (Alts(gs, bs, root, n, ts) + [OSkip]) == before + Alts(gs, bs, root, n, ts) + [OSkip];
    }
  }

  lemma SelParts(h: Hse, gs: seq<Option<nat>>, bs: seq<Hse>)
    requires WellFormed(h) && h == Sel(gs, bs)
    ensures gs != [] && |gs| == |bs| && forall i | 0 <= i < |bs| :: WellFormed(bs[i])
  {
  }

  lemma AltsNone(gs: seq<Option<nat>>, bs: seq<Hse>, root: nat, ts: seq<nat>)
    requires |bs| == |gs|
    ensures Alts(gs, bs, root, 0, ts) == []
  {
  }

  lemma AltLenNone()
    ensures AltLen([]) == 0
    ensures forall bs: seq<Hse> :: AltLen(bs[..0]) == 0
  {
  }

  lemma {:induction false} SelectionCode(h: Hse, gs: seq<Option<nat>>, bs: seq<Hse>, root: nat)
    requires h == Sel(gs, bs) && |gs| == |bs|
    ensures Emit(h, root) == Alts(gs, bs, root, |bs|, seq(|bs|, _ => root + AltLen(bs))) + [OSkip]
  {
    AltsSame(gs, bs, root, |bs|, seq(|bs|, _ => root + AltLen(bs)), seq(|bs|, _ => root + AltLen(bs)));
  }
}
