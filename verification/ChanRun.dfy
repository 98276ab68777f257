/** The interpreter of channel methods, and what running compiled code means. */
module ChanRun {
  import opened Prelude
  import opened ChanLang
  import opened ChanMethods

  /** Stuck: a jump that was followed did not go forward, so the interpreter could go round for ever. */
  datatype Outcome<S> = Finished(s: S) | Stalled(at: nat, s: S) | Stuck

  function Run<S>(env: Env<S>, op: seq<Op>, from: nat, s: S): Outcome<S>
    decreases if from <= |op| then |op| - from else 0
  {
    if from >= |op| then Finished(s)
    else
      match op[from]
      case OSkip => Run(env, op, from + 1, s)
      case OGoto(t) => if t > from then Run(env, op, t, s) else Stuck
      case ODo(a) => Run(env, op, from + 1, env.act(a, s))
      case OSel(g, n) =>
        if Holds(env, g, s) then Run(env, op, from + 1, s)
        else if n <= from then Stalled(n, s)
        else Run(env, op, n, s)
  }

  /** The interpreter loop: the position to resume at, or None when the method is done. */
  method RunMethod<S>(env: Env<S>, op: seq<Op>, start: nat, s0: S) returns (resume: Option<nat>, s: S)
    requires !Run(env, op, start, s0).Stuck?
    ensures Run(env, op, start, s0) == if resume.None? then Finished(s) else Stalled(resume.value, s)
  {
    var from := start;
    s := s0;
    while from < |op|
      invariant Run(env, op, from, s) == Run(env, op, start, s0)
      decreases |op| - from
    {
      match op[from]
      case OSkip => from := from + 1;
      case OGoto(t) => from := t;
      case ODo(a) =>
        s := env.act(a, s);
        from := from + 1;
      case OSel(g, n) =>
        if Holds(env, g, s) {
          from := from + 1;
        } else if n <= from {
          return Some(n), s;
        } else {
          from := n;
        }
    }
    resume := None;
  }

  // ----- positions in compiled code

  /** The code of h stands at position i. */
  predicate CodeAt(op: seq<Op>, i: nat, h: Hse)
  {
    i + Len(h) <= |op| && op[i..i + Len(h)] == Emit(h, i)
  }

  /** From position i the programs of k are still to be run, in order, and nothing else. */
  ghost predicate Stands(op: seq<Op>, i: nat, k: seq<Hse>)
    decreases if i <= |op| then |op| - i else 0, |k|
  {
    && i <= |op|
    && (|| (k == [] && i == |op|)
        || (k != [] && CodeAt(op, i, k[0]) && Stands(op, i + Len(k[0]), k[1..]))
        || (i < |op| && op[i].OGoto? && i < op[i].target <= |op| && Stands(op, op[i].target, k))
        || (i < |op| && op[i].OSkip? && Stands(op, i + 1, k)))
  }

  lemma WholeCode(op: seq<Op>, h: Hse)
    requires op == Emit(h, 0)
    ensures Stands(op, 0, [h])
  {
    assert op[0..|op|] == op;
  }

  lemma SliceSlice(op: seq<Op>, i: nat, j: nat, a: nat, b: nat)
    requires i <= j <= |op| && a <= b <= j - i
    ensures op[i..j][a..b] == op[i + a..i + b]
  {
    assert forall x | 0 <= x < b - a :: op[i..j][a..b][x] == op[i + a + x];
  }

  lemma EmitSplit(cs: seq<Hse>, i: nat)
    requires cs != []
    ensures var n, c := |cs| - 1, EmitOf(cs, i);
            && LenOf(cs) == LenOf(cs[..n]) + Len(cs[n])
            && c[..LenOf(cs[..n])] == EmitOf(cs[..n], i) && c[LenOf(cs[..n])..] == Emit(cs[n], i + LenOf(cs[..n]))
  {
  }

  /** The last part of a sequence, and the ones before it. */
  lemma {:induction false} SeqLast(op: seq<Op>, i: nat, cs: seq<Hse>)
    requires cs != [] && i + LenOf(cs) <= |op| && op[i..i + LenOf(cs)] == EmitOf(cs, i)
    ensures var n := |cs| - 1;
            var m := i + LenOf(cs[..n]);
            m <= |op| && m + Len(cs[n]) == i + LenOf(cs) && op[i..m] == EmitOf(cs[..n], i) && CodeAt(op, m, cs[n])
  {
    hide Emit, Len, EmitOf;
    var n := |cs| - 1;
    EmitSplit(cs, i);
    SliceSlice(op, i, i + LenOf(cs), LenOf(cs[..n]), LenOf(cs));
    SliceSlice(op, i, i + LenOf(cs), 0, LenOf(cs[..n]));
  }

  lemma StandsCons(op: seq<Op>, i: nat, h: Hse, rest: seq<Hse>)
    requires i <= |op| && CodeAt(op, i, h) && Stands(op, i + Len(h), rest)
    ensures Stands(op, i, [h] + rest)
  {
    assert ([h] + rest)[0] == h && ([h] + rest)[1..] == rest;
  }

  /** The parts of a sequence follow one another. */
  lemma {:induction false} SeqStands(op: seq<Op>, i: nat, cs: seq<Hse>, rest: seq<Hse>)
    requires i + LenOf(cs) <= |op| && op[i..i + LenOf(cs)] == EmitOf(cs, i) && Stands(op, i + LenOf(cs), rest)
    ensures Stands(op, i, cs + rest)
    decreases |cs|
  {
    hide Emit, Len, EmitOf, CodeAt, Stands;
    if cs == [] {
      assert cs + rest == rest;
    } else {
      var n := |cs| - 1;
      SeqLast(op, i, cs);
      StandsCons(op, i + LenOf(cs[..n]), cs[n], rest);
      SeqStands(op, i, cs[..n], [cs[n]] + rest);
      assert cs[..n] + ([cs[n]] + rest) == cs + rest;
    }
  }

  /** Alternative j of a selection at position i. */
  lemma {:induction false} SelCode(op: seq<Op>, i: nat, gs: seq<Option<nat>>, bs: seq<Hse>, j: nat)
    requires |gs| == |bs| && j < |bs| && CodeAt(op, i, Sel(gs, bs))
    ensures var p, close := i + AltLen(bs[..j]), i + AltLen(bs);
            && p + Len(bs[j]) + 2 <= close < |op|
            && op[p] == OSel(gs[j], if j + 1 < |bs| then i + AltLen(bs[..j + 1]) else i)
            && CodeAt(op, p + 1, bs[j]) && op[p + 1 + Len(bs[j])] == OGoto(close) && op[close] == OSkip
            && p < i + AltLen(bs[..j + 1]) <= close
  {
    hide Emit, Alts, AltLen, Len;
    var ts := seq(|bs|, _ => i + AltLen(bs));
    SelectionCode(Sel(gs, bs), gs, bs, i);
    SelLen(gs, bs);
    assert bs[..|bs|] == bs;
    var c := Alts(gs, bs, i, |bs|, ts);
    AltsAt(gs, bs, i, |bs|, ts, j);
    AltLenMore(bs, j);
    AltLenMono(bs, j + 1, |bs|);
    var d := op[i..i + Len(Sel(gs, bs))];
    assert d == c + [OSkip] && d[|c|] == OSkip;
    var p := AltLen(bs[..j]);
    assert op[i + p] == d[p] == c[p];
    assert op[i + p + 1 + Len(bs[j])] == d[p + 1 + Len(bs[j])] == c[p + 1 + Len(bs[j])];
    SliceSlice(op, i, i + |d|, p + 1, p + 1 + Len(bs[j]));
    assert d[p + 1..p + 1 + Len(bs[j])] == c[p + 1..p + 1 + Len(bs[j])];
  }

  lemma SelLen(gs: seq<Option<nat>>, bs: seq<Hse>)
    ensures Len(Sel(gs, bs)) == AltLen(bs) + 1
  {
  }

  /** Testing guards from alternative j on: the first true one is entered, or the interpreter stalls at i. */
  lemma {:induction false} SelRun<S>(env: Env<S>, op: seq<Op>, i: nat, gs: seq<Option<nat>>, bs: seq<Hse>, j: nat, s: S)
    requires |gs| == |bs| && j < |bs| && CodeAt(op, i, Sel(gs, bs))
    requires i + AltLen(bs[..j]) <= |op|
    ensures match FirstTrue(env, gs, s, j)
            case None => Run(env, op, i + AltLen(bs[..j]), s) == Stalled(i, s)
            case Some(p) => Run(env, op, i + AltLen(bs[..j]), s) == Run(env, op, i + AltLen(bs[..p]) + 1, s)
    decreases |bs| - j
  {
    hide CodeAt, AltLen, Len;
    SelCode(op, i, gs, bs, j);
    if !Holds(env, gs[j], s) && j + 1 < |bs| { SelRun(env, op, i, gs, bs, j + 1, s); }
  }

  /** After the body of an alternative comes what follows the selection. */
  lemma {:induction false} AltStandsAt(op: seq<Op>, i: nat, gs: seq<Option<nat>>, bs: seq<Hse>, p: nat, rest: seq<Hse>)
    requires |gs| == |bs| && p < |bs| && CodeAt(op, i, Sel(gs, bs)) && Stands(op, i + Len(Sel(gs, bs)), rest)
    ensures Stands(op, i + AltLen(bs[..p]) + 1, [bs[p]] + rest)
  {
    hide CodeAt;
    SelCode(op, i, gs, bs, p);
    SelLen(gs, bs);
    var close := i + AltLen(bs);
    assert Stands(op, close, rest);
    assert ([bs[p]] + rest)[0] == bs[p] && ([bs[p]] + rest)[1..] == rest;
    assert Stands(op, i + AltLen(bs[..p]) + 1 + Len(bs[p]), rest);
  }

  // ----- correctness

  /** The interpreter did what the structured run did: to the end, or to the same waiting selection. */
  ghost predicate Agrees<S>(op: seq<Op>, out: Outcome<S>, k: seq<Hse>, s: S)
  {
    if k == [] then out == Finished(s)
    else out.Stalled? && out.s == s && k[0].Sel? && Stands(op, out.at, k) && CodeAt(op, out.at, k[0])
         && out.at < |op| && op[out.at].OSel? && AllWellFormed(k)
  }

  /**
   Running compiled code from a position is running the structured programs that are left there: the same
   actions in the same order, and it stalls exactly when a selection has no true guard, at its first test.
   */
  lemma {:induction false} RunIsExec<S>(env: Env<S>, op: seq<Op>, i: nat, k: seq<Hse>, s: S)
    requires Stands(op, i, k) && AllWellFormed(k)
    ensures Agrees(op, Run(env, op, i, s), Exec(env, k, s).0, Exec(env, k, s).1)
    decreases |op| - i, SizeOf(k), 2
  {
    hide Agrees, Emit, CodeAt, WellFormed;
    if k == [] && i == |op| {
      EndAgrees(op, s);
    } else if k != [] && CodeAt(op, i, k[0]) && Stands(op, i + Len(k[0]), k[1..]) {
      CodeIsExec(env, op, i, k, s);
    } else if i < |op| && op[i].OGoto? && i < op[i].target <= |op| && Stands(op, op[i].target, k) {
      RunIsExec(env, op, op[i].target, k, s);
    } else {
      RunIsExec(env, op, i + 1, k, s);
    }
  }

  lemma EndAgrees<S>(op: seq<Op>, s: S)
    ensures Agrees(op, Finished(s), [], s)
  {
  }

  lemma {:induction false} CodeIsExec<S>(env: Env<S>, op: seq<Op>, i: nat, k: seq<Hse>, s: S)
    requires k != [] && i <= |op| && CodeAt(op, i, k[0]) && Stands(op, i + Len(k[0]), k[1..]) && AllWellFormed(k)
    ensures Agrees(op, Run(env, op, i, s), Exec(env, k, s).0, Exec(env, k, s).1)
    decreases |op| - i, SizeOf(k), 1
  {
    hide Agrees;
    var rest := k[1..];
    match k[0]
    case Nothing => RunIsExec(env, op, i, rest, s);
    case Skip =>
      assert op[i] == op[i..i + 1][0] == OSkip;
      RunIsExec(env, op, i + 1, rest, s);
    case Do(a) =>
      assert op[i] == op[i..i + 1][0] == ODo(a);
      RunIsExec(env, op, i + 1, rest, env.act(a, s));
    case Seq(cs) =>
      SeqStands(op, i, cs, rest);
      SizeSeq(cs, rest);
      RunIsExec(env, op, i, cs + rest, s);
    case Sel(gs, bs) => SelIsExec(env, op, i, k, s);
  }

  lemma {:induction false} SelIsExec<S>(env: Env<S>, op: seq<Op>, i: nat, k: seq<Hse>, s: S)
    requires k != [] && k[0].Sel? && i <= |op| && CodeAt(op, i, k[0]) && Stands(op, i + Len(k[0]), k[1..])
             && AllWellFormed(k)
    ensures Agrees(op, Run(env, op, i, s), Exec(env, k, s).0, Exec(env, k, s).1)
    decreases |op| - i, SizeOf(k), 0
  {
    hide CodeAt, Emit, Len, Run, Agrees, AltLen, Stands;
    var gs, bs, rest := k[0].guards, k[0].bodies, k[1..];
    assert k[0] == Sel(gs, bs) && WellFormed(k[0]);
    AltLenNone();
    SelRun(env, op, i, gs, bs, 0, s);
    SelCode(op, i, gs, bs, 0);
    match FirstTrue(env, gs, s, 0)
    case None => WaitAgrees(op, i, k, s);
    case Some(p) =>
      AltStandsAt(op, i, gs, bs, p, rest);
      SelCode(op, i, gs, bs, p);
      assert AllWellFormed([bs[p]] + rest);
      SizeSel(gs, bs, p, rest);
      RunIsExec(env, op, i + AltLen(bs[..p]) + 1, [bs[p]] + rest, s);
  }

  lemma {:induction false} WaitAgrees<S>(op: seq<Op>, i: nat, k: seq<Hse>, s: S)
    requires k != [] && k[0].Sel? && AllWellFormed(k) && i < |op| && op[i].OSel?
    requires CodeAt(op, i, k[0]) && Stands(op, i + Len(k[0]), k[1..])
    ensures Agrees(op, Stalled(i, s), k, s)
  {
    hide CodeAt;
  }

  /**
   A compiled method, started at its beginning: it never makes a backward jump other than the one that stalls,
   and does exactly what the structured program does.
   */
  lemma {:induction false} CompiledRuns<S>(env: Env<S>, h: Hse, s: S)
    requires WellFormed(h)
    ensures var r := Exec(env, [h], s);
            Agrees(Emit(h, 0), Run(env, Emit(h, 0), 0, s), r.0, r.1)
  {
    WholeCode(Emit(h, 0), h);
    RunIsExec(env, Emit(h, 0), 0, [h], s);
  }

  // ----- termination

  /** Every jump of code placed at `at` goes forward, to `close` at most. */
  predicate Forward(c: seq<Op>, at: nat, close: nat)
  {
    forall i | 0 <= i < |c| && c[i].OGoto? :: at + i < c[i].target <= close
  }

  lemma ForwardAppend(c: seq<Op>, d: seq<Op>, at: nat, mid: nat, close: nat)
    requires Forward(c, at, mid) && Forward(d, at + |c|, close) && mid <= close
    ensures Forward(c + d, at, close)
  {
  }

  lemma {:induction false} EmitForward(h: Hse, at: nat)
    ensures Forward(Emit(h, at), at, at + Len(h))
    decreases h, 0
  {
    match h
    case Seq(cs) => EmitOfForward(cs, at);
    case Sel(gs, bs) =>
      if |gs| == |bs| {
        var ts := seq(|bs|, _ => at + AltLen(bs));
        assert bs[..|bs|] == bs;
        AltsForward(gs, bs, at, |bs|, ts);
        SelectionCode(h, gs, bs, at);
        ForwardAppend(Alts(gs, bs, at, |bs|, ts), [OSkip], at, at + AltLen(bs), at + Len(h));
      }
    case _ =>
  }

  lemma {:induction false} EmitOfForward(cs: seq<Hse>, at: nat)
    ensures Forward(EmitOf(cs, at), at, at + LenOf(cs))
    decreases cs, 1
  {
    if cs != [] {
      hide Forward, Emit;
      var n := |cs| - 1;
      EmitOfForward(cs[..n], at);
      EmitForward(cs[n], at + LenOf(cs[..n]));
      ForwardAppend(EmitOf(cs[..n], at), Emit(cs[n], at + LenOf(cs[..n])), at, at + LenOf(cs[..n]), at + LenOf(cs));
    }
  }

  lemma {:induction false} AltsForward(gs: seq<Option<nat>>, bs: seq<Hse>, root: nat, n: nat, ts: seq<nat>)
    requires n <= |bs| == |gs| && |ts| == |bs| && forall j | 0 <= j < |ts| :: ts[j] == root + AltLen(bs)
    ensures Forward(Alts(gs, bs, root, n, ts), root, root + AltLen(bs))
    decreases bs, 1, n
  {
    hide Emit, Len, AltLen, Alts, Forward;
    if n > 0 {
      AltsForward(gs, bs, root, n - 1, ts);
      EmitForward(bs[n - 1], root + AltLen(bs[..n - 1]) + 1);
      AltRoom(bs, n);
      OneForward(Alts(gs, bs, root, n - 1, ts), gs[n - 1], if n < |bs| then root + AltLen(bs[..n]) else root,
                 Emit(bs[n - 1], root + AltLen(bs[..n - 1]) + 1), root, root + AltLen(bs));
      AltsMore(gs, bs, root, n, ts);
    } else {
      AltsNone(gs, bs, root, ts);
      NothingForward(root, root + AltLen(bs));
    }
  }

  lemma NothingForward(at: nat, close: nat)
    ensures Forward([], at, close)
  {
  }

  lemma AltRoom(bs: seq<Hse>, n: nat)
    requires 0 < n <= |bs|
    ensures AltLen(bs[..n - 1]) + Len(bs[n - 1]) + 2 <= AltLen(bs)
  {
    hide AltLen, Len;
    AltLenMore(bs, n - 1);
    AltLenMono(bs, n, |bs|);
    assert bs[..|bs|] == bs;
  }

  /** One more alternative behind the code c. */
  lemma {:induction false} OneForward(c: seq<Op>, g: Option<nat>, next: nat, body: seq<Op>, root: nat, close: nat)
    requires Forward(c, root, close) && root + |c| + |body| + 2 <= close
    requires Forward(body, root + |c| + 1, root + |c| + 1 + |body|)
    ensures Forward(c + [OSel(g, next)] + body + [OGoto(close)], root, close)
  {
    hide Forward;
    Widen(body, root + |c| + 1, root + |c| + 1 + |body|, close);
    ChunkForward(c, OSel(g, next), body, close, root, close);
  }

  lemma ChunkForward(c: seq<Op>, sel: Op, body: seq<Op>, t: nat, root: nat, close: nat)
    requires Forward(c, root, close) && sel.OSel? && Forward(body, root + |c| + 1, close)
    requires root + |c| + 1 + |body| < t <= close
    ensures Forward(c + [sel] + body + [OGoto(t)], root, close)
  {
  }

  lemma Widen(c: seq<Op>, at: nat, mid: nat, close: nat)
    requires Forward(c, at, mid) && mid <= close
    ensures Forward(c, at, close)
  {
  }

  /** From any position and in any state, the interpreter comes to an end on compiled code. */
  lemma {:induction false} Terminates<S>(env: Env<S>, h: Hse, from: nat, s: S)
    ensures !Run(env, Emit(h, 0), from, s).Stuck?
  {
    EmitForward(h, 0);
    NotStuck(env, Emit(h, 0), from, s);
  }

  lemma {:induction false} NotStuck<S>(env: Env<S>, op: seq<Op>, from: nat, s: S)
    requires Forward(op, 0, |op|)
    ensures !Run(env, op, from, s).Stuck?
    decreases if from <= |op| then |op| - from else 0
  {
    if from < |op| {
      match op[from]
      case OSkip => NotStuck(env, op, from + 1, s);
      case OGoto(t) => NotStuck(env, op, t, s);
      case ODo(a) => NotStuck(env, op, from + 1, env.act(a, s));
      case OSel(g, n) => if Holds(env, g, s) { NotStuck(env, op, from + 1, s); } else if n > from {
          NotStuck(env, op, n, s); }
    }
  }
}
