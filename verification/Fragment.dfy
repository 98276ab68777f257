/**
 A fragmented channel: the sending or receiving end is driven by three methods in order, across any number of
 stalls. Which method runs is a two-bit field, where it resumes an eight-bit one.
 */
module Fragment {
  import opened Prelude
  import opened ChanLang
  import opened ChanMethods
  import opened ChanRun

  const DONE: nat := 0xff

  /** What the interpreter returns, stored in eight bits. */
  function Encode<S>(out: Outcome<S>): (r: nat)
    requires !out.Stuck?
    ensures r <= 0xff
  {
    if out.Finished? then DONE else out.at % 0x100
  }

  /** 0 is at rest; 1, 2 and 3 are the methods. */
  datatype Half = Half(frag: nat, micro: nat)

  /** Runs the methods from where they are. The third component says whether the operation is complete. */
  function Drive<S>(env: Env<S>, ms: seq<seq<Op>>, h: Half, s: S, half: bool): Option<(Half, S, bool)>
    requires |ms| == 3 && h.frag <= 3
    decreases if h.frag == 0 then 0 else 4 - h.frag
  {
    if h.frag == 0 then Some((h, s, true))
    else
      var out := Run(env, ms[h.frag - 1], h.micro, s);
      if out.Stuck? then None
      else if Encode(out) == DONE then
        var h' := Half((h.frag + 1) % 4, 0);
        if half && h'.frag == 3 then Some((h', out.s, true)) else Drive(env, ms, h', out.s, half)
      else Some((Half(h.frag, Encode(out)), out.s, false))
  }

  // ----- the eight-bit resume position

  /** No selection that may wait is at or beyond position 0xff. */
  predicate MicroOk(op: seq<Op>)
  {
    forall i | 0 <= i < |op| && op[i].OSel? && op[i].g.Some? && op[i].next <= i :: op[i].next < DONE
  }

  /** The stored byte says where to resume, and is not taken for the end of the method. */
  predicate Faithful<S>(out: Outcome<S>)
  {
    out.Stalled? ==> Encode(out) == out.at && Encode(out) != DONE
  }

  lemma {:induction false} StallIndex<S>(env: Env<S>, op: seq<Op>, from: nat, s: S)
    requires Run(env, op, from, s).Stalled? && MicroOk(op)
    ensures Run(env, op, from, s).at < DONE
    decreases if from <= |op| then |op| - from else 0
  {
    match op[from]
    case OSkip => StallIndex(env, op, from + 1, s);
    case OGoto(t) => StallIndex(env, op, t, s);
    case ODo(a) => StallIndex(env, op, from + 1, env.act(a, s));
    case OSel(g, n) => if Holds(env, g, s) { StallIndex(env, op, from + 1, s); } else if n > from {
        StallIndex(env, op, n, s); }
  }

  /**
   The eight bits are enough exactly for the methods in which no selection that may wait stands at or beyond
   position 0xff.
   */
  lemma {:induction false} EightBits<S>(op: seq<Op>, s0: S)
    ensures (forall env: Env<S>, from: nat, s: S :: Faithful(Run(env, op, from, s))) <==> MicroOk(op)
  {
    if MicroOk(op) {
      forall env: Env<S>, from: nat, s: S ensures Faithful(Run(env, op, from, s)) {
        if Run(env, op, from, s).Stalled? { StallIndex(env, op, from, s); }
      }
    } else {
      var i :| 0 <= i < |op| && op[i].OSel? && op[i].g.Some? && op[i].next <= i && op[i].next >= DONE;
      var env: Env<S> := Env((_, s) => s, (_, _) => false);
      assert Run(env, op, i, s0) == Stalled(op[i].next, s0);
      assert !Faithful(Run(env, op, i, s0));
    }
  }

  /** A method with 255 steps in front of a selection that waits. */
  function LongMethod(): Hse
  {
    Seq(seq(255, _ => Skip) + [Sel([Some(0)], [Nothing])])
  }

  lemma SkipsCode(n: nat, at: nat)
    ensures LenOf(seq(n, _ => Skip)) == n && EmitOf(seq(n, _ => Skip), at) == seq(n, _ => OSkip)
  {
    if n > 0 {
      SkipsCode(n - 1, at);
      assert seq(n, _ => Skip)[..n - 1] == seq(n - 1, _ => Skip);
    }
  }

  lemma {:induction false} SkipsRun<S>(env: Env<S>, op: seq<Op>, from: nat, n: nat, s: S)
    requires from <= n <= |op| && forall i | from <= i < n :: op[i] == OSkip
    ensures Run(env, op, from, s) == Run(env, op, n, s)
    decreases n - from
  {
    if from < n { SkipsRun(env, op, from + 1, n, s); }
  }

  lemma {:induction false} LongCode()
    ensures Emit(LongMethod(), 0) == seq(255, _ => OSkip) + Emit(Sel([Some(0)], [Nothing]), 255)
  {
    var skips := seq(255, _ => Skip);
    var cs := skips + [Sel([Some(0)], [Nothing])];
    SkipsCode(255, 0);
    assert cs[..255] == skips && cs[255] == Sel([Some(0)], [Nothing]);
    assert Emit(LongMethod(), 0) == EmitOf(cs, 0);
  }

  /** The test of a selection with one alternative. */
  lemma {:induction false} WaitCode(at: nat)
    ensures var op := Emit(Sel([Some(0)], [Nothing]), at); |op| > 0 && op[0] == OSel(Some(0), at)
  {
    var gs: seq<Option<nat>>, bs := [Some(0)], [Nothing];
    var ts := seq(|bs|, _ => at + AltLen(bs));
    SelectionCode(Sel(gs, bs), gs, bs, at);
    AltsAt(gs, bs, at, 1, ts, 0);
  }

  /** Its wait is taken for the end of the method: the structured program waits, the stored byte says done. */
  lemma {:induction false} WaitLost<S>(env: Env<S>, s: S)
    requires !env.holds(0, s)
    ensures Run(env, Emit(LongMethod(), 0), 0, s) == Stalled(255, s)
    ensures Encode(Run(env, Emit(LongMethod(), 0), 0, s)) == DONE
  {
    hide Emit, LongMethod;
    LongCode();
    WaitCode(255);
    var op := Emit(LongMethod(), 0);
    assert op[255] == OSel(Some(0), 255);
    SkipsRun(env, op, 0, 255, s);
  }

  // ----- the protocol

  /** What running the first of some programs comes to: None if it waits, else the programs to run in its place. */
  function Head<S>(env: Env<S>, h: Hse, s: S): Option<(seq<Hse>, S)>
  {
    match h
    case Nothing => Some(([], s))
    case Skip => Some(([], s))
    case Do(a) => Some(([], env.act(a, s)))
    case Seq(cs) => Some((cs, s))
    case Sel(gs, bs) =>
      var p := FirstTrue(env, gs, s, 0);
      if p.None? then None else Some((if p.value < |bs| then [bs[p.value]] else [], s))
  }

  lemma {:induction false} ExecHead<S>(env: Env<S>, k: seq<Hse>, s: S)
    requires k != []
    ensures match Head(env, k[0], s)
            case None => Exec(env, k, s) == (k, s)
            case Some(r) => Exec(env, k, s) == Exec(env, r.0 + k[1..], r.1) && SizeOf(r.0 + k[1..]) < SizeOf(k)
  {
    assert [] + k[1..] == k[1..];
    match k[0]
    case Seq(cs) => SizeSeq(cs, k[1..]);
    case Sel(gs, bs) =>
      var p := FirstTrue(env, gs, s, 0);
      if p.Some? && p.value < |bs| { SizeSel(gs, bs, p.value, k[1..]); }
    case _ =>
  }

  /** Running programs in order, stopping at the first that waits. */
  lemma {:induction false} ExecAppend<S>(env: Env<S>, k: seq<Hse>, rest: seq<Hse>, s: S)
    ensures var r := Exec(env, k, s);
            Exec(env, k + rest, s) == if r.0 == [] then Exec(env, rest, r.1) else (r.0 + rest, r.1)
    decreases SizeOf(k)
  {
    hide Head;
    if k == [] {
      assert k + rest == rest;
    } else {
      hide Exec, SizeOf;
      ExecHead(env, k, s);
      ExecHead(env, k + rest, s);
      assert (k + rest)[1..] == k[1..] + rest;
      if Head(env, k[0], s).Some? {
        var r := Head(env, k[0], s).value;
        ExecAppend(env, r.0 + k[1..], rest, r.1);
        assert r.0 + k[1..] + rest == r.0 + (k[1..] + rest);
      }
    }
  }

  /** The three methods, as programs and as code. */
  ghost predicate Compiled(hs: seq<Hse>, ms: seq<seq<Op>>)
  {
    && |hs| == |ms| == 3
    && forall j | 0 <= j < 3 :: WellFormed(hs[j]) && ms[j] == Emit(hs[j], 0) && MicroOk(ms[j])
  }

  /** In state h the programs of k are left of the current method, and then the methods up to `top`. */
  ghost predicate At(hs: seq<Hse>, ms: seq<seq<Op>>, h: Half, k: seq<Hse>, top: nat)
  {
    && Compiled(hs, ms) && 1 <= h.frag <= top <= 3 && Stands(ms[h.frag - 1], h.micro, k) && AllWellFormed(k)
  }

  /** The current method, followed by `rest`. */
  lemma {:induction false} MethodIsExec<S>(env: Env<S>, op: seq<Op>, micro: nat, k: seq<Hse>, rest: seq<Hse>, s: S)
    requires Stands(op, micro, k) && AllWellFormed(k) && MicroOk(op)
    ensures var r, out := Exec(env, k, s), Run(env, op, micro, s);
            if r.0 == [] then out == Finished(r.1) && Encode(out) == DONE
                && Exec(env, k + rest, s) == Exec(env, rest, r.1)
            else
              && out.Stalled? && out.s == r.1 && Encode(out) == out.at && out.at != DONE
              && Stands(op, out.at, r.0) && AllWellFormed(r.0) && Exec(env, k + rest, s) == (r.0 + rest, r.1)
  {
    hide Stands, Run, Exec, AllWellFormed, CodeAt, MicroOk;
    RunIsExec(env, op, micro, k, s);
    ExecAppend(env, k, rest, s);
    if Run(env, op, micro, s).Stalled? { StallIndex(env, op, micro, s); }
  }

  /** What a call did is what the structured run `e` did; k' is what is left of the method it stopped in. */
  ghost predicate Follows<S>(
      hs: seq<Hse>, ms: seq<seq<Op>>, half: bool, r: Option<(Half, S, bool)>, e: (seq<Hse>, S), k': seq<Hse>)
    requires |hs| == 3
  {
    var top := if half then 2 else 3;
    && r.Some? && r.value.1 == e.1 && (r.value.2 <==> e.0 == [])
    && if r.value.2 then r.value.0 == Half(if half then 3 else 0, 0)
       else At(hs, ms, r.value.0, k', top) && e.0 == k' + hs[r.value.0.frag..top]
  }

  /** The method is done, or waits. */
  lemma {:induction false} DriveOne<S>(env: Env<S>, ms: seq<seq<Op>>, h: Half, s: S, half: bool)
    requires |ms| == 3 && 1 <= h.frag <= (if half then 2 else 3) && !Run(env, ms[h.frag - 1], h.micro, s).Stuck?
    ensures var out, r := Run(env, ms[h.frag - 1], h.micro, s), Drive(env, ms, h, s, half);
            if Encode(out) != DONE then r == Some((Half(h.frag, Encode(out)), out.s, false))
            else if h.frag == (if half then 2 else 3) then r == Some((Half(if half then 3 else 0, 0), out.s, true))
            else r == Drive(env, ms, Half(h.frag + 1, 0), out.s, half)
  {
    hide Run, Encode, Drive;
    DriveStep(env, ms, h, s, half);
    DriveEnds(env, ms, 0, Run(env, ms[h.frag - 1], h.micro, s).s, half);
  }

  /** One round of the loop over the methods. */
  lemma DriveStep<S>(env: Env<S>, ms: seq<seq<Op>>, h: Half, s: S, half: bool)
    requires |ms| == 3 && 1 <= h.frag <= 3
    ensures var out := Run(env, ms[h.frag - 1], h.micro, s);
            Drive(env, ms, h, s, half)
            == if out.Stuck? then None
               else if Encode(out) != DONE then Some((Half(h.frag, Encode(out)), out.s, false))
               else if half && h.frag == 2 then Some((Half(3, 0), out.s, true))
               else Drive(env, ms, Half(if h.frag == 3 then 0 else h.frag + 1, 0), out.s, half)
  {
    hide Run, Encode;
    assert (h.frag + 1) % 4 == if h.frag == 3 then 0 else h.frag + 1;
  }

  lemma DriveEnds<S>(env: Env<S>, ms: seq<seq<Op>>, micro: nat, s: S, half: bool)
    requires |ms| == 3
    ensures Drive(env, ms, Half(0, micro), s, half) == Some((Half(0, micro), s, true))
  {
  }

  /** One call: the same actions as the programs that are left, blocked exactly when they wait. */
  lemma {:induction false} DriveIsExec<S>(
      env: Env<S>, hs: seq<Hse>, ms: seq<seq<Op>>, h: Half, k: seq<Hse>, half: bool, s: S)
    returns (k': seq<Hse>)
    requires At(hs, ms, h, k, if half then 2 else 3)
    ensures |hs| == |ms| == 3 && 1 <= h.frag <= if half then 2 else 3
    ensures Follows(hs, ms, half, Drive(env, ms, h, s, half), Exec(env, k + hs[h.frag..if half then 2 else 3], s), k')
    decreases 4 - h.frag
  {
    hide Stands, Emit, WellFormed, Exec, Run, AllWellFormed, MicroOk, Drive, Encode;
    var top := if half then 2 else 3;
    MethodIsExec(env, ms[h.frag - 1], h.micro, k, hs[h.frag..top], s);
    DriveOne(env, ms, h, s, half);
    var r := Exec(env, k, s);
    k' := r.0;
    if r.0 == [] {
      if h.frag < top {
        var n := h.frag + 1;
        WholeCode(ms[n - 1], hs[n - 1]);
        OneWellFormed(hs[n - 1]);
        assert hs[h.frag..top] == [hs[n - 1]] + hs[n..top];
        k' := DriveIsExec(env, hs, ms, Half(n, 0), [hs[n - 1]], half, r.1);
      } else {
        assert hs[top..top] == [];
        ExecNothing(env, r.1);
      }
    }
  }

  lemma OneWellFormed(h: Hse)
    requires WellFormed(h)
    ensures AllWellFormed([h])
  {
  }

  lemma ExecNothing<S>(env: Env<S>, s: S)
    ensures Exec(env, [], s) == ([], s)
  {
  }

  // ----- the two ends of the channel

  /** The fragment fields of one end. */
  datatype End = End(frag: nat, micro: nat, flavor: bool, count: nat)

  /**
   One call of the sending or receiving operation. `begin` is what starting it does to the store; only the
   sending end counts. The last component says whether the caller is blocked.
   */
  function Operate<S>(
      env: Env<S>, ms: seq<seq<Op>>, e: End, flavors: bool, wakeup: bool, reset: bool, counts: bool, s: S,
          begin: S -> S)
    : Option<(End, S, bool)>
    requires |ms| == 3 && e.frag <= 3
  {
    var flavor := if !wakeup && flavors then !e.flavor else e.flavor;
    var h := if e.frag == 0 then Half(1, 0) else Half(e.frag, e.micro);
    var s1 := if e.frag == 0 then begin(s) else s;
    if reset then Some((End(h.frag, h.micro, flavor, e.count), s1, true))
    else
      match Drive(env, ms, h, s1, flavors && flavor)
      case None => None
      case Some(r) => Some((End(r.0.frag, r.0.micro, flavor, e.count + if counts && r.2 then 1 else 0), r.1, !r.2))
  }

  // ----- whole operations: any number of stalls, any change of the store between calls

  /** What a call gives back. */
  datatype Reply<S> = Reply(done: bool, s: S)

  /** The calls of one operation, up to the one that completes it; ins[i] is the store the i-th call finds. */
  function Operation<S>(
      env: Env<S>, ms: seq<seq<Op>>, e: End, flavors: bool, wakeup: bool, counts: bool, ins: seq<S>, begin: S -> S)
    : (End, seq<Reply<S>>)
    requires |ms| == 3
    decreases |ins|
  {
    if ins == [] || e.frag > 3 then (e, [])
    else
      match Operate(env, ms, e, flavors, wakeup, false, counts, ins[0], begin)
      case None => (e, [])
      case Some(r) =>
        var rest := if r.2 then Operation(env, ms, r.0, flavors, true, counts, ins[1..], begin) else (r.0, []);
        (rest.0, [Reply(!r.2, r.1)] + rest.1)
  }

  /** The same for the structured programs, each call going on where the last one waited. */
  function ExecCalls<S>(env: Env<S>, k: seq<Hse>, ins: seq<S>): seq<Reply<S>>
    decreases |ins|
  {
    if ins == [] then []
    else
      var r := Exec(env, k, ins[0]);
      [Reply(r.0 == [], r.1)] + if r.0 == [] then [] else ExecCalls(env, r.0, ins[1..])
  }

  predicate Completed<S>(rs: seq<Reply<S>>)
  {
    rs != [] && rs[|rs| - 1].done
  }

  /** An operation under way, resumed by wake-ups. */
  lemma {:induction false} Resumed<S>(
      env: Env<S>, hs: seq<Hse>, ms: seq<seq<Op>>, e: End, k: seq<Hse>, flavors: bool, counts: bool, ins: seq<S>,
          begin: S -> S)
    requires At(hs, ms, Half(e.frag, e.micro), k, if flavors && e.flavor then 2 else 3)
    ensures |hs| == |ms| == 3 && 1 <= e.frag <= if flavors && e.flavor then 2 else 3
    ensures var r := Operation(env, ms, e, flavors, true, counts, ins, begin);
            && r.1 == ExecCalls(env, k + hs[e.frag..if flavors && e.flavor then 2 else 3], ins)
            && (Completed(r.1) ==> r.0 == End(if flavors
                && e.flavor then 3 else 0, 0, e.flavor, e.count + if counts then 1 else 0))
    decreases |ins|
  {
    hide At, Drive, Exec;
    AtBounds(hs, ms, Half(e.frag, e.micro), k, if flavors && e.flavor then 2 else 3);
    if ins != [] {
      var half := flavors && e.flavor;
      var k' := DriveIsExec(env, hs, ms, Half(e.frag, e.micro), k, half, ins[0]);
      var r := Drive(env, ms, Half(e.frag, e.micro), ins[0], half).value;
      if !r.2 {
        Resumed(env, hs, ms, End(r.0.frag, r.0.micro, e.flavor, e.count), k', flavors, counts, ins[1..], begin);
      }
    }
  }

  lemma AtBounds(hs: seq<Hse>, ms: seq<seq<Op>>, h: Half, k: seq<Hse>, top: nat)
    requires At(hs, ms, h, k, top)
    ensures |hs| == |ms| == 3 && 1 <= h.frag <= top <= 3
  {
  }

  /** A first call is a resumed one after its start. */
  lemma {:induction false} FirstCall<S>(
      env: Env<S>, ms: seq<seq<Op>>, e: End, flavors: bool, counts: bool, ins: seq<S>, begin: S -> S)
    requires |ms| == 3 && e.frag <= 3 && ins != []
    ensures var s := if e.frag == 0 then begin(ins[0]) else ins[0];
            var e' := End(if e.frag == 0 then 1 else e.frag, if e.frag == 0 then 0 else e.micro,
                          if flavors then !e.flavor else e.flavor, e.count);
            Operate(env, ms, e, flavors, false, false, counts, ins[0], begin).Some? ==>
              Operation(env, ms, e, flavors, false, counts, ins, begin)
              == Operation(env, ms, e', flavors, true, counts, [s] + ins[1..], begin)
  {
    hide Drive;
    var s := if e.frag == 0 then begin(ins[0]) else ins[0];
    assert ([s] + ins[1..])[0] == s && ([s] + ins[1..])[1..] == ins[1..];
  }

  /** What is begun is in a state in which it can be resumed. */
  lemma {:induction false} Begun<S>(
      env: Env<S>, hs: seq<Hse>, ms: seq<seq<Op>>, e: End, flavors: bool, counts: bool, ins: seq<S>, begin: S -> S,
          from: nat)
    requires Compiled(hs, ms) && ins != [] && (from == 0 ==> e.frag == 0) && (from == 2 ==> e.frag == 3 && e.micro == 0)
    requires (from == 0 || from == 2) && (from == 2 ==> flavors && e.flavor) && (from == 0 && flavors ==> !e.flavor)
    ensures var top, s := if from == 0 && flavors then 2 else 3, if from == 0 then begin(ins[0]) else ins[0];
            var r := Operation(env, ms, e, flavors, false, counts, ins, begin);
            && r.1 == ExecCalls(env, hs[from..top], [s] + ins[1..])
            && (Completed(r.1) ==>
                  r.0 == End(if top == 2 then 3 else 0, 0, if flavors then !e.flavor
                      else e.flavor, e.count + if counts then 1 else 0))
  {
    hide Operation, ExecCalls, Drive, Stands, WellFormed, Emit, MicroOk, Exec;
    var top := if from == 0 && flavors then 2 else 3;
    var s := if from == 0 then begin(ins[0]) else ins[0];
    var e' := End(from + 1, 0, if flavors then !e.flavor else e.flavor, e.count);
    WholeCode(ms[from], hs[from]);
    OneWellFormed(hs[from]);
    var k' := DriveIsExec(env, hs, ms, Half(from + 1, 0), [hs[from]], flavors && e'.flavor, s);
    FirstCall(env, ms, e, flavors, counts, ins, begin);
    Resumed(env, hs, ms, e', [hs[from]], flavors, counts, [s] + ins[1..], begin);
    assert [hs[from]] + hs[from + 1..top] == hs[from..top];
  }

  /**
   The protocol runs exactly once across stalls. From rest, an operation runs the three methods in order, each
   from its beginning to its end, for any number of stalls and any changes of the store between the calls, and
   comes back to rest; the two-bit state wraps.
   */
  lemma {:induction false} ProtocolOnce<S>(
      env: Env<S>, hs: seq<Hse>, ms: seq<seq<Op>>, flavor: bool, count: nat, counts: bool, ins: seq<S>, begin: S -> S)
    requires Compiled(hs, ms) && ins != []
    ensures var r := Operation(env, ms, End(0, 0, flavor, count), false, false, counts, ins, begin);
            && r.1 == ExecCalls(env, hs, [begin(ins[0])] + ins[1..])
            && (Completed(r.1) ==> r.0 == End(0, 0, flavor, count + if counts then 1 else 0))
  {
    Begun(env, hs, ms, End(0, 0, flavor, count), false, counts, ins, begin, 0);
    assert hs[0..3] == hs;
  }

  /** With flavors, the first operation does the first two methods and the second operation the third. */
  lemma {:induction false} FlavoredHalves<S>(
      env: Env<S>, hs: seq<Hse>, ms: seq<seq<Op>>, count: nat, counts: bool, ins: seq<S>, ins': seq<S>, begin: S -> S)
    requires Compiled(hs, ms) && ins != [] && ins' != []
    ensures var r := Operation(env, ms, End(0, 0, false, count), true, false, counts, ins, begin);
            && r.1 == ExecCalls(env, hs[..2], [begin(ins[0])] + ins[1..])
            && (Completed(r.1) ==>
                  var r' := Operation(env, ms, r.0, true, false, counts, ins', begin);
                  && r'.1 == ExecCalls(env, hs[2..], ins')
                  && (Completed(r'.1) ==> r'.0 == End(0, 0, false, count + if counts then 2 else 0)))
  {
    hide Operation, ExecCalls, Stands, WellFormed, Emit, MicroOk;
    Begun(env, hs, ms, End(0, 0, false, count), true, counts, ins, begin, 0);
    var e := End(3, 0, true, count + if counts then 1 else 0);
    Begun(env, hs, ms, e, true, counts, ins', begin, 2);
    assert [ins'[0]] + ins'[1..] == ins';
    assert hs[0..2] == hs[..2] && hs[2..3] == hs[2..];
  }

  // ----- reset mode

  /** Calls in reset mode, the first of which may be a wake-up; ins[i] is the store the i-th call finds. */
  function InReset<S>(
      env: Env<S>, ms: seq<seq<Op>>, e: End, flavors: bool, wakeup: bool, counts: bool, ins: seq<S>, begin: S -> S)
    : (End, seq<Reply<S>>)
    requires |ms| == 3
    decreases |ins|
  {
    if ins == [] || e.frag > 3 then (e, [])
    else
      match Operate(env, ms, e, flavors, wakeup, true, counts, ins[0], begin)
      case None => (e, [])
      case Some(r) =>
        var rest := InReset(env, ms, r.0, flavors, true, counts, ins[1..], begin);
        (rest.0, [Reply(!r.2, r.1)] + rest.1)
  }

  /** Calls that are blocked one after the other and leave their stores alone. */
  predicate AllBlocked<S(==)>(rs: seq<Reply<S>>, ins: seq<S>)
  {
    |rs| == |ins| && forall i | 0 <= i < |ins| :: rs[i] == Reply(false, ins[i])
  }

  lemma {:induction false} HeldInReset<S>(
      env: Env<S>, ms: seq<seq<Op>>, e: End, flavors: bool, counts: bool, ins: seq<S>, begin: S -> S)
    requires |ms| == 3 && 1 <= e.frag <= 3
    ensures var z := InReset(env, ms, e, flavors, true, counts, ins, begin); z.0 == e && AllBlocked(z.1, ins)
    decreases |ins|
  {
    if ins != [] {
      HeldInReset(env, ms, e, flavors, counts, ins[1..], begin);
      assert forall i | 1 <= i < |ins| :: ins[i] == ins[1..][i - 1];
    }
  }

  /**
   An operation that starts in reset mode is begun once, by its first call, and all its calls in reset mode block;
   the calls after reset do exactly what an operation from rest does after it has begun.
   */
  lemma {:induction false} ResetThenOnce<S>(
      env: Env<S>, hs: seq<Hse>, ms: seq<seq<Op>>, count: nat, flavors: bool, counts: bool, held: seq<S>, ins: seq<S>,
      begin: S -> S)
    requires Compiled(hs, ms) && held != []
    ensures var z := InReset(env, ms, End(0, 0, false, count), flavors, false, counts, held, begin);
            var r := Operation(env, ms, z.0, flavors, true, counts, ins, begin);
            && AllBlocked(z.1, [begin(held[0])] + held[1..])
            && r.1 == ExecCalls(env, hs[..if flavors then 2 else 3], ins)
            && (Completed(r.1) ==>
                  r.0 == End(if flavors then 3 else 0, 0, flavors, count + if counts then 1 else 0))
  {
    hide Operation, ExecCalls, Drive, Stands, WellFormed, Emit, MicroOk, Exec;
    var e := End(1, 0, flavors, count);
    HeldInReset(env, ms, e, flavors, counts, held[1..], begin);
    var z := InReset(env, ms, End(0, 0, false, count), flavors, false, counts, held, begin);
    assert z.0 == e;
    assert AllBlocked(z.1, [begin(held[0])] + held[1..]) by {
      forall i | 0 <= i < |held| ensures z.1[i] == Reply(false, ([begin(held[0])] + held[1..])[i]) { }
    }
    WholeCode(ms[0], hs[0]);
    OneWellFormed(hs[0]);
    Resumed(env, hs, ms, e, [hs[0]], flavors, counts, ins, begin);
    assert [hs[0]] + hs[1..if flavors then 2 else 3] == hs[..if flavors then 2 else 3];
  }

  class FragmentEnd {
    var frag: nat
    var micro: nat
    var flavor: bool
    var count: nat

    function State(): End
      reads this
    {
      End(frag, micro, flavor, count)
    }

    constructor ()
      ensures State() == End(0, 0, false, 0)
    {
      frag, micro, flavor, count := 0, 0, false, 0;
    }

    method Call<S>(env: Env<S>, ms: seq<seq<Op>>, flavors: bool, wakeup: bool, reset: bool, counts: bool, s0: S,
        begin: S -> S)
      returns (blocked: bool, s: S)
      requires |ms| == 3 && frag <= 3 && Operate(env, ms, State(), flavors, wakeup, reset, counts, s0, begin).Some?
      modifies this
      ensures Operate(env, ms, old(State()), flavors, wakeup, reset, counts, s0, begin) == Some((State(), s, blocked))
      ensures frag <= 3
    {
      hide Drive;
      s := s0;
      if !wakeup && flavors { flavor := !flavor; }
      if frag == 0 {
        s := begin(s);
        frag, micro := 1, 0;
      }
      blocked := true;
      if !reset {
        blocked, s := RunMethods(env, ms, flavors && flavor, s);
        if counts && !blocked { count := count + 1; }
      }
    }

    /** Runs methods until one waits or the operation is complete. */
    method RunMethods<S>(env: Env<S>, ms: seq<seq<Op>>, half: bool, s0: S) returns (blocked: bool, s: S)
      requires |ms| == 3 && frag <= 3 && Drive(env, ms, Half(frag, micro), s0, half).Some?
      modifies this`frag, this`micro
      ensures Drive(env, ms, Half(old(frag), old(micro)), s0, half) == Some((Half(frag, micro), s, !blocked))
      ensures frag <= 3
    {
      hide Run, Drive;
      s := s0;
      blocked := false;
      ghost var result := Drive(env, ms, Half(frag, micro), s, half);
      while frag != 0
        invariant frag <= 3 && Drive(env, ms, Half(frag, micro), s, half) == result
        decreases if frag == 0 then 0 else 4 - frag
      {
        DriveStep(env, ms, Half(frag, micro), s, half);
        var resume, s' := RunMethod(env, ms[frag - 1], micro, s);
        s := s';
        micro := if resume.None? then DONE else resume.value % 0x100;
        if micro != DONE { return true, s; }
        frag, micro := (frag + 1) % 4, 0;
        if half && frag == 3 { return; }
      }
      DriveEnds(env, ms, micro, s, half);
    }
  }
}
