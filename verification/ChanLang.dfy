/**
 The handshake methods of a channel as structured programs. A run may stall at a selection that has no true
 guard; what is left is then a list of programs with that selection at its head, from which the run resumes.
 */
module ChanLang {
  import opened Prelude

  /** What a method can do: set a boolean of the channel, or its forward or reverse data. */
  datatype Action = SetBool(v: nat, b: bool) | SetSelf(e: nat) | SetAck(e: nat)

  /** `Nothing` is an absent body, or a construct that is ignored with a warning. */
  datatype Hse =
    | Nothing
    | Skip
    | Do(a: Action)
    | Seq(cs: seq<Hse>)                                       // `;` and `,` alike
    | Sel(guards: seq<Option<nat>>, bodies: seq<Hse>)

  datatype Env<!S> = Env(act: (Action, S) -> S, holds: (nat, S) -> bool)

  /** Selections are not empty; every alternative has its guard or `else`. */
  predicate WellFormed(h: Hse)
  {
    match h
    case Seq(cs) => forall i | 0 <= i < |cs| :: WellFormed(cs[i])
    case Sel(gs, bs) => gs != [] && |gs| == |bs| && forall i | 0 <= i < |bs| :: WellFormed(bs[i])
    case _ => true
  }

  predicate AllWellFormed(hs: seq<Hse>)
  {
    forall i | 0 <= i < |hs| :: WellFormed(hs[i])
  }

  predicate Holds<S>(env: Env<S>, g: Option<nat>, s: S)
  {
    g.None? || env.holds(g.value, s)
  }

  /** The first alternative at or after p whose guard holds. */
  function FirstTrue<S>(env: Env<S>, gs: seq<Option<nat>>, s: S, p: nat): (r: Option<nat>)
    ensures r.Some? ==> p <= r.value < |gs| && Holds(env, gs[r.value], s)
    ensures r.Some? ==> forall j | p <= j < r.value :: !Holds(env, gs[j], s)
    ensures r.None? ==> forall j | p <= j < |gs| :: !Holds(env, gs[j], s)
    decreases if p <= |gs| then |gs| - p else 0
  {
    if p >= |gs| then None else if Holds(env, gs[p], s) then Some(p) else FirstTrue(env, gs, s, p + 1)
  }

  function Size(h: Hse): (r: nat)
    ensures r >= 1
  {
    match h
    case Seq(cs) => 1 + SizeOf(cs)
    case Sel(_, bs) => 1 + SizeOf(bs)
    case _ => 1
  }

  function SizeOf(hs: seq<Hse>): nat
  {
    if hs == [] then 0 else Size(hs[0]) + SizeOf(hs[1..])
  }

  lemma SizeAppend(hs: seq<Hse>, ks: seq<Hse>)
    ensures SizeOf(hs + ks) == SizeOf(hs) + SizeOf(ks)
  {
    if hs == [] {
      assert hs + ks == ks;
    } else {
      assert (hs + ks)[1..] == hs[1..] + ks;
    }
  }

  lemma SizeIn(hs: seq<Hse>, i: nat)
    requires i < |hs|
    ensures Size(hs[i]) <= SizeOf(hs)
  {
    if i > 0 { SizeIn(hs[1..], i - 1); }
  }

  lemma SizeSeq(cs: seq<Hse>, rest: seq<Hse>)
    ensures SizeOf(cs + rest) < Size(Seq(cs)) + SizeOf(rest)
  {
    SizeAppend(cs, rest);
  }

  lemma SizeSel(gs: seq<Option<nat>>, bs: seq<Hse>, p: nat, rest: seq<Hse>)
    requires p < |bs|
    ensures SizeOf([bs[p]] + rest) < Size(Sel(gs, bs)) + SizeOf(rest)
  {
    SizeIn(bs, p);
    assert ([bs[p]] + rest)[1..] == rest;
  }

  /** Runs the programs of k in order until all are done or a selection has no true guard. */
  function Exec<S>(env: Env<S>, k: seq<Hse>, s: S): (r: (seq<Hse>, S))
    ensures r.0 != [] ==> r.0[0].Sel? && FirstTrue(env, r.0[0].guards, r.1, 0).None?
    decreases SizeOf(k)
  {
    if k == [] then (k, s)
    else
      match k[0]
      case Nothing => Exec(env, k[1..], s)
      case Skip => Exec(env, k[1..], s)
      case Do(a) => Exec(env, k[1..], env.act(a, s))
      case Seq(cs) => SizeSeq(cs, k[1..]); Exec(env, cs + k[1..], s)
      case Sel(gs, bs) =>
        var p := FirstTrue(env, gs, s, 0);
        if p.None? then (k, s)
        else if p.value >= |bs| then Exec(env, k[1..], s)
        else SizeSel(gs, bs, p.value, k[1..]); Exec(env, [bs[p.value]] + k[1..], s)
  }
}
