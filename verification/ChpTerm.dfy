/**
 What one thread's move does to the term left to run: a silent move of the graph leaves it alone, and a
 move that executes a statement is one step of the structured semantics.
 */
module ChpTerm {
  import opened Prelude
  import opened ChpLang
  import opened ChpGraph
  import opened ChpControl
  import opened ChpMove

  /** The commands recorded in a layout are the ones its parts were compiled from. */
  predicate Faithful(lay: Lay)
  {
    match lay
    case LSemi(cs, ls) => |cs| == |ls| && forall i | 0 <= i < |ls| :: Of(cs[i], ls[i]) && Faithful(ls[i])
    case LComma(_, _, _, cs, ls) => |cs| == |ls| && forall i | 0 <= i < |ls| :: Of(cs[i], ls[i]) && Faithful(ls[i])
    case LBranch(_, _, _, _, _, bs, ls) =>
      |bs| == |ls| && forall i | 0 <= i < |ls| :: Of(bs[i], ls[i]) && Faithful(ls[i])
    case _ => true
  }

  lemma {:induction false} OfFaithful(c: Cmd, lay: Lay)
    requires Of(c, lay)
    ensures Faithful(lay)
    decreases c
  {
    if !lay.LNull? && !lay.LNop? {
      match c
      case Semi(cs) =>
        if |cs| == 1 { OfFaithful(cs[0], lay); }
        else { forall i | 0 <= i < |cs| ensures Faithful(lay.ls[i]) { OfFaithful(cs[i], lay.ls[i]); } }
      case Comma(cs) =>
        if |cs| == 1 { OfFaithful(cs[0], lay); }
        else { forall i | 0 <= i < |cs| ensures Faithful(lay.ls[i]) { OfFaithful(cs[i], lay.ls[i]); } }
      case Select(_, _, bs) =>
        forall i | 0 <= i < |bs| ensures Faithful(lay.ls[i]) { OfFaithful(bs[i], lay.ls[i]); }
      case Loop(_, bs) =>
        forall i | 0 <= i < |bs| ensures Faithful(lay.ls[i]) { OfFaithful(bs[i], lay.ls[i]); }
      case DoLoop(_, body) =>
        OfFaithful(body, lay.ls[0]);
        OfFaithful(body, lay.ls[1].ls[0]);
        assert Faithful(lay.ls[1]);
      case _ =>
    }
  }

  ghost function ResTerm(lay: Lay, r: Res): Cmd
    requires Sound(lay) && Fits(lay, r)
  {
    match r
    case Stay(c) => Term(lay, c)
    case Exit => Skip
  }

  /** The comma branches on the way to slot s. */
  ghost function Path(c: Ctl, s: nat): seq<nat>
    requires s in Slots(c)
    decreases c
  {
    match c
    case In(_, d) => Path(d, s)
    case Many(cs) => [Owner(cs, s)] + Path(cs[Owner(cs, s)], s)
    case _ => []
  }

  /** From term t to term t': a silent move changes nothing, any other is one step of the semantics. */
  ghost predicate Takes<S>(env: Env<S>, t: Cmd, s: S, t': Cmd, s': S, ch: Choice, silent: bool)
  {
    if silent then t == t' && s == s' else Next(env, t, s, ch) == Some((t', s'))
  }

  // ----- the move, seen from the enclosing statement

  lemma ThenStep<S>(env: Env<S>, t: Cmd, s: S, t': Cmd, s': S, ch: Choice, silent: bool, rest: seq<Cmd>)
    requires Takes(env, t, s, t', s', ch, silent)
    ensures Takes(env, Then(t, rest), s, Then(t', rest), s', ch, silent)
  {
    if !silent && rest != [] {
      var cs := [t] + rest;
      assert cs[0] == t && cs[1..] == rest;
    }
  }

  lemma ThenLoopStep<S>(env: Env<S>, t: Cmd, s: S, t': Cmd, s': S, ch: Choice, silent: bool, loop: Cmd)
    requires Takes(env, t, s, t', s', ch, silent) && loop.Loop?
    ensures Takes(env, ThenLoop(t, loop), s, ThenLoop(t', loop), s', ch, silent)
  {
    ThenOneLoop(t, loop);
    ThenOneLoop(t', loop);
    ThenStep(env, t, s, t', s', ch, silent, [loop]);
  }

  lemma ThenOneLoop(t: Cmd, loop: Cmd)
    requires loop.Loop?
    ensures Then(t, [loop]) == ThenLoop(t, loop)
  {
    assert [loop][0] == loop && [loop][1..] == [] && [t] + [loop] == [t, loop];
    assert Ready(loop) == loop && ReadySeq([loop]) == loop;
  }

  lemma ParStep<S>(env: Env<S>, ts: seq<Cmd>, j: nat, s: S, t': Cmd, s': S, ch: Choice, silent: bool)
    requires |ts| >= 2 && j < |ts| && Takes(env, ts[j], s, t', s', ch, silent)
    ensures Takes(env, Par(ts), s, Par(ts[j := t']), s', ch.(path := [j] + ch.path), silent)
  {
    if !silent {
      assert !ts[j].Skip?;
      var ch' := ch.(path := [j] + ch.path);
      assert ch'.path[0] == j && ch'.path[1..] == ch.path;
      assert ch'.(path := ch'.path[1..]) == ch;
    } else {
      assert ts[j := t'] == ts;
    }
  }

  /** Leaving the i-th part of a sequence leaves the later parts to run. */
  lemma {:induction false} SemiExit(lay: Lay, i: nat, s: nat)
    requires Sound(lay) && Faithful(lay) && lay.LSemi? && i < |lay.ls|
    ensures match FirstBusy(lay.ls, i + 1)
            case None => ReadySeq(lay.cs[i + 1..]) == Skip
            case Some(j) => j < |lay.ls| && Fit(lay, In(j, Enter(lay.ls[j], s)))
                            && Term(lay, In(j, Enter(lay.ls[j], s))) == ReadySeq(lay.cs[i + 1..])
  {
    FirstBusyIs(lay.ls, i + 1, None);
    var rest := lay.cs[i + 1..];
    match FirstBusy(lay.ls, i + 1)
    case None =>
      Vacancies(lay, i + 1, |lay.ls|);
      ReadySeqDrop(rest, |rest|);
      assert rest[|rest|..] == [];
    case Some(j) =>
      SemiNext(lay, i + 1, j, s);
  }

  lemma {:induction false} SemiNext(lay: Lay, i: nat, j: nat, s: nat)
    requires Sound(lay) && Faithful(lay) && lay.LSemi? && i <= j < |lay.ls| && !lay.ls[j].LNull?
    requires forall m | i <= m < j :: lay.ls[m].LNull?
    ensures Fit(lay, In(j, Enter(lay.ls[j], s))) && Term(lay, In(j, Enter(lay.ls[j], s))) == ReadySeq(lay.cs[i..])
  {
    hide NodesApart, IdsApart, Of, ReadySeq, Enter, Slots, Leaves, Then;
    var rest := lay.cs[i..];
    Vacancies(lay, i, j);
    ReadySeqThen(rest, j - i);
    assert rest[j - i] == lay.cs[j] && rest[j - i + 1..] == lay.cs[j + 1..];
    EnterFits(lay.ls[j], s);
    EnterTerm(lay.cs[j], lay.ls[j], s);
  }

  lemma {:induction false} Vacancies(lay: Lay, i: nat, j: nat)
    requires Faithful(lay) && lay.LSemi? && i <= j <= |lay.ls|
    requires forall m | i <= m < j :: lay.ls[m].LNull?
    ensures forall m | 0 <= m < j - i :: Ready(lay.cs[i..][m]).Skip?
  {
    forall m | 0 <= m < j - i ensures Ready(lay.cs[i..][m]).Skip? { Vacant(lay, i + m); }
  }

  lemma Vacant(lay: Lay, m: nat)
    requires Faithful(lay) && lay.LSemi? && m < |lay.ls| && lay.ls[m].LNull?
    ensures Ready(lay.cs[m]).Skip?
  {
    assert Of(lay.cs[m], lay.ls[m]);
  }

  /** A part's residue seen from the enclosing sequence, loop or selection. */
  ghost function Around(lay: Lay, i: nat, t: Cmd): Cmd
    requires Sound(lay) && (lay.LSemi? || lay.LBranch?) && i < |lay.ls|
  {
    if lay.LSemi? then Then(t, lay.cs[i + 1..])
    else if lay.isLoop then ThenLoop(t, BranchTerm(true, lay.arb, lay.guards, lay.bs))
    else t
  }

  lemma {:induction false} AroundUp(lay: Lay, i: nat, d: Ctl, s: nat, r: Res)
    requires Sound(lay) && Faithful(lay) && Fit(lay, In(i, d)) && s in Slots(d)
    requires Fits(lay.ls[i], Up(lay.ls[i], d, s, r)) && Fits(lay, Up(lay, In(i, d), s, r))
    ensures ResTerm(lay, Up(lay, In(i, d), s, r)) == Around(lay, i, ResTerm(lay.ls[i], Up(lay.ls[i], d, s, r)))
  {
    hide NodesApart, IdsApart, SlotsApart, ReadySeq, Ready, Of, Slots;
    if Up(lay.ls[i], d, s, r).Exit? && lay.LSemi? { SemiExit(lay, i, s); }
  }

  lemma {:induction false} CommaUp(lay: Lay, cs: seq<Ctl>, s: nat, r: Res)
    requires Sound(lay) && Fit(lay, Many(cs)) && s in Slots(Many(cs))
    requires Fits(lay.ls[Owner(cs, s)], Up(lay.ls[Owner(cs, s)], cs[Owner(cs, s)], s, r))
    requires Fits(lay, Up(lay, Many(cs), s, r))
    ensures ResTerm(lay, Up(lay, Many(cs), s, r))
            == Par(TermAll(lay.ls, cs)[Owner(cs, s) := ResTerm(lay.ls[Owner(cs, s)], Up(lay.ls[Owner(cs, s)],
                cs[Owner(cs, s)], s, r))])
  {
    hide SlotsApart, Slots, NodesApart, IdsApart, Par;
    var j := Owner(cs, s);
    var u := Up(lay.ls[j], cs[j], s, r);
    var cs' := cs[j := After(u)];
    CommaParts(lay, cs, j, After(u));
    TermSet(lay, cs, j, After(u));
    if u.Exit? && AllOff(cs') { AllOffTerm(lay, cs'); }
  }

  lemma CommaParts(lay: Lay, cs: seq<Ctl>, j: nat, d: Ctl)
    requires Sound(lay) && Fit(lay, Many(cs)) && j < |cs| && Fit(lay.ls[j], d)
    ensures lay.LComma? && |cs| == |lay.ls|
    ensures forall i | 0 <= i < |cs| :: Sound(lay.ls[i]) && Fit(lay.ls[i], cs[i]) && Fit(lay.ls[i], cs[j := d][i])
  {
  }

  lemma {:induction false} TermSet(lay: Lay, cs: seq<Ctl>, j: nat, d: Ctl)
    requires lay.LComma? && |lay.ls| == |cs| && j < |cs|
    requires forall i | 0 <= i < |cs| :: Sound(lay.ls[i]) && Fit(lay.ls[i], cs[i]) && Fit(lay.ls[i], cs[j := d][i])
    ensures TermAll(lay.ls, cs[j := d]) == TermAll(lay.ls, cs)[j := Term(lay.ls[j], d)]
  {
    hide Term, Sound, Fit;
  }

  /** When all branches have finished, nothing is left of the comma. */
  lemma {:induction false} AllOffTerm(lay: Lay, cs: seq<Ctl>)
    requires lay.LComma? && |lay.ls| == |cs| && AllOff(cs)
    requires forall i | 0 <= i < |cs| :: Sound(lay.ls[i]) && Fit(lay.ls[i], cs[i])
    ensures Par(TermAll(lay.ls, cs)) == Skip
  {
    assert forall i | 0 <= i < |cs| :: TermAll(lay.ls, cs)[i] == Skip;
  }

  lemma AroundStep<S>(env: Env<S>, lay: Lay, i: nat, t: Cmd, s: S, t': Cmd, s': S, ch: Choice, silent: bool)
    requires Sound(lay) && (lay.LSemi? || lay.LBranch?) && i < |lay.ls|
    requires Takes(env, t, s, t', s', ch, silent)
    ensures Takes(env, Around(lay, i, t), s, Around(lay, i, t'), s', ch, silent)
  {
    if lay.LSemi? {
      ThenStep(env, t, s, t', s', ch, silent, lay.cs[i + 1..]);
    } else if lay.isLoop {
      ThenLoopStep(env, t, s, t', s', ch, silent, BranchTerm(true, lay.arb, lay.guards, lay.bs));
    }
  }

  lemma {:induction false} UpTermIn<S>(
      env: Env<S>, lay: Lay, i: nat, d: Ctl, s: nat, r: Res, st: S, st': S, ch: Choice, silent: bool)
    requires Sound(lay) && Faithful(lay) && Fit(lay, In(i, d)) && s in Slots(d) && UpFits(lay, In(i, d), s, r)
    requires Takes(env, Term(lay.ls[i], d), st, ResTerm(lay.ls[i], Up(lay.ls[i], d, s, r)), st',
             ch.(path := Path(d, s)), silent)
    ensures Takes(env, Term(lay, In(i, d)), st, ResTerm(lay, Up(lay, In(i, d), s, r)), st', ch.(path := Path(In(i,
            d), s)), silent)
  {
    hide NodesApart, IdsApart, SlotsApart, Takes, ResTerm, Up, AllOff;
    AroundUp(lay, i, d, s, r);
    AroundStep(env, lay, i, Term(lay.ls[i], d), st, ResTerm(lay.ls[i], Up(lay.ls[i], d, s, r)), st',
               ch.(path := Path(d, s)), silent);
  }

  lemma {:induction false} UpTermMany<S>(
      env: Env<S>, lay: Lay, cs: seq<Ctl>, s: nat, r: Res, st: S, st': S, ch: Choice, silent: bool)
    requires Sound(lay) && Fit(lay, Many(cs)) && s in Slots(Many(cs)) && UpFits(lay, Many(cs), s, r)
    requires var j := Owner(cs, s);
             Takes(env, Term(lay.ls[j], cs[j]), st, ResTerm(lay.ls[j], Up(lay.ls[j], cs[j], s, r)), st',
                 ch.(path := Path(cs[j], s)), silent)
    ensures Takes(env, Term(lay, Many(cs)), st, ResTerm(lay, Up(lay, Many(cs), s, r)), st',
            ch.(path := Path(Many(cs), s)), silent)
  {
    hide NodesApart, IdsApart, SlotsApart, Takes, ResTerm, Up;
    var j := Owner(cs, s);
    CommaUp(lay, cs, s, r);
    ParStep(env, TermAll(lay.ls, cs), j, st, ResTerm(lay.ls[j], Up(lay.ls[j], cs[j], s, r)), st',
            ch.(path := Path(cs[j], s)), silent);
  }

  /** Moves at the leaf carry over to the whole statement, with the comma branches as the path. */
  lemma {:induction false} UpTerm<S>(env: Env<S>, lay: Lay, c: Ctl, s: nat, r: Res, st: S, st': S, ch: Choice,
      silent: bool)
    requires Sound(lay) && Faithful(lay) && Fit(lay, c) && s in Slots(c)
    requires UpFits(lay, c, s, r) && Sound(Leaf(lay, c, s).0) && Fit(Leaf(lay, c, s).0, Leaf(lay, c, s).1)
    requires Fits(Leaf(lay, c, s).0, r)
    requires Takes(env, Term(Leaf(lay, c, s).0, Leaf(lay, c, s).1), st, ResTerm(Leaf(lay, c, s).0, r), st',
             ch.(path := []), silent)
    ensures Takes(env, Term(lay, c), st, ResTerm(lay, Up(lay, c, s, r)), st', ch.(path := Path(c, s)), silent)
    decreases c
  {
    hide NodesApart, IdsApart, SlotsApart, Takes, Term, ResTerm;
    match c
    case In(i, d) =>
      UpTerm(env, lay.ls[i], d, s, r, st, st', ch, silent);
      UpTermIn(env, lay, i, d, s, r, st, st', ch, silent);
    case Many(cs) =>
      var j := Owner(cs, s);
      UpTerm(env, lay.ls[j], cs[j], s, r, st, st', ch, silent);
      UpTermMany(env, lay, cs, s, r, st, st', ch, silent);
    case _ =>
  }
}
