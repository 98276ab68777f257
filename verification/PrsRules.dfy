/**
 Production rules: three-valued logic, the conversion of rule expressions to pull-up and pull-down networks,
 and what a converted network means.
 */
module PrsRules {
  import opened Prelude
  import opened Logic3

  type State = nat -> V3

  /** s' resolves some of the unknown values of s. */
  ghost predicate Resolves(s: State, s': State)
  {
    forall v :: Refines(s(v), s'(v))
  }

  // ----- rule expressions

  datatype Prs =
    | And(l: Prs, r: Prs)
    | Or(l: Prs, r: Prs)
    | Not(e: Prs)
    | Var(v: nat)
    | True
    | False
    | Label(name: nat)

  /** A label stands for an expression, or for its negation when it was defined with a down arrow. */
  datatype LabelDef = LabelDef(up: bool, e: Prs, rank: nat)
  type Labels = map<nat, LabelDef>

  /** Every label that occurs is known, and was ranked below the bound. */
  predicate Below(ls: Labels, e: Prs, bound: nat)
  {
    match e
    case And(l, r) => Below(ls, l, bound) && Below(ls, r, bound)
    case Or(l, r) => Below(ls, l, bound) && Below(ls, r, bound)
    case Not(d) => Below(ls, d, bound)
    case Label(n) => n in ls && ls[n].rank < bound
    case _ => true
  }

  /** Labels do not refer to themselves, directly or through others. */
  predicate Acyclic(ls: Labels)
  {
    forall n | n in ls :: Below(ls, ls[n].e, ls[n].rank)
  }

  /** What an expression means. */
  function Meaning(ls: Labels, e: Prs, bound: nat, s: State): V3
    requires Acyclic(ls) && Below(ls, e, bound)
    decreases bound, e
  {
    match e
    case And(l, r) => And3(Meaning(ls, l, bound, s), Meaning(ls, r, bound, s))
    case Or(l, r) => Or3(Meaning(ls, l, bound, s), Meaning(ls, r, bound, s))
    case Not(d) => Not3(Meaning(ls, d, bound, s))
    case Var(v) => s(v)
    case True => One
    case False => Zero
    case Label(n) =>
      var m := Meaning(ls, ls[n].e, ls[n].rank, s);
      if ls[n].up then m else Not3(m)
  }

  // ----- networks

  datatype Net =
    | NAnd(l: Net, r: Net)
    | NOr(l: Net, r: Net)
    | NNot(e: Net)
    | NVar(v: nat)
    | NTrue
    | NFalse

  function Eval(x: Net, s: State): V3
  {
    match x
    case NAnd(l, r) => And3(Eval(l, s), Eval(r, s))
    case NOr(l, r) => Or3(Eval(l, s), Eval(r, s))
    case NNot(e) => Not3(Eval(e, s))
    case NVar(v) => s(v)
    case NTrue => One
    case NFalse => Zero
  }

  /** An absent network does not conduct. */
  function EvalNet(x: Option<Net>, s: State): V3
  {
    if x.None? then Zero else Eval(x.value, s)
  }

  /** Same: the expression itself. Negated: its negation, by De Morgan. Flipped: every leaf negated. */
  datatype Mode = Same | Negated | Flipped

  function Convert(ls: Labels, e: Prs, bound: nat, mode: Mode): Net
    requires Acyclic(ls) && Below(ls, e, bound)
    decreases bound, e
  {
    match e
    case And(l, r) =>
      var a, b := Convert(ls, l, bound, mode), Convert(ls, r, bound, mode);
      if mode.Negated? then NOr(a, b) else NAnd(a, b)
    case Or(l, r) =>
      var a, b := Convert(ls, l, bound, mode), Convert(ls, r, bound, mode);
      if mode.Negated? then NAnd(a, b) else NOr(a, b)
    case Not(d) =>
      (match mode
       case Same => Convert(ls, d, bound, Negated)
       case Negated => Convert(ls, d, bound, Same)
       case Flipped => NNot(Convert(ls, d, bound, Flipped)))
    case Var(v) => if mode.Same? then NVar(v) else NNot(NVar(v))
    case True => if mode.Same? then NTrue else NFalse
    case False => if mode.Same? then NFalse else NTrue
    case Label(n) =>
      if ls[n].up then Convert(ls, ls[n].e, ls[n].rank, mode)
      else Convert(ls, ls[n].e, ls[n].rank, if mode.Same? then Negated else Same)
  }

  /** e with every leaf negated. */
  function Flip(e: Prs): Prs
  {
    match e
    case And(l, r) => And(Flip(l), Flip(r))
    case Or(l, r) => Or(Flip(l), Flip(r))
    case Not(d) => Not(Flip(d))
    case Var(v) => Not(Var(v))
    case True => False
    case False => True
    case Label(n) => e
  }

  predicate LabelFree(e: Prs)
  {
    match e
    case And(l, r) => LabelFree(l) && LabelFree(r)
    case Or(l, r) => LabelFree(l) && LabelFree(r)
    case Not(d) => LabelFree(d)
    case Label(_) => false
    case _ => true
  }

  lemma {:induction false} FlipBelow(ls: Labels, e: Prs, bound: nat)
    requires LabelFree(e)
    ensures Below(ls, e, bound) && Below(ls, Flip(e), bound)
  {
    match e
    case And(l, r) => FlipBelow(ls, l, bound); FlipBelow(ls, r, bound);
    case Or(l, r) => FlipBelow(ls, l, bound); FlipBelow(ls, r, bound);
    case Not(d) => FlipBelow(ls, d, bound);
    case _ =>
  }

  /** Conversion is exact: the expression, and its exact three-valued negation. */
  lemma {:induction false} ConvertMeans(ls: Labels, e: Prs, bound: nat, s: State)
    requires Acyclic(ls) && Below(ls, e, bound)
    ensures Eval(Convert(ls, e, bound, Same), s) == Meaning(ls, e, bound, s)
    ensures Eval(Convert(ls, e, bound, Negated), s) == Not3(Meaning(ls, e, bound, s))
    decreases bound, e
  {
    match e
    case And(l, r) => ConvertMeans(ls, l, bound, s); ConvertMeans(ls, r, bound, s);
    case Or(l, r) => ConvertMeans(ls, l, bound, s); ConvertMeans(ls, r, bound, s);
    case Not(d) => ConvertMeans(ls, d, bound, s);
    case Label(n) => ConvertMeans(ls, ls[n].e, ls[n].rank, s);
    case _ =>
  }

  /** The third mode negates the leaves and nothing else. */
  lemma {:induction false} ConvertFlips(ls: Labels, e: Prs, bound: nat, s: State)
    requires Acyclic(ls) && LabelFree(e)
    ensures Below(ls, e, bound) && Below(ls, Flip(e), bound)
    ensures Eval(Convert(ls, e, bound, Flipped), s) == Meaning(ls, Flip(e), bound, s)
    decreases e
  {
    FlipBelow(ls, e, bound);
    match e
    case And(l, r) => ConvertFlips(ls, l, bound, s); ConvertFlips(ls, r, bound, s);
    case Or(l, r) => ConvertFlips(ls, l, bound, s); ConvertFlips(ls, r, bound, s);
    case Not(d) => ConvertFlips(ls, d, bound, s);
    case _ =>
  }

  /** A network that has a definite value has it however its unknown inputs turn out. */
  lemma {:induction false} EvalMonotone(x: Net, s: State, s': State)
    requires Resolves(s, s')
    ensures Refines(Eval(x, s), Eval(x, s'))
  {
    match x
    case NAnd(l, r) => EvalMonotone(l, s, s'); EvalMonotone(r, s, s');
    case NOr(l, r) => EvalMonotone(l, s, s'); EvalMonotone(r, s, s');
    case NNot(e) => EvalMonotone(e, s, s');
    case _ =>
  }

  // ----- the rules of one node

  /** Normal: one network. Combinational: the other network conducts otherwise. Holding: the leaves flipped. */
  datatype Arrow = Plain | Combinational | Holding

  datatype Rule = Rule(arrow: Arrow, up: bool, weak: bool, e: Prs)

  /** The networks of a node: strong and weak, pulling up and pulling down. */
  datatype Nets = Nets(up: Option<Net>, upWeak: Option<Net>, dn: Option<Net>, dnWeak: Option<Net>)

  function Merge(net: Option<Net>, x: Net): Option<Net>
  {
    if net.None? then Some(x) else Some(NOr(net.value, x))
  }

  function MergeInto(n: Nets, up: bool, weak: bool, x: Net): Nets
  {
    if up then if weak then n.(upWeak := Merge(n.upWeak, x)) else n.(up := Merge(n.up, x))
    else if weak then n.(dnWeak := Merge(n.dnWeak, x)) else n.(dn := Merge(n.dn, x))
  }

  function AddRule(ls: Labels, bound: nat, n: Nets, r: Rule): Nets
    requires Acyclic(ls) && Below(ls, r.e, bound)
  {
    var n1 := MergeInto(n, r.up, r.weak, Convert(ls, r.e, bound, Same));
    match r.arrow
    case Plain => n1
    case Combinational => MergeInto(n1, !r.up, r.weak, Convert(ls, r.e, bound, Negated))
    case Holding => MergeInto(n1, !r.up, r.weak, Convert(ls, r.e, bound, Flipped))
  }

  predicate AllBelow(ls: Labels, rs: seq<Rule>, bound: nat)
  {
    forall i | 0 <= i < |rs| :: Below(ls, rs[i].e, bound)
  }

  function AddRules(ls: Labels, bound: nat, rs: seq<Rule>): Nets
    requires Acyclic(ls) && AllBelow(ls, rs, bound)
  {
    if rs == [] then Nets(None, None, None, None)
    else AddRule(ls, bound, AddRules(ls, bound, rs[..|rs| - 1]), rs[|rs| - 1])
  }

  function Pick(n: Nets, up: bool, weak: bool): Option<Net>
  {
    if up then if weak then n.upWeak else n.up else if weak then n.dnWeak else n.dn
  }

  /** What a rule contributes to a network: its expression, the negation, the flipped expression, or nothing. */
  function Part(ls: Labels, bound: nat, r: Rule, up: bool, weak: bool, s: State): V3
    requires Acyclic(ls) && Below(ls, r.e, bound)
  {
    if r.weak != weak then Zero
    else if r.up == up then Meaning(ls, r.e, bound, s)
    else
      match r.arrow
      case Plain => Zero
      case Combinational => Not3(Meaning(ls, r.e, bound, s))
      case Holding => Eval(Convert(ls, r.e, bound, Flipped), s)
  }

  function Parts(ls: Labels, bound: nat, rs: seq<Rule>, up: bool, weak: bool, s: State): V3
    requires Acyclic(ls) && AllBelow(ls, rs, bound)
  {
    if rs == [] then Zero
    else Or3(Parts(ls, bound, rs[..|rs| - 1], up, weak, s), Part(ls, bound, rs[|rs| - 1], up, weak, s))
  }

  lemma MergeMeans(net: Option<Net>, x: Net, s: State)
    ensures EvalNet(Merge(net, x), s) == Or3(EvalNet(net, s), Eval(x, s))
  {
  }

  /** One more rule. */
  lemma {:induction false} AddRuleMeans(ls: Labels, bound: nat, n: Nets, r: Rule, up: bool, weak: bool, s: State)
    requires Acyclic(ls) && Below(ls, r.e, bound)
    ensures EvalNet(Pick(AddRule(ls, bound, n, r), up, weak), s)
            == Or3(EvalNet(Pick(n, up, weak), s), Part(ls, bound, r, up, weak, s))
  {
    hide Convert, Meaning, Eval, EvalNet, Acyclic, Below, Merge;
    ConvertMeans(ls, r.e, bound, s);
    var mode := if r.up == up then Same else if r.arrow.Combinational? then Negated else Flipped;
    MergeMeans(Pick(n, up, weak), Convert(ls, r.e, bound, mode), s);
  }

  /** However many rules a node has, each of its four networks is the `or` of what the rules contribute. */
  lemma {:induction false} NetsMean(ls: Labels, bound: nat, rs: seq<Rule>, up: bool, weak: bool, s: State)
    requires Acyclic(ls) && AllBelow(ls, rs, bound)
    ensures EvalNet(Pick(AddRules(ls, bound, rs), up, weak), s) == Parts(ls, bound, rs, up, weak, s)
    decreases |rs|
  {
    hide Convert, Meaning, Eval, Acyclic, AddRule, Part;
    if rs != [] {
      var n := |rs| - 1;
      NetsMean(ls, bound, rs[..n], up, weak, s);
      AddRuleMeans(ls, bound, AddRules(ls, bound, rs[..n]), rs[n], up, weak, s);
    }
  }

  // ----- the rules of all nodes

  /** The statement of one node. */
  datatype Stmt = Stmt(vid: nat, nets: Nets)

  /** The networks of a node, as its first statement has them. */
  function NetsOf(stmts: seq<Stmt>, vid: nat): Nets
  {
    if stmts == [] then Nets(None, None, None, None)
    else if stmts[0].vid == vid then stmts[0].nets
    else NetsOf(stmts[1..], vid)
  }

  lemma NetsAt(stmts: seq<Stmt>, vid: nat, i: nat)
    requires i <= |stmts| && (forall j | 0 <= j < i :: stmts[j].vid != vid) && (i < |stmts| ==> stmts[i].vid == vid)
    ensures NetsOf(stmts, vid) == if i < |stmts| then stmts[i].nets else Nets(None, None, None, None)
  {
    if i > 0 { NetsAt(stmts[1..], vid, i - 1); }
  }

  predicate OnePerNode(stmts: seq<Stmt>)
  {
    forall i, j | 0 <= i < j < |stmts| :: stmts[i].vid != stmts[j].vid
  }

  /** Changing or adding the statement of one node changes that node's networks and no other's. */
  lemma {:induction false} NetsUpdate(stmts: seq<Stmt>, stmts': seq<Stmt>, vid: nat, i: nat, v: nat)
    requires OnePerNode(stmts) && i <= |stmts| && (forall j | 0 <= j < i :: stmts[j].vid != vid)
    requires if i < |stmts| then stmts[i].vid == vid && |stmts'| == |stmts| else |stmts'| == |stmts| + 1
    requires (forall j | 0 <= j < |stmts| && j != i :: stmts'[j] == stmts[j]) && stmts'[i].vid == vid
    ensures OnePerNode(stmts') && NetsOf(stmts', v) == if v == vid then stmts'[i].nets else NetsOf(stmts, v)
  {
    var k := FirstOf(stmts', v);
    NetsAt(stmts', v, k);
    if v != vid {
      if k < |stmts| {
        NetsAt(stmts, v, k);
      } else {
        NetsAt(stmts, v, |stmts|);
      }
    }
  }

  /** The position of a node's statement, or the length. */
  function FirstOf(stmts: seq<Stmt>, vid: nat): (i: nat)
    ensures i <= |stmts| && (forall j | 0 <= j < i :: stmts[j].vid != vid) && (i < |stmts| ==> stmts[i].vid == vid)
  {
    if stmts == [] || stmts[0].vid == vid then 0 else 1 + FirstOf(stmts[1..], vid)
  }

  class PrsSimGraph {
    var rules: seq<Stmt>

    constructor ()
      ensures rules == [] && OnePerNode(rules)
    {
      rules := [];
    }

    /** Adds a rule to the statement of its node, which is made if there is none. */
    method AddOneRule(ls: Labels, bound: nat, vid: nat, r: Rule)
      requires Acyclic(ls) && Below(ls, r.e, bound) && OnePerNode(rules)
      modifies this
      ensures OnePerNode(rules)
      ensures forall v :: NetsOf(rules, v) == if v == vid then AddRule(ls, bound, NetsOf(old(rules), v), r)
              else NetsOf(old(rules), v)
    {
      var i := 0;
      while i < |rules| && rules[i].vid != vid
        invariant i <= |rules| && forall j | 0 <= j < i :: rules[j].vid != vid
      {
        i := i + 1;
      }
      NetsAt(rules, vid, i);
      if i == |rules| {
        rules := rules + [Stmt(vid, AddRule(ls, bound, Nets(None, None, None, None), r))];
      } else {
        rules := rules[i := Stmt(vid, AddRule(ls, bound, rules[i].nets, r))];
      }
      forall v ensures OnePerNode(rules) && NetsOf(rules, v) == if v == vid then rules[i].nets
          else NetsOf(old(rules), v) {
        NetsUpdate(old(rules), rules, vid, i, v);
      }
    }
  }
}
