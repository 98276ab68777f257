/**
 The state vector: three bits for each boolean (value, unknown, special), and the mutual-exclusion groups that
 are enforced whenever a boolean is set. A group of direction "high" allows at most one 1, one of direction
 "low" at most one 0.
 */
module SimState {
  import opened Prelude
  import opened Logic3
  import opened Threaded
  import opened TimingFork
  import P = PrsSim

  // ----- groups

  predicate Distinct(n: seq<nat>)
  {
    forall i, j | 0 <= i < j < |n| :: n[i] != n[j]
  }

  /** At most one node of the group has value v. */
  predicate AtMostOne(n: seq<nat>, vals: seq<V3>, v: V3)
  {
    forall i, j | 0 <= i < j < |n| && n[i] < |vals| && n[j] < |vals| :: !(vals[n[i]] == v && vals[n[j]] == v)
  }

  predicate AllAtMostOne(items: seq<Item>, vals: seq<V3>, v: V3)
  {
    forall g | 0 <= g < |items| :: AtMostOne(items[g].n, vals, v)
  }

  /** All other nodes of the group have the opposite value. */
  predicate GroupAllows(n: seq<nat>, vals: seq<V3>, x: nat, v: V3)
  {
    forall i | 0 <= i < |n| && n[i] != x && n[i] < |vals| :: vals[n[i]] == Not3(v)
  }

  predicate Allows(items: seq<Item>, vals: seq<V3>, x: nat, v: V3)
  {
    forall g | 0 <= g < |items| && x in items[g].n :: GroupAllows(items[g].n, vals, x, v)
  }

  predicate Constrained(items: seq<Item>, x: nat)
  {
    exists g | 0 <= g < |items| :: x in items[g].n
  }

  /** Whether setting x to v is accepted; `refuse` is the outcome of the optional random exclusion. */
  predicate Accepts(hi: seq<Item>, lo: seq<Item>, vals: seq<V3>, x: nat, v: V3, refuse: bool)
  {
    match v
    case X => true
    case One => Allows(hi, vals, x, One) && !(refuse && Constrained(hi, x))
    case Zero => Allows(lo, vals, x, Zero) && !(refuse && Constrained(lo, x))
  }

  /** One more group, of the nodes ids, behind those that were there. */
  predicate OneMoreGroup(was: seq<Item>, items: seq<Item>, ids: seq<nat>)
  {
    |items| == |was| + 1 && items[..|was|] == was && items[|was|].n == ids
  }

  // ----- pending transitions of the other nodes

  /** The scheduling state of the gate that drives a node, if the groups know one. */
  type Driver = Option<P.Sched>

  /** y is another node of a group of x. */
  predicate Rivals(items: seq<Item>, x: nat, y: nat)
  {
    y != x && exists g | 0 <= g < |items| :: x in items[g].n && y in items[g].n
  }

  function Flush(d: Driver): Driver
  {
    match d case None => None case Some(q) => Some(P.Flushed(q))
  }

  /** The transitions pending for the other nodes of the groups of x are withdrawn. */
  function Withdrawn(items: seq<Item>, ds: seq<Driver>, x: nat): (r: seq<Driver>)
    ensures |r| == |ds|
    ensures forall y | 0 <= y < |ds| :: r[y] == if Rivals(items, x, y) then Flush(ds[y]) else ds[y]
  {
    seq(|ds|, y requires 0 <= y < |ds| => if Rivals(items, x, y) then Flush(ds[y]) else ds[y])
  }

  /** What setting x to v does to the pending transitions, if it is accepted. */
  function Cleared(hi: seq<Item>, lo: seq<Item>, ds: seq<Driver>, x: nat, v: V3): (r: seq<Driver>)
    ensures |r| == |ds|
  {
    match v case X => ds case One => Withdrawn(hi, ds, x) case Zero => Withdrawn(lo, ds, x)
  }

  /**
   After x has been set to v, every other node of its groups of that direction has the opposite value and nothing
   pending: none of them is about to follow x.
   */
  lemma {:induction false} RivalsQuiet(
      hi: seq<Item>, lo: seq<Item>, vals: seq<V3>, ds: seq<Driver>, x: nat, v: V3, refuse: bool, y: nat)
    requires x < |vals| == |ds| && y < |vals| && !v.X? && Accepts(hi, lo, vals, x, v, refuse)
    requires Rivals(if v.One? then hi else lo, x, y)
    ensures vals[x := v][y] == Not3(v)
    ensures var d := Cleared(hi, lo, ds, x, v)[y]; d.Some? ==> d.value.pending.None?
  {
    var items := if v.One? then hi else lo;
    var g :| 0 <= g < |items| && x in items[g].n && y in items[g].n;
    assert GroupAllows(items[g].n, vals, x, v);
    var i :| 0 <= i < |items[g].n| && items[g].n[i] == y;
  }

  /** The groups that setting a boolean to v has to respect. */
  function Table(hi: seq<Item>, lo: seq<Item>, v: V3): seq<Item>
  {
    match v case One => hi case Zero => lo case X => []
  }

  /**
   A change is accepted if and only if every other node of a group of that direction is at the opposite value; to
   unknown always; and the random exclusion can refuse only a boolean that is in a group of that direction.
   */
  lemma {:induction false} AcceptedExactly(hi: seq<Item>, lo: seq<Item>, vals: seq<V3>, x: nat, v: V3, refuse: bool)
    ensures Accepts(hi, lo, vals, x, v, false)
            <==> forall y | 0 <= y < |vals| && Rivals(Table(hi, lo, v), x, y) :: vals[y] == Not3(v)
    ensures Accepts(hi, lo, vals, x, X, refuse)
    ensures Accepts(hi, lo, vals, x, v, true)
            <==> Accepts(hi, lo, vals, x, v, false) && forall g | 0 <= g < |Table(hi, lo, v)| ::
                   x !in Table(hi, lo, v)[g].n
  {
    hide Allows, Rivals, Constrained;
    FreeIs(Table(hi, lo, v), x);
    if !v.X? {
      AllowsExactly(Table(hi, lo, v), vals, x, v);
    } else {
      assert forall y :: !Rivals([], x, y) by { NoRival(x); }
    }
  }

  lemma FreeIs(items: seq<Item>, x: nat)
    ensures !Constrained(items, x) <==> forall g | 0 <= g < |items| :: x !in items[g].n
  {
  }

  lemma NoRival(x: nat)
    ensures forall y :: !Rivals([], x, y)
  {
  }

  lemma {:induction false} AllowsExactly(items: seq<Item>, vals: seq<V3>, x: nat, v: V3)
    ensures Allows(items, vals, x, v)
            <==> forall y | 0 <= y < |vals| && Rivals(items, x, y) :: vals[y] == Not3(v)
  {
    if Allows(items, vals, x, v) {
      forall y | 0 <= y < |vals| && Rivals(items, x, y) ensures vals[y] == Not3(v) {
        var g :| 0 <= g < |items| && x in items[g].n && y in items[g].n;
        assert GroupAllows(items[g].n, vals, x, v);
      }
    }
    if forall y | 0 <= y < |vals| && Rivals(items, x, y) :: vals[y] == Not3(v) {
      forall g | 0 <= g < |items| && x in items[g].n ensures GroupAllows(items[g].n, vals, x, v) {
        forall i | 0 <= i < |items[g].n| && items[g].n[i] != x && items[g].n[i] < |vals|
          ensures vals[items[g].n[i]] == Not3(v) {
          assert Rivals(items, x, items[g].n[i]);
        }
      }
    }
  }

  /** A node that shares no group of that direction with x keeps what its driver has pending. */
  lemma {:induction false} OthersUndisturbed(
      hi: seq<Item>, lo: seq<Item>, ds: seq<Driver>, x: nat, v: V3, y: nat)
    requires y < |ds| && (y == x || forall g | 0 <= g < |Table(hi, lo, v)| ::
               !(x in Table(hi, lo, v)[g].n && y in Table(hi, lo, v)[g].n))
    ensures Cleared(hi, lo, ds, x, v)[y] == ds[y]
  {
    Apart(Table(hi, lo, v), x, y);
  }

  lemma Apart(items: seq<Item>, x: nat, y: nat)
    ensures Rivals(items, x, y)
            <==> !(y == x || forall g | 0 <= g < |items| :: !(x in items[g].n && y in items[g].n))
  {
  }

  // ----- all runs

  datatype Call = Set(x: nat, v: V3, refuse: bool)

  function SetOne(hi: seq<Item>, lo: seq<Item>, vals: seq<V3>, c: Call): seq<V3>
  {
    if c.x < |vals| && Accepts(hi, lo, vals, c.x, c.v, c.refuse) then vals[c.x := c.v] else vals
  }

  function SetAll(hi: seq<Item>, lo: seq<Item>, vals: seq<V3>, cs: seq<Call>): seq<V3>
  {
    if cs == [] then vals else SetOne(hi, lo, SetAll(hi, lo, vals, cs[..|cs| - 1]), cs[|cs| - 1])
  }

  predicate Groups(items: seq<Item>)
  {
    forall g | 0 <= g < |items| :: Distinct(items[g].n)
  }

  /** Setting a node to v keeps "at most one v", when every group that mentions it allows that. */
  lemma {:induction false} SetKeeps(items: seq<Item>, vals: seq<V3>, x: nat, v: V3, w: V3)
    requires Groups(items) && AllAtMostOne(items, vals, w) && x < |vals| && !w.X?
    requires v == w ==> Allows(items, vals, x, w)
    ensures AllAtMostOne(items, vals[x := v], w)
  {
    forall g | 0 <= g < |items| ensures AtMostOne(items[g].n, vals[x := v], w) {
      GroupKeeps(items[g].n, vals, x, v, w, v == w && x in items[g].n);
    }
  }

  lemma {:induction false} GroupKeeps(n: seq<nat>, vals: seq<V3>, x: nat, v: V3, w: V3, allowed: bool)
    requires Distinct(n) && AtMostOne(n, vals, w) && x < |vals| && !w.X?
    requires allowed ==> GroupAllows(n, vals, x, w)
    requires v == w && x in n ==> allowed
    ensures AtMostOne(n, vals[x := v], w)
  {
  }

  /**
   Mutual exclusion over all runs: starting from all-unknown, after any calls, accepted or refused, every
   high group has at most one 1 and every low group at most one 0, however the groups overlap.
   */
  lemma {:induction false} MutualExclusion(hi: seq<Item>, lo: seq<Item>, vals: seq<V3>, cs: seq<Call>)
    requires Groups(hi) && Groups(lo) && forall i | 0 <= i < |vals| :: vals[i].X?
    ensures AllAtMostOne(hi, SetAll(hi, lo, vals, cs), One) && AllAtMostOne(lo, SetAll(hi, lo, vals, cs), Zero)
    decreases |cs|
  {
    if cs != [] {
      var c, v0 := cs[|cs| - 1], SetAll(hi, lo, vals, cs[..|cs| - 1]);
      MutualExclusion(hi, lo, vals, cs[..|cs| - 1]);
      if c.x < |v0| && Accepts(hi, lo, v0, c.x, c.v, c.refuse) {
        SetKeeps(hi, v0, c.x, c.v, One);
        SetKeeps(lo, v0, c.x, c.v, Zero);
      }
    }
  }

  // ----- the tables of groups

  class ExclTable {
    var items: seq<Item>
    var heads: Heads

    ghost predicate Valid()
      reads this
    {
      Threaded.Valid(items, heads) && Groups(items)
    }

    constructor ()
      ensures Valid() && items == []
    {
      items, heads := [], map[];
    }

    /** Whether a node is listed twice. */
    method HasDuplicate(nodes: seq<nat>) returns (dup: bool)
      ensures dup <==> !Distinct(nodes)
    {
      for i := 0 to |nodes|
        invariant Distinct(nodes[..i])
      {
        for j := 0 to i
          invariant forall k | 0 <= k < j :: nodes[k] != nodes[i]
        {
          if nodes[j] == nodes[i] { return true; }
        }
        assert nodes[..i + 1] == nodes[..i] + [nodes[i]];
      }
      assert nodes[..|nodes|] == nodes;
      dup := false;
    }

    /** Registers a group; one with a duplicate node is refused. */
    method Add(nodes: seq<nat>) returns (ok: bool)
      requires Valid()
      modifies this
      ensures Valid() && (ok <==> Distinct(nodes))
      ensures if ok then OneMoreGroup(old(items), items, nodes) else items == old(items) && heads == old(heads)
    {
      var dup := HasDuplicate(nodes);
      if dup { return false; }
      hide Latest, Threaded.Next, Place;
      var me := |items|;
      var h: Heads := heads;
      var nxt: seq<Option<nat>> := [];
      for i := 0 to |nodes|
        invariant |nxt| == i
        invariant forall s :: Head(h, s) == if s in nodes[..i] then Some(me) else Head(heads, s)
        invariant forall j | 0 <= j < i :: nxt[j] == Head(heads, nodes[j])
      {
        assert nodes[..i + 1] == nodes[..i] + [nodes[i]];
        nxt := nxt + [Head(h, nodes[i])];
        h := h[nodes[i] := me];
      }
      var it := Item(nodes, nxt);
      forall s | s in nodes ensures Threaded.Next(it, s) == Head(heads, s) { FirstLink(it, s); }
      assert nodes[..|nodes|] == nodes;
      Register(items, heads, it, h);
      items, heads, ok := items + [it], h, true;
    }
  }

  // ----- the packed bits

  /** The value of boolean x in the packed bits. */
  function ValueAt(b: seq<bool>, x: nat): V3
    requires 3 * x + 2 < |b|
  {
    if b[3 * x + 1] then X else if b[3 * x] then One else Zero
  }

  predicate SpecialAt(b: seq<bool>, x: nat)
    requires 3 * x + 2 < |b|
  {
    b[3 * x + 2]
  }

  function Values(b: seq<bool>, n: nat): (r: seq<V3>)
    requires |b| == 3 * n
    ensures |r| == n && forall x | 0 <= x < n :: r[x] == ValueAt(b, x)
  {
    seq(n, x requires 0 <= x < n => ValueAt(b, x))
  }

  function Specials(b: seq<bool>, n: nat): (r: seq<bool>)
    requires |b| == 3 * n
    ensures |r| == n && forall x | 0 <= x < n :: r[x] == SpecialAt(b, x)
  {
    seq(n, x requires 0 <= x < n => SpecialAt(b, x))
  }

  /** All nodes of all groups exist and are marked special. */
  predicate Marked(items: seq<Item>, specials: seq<bool>)
  {
    forall g | 0 <= g < |items| :: NodesMarked(items[g].n, specials)
  }

  predicate NodesMarked(n: seq<nat>, specials: seq<bool>)
  {
    forall i | 0 <= i < |n| :: n[i] < |specials| && specials[n[i]]
  }

  /** What holds of the bits between calls: who is special, and mutual exclusion. */
  ghost predicate Sound(hi: seq<Item>, lo: seq<Item>, forks: seq<Fork>, vals: seq<V3>, specials: seq<bool>)
  {
    && |vals| == |specials| && Marked(hi, specials) && Marked(lo, specials) && ForksMarked(forks, specials)
    && AllAtMostOne(hi, vals, One) && AllAtMostOne(lo, vals, Zero)
  }

  predicate ForksMarked(forks: seq<Fork>, specials: seq<bool>)
  {
    forall i | 0 <= i < |forks| :: NodesMarked(Signals(forks[i]), specials)
  }

  /** Writing the value bits of one boolean. */
  lemma WriteValue(b: seq<bool>, b': seq<bool>, n: nat, x: nat)
    requires |b| == |b'| == 3 * n && x < n
    requires forall i | 0 <= i < 3 * n && i != 3 * x && i != 3 * x + 1 :: b'[i] == b[i]
    ensures Values(b', n) == Values(b, n)[x := ValueAt(b', x)] && Specials(b', n) == Specials(b, n)
  {
    forall y | 0 <= y < n ensures b'[3 * y + 2] == b[3 * y + 2] && (y != x ==> ValueAt(b', y) == ValueAt(b, y)) { }
  }

  lemma WriteSpecial(b: seq<bool>, b': seq<bool>, n: nat, x: nat)
    requires |b| == |b'| == 3 * n && x < n && b' == b[3 * x + 2 := true]
    ensures Values(b', n) == Values(b, n) && Specials(b', n) == Specials(b, n)[x := true]
  {
    forall y | 0 <= y < n ensures ValueAt(b', y) == ValueAt(b, y) && (y != x ==>
        SpecialAt(b', y) == SpecialAt(b, y)) { }
  }

  class ActSimState {
    const nbools: nat
    const bits: array<bool>
    const hi: ExclTable
    const lo: ExclTable
    const timing: ForkTable
    const drivers: array<Driver>

    ghost predicate Valid()
      reads this, bits, hi, lo, timing, timing.objs
    {
      && bits.Length == 3 * nbools && drivers.Length == nbools && hi != lo && hi.Valid() && lo.Valid() && timing.Valid()
      && Sound(hi.items, lo.items, timing.Forks(), State(), Special())
    }

    ghost function State(): (r: seq<V3>)
      requires bits.Length == 3 * nbools
      reads this, bits
      ensures |r| == nbools
    {
      Values(bits[..], nbools)
    }

    ghost function Special(): (r: seq<bool>)
      requires bits.Length == 3 * nbools
      reads this, bits
      ensures |r| == nbools
    {
      Specials(bits[..], nbools)
    }

    /** All booleans are unknown. */
    constructor (bools: nat)
      ensures Valid() && nbools == bools && fresh(bits) && fresh(hi) && fresh(lo) && fresh(timing) && fresh(drivers)
      ensures State() == seq(bools, _ => X) && Special() == seq(bools, _ => false)
      ensures hi.items == [] && lo.items == [] && timing.objs == [] && drivers[..] == seq(bools, _ => None)
    {
      nbools := bools;
      bits := new bool[3 * bools](_ => false);
      hi := new ExclTable();
      lo := new ExclTable();
      timing := new ForkTable();
      drivers := new Driver[bools](_ => None);
      new;
      MakeUnknown();
    }

    method MakeUnknown()
      requires bits.Length == 3 * nbools && forall k | 0 <= k < bits.Length :: !bits[k]
      modifies bits
      ensures State() == seq(nbools, _ => X) && Special() == seq(nbools, _ => false)
    {
      assert Special() == seq(nbools, _ => false);
      for i := 0 to nbools
        invariant Special() == seq(nbools, _ => false)
        invariant forall x | 0 <= x < i :: State()[x] == X
      {
        ghost var b, vals := bits[..], State();
        bits[3 * i + 1] := true;
        assert ValueAt(bits[..], i) == X;
        WriteValue(b, bits[..], nbools, i);
        assert State() == vals[i := X];
      }
    }

    method GetBool(x: nat) returns (v: V3)
      requires bits.Length == 3 * nbools && x < nbools
      ensures v == State()[x]
    {
      if bits[3 * x + 1] { return X; }
      if bits[3 * x] { return One; }
      return Zero;
    }

    method MkSpecialBool(x: nat)
      requires bits.Length == 3 * nbools && x < nbools
      modifies bits
      ensures State() == old(State()) && Special() == old(Special())[x := true]
    {
      bits[3 * x + 2] := true;
      WriteSpecial(old(bits[..]), bits[..], nbools, x);
    }

    method MarkAll(ids: seq<nat>)
      requires bits.Length == 3 * nbools && forall i | 0 <= i < |ids| :: ids[i] < nbools
      modifies bits
      ensures State() == old(State())
      ensures forall x | 0 <= x < nbools :: Special()[x] <==> old(Special()[x]) || x in ids
    {
      for i := 0 to |ids|
        invariant State() == old(State())
        invariant forall x | 0 <= x < nbools :: Special()[x] <==> old(Special()[x]) || x in ids[..i]
      {
        assert ids[..i + 1] == ids[..i] + [ids[i]];
        MkSpecialBool(ids[i]);
      }
      assert ids[..|ids|] == ids;
    }

    /** Registers a mutual-exclusion group while all booleans are still unknown. */
    method AddExcl(up: bool, ids: seq<nat>) returns (ok: bool)
      requires Valid() && ids != [] && (forall i | 0 <= i < |ids| :: ids[i] < nbools)
      requires forall x | 0 <= x < nbools :: State()[x].X?
      modifies bits, hi, lo
      ensures Valid() && State() == old(State()) && (ok <==> Distinct(ids))
      ensures forall x | 0 <= x < nbools :: Special()[x] <==> old(Special()[x]) || x in ids
      ensures if ok && up then OneMoreGroup(old(hi.items), hi.items, ids) else hi.items == old(hi.items)
      ensures if ok && !up then OneMoreGroup(old(lo.items), lo.items, ids) else lo.items == old(lo.items)
    {
      hide Threaded.Valid, Values, Specials, Groups, AllAtMostOne, Equal, Marked, Distinct, Signals;
      if up { ok := hi.Add(ids); } else { ok := lo.Add(ids); }
      MarkAll(ids);
      GroupAdded(old(hi.items), hi.items, ids, old(Special()), Special());
      GroupAdded(old(lo.items), lo.items, ids, old(Special()), Special());
      UnknownFine(hi.items, State(), One);
      UnknownFine(lo.items, State(), Zero);
    }

    /** Registers a timing fork. */
    method AddTimingFork(f: Fork) returns (dup: bool)
      requires Valid() && forall i | 0 <= i < 3 :: Signals(f)[i] < nbools
      modifies bits, timing
      ensures Valid() && State() == old(State())
      ensures dup <==> exists i | 0 <= i < |old(timing.Forks())| :: Equal(old(timing.Forks())[i], f)
      ensures timing.Forks() == if dup then old(timing.Forks()) else old(timing.Forks()) + [f.(phase := Inactive)]
      ensures forall x | 0 <= x < nbools :: Special()[x] <==> old(Special()[x]) || (!dup && x in Signals(f))
    {
      hide Threaded.Valid, Values, Specials, Groups, AllAtMostOne, Equal;
      dup := timing.Add(f);
      if !dup {
        MarkAll(Signals(f));
        GroupAdded(hi.items, hi.items, [], old(Special()), Special());
        GroupAdded(lo.items, lo.items, [], old(Special()), Special());
        ForkAdded(old(timing.Forks()), f, old(Special()), Special());
      }
    }

    /** Whether all other nodes of a group have the opposite value. */
    method OthersOpposite(n: seq<nat>, x: nat, v: V3) returns (all: bool)
      requires bits.Length == 3 * nbools && forall i | 0 <= i < |n| :: n[i] < nbools
      ensures all <==> GroupAllows(n, State(), x, v)
    {
      hide Values;
      for i := 0 to |n|
        invariant forall j | 0 <= j < i && n[j] != x :: State()[n[j]] == Not3(v)
      {
        if n[i] != x {
          var w := GetBool(n[i]);
          if w != Not3(v) { return false; }
        }
      }
      all := true;
    }

    /** The gate that drives node x, with what it has pending. */
    method AddObject(x: nat, q: P.Sched)
      requires x < drivers.Length
      modifies drivers
      ensures drivers[..] == old(drivers[..])[x := Some(q)]
    {
      drivers[x] := Some(q);
    }

    /**
     Walks the list of groups of x in the table for direction v, and, if the change is safe, once more to withdraw
     what is pending for other nodes.
     */
    method SafeChange(x: nat, v: V3, refuse: bool) returns (safe: bool)
      requires Valid() && x < nbools
      modifies drivers
      ensures safe <==> Accepts(hi.items, lo.items, State(), x, v, refuse)
      ensures drivers[..] == if safe then Cleared(hi.items, lo.items, old(drivers[..]), x, v) else old(drivers[..])
    {
      hide Threaded.Valid, Values, Specials, GroupAllows, Groups, Allows, Sound, Rivals;
      if v.X? { return true; }
      assert Marked(hi.items, Special()) && Marked(lo.items, Special()) by { MarkedGroups(); }
      var t := if v.One? then hi else lo;
      safe := AllOpposite(t, x, v, refuse);
      if safe { KillPending(t, x); }
    }

    lemma MarkedGroups()
      requires Valid()
      ensures Marked(hi.items, Special()) && Marked(lo.items, Special())
    {
    }

    /** Withdraws what is pending for the other nodes of one group. */
    method KillGroup(n: seq<nat>, x: nat)
      requires drivers.Length == nbools && forall i | 0 <= i < |n| :: n[i] < nbools
      modifies drivers
      ensures forall y | 0 <= y < nbools ::
                drivers[y] == if y != x && y in n then Flush(old(drivers[y])) else old(drivers[y])
    {
      for i := 0 to |n|
        invariant forall y | 0 <= y < nbools ::
                    drivers[y] == if y != x && y in n[..i] then Flush(old(drivers[y])) else old(drivers[y])
      {
        assert n[..i + 1] == n[..i] + [n[i]];
        if n[i] != x && drivers[n[i]].Some? { drivers[n[i]] := Some(P.Flushed(drivers[n[i]].value)); }
      }
      assert n[..|n|] == n;
    }

    method KillPending(t: ExclTable, x: nat)
      requires bits.Length == 3 * nbools && drivers.Length == nbools && x < nbools
      requires t.Valid() && Marked(t.items, Special())
      modifies drivers
      ensures drivers[..] == Withdrawn(t.items, old(drivers[..]), x)
    {
      hide Threaded.Next, Place, Latest, Values, Specials, Groups;
      var tmp: Option<nat> := Head(t.heads, x);
      HeadStep(t.items, t.heads, x);
      while tmp.Some?
        invariant tmp.Some? ==> tmp.value < |t.items| && x in t.items[tmp.value].n
        invariant forall y | 0 <= y < nbools ::
                    drivers[y] == if RivalsMet(t.items, x, tmp, y) then Flush(old(drivers[y])) else old(drivers[y])
        decreases if tmp.Some? then tmp.value + 1 else 0
      {
        var n := t.items[tmp.value].n;
        assert NodesMarked(n, Special());
        KillGroup(n, x);
        NextStep(t.items, t.heads, x, tmp.value);
        MetMore(t.items, x, tmp.value, Threaded.Next(t.items[tmp.value], x));
        tmp := Threaded.Next(t.items[tmp.value], x);
      }
      forall y | 0 <= y < nbools ensures RivalsMet(t.items, x, None, y) <==> Rivals(t.items, x, y) {
        AllMet(t.items, x, y);
      }
    }

    method AllOpposite(t: ExclTable, x: nat, v: V3, refuse: bool) returns (safe: bool)
      requires bits.Length == 3 * nbools && t.Valid() && Marked(t.items, Special()) && x < nbools
      ensures safe <==> Allows(t.items, State(), x, v) && !(refuse && Constrained(t.items, x))
    {
      hide Threaded.Next, Place, Latest, Values, Specials, GroupAllows, Groups;
      var tmp: Option<nat> := Head(t.heads, x);
      var first := tmp;
      HeadStep(t.items, t.heads, x);
      while tmp.Some?
        invariant tmp.Some? ==> tmp.value < |t.items| && x in t.items[tmp.value].n
        invariant forall g | 0 <= g < |t.items| :: Met(t.items, x, tmp, g) ==> GroupAllows(t.items[g].n, State(), x, v)
        decreases if tmp.Some? then tmp.value + 1 else 0
      {
        var n := t.items[tmp.value].n;
        assert NodesMarked(n, Special());
        var all := OthersOpposite(n, x, v);
        if !all { return false; }
        NextStep(t.items, t.heads, x, tmp.value);
        tmp := Threaded.Next(t.items[tmp.value], x);
      }
      assert forall g | 0 <= g < |t.items| && x in t.items[g].n :: Met(t.items, x, None, g);
      if first.None? { NotConstrained(t.items, x); }
      safe := !(refuse && first.Some?);
    }

    method WriteBits(x: nat, v: V3)
      requires bits.Length == 3 * nbools && x < nbools
      modifies bits
      ensures State() == old(State())[x := v] && Special() == old(Special())
    {
      if v.One? {
        bits[3 * x] := true;
        bits[3 * x + 1] := false;
      } else if v.Zero? {
        bits[3 * x] := false;
        bits[3 * x + 1] := false;
      } else {
        bits[3 * x + 1] := true;
      }
      WriteValue(old(bits[..]), bits[..], nbools, x);
    }

    /** What setting a special boolean involves: the groups, and if they accept it the timing forks. */
    method Constrain(x: nat, v: V3, refuse: bool, now: nat, resetMode: bool) returns (ok: bool)
      requires Valid() && x < nbools
      modifies timing.objs, drivers
      ensures drivers[..] == if ok then Cleared(hi.items, lo.items, old(drivers[..]), x, v) else old(drivers[..])
      ensures timing.Valid() && (ok <==> Accepts(hi.items, lo.items, State(), x, v, refuse))
      ensures |timing.Forks()| == |old(timing.Forks())|
      ensures forall i | 0 <= i < |timing.Forks()| ::
                timing.Forks()[i] == if ok && !resetMode && x in Signals(old(timing.Forks())[i])
                                   then Update(old(timing.Forks())[i], x, v, now).0 else old(timing.Forks())[i]
    {
      hide Threaded.Valid, Values, Specials, Update, Sound, Accepts, Signals, ValueAt, SpecialAt, Cleared, Equal,
           Groups, Marked;
      SoundMarked(hi.items, lo.items, timing.Forks(), State(), Special());
      var special := IsSpecial(x);
      if special {
        ok := SafeChange(x, v, refuse);
        if ok && !resetMode { timing.UpdateAll(x, v, now); }
      } else {
        ok := true;
        Unconstrained(hi.items, lo.items, State(), Special(), x, v, refuse);
        Unwatched(timing.Forks(), Special(), x);
        NoRivals(hi.items, lo.items, drivers[..], Special(), x, v);
      }
    }

    /**
     Sets a boolean. It is refused exactly when a group of its direction has another node that is not at the
     opposite value (or by the random exclusion), and then nothing changes; the special bits never change, and
     every timing fork that mentions the boolean is told once.
     */
    method SetBool(x: nat, v: V3, refuse: bool, now: nat, resetMode: bool) returns (ok: bool)
      requires Valid() && x < nbools
      modifies bits, timing.objs, drivers
      ensures Valid() && Special() == old(Special())
      ensures drivers[..] == if ok then Cleared(hi.items, lo.items, old(drivers[..]), x, v) else old(drivers[..])
      ensures ok <==> Accepts(hi.items, lo.items, old(State()), x, v, refuse)
      ensures !refuse ==>
                (ok <==> forall y | 0 <= y < nbools && Rivals(Table(hi.items, lo.items, v), x, y) ::
                           old(State())[y] == Not3(v))
      ensures State() == if ok then old(State())[x := v] else old(State())
      ensures |timing.Forks()| == |old(timing.Forks())|
      ensures forall i | 0 <= i < |timing.Forks()| ::
                timing.Forks()[i] == if ok && !resetMode && x in Signals(old(timing.Forks())[i])
                                   then Update(old(timing.Forks())[i], x, v, now).0 else old(timing.Forks())[i]
    {
      hide Threaded.Valid, Values, Specials, Update, Sound, Accepts, Signals, ValueAt, SpecialAt, Cleared, Equal,
           Groups, Marked, Rivals, Table;
      ok := Constrain(x, v, refuse, now, resetMode);
      AcceptedExactly(hi.items, lo.items, old(State()), x, v, refuse);
      if !ok {
        assert timing.Forks() == old(timing.Forks());
        return;
      }
      SoundKept(hi.items, lo.items, old(timing.Forks()), timing.Forks(), State(), Special(), x, v, refuse, now);
      WriteBits(x, v);
    }

    method IsSpecial(x: nat) returns (r: bool)
      requires bits.Length == 3 * nbools && x < nbools
      ensures r == Special()[x]
    {
      r := bits[3 * x + 2];
    }
  }

  /** y is in a group of x that has been met. */
  predicate RivalsMet(items: seq<Item>, x: nat, at: Option<nat>, y: nat)
  {
    y != x && exists g | 0 <= g < |items| :: Met(items, x, at, g) && y in items[g].n
  }

  lemma MetMore(items: seq<Item>, x: nat, at: nat, next: Option<nat>)
    requires at < |items|
    requires forall i | 0 <= i < |items| :: Met(items, x, next, i) <==> Met(items, x, Some(at), i) || i == at
    ensures forall y :: RivalsMet(items, x, next, y)
                        <==> RivalsMet(items, x, Some(at), y) || (y != x && y in items[at].n)
  {
    forall y ensures RivalsMet(items, x, next, y)
                     <==> RivalsMet(items, x, Some(at), y) || (y != x && y in items[at].n) {
      if y != x && y in items[at].n { assert Met(items, x, next, at); }
      if RivalsMet(items, x, Some(at), y) {
        var g :| 0 <= g < |items| && Met(items, x, Some(at), g) && y in items[g].n;
        assert Met(items, x, next, g);
      }
    }
  }

  lemma AllMet(items: seq<Item>, x: nat, y: nat)
    ensures RivalsMet(items, x, None, y) <==> Rivals(items, x, y)
  {
    if Rivals(items, x, y) {
      var g :| 0 <= g < |items| && x in items[g].n && y in items[g].n;
      assert Met(items, x, None, g);
    }
  }

  /** Setting a boolean that is not special withdraws nothing. */
  lemma NoRivals(hi: seq<Item>, lo: seq<Item>, ds: seq<Driver>, specials: seq<bool>, x: nat, v: V3)
    requires Marked(hi, specials) && Marked(lo, specials) && x < |specials| && !specials[x]
    ensures Cleared(hi, lo, ds, x, v) == ds
  {
    Unconstrained(hi, lo, [], specials, x, X, false);
  }

  lemma NotConstrained(items: seq<Item>, x: nat)
    requires forall g | 0 <= g < |items| :: !Met(items, x, None, g)
    ensures !Constrained(items, x)
  {
    forall g | 0 <= g < |items| ensures x !in items[g].n { assert !Met(items, x, None, g); }
  }

  /** The nodes of a new group have been marked. */
  lemma GroupAdded(items: seq<Item>, items': seq<Item>, ids: seq<nat>, specials: seq<bool>, specials': seq<bool>)
    requires Marked(items, specials) && |specials| == |specials'| && |items| <= |items'| && items'[..|items|] == items
    requires |items'| == |items| || (|items'| == |items| + 1 && items'[|items|].n == ids)
    requires NodesMarked(ids, specials')
    requires forall x | 0 <= x < |specials| && specials[x] :: specials'[x]
    ensures Marked(items', specials')
  {
    forall g | 0 <= g < |items'| ensures NodesMarked(items'[g].n, specials') {
      if g < |items| { assert items'[..|items|][g] == items[g] && NodesMarked(items[g].n, specials); }
    }
  }

  lemma ForkAdded(forks: seq<Fork>, f: Fork, specials: seq<bool>, specials': seq<bool>)
    requires ForksMarked(forks, specials) && |specials| == |specials'|
    requires forall x | 0 <= x < |specials| && specials[x] :: specials'[x]
    requires NodesMarked(Signals(f), specials')
    ensures ForksMarked(forks + [f.(phase := Inactive)], specials')
  {
    assert Signals(f.(phase := Inactive)) == Signals(f);
  }

  /** A boolean that is not special is in no fork. */
  lemma Unwatched(forks: seq<Fork>, specials: seq<bool>, x: nat)
    requires ForksMarked(forks, specials) && x < |specials| && !specials[x]
    ensures forall i | 0 <= i < |forks| :: x !in Signals(forks[i])
  {
  }

  lemma ForksStay(forks: seq<Fork>, forks': seq<Fork>, x: nat, v: V3, now: nat, specials: seq<bool>)
    requires ForksMarked(forks, specials) && |forks'| == |forks|
    requires forall i | 0 <= i < |forks| :: forks'[i] == forks[i] || forks'[i] == Update(forks[i], x, v, now).0
    ensures ForksMarked(forks', specials)
  {
    forall i | 0 <= i < |forks| ensures Signals(forks'[i]) == Signals(forks[i]) { UpdateShape(forks[i], x, v, now); }
  }

  lemma UnknownFine(items: seq<Item>, vals: seq<V3>, v: V3)
    requires (forall x | 0 <= x < |vals| :: vals[x].X?) && !v.X?
    ensures AllAtMostOne(items, vals, v)
  {
  }

  lemma SoundMarked(hi: seq<Item>, lo: seq<Item>, forks: seq<Fork>, vals: seq<V3>, specials: seq<bool>)
    requires Sound(hi, lo, forks, vals, specials)
    ensures Marked(hi, specials) && Marked(lo, specials) && ForksMarked(forks, specials)
  {
  }

  /** An accepted change keeps what holds of the bits. */
  lemma {:induction false} SoundKept(hi: seq<Item>, lo: seq<Item>, forks: seq<Fork>, forks': seq<Fork>, vals: seq<V3>,
      specials: seq<bool>, x: nat, v: V3, refuse: bool, now: nat)
    requires Sound(hi, lo, forks, vals, specials) && Groups(hi) && Groups(lo) && x < |vals|
    requires Accepts(hi, lo, vals, x, v, refuse) && |forks'| == |forks|
    requires forall i | 0 <= i < |forks| :: forks'[i] == forks[i] || forks'[i] == Update(forks[i], x, v, now).0
    ensures Sound(hi, lo, forks', vals[x := v], specials)
  {
    hide Update, Allows, AllAtMostOne, Groups, Marked, ForksMarked;
    SetKeeps(hi, vals, x, v, One);
    SetKeeps(lo, vals, x, v, Zero);
    ForksStay(forks, forks', x, v, now, specials);
  }

  /** A boolean that is not special is in no group. */
  lemma Unconstrained(hi: seq<Item>, lo: seq<Item>, vals: seq<V3>, specials: seq<bool>, x: nat, v: V3, refuse: bool)
    requires Marked(hi, specials) && Marked(lo, specials) && x < |specials| && !specials[x]
    ensures Accepts(hi, lo, vals, x, v, refuse) && !Constrained(hi, x) && !Constrained(lo, x)
  {
  }
}
