/**
 Objects on several linked lists at once, one list per signal: a table maps a signal to the newest object that
 mentions it, and an object has, for each signal it mentions, a link to the next older such object.

 An object is known by its registration number.
 */
module Threaded {
  import opened Prelude

  /** The signals an object mentions, possibly with repeats, and the links that go with them. */
  datatype Item = Item(n: seq<nat>, nxt: seq<Option<nat>>)

  type Heads = map<nat, nat>

  function Head(heads: Heads, s: nat): Option<nat>
  {
    if s in heads then Some(heads[s]) else None
  }

  /** The first place where an object mentions s. */
  function Place(n: seq<nat>, s: nat): (r: Option<nat>)
    ensures r.Some? ==> r.value < |n| && n[r.value] == s && forall j | 0 <= j < r.value :: n[j] != s
    ensures r.None? ==> s !in n
  {
    if n == [] then None
    else if n[0] == s then Some(0)
    else match Place(n[1..], s) case None => None case Some(i) => Some(i + 1)
  }

  /** The link that belongs to s. */
  function Next(it: Item, s: nat): Option<nat>
  {
    match Place(it.n, s)
    case None => None
    case Some(j) => if j < |it.nxt| then it.nxt[j] else None
  }

  /** The newest of the first k objects that mentions s. */
  function Latest(items: seq<Item>, s: nat, k: nat): (r: Option<nat>)
    requires k <= |items|
    ensures r.Some? ==> r.value < k && s in items[r.value].n && forall j | r.value < j < k :: s !in items[j].n
    ensures r.None? ==> forall j | 0 <= j < k :: s !in items[j].n
  {
    if k == 0 then None else if s in items[k - 1].n then Some(k - 1) else Latest(items, s, k - 1)
  }

  /** Links and table say what they should. */
  ghost predicate Valid(items: seq<Item>, heads: Heads)
  {
    && (forall i, s | 0 <= i < |items| && s in items[i].n :: Next(items[i], s) == Latest(items, s, i))
    && (forall s :: Head(heads, s) == Latest(items, s, |items|))
  }

  /** The objects met when following the links of s from `at`. A link that does not go to an older object ends it. */
  function Walk(items: seq<Item>, at: Option<nat>, s: nat): seq<nat>
    decreases if at.Some? then at.value + 1 else 0
  {
    if at.None? || at.value >= |items| then []
    else
      var next := Next(items[at.value], s);
      [at.value] + if next.Some? && next.value >= at.value then [] else Walk(items, next, s)
  }

  /** All objects below k that mention s, newest first. */
  function Mentioning(items: seq<Item>, s: nat, k: nat): seq<nat>
    requires k <= |items|
  {
    if k == 0 then [] else (if s in items[k - 1].n then [k - 1] else []) + Mentioning(items, s, k - 1)
  }

  lemma {:induction false} MentioningAre(items: seq<Item>, s: nat, k: nat)
    requires k <= |items|
    ensures var ms := Mentioning(items, s, k);
            && (forall i | 0 <= i < |ms| :: ms[i] < k && s in items[ms[i]].n)
            && (forall j | 0 <= j < k && s in items[j].n :: j in ms)
            && (forall i, j | 0 <= i < j < |ms| :: ms[i] > ms[j])
    decreases k
  {
    if k > 0 { MentioningAre(items, s, k - 1); }
  }

  lemma {:induction false} SkipTo(items: seq<Item>, s: nat, k: nat)
    requires k <= |items|
    ensures match Latest(items, s, k)
            case None => Mentioning(items, s, k) == []
            case Some(i) => Mentioning(items, s, k) == [i] + Mentioning(items, s, i)
    decreases k
  {
    if k > 0 && s !in items[k - 1].n { SkipTo(items, s, k - 1); }
  }

  lemma {:induction false} WalkFrom(items: seq<Item>, heads: Heads, s: nat, k: nat)
    requires Valid(items, heads) && k <= |items|
    ensures Walk(items, Latest(items, s, k), s) == Mentioning(items, s, k)
    ensures k == |items| ==> Walk(items, Head(heads, s), s) == Mentioning(items, s, k)
    decreases k
  {
    SkipTo(items, s, k);
    if Latest(items, s, k).Some? {
      var i := Latest(items, s, k).value;
      WalkFrom(items, heads, s, i);
    }
  }

  /** Objects that mention s at or above k have all been met. */
  predicate Met(items: seq<Item>, s: nat, at: Option<nat>, i: nat)
    requires i < |items|
  {
    s in items[i].n && (at.None? || at.value < i)
  }

  /** A list starts with the newest object that mentions the signal. */
  lemma {:induction false} HeadStep(items: seq<Item>, heads: Heads, s: nat)
    requires Valid(items, heads)
    ensures Head(heads, s).Some? ==> Head(heads, s).value < |items| && s in items[Head(heads, s).value].n
    ensures forall i | 0 <= i < |items| :: !Met(items, s, Head(heads, s), i)
  {
  }

  /** One step along a list meets one object more. */
  lemma {:induction false} NextStep(items: seq<Item>, heads: Heads, s: nat, at: nat)
    requires Valid(items, heads) && at < |items| && s in items[at].n
    ensures Next(items[at], s).Some? ==> Next(items[at], s).value < at && s in items[Next(items[at], s).value].n
    ensures forall i | 0 <= i < |items| ::
              Met(items, s, Next(items[at], s), i) <==> Met(items, s, Some(at), i) || i == at
  {
    var next := Next(items[at], s);
    assert next == Latest(items, s, at);
  }

  /** Following the links of a signal from its head ends and meets exactly the objects that mention it, each once. */
  lemma {:induction false} WalkVisitsAll(items: seq<Item>, heads: Heads, s: nat)
    requires Valid(items, heads)
    ensures var w := Walk(items, Head(heads, s), s);
            && (forall i | 0 <= i < |w| :: w[i] < |items| && s in items[w[i]].n)
            && (forall j | 0 <= j < |items| && s in items[j].n :: j in w)
            && (forall i, j | 0 <= i < j < |w| :: w[i] != w[j])
  {
    WalkFrom(items, heads, s, |items|);
    MentioningAre(items, s, |items|);
  }

  // ----- registering

  /** A new object whose links are the old heads of its signals, and whose signals now start with it, keeps the
      lists right. */
  lemma {:induction false} Register(items: seq<Item>, heads: Heads, it: Item, heads': Heads)
    requires Valid(items, heads)
    requires forall s | s in it.n :: Next(it, s) == Head(heads, s)
    requires forall s :: Head(heads', s) == if s in it.n then Some(|items|) else Head(heads, s)
    ensures Valid(items + [it], heads')
  {
    var items' := items + [it];
    forall i, s | 0 <= i < |items'| && s in items'[i].n ensures Next(items'[i], s) == Latest(items', s, i) {
      SameLatest(items, it, s, i);
    }
    forall s ensures Head(heads', s) == Latest(items', s, |items'|) {
      SameLatest(items, it, s, |items|);
    }
  }

  lemma SameLatest(items: seq<Item>, it: Item, s: nat, k: nat)
    requires k <= |items|
    ensures Latest(items + [it], s, k) == Latest(items, s, k)
  {
    if k > 0 { SameLatest(items, it, s, k - 1); }
  }
}
