/**
 The growable table of gate delays: keys and values side by side in one array whose first element is its
 capacity, with a marker key behind the last entry in use.
 */
module DelayTable {
  import opened Prelude

  const UNUSED: int := -0x8000_0000

  /** An entry: the input signal that causes the transition, and the delay. */
  datatype Entry = Entry(key: int, delay: int)

  // ----- the table as a list of entries

  /** The position of a key. */
  function Find(es: seq<Entry>, k: int): (r: Option<nat>)
    ensures r.Some? ==> r.value < |es| && es[r.value].key == k && forall j | 0 <= j < r.value :: es[j].key != k
    ensures r.None? ==> forall j | 0 <= j < |es| :: es[j].key != k
  {
    if es == [] then None
    else if es[0].key == k then Some(0)
    else match Find(es[1..], k) case None => None case Some(i) => Some(i + 1)
  }

  lemma FindIs(es: seq<Entry>, k: int, i: nat)
    requires i <= |es| && (forall j | 0 <= j < i :: es[j].key != k) && (i < |es| ==> es[i].key == k)
    ensures Find(es, k) == if i < |es| then Some(i) else None
  {
  }

  function Max(a: int, b: int): int { if a < b then b else a }

  /** The largest delay, and at least -1, the default delay. */
  function Largest(es: seq<Entry>): int
  {
    if es == [] then -1 else Max(Largest(es[..|es| - 1]), es[|es| - 1].delay)
  }

  function AddTo(es: seq<Entry>, k: int, d: int): seq<Entry>
  {
    match Find(es, k)
    case None => es + [Entry(k, d)]
    case Some(i) => es[i := Entry(k, Max(es[i].delay, d))]
  }

  function IncTo(es: seq<Entry>, k: int, d: int): seq<Entry>
  {
    match Find(es, k)
    case None => es + [Entry(k, d)]
    case Some(i) => es[i := Entry(k, es[i].delay + d)]
  }

  function LookupIn(es: seq<Entry>, k: int): int
  {
    match Find(es, k) case None => Largest(es) case Some(i) => es[i].delay
  }

  predicate Distinct(es: seq<Entry>)
  {
    forall i, j | 0 <= i < j < |es| :: es[i].key != es[j].key
  }

  // ----- what a table built by any calls answers

  datatype Call = Add(k: int, d: int) | Inc(k: int, d: int)

  function Apply(es: seq<Entry>, c: Call): seq<Entry>
  {
    match c case Add(k, d) => AddTo(es, k, d) case Inc(k, d) => IncTo(es, k, d)
  }

  function Built(cs: seq<Call>): seq<Entry>
  {
    if cs == [] then [] else Apply(Built(cs[..|cs| - 1]), cs[|cs| - 1])
  }

  /** The delay of one key, from the calls that mention it: the first sets it, then maxima and increments. */
  function DelayOf(cs: seq<Call>, k: int): Option<int>
  {
    if cs == [] then None
    else
      var c, v := cs[|cs| - 1], DelayOf(cs[..|cs| - 1], k);
      if c.k != k then v
      else if v.None? then Some(c.d)
      else if c.Add? then Some(Max(v.value, c.d)) else Some(v.value + c.d)
  }

  lemma {:induction false} BuiltIs(cs: seq<Call>, k: int)
    ensures Distinct(Built(cs))
    ensures match Find(Built(cs), k)
            case None => DelayOf(cs, k).None?
            case Some(i) => DelayOf(cs, k) == Some(Built(cs)[i].delay)
    decreases |cs|
  {
    if cs != [] {
      var n := |cs| - 1;
      BuiltIs(cs[..n], k);
      ApplyFinds(Built(cs[..n]), cs[n], k);
    }
  }

  lemma {:induction false} ApplyFinds(es: seq<Entry>, c: Call, k: int)
    requires Distinct(es)
    ensures Distinct(Apply(es, c))
    ensures k != c.k ==> (Find(es, k).Some? <==> Find(Apply(es, c), k).Some?)
    ensures k != c.k && Find(es, k).Some? ==>
              Apply(es, c)[Find(Apply(es, c), k).value].delay == es[Find(es, k).value].delay
    ensures Find(Apply(es, c), c.k).Some?
    ensures var d := Apply(es, c)[Find(Apply(es, c), c.k).value].delay;
            match Find(es, c.k)
            case None => d == c.d
            case Some(i) => d == if c.Add? then Max(es[i].delay, c.d) else es[i].delay + c.d
  {
    var es' := Apply(es, c);
    var i := match Find(es, c.k) case None => |es| case Some(i) => i;
    assert es'[i].key == c.k;
    assert forall j | 0 <= j < |es| && j != i :: es'[j] == es[j];
    if k != c.k && Find(es, k).Some? {
      assert es'[Find(es, k).value].key == k;
    }
  }

  lemma {:induction false} LargestIs(es: seq<Entry>)
    ensures Largest(es) >= -1 && forall i | 0 <= i < |es| :: es[i].delay <= Largest(es)
    ensures Largest(es) == -1 || exists i | 0 <= i < |es| :: es[i].delay == Largest(es)
    decreases |es|
  {
    if es != [] {
      var n := |es| - 1;
      LargestIs(es[..n]);
      assert forall i | 0 <= i < n :: es[..n][i] == es[i];
      if es[n].delay <= Largest(es[..n]) && Largest(es[..n]) != -1 {
        var i :| 0 <= i < n && es[..n][i].delay == Largest(es[..n]);
        assert es[i].delay == Largest(es);
      }
    }
  }

  /**
   Looking up a key after any calls: its own delay if a call has mentioned it, whatever else was added; else
   the largest delay in the table, and the default -1 when the table is empty.
   */
  lemma {:induction false} LookupAnswers(cs: seq<Call>, k: int)
    ensures match DelayOf(cs, k)
            case Some(d) => LookupIn(Built(cs), k) == d
            case None =>
              && (forall j, d | DelayOf(cs, j) == Some(d) :: d <= LookupIn(Built(cs), k))
              && LookupIn(Built(cs), k) >= -1
              && (LookupIn(Built(cs), k) == -1 || exists j :: DelayOf(cs, j) == Some(LookupIn(Built(cs), k)))
  {
    BuiltIs(cs, k);
    if DelayOf(cs, k).None? {
      var es := Built(cs);
      LargestIs(es);
      forall j, d | DelayOf(cs, j) == Some(d) ensures d <= Largest(es) { BuiltIs(cs, j); }
      if Largest(es) != -1 {
        var i :| 0 <= i < |es| && es[i].delay == Largest(es);
        BuiltIs(cs, es[i].key);
        assert DelayOf(cs, es[i].key) == Some(Largest(es));
      }
    }
  }

  // ----- the array

  /** The array t holds the entries es: capacity first, then pairs, then the marker if there is room. */
  predicate Holds(t: seq<int>, es: seq<Entry>)
  {
    && |t| >= 3 && |t| == 2 * t[0] + 1
    && t[0] - 1 <= |es| <= t[0]
    && (forall i | 0 <= i < |es| :: t[2 * i + 1] == es[i].key && t[2 * i + 2] == es[i].delay && es[i].key != UNUSED)
    && (|es| < t[0] ==> t[2 * |es| + 1] == UNUSED)
  }

  /** A full table with room for two more entries, and one of them written. */
  lemma {:induction false} Grown(t: seq<int>, t': seq<int>, es: seq<Entry>, e: Entry)
    requires Holds(t, es) && |es| == t[0] && e.key != UNUSED && |t'| == |t| + 4 && t'[0] == t[0] + 2
    requires forall i | 1 <= i < |t| :: t'[i] == t[i]
    requires t'[|t|] == e.key && t'[|t| + 1] == e.delay && t'[|t| + 2] == UNUSED
    ensures Holds(t', es + [e])
  {
  }

  /** The free place of a table written. */
  lemma {:induction false} Filled(t: seq<int>, t': seq<int>, es: seq<Entry>, e: Entry)
    requires Holds(t, es) && |es| < t[0] && e.key != UNUSED && |t'| == |t| && t'[0] == t[0]
    requires forall i | 1 <= i < 2 * |es| + 1 :: t'[i] == t[i]
    requires t'[2 * |es| + 1] == e.key && t'[2 * |es| + 2] == e.delay
    ensures Holds(t', es + [e])
  {
  }

  class GateDelay {
    var val: int
    var tab: array<int>
    ghost var entries: seq<Entry>

    ghost predicate Valid()
      reads this, tab
    {
      Holds(tab[..], entries)
    }

    /** A new table, with room for one entry. */
    constructor ()
      ensures Valid() && fresh(tab) && entries == [] && val == -1
    {
      val, entries := -1, [];
      tab := new int[3];
      new;
      tab[0] := 1;
      tab[1] := UNUSED;
    }

    method Lookup(idx: int, fixedDelay: bool) returns (d: int)
      requires Valid() && idx != UNUSED
      ensures d == if fixedDelay then val else LookupIn(entries, idx)
    {
      if fixedDelay { return val; }
      d := -1;
      var i := 0;
      while i < tab[0]
        invariant 0 <= i <= |entries| && |entries| <= tab[..][0] == tab[0]
        invariant d == Largest(entries[..i])
        invariant forall j | 0 <= j < i :: entries[j].key != idx
      {
        assert i < |entries| ==> entries[i].key == tab[..][2 * i + 1] != UNUSED;
        if tab[2 * i + 1] == UNUSED { break; }
        if tab[2 * i + 1] == idx {
          FindIs(entries, idx, i);
          return tab[2 * i + 2];
        }
        assert entries[..i + 1][..i] == entries[..i];
        if d < tab[2 * i + 2] { d := tab[2 * i + 2]; }
        i := i + 1;
      }
      assert i == |entries| && entries[..i] == entries;
      FindIs(entries, idx, i);
    }

    /** The place of a key, or the first free place, or the capacity when the table is full. */
    method Place(idx: int) returns (i: nat, found: bool)
      requires Valid() && idx != UNUSED
      ensures found ==> i < |entries| && Find(entries, idx) == Some(i)
      ensures !found ==> i == |entries| && Find(entries, idx).None?
    {
      i, found := 0, false;
      while i < tab[0]
        invariant i <= |entries|
        invariant forall j | 0 <= j < i :: entries[j].key != idx
      {
        assert tab[..][2 * i + 1] == tab[2 * i + 1];
        if tab[2 * i + 1] == idx {
          FindIs(entries, idx, i);
          return i, true;
        }
        if tab[2 * i + 1] == UNUSED { break; }
        i := i + 1;
      }
      FindIs(entries, idx, i);
    }

    /** A new last entry; a full table grows by two places. */
    method Append(j: nat, idx: int, dval: int)
      requires Valid() && idx != UNUSED && j == |entries|
      modifies this`tab, this`entries, tab
      ensures Valid() && entries == old(entries) + [Entry(idx, dval)] && (tab == old(tab) || fresh(tab))
    {
      var n := tab[0];
      if j == n {
        var t := new int[2 * (n + 2) + 1];
        forall i | 0 <= i < tab.Length { t[i] := tab[i]; }
        tab := t;
        tab[0] := n + 2;
        tab[2 * n + 1] := idx;
        tab[2 * n + 2] := dval;
        tab[2 * n + 3] := UNUSED;
        Grown(old(tab[..]), tab[..], entries, Entry(idx, dval));
      } else {
        tab[2 * j + 1] := idx;
        tab[2 * j + 2] := dval;
        Filled(old(tab[..]), tab[..], entries, Entry(idx, dval));
      }
      entries := entries + [Entry(idx, dval)];
    }

    method AddDelay(idx: int, dval: int, fixedDelay: bool)
      requires Valid() && idx != UNUSED
      modifies this, tab
      ensures Valid() && (tab == old(tab) || fresh(tab))
      ensures if fixedDelay then val == dval && entries == old(entries)
              else val == old(val) && entries == AddTo(old(entries), idx, dval)
    {
      if fixedDelay {
        val := dval;
        return;
      }
      var i, found := Place(idx);
      if found {
        if tab[2 * i + 2] < dval {
          tab[2 * i + 2] := dval;
          entries := entries[i := Entry(idx, dval)];
        }
      } else {
        Append(i, idx, dval);
      }
    }

    method IncDelay(idx: int, dval: int, fixedDelay: bool)
      requires Valid() && idx != UNUSED
      modifies this, tab
      ensures Valid() && (tab == old(tab) || fresh(tab))
      ensures if fixedDelay then val == dval && entries == old(entries)
              else val == old(val) && entries == IncTo(old(entries), idx, dval)
    {
      if fixedDelay {
        val := dval;
        return;
      }
      var i, found := Place(idx);
      if found {
        tab[2 * i + 2] := tab[2 * i + 2] + dval;
        entries := entries[i := Entry(idx, entries[i].delay + dval)];
      } else {
        Append(i, idx, dval);
      }
    }
  }
}
