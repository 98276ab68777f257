/** Three-valued logic: 0, 1 and unknown. */
module Logic3 {

  datatype V3 = Zero | One | X

  function Not3(a: V3): V3
  {
    match a case Zero => One case One => Zero case X => X
  }

  function And3(a: V3, b: V3): V3
  {
    match a
    case Zero => Zero
    case One => b
    case X => if b.Zero? then Zero else X
  }

  function Or3(a: V3, b: V3): V3
  {
    match a
    case Zero => b
    case One => One
    case X => if b.One? then One else X
  }

  /** a may turn out to be b. */
  predicate Refines(a: V3, b: V3)
  {
    a.X? || a == b
  }

  /** b is 0 or 1, and a may turn out to be b. */
  predicate Known(a: V3, b: V3)
  {
    !b.X? && Refines(a, b)
  }

  function OfBool(b: bool): V3 { if b then One else Zero }

  /**
   The tables are exact: an operation gives 0 or 1 if and only if the two-valued operation does so however its unknown
   arguments turn out.
   */
  lemma TablesExact(a: V3, b: V3, v: V3)
    requires !v.X?
    ensures And3(a, b) == v <==> forall a', b' | Known(a, a') && Known(b, b') :: OfBool(a'.One? && b'.One?) == v
    ensures Or3(a, b) == v <==> forall a', b' | Known(a, a') && Known(b, b') :: OfBool(a'.One? || b'.One?) == v
    ensures Not3(a) == v <==> forall a' | Known(a, a') :: OfBool(!a'.One?) == v
  {
    assert Known(a, if a.X? then Zero else a) && Known(a, if a.X? then One else a);
    assert Known(b, if b.X? then Zero else b) && Known(b, if b.X? then One else b);
  }
}
