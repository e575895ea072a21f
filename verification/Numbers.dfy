/** Natural-number and cardinality helpers, shared by every module. */
module Numbers {
  const U64_MAX: nat := 0xFFFF_FFFF_FFFF_FFFF

  /** Subtraction that stops at zero. */
  function SatSub(a: nat, b: nat): nat { if a >= b then a - b else 0 }

  function Min(a: nat, b: nat): nat { if a <= b then a else b }

  function Max(a: nat, b: nat): nat { if a <= b then b else a }

  lemma {:induction false} Fewer<T>(a: set<T>, b: set<T>)
    requires a <= b
    ensures |a| <= |b|
  {
    assert b == a + (b - a);
  }

  lemma {:induction false} Parts<T>(whole: set<T>, a: set<T>, b: set<T>)
    requires whole == a + b && a !! b
    ensures |whole| == |a| + |b|
  {}
}
