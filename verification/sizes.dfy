/**
 * A quantity matrix: the per-size counts of one order line, a JSON object
 * such as {"S": 10, "M": 5}. Kept as its (size, count) entries in insertion
 * order; every copy of the order totals sums its counts.
 */
module Sizes {

  type QuantityMatrix = seq<(string, int)>

  /** `sum(matrix.values())`. */
  function TotalQty(m: QuantityMatrix): int
    decreases |m|
  {
    if m == [] then 0 else TotalQty(m[..|m| - 1]) + m[|m| - 1].1
  }

  /** The sum is taken entry by entry, so two matrices glued together add up. */
  lemma {:induction false} TotalQtyAppend(a: QuantityMatrix, b: QuantityMatrix)
    ensures TotalQty(a + b) == TotalQty(a) + TotalQty(b)
    decreases |b|
  {
    if b != [] {
      assert (a + b)[..|a + b| - 1] == a + b[..|b| - 1];
      TotalQtyAppend(a, b[..|b| - 1]);
    } else {
      assert a + b == a;
    }
  }

  /** A matrix whose counts are all non-negative has a non-negative total. */
  lemma {:induction false} TotalQtyNonNegative(m: QuantityMatrix)
    requires forall i :: 0 <= i < |m| ==> m[i].1 >= 0
    ensures TotalQty(m) >= 0
    decreases |m|
  {
    if m != [] {
      TotalQtyNonNegative(m[..|m| - 1]);
    }
  }
}
