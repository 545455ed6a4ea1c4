/**
 * The bracket tables of the tax engine: lists of `(threshold, rate, constant)`
 * rows scanned for the first row whose threshold is at least the amount, the
 * last row's threshold being `float('inf')`.
 */
module Brackets {

  /** A row's upper bound: a finite inclusive limit, or `float('inf')`. */
  datatype Threshold = AtMost(limit: real) | Unbounded

  /** `amount <= threshold`. */
  predicate Within(amount: real, t: Threshold) {
    t.Unbounded? || amount <= t.limit
  }

  /** One row: amounts up to `threshold` are charged `amount * rate + constant`. */
  datatype Band = Band(threshold: Threshold, rate: real, constant: real)

  /** Every scan of the table stops, because the last row admits every amount. */
  predicate EndsUnbounded(table: seq<Band>) {
    |table| > 0 && table[|table| - 1].threshold.Unbounded?
  }

  /** `i` is the row the first-match scan of `table` stops at for `amount`. */
  predicate FirstMatch(table: seq<Band>, amount: real, i: int) {
    && 0 <= i < |table|
    && Within(amount, table[i].threshold)
    && forall j :: 0 <= j < i ==> !Within(amount, table[j].threshold)
  }

  /**
   * The `for threshold, rate, c in table: if amount <= threshold: ...` scan:
   * the index of the first row that admits `amount`.
   */
  method ScanTable(table: seq<Band>, amount: real) returns (i: int)
    requires EndsUnbounded(table)
    ensures FirstMatch(table, amount, i)
  {
    i := 0;
    while !Within(amount, table[i].threshold)
      invariant 0 <= i < |table|
      invariant forall j :: 0 <= j < i ==> !Within(amount, table[j].threshold)
      decreases |table| - i
    {
      i := i + 1;
    }
  }

  /** At most one row is the first match. */
  lemma FirstMatchUnique(table: seq<Band>, amount: real, i: int, k: int)
    requires FirstMatch(table, amount, i) && FirstMatch(table, amount, k)
    ensures i == k
  {
  }
}
