/** Option and Result values used for the source's `None` returns and raised errors. */
module Wrappers {

  datatype Option<+T> = None | Some(value: T) {
    /** The value, or `default` when absent (Python's `dict.get(key, default)`). */
    function GetOr(default: T): T {
      match this
      case Some(v) => v
      case None => default
    }
  }

  datatype Result<+R, +E> = Success(value: R) | Failure(error: E)

  function Max(a: real, b: real): real { if a >= b then a else b }

  function Min(a: real, b: real): real { if a <= b then a else b }

  /** Python's `math.floor` on an exact value, kept as a currency amount. */
  function Floor(x: real): (r: real)
    ensures r <= x < r + 1.0
    ensures r == r.Floor as real
  {
    x.Floor as real
  }

  lemma FloorMonotone(a: real, b: real)
    requires a <= b
    ensures Floor(a) <= Floor(b)
  {
    var m, n := a.Floor, b.Floor;
    assert m as real < (n + 1) as real by {
      assert m as real <= a <= b < n as real + 1.0;
    }
    assert m <= n;
  }

  /** `math.floor` leaves a value with no fractional part where it is. */
  lemma FloorOfWhole(n: int)
    ensures Floor(n as real) == n as real
  {
  }
}
