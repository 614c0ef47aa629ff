/** Flooring an integer to a multiple of a positive bin width, as `Math.floor(m / b) * b` and `(t // b) * b` do. */
module Bins {

  /** `x` is a multiple of `b`. */
  predicate Aligned(x: int, b: int)
    requires b > 0
  {
    x % b == 0
  }

  /** A multiple of a positive number leaves no remainder. */
  lemma MultipleIsAligned(q: int, b: int)
    requires b > 0
    ensures Aligned(q * b, b)
  {
    var x := q * b;
    var d, r := x / b, x % b;
    assert x == d * b + r && 0 <= r < b;
    assert (q - d) * b == r;
    if q - d >= 1 {
      assert false;
    } else if q - d <= -1 {
      assert false;
    }
  }

  /**
   * Start of the bin of width `b` that holds `m`: the only multiple of `b` that is
   * at most `m` and more than one bin below it.
   */
  function Snap(m: int, b: int): (r: int)
    requires b > 0
    ensures Aligned(r, b) && r <= m < r + b
  {
    MultipleIsAligned(m / b, b);
    (m / b) * b
  }

  /** Snapping a value that is already aligned leaves it unchanged; so snapping is idempotent. */
  lemma SnapAligned(m: int, b: int)
    requires b > 0 && Aligned(m, b)
    ensures Snap(m, b) == m
    ensures Snap(Snap(m, b), b) == Snap(m, b)
  {
    var r := Snap(m, b);
    MultipleIsAligned(m / b, b);
    assert m == (m / b) * b;
    assert 0 <= m - r < b;
    assert (m - r) == (m / b - r / b) * b by {
      MultipleIsAligned(r / b, b);
    }
  }

  /** Snapping is idempotent for every input. */
  lemma SnapIdempotent(m: int, b: int)
    requires b > 0
    ensures Snap(Snap(m, b), b) == Snap(m, b)
  {
    SnapAligned(Snap(m, b), b);
  }
}
