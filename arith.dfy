/** Facts about `%` that the index arithmetic of the pages relies on. */
module Arithmetic {
  lemma {:induction false} MulAtLeast(d: int, n: int)
    requires d >= 1 && n > 0
    ensures d * n >= n
    decreases d
  {
    if d > 1 {
      MulAtLeast(d - 1, n);
      assert d * n == (d - 1) * n + n;
    }
  }

  /** The remainder is the unique `r` in `[0, n)` with `x == q * n + r`. */
  lemma ModUnique(x: int, n: int, q: int, r: int)
    requires n > 0 && 0 <= r < n && x == q * n + r
    ensures x % n == r && x / n == q
  {
    var q', r' := x / n, x % n;
    assert (q' - q) * n == r - r' by {
      assert q' * n + r' == q * n + r;
    }
    if q' - q > 0 {
      MulAtLeast(q' - q, n);
    } else if q' - q < 0 {
      MulAtLeast(q - q', n);
    }
  }

  lemma ModShift(x: nat, n: nat)
    requires n > 0
    ensures (x + n) % n == x % n
  {
    ModUnique(x + n, n, x / n + 1, x % n);
  }

  lemma ModAddMod(a: nat, b: nat, n: nat)
    requires n > 0
    ensures ((a % n) + b) % n == (a + b) % n
  {
    ModUnique(a + b, n, a / n + (a % n + b) / n, (a % n + b) % n);
  }
}
