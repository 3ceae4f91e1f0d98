/** Free-running counters that wrap modulo m, used as indices into a ring of n slots, where n
    divides m: the arithmetic behind the pipe's and the virtqueue's counters. */
module WrapArith {

  lemma SmallMultiple(m: int, d: int)
    requires 0 < m && -m < m * d < m
    ensures d == 0
  {
  }

  lemma DivModUnique(x: nat, n: nat, q: int, r: nat)
    requires r < n && x == n * q + r
    ensures x / n == q && x % n == r
  {
    assert x == n * (x / n) + x % n;
    assert n * (q - x / n) == x % n - r;
    SmallMultiple(n, q - x / n);
  }

  lemma ModAddMultiple(x: nat, n: nat, k: nat)
    requires n > 0
    ensures (x + n * k) % n == x % n
  {
    assert x == n * (x / n) + x % n;
    assert x + n * k == n * (x / n + k) + x % n;
    DivModUnique(x + n * k, n, x / n + k, x % n);
  }

  /** A wrapped counter indexes the ring as the unwrapped one would. */
  lemma WrapIndex(x: nat, n: nat, q: nat)
    requires n > 0 && q > 0
    ensures n * q > 0 && (x % (n * q)) % n == x % n
  {
    var m := n * q;
    assert x == m * (x / m) + x % m;
    assert m * (x / m) == n * (q * (x / m));
    ModAddMultiple(x % m, n, q * (x / m));
  }

  /** Two counters at most m-1 apart agree modulo m only if they are equal. */
  lemma WrapEqual(a: nat, b: nat, m: nat)
    requires a <= b < a + m
    ensures a % m == b % m <==> a == b
  {
    if a % m == b % m {
      assert a == m * (a / m) + a % m && b == m * (b / m) + b % m;
      assert b - a == m * (b / m - a / m);
      SmallMultiple(m, b / m - a / m);
    }
  }

  lemma WrapAdd(x: nat, k: nat, m: nat)
    requires m > 0
    ensures (x % m + k) % m == (x + k) % m
  {
    assert x == m * (x / m) + x % m;
    assert x + k == (x % m + k) + m * (x / m);
    ModAddMultiple(x % m + k, m, x / m);
  }

  /** Positions of two different live entries of a ring differ. */
  lemma WrapDistinct(a: nat, b: nat, n: nat)
    requires a < b < a + n
    ensures a % n != b % n
  {
    WrapEqual(a, b, n);
  }
}
