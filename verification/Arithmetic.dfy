/** Facts about division that the solver does not find by itself. */
module Arithmetic {

  lemma {:induction false} DivIs(x: int, p: nat, q: int)
    requires 0 < p && 0 <= x - q * p < p
    ensures x / p == q
  {
    var d := x / p - q;
    assert x == (x / p) * p + x % p;
    assert d * p == (x / p) * p - q * p;
    assert d >= 1 ==> d * p >= p;
    assert d <= -1 ==> d * p <= -1 * p;
  }

  lemma {:induction false} DivShift(x: int, p: nat, k: int)
    requires 0 < p
    ensures (x + p * k) / p == x / p + k
  {
    assert x == (x / p) * p + x % p;
    assert (x / p + k) * p == (x / p) * p + p * k;
    DivIs(x + p * k, p, x / p + k);
  }

  lemma {:induction false} ModShift(x: int, p: nat, k: int)
    requires 0 < p
    ensures (x + p * k) % p == x % p
  {
    DivShift(x, p, k);
    var y := x + p * k;
    assert y == (y / p) * p + y % p && x == (x / p) * p + x % p;
    assert (x / p + k) * p == (x / p) * p + p * k;
  }

  lemma {:induction false} ModIs(j: nat, n: nat, q: nat)
    requires q < n
    ensures (j * n + q) % n == q
  {
    var x := j * n + q;
    DivIs(x, n, j);
    assert x == (x / n) * n + x % n;
  }

  lemma {:induction false} DivBound(x: int, p: nat, t: int)
    requires 0 < p && p * t <= x
    ensures t <= x / p
  {
    var q := x / p;
    assert x == p * q + x % p;
    assert p * t == p * (q + 1) + p * (t - q - 1);
    assert q + 1 <= t ==> 0 <= p * (t - q - 1);
  }
}
