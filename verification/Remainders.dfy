/** Division with rest, as far as the seasonal forecasts need it. */
module Remainders {

  lemma AtLeastOnce(d: int, n: nat)
    ensures d >= 1 ==> d * n >= n
    ensures d <= -1 ==> d * n + n <= 0
  {
    if d >= 1 {
      assert d * n == (d - 1) * n + n && (d - 1) * n >= 0;
    }
    if d <= -1 {
      assert d * n == (d + 1) * n - n && (-d - 1) * n >= 0;
    }
  }

  lemma Distribute(a: int, b: int, n: int)
    ensures (a - b) * n == a * n - b * n
  {
  }

  /** Any division with rest gives the remainder. */
  lemma RemainderIs(a: nat, q: int, r: nat, n: nat)
    requires n > 0 && a == q * n + r && r < n
    ensures a % n == r
  {
    assert a == (a / n) * n + a % n;
    Distribute(a / n, q, n);
    AtLeastOnce(a / n - q, n);
  }

  lemma AddingDivisor(a: nat, n: nat)
    requires n > 0
    ensures (a + n) % n == a % n
  {
    assert (a / n + 1) * n == (a / n) * n + n;
    RemainderIs(a + n, a / n + 1, a % n, n);
  }

  lemma NoRemainder(a: nat, n: nat) returns (q: nat)
    requires n > 0 && a % n == 0
    ensures a == q * n
  {
    q := a / n;
  }
}
