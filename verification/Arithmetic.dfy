/** Quotients, remainders and minima. */
module Arithmetic {

  function Least(a: nat, b: nat): nat {
    if a <= b then a else b
  }

  lemma {:induction false} PositiveMultiple(n: nat, d: nat)
    requires n > 0 && d > 0
    ensures n * d >= n
    decreases d
  {
    if d > 1 {
      PositiveMultiple(n, d - 1);
    }
  }

  lemma NonzeroMultiple(n: nat, d: int)
    requires n > 0
    ensures d > 0 ==> n * d >= n
    ensures d < 0 ==> n * d + n <= 0
  {
    if d > 0 {
      PositiveMultiple(n, d);
    } else if d < 0 {
      PositiveMultiple(n, -d);
    }
  }

  lemma ModUnique(x: int, n: nat, q: int, r: nat)
    requires r < n && x == n * q + r
    ensures x / n == q && x % n == r
  {
    var d := x / n - q;
    assert n * d == n * (x / n) - n * q == r - x % n;
    NonzeroMultiple(n, d);
  }

  /** One turn later: the same remainder, one more in the quotient. */
  lemma NextTurn(k: int, n: nat)
    requires n > 0
    ensures (k + n) / n == k / n + 1 && (k + n) % n == k % n
  {
    ModUnique(k + n, n, k / n + 1, k % n);
  }
}
