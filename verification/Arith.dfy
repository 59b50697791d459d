/** Facts about `/` and `%` that hold for every divisor. */
module Arith {

  lemma MulAtLeast(a: int, c: int)
    requires 0 <= c
    ensures a >= 1 ==> a * c >= c
    ensures a <= -1 ==> a * c <= -c
  {
  }

  lemma ModUnique(x: int, c: nat, q: int, r: nat)
    requires 0 < c && x == q * c + r && r < c
    ensures x % c == r
  {
    var d, m := x / c, x % c;
    assert (d - q) * c == r - m;
    MulAtLeast(d - q, c);
  }

  /** Adding to a residue of less than two turns. */
  lemma ModAdd(a: int, b: nat, c: nat)
    requires 0 < c && b <= c
    ensures (a + b) % c == if a % c + b < c then a % c + b else a % c + b - c
  {
    var q, r := a / c, a % c;
    if r + b < c {
      ModUnique(a + b, c, q, r + b);
    } else if r + b < 2 * c {
      assert a + b == (q + 1) * c + (r + b - c);
      ModUnique(a + b, c, q + 1, r + b - c);
    }
  }

  /** Wrapping at a multiple of the divisor does not change the remainder. */
  lemma ModOfMod(x: int, m: nat, c: nat)
    requires 0 < c && 0 < m && m % c == 0
    ensures (x % m) % c == x % c
  {
    var q, k, r := x / m, m / c, (x % m) % c;
    var d := (x % m) / c;
    assert x == q * m + x % m;
    assert m == k * c;
    calc {
      x;
      q * (k * c) + (d * c + r);
      (q * k + d) * c + r;
    }
    ModUnique(x, c, q * k + d, r);
  }
}
