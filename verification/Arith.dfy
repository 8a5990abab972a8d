/** Products, quotients and remainders. */
module Arith {

  lemma MulSign(x: int, k: nat)
    ensures x >= 0 ==> x * k >= 0
    ensures x >= 1 ==> x * k >= k
    ensures x <= 0 ==> x * k <= 0
    ensures x <= -1 ==> x * k + k <= 0
  {
    if x >= 1 {
      assert x * k == k + (x - 1) * k;
      assert (x - 1) * k >= 0;
    } else if x <= -1 {
      assert x * k + k == (x + 1) * k;
      assert (x + 1) * k <= 0;
    }
  }

  lemma Distribute(x: int, y: int, k: int)
    ensures (x + y) * k == x * k + y * k
    ensures (x - y) * k == x * k - y * k
    ensures k * (x + y) == k * x + k * y
    ensures k * (x - y) == k * x - k * y
  {
  }

  lemma DivMod(n: int, k: nat)
    requires k >= 1
    ensures n == (n / k) * k + n % k && 0 <= n % k < k
  {
  }

  lemma QuotientNonNegative(n: nat, k: nat)
    requires k >= 1
    ensures n / k >= 0
  {
    DivMod(n, k);
  }

  lemma DivModUnique(n: int, k: nat, q: int, r: int)
    requires k >= 1 && n == q * k + r && 0 <= r < k
    ensures n / k == q && n % k == r
  {
    DivMod(n, k);
    Distribute(q, n / k, k);
    MulSign(q - n / k, k);
  }

  lemma ModMultiple(m: int, k: nat)
    requires k >= 1
    ensures (m * k) % k == 0 && (m * k) / k == m
  {
    DivModUnique(m * k, k, m, 0);
  }

  // Nothing strictly between two neighbouring multiples of k is a multiple of k.
  lemma BetweenMultiples(n: int, k: nat, m: int)
    requires k >= 1 && m * k < n < m * k + k
    ensures n % k != 0
  {
    DivModUnique(n, k, m, n - m * k);
  }

  lemma MulMono(x: int, y: int, k: nat)
    requires x <= y
    ensures x * k <= y * k
  {
    Distribute(y, x, k);
    MulSign(y - x, k);
  }

  lemma MulCancel(a: int, b: int, k: nat)
    requires k >= 1 && k * a <= k * b
    ensures a <= b
  {
    Distribute(b, a, k);
    MulSign(b - a, k);
  }

  lemma MulAssoc(x: int, y: int, z: int)
    ensures x * (y * z) == (x * y) * z
  {
  }

  // What must be added to n to reach a multiple of k.
  function PadSize(n: nat, k: nat): nat
    requires k >= 1
  {
    (k - n % k) % k
  }

  lemma PadSizeLeast(n: nat, k: nat)
    requires k >= 1
    ensures (n + PadSize(n, k)) % k == 0 && PadSize(n, k) < k
    ensures PadSize(n, k) == if n % k == 0 then 0 else k - n % k
  {
    DivMod(n, k);
    if n % k == 0 {
      DivModUnique(k, k, 1, 0);
    } else {
      DivModUnique(k - n % k, k, 0, k - n % k);
      Distribute(n / k, 1, k);
      DivModUnique(n + PadSize(n, k), k, n / k + 1, 0);
    }
  }

  // Floor division by a divisor of either sign, as Python's `//`.
  function FloorDiv(a: int, b: int): int
    requires b != 0
  {
    if b > 0 then a / b else (-a) / (-b)
  }

  function CeilDiv(a: int, b: int): int
    requires b != 0
  {
    -FloorDiv(a, -b)
  }

  // For a positive divisor: the least c with a <= c * b.
  lemma CeilDivLeast(a: int, b: nat)
    requires b >= 1
    ensures (CeilDiv(a, b) - 1) * b < a <= CeilDiv(a, b) * b
  {
    DivMod(-a, b);
    var q := (-a) / b;
    assert CeilDiv(a, b) == -q;
    assert (-q) * b == -(q * b) && (-q - 1) * b == -(q * b) - b;
  }

  // Up to a multiple of b.
  function RoundUp(a: int, b: int): int
    requires b != 0
  {
    FloorDiv(a + b - 1, b) * b
  }

  // For a positive divisor: the least multiple that is not below a.
  lemma RoundUpLeast(a: int, b: nat, m: int)
    requires b >= 1
    ensures a <= RoundUp(a, b) < a + b
    ensures RoundUp(a, b) % b == 0
    ensures m % b == 0 && a <= m ==> RoundUp(a, b) <= m
  {
    DivMod(a + b - 1, b);
    var q := (a + b - 1) / b;
    ModMultiple(q, b);
    if m % b == 0 && a <= m && m < q * b {
      DivMod(m, b);
      Distribute(q, m / b, b);
      MulSign(q - m / b - 1, b);
      Distribute(q - m / b - 1, 1, b);
      MulSign(m / b - q, b);
      assert false;
    }
  }
}
