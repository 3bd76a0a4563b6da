/** Facts about products and remainders that the ring's slots and the writer's blocks rely on. */
module Arith {

  lemma MulSign(d: int, n: nat)
    ensures d >= 1 ==> d * n >= n
    ensures d <= -1 ==> d * n <= -(n as int)
  {
    assert (d - 1) * n == d * n - n && (d + 1) * n == d * n + n;
    if d >= 1 { assert (d - 1) * n >= 0; }
    if d <= -1 { assert (d + 1) * n <= 0; }
  }

  lemma MulMod(q: nat, b: nat)
    requires b > 0
    ensures (q * b) % b == 0
  {
    var d := q * b / b - q;
    assert d * b == -((q * b) % b);
    MulSign(d, b);
  }

  lemma SumMod(a: nat, b: nat, n: nat)
    requires n > 0 && a % n == 0 && b % n == 0
    ensures (a + b) % n == 0
  {
    assert a + b == (a / n + b / n) * n;
    MulMod(a / n + b / n, n);
  }
}
