/** Words as numbers: the bitwise or, and clearing a field. */
module BitWords {

  function Pow2(k: nat): (p: nat)
    ensures p > 0
  {
    if k == 0 then 1 else 2 * Pow2(k - 1)
  }

  /** Bit by bit, from the lowest. */
  function BitOr(a: nat, b: nat): nat {
    if a == 0 && b == 0 then 0 else (if a % 2 == 1 || b % 2 == 1 then 1 else 0) + 2 * BitOr(a / 2, b / 2)
  }

  /** A word with the field of `size` values at unit `unit` set to zero, as by and-ing with the inverted mask. */
  function Clear(h: nat, unit: nat, size: nat): nat
    requires unit > 0 && size > 0
  {
    h % unit + unit * (size * (h / unit / size))
  }

  lemma {:induction false} OrZero(a: nat)
    ensures BitOr(a, 0) == a && BitOr(0, a) == a
  {
    if a > 0 {
      OrZero(a / 2);
    }
  }

  lemma OrStep(a: nat, b: nat)
    ensures BitOr(a, b) == (if a % 2 == 1 || b % 2 == 1 then 1 else 0) + 2 * BitOr(a / 2, b / 2)
  {
  }

  lemma Halves(x: nat, q: nat)
    ensures (x + 2 * q) / 2 == x / 2 + q && (x + 2 * q) % 2 == x % 2
  {
  }

  lemma Twice(p: nat, y: nat)
    ensures 2 * p * y == 2 * (p * y)
  {
  }

  lemma OrDouble(x: nat, u: nat, q: nat, r: nat, o: nat, q2: nat, r2: nat, o2: nat)
    requires BitOr(x / 2 + q, u / 2 + r) == BitOr(x / 2, u / 2) + o && q2 == 2 * q && r2 == 2 * r && o2 == 2 * o
    ensures BitOr(x + q2, u + r2) == BitOr(x, u) + o2
  {
    Halves(x, q);
    Halves(u, r);
    OrStep(x + 2 * q, u + 2 * r);
    OrStep(x, u);
  }

  /** Shift left by k bits. */
  function Shl(k: nat, y: nat): nat {
    Pow2(k) * y
  }

  lemma Doubled(k: nat, y: nat)
    requires k > 0
    ensures Shl(k, y) == 2 * Shl(k - 1, y)
  {
    Twice(Pow2(k - 1), y);
  }

  /** The or of two words is the or of their low and of their high parts. */
  lemma {:induction false} OrSplit(k: nat, x: nat, y: nat, u: nat, w: nat)
    requires x < Pow2(k) && u < Pow2(k)
    ensures BitOr(x + Shl(k, y), u + Shl(k, w)) == BitOr(x, u) + Shl(k, BitOr(y, w))
  {
    if k == 0 {
      assert x == 0 && u == 0 && BitOr(0, 0) == 0;
      assert Shl(0, y) == y && Shl(0, w) == w && Shl(0, BitOr(y, w)) == BitOr(y, w);
    } else {
      var o := BitOr(y, w);
      OrSplit(k - 1, x / 2, y, u / 2, w);
      Doubled(k, y);
      Doubled(k, w);
      Doubled(k, o);
      OrDouble(x, u, Shl(k - 1, y), Shl(k - 1, w), Shl(k - 1, o), Shl(k, y), Shl(k, w), Shl(k, o));
    }
  }

  /** Or-ing a shifted value leaves the bits below it alone. */
  lemma OrAbove(k: nat, p: nat, low: nat, y: nat, w: nat)
    requires p == Pow2(k) && low < p
    ensures BitOr(low + p * y, p * w) == low + p * BitOr(y, w)
  {
    assert Shl(k, y) == p * y && Shl(k, w) == p * w && Shl(k, BitOr(y, w)) == p * BitOr(y, w);
    OrSplit(k, low, y, 0, w);
    OrZero(low);
  }

  /** Or-ing into cleared bits puts the value there. */
  lemma OrBelow(k: nat, p: nat, y: nat, v: nat, w: nat)
    requires p == Pow2(k) && v < p
    ensures BitOr(p * y, v + p * w) == v + p * BitOr(y, w)
  {
    assert Shl(k, y) == p * y && Shl(k, w) == p * w && Shl(k, BitOr(y, w)) == p * BitOr(y, w);
    OrSplit(k, 0, y, v, w);
    OrZero(v);
  }

  /** The or of two words stays within their width. */
  lemma {:induction false} OrBound(k: nat, a: nat, b: nat)
    requires a < Pow2(k) && b < Pow2(k)
    ensures BitOr(a, b) < Pow2(k)
  {
    if k > 0 {
      OrBound(k - 1, a / 2, b / 2);
      OrStep(a, b);
    }
  }

  lemma {:induction false} PowAdd(a: nat, b: nat)
    ensures Pow2(a + b) == Pow2(a) * Pow2(b)
  {
    if a > 0 {
      PowAdd(a - 1, b);
      assert 2 * (Pow2(a - 1) * Pow2(b)) == 2 * Pow2(a - 1) * Pow2(b);
    }
  }

  lemma Powers()
    ensures Pow2(1) == 2 && Pow2(15) == 0x8000 && Pow2(26) == 0x400_0000 && Pow2(27) == 0x800_0000
      && Pow2(37) == 0x20_0000_0000
  {
    assert Pow2(5) == 32;
    PowAdd(5, 5);
    PowAdd(10, 5);
    PowAdd(10, 10);
    PowAdd(20, 5);
    PowAdd(25, 1);
    PowAdd(26, 1);
    PowAdd(27, 10);
  }
}
