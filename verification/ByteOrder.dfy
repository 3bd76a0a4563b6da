/** Bytes, and numbers stored least significant byte first. */
module ByteOrder {

  type Byte = x: int | 0 <= x < 256

  const WORD: nat := 0x1_0000_0000_0000_0000

  function Load(b: seq<Byte>): nat {
    if b == [] then 0 else b[0] as int + 0x100 * Load(b[1..])
  }

  function Store(h: nat, n: nat): (b: seq<Byte>)
    ensures |b| == n
  {
    if n == 0 then [] else [h % 0x100] + Store(h / 0x100, n - 1)
  }

  function Limit(n: nat): nat {
    if n == 0 then 1 else 0x100 * Limit(n - 1)
  }

  lemma {:induction false} StoreLoad(h: nat, n: nat)
    requires h < Limit(n)
    ensures Load(Store(h, n)) == h
  {
    if n > 0 {
      StoreLoad(h / 0x100, n - 1);
      assert Store(h, n)[1..] == Store(h / 0x100, n - 1);
    }
  }

  lemma WordBytes()
    ensures Limit(8) == WORD
  {
    assert Limit(2) == 0x1_0000 && Limit(4) == 0x1_0000_0000 && Limit(6) == 0x1_0000_0000_0000;
  }
}
