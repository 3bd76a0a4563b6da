/** The packed 64-bit message header and piece header, read as numbers: a field of a given mask and offset is a quotient
    and a remainder. */
module MessageHeader {
  import opened BitWords
  import opened ByteOrder

  // ----- message header -----

  /** Source 7 bits at 57, destination 7 at 50, worker 8 at 42, count 15 at 27, length 26 at 1, replica flag 1 at 0. */
  datatype Header = Header(source: nat, dest: nat, worker: nat, count: nat, length: nat, replica: nat)

  const MAX_LENGTH: nat := 0x400_0000

  predicate Fits(x: Header) {
    x.source < 0x80 && x.dest < 0x80 && x.worker < 0x100 && x.count < 0x8000 && x.length < 0x400_0000 && x.replica < 2
  }

  function Unpack(h: nat): Header {
    var a := h / 2;
    var b := a / 0x400_0000;
    var c := b / 0x8000;
    var d := c / 0x100;
    Header(d / 0x80 % 0x80, d % 0x80, c % 0x100, b % 0x8000, a % 0x400_0000, h % 2)
  }

  function Pack(x: Header): nat {
    x.replica + 2 * (x.length + 0x400_0000 * (x.count + 0x8000 * (x.worker + 0x100 * (x.dest + 0x80 * x.source))))
  }

  lemma UnpackPack(x: Header)
    requires Fits(x)
    ensures Pack(x) < WORD && Unpack(Pack(x)) == x
  {
    var d := x.dest + 0x80 * x.source;
    var c := x.worker + 0x100 * d;
    var b := x.count + 0x8000 * c;
    var a := x.length + 0x400_0000 * b;
    assert Pack(x) / 2 == a && a / 0x400_0000 == b && b / 0x8000 == c && c / 0x100 == d && d / 0x80 == x.source;
  }

  // ----- the setters: clear a field of the word, then or the shifted value in -----

  function SetLength(h: nat, v: nat): nat {
    BitOr(Clear(h, 2, 0x400_0000), v * 2)
  }

  function SetCount(h: nat, v: nat): nat {
    BitOr(Clear(h, 0x800_0000, 0x8000), v * 0x800_0000)
  }

  /** The replica flag is or-ed in after clearing the field of the source node. */
  function SetReplica(h: nat, v: nat): nat {
    BitOr(Clear(h, 0x200_0000_0000_0000, 0x80), v)
  }

  /** The word around the length field: the flag below it, and everything above it. */
  lemma LengthParts(h: nat, v: nat)
    requires h < WORD
    ensures var rest := h / 2 / 0x400_0000;
            rest < 0x20_0000_0000
              && SetLength(h, v) == h % 2 + 2 * (v % 0x400_0000 + 0x400_0000 * BitOr(rest, v / 0x400_0000))
  {
    var a := h / 2;
    var rest := a / 0x400_0000;
    assert h == h % 2 + 2 * a && a == a % 0x400_0000 + 0x400_0000 * rest
      && v == v % 0x400_0000 + 0x400_0000 * (v / 0x400_0000);
    assert Clear(h, 2, 0x400_0000) == h % 2 + 2 * (0x400_0000 * rest);
    Powers();
    OrAbove(1, 2, h % 2, 0x400_0000 * rest, v);
    OrBelow(26, 0x400_0000, rest, v % 0x400_0000, v / 0x400_0000);
  }

  lemma UnpackParts(low: nat, length: nat, rest: nat, h: nat)
    requires low < 2 && length < 0x400_0000 && h == low + 2 * (length + 0x400_0000 * rest)
    ensures h % 2 == low && h / 2 % 0x400_0000 == length && h / 2 / 0x400_0000 == rest
  {
  }

  /** Exactly the lengths below 2^26 come back from the header and leave every other field as it was. */
  lemma LengthRoundTrip(h: nat, v: nat)
    requires h < WORD && v < 0x800_0000
    ensures SetLength(h, v) < WORD
    ensures Unpack(SetLength(h, v)) == Unpack(h).(length := v) <==> v < 0x400_0000
    ensures Unpack(SetLength(h, v)).length == v <==> v < 0x400_0000
  {
    var rest := h / 2 / 0x400_0000;
    LengthParts(h, v);
    var rest2 := BitOr(rest, v / 0x400_0000);
    UnpackParts(h % 2, v % 0x400_0000, rest2, SetLength(h, v));
    Powers();
    OrBound(37, rest, v / 0x400_0000);
    if v < 0x400_0000 { OrZero(rest); }
  }

  lemma CountOr(low: nat, hi: nat, v: nat)
    requires low < 0x800_0000 && v < 0x8000
    ensures BitOr(low + 0x800_0000 * (0x8000 * hi), v * 0x800_0000) == low + 0x800_0000 * (v + 0x8000 * hi)
  {
    Powers();
    OrAbove(27, 0x800_0000, low, 0x8000 * hi, v);
    OrBelow(15, 0x8000, hi, v, 0);
    OrZero(hi);
  }

  lemma CountParts(h: nat, v: nat)
    requires v < 0x8000
    ensures SetCount(h, v) == h % 2
      + 2 * (h / 2 % 0x400_0000 + 0x400_0000 * (v + 0x8000 * (h / 2 / 0x400_0000 / 0x8000)))
  {
    var low, a := h % 2 + 2 * (h / 2 % 0x400_0000), h / 2 / 0x400_0000;
    Aligned(h, low, a);
    CountOr(low, a / 0x8000, v);
  }

  lemma Aligned(h: nat, low: nat, a: nat)
    requires low < 0x800_0000 && h == low + 0x800_0000 * a
    ensures Clear(h, 0x800_0000, 0x8000) == low + 0x800_0000 * (0x8000 * (a / 0x8000))
  {
    assert h / 0x800_0000 == a;
  }

  lemma CountRoundTrip(h: nat, v: nat)
    requires h < WORD && v < 0x8000
    ensures SetCount(h, v) < WORD && Unpack(SetCount(h, v)) == Unpack(h).(count := v)
  {
    CountParts(h, v);
    var hi := h / 2 / 0x400_0000 / 0x8000;
    UnpackParts(h % 2, h / 2 % 0x400_0000, v + 0x8000 * hi, SetCount(h, v));
    SameAbove(h, SetCount(h, v), v, hi);
    CountLimit(h % 2, h / 2 % 0x400_0000, v, hi);
  }

  lemma SameAbove(h: nat, t: nat, v: nat, hi: nat)
    requires t % 2 == h % 2 && t / 2 % 0x400_0000 == h / 2 % 0x400_0000 && v < 0x8000
    requires t / 2 / 0x400_0000 == v + 0x8000 * hi && hi == h / 2 / 0x400_0000 / 0x8000
    ensures Unpack(t) == Unpack(h).(count := v)
  {
    assert (v + 0x8000 * hi) % 0x8000 == v && (v + 0x8000 * hi) / 0x8000 == hi;
  }

  lemma CountLimit(low: nat, length: nat, v: nat, hi: nat)
    requires low < 2 && length < 0x400_0000 && v < 0x8000 && hi < 0x40_0000
    ensures low + 2 * (length + 0x400_0000 * (v + 0x8000 * hi)) < WORD
  {
  }

  lemma ReplicaParts(h: nat, v: nat)
    requires h < WORD && v < 2
    ensures var low := h % 0x200_0000_0000_0000; SetReplica(h, v) == (if v == 1 then 1 else low % 2) + 2 * (low / 2)
  {
    var low := h % 0x200_0000_0000_0000;
    assert h / 0x200_0000_0000_0000 < 0x80;
    assert h / 0x200_0000_0000_0000 / 0x80 == 0;
    OrStep(low, v);
    OrZero(low / 2);
  }

  /** Setting the replica flag leaves the source node readable exactly if that was node 0, and the flag reads back
      exactly if it was being set or had not been set before; the other four fields stay. */
  lemma ReplicaForgetsSource(h: nat, v: nat)
    requires h < WORD && v < 2
    ensures var x, y := Unpack(h), Unpack(SetReplica(h, v));
            && SetReplica(h, v) < WORD
            && (y.source == x.source <==> x.source == 0) && (y.replica == v <==> v == 1 || x.replica == 0)
            && y.dest == x.dest && y.worker == x.worker && y.count == x.count && y.length == x.length
  {
    ReplicaParts(h, v);
    var low, t := h % 0x200_0000_0000_0000, SetReplica(h, v);
    SameHalf(t, low);
    LowFields(h, low);
  }

  lemma SameHalf(t: nat, low: nat)
    requires t == t % 2 + 2 * (low / 2)
    ensures Unpack(t) == Unpack(low).(replica := t % 2)
  {
    assert t / 2 == low / 2;
  }

  lemma Peel2(x: nat, q: nat)
    ensures (x + 2 * q) / 2 == x / 2 + q && (x + 2 * q) % 2 == x % 2
  {
  }

  lemma Peel26(x: nat, q: nat)
    ensures (x + 0x400_0000 * q) / 0x400_0000 == x / 0x400_0000 + q
      && (x + 0x400_0000 * q) % 0x400_0000 == x % 0x400_0000
  {
  }

  lemma Peel15(x: nat, q: nat)
    ensures (x + 0x8000 * q) / 0x8000 == x / 0x8000 + q && (x + 0x8000 * q) % 0x8000 == x % 0x8000
  {
  }

  lemma Peel8(x: nat, q: nat)
    ensures (x + 0x100 * q) / 0x100 == x / 0x100 + q && (x + 0x100 * q) % 0x100 == x % 0x100
  {
  }

  lemma Peel7(x: nat, q: nat)
    requires x < 0x80
    ensures (x + 0x80 * q) % 0x80 == x && x / 0x80 == 0
  {
  }

  /** Each field is taken from a quotient; a source on top adds a multiple of the field's size to it. */
  lemma Quotients(low: nat, src: nat, h: nat)
    requires h == low + 2 * (0x100_0000_0000_0000 * src)
    ensures h % 2 == low % 2 && h / 2 == low / 2 + 0x400_0000 * (0x4000_0000 * src)
    ensures h / 2 % 0x400_0000 == low / 2 % 0x400_0000
      && h / 2 / 0x400_0000 == low / 2 / 0x400_0000 + 0x8000 * (0x8000 * src)
  {
    Peel2(low, 0x100_0000_0000_0000 * src);
    Peel26(low / 2, 0x4000_0000 * src);
  }

  lemma HighQuotients(b: nat, src: nat, bh: nat)
    requires b < 0x4000_0000 && bh == b + 0x8000 * (0x8000 * src)
    ensures bh % 0x8000 == b % 0x8000 && bh / 0x8000 % 0x100 == b / 0x8000 % 0x100
    ensures bh / 0x8000 / 0x100 % 0x80 == b / 0x8000 / 0x100 && b / 0x8000 / 0x100 / 0x80 == 0
  {
    Peel15(b, 0x8000 * src);
    Peel8(b / 0x8000, 0x80 * src);
    Peel7(b / 0x8000 / 0x100, src);
  }

  /** The five fields below the source do not depend on it. */
  lemma LowFields(h: nat, low: nat)
    requires h < WORD && low == h % 0x200_0000_0000_0000
    ensures var x, y := Unpack(h), Unpack(low);
            y.source == 0 && y.dest == x.dest && y.worker == x.worker && y.count == x.count && y.length == x.length
              && y.replica == x.replica
  {
    var src := h / 0x200_0000_0000_0000;
    Quotients(low, src, h);
    HighQuotients(low / 2 / 0x400_0000, src, h / 2 / 0x400_0000);
  }

  // ----- piece header -----

  /** Type 7 bits at 57, length 22 at 35, table 5 at 30, granule 18 at 12, partition 12 at 0. */
  datatype PieceHeader = PieceHeader(kind: nat, length: nat, table: nat, granule: nat, partition: nat)

  predicate PieceFits(x: PieceHeader) {
    x.kind < 0x80 && x.length < 0x40_0000 && x.table < 0x20 && x.granule < 0x4_0000 && x.partition < 0x1000
  }

  function PackPiece(x: PieceHeader): nat {
    x.partition + 0x1000 * (x.granule + 0x4_0000 * (x.table + 0x20 * (x.length + 0x40_0000 * x.kind)))
  }

  function UnpackPiece(h: nat): PieceHeader {
    var a := h / 0x1000;
    var b := a / 0x4_0000;
    var c := b / 0x20;
    PieceHeader(c / 0x40_0000 % 0x80, c % 0x40_0000, b % 0x20, a % 0x4_0000, h % 0x1000)
  }

  lemma PieceRoundTrip(x: PieceHeader)
    requires PieceFits(x)
    ensures PackPiece(x) < WORD && UnpackPiece(PackPiece(x)) == x
  {
    var c := x.length + 0x40_0000 * x.kind;
    var b := x.table + 0x20 * c;
    var a := x.granule + 0x4_0000 * b;
    assert PackPiece(x) / 0x1000 == a && a / 0x4_0000 == b && b / 0x20 == c && c / 0x40_0000 == x.kind;
  }
}
