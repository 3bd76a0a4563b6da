/** The buffered direct-I/O file writer.  `file` is what the device holds: each flush appends the buffered bytes and,
    unless persistence is emulated, stale bytes up to the next block boundary.  `segs` and `durable` are auxiliary: the
    lengths of the flushes and the bytes callers wrote that have reached the device. */
module FileWriter {
  import opened ByteOrder
  import opened Arith
  import opened SeqOps

  function RoundUp(n: nat, multiple: nat): nat {
    if multiple == 0 then n else if n % multiple == 0 then n else n + multiple - n % multiple
  }

  /** The least multiple not below `n`. */
  lemma RoundUpLeast(n: nat, b: nat, m: nat)
    requires b > 0 && n <= m && m % b == 0
    ensures n <= RoundUp(n, b) <= m && RoundUp(n, b) % b == 0 && RoundUp(n, b) < n + b
  {
    if n % b != 0 {
      var q := n / b;
      assert n == q * b + n % b;
      assert RoundUp(n, b) == (q + 1) * b;
      MulMod(q + 1, b);
      var d := m / b - (q + 1);
      assert m == (m / b) * b;
      assert m - RoundUp(n, b) == d * b;
      MulSign(d, b);
    }
  }

  function Occupies(n: nat, block: nat, emulated: bool): nat {
    if emulated then n else RoundUp(n, block)
  }

  /** Reading the flushes back: the first `segs[i]` bytes of each, skipping the padding. */
  function Logical(file: seq<Byte>, segs: seq<nat>, block: nat, emulated: bool): seq<Byte>
    decreases |segs|
  {
    if segs == [] then []
    else
      var last := segs[|segs| - 1];
      var size := Occupies(last, block, emulated);
      if last <= size <= |file|
      then Logical(file[..|file| - size], segs[..|segs| - 1], block, emulated)
        + file[|file| - size..|file| - size + last]
      else []
  }

  lemma LogicalAdd(file: seq<Byte>, segs: seq<nat>, block: nat, emulated: bool, n: nat, io: seq<Byte>)
    requires |io| == Occupies(n, block, emulated) >= n
    ensures Logical(file + io, segs + [n], block, emulated) == Logical(file, segs, block, emulated) + io[..n]
  {
    var f := file + io;
    assert (segs + [n])[..|segs|] == segs && f[..|f| - |io|] == file;
    assert f[|f| - |io|..|f| - |io| + n] == io[..n];
  }

  /** What a writer of a given capacity has on the device and in its buffer. */
  datatype Writer = Writer(durable: seq<Byte>, buffered: seq<Byte>)

  /** Appending: a buffer that would not stay below capacity is topped up and flushed; what is left must fit behind
      it. */
  function Put(w: Writer, capacity: nat, str: seq<Byte>): Option<Writer>
    requires |w.buffered| < capacity
  {
    if |w.buffered| + |str| < capacity then Some(w.(buffered := w.buffered + str))
    else
      var cut := capacity - |w.buffered|;
      if |str| - cut >= capacity then None
      else Some(Writer(w.durable + w.buffered + str[..cut], str[cut..]))
  }

  function Synced(w: Writer): Writer {
    Writer(w.durable + w.buffered, [])
  }

  /** Appending loses and reorders nothing, keeps the buffer below capacity, and only adds to the device. */
  lemma PutAppends(w: Writer, capacity: nat, str: seq<Byte>)
    requires |w.buffered| < capacity
    ensures Put(w, capacity, str).Some? <==> |w.buffered| + |str| < 2 * capacity
    ensures var r := Put(w, capacity, str);
            r.Some? ==>
              r.value.durable + r.value.buffered == w.durable + w.buffered + str
              && |r.value.buffered| < capacity && w.durable <= r.value.durable
  {
    if |w.buffered| + |str| >= capacity {
      var cut := capacity - |w.buffered|;
      assert str == str[..cut] + str[cut..];
    }
  }

  /** A sequence with `str` copied over it at `at`. */
  function Copied(was: seq<Byte>, at: nat, str: seq<Byte>): (r: seq<Byte>)
    requires at + |str| <= |was|
    ensures |r| == |was| && r[..at + |str|] == was[..at] + str
  {
    var r := was[..at] + str + was[at + |str|..];
    assert r[..at + |str|] == was[..at] + str;
    r
  }

  lemma CopyNext(was: seq<Byte>, at: nat, str: seq<Byte>, i: nat)
    requires at + |str| <= |was| && i < |str|
    ensures Copied(was, at, str[..i])[at + i := str[i]] == Copied(was, at, str[..i + 1])
  {
    var a, b := Copied(was, at, str[..i])[at + i := str[i]], Copied(was, at, str[..i + 1]);
    assert str[..i + 1] == str[..i] + [str[i]];
    assert |a| == |b| && forall k :: 0 <= k < |a| ==> a[k] == b[k];
  }

  class BufferedDirectFileWriter {
    const blockSize: nat
    const emulated: bool
    const buffer: array<Byte>
    var bytesTotal: nat
    var file: seq<Byte>
    ghost var segs: seq<nat>
    ghost var durable: seq<Byte>

    ghost predicate Valid()
      reads this, buffer
    {
      Ready() && bytesTotal < buffer.Length
    }

    ghost predicate Ready()
      reads this
    {
      && blockSize > 0 && buffer.Length > 0 && buffer.Length % blockSize == 0
      && durable == Logical(file, segs, blockSize, emulated)
      && (!emulated ==> |file| % blockSize == 0)
    }

    ghost function W(): Writer
      reads this, buffer
      requires Valid()
    {
      Writer(durable, buffer[..bytesTotal])
    }

    constructor (capacity: nat, block: nat, latency: bool)
      requires block > 0 && capacity > 0 && capacity % block == 0
      ensures Valid() && W() == Writer([], []) && buffer.Length == capacity && fresh(buffer) && blockSize == block
        && emulated == latency
    {
      blockSize, emulated := block, latency;
      buffer := new Byte[capacity];
      bytesTotal, file, segs, durable := 0, [], [], [];
    }

    /** memcpy into the buffer. */
    method Fill(at: nat, str: seq<Byte>)
      requires at + |str| <= buffer.Length
      modifies buffer
      ensures buffer[..] == Copied(old(buffer[..]), at, str)
    {
      ghost var was := buffer[..];
      for i := 0 to |str|
        invariant buffer[..] == Copied(was, at, str[..i])
      {
        buffer[at + i] := str[i];
        CopyNext(was, at, str, i);
      }
      assert str[..|str|] == str;
    }

    /** The block-sized write of the first `n` buffered bytes. */
    method WriteOut(n: nat)
      requires 0 < n <= buffer.Length && Ready()
      modifies this`file, this`segs, this`durable
      ensures Ready() && durable == old(durable) + buffer[..n]
    {
      var ioSize := if emulated then n else RoundUp(n, blockSize);
      IoFits(n, blockSize, buffer.Length, emulated, |file|);
      LogicalAdd(file, segs, blockSize, emulated, n, buffer[..ioSize]);
      assert buffer[..ioSize][..n] == buffer[..n];
      file, segs := file + buffer[..ioSize], segs + [n];
      durable := durable + buffer[..n];
    }

    method Flush() returns (s: nat)
      requires bytesTotal <= buffer.Length && Ready()
      modifies this
      ensures Valid() && bytesTotal == 0 && s == old(bytesTotal)
      ensures durable == old(durable) + old(buffer[..bytesTotal])
    {
      s := bytesTotal;
      if bytesTotal > 0 {
        WriteOut(bytesTotal);
      }
      bytesTotal := 0;
    }

    method Append(str: seq<Byte>)
      requires Valid() && bytesTotal + |str| < buffer.Length
      modifies this`bytesTotal, buffer
      ensures Valid() && W() == old(W()).(buffered := old(W()).buffered + str)
    {
      Fill(bytesTotal, str);
      bytesTotal := bytesTotal + |str|;
      assert buffer[..bytesTotal] == buffer[..][..bytesTotal];
    }

    /** Fill the buffer up and flush it. */
    method TopUp(str: seq<Byte>)
      requires Valid() && bytesTotal + |str| == buffer.Length
      modifies this, buffer
      ensures Valid() && bytesTotal == 0 && durable == old(durable) + old(buffer[..bytesTotal]) + str
    {
      Fill(bytesTotal, str);
      bytesTotal := bytesTotal + |str|;
      assert buffer[..bytesTotal] == buffer[..][..bytesTotal];
      var _ := Flush();
    }

    /** Append bytes; false stands for the failed check on a write that does not fit behind one flush. */
    method Write(str: seq<Byte>) returns (ok: bool)
      requires Valid()
      modifies this, buffer
      ensures Valid() && Put(old(W()), buffer.Length, str) == if ok then Some(W()) else None
    {
      ghost var w := W();
      if bytesTotal + |str| < buffer.Length {
        Append(str);
        return true;
      }
      var copySize := buffer.Length - bytesTotal;
      TopUp(str[..copySize]);
      assert W() == Writer(w.durable + w.buffered + str[..copySize], []);
      ok := |str| - copySize < buffer.Length;
      if ok {
        Append(str[copySize..]);
        assert W().buffered == str[copySize..];
      }
    }

    /** Write the buffer out; afterwards everything written is on the device. */
    method Sync() returns (s: nat)
      requires Valid()
      modifies this
      ensures Valid() && W() == Synced(old(W())) && s == |old(W()).buffered|
    {
      s := Flush();
    }
  }

  lemma IoFits(n: nat, block: nat, capacity: nat, emulated: bool, size: nat)
    requires block > 0 && 0 < n <= capacity && capacity % block == 0
    ensures n <= Occupies(n, block, emulated) <= capacity
    ensures !emulated && size % block == 0 ==> (size + Occupies(n, block, emulated)) % block == 0
  {
    RoundUpLeast(n, block, capacity);
    if size % block == 0 {
      SumMod(size, RoundUp(n, block), block);
    }
  }
}
