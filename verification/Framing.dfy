/** Message framing: building a message from pieces, batching messages per destination, and taking them out of a byte
    stream again through the receiver's buffer, whatever the chunks in which the bytes arrive. */
module Framing {
  import opened ByteOrder
  import opened SeqOps
  import opened MessageHeader

  const PREFIX: nat := 56
  const PIECE_HEADER: nat := 8
  const SEND_TIME: nat := 32

  type Bytes = seq<Byte>

  function LengthOf(m: Bytes): nat
    requires |m| >= 8
  {
    Unpack(Load(m[..8])).length
  }

  /** A message whose header holds its own length. */
  ghost predicate Framed(m: Bytes) {
    |m| >= PREFIX && LengthOf(m) == |m|
  }

  function Concat(ms: seq<Bytes>): Bytes {
    if ms == [] then [] else ms[0] + Concat(ms[1..])
  }

  lemma {:induction false} ConcatJoin(a: seq<Bytes>, b: seq<Bytes>)
    ensures Concat(a + b) == Concat(a) + Concat(b)
  {
    if a == [] {
      assert a + b == b;
    } else {
      ConcatJoin(a[1..], b);
      assert (a + b)[1..] == a[1..] + b;
    }
  }

  // ----- taking one message from the front of a buffer -----

  datatype Parsed = NoMessage | Parsed(message: Bytes, rest: Bytes)

  function Parse(p: Bytes): Parsed {
    if |p| < PREFIX || LengthOf(p) > |p| then NoMessage else Parsed(p[..LengthOf(p)], p[LengthOf(p)..])
  }

  /** The buffer is a prefix of a stream that starts with message `m`: exactly `m` comes out once it is complete, and
      nothing before. */
  lemma ParseFront(p: Bytes, m: Bytes, stream: Bytes)
    requires Framed(m) && p <= m + stream
    ensures Parse(p) == if |m| <= |p| then Parsed(m, p[|m|..]) else NoMessage
  {
    if |p| >= PREFIX {
      assert p[..8] == m[..8];
      if |m| <= |p| {
        assert p[..|m|] == m;
      }
    }
  }

  /** The receiver's buffer. */
  class BufferedReader {
    const buffer: array<Byte>
    var bytesRead: nat
    var bytesTotal: nat

    ghost predicate Valid()
      reads this
    {
      bytesRead <= bytesTotal <= buffer.Length
    }

    ghost function Pending(): Bytes
      reads this, buffer
      requires Valid()
    {
      buffer[bytesRead..bytesTotal]
    }

    constructor (capacity: nat)
      ensures Valid() && Pending() == [] && buffer.Length == capacity && fresh(buffer)
    {
      buffer := new Byte[capacity];
      bytesRead, bytesTotal := 0, 0;
    }

    method HasMessage() returns (b: bool)
      requires Valid()
      ensures b == Parse(Pending()).Parsed?
    {
      if bytesRead + PREFIX > bytesTotal {
        return false;
      }
      b := bytesRead + LengthOf(buffer[bytesRead..bytesTotal]) <= bytesTotal;
    }

    /** Move the bytes left over to the start of the buffer. */
    method Compact()
      requires Valid()
      modifies this, buffer
      ensures Valid() && bytesRead == 0 && Pending() == old(Pending())
    {
      var left := bytesTotal - bytesRead;
      if left > 0 && bytesRead > 0 {
        for i := 0 to left
          modifies buffer
          invariant buffer[..i] == old(buffer[bytesRead..bytesRead + i])
          invariant forall k :: bytesRead + i <= k < bytesTotal ==> buffer[k] == old(buffer[k])
        {
          buffer[i] := buffer[bytesRead + i];
        }
      }
      bytesTotal, bytesRead := left, 0;
    }

    /** The transport delivers `chunk` behind the bytes in the buffer. */
    method Receive(chunk: Bytes)
      requires Valid() && bytesRead == 0 && bytesTotal + |chunk| <= buffer.Length
      modifies this`bytesTotal, buffer
      ensures Valid() && Pending() == old(Pending()) + chunk
    {
      for i := 0 to |chunk|
        modifies buffer
        invariant buffer[..bytesTotal] == old(Pending()) && buffer[bytesTotal..bytesTotal + i] == chunk[..i]
      {
        buffer[bytesTotal + i] := chunk[i];
      }
      bytesTotal := bytesTotal + |chunk|;
      assert buffer[..bytesTotal] == buffer[..old(bytesTotal)] + buffer[old(bytesTotal)..bytesTotal];
    }

    /** Unless a message is waiting, compact and read what the transport has, at most what fits. */
    method FetchMessage(chunk: Bytes)
      requires Valid() && |chunk| <= buffer.Length - |Pending()|
      modifies this, buffer
      ensures Valid() && Pending() == if Parse(old(Pending())).NoMessage? then old(Pending()) + chunk
        else old(Pending())
    {
      var has := HasMessage();
      if !has {
        Compact();
        Receive(chunk);
      }
    }

    method TakeMessage() returns (message: Bytes)
      requires Valid() && Parse(Pending()).Parsed?
      modifies this`bytesRead
      ensures Valid() && Parse(old(Pending())) == Parsed(message, Pending())
    {
      var length := LengthOf(buffer[bytesRead..bytesTotal]);
      message := buffer[bytesRead..bytesRead + length];
      assert message == Pending()[..length] && buffer[bytesRead + length..bytesTotal] == Pending()[length..];
      bytesRead := bytesRead + length;
    }

    method NextMessage(chunk: Bytes) returns (message: Option<Bytes>)
      requires Valid() && |chunk| <= buffer.Length - |Pending()|
      modifies this, buffer
      ensures Valid() && (message, Pending()) == Next(old(Pending()), chunk)
    {
      FetchMessage(chunk);
      var has := HasMessage();
      if has {
        var m := TakeMessage();
        message := Some(m);
      } else {
        message := None;
      }
    }
  }

  /** One call: the message handed out, if any, and the bytes left in the buffer. */
  function Next(pending: Bytes, chunk: Bytes): (Option<Bytes>, Bytes) {
    var all := if Parse(pending).NoMessage? then pending + chunk else pending;
    match Parse(all)
    case NoMessage => (None, all)
    case Parsed(m, rest) => (Some(m), rest)
  }

  // ----- a whole stream -----

  /** The receiver in the middle of a stream: bytes buffered, bytes still to come, messages handed out. */
  datatype Rx = Rx(pending: Bytes, coming: Bytes, out: seq<Bytes>)

  /** A call may read any number of the bytes to come that fits the buffer, and reads none while a message waits. */
  ghost predicate CanRead(s: Rx, capacity: nat, n: nat) {
    n <= |s.coming| && |s.pending| + n <= capacity && (Parse(s.pending).Parsed? ==> n == 0)
  }

  function Read(s: Rx, n: nat): Rx
    requires n <= |s.coming|
  {
    var (m, rest) := Next(s.pending, s.coming[..n]);
    Rx(rest, s.coming[n..], if m.Some? then s.out + [m.value] else s.out)
  }

  ghost predicate IsRun(run: seq<Rx>, takes: seq<nat>, capacity: nat, ms: seq<Bytes>) {
    && |run| == |takes| + 1 && run[0] == Rx([], Concat(ms), [])
    && (forall i {:trigger takes[i]} ::
       0 <= i < |takes| ==> CanRead(run[i], capacity, takes[i]) && run[i + 1] == Read(run[i], takes[i]))
  }

  /** What has come out are the first messages, unchanged and in order; the rest is buffered or still to come. */
  ghost predicate InStep(s: Rx, ms: seq<Bytes>) {
    |s.out| <= |ms| && s.out == ms[..|s.out|] && s.pending + s.coming == Concat(ms[|s.out|..])
  }

  /** One call at the front of a stream: it hands out the first message and leaves the others, or only buffers. */
  lemma NextFront(p: Bytes, chunk: Bytes, coming: Bytes, m: Bytes, tail: Bytes)
    requires Framed(m) && p + chunk + coming == m + tail && (Parse(p).Parsed? ==> chunk == [])
    ensures var x := Next(p, chunk);
            if x.0.Some? then x.0.value == m && x.1 + coming == tail else x.1 + coming == m + tail
  {
    var all := p + chunk;
    assert p <= all <= m + tail;
    ParseFront(p, m, tail);
    ParseFront(all, m, tail);
    assert (m + tail)[|m|..] == tail;
    if |m| <= |all| {
      assert (all + coming)[|m|..] == all[|m|..] + coming;
    }
    if chunk == [] { assert all == p; }
  }

  lemma ReadInStep(s: Rx, capacity: nat, n: nat, ms: seq<Bytes>)
    requires InStep(s, ms) && CanRead(s, capacity, n) && forall i :: 0 <= i < |ms| ==> Framed(ms[i])
    ensures InStep(Read(s, n), ms)
  {
    var k := |s.out|;
    assert s.pending + s.coming[..n] + s.coming[n..] == s.pending + s.coming;
    if k < |ms| {
      assert ms[k..][1..] == ms[k + 1..];
      NextFront(s.pending, s.coming[..n], s.coming[n..], ms[k], Concat(ms[k + 1..]));
    }
  }

  lemma {:induction false} RunInStep(run: seq<Rx>, takes: seq<nat>, capacity: nat, ms: seq<Bytes>, n: nat)
    requires IsRun(run, takes, capacity, ms) && n < |run| && forall i :: 0 <= i < |ms| ==> Framed(ms[i])
    ensures InStep(run[n], ms)
  {
    if n == 0 {
      assert ms[0..] == ms;
    } else {
      RunInStep(run, takes, capacity, ms, n - 1);
      assert CanRead(run[n - 1], capacity, takes[n - 1]);
      ReadInStep(run[n - 1], capacity, takes[n - 1], ms);
    }
  }

  /** However the bytes are chunked, the messages come out unchanged, in order and once; a receiver that has seen all
      bytes and has no message left to hand out has handed out all of them. */
  lemma RoundTrip(run: seq<Rx>, takes: seq<nat>, capacity: nat, ms: seq<Bytes>, n: nat)
    requires IsRun(run, takes, capacity, ms) && n < |run| && forall i :: 0 <= i < |ms| ==> Framed(ms[i])
    ensures |run[n].out| <= |ms| && run[n].out == ms[..|run[n].out|]
    ensures run[n].coming == [] && Parse(run[n].pending).NoMessage? ==> run[n].out == ms && run[n].pending == []
  {
    RunInStep(run, takes, capacity, ms, n);
    var s := run[n];
    var k := |s.out|;
    if s.coming == [] && Parse(s.pending).NoMessage? && k < |ms| {
      ParseFront(s.pending, ms[k], Concat(ms[k..][1..]));
    }
  }

  /** A receiver whose buffer holds every single message is never stuck: it can hand out a message or read on. */
  lemma NeverStuck(run: seq<Rx>, takes: seq<nat>, capacity: nat, ms: seq<Bytes>, n: nat)
    requires IsRun(run, takes, capacity, ms) && n < |run| && forall i ::
      0 <= i < |ms| ==> Framed(ms[i]) && |ms[i]| <= capacity
    requires |run[n].out| < |ms|
    ensures Parse(run[n].pending).Parsed? || (run[n].coming != [] && CanRead(run[n], capacity, 1))
  {
    RunInStep(run, takes, capacity, ms, n);
    var s := run[n];
    ParseFront(s.pending, ms[|s.out|], Concat(ms[|s.out|..][1..]));
  }
}
