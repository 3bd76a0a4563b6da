/** The sending side: messages built from pieces, iterated again, sorted by destination and batched. */
module Dispatch {
  import opened ByteOrder
  import opened MessageHeader
  import opened Framing

  // ----- a message and its pieces -----

  function HeaderOf(m: Bytes): nat
    requires |m| >= 8
  {
    Load(m[..8])
  }

  function PutHeader(m: Bytes, h: nat): Bytes
    requires |m| >= 8
  {
    Store(h, 8) + m[8..]
  }

  lemma HeaderRoundTrip(m: Bytes, h: nat)
    requires |m| >= 8 && h < WORD
    ensures |PutHeader(m, h)| == |m| && HeaderOf(PutHeader(m, h)) == h && PutHeader(m, h)[8..] == m[8..]
  {
    WordBytes();
    StoreLoad(h, 8);
    assert PutHeader(m, h)[..8] == Store(h, 8);
  }

  const DEADBEEF: Bytes := [0xef, 0xbe, 0xad, 0xde]

  /** A new message: a prefix whose header holds its own length and no pieces. */
  function Blank(): (m: Bytes)
    ensures |m| == PREFIX
  {
    PutHeader(seq(8, _ => 0) + DEADBEEF + seq(PREFIX - 12, _ => 0), SetLength(0, PREFIX))
  }

  function PieceLen(p: Bytes): nat
    requires |p| >= PIECE_HEADER
  {
    UnpackPiece(Load(p[..PIECE_HEADER])).length
  }

  ghost predicate PieceOk(p: Bytes) {
    |p| >= PIECE_HEADER && PieceLen(p) == |p|
  }

  datatype Piece = Piece(kind: nat, table: nat, partition: nat, granule: nat, body: Bytes)

  function HeadOf(x: Piece): PieceHeader {
    PieceHeader(x.kind, PIECE_HEADER + |x.body|, x.table, x.granule, x.partition)
  }

  function EncodePiece(x: Piece): (p: Bytes)
    ensures |p| == PIECE_HEADER + |x.body|
  {
    Store(PackPiece(HeadOf(x)), PIECE_HEADER) + x.body
  }

  function DecodePiece(p: Bytes): Piece
    requires |p| >= PIECE_HEADER
  {
    var h := UnpackPiece(Load(p[..PIECE_HEADER]));
    Piece(h.kind, h.table, h.partition, h.granule, p[PIECE_HEADER..])
  }

  /** A piece within the header's limits carries its own length, and comes back from its bytes. */
  lemma PieceEncodes(x: Piece)
    requires PieceFits(HeadOf(x))
    ensures PieceOk(EncodePiece(x)) && DecodePiece(EncodePiece(x)) == x
  {
    var p := EncodePiece(x);
    PieceRoundTrip(HeadOf(x));
    WordBytes();
    StoreLoad(PackPiece(HeadOf(x)), PIECE_HEADER);
    assert p[..PIECE_HEADER] == Store(PackPiece(HeadOf(x)), PIECE_HEADER);
  }

  function Encoded(xs: seq<Piece>): (ps: seq<Bytes>)
    ensures |ps| == |xs|
  {
    seq(|xs|, i requires 0 <= i < |xs| => EncodePiece(xs[i]))
  }

  /** Count one more piece and store the length of the data. */
  function Flush(m: Bytes): Bytes
    requires 8 <= |m| < MAX_LENGTH && HeaderOf(m) < WORD && Unpack(HeaderOf(m)).count + 1 < 0x8000
  {
    CountRoundTrip(HeaderOf(m), Unpack(HeaderOf(m)).count + 1);
    PutHeader(m, SetLength(SetCount(HeaderOf(m), Unpack(HeaderOf(m)).count + 1), |m|))
  }

  lemma FlushOk(m: Bytes)
    requires 8 <= |m| < MAX_LENGTH && HeaderOf(m) < WORD && Unpack(HeaderOf(m)).count + 1 < 0x8000
    ensures var t := Flush(m);
            && |t| == |m| && HeaderOf(t) < WORD
            && Unpack(HeaderOf(t)) == Unpack(HeaderOf(m)).(count := Unpack(HeaderOf(m)).count + 1, length := |m|)
            && t[8..] == m[8..]
  {
    var h, n := HeaderOf(m), Unpack(HeaderOf(m)).count + 1;
    CountRoundTrip(h, n);
    LengthRoundTrip(SetCount(h, n), |m|);
    HeaderRoundTrip(m, SetLength(SetCount(h, n), |m|));
  }

  /** A message to which pieces have been added and flushed one by one. */
  ghost predicate Holds(m: Bytes, ps: seq<Bytes>) {
    Framed(m) && HeaderOf(m) < WORD && Unpack(HeaderOf(m)).count == |ps| && m[PREFIX..] == Concat(ps)
  }

  lemma StoredHolds(m: Bytes, h: nat)
    requires |m| == PREFIX && h < WORD && Unpack(h).length == PREFIX && Unpack(h).count == 0
    ensures Holds(PutHeader(m, h), [])
  {
    HeaderRoundTrip(m, h);
  }

  lemma NewHeader(h: nat, n: nat)
    requires h == 0 && n < MAX_LENGTH
    ensures var t := SetLength(h, n); t < WORD && Unpack(t).length == n && Unpack(t).count == 0
  {
    LengthRoundTrip(h, n);
    assert Unpack(h).count == 0;
  }

  lemma NewHolds(m: Bytes, h: nat, n: nat)
    requires |m| == PREFIX == n && h == 0
    ensures Holds(PutHeader(m, SetLength(h, n)), [])
  {
    NewHeader(h, n);
    StoredHolds(m, SetLength(h, n));
  }

  lemma BlankHolds()
    ensures Holds(Blank(), [])
  {
    NewHolds(seq(8, _ => 0) + DEADBEEF + seq(PREFIX - 12, _ => 0), 0, PREFIX);
  }

  /** Adding a piece keeps every earlier one, counts it, and keeps the header's length right. */
  lemma AddPiece(m: Bytes, ps: seq<Bytes>, p: Bytes)
    requires Holds(m, ps) && |ps| + 1 < 0x8000 && |m| + |p| < MAX_LENGTH
    ensures HeaderOf(m + p) < WORD && Unpack(HeaderOf(m + p)).count + 1 < 0x8000 && Holds(Flush(m + p), ps + [p])
  {
    assert (m + p)[..8] == m[..8];
    FlushOk(m + p);
    Tails(Flush(m + p), m, p);
    ConcatJoin(ps, [p]);
    assert Concat([p]) == p;
  }

  lemma Tails(t: Bytes, m: Bytes, p: Bytes)
    requires |m| >= PREFIX && |t| == |m| + |p| && t[8..] == (m + p)[8..]
    ensures t[PREFIX..] == m[PREFIX..] + p
  {
    assert t[PREFIX..] == t[8..][PREFIX - 8..];
  }

  lemma NoPieces(ps: seq<Bytes>)
    requires Concat(ps) == [] && forall i :: 0 <= i < |ps| ==> PieceOk(ps[i])
    ensures ps == []
  {
    assert ps != [] ==> PieceOk(ps[0]);
  }

  /** Walking the pieces of a message hands out exactly the pieces that were added, in order. */
  method IteratePieces(m: Bytes, ghost ps: seq<Bytes>) returns (out: seq<Bytes>)
    requires Holds(m, ps) && forall i :: 0 <= i < |ps| ==> PieceOk(ps[i])
    ensures out == ps
  {
    out := [];
    var ptr := PREFIX;
    assert ps[0..] == ps;
    while ptr < |m|
      invariant PREFIX <= ptr <= |m| && |out| <= |ps| && out == ps[..|out|] && m[ptr..] == Concat(ps[|out|..])
      decreases |m| - ptr
    {
      ghost var rest := ps[|out|..];
      assert rest != [] && rest[1..] == ps[|out| + 1..];
      assert m[ptr..] == rest[0] + Concat(rest[1..]);
      assert m[ptr..][..PIECE_HEADER] == rest[0][..PIECE_HEADER];
      var n := PieceLen(m[ptr..]);
      assert m[ptr..ptr + n] == rest[0] && m[ptr + n..] == Concat(rest[1..]);
      out := out + [m[ptr..ptr + n]];
      ptr := ptr + n;
    }
    NoPieces(ps[|out|..]);
  }

  lemma EncodedNext(xs: seq<Piece>, i: nat)
    requires i < |xs|
    ensures Encoded(xs[..i + 1]) == Encoded(xs[..i]) + [EncodePiece(xs[i])]
    ensures |Concat(Encoded(xs[..i + 1]))| == |Concat(Encoded(xs[..i]))| + |EncodePiece(xs[i])|
      <= |Concat(Encoded(xs))|
  {
    var a, p, b := Encoded(xs[..i]), EncodePiece(xs[i]), Encoded(xs[i + 1..]);
    assert Encoded(xs[..i + 1]) == a + [p];
    assert Encoded(xs) == (a + [p]) + b;
    ConcatJoin(a, [p]);
    ConcatJoin(a + [p], b);
    assert Concat([p]) == p;
  }

  /** A new message, to which the pieces are added and flushed one after the other. */
  method Build(xs: seq<Piece>) returns (m: Bytes)
    requires |xs| < 0x8000 && PREFIX + |Concat(Encoded(xs))| < MAX_LENGTH
    ensures Holds(m, Encoded(xs))
  {
    m := Blank();
    BlankHolds();
    assert Encoded(xs[..0]) == [];
    for i := 0 to |xs|
      invariant Holds(m, Encoded(xs[..i])) && |m| == PREFIX + |Concat(Encoded(xs[..i]))|
    {
      EncodedNext(xs, i);
      AddPiece(m, Encoded(xs[..i]), EncodePiece(xs[i]));
      FlushOk(m + EncodePiece(xs[i]));
      m := Flush(m + EncodePiece(xs[i]));
    }
    assert xs[..|xs|] == xs;
  }

  function DecodeAll(ps: seq<Bytes>): seq<Piece>
    requires forall i :: 0 <= i < |ps| ==> |ps[i]| >= PIECE_HEADER
  {
    seq(|ps|, i requires 0 <= i < |ps| => DecodePiece(ps[i]))
  }

  lemma EncodedOk(xs: seq<Piece>)
    requires forall i :: 0 <= i < |xs| ==> PieceFits(HeadOf(xs[i]))
    ensures (forall i :: 0 <= i < |xs| ==> PieceOk(Encoded(xs)[i])) && DecodeAll(Encoded(xs)) == xs
  {
    forall i | 0 <= i < |xs| ensures PieceOk(Encoded(xs)[i]) && DecodePiece(Encoded(xs)[i]) == xs[i] {
      PieceEncodes(xs[i]);
    }
  }

  /** Decoding what an iteration hands out. */
  method IterateDecoded(m: Bytes, ghost xs: seq<Piece>) returns (out: seq<Piece>)
    requires Holds(m, Encoded(xs)) && forall i :: 0 <= i < |xs| ==> PieceOk(Encoded(xs)[i])
    ensures out == DecodeAll(Encoded(xs))
  {
    var ps := IteratePieces(m, Encoded(xs));
    out := DecodeAll(ps);
  }

  /** Iterating a message that was built from pieces, and decoding what comes out, gives the pieces back. */
  method BuildAndIterate(xs: seq<Piece>) returns (m: Bytes, out: seq<Piece>)
    requires |xs| < 0x8000 && PREFIX + |Concat(Encoded(xs))| < MAX_LENGTH
    requires forall i :: 0 <= i < |xs| ==> PieceFits(HeadOf(xs[i]))
    ensures Holds(m, Encoded(xs)) && out == xs
  {
    EncodedOk(xs);
    m := Build(xs);
    out := IterateDecoded(m, xs);
  }

  // ----- sorting by destination and batching -----

  function DestOf(m: Bytes): nat
    requires |m| >= 8
  {
    Unpack(HeaderOf(m)).dest
  }

  /** The messages of a queue for one destination, in order. */
  function Routed(queue: seq<Bytes>, d: nat): seq<Bytes>
    requires forall i :: 0 <= i < |queue| ==> |queue[i]| >= 8
  {
    if queue == [] then []
    else Routed(queue[..|queue| - 1], d) + if DestOf(queue[|queue| - 1]) == d then [queue[|queue| - 1]] else []
  }

  /** The send time is stamped into the prefix, behind the header. */
  function Stamp(m: Bytes, ts: Bytes): Bytes
    requires |m| >= PREFIX && |ts| == 8
  {
    m[..SEND_TIME] + ts + m[SEND_TIME + 8..]
  }

  lemma StampFrames(m: Bytes, ts: Bytes)
    requires Framed(m) && |ts| == 8
    ensures Framed(Stamp(m, ts)) && |Stamp(m, ts)| == |m| && DestOf(Stamp(m, ts)) == DestOf(m)
    ensures Stamp(m, ts)[..SEND_TIME] == m[..SEND_TIME] && Stamp(m, ts)[SEND_TIME + 8..] == m[SEND_TIME + 8..]
  {
    assert Stamp(m, ts)[..8] == m[..8];
  }

  /** Each destination gets its messages in queue order; messages to the sender itself go to its own queue. */
  method GroupByDest(queue: seq<Bytes>, me: nat, nodes: nat, ts: Bytes)
    returns (groups: seq<seq<Bytes>>, own: seq<Bytes>)
    requires me < nodes && |ts| == 8 && forall i ::
      0 <= i < |queue| ==> |queue[i]| >= PREFIX && DestOf(queue[i]) < nodes
    ensures |groups| == nodes && groups[me] == []
    ensures forall d :: 0 <= d < nodes && d != me ==> groups[d] == Routed(queue, d)
    ensures |own| == |Routed(queue, me)| && forall i ::
      0 <= i < |own| ==> |Routed(queue, me)[i]| >= PREFIX && own[i] == Stamp(Routed(queue, me)[i], ts)
  {
    groups, own := seq(nodes, _ => []), [];
    for k := 0 to |queue|
      invariant |groups| == nodes && groups[me] == []
      invariant forall d :: 0 <= d < nodes && d != me ==> groups[d] == Routed(queue[..k], d)
      invariant |own| == |Routed(queue[..k], me)|
      invariant forall i ::
        0 <= i < |own| ==> |Routed(queue[..k], me)[i]| >= PREFIX && own[i] == Stamp(Routed(queue[..k], me)[i], ts)
    {
      var m := queue[k];
      assert queue[..k + 1][..k] == queue[..k];
      if DestOf(m) != me {
        groups := groups[DestOf(m) := groups[DestOf(m)] + [m]];
      } else {
        own := own + [Stamp(m, ts)];
      }
    }
    assert queue[..|queue|] == queue;
  }

  /** What is sent for a group: its messages with their send time stamped. */
  ghost function Sent(group: seq<Bytes>, ts: Bytes): (r: seq<Bytes>)
    requires |ts| == 8 && forall i :: 0 <= i < |group| ==> Framed(group[i])
    ensures |r| == |group|
  {
    seq(|group|, i requires 0 <= i < |group| && Framed(group[i]) => Stamp(group[i], ts))
  }

  /** The bytes written to the socket of one destination; a group of one is sent by itself, to the same effect. */
  method DispatchGroup(group: seq<Bytes>, ts: Bytes) returns (bytes: Bytes)
    requires |ts| == 8 && forall i :: 0 <= i < |group| ==> Framed(group[i])
    ensures bytes == Concat(Sent(group, ts)) && forall i :: 0 <= i < |group| ==> Framed(Sent(group, ts)[i])
  {
    ghost var sent := Sent(group, ts);
    forall i | 0 <= i < |group| ensures Framed(sent[i]) {
      StampFrames(group[i], ts);
    }
    bytes := [];
    for j := 0 to |group|
      invariant bytes == Concat(sent[..j])
    {
      StampFrames(group[j], ts);
      var m := Stamp(group[j], ts);
      ConcatJoin(sent[..j], [m]);
      assert sent[..j + 1] == sent[..j] + [m] && Concat([m]) == m;
      assert m[..LengthOf(m)] == m;
      bytes := bytes + m[..LengthOf(m)];
    }
    assert sent[..|group|] == sent;
  }

  // ----- from batches to messages -----

  datatype Batch = Batch(group: seq<Bytes>, ts: Bytes)

  ghost predicate BatchOk(b: Batch) {
    |b.ts| == 8 && forall i :: 0 <= i < |b.group| ==> Framed(b.group[i])
  }

  /** The messages of successive batches to one destination, and the bytes written to its socket. */
  ghost function AllSent(bs: seq<Batch>): seq<Bytes>
    requires forall i :: 0 <= i < |bs| ==> BatchOk(bs[i])
  {
    if bs == [] then [] else var b := bs[|bs| - 1]; assert BatchOk(b); AllSent(bs[..|bs| - 1]) + Sent(b.group, b.ts)
  }

  ghost function Stream(bs: seq<Batch>): Bytes
    requires forall i :: 0 <= i < |bs| ==> BatchOk(bs[i])
  {
    if bs == [] then []
      else var b := bs[|bs| - 1]; assert BatchOk(b); Stream(bs[..|bs| - 1]) + Concat(Sent(b.group, b.ts))
  }

  lemma {:induction false} StreamIsMessages(bs: seq<Batch>)
    requires forall i :: 0 <= i < |bs| ==> BatchOk(bs[i])
    ensures Stream(bs) == Concat(AllSent(bs)) && forall i :: 0 <= i < |AllSent(bs)| ==> Framed(AllSent(bs)[i])
  {
    if bs != [] {
      var b := bs[|bs| - 1];
      assert BatchOk(b);
      StreamIsMessages(bs[..|bs| - 1]);
      ConcatJoin(AllSent(bs[..|bs| - 1]), Sent(b.group, b.ts));
      SentFramed(b);
    }
  }

  lemma SentFramed(b: Batch)
    requires BatchOk(b)
    ensures forall i :: 0 <= i < |b.group| ==> Framed(Sent(b.group, b.ts)[i])
  {
    forall i | 0 <= i < |b.group| ensures Framed(Sent(b.group, b.ts)[i]) {
      StampFrames(b.group[i], b.ts);
    }
  }

  /** Whatever the batching and the chunking, a receiver that starts with an empty buffer hands out the batches'
      messages in order, each once, changed only in the send time. */
  lemma BatchesDelivered(bs: seq<Batch>, run: seq<Rx>, takes: seq<nat>, capacity: nat, n: nat)
    requires (forall i :: 0 <= i < |bs| ==> BatchOk(bs[i])) && |run| == |takes| + 1 && run[0] == Rx([], Stream(bs), [])
      && n < |run|
    requires forall i {:trigger takes[i]} ::
      0 <= i < |takes| ==> CanRead(run[i], capacity, takes[i]) && run[i + 1] == Read(run[i], takes[i])
    ensures |run[n].out| <= |AllSent(bs)| && run[n].out == AllSent(bs)[..|run[n].out|]
    ensures run[n].coming == [] && Parse(run[n].pending).NoMessage? ==> run[n].out == AllSent(bs)
  {
    StreamIsMessages(bs);
    RoundTrip(run, takes, capacity, AllSent(bs), n);
  }
}
