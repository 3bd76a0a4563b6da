/** Epoch-cut log buffers: each worker appends records to its current buffer and hands it over when it is full or the
    global epoch has moved; the logger thread raises the epoch and drains the queues to disk.  The `epoch` of a buffer,
    `disk` as a list of buffers, and `logged` are auxiliary. */
module EpochLog {
  import opened ByteOrder
  import opened FileWriter
  import opened SeqOps

  const MAX_BUFFER: nat := 4194304
  const MAX_QUEUE: nat := 128

  datatype Record = Record(bytes: seq<Byte>, persist: bool, epoch: nat)

  /** A log buffer; `persists` counts the start times kept for persist-marked writes, `records` is auxiliary. */
  datatype LogBuffer = LogBuffer(bytes: seq<Byte>, persists: nat, records: seq<Record>)

  const EMPTY := LogBuffer([], 0, [])

  /** A worker's logger: its current buffer, its queue, and the epoch it last saw. */
  datatype Slave = Slave(cur: LogBuffer, queue: seq<LogBuffer>, lastEpoch: nat, logged: seq<Record>)

  datatype Pc = Idle | Loaded(bytes: seq<Byte>, persist: bool, epoch: nat)

  datatype Page = Page(worker: nat, buffer: LogBuffer)

  datatype State = State(epoch: nat, slaves: seq<Slave>, pcs: seq<Pc>, file: Writer, disk: seq<Page>, committed: nat)

  /** The worker loads the epoch before it looks at its buffer; the epoch may move in between. */
  datatype Action = Load(w: nat, bytes: seq<Byte>, persist: bool) | Write(w: nat) | Tick | Drain(w: nat)

  predicate MustCut(s: Slave, size: nat, epoch: nat) {
    |s.cur.bytes| + size > MAX_BUFFER || epoch > s.lastEpoch
  }

  function Cut(s: Slave, size: nat, epoch: nat): Slave {
    if !MustCut(s, size, epoch) then s
    else if |s.cur.bytes| > 0 then s.(cur := EMPTY, queue := s.queue + [s.cur], lastEpoch := epoch)
    else s.(lastEpoch := epoch)
  }

  function Append(b: LogBuffer, r: Record): LogBuffer {
    LogBuffer(b.bytes + r.bytes, b.persists + (if r.persist then 1 else 0), b.records + [r])
  }

  function SlaveWrite(s: Slave, bytes: seq<Byte>, persist: bool, epoch: nat): Slave {
    var r, t := Record(bytes, persist, epoch), Cut(s, |bytes|, epoch);
    t.(cur := Append(t.cur, r), logged := t.logged + [r])
  }

  /** The worker's logger as an object. */
  class PashaGroupCommitLoggerSlave {
    var cur: LogBuffer
    var queue: seq<LogBuffer>
    var lastEpoch: nat
    ghost var logged: seq<Record>

    ghost function S(): Slave
      reads this
    {
      Slave(cur, queue, lastEpoch, logged)
    }

    constructor ()
      ensures S() == Slave(EMPTY, [], 0, [])
    {
      cur, queue, lastEpoch, logged := EMPTY, [], 0, [];
    }

    method WriteRecord(bytes: seq<Byte>, persist: bool, epoch: nat)
      requires |bytes| <= MAX_BUFFER && SlaveOk(S()) && lastEpoch <= epoch
      modifies this
      ensures S() == SlaveWrite(old(S()), bytes, persist, epoch) && SlaveOk(S())
    {
      WriteOk(S(), bytes, persist, epoch);
      if |cur.bytes| + |bytes| > MAX_BUFFER || epoch > lastEpoch {
        if |cur.bytes| > 0 {
          queue := queue + [cur];
          cur := EMPTY;
        }
        lastEpoch := epoch;
      }
      cur := Append(cur, Record(bytes, persist, epoch));
      logged := logged + [Record(bytes, persist, epoch)];
    }
  }

  // ----- what a buffer holds -----

  function BytesOf(rs: seq<Record>): seq<Byte> {
    if rs == [] then [] else BytesOf(rs[..|rs| - 1]) + rs[|rs| - 1].bytes
  }

  function PersistsOf(rs: seq<Record>): nat {
    if rs == [] then 0 else PersistsOf(rs[..|rs| - 1]) + if rs[|rs| - 1].persist then 1 else 0
  }

  lemma {:induction false} RecordsJoin(a: seq<Record>, b: seq<Record>)
    ensures BytesOf(a + b) == BytesOf(a) + BytesOf(b) && PersistsOf(a + b) == PersistsOf(a) + PersistsOf(b)
  {
    if b == [] {
      assert a + b == a;
    } else {
      var c, r := b[..|b| - 1], b[|b| - 1];
      RecordsJoin(a, c);
      assert (a + b)[..|a + b| - 1] == a + c && (a + b)[|a + b| - 1] == r;
      assert BytesOf(a + b) == BytesOf(a + c) + r.bytes;
    }
  }

  /** Within capacity, and the bytes and persist marks are those of its records. */
  ghost predicate BufferOk(b: LogBuffer) {
    |b.bytes| <= MAX_BUFFER && b.bytes == BytesOf(b.records) && b.persists == PersistsOf(b.records)
  }

  ghost predicate BuffersOk(q: seq<LogBuffer>) {
    forall i {:trigger q[i]} :: 0 <= i < |q| ==> BufferOk(q[i])
  }

  /** The records with content were all written under epoch `e`. */
  predicate ContentIn(rs: seq<Record>, e: nat) {
    forall i {:trigger rs[i]} :: 0 <= i < |rs| && rs[i].bytes != [] ==> rs[i].epoch == e
  }

  /** The records with content were all written under the same epoch. */
  ghost predicate OneEpoch(b: LogBuffer) {
    exists e: nat {:trigger ContentIn(b.records, e)} :: ContentIn(b.records, e)
  }

  ghost predicate OneEach(q: seq<LogBuffer>) {
    forall i {:trigger q[i]} :: 0 <= i < |q| ==> OneEpoch(q[i])
  }

  /** The records of a list of buffers, in order. */
  function Records(q: seq<LogBuffer>): seq<Record> {
    if q == [] then [] else Records(q[..|q| - 1]) + q[|q| - 1].records
  }

  ghost predicate Ascending(rs: seq<Record>) {
    forall i, j :: 0 <= i < j < |rs| ==> rs[i].epoch <= rs[j].epoch
  }

  ghost predicate UpTo(rs: seq<Record>, e: nat) {
    forall i {:trigger rs[i]} :: 0 <= i < |rs| ==> rs[i].epoch <= e
  }

  /** The newest record of the current buffer is of the epoch last seen, and so is everything with content in it. */
  predicate CurrentIn(b: LogBuffer, e: nat) {
    ContentIn(b.records, e) && (b.records != [] ==> b.records[|b.records| - 1].epoch == e)
  }

  ghost predicate SlaveOk(s: Slave) {
    && BufferOk(s.cur) && BuffersOk(s.queue) && OneEach(s.queue) && CurrentIn(s.cur, s.lastEpoch)
    && UpTo(s.logged, s.lastEpoch) && Ascending(s.logged)
  }

  /** A buffer without content has only records without content. */
  lemma {:induction false} NoBytes(rs: seq<Record>, i: nat)
    requires BytesOf(rs) == [] && i < |rs|
    ensures rs[i].bytes == []
  {
    if i < |rs| - 1 {
      NoBytes(rs[..|rs| - 1], i);
    }
  }

  lemma {:induction false} HasBytes(rs: seq<Record>, i: nat)
    requires i < |rs| && rs[i].bytes != []
    ensures BytesOf(rs) != []
  {
    if i < |rs| - 1 {
      HasBytes(rs[..|rs| - 1], i);
    }
  }

  lemma AppendOk(b: LogBuffer, r: Record)
    requires BufferOk(b) && |b.bytes| + |r.bytes| <= MAX_BUFFER && ContentIn(b.records, r.epoch)
    ensures BufferOk(Append(b, r)) && CurrentIn(Append(b, r), r.epoch)
  {
    assert (b.records + [r])[..|b.records|] == b.records;
  }

  /** The current buffer after the cut can take the record, and holds content of its epoch only. */
  lemma CutCurrent(s: Slave, size: nat, epoch: nat)
    requires BufferOk(s.cur) && ContentIn(s.cur.records, s.lastEpoch) && s.lastEpoch <= epoch && size <= MAX_BUFFER
    ensures var t := Cut(s, size, epoch);
            BufferOk(t.cur) && ContentIn(t.cur.records, epoch) && t.lastEpoch == epoch
              && |t.cur.bytes| + size <= MAX_BUFFER
  {
    if MustCut(s, size, epoch) && s.cur.bytes == [] {
      forall i | 0 <= i < |s.cur.records| ensures s.cur.records[i].bytes == [] {
        NoBytes(s.cur.records, i);
      }
    }
  }

  lemma CutQueue(s: Slave, size: nat, epoch: nat)
    requires BufferOk(s.cur) && BuffersOk(s.queue) && OneEach(s.queue) && ContentIn(s.cur.records, s.lastEpoch)
    ensures var t := Cut(s, size, epoch); BuffersOk(t.queue) && OneEach(t.queue)
  {
    var q := s.queue + [s.cur];
    forall i | 0 <= i < |q| ensures BufferOk(q[i]) && OneEpoch(q[i]) {
      if i < |s.queue| { assert q[i] == s.queue[i]; }
    }
  }

  lemma LoggedGrows(rs: seq<Record>, last: nat, r: Record)
    requires UpTo(rs, last) && Ascending(rs) && last <= r.epoch
    ensures UpTo(rs + [r], r.epoch) && Ascending(rs + [r])
  {
  }

  lemma WriteOk(s: Slave, bytes: seq<Byte>, persist: bool, epoch: nat)
    requires SlaveOk(s) && s.lastEpoch <= epoch && |bytes| <= MAX_BUFFER
    ensures SlaveOk(SlaveWrite(s, bytes, persist, epoch))
  {
    CutCurrent(s, |bytes|, epoch);
    CutQueue(s, |bytes|, epoch);
    AppendOk(Cut(s, |bytes|, epoch).cur, Record(bytes, persist, epoch));
    LoggedGrows(s.logged, s.lastEpoch, Record(bytes, persist, epoch));
  }

  // ----- when a buffer holds the records of one epoch only -----

  /** All records of the buffer, with content or without, were written under the same epoch. */
  ghost predicate Single(b: LogBuffer) {
    forall i, j {:trigger b.records[i], b.records[j]} ::
      0 <= i < |b.records| && 0 <= j < |b.records| ==> b.records[i].epoch == b.records[j].epoch
  }

  ghost predicate Singles(q: seq<LogBuffer>) {
    forall i {:trigger q[i]} :: 0 <= i < |q| ==> Single(q[i])
  }

  /** A write under a new epoch that finds a current buffer with records but no content: the buffer is not handed
      over. */
  predicate Mixes(s: Slave, epoch: nat) {
    epoch > s.lastEpoch && s.cur.bytes == [] && s.cur.records != []
  }

  lemma SingleAppend(b: LogBuffer, r: Record)
    requires b.records != [] ==> b.records[|b.records| - 1].epoch <= r.epoch
    ensures Single(Append(b, r)) <==> Single(b) && (b.records != [] ==> b.records[|b.records| - 1].epoch == r.epoch)
  {
    var c := Append(b, r);
    if Single(c) {
      forall i, j | 0 <= i < |b.records| && 0 <= j < |b.records| ensures b.records[i].epoch == b.records[j].epoch {
        assert c.records[i] == b.records[i] && c.records[j] == b.records[j];
      }
      if b.records != [] {
        assert c.records[|b.records| - 1].epoch == c.records[|b.records|].epoch;
      }
    }
  }

  lemma SinglesAppend(q: seq<LogBuffer>, b: LogBuffer)
    ensures Singles(q + [b]) <==> Singles(q) && Single(b)
  {
    if Singles(q + [b]) {
      assert (q + [b])[|q|] == b;
      forall i | 0 <= i < |q| ensures Single(q[i]) { assert (q + [b])[i] == q[i]; }
    }
  }

  /** A write keeps every buffer of the worker to one epoch if and only if it was so before and the write is not one
      under a new epoch on a buffer whose records are all empty. */
  lemma WriteMixesExactly(s: Slave, bytes: seq<Byte>, persist: bool, epoch: nat)
    requires SlaveOk(s) && s.lastEpoch <= epoch && |bytes| <= MAX_BUFFER
    ensures var t := SlaveWrite(s, bytes, persist, epoch);
            Single(t.cur) && Singles(t.queue) <==> Single(s.cur) && Singles(s.queue) && !Mixes(s, epoch)
  {
    SingleAppend(Cut(s, |bytes|, epoch).cur, Record(bytes, persist, epoch));
    if MustCut(s, |bytes|, epoch) && |s.cur.bytes| > 0 {
      SinglesAppend(s.queue, s.cur);
    }
  }

  /** For instance, an empty record of epoch 1 shares its buffer with a record of epoch 2. */
  lemma EmptyRecordMixesEpochs(b: Byte)
    ensures var s := SlaveWrite(SlaveWrite(Slave(EMPTY, [], 0, []), [], true, 1), [b], true, 2);
            s.queue == [] && s.cur.records == [Record([], true, 1), Record([b], true, 2)] && !Single(s.cur)
  {
    var s := SlaveWrite(SlaveWrite(Slave(EMPTY, [], 0, []), [], true, 1), [b], true, 2);
    assert s.cur.records[0].epoch != s.cur.records[1].epoch;
  }

  // ----- the system -----

  ghost predicate Can(s: State, a: Action) {
    && |s.pcs| == |s.slaves|
    && match a
       case Load(w, bytes, _) => w < |s.slaves| && s.pcs[w].Idle? && |bytes| <= MAX_BUFFER
       case Write(w) =>
         w < |s.slaves| && s.pcs[w].Loaded?
         && (MustCut(s.slaves[w], |s.pcs[w].bytes|, s.pcs[w].epoch) && |s.slaves[w].cur.bytes| > 0 ==>
            |s.slaves[w].queue| < MAX_QUEUE)
       case Tick => true
       case Drain(w) =>
         w < |s.slaves| && |s.slaves[w].queue| > 0 && |s.file.buffered| < MAX_BUFFER
         && Put(s.file, MAX_BUFFER, s.slaves[w].queue[0].bytes).Some?
  }

  ghost function After(s: State, a: Action): State
    requires Can(s, a)
  {
    match a
    case Load(w, bytes, persist) => s.(pcs := s.pcs[w := Loaded(bytes, persist, s.epoch)])
    case Write(w) =>
      var pc := s.pcs[w];
      s.(pcs := s.pcs[w := Idle], slaves := s.slaves[w := SlaveWrite(s.slaves[w], pc.bytes, pc.persist, pc.epoch)])
    case Tick => s.(epoch := s.epoch + 1)
    case Drain(w) =>
      var x := s.slaves[w];
      s.(slaves := s.slaves[w := x.(queue := x.queue[1..])], disk := s.disk + [Page(w, x.queue[0])],
         file := Synced(Put(s.file, MAX_BUFFER, x.queue[0].bytes).value), committed :=
           s.committed + x.queue[0].persists)
  }

  ghost predicate Init(s: State) {
    && |s.pcs| == |s.slaves| && s.epoch == s.committed == 0 && s.disk == [] && s.file == Writer([], [])
    && (forall w :: 0 <= w < |s.slaves| ==> s.slaves[w] == Slave(EMPTY, [], 0, []) && s.pcs[w] == Idle)
  }

  /** The buffers of worker `w` on disk. */
  function OnDisk(disk: seq<Page>, w: nat): seq<LogBuffer> {
    if disk == [] then []
    else OnDisk(disk[..|disk| - 1], w) + if disk[|disk| - 1].worker == w then [disk[|disk| - 1].buffer] else []
  }

  function DiskBytes(disk: seq<Page>): seq<Byte> {
    if disk == [] then [] else DiskBytes(disk[..|disk| - 1]) + disk[|disk| - 1].buffer.bytes
  }

  function DiskPersists(disk: seq<Page>): nat {
    if disk == [] then 0 else DiskPersists(disk[..|disk| - 1]) + PersistsOf(disk[|disk| - 1].buffer.records)
  }

  /** On disk, then queued, then current: everything worker `w` has logged, in order. */
  ghost predicate Conserves(s: State, w: nat)
    requires w < |s.slaves|
  {
    Records(OnDisk(s.disk, w)) + Records(s.slaves[w].queue) + s.slaves[w].cur.records == s.slaves[w].logged
  }

  ghost predicate WorkerOk(s: State, w: nat)
    requires w < |s.slaves| == |s.pcs|
  {
    && SlaveOk(s.slaves[w]) && Conserves(s, w) && s.slaves[w].lastEpoch <= s.epoch && |s.slaves[w].queue| <= MAX_QUEUE
    && (s.pcs[w].Loaded? ==> s.slaves[w].lastEpoch <= s.pcs[w].epoch <= s.epoch && |s.pcs[w].bytes| <= MAX_BUFFER)
  }

  ghost predicate DiskOk(disk: seq<Page>) {
    forall i {:trigger disk[i]} :: 0 <= i < |disk| ==> BufferOk(disk[i].buffer) && OneEpoch(disk[i].buffer)
  }

  ghost predicate Inv(s: State) {
    && |s.pcs| == |s.slaves| && s.file == Writer(DiskBytes(s.disk), []) && s.committed == DiskPersists(s.disk)
    && DiskOk(s.disk)
    && (forall w {:trigger WorkerOk(s, w)} :: 0 <= w < |s.slaves| ==> WorkerOk(s, w))
  }

  lemma {:induction false} RecordsFront(q: seq<LogBuffer>)
    requires q != []
    ensures Records(q) == q[0].records + Records(q[1..])
  {
    if |q| > 1 {
      RecordsFront(q[..|q| - 1]);
      assert q[..|q| - 1][1..] == q[1..][..|q| - 2];
    }
  }

  lemma RecordsBack(q: seq<LogBuffer>, b: LogBuffer)
    ensures Records(q + [b]) == Records(q) + b.records
  {
    assert (q + [b])[..|q|] == q;
  }

  lemma DiskAdd(disk: seq<Page>, p: Page, w: nat)
    ensures OnDisk(disk + [p], w) == if p.worker == w then OnDisk(disk, w) + [p.buffer] else OnDisk(disk, w)
    ensures DiskBytes(disk + [p]) == DiskBytes(disk) + p.buffer.bytes
    ensures DiskPersists(disk + [p]) == DiskPersists(disk) + PersistsOf(p.buffer.records)
  {
    assert (disk + [p])[..|disk|] == disk;
  }

  /** A whole buffer always fits the file writer, which is empty after every sync. */
  lemma DrainFits(d: seq<Byte>, bytes: seq<Byte>)
    requires |bytes| <= MAX_BUFFER
    ensures Put(Writer(d, []), MAX_BUFFER, bytes).Some? && Synced(Put(Writer(d, []), MAX_BUFFER, bytes).value)
      == Writer(d + bytes, [])
  {
    PutAppends(Writer(d, []), MAX_BUFFER, bytes);
  }

  lemma WriteConserves(s: State, w: nat)
    requires Inv(s) && Can(s, Write(w))
    ensures Conserves(After(s, Write(w)), w)
  {
    assert WorkerOk(s, w);
    var x, pc := s.slaves[w], s.pcs[w];
    RecordsBack(x.queue, x.cur);
  }

  lemma Regroup(a: seq<Record>, b: seq<Record>, c: seq<Record>, d: seq<Record>)
    ensures (a + b) + c + d == a + (b + c) + d
  {
  }

  lemma MoveFront(disk: seq<LogBuffer>, q: seq<LogBuffer>, rest: seq<Record>)
    requires q != []
    ensures Records(disk + [q[0]]) + Records(q[1..]) + rest == Records(disk) + Records(q) + rest
  {
    RecordsFront(q);
    RecordsBack(disk, q[0]);
    Regroup(Records(disk), q[0].records, Records(q[1..]), rest);
  }

  lemma DrainConserves(s: State, w: nat, v: nat)
    requires Inv(s) && Can(s, Drain(w)) && v < |s.slaves|
    ensures Conserves(After(s, Drain(w)), v)
  {
    assert WorkerOk(s, v);
    DiskAdd(s.disk, Page(w, s.slaves[w].queue[0]), v);
    if v == w {
      MoveFront(OnDisk(s.disk, w), s.slaves[w].queue, s.slaves[w].cur.records);
    }
  }

  lemma WriteWorker(s: State, w: nat)
    requires Inv(s) && Can(s, Write(w))
    ensures WorkerOk(After(s, Write(w)), w)
  {
    assert WorkerOk(s, w);
    WriteConserves(s, w);
    WriteOk(s.slaves[w], s.pcs[w].bytes, s.pcs[w].persist, s.pcs[w].epoch);
  }

  lemma DrainWorker(s: State, w: nat, v: nat)
    requires Inv(s) && Can(s, Drain(w)) && v < |s.slaves|
    ensures WorkerOk(After(s, Drain(w)), v)
  {
    assert WorkerOk(s, v);
    DrainConserves(s, w, v);
    if v == w {
      var q := s.slaves[w].queue;
      forall i | 0 <= i < |q[1..]| ensures BufferOk(q[1..][i]) && OneEpoch(q[1..][i]) {
        assert q[1..][i] == q[i + 1];
      }
    }
  }

  lemma DrainDisk(s: State, w: nat)
    requires Inv(s) && Can(s, Drain(w))
    ensures var t := After(s, Drain(w));
      t.file == Writer(DiskBytes(t.disk), []) && t.committed == DiskPersists(t.disk) && DiskOk(t.disk)
  {
    assert WorkerOk(s, w);
    var b := s.slaves[w].queue[0];
    DiskAdd(s.disk, Page(w, b), w);
    DrainFits(DiskBytes(s.disk), b.bytes);
  }

  lemma StepInv(s: State, a: Action)
    requires Inv(s) && Can(s, a)
    ensures Inv(After(s, a))
  {
    var t := After(s, a);
    if a.Drain? { DrainDisk(s, a.w); }
    forall w | 0 <= w < |t.slaves| ensures WorkerOk(t, w) {
      assert WorkerOk(s, w);
      if a.Write? && a.w == w {
        WriteWorker(s, w);
      } else if a.Drain? {
        DrainWorker(s, a.w, w);
      }
    }
  }

  lemma InitInv(s: State)
    requires Init(s)
    ensures Inv(s)
  {
    forall w | 0 <= w < |s.slaves| ensures WorkerOk(s, w) {
      assert OnDisk(s.disk, w) == [];
    }
  }

  // ----- whole runs -----

  ghost predicate IsRun(run: seq<State>, acts: seq<Action>) {
    && |run| == |acts| + 1 && Init(run[0])
    && (forall i {:trigger acts[i]} :: 0 <= i < |acts| ==> Can(run[i], acts[i]) && run[i + 1] == After(run[i], acts[i]))
  }

  lemma {:induction false} RunInv(run: seq<State>, acts: seq<Action>, n: nat)
    requires IsRun(run, acts) && n < |run|
    ensures Inv(run[n])
  {
    if n == 0 {
      InitInv(run[0]);
    } else {
      RunInv(run, acts, n - 1);
      assert Can(run[n - 1], acts[n - 1]);
      StepInv(run[n - 1], acts[n - 1]);
    }
  }

  function BufferBytes(q: seq<LogBuffer>): seq<Byte> {
    if q == [] then [] else BufferBytes(q[..|q| - 1]) + q[|q| - 1].bytes
  }

  lemma {:induction false} BufferBytesOf(q: seq<LogBuffer>)
    requires BuffersOk(q)
    ensures BufferBytes(q) == BytesOf(Records(q))
  {
    if q != [] {
      assert BufferOk(q[|q| - 1]);
      BufferBytesOf(q[..|q| - 1]);
      RecordsJoin(Records(q[..|q| - 1]), q[|q| - 1].records);
    }
  }

  lemma {:induction false} OnDiskOk(disk: seq<Page>, w: nat)
    requires DiskOk(disk)
    ensures BuffersOk(OnDisk(disk, w))
  {
    if disk != [] {
      OnDiskOk(disk[..|disk| - 1], w);
    }
  }

  /** Per worker: bytes on disk, then queued, then current, are exactly the bytes it logged, in order. */
  lemma NothingLost(run: seq<State>, acts: seq<Action>, n: nat, w: nat)
    requires IsRun(run, acts) && n < |run| && w < |run[n].slaves|
    ensures var s, x := run[n], run[n].slaves[w];
            BufferBytes(OnDisk(s.disk, w)) + BufferBytes(x.queue) + x.cur.bytes == BytesOf(x.logged)
  {
    var s, x := run[n], run[n].slaves[w];
    RunInv(run, acts, n);
    assert WorkerOk(s, w);
    OnDiskOk(s.disk, w);
    BufferBytesOf(OnDisk(s.disk, w));
    BufferBytesOf(x.queue);
    RecordsJoin(Records(OnDisk(s.disk, w)), Records(x.queue));
    RecordsJoin(Records(OnDisk(s.disk, w)) + Records(x.queue), x.cur.records);
  }

  /** The device holds the drained buffers back to back, and the committed count is the number of persist-marked records
      among them. */
  lemma DiskIsPages(run: seq<State>, acts: seq<Action>, n: nat)
    requires IsRun(run, acts) && n < |run|
    ensures run[n].file.durable == DiskBytes(run[n].disk) && run[n].committed == DiskPersists(run[n].disk)
  {
    RunInv(run, acts, n);
  }

  /** Every buffer is within capacity and, among records with content, of one epoch; a worker's records never go back
      in epoch, from disk through the queue to the current buffer. */
  lemma EpochsInOrder(run: seq<State>, acts: seq<Action>, n: nat, w: nat)
    requires IsRun(run, acts) && n < |run| && w < |run[n].slaves|
    ensures var s, x := run[n], run[n].slaves[w];
            && BufferOk(x.cur) && OneEpoch(x.cur) && BuffersOk(x.queue) && OneEach(x.queue) && DiskOk(s.disk)
            && Ascending(Records(OnDisk(s.disk, w)) + Records(x.queue) + x.cur.records)
  {
    RunInv(run, acts, n);
    assert WorkerOk(run[n], w);
  }

  // ----- one epoch per buffer over whole runs -----

  ghost predicate DiskSingle(disk: seq<Page>) {
    forall i {:trigger disk[i]} :: 0 <= i < |disk| ==> Single(disk[i].buffer)
  }

  ghost predicate WorkerSingle(x: Slave) {
    Single(x.cur) && Singles(x.queue)
  }

  /** Every buffer, current, queued or on disk, holds the records of one epoch only. */
  ghost predicate AllSingle(s: State) {
    DiskSingle(s.disk) && forall w {:trigger s.slaves[w]} :: 0 <= w < |s.slaves| ==> WorkerSingle(s.slaves[w])
  }

  predicate MixesIn(s: State, a: Action) {
    a.Write? && a.w < |s.slaves| && a.w < |s.pcs| && s.pcs[a.w].Loaded? && Mixes(s.slaves[a.w], s.pcs[a.w].epoch)
  }

  lemma WriteSingle(s: State, w: nat)
    requires Inv(s) && Can(s, Write(w))
    ensures AllSingle(After(s, Write(w))) <==> AllSingle(s) && !MixesIn(s, Write(w))
  {
    var t, x, pc := After(s, Write(w)), s.slaves[w], s.pcs[w];
    assert WorkerOk(s, w);
    WriteMixesExactly(x, pc.bytes, pc.persist, pc.epoch);
    assert WorkerSingle(t.slaves[w]) <==> WorkerSingle(x) && !MixesIn(s, Write(w));
    assert forall v :: 0 <= v < |s.slaves| && v != w ==> t.slaves[v] == s.slaves[v];
    if AllSingle(t) {
      forall v | 0 <= v < |s.slaves| ensures WorkerSingle(s.slaves[v]) {
        assert WorkerSingle(t.slaves[v]);
      }
    }
  }

  lemma DiskSingleAdd(disk: seq<Page>, p: Page)
    ensures DiskSingle(disk + [p]) <==> DiskSingle(disk) && Single(p.buffer)
  {
    if DiskSingle(disk + [p]) {
      assert (disk + [p])[|disk|] == p;
      forall i | 0 <= i < |disk| ensures Single(disk[i].buffer) { assert (disk + [p])[i] == disk[i]; }
    }
  }

  lemma SinglesFront(q: seq<LogBuffer>)
    requires q != []
    ensures Singles(q) <==> Single(q[0]) && Singles(q[1..])
  {
    if Singles(q[1..]) && Single(q[0]) {
      forall i | 0 <= i < |q| ensures Single(q[i]) {
        if i > 0 { assert q[i] == q[1..][i - 1]; }
      }
    }
  }

  lemma DrainSingle(s: State, w: nat)
    requires Can(s, Drain(w))
    ensures AllSingle(After(s, Drain(w))) <==> AllSingle(s)
  {
    var t, x := After(s, Drain(w)), s.slaves[w];
    DiskSingleAdd(s.disk, Page(w, x.queue[0]));
    SinglesFront(x.queue);
    assert forall v :: 0 <= v < |s.slaves| && v != w ==> t.slaves[v] == s.slaves[v];
    assert WorkerSingle(t.slaves[w]) && Single(x.queue[0]) <==> WorkerSingle(x);
    if AllSingle(t) {
      forall v | 0 <= v < |s.slaves| ensures WorkerSingle(s.slaves[v]) {
        assert WorkerSingle(t.slaves[v]);
      }
    }
  }

  lemma StepSingle(s: State, a: Action)
    requires Inv(s) && Can(s, a)
    ensures AllSingle(After(s, a)) <==> AllSingle(s) && !MixesIn(s, a)
  {
    match a
    case Load(_, _, _) =>
    case Write(w) => WriteSingle(s, w);
    case Tick =>
    case Drain(w) => DrainSingle(s, w);
  }

  /** After n steps every buffer holds the records of one epoch only, if and only if none of these steps was a write
      under a new epoch that found its buffer with records but without content. */
  lemma {:induction false} OneEpochExactly(run: seq<State>, acts: seq<Action>, n: nat)
    requires IsRun(run, acts) && n < |run|
    ensures AllSingle(run[n]) <==> forall i {:trigger acts[i]} :: 0 <= i < n ==> !MixesIn(run[i], acts[i])
  {
    if n > 0 {
      OneEpochExactly(run, acts, n - 1);
      RunInv(run, acts, n - 1);
      assert Can(run[n - 1], acts[n - 1]) && run[n] == After(run[n - 1], acts[n - 1]);
      StepSingle(run[n - 1], acts[n - 1]);
    }
  }

  /** Nothing without content has been logged, or is about to be. */
  ghost predicate NoBlank(s: State) {
    && |s.pcs| == |s.slaves|
    && (forall w {:trigger s.pcs[w]} :: 0 <= w < |s.pcs| && s.pcs[w].Loaded? ==> s.pcs[w].bytes != [])
    && (forall w, i {:trigger s.slaves[w].cur.records[i]} ::
       0 <= w < |s.slaves| && 0 <= i < |s.slaves[w].cur.records| ==> s.slaves[w].cur.records[i].bytes != [])
  }

  lemma NoBlankStep(s: State, a: Action)
    requires Inv(s) && Can(s, a) && NoBlank(s) && (a.Load? ==> a.bytes != [])
    ensures NoBlank(After(s, a)) && !MixesIn(s, a)
  {
    if a.Write? {
      assert WorkerOk(s, a.w);
      var x := s.slaves[a.w];
      if x.cur.records != [] {
        HasBytes(x.cur.records, 0);
      }
    }
  }

  lemma {:induction false} NoBlankRun(run: seq<State>, acts: seq<Action>, n: nat)
    requires IsRun(run, acts) && n < |run| && forall i {:trigger acts[i]} ::
      0 <= i < |acts| && acts[i].Load? ==> acts[i].bytes != []
    ensures NoBlank(run[n]) && forall i {:trigger acts[i]} :: 0 <= i < n ==> !MixesIn(run[i], acts[i])
  {
    if n > 0 {
      NoBlankRun(run, acts, n - 1);
      RunInv(run, acts, n - 1);
      assert Can(run[n - 1], acts[n - 1]) && run[n] == After(run[n - 1], acts[n - 1]);
      NoBlankStep(run[n - 1], acts[n - 1]);
    }
  }

  /** If no record is empty, as every caller in the program has it, each buffer holds the records of one epoch only. */
  lemma ContentKeepsEpochs(run: seq<State>, acts: seq<Action>, n: nat)
    requires IsRun(run, acts) && n < |run| && forall i {:trigger acts[i]} ::
      0 <= i < |acts| && acts[i].Load? ==> acts[i].bytes != []
    ensures AllSingle(run[n])
  {
    NoBlankRun(run, acts, n);
    OneEpochExactly(run, acts, n);
  }
}
