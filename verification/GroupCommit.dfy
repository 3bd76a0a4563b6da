/** The group-commit logger: writers append under a mutex and, if they want durability, spin on `sync_lsn`; one sync
    thread flushes under the same mutex.  `logged` is auxiliary: all bytes appended so far, in log order. */
module GroupCommit {
  import opened ByteOrder
  import opened SeqOps
  import opened FileWriter

  type Tid = nat

  /** A writer after its append: the range it was given and its bytes. */
  datatype Pc =
    | Idle
    | Appended(start: nat, end: nat, bytes: seq<Byte>)
    | Spinning(start: nat, end: nat, bytes: seq<Byte>)
    | Returned(start: nat, end: nat, bytes: seq<Byte>, persisted: bool)

  datatype SyncPc =
    | Sleeping
    | Locked
    | Loaded(flush: nat)
    | Counted(flush: nat, cnt: nat)
    | Flushed(flush: nat, cnt: nat)
    | Settled(flush: nat)

  datatype State = State(capacity: nat, groupSize: nat, writer: Writer, writeLsn: nat, syncLsn: nat, waiting: nat,
                         threads: map<Tid, Pc>, sync: SyncPc, logged: seq<Byte>)

  datatype Action = Append(t: Tid, bytes: seq<Byte>, persist: bool) | Run(t: Tid) | Wake(due: bool) | SyncStep

  /** The mutex is held by the sync thread while it is awake. */
  predicate MutexFree(s: State) {
    s.sync == Sleeping
  }

  ghost predicate Can(s: State, a: Action) {
    && |s.writer.buffered| < s.capacity
    && match a
       case Append(t, bytes, _) =>
         t in s.threads && (s.threads[t].Idle? || s.threads[t].Returned?) && MutexFree(s)
           && Put(s.writer, s.capacity, bytes).Some?
       case Run(t) => t in s.threads
       case Wake(_) => MutexFree(s)
       case SyncStep => !MutexFree(s)
  }

  function RunThread(s: State, t: Tid): State
    requires t in s.threads
  {
    match s.threads[t]
    case Appended(a, b, x) => s.(waiting := s.waiting + 1, threads := s.threads[t := Spinning(a, b, x)])
    case Spinning(a, b, x) => if s.syncLsn < b then s else s.(threads := s.threads[t := Returned(a, b, x, true)])
    case _ => s
  }

  function RunSync(s: State): State {
    match s.sync
    case Sleeping => s
    case Locked => s.(sync := Loaded(s.writeLsn))
    case Loaded(f) => s.(sync := Counted(f, s.waiting))
    case Counted(f, n) =>
      s.(sync := Flushed(f, n), writer := if s.syncLsn < s.writeLsn then Synced(s.writer) else s.writer)
    case Flushed(f, n) => s.(sync := Settled(f), waiting := if n <= s.waiting then s.waiting - n else 0)
    case Settled(f) => s.(sync := Sleeping, syncLsn := f)
  }

  ghost function After(s: State, a: Action): State
    requires Can(s, a)
  {
    match a
    case Append(t, bytes, persist) =>
      var start, end := s.writeLsn, s.writeLsn + |bytes|;
      s.(writer := Put(s.writer, s.capacity, bytes).value, writeLsn := end, logged := s.logged + bytes,
         threads := s.threads[t := if persist then Appended(start, end, bytes) else Returned(start, end, bytes, false)])
    case Run(t) => RunThread(s, t)
    case Wake(due) => if s.waiting < s.groupSize && !due then s else s.(sync := Locked)
    case SyncStep => RunSync(s)
  }

  ghost predicate Init(s: State) {
    && s.capacity > 0 && s.writer == Writer([], []) && s.writeLsn == s.syncLsn == s.waiting == 0 && s.logged == []
    && s.sync == Sleeping && forall t :: t in s.threads ==> s.threads[t] == Idle
  }

  // ----- the invariant -----

  ghost predicate RangeOk(s: State, start: nat, end: nat, bytes: seq<Byte>) {
    start <= end <= |s.logged| && s.logged[start..end] == bytes
  }

  ghost predicate ThreadOk(s: State, pc: Pc) {
    match pc
    case Idle => true
    case Appended(a, b, x) => RangeOk(s, a, b, x)
    case Spinning(a, b, x) => RangeOk(s, a, b, x)
    case Returned(a, b, x, persisted) => RangeOk(s, a, b, x) && (persisted ==> b <= s.syncLsn)
  }

  ghost predicate SyncOk(s: State) {
    match s.sync
    case Sleeping => true
    case Locked => true
    case Loaded(f) => f == s.writeLsn
    case Counted(f, n) => f == s.writeLsn && n <= s.waiting
    case Flushed(f, n) => f == s.writeLsn == |s.writer.durable| && n <= s.waiting
    case Settled(f) => f == s.writeLsn == |s.writer.durable|
  }

  ghost predicate Inv(s: State) {
    && |s.writer.buffered| < s.capacity && s.writer.durable + s.writer.buffered == s.logged
    && s.syncLsn <= |s.writer.durable| && s.writeLsn == |s.logged| && SyncOk(s)
    && (forall t {:trigger s.threads[t]} :: t in s.threads ==> ThreadOk(s, s.threads[t]))
  }

  lemma ThreadKeeps(s: State, t: State, pc: Pc)
    requires ThreadOk(s, pc) && s.logged <= t.logged && s.syncLsn <= t.syncLsn
    ensures ThreadOk(t, pc)
  {
    if !pc.Idle? {
      assert t.logged[pc.start..pc.end] == s.logged[pc.start..pc.end];
    }
  }

  lemma StepInv(s: State, a: Action)
    requires Inv(s) && Can(s, a)
    ensures Inv(After(s, a)) && s.logged <= After(s, a).logged && s.writer.durable <= After(s, a).writer.durable
    ensures s.syncLsn <= After(s, a).syncLsn
  {
    var t := After(s, a);
    if a.Append? {
      PutAppends(s.writer, s.capacity, a.bytes);
      assert t.logged[s.writeLsn..s.writeLsn + |a.bytes|] == a.bytes;
    }
    forall x | x in t.threads ensures ThreadOk(t, t.threads[x]) {
      if x in s.threads {
        ThreadKeeps(s, t, s.threads[x]);
      }
    }
  }

  // ----- whole runs -----

  ghost predicate IsRun(run: seq<State>, acts: seq<Action>) {
    && |run| == |acts| + 1 && Init(run[0])
    && (forall i {:trigger acts[i]} :: 0 <= i < |acts| ==> Can(run[i], acts[i]) && run[i + 1] == After(run[i], acts[i]))
  }

  lemma {:induction false} RunInv(run: seq<State>, acts: seq<Action>, n: nat)
    requires IsRun(run, acts) && n < |run|
    ensures Inv(run[n])
  {
    if n > 0 {
      RunInv(run, acts, n - 1);
      assert Can(run[n - 1], acts[n - 1]);
      StepInv(run[n - 1], acts[n - 1]);
    }
  }

  /** The bytes of the writes, in the order in which they got the mutex. */
  function Writes(acts: seq<Action>): seq<Byte> {
    if acts == [] then []
    else Writes(acts[..|acts| - 1]) + if acts[|acts| - 1].Append? then acts[|acts| - 1].bytes else []
  }

  lemma {:induction false} LoggedIsWrites(run: seq<State>, acts: seq<Action>, n: nat)
    requires IsRun(run, acts) && n < |run|
    ensures run[n].logged == Writes(acts[..n])
  {
    if n > 0 {
      LoggedIsWrites(run, acts, n - 1);
      assert acts[..n][..n - 1] == acts[..n - 1];
      assert run[n] == After(run[n - 1], acts[n - 1]);
    }
  }

  /** `sync_lsn` never runs ahead of the device, the device never ahead of `write_lsn`, and what it holds is a prefix of
      the concatenated writes. */
  lemma DurablePrefix(run: seq<State>, acts: seq<Action>, n: nat)
    requires IsRun(run, acts) && n < |run|
    ensures run[n].syncLsn <= |run[n].writer.durable| <= run[n].writeLsn == |Writes(acts[..n])|
    ensures run[n].writer.durable <= Writes(acts[..n])
  {
    RunInv(run, acts, n);
    LoggedIsWrites(run, acts, n);
  }

  /** A persisting write that has returned has its whole range on the device, with its bytes. */
  lemma ReturnedIsDurable(run: seq<State>, acts: seq<Action>, n: nat, t: Tid)
    requires IsRun(run, acts) && n < |run| && t in run[n].threads && run[n].threads[t].Returned?
      && run[n].threads[t].persisted
    ensures var pc, d := run[n].threads[t], run[n].writer.durable;
            pc.start <= pc.end <= |d| && d[pc.start..pc.end] == pc.bytes
  {
    var s := run[n];
    RunInv(run, acts, n);
    var pc := s.threads[t];
    assert s.logged[pc.start..pc.end] == s.writer.durable[pc.start..pc.end];
  }
}
