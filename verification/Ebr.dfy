/** Epoch-based reclamation across hosts: every shared load, store and compare-and-swap of `enter_critical_section`
    is one step, so the scan of the local epochs and the advance of the global one interleave with other threads. */
module Ebr {

  const ADVANCE_THRESHOLD: nat := 100
  const EPOCH_LISTS: nat := 3

  /** A worker: its host and its index there. */
  datatype Tid = Tid(c: nat, t: nat)

  /** A retired object; its id is its index in the order of retirement.  `seen` and `global` are auxiliary: the local
      epochs and the global epoch at the moment of retirement. */
  datatype Obj = Obj(owner: Tid, epoch: nat, seen: map<Tid, nat>, global: nat)

  /** Auxiliary record of one free: the object, the freeing thread, and the local epochs at that moment. */
  datatype Free = Free(id: nat, who: Tid, at: map<Tid, nat>)

  datatype Pc =
    | Idle
    | Loaded(l: nat)
    | Scan(l: nat, g: nat, c: nat, t: nat, advance: bool)
    | Cas(l: nat, g: nat)
    | Reload(l: nat)
    | Store(l: nat, g: nat)
    | Reclaim(g: nat)
    | Freeing(epoch: nat, i: nat)
    | CheckFailed

  /** What a thread keeps to itself. */
  datatype Meta = Meta(lastFreed: nat, lists: seq<seq<nat>>, pc: Pc)

  datatype State = State(hosts: nat, perHost: nat, g: nat, local: map<Tid, nat>, mine: map<Tid, Meta>,
                         retired: seq<Obj>, freed: seq<Free>)

  datatype Action = Retire(u: Tid) | Step(u: Tid)

  ghost predicate Shape(s: State) {
    && (forall u {:trigger u in s.local} :: u in s.local <==> u.c < s.hosts && u.t < s.perHost)
    && s.mine.Keys == s.local.Keys
    && (forall u {:trigger s.mine[u]} :: u in s.mine ==> |s.mine[u].lists| == EPOCH_LISTS)
  }

  ghost predicate Init(s: State) {
    && Shape(s) && s.g == 0 && s.retired == [] && s.freed == []
    && (forall u {:trigger s.local[u]} :: u in s.local ==> s.local[u] == 0)
    && (forall u {:trigger s.mine[u]} :: u in s.mine ==> s.mine[u] == Meta(0, [[], [], []], Idle))
  }

  function SetPc(s: State, u: Tid, pc: Pc): State
    requires u in s.mine
  {
    s.(mine := s.mine[u := s.mine[u].(pc := pc)])
  }

  // ----- add_retired_object -----

  function RetireOne(s: State, u: Tid): State
    requires u in s.mine && u in s.local && |s.mine[u].lists| == EPOCH_LISTS
  {
    var e := s.local[u];
    var r := e % EPOCH_LISTS;
    var lists := s.mine[u].lists[r := s.mine[u].lists[r] + [|s.retired|]];
    s.(mine := s.mine[u := s.mine[u].(lists := lists)], retired := s.retired + [Obj(u, e, s.local, s.g)])
  }

  // ----- enter_critical_section, one shared access at a time -----

  function LoadGlobal(s: State, u: Tid, l: nat): Pc
    requires u in s.mine && |s.mine[u].lists| == EPOCH_LISTS
  {
    if s.g == l then
      if |s.mine[u].lists[l % EPOCH_LISTS]| >= ADVANCE_THRESHOLD then Scan(l, s.g, 0, 0, true) else Reload(l)
    else if s.g > l then Reload(l) else CheckFailed
  }

  /** One read of the scan; a thread that lags behind ends its host's row, not the scan. */
  function ScanOne(s: State, l: nat, g: nat, c: nat, t: nat, advance: bool): Pc {
    if c >= s.hosts then if advance then Cas(l, g) else Reload(l)
    else if t >= s.perHost then Scan(l, g, c + 1, 0, advance)
    else if Tid(c, t) in s.local && s.local[Tid(c, t)] < g then Scan(l, g, c + 1, 0, false)
    else Scan(l, g, c, t + 1, advance)
  }

  function ReloadGlobal(s: State, l: nat): Pc {
    if l < s.g then if l == s.g - 1 then Store(l, s.g) else CheckFailed else Reclaim(s.g)
  }

  function StartReclaim(m: Meta, g: nat): Pc {
    if g >= 2 && g - 2 > m.lastFreed then if g - 2 == m.lastFreed + 1 then Freeing(g - 2, 0) else CheckFailed
    else Idle
  }

  function FreeNext(s: State, u: Tid, epoch: nat, i: nat): State
    requires u in s.mine && |s.mine[u].lists| == EPOCH_LISTS
  {
    var m := s.mine[u];
    var list := m.lists[epoch % EPOCH_LISTS];
    if i < |list| then SetPc(s, u, Freeing(epoch, i + 1)).(freed := s.freed + [Free(list[i], u, s.local)])
    else s.(mine := s.mine[u := Meta(epoch, m.lists[epoch % EPOCH_LISTS := []], Idle)])
  }

  function StepOf(s: State, u: Tid): State
    requires u in s.mine && u in s.local && |s.mine[u].lists| == EPOCH_LISTS
  {
    match s.mine[u].pc
    case Idle => SetPc(s, u, Loaded(s.local[u]))
    case Loaded(l) => SetPc(s, u, LoadGlobal(s, u, l))
    case Scan(l, g, c, t, advance) => SetPc(s, u, ScanOne(s, l, g, c, t, advance))
    case Cas(l, g) => SetPc(s, u, Reload(l)).(g := if s.g == g then g + 1 else s.g)
    case Reload(l) => SetPc(s, u, ReloadGlobal(s, l))
    case Store(_, g) => SetPc(s, u, Reclaim(g)).(local := s.local[u := g])
    case Reclaim(g) => SetPc(s, u, StartReclaim(s.mine[u], g))
    case Freeing(epoch, i) => FreeNext(s, u, epoch, i)
    case CheckFailed => s
  }

  ghost predicate Can(s: State, a: Action) {
    a.u in s.local && (a.Retire? ==> a.u in s.mine && s.mine[a.u].pc == Idle)
  }

  function After(s: State, a: Action): State
    requires a.u in s.mine && a.u in s.local && |s.mine[a.u].lists| == EPOCH_LISTS
  {
    match a
    case Retire(u) => RetireOne(s, u)
    case Step(u) => StepOf(s, u)
  }

  // ----- the invariant -----

  function Back(l: nat, d: nat): nat {
    if l < d then 0 else l - d
  }

  /** Local epochs trail the global one by at most one. */
  ghost predicate Epochs(s: State) {
    forall u {:trigger s.local[u]} :: u in s.local ==> s.local[u] <= s.g <= s.local[u] + 1
  }

  predicate Before(u: Tid, c: nat, t: nat) {
    u.c < c || (u.c == c && u.t < t)
  }

  ghost predicate Passed(s: State, g: nat, c: nat, t: nat) {
    forall v {:trigger s.local[v]} :: v in s.local && Before(v, c, t) ==> g <= s.local[v]
  }

  ghost predicate PcOk(s: State, u: Tid)
    requires u in s.mine && u in s.local && |s.mine[u].lists| == EPOCH_LISTS
  {
    var m, e := s.mine[u], s.local[u];
    match m.pc
    case Idle => m.lastFreed == Back(e, 2)
    case Loaded(l) => l == e && m.lastFreed == Back(e, 2)
    case Scan(l, g, c, t, advance) => l == e == g && m.lastFreed == Back(e, 2) && (advance ==> Passed(s, g, c, t))
    case Cas(l, g) => l == e == g && m.lastFreed == Back(e, 2) && Passed(s, g, s.hosts, 0)
    case Reload(l) => l == e && m.lastFreed == Back(e, 2)
    case Store(l, g) => l == e && g == e + 1 == s.g && m.lastFreed == Back(e, 2)
    case Reclaim(g) => g == e && (m.lastFreed == Back(e, 2) || m.lastFreed == Back(e, 3))
    case Freeing(epoch, i) =>
      epoch >= 1 && e == epoch + 2 && m.lastFreed == epoch - 1 && i <= |m.lists[epoch % EPOCH_LISTS]|
    case CheckFailed => false
  }

  ghost predicate Threads(s: State)
    requires Shape(s)
  {
    forall u {:trigger PcOk(s, u)} :: u in s.mine ==> PcOk(s, u)
  }

  /** An object waits in the list of its epoch modulo three. */
  ghost predicate Listed(s: State, id: nat)
    requires Shape(s) && id < |s.retired|
  {
    var o := s.retired[id];
    o.owner in s.mine && id in s.mine[o.owner].lists[o.epoch % EPOCH_LISTS]
  }

  /** ... of which the owner may have freed a prefix that it has not cleared yet. */
  ghost predicate Sunk(s: State, id: nat)
    requires Shape(s) && id < |s.retired|
  {
    var o := s.retired[id];
    && o.owner in s.mine && s.mine[o.owner].pc.Freeing?
    && s.mine[o.owner].pc.epoch % EPOCH_LISTS == o.epoch % EPOCH_LISTS
    && s.mine[o.owner].pc.i <= |s.mine[o.owner].lists[o.epoch % EPOCH_LISTS]|
    && id in s.mine[o.owner].lists[o.epoch % EPOCH_LISTS][..s.mine[o.owner].pc.i]
  }

  ghost predicate IsFreed(s: State, id: nat) {
    exists k :: 0 <= k < |s.freed| && s.freed[k].id == id
  }

  ghost predicate ObjOk(s: State, o: Obj) {
    && o.owner in s.local && o.seen.Keys == s.local.Keys && o.seen[o.owner] == o.epoch
    && o.epoch <= o.global <= o.epoch + 1
    && (forall u {:trigger o.seen[u]} :: u in o.seen ==> o.seen[u] <= s.local[u] && o.seen[u] <= o.global)
  }

  ghost predicate Distinct(list: seq<nat>) {
    forall i, j :: 0 <= i < j < |list| ==> list[i] != list[j]
  }

  /** What waits in list `r` of thread `u`: objects of its own, of an epoch it has not reclaimed, and in list 0 also
      the objects of epoch 0, which is never reclaimed on its own. */
  ghost predicate ListOk(s: State, u: Tid, r: nat)
    requires u in s.mine && u in s.local && |s.mine[u].lists| == EPOCH_LISTS && r < EPOCH_LISTS
  {
    var m := s.mine[u];
    && Distinct(m.lists[r])
    && (forall k :: 0 <= k < |m.lists[r]| ==>
          && m.lists[r][k] < |s.retired|
          && var o := s.retired[m.lists[r][k]];
             o.owner == u && o.epoch % EPOCH_LISTS == r && o.epoch <= s.local[u]
             && (m.lastFreed < o.epoch || (o.epoch == 0 && m.lastFreed < EPOCH_LISTS)))
  }

  ghost predicate Lists(s: State)
    requires Shape(s)
  {
    forall u, r {:trigger ListOk(s, u, r)} :: u in s.mine && 0 <= r < EPOCH_LISTS ==> ListOk(s, u, r)
  }

  /** Freed or still waiting, and never both once the list is cleared. */
  ghost predicate RecordOk(s: State, id: nat)
    requires Shape(s) && id < |s.retired|
  {
    ObjOk(s, s.retired[id]) && (IsFreed(s, id) <==> !Listed(s, id) || Sunk(s, id))
  }

  ghost predicate Retired(s: State)
    requires Shape(s)
  {
    forall id {:trigger RecordOk(s, id)} :: 0 <= id < |s.retired| ==> RecordOk(s, id)
  }

  /** A free was done by the owner when every thread had left the object's epoch behind. */
  ghost predicate FreeOk(s: State, f: Free) {
    && f.id < |s.retired|
    && var o := s.retired[f.id];
       f.who == o.owner && f.at.Keys == s.local.Keys && forall u {:trigger f.at[u]} ::
         u in f.at ==> o.epoch < f.at[u] && f.at[u] <= s.local[u]
  }

  ghost predicate Frees(s: State) {
    && (forall k {:trigger s.freed[k]} :: 0 <= k < |s.freed| ==> FreeOk(s, s.freed[k]))
    && (forall j, k {:trigger s.freed[j].id, s.freed[k].id} ::
       0 <= j < k < |s.freed| ==> s.freed[j].id != s.freed[k].id)
  }

  ghost predicate Inv(s: State) {
    Shape(s) && Epochs(s) && Threads(s) && Lists(s) && Retired(s) && Frees(s)
  }

  lemma InitInv(s: State)
    requires Init(s)
    ensures Inv(s)
  {
    forall u, r | u in s.mine && 0 <= r < EPOCH_LISTS ensures ListOk(s, u, r) {
      assert s.mine[u].lists[r] == [];
    }
  }

  // ----- steps that leave the garbage alone -----

  /** From s to t local epochs may grow and program counters move, but not past a free. */
  ghost predicate SameGarbage(s: State, t: State)
    requires Shape(s) && Shape(t)
  {
    && t.retired == s.retired && t.freed == s.freed && t.local.Keys == s.local.Keys
    && (forall u {:trigger t.local[u]} :: u in t.local ==> s.local[u] <= t.local[u])
    && (forall u {:trigger t.mine[u]} :: u in t.mine ==>
          && t.mine[u].lists == s.mine[u].lists && t.mine[u].lastFreed == s.mine[u].lastFreed
          && (t.mine[u].pc == s.mine[u].pc
             || (!s.mine[u].pc.Freeing? && (t.mine[u].pc.Freeing? ==> t.mine[u].pc.i == 0))))
  }

  lemma ListsKeep(s: State, t: State)
    requires Shape(s) && Shape(t) && SameGarbage(s, t) && Lists(s)
    ensures Lists(t)
  {
    forall v, r | v in t.mine && 0 <= r < EPOCH_LISTS ensures ListOk(t, v, r) {
      assert ListOk(s, v, r);
    }
  }

  lemma ObjKeep(s: State, t: State, o: Obj)
    requires Shape(s) && Shape(t) && t.local.Keys == s.local.Keys && ObjOk(s, o)
    requires forall u {:trigger t.local[u]} :: u in t.local ==> s.local[u] <= t.local[u]
    ensures ObjOk(t, o)
  {
  }

  lemma RecordsKeep(s: State, t: State)
    requires Shape(s) && Shape(t) && SameGarbage(s, t) && Retired(s)
    ensures Retired(t)
  {
    forall id | 0 <= id < |t.retired| ensures RecordOk(t, id) {
      assert RecordOk(s, id);
      ObjKeep(s, t, s.retired[id]);
      assert IsFreed(t, id) == IsFreed(s, id) && Listed(t, id) == Listed(s, id) && Sunk(t, id) == Sunk(s, id);
    }
  }

  lemma FreesKeep(s: State, t: State)
    requires Frees(s) && t.retired == s.retired && t.freed == s.freed && t.local.Keys == s.local.Keys
    requires forall u {:trigger t.local[u]} :: u in t.local ==> s.local[u] <= t.local[u]
    ensures Frees(t)
  {
    forall k | 0 <= k < |t.freed| ensures FreeOk(t, t.freed[k]) {
      assert FreeOk(s, s.freed[k]);
    }
  }

  lemma GarbageKeep(s: State, t: State)
    requires Inv(s) && Shape(t) && SameGarbage(s, t)
    ensures Lists(t) && Retired(t) && Frees(t)
  {
    ListsKeep(s, t);
    RecordsKeep(s, t);
    FreesKeep(s, t);
  }

  lemma PcStep(s: State, u: Tid, pc: Pc)
    requires Inv(s) && u in s.mine && !s.mine[u].pc.Freeing? && (pc.Freeing? ==> pc.i == 0)
    requires PcOk(SetPc(s, u, pc), u)
    ensures Inv(SetPc(s, u, pc))
  {
    var t := SetPc(s, u, pc);
    GarbageKeep(s, t);
    forall v | v in t.mine ensures PcOk(t, v) {
      assert PcOk(s, v);
    }
  }

  lemma ScanStep(s: State, u: Tid)
    requires Inv(s) && u in s.mine && s.mine[u].pc.Scan?
    ensures Inv(StepOf(s, u))
  {
    assert PcOk(s, u);
    var x := s.mine[u].pc;
    PcStep(s, u, ScanOne(s, x.l, x.g, x.c, x.t, x.advance));
  }

  /** The swap: had anyone been behind, the scan would have seen it, since local epochs only grow. */
  lemma CasStep(s: State, u: Tid)
    requires Inv(s) && u in s.mine && s.mine[u].pc.Cas?
    ensures Inv(StepOf(s, u))
  {
    var t := StepOf(s, u);
    assert PcOk(s, u);
    GarbageKeep(s, t);
    forall v | v in t.mine ensures PcOk(t, v) && t.local[v] <= t.g <= t.local[v] + 1 {
      assert PcOk(s, v);
      assert s.mine[u].pc.g <= s.local[v];
    }
  }

  /** Storing the new local epoch. */
  lemma StoreStep(s: State, u: Tid)
    requires Inv(s) && u in s.mine && s.mine[u].pc.Store?
    ensures Inv(StepOf(s, u))
  {
    var t := StepOf(s, u);
    assert PcOk(s, u);
    GarbageKeep(s, t);
    forall v | v in t.mine ensures PcOk(t, v) {
      StoreOther(s, u, v);
    }
  }

  lemma StoreOther(s: State, u: Tid, v: Tid)
    requires Inv(s) && u in s.mine && s.mine[u].pc.Store? && v in s.mine
    ensures PcOk(StepOf(s, u), v)
  {
    var t := StepOf(s, u);
    assert PcOk(s, u) && PcOk(s, v);
    assert forall w :: w in s.local ==> s.local[w] <= t.local[w];
  }

  /** The remaining loads. */
  lemma LoadStep(s: State, u: Tid)
    requires Inv(s) && u in s.mine
    requires s.mine[u].pc.Idle? || s.mine[u].pc.Loaded? || s.mine[u].pc.Reload? || s.mine[u].pc.Reclaim?
    ensures Inv(StepOf(s, u))
  {
    assert PcOk(s, u);
    assert s.local[u] <= s.g <= s.local[u] + 1;
    PcStep(s, u, StepOf(s, u).mine[u].pc);
  }

  // ----- freeing and retiring -----

  lemma NotFreedTwice(s: State, u: Tid)
    requires Inv(s) && u in s.mine && s.mine[u].pc.Freeing?
    requires s.mine[u].pc.i < |s.mine[u].lists[s.mine[u].pc.epoch % EPOCH_LISTS]|
    ensures var list := s.mine[u].lists[s.mine[u].pc.epoch % EPOCH_LISTS];
            && list[s.mine[u].pc.i] < |s.retired| && !IsFreed(s, list[s.mine[u].pc.i])
            && s.retired[list[s.mine[u].pc.i]].owner == u
            && s.retired[list[s.mine[u].pc.i]].epoch % EPOCH_LISTS == s.mine[u].pc.epoch % EPOCH_LISTS
            && s.retired[list[s.mine[u].pc.i]].epoch <= s.mine[u].pc.epoch
  {
    var e, i := s.mine[u].pc.epoch, s.mine[u].pc.i;
    assert PcOk(s, u) && ListOk(s, u, e % EPOCH_LISTS);
    var id := s.mine[u].lists[e % EPOCH_LISTS][i];
    assert RecordOk(s, id);
  }

  lemma FreeOne(s: State, u: Tid)
    requires Inv(s) && u in s.mine && s.mine[u].pc.Freeing?
    requires s.mine[u].pc.i < |s.mine[u].lists[s.mine[u].pc.epoch % EPOCH_LISTS]|
    ensures Inv(StepOf(s, u))
  {
    var t := StepOf(s, u);
    var e, i := s.mine[u].pc.epoch, s.mine[u].pc.i;
    assert PcOk(s, u);
    NotFreedTwice(s, u);
    forall v | v in t.mine ensures PcOk(t, v) {
      assert PcOk(s, v);
    }
    forall v, r | v in t.mine && 0 <= r < EPOCH_LISTS ensures ListOk(t, v, r) {
      assert ListOk(s, v, r);
    }
    FreeRecords(s, u);
    FreeFrees(s, u);
  }

  lemma FreeRecords(s: State, u: Tid)
    requires Inv(s) && u in s.mine && s.mine[u].pc.Freeing?
    requires s.mine[u].pc.i < |s.mine[u].lists[s.mine[u].pc.epoch % EPOCH_LISTS]|
    ensures Shape(StepOf(s, u)) && Retired(StepOf(s, u))
  {
    var t := StepOf(s, u);
    forall id | 0 <= id < |t.retired| ensures RecordOk(t, id) {
      assert RecordOk(s, id);
      FreeRecord(s, u, id);
    }
  }

  lemma FreeRecord(s: State, u: Tid, id: nat)
    requires Inv(s) && u in s.mine && s.mine[u].pc.Freeing? && id < |s.retired|
    requires s.mine[u].pc.i < |s.mine[u].lists[s.mine[u].pc.epoch % EPOCH_LISTS]|
    ensures Shape(StepOf(s, u)) && RecordOk(StepOf(s, u), id)
  {
    var t := StepOf(s, u);
    var e, i := s.mine[u].pc.epoch, s.mine[u].pc.i;
    var list := s.mine[u].lists[e % EPOCH_LISTS];
    assert RecordOk(s, id);
    NotFreedTwice(s, u);
    assert IsFreed(t, id) <==> IsFreed(s, id) || id == list[i] by {
      assert t.freed[|s.freed|].id == list[i];
      assert forall k :: 0 <= k < |s.freed| ==> t.freed[k] == s.freed[k];
    }
    assert list[..i + 1] == list[..i] + [list[i]];
  }

  lemma FreeFrees(s: State, u: Tid)
    requires Inv(s) && u in s.mine && s.mine[u].pc.Freeing?
    requires s.mine[u].pc.i < |s.mine[u].lists[s.mine[u].pc.epoch % EPOCH_LISTS]|
    ensures Frees(StepOf(s, u))
  {
    var t := StepOf(s, u);
    assert PcOk(s, u);
    NotFreedTwice(s, u);
    forall k | 0 <= k < |t.freed| ensures FreeOk(t, t.freed[k]) {
      if k < |s.freed| {
        assert FreeOk(s, s.freed[k]);
      } else {
        assert forall v :: v in s.local ==> s.g <= s.local[v] + 1;
      }
    }
  }

  lemma ClearLists(s: State, u: Tid, v: Tid, r: nat)
    requires Inv(s) && u in s.mine && s.mine[u].pc.Freeing? && v in s.mine && r < EPOCH_LISTS
    requires s.mine[u].pc.i >= |s.mine[u].lists[s.mine[u].pc.epoch % EPOCH_LISTS]|
    ensures ListOk(StepOf(s, u), v, r)
  {
    assert PcOk(s, u) && ListOk(s, v, r);
    if v == u && r == s.mine[u].pc.epoch % EPOCH_LISTS {
      assert StepOf(s, u).mine[v].lists[r] == [];
    }
  }

  lemma ClearRecord(s: State, u: Tid, id: nat)
    requires Inv(s) && u in s.mine && s.mine[u].pc.Freeing? && id < |s.retired|
    requires s.mine[u].pc.i >= |s.mine[u].lists[s.mine[u].pc.epoch % EPOCH_LISTS]|
    ensures Shape(StepOf(s, u)) && RecordOk(StepOf(s, u), id)
  {
    var t, list := StepOf(s, u), s.mine[u].lists[s.mine[u].pc.epoch % EPOCH_LISTS];
    assert RecordOk(s, id) && PcOk(s, u);
    assert IsFreed(t, id) == IsFreed(s, id);
    assert list[..s.mine[u].pc.i] == list;
  }

  lemma ClearList(s: State, u: Tid)
    requires Inv(s) && u in s.mine && s.mine[u].pc.Freeing?
    requires s.mine[u].pc.i >= |s.mine[u].lists[s.mine[u].pc.epoch % EPOCH_LISTS]|
    ensures Inv(StepOf(s, u))
  {
    var t := StepOf(s, u);
    assert PcOk(s, u);
    forall v | v in t.mine ensures PcOk(t, v) {
      assert PcOk(s, v);
    }
    forall v, r | v in t.mine && 0 <= r < EPOCH_LISTS ensures ListOk(t, v, r) {
      ClearLists(s, u, v, r);
    }
    forall id | 0 <= id < |t.retired| ensures RecordOk(t, id) {
      ClearRecord(s, u, id);
    }
    FreesKeep(s, t);
  }

  lemma RetireStep(s: State, u: Tid)
    requires Inv(s) && u in s.mine && s.mine[u].pc.Idle?
    ensures Inv(RetireOne(s, u))
  {
    var t := RetireOne(s, u);
    forall v | v in t.mine ensures PcOk(t, v) {
      assert PcOk(s, v);
    }
    forall v, r | v in t.mine && 0 <= r < EPOCH_LISTS ensures ListOk(t, v, r) {
      assert ListOk(s, v, r);
    }
    RetireRecords(s, u);
    forall k | 0 <= k < |t.freed| ensures FreeOk(t, t.freed[k]) {
      assert FreeOk(s, s.freed[k]);
    }
  }

  lemma RetireRecords(s: State, u: Tid)
    requires Inv(s) && u in s.mine && s.mine[u].pc.Idle?
    ensures Shape(RetireOne(s, u)) && Retired(RetireOne(s, u))
  {
    var t := RetireOne(s, u);
    forall id | 0 <= id < |t.retired| ensures RecordOk(t, id) {
      if id < |s.retired| {
        assert RecordOk(s, id);
      } else {
        assert forall k :: 0 <= k < |s.freed| ==> FreeOk(s, s.freed[k]);
      }
      assert IsFreed(t, id) == IsFreed(s, id);
    }
  }

  lemma StepInv(s: State, a: Action)
    requires Inv(s) && Can(s, a)
    ensures Inv(After(s, a))
  {
    if a.Retire? {
      RetireStep(s, a.u);
    } else {
      match s.mine[a.u].pc
      case Scan(_, _, _, _, _) => ScanStep(s, a.u);
      case Cas(_, _) => CasStep(s, a.u);
      case Store(_, _) => StoreStep(s, a.u);
      case Freeing(e, i) =>
        if i < |s.mine[a.u].lists[e % EPOCH_LISTS]| { FreeOne(s, a.u); } else { ClearList(s, a.u); }
      case CheckFailed =>
      case _ => LoadStep(s, a.u);
    }
  }

  // ----- whole runs -----

  ghost predicate IsRun(run: seq<State>, acts: seq<Action>) {
    && |run| == |acts| + 1 && Init(run[0])
    && (forall i {:trigger acts[i]} ::
       0 <= i < |acts| ==> Shape(run[i]) && Can(run[i], acts[i]) && run[i + 1] == After(run[i], acts[i]))
  }

  lemma {:induction false} RunInv(run: seq<State>, acts: seq<Action>, n: nat)
    requires IsRun(run, acts) && n < |run|
    ensures Inv(run[n])
  {
    if n == 0 {
      InitInv(run[0]);
    } else {
      RunInv(run, acts, n - 1);
      assert Can(run[n - 1], acts[n - 1]);
      StepInv(run[n - 1], acts[n - 1]);
    }
  }

  /** In every reachable state each local epoch is the global one or one behind it, no check has failed, and a thread
      between two calls has freed everything up to two epochs before its own. */
  lemma EpochsTight(run: seq<State>, acts: seq<Action>, n: nat, u: Tid)
    requires IsRun(run, acts) && n < |run| && u in run[n].local
    ensures run[n].local[u] <= run[n].g <= run[n].local[u] + 1
    ensures u in run[n].mine && !run[n].mine[u].pc.CheckFailed?
    ensures run[n].mine[u].pc.Idle? ==> run[n].mine[u].lastFreed == Back(run[n].local[u], 2)
  {
    RunInv(run, acts, n);
    assert PcOk(run[n], u);
  }

  lemma StepGrows(s: State, a: Action)
    requires Inv(s) && Can(s, a)
    ensures var t := After(s, a);
            && s.g <= t.g <= s.g + 1 && t.local.Keys == s.local.Keys && s.retired <= t.retired
            && forall u {:trigger t.local[u]} :: u in s.local ==> s.local[u] <= t.local[u] <= s.local[u] + 1
  {
    assert PcOk(s, a.u);
  }

  /** The global epoch grows one at a time, local epochs never fall. */
  lemma EpochsGrow(run: seq<State>, acts: seq<Action>, n: nat)
    requires IsRun(run, acts) && n + 1 < |run|
    ensures run[n].g <= run[n + 1].g <= run[n].g + 1
    ensures run[n + 1].local.Keys == run[n].local.Keys
    ensures forall u {:trigger run[n + 1].local[u]} ::
      u in run[n].local ==> run[n].local[u] <= run[n + 1].local[u] <= run[n].local[u] + 1
  {
    RunInv(run, acts, n);
    assert run[n + 1] == After(run[n], acts[n]);
    StepGrows(run[n], acts[n]);
  }

  /** Every object is freed at most once and by its owner. */
  lemma FreedOnce(run: seq<State>, acts: seq<Action>, n: nat, j: nat, k: nat)
    requires IsRun(run, acts) && n < |run| && j < |run[n].freed| && k < |run[n].freed|
      && run[n].freed[j].id == run[n].freed[k].id
    ensures j == k && run[n].freed[j].id < |run[n].retired|
      && run[n].freed[j].who == run[n].retired[run[n].freed[j].id].owner
  {
    RunInv(run, acts, n);
    assert FreeOk(run[n], run[n].freed[j]);
  }

  /** Grace period: when an object of epoch e is freed every thread is at e + 1 or later; so a thread that stood at e
      or earlier when the object was retired has entered again since. */
  lemma GracePeriod(run: seq<State>, acts: seq<Action>, n: nat, k: nat, u: Tid)
    requires IsRun(run, acts) && n < |run| && k < |run[n].freed| && u in run[n].local
    ensures run[n].freed[k].id < |run[n].retired| && u in run[n].freed[k].at
    ensures var o, at := run[n].retired[run[n].freed[k].id], run[n].freed[k].at;
            && o.epoch + 1 <= at[u] && u in o.seen
            && (o.seen[u] <= o.epoch ==> o.seen[u] < at[u])
            && (o.global == o.epoch ==> o.seen[u] < at[u])
  {
    RunInv(run, acts, n);
    assert FreeOk(run[n], run[n].freed[k]);
    assert RecordOk(run[n], run[n].freed[k].id);
  }

  /** Nothing is lost: outside the free loop an object is either freed or waiting in its owner's list, never both, and
      it waits there once. */
  lemma Conserved(run: seq<State>, acts: seq<Action>, n: nat, id: nat)
    requires IsRun(run, acts) && n < |run| && id < |run[n].retired|
    ensures Shape(run[n]) && run[n].retired[id].owner in run[n].mine
    ensures !run[n].mine[run[n].retired[id].owner].pc.Freeing? ==> (IsFreed(run[n], id) <==> !Listed(run[n], id))
    ensures Distinct(run[n].mine[run[n].retired[id].owner].lists[run[n].retired[id].epoch % EPOCH_LISTS])
    ensures forall u, r {:trigger run[n].mine[u].lists[r]} ::
      u in run[n].mine && 0 <= r < EPOCH_LISTS && id in run[n].mine[u].lists[r] ==>
              u == run[n].retired[id].owner && r == run[n].retired[id].epoch % EPOCH_LISTS
  {
    RunInv(run, acts, n);
    var s := run[n];
    assert RecordOk(s, id);
    assert ListOk(s, s.retired[id].owner, s.retired[id].epoch % EPOCH_LISTS);
    forall u, r | u in s.mine && 0 <= r < EPOCH_LISTS && id in s.mine[u].lists[r]
      ensures u == s.retired[id].owner && r == s.retired[id].epoch % EPOCH_LISTS
    {
      assert ListOk(s, u, r);
      var k :| 0 <= k < |s.mine[u].lists[r]| && s.mine[u].lists[r][k] == id;
    }
  }

  lemma {:induction false} RunKeeps(run: seq<State>, acts: seq<Action>, i: nat, n: nat)
    requires IsRun(run, acts) && i <= n < |run|
    ensures run[i].retired <= run[n].retired && run[n].local.Keys == run[i].local.Keys
    ensures forall u {:trigger run[n].local[u]} :: u in run[i].local ==> run[i].local[u] <= run[n].local[u]
    decreases n - i
  {
    if i < n {
      RunKeeps(run, acts, i, n - 1);
      RunInv(run, acts, n - 1);
      assert run[n - 1 + 1] == After(run[n - 1], acts[n - 1]);
      StepGrows(run[n - 1], acts[n - 1]);
    }
  }

  /** Step `n` frees object `id`. */
  ghost predicate FreesAt(run: seq<State>, acts: seq<Action>, n: nat, id: nat)
    requires IsRun(run, acts) && n < |acts|
  {
    exists f :: run[n + 1].freed == run[n].freed + [f] && f.id == id
  }

  /** The grace period between two steps of a run: if step `i` retires an object and step `n` frees it, then it is the
      same thread, and by then every thread that was not ahead of the retirer has stored a later local epoch. */
  lemma GraceInRun(run: seq<State>, acts: seq<Action>, i: nat, n: nat, v: Tid)
    requires IsRun(run, acts) && i < |acts| && n < |acts| && acts[i].Retire? && FreesAt(run, acts, n, |run[i].retired|)
    requires acts[i].u in run[i].local && v in run[i].local && v in run[n].local
    ensures i < n && acts[n].u == acts[i].u && acts[n].Step?
    ensures run[i].local[acts[i].u] < run[n].local[v]
    ensures run[i].local[v] <= run[i].local[acts[i].u] ==> run[i].local[v] < run[n].local[v]
    ensures run[i].g == run[i].local[acts[i].u] ==> run[i].local[v] < run[n].local[v]
  {
    var id, s, t := |run[i].retired|, run[n], run[n + 1];
    var f :| t.freed == s.freed + [f] && f.id == id;
    RunInv(run, acts, i);
    RunInv(run, acts, n);
    RunInv(run, acts, n + 1);
    assert t == After(s, acts[n]);
    assert run[i + 1] == After(run[i], acts[i]);
    assert t.freed[|s.freed|] == f && FreeOk(t, f);
    assert acts[n].Step? && f == Free(f.id, acts[n].u, s.local);
    assert id < |s.retired|;
    if n <= i {
      RunKeeps(run, acts, n, i);
    }
    RunKeeps(run, acts, i + 1, n);
    assert s.retired[id] == run[i + 1].retired[id] == Obj(acts[i].u, run[i].local[acts[i].u], run[i].local, run[i].g);
    assert run[i].local[v] <= run[i].g;
  }
}
