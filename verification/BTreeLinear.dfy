/** What lock coupling promises over whole runs, and exactly when it holds. */
module BTreeLinear {
  import opened SeqOps
  import opened BTreeHeap
  import opened BTreeSections
  import opened BTreeSize
  import opened BTreeOlc
  import opened BTreeCoupling
  import opened BTreeSteps
  import opened BTreeBodies
  import opened BTreeRuns

  // ----- runs -----

  /** The empty tree: one leaf, nothing running. */
  function Empty(sizes: Caps): Global {
    Global(State(0, map[0 := Leaf([], [], Null)], map[0 := 2], map[0 := Info(NegInf, PosInf, 0)], map[]), map[], sizes)
  }

  /** A step of the program.  The ranges and levels by which the steps are described exist as long as the tree is well
      formed, so a run is followed up to and including its first fault. */
  ghost predicate Stepped(g: Global, a: Action, g': Global, now: nat) {
    WF(g.tree) && Can(g, a) && g' == After(g, a, now)
  }

  /** A run visits `run[0..]` and step i performs `acts[i]`. */
  ghost predicate IsRun(run: seq<Global>, acts: seq<Action>) {
    && |run| == |acts| + 1 && run[0] == Empty(run[0].sizes) && run[0].sizes.leaf >= 3 && run[0].sizes.inner >= 3
    && (forall i {:trigger acts[i]} :: 0 <= i < |acts| ==> Stepped(run[i], acts[i], run[i + 1], i + 1))
  }

  ghost predicate Faults(g: Global, a: Action) {
    WF(g.tree) && Can(g, a) && Fault(g, a)
  }

  ghost predicate NoFault(run: seq<Global>, acts: seq<Action>)
    requires |run| == |acts| + 1
  {
    forall i {:trigger acts[i]} :: 0 <= i < |acts| ==> !Faults(run[i], acts[i])
  }

  function Maps(run: seq<Global>): (h: seq<map<Key, Value>>)
    ensures |h| == |run| && forall i :: 0 <= i < |run| ==> h[i] == run[i].tree.m
  {
    seq(|run|, i requires 0 <= i < |run| => run[i].tree.m)
  }

  lemma EmptyInv(g: Global)
    requires g == Empty(g.sizes) && g.sizes.leaf >= 3 && g.sizes.inner >= 3
    ensures Inv(g, [g.tree.m])
  {
    assert NodeOk(g.tree, g.tree.heap[0], g.tree.info[0]);
  }

  lemma MapsNext(run: seq<Global>, i: nat)
    requires 0 < i < |run|
    ensures Maps(run[..i + 1]) == Maps(run[..i]) + [run[i].tree.m]
  {
  }

  lemma NextInv(g: Global, a: Action, g': Global, hist: seq<map<Key, Value>>, hist2: seq<map<Key, Value>>)
    requires Inv(g, hist) && Stepped(g, a, g', |hist|) && !Faults(g, a) && hist2 == hist + [g'.tree.m]
    ensures Inv(g', hist2)
  {
    StepInv(g, a, hist);
  }

  lemma {:induction false} RunInv(run: seq<Global>, acts: seq<Action>, i: nat)
    requires IsRun(run, acts) && NoFault(run, acts) && i < |run|
    ensures Inv(run[i], Maps(run[..i + 1]))
  {
    if i == 0 {
      EmptyInv(run[0]);
      assert Maps(run[..1]) == [run[0].tree.m];
    } else {
      RunInv(run, acts, i - 1);
      assert Stepped(run[i - 1], acts[i - 1], run[i], i) && !Faults(run[i - 1], acts[i - 1]);
      MapsNext(run, i);
      NextInv(run[i - 1], acts[i - 1], run[i], Maps(run[..i]), Maps(run[..i + 1]));
    }
  }

  /** In a run without a fault no page ever exceeds its capacity. */
  lemma CapacityKept(run: seq<Global>, acts: seq<Action>, i: nat, n: Id)
    requires IsRun(run, acts) && NoFault(run, acts) && i < |run| && n in run[i].tree.info && n in run[i].tree.heap
    ensures Fits(run[i].sizes, run[i].tree.heap[n])
  {
    RunInv(run, acts, i);
  }

  // ----- what the lock words guarantee -----

  /** No thread tries to lock a node it already holds. */
  lemma TargetIsNew(s: State, sizes: Caps, th: Thread)
    requires WF(s) && th.pc.Locking? && SectionOk(s, sizes, th) && th.pc.got < |Locks(th.pc.plan)|
    ensures Target(th).id !in th.own
  {
    var plan, got := th.pc.plan, th.pc.got;
    if got > 0 {
      var par := Par(plan.path);
      assert Locks(plan)[0] == par && par in Locks(plan)[..got];
      OwnedLive(s, th.own, Locks(plan)[..got], par);
      if plan.JoinPair? {
        LockedPair(s, sizes, th, plan);
        PairIds(s, par.id, plan.i);
        assert forall h :: h in Locks(plan)[..got] ==> h == par || (got == 2 && h == plan.left);
      } else {
        StandsOn(s, th.own, th, plan.path);
        KidInside(s, par.id, LowerBound(s.heap[par.id].keys, th.key), Last(plan.path).id);
        assert Locks(plan)[..got] == [par];
      }
    }
  }

  /** An upgrade grants exclusive access if and only if the recorded word was unlocked. */
  lemma UpgradeExclusive(g: Global, t: Tid, hist: seq<map<Key, Value>>)
    requires Inv(g, hist) && Can(g, Lock(t))
    ensures (forall u :: u in g.threads && u != t ==> Target(g.threads[t]).id !in g.threads[u].own) <==>
      Unlocked(Target(g.threads[t]).ver)
  {
    var th := g.threads[t];
    var n := Target(th).id;
    assert ThreadOk(g.tree, g.sizes, th, hist);
    TargetIsNew(g.tree, g.sizes, th);
    if !Unlocked(Target(th).ver) {
      assert !Unlocked(g.tree.ver[n]);
      var u :| u in g.threads && n in g.threads[u].own;
    }
  }

  lemma LockedTarget(s: State, sizes: Caps, th: Thread)
    requires WF(s) && th.pc.Locking? && SectionOk(s, sizes, th) && th.pc.got < |Locks(th.pc.plan)|
    requires Same(s, Target(th)) && !Unlocked(Target(th).ver)
    ensures th.pc.plan.JoinPair? && Target(th) == Last(th.pc.plan.path) && Target(th).id in s.heap
      && s.heap[Target(th).id].Inner?
  {
    if |th.pc.plan.path| > 1 { ParIsLink(s, th.own, th, th.pc.plan.path); }
  }

  /** The only upgrade that can start from a locked word is that of an inner node which is repaired after a merge below
      it. */
  lemma BlindIsRepair(g: Global, t: Tid, hist: seq<map<Key, Value>>)
    requires Inv(g, hist) && Can(g, Lock(t)) && Blind(g, Lock(t))
    ensures var th := g.threads[t];
            th.pc.plan.JoinPair? && Target(th) == Last(th.pc.plan.path) && Target(th).id in g.tree.heap
              && g.tree.heap[Target(th).id].Inner?
  {
    assert ThreadOk(g.tree, g.sizes, g.threads[t], hist);
    LockedTarget(g.tree, g.sizes, g.threads[t]);
  }

  /** Words only grow, and a step leaves the page of an unlocked node alone or changes its word. */
  ghost predicate Guarded(s: State, t: State) {
    && (forall n {:trigger n in t.heap} :: n in s.heap ==> n in t.heap)
    && (forall n {:trigger n in t.ver} :: n in s.ver ==> n in t.ver && s.ver[n] <= t.ver[n])
    && (forall n {:trigger t.heap[n]} ::
       n in s.heap && n in s.ver && n in t.heap && n in t.ver && Unlocked(s.ver[n]) && t.ver[n] == s.ver[n] ==>
          t.heap[n] == s.heap[n])
  }

  lemma StepGuards(g: Global, a: Action, hist: seq<map<Key, Value>>)
    requires Inv(g, hist) && Can(g, a) && !Fault(g, a)
    ensures Guarded(g.tree, TreeAfter(g, a))
  {
    if a.Body? {
      BodyReadyIn(g, a, hist);
      var s, th := g.tree, g.threads[a.t];
      BodyOwned(s, g.sizes, th, a.top, a.extra, a.mx);
      BodyFrame(s, th, th.pc.plan, th.pc.slot, a.top, a.extra, a.mx);
      WrittenWords(s, BodyTree(s, th, th.pc.plan, th.pc.slot, a.top, a.extra, a.mx),
                   BodySpan(s, th, th.pc.plan, th.pc.slot, a.top, a.extra, a.mx), ShiftOf(g, a));
    }
  }

  lemma RunGuards(run: seq<Global>, acts: seq<Action>, j: nat)
    requires IsRun(run, acts) && NoFault(run, acts) && j < |acts|
    ensures Guarded(run[j].tree, run[j + 1].tree) && run[j].tree.heap.Keys == run[j].tree.ver.Keys
  {
    RunInv(run, acts, j);
    assert Stepped(run[j], acts[j], run[j + 1], j + 1) && !Faults(run[j], acts[j]);
    StepGuards(run[j], acts[j], Maps(run[..j + 1]));
  }

  /** In a run without a fault an unchanged version means an unchanged page. */
  lemma {:induction false} SameWordSamePage(run: seq<Global>, acts: seq<Action>, i: nat, j: nat, n: Id)
    requires IsRun(run, acts) && NoFault(run, acts) && i <= j < |run|
    requires n in run[i].tree.ver && n in run[i].tree.heap && Unlocked(run[i].tree.ver[n])
    ensures n in run[j].tree.heap && n in run[j].tree.ver && run[i].tree.ver[n] <= run[j].tree.ver[n]
    ensures run[j].tree.ver[n] == run[i].tree.ver[n] ==> run[j].tree.heap[n] == run[i].tree.heap[n]
    decreases j
  {
    if i < j {
      SameWordSamePage(run, acts, i, j - 1, n);
      RunGuards(run, acts, j - 1);
    }
  }

  // ----- linearizability -----

  /** Whatever splits, root changes, borrows, merges, inserts and removes are interleaved with its reads, a lookup that
      passes its version checks returns what the map held for its key at some moment between its call and its return. */
  lemma LookupLinearizable(run: seq<Global>, acts: seq<Action>, i: nat, t: Tid)
    requires IsRun(run, acts) && NoFault(run, acts)
    requires i < |run| && t in run[i].threads && run[i].threads[t].pc.Found?
    ensures exists j ::
      run[i].threads[t].start <= j <= i && MapGet(run[j].tree.m, run[i].threads[t].key) == run[i].threads[t].pc.res
  {
    RunInv(run, acts, i);
    var th, hist := run[i].threads[t], Maps(run[..i + 1]);
    assert ThreadOk(run[i].tree, run[i].sizes, th, hist);
    var j :| th.start <= j < |hist| && MapGet(hist[j], th.key) == th.pc.res;
    assert hist[j] == run[j].tree.m;
  }

  /** The map changes from `m` to `m'` as the call asks, and `ok` is its report. */
  predicate Performed(op: Op, key: Key, ok: bool, m: map<Key, Value>, m': map<Key, Value>) {
    match op
    case Lookup => true
    case Insert(v) => m' == (if key in m then m else m[key := v]) && ok == (key !in m)
    case Remove => m' == m - {key} && ok == (key in m)
  }

  /** What a call that has returned has done, by the history of the map. */
  lemma EndedDone(g: Global, hist: seq<map<Key, Value>>, t: Tid)
    requires Inv(g, hist) && t in g.threads && g.threads[t].pc.Ended?
    ensures Done(hist, g.threads[t]) && g.threads[t].pc.ok == g.threads[t].ret
  {
    assert ThreadOk(g.tree, g.sizes, g.threads[t], hist);
  }

  /** An insert or remove that has returned took effect in one step between its call and its return, as it reports.
      A remove that a merge overtook may instead report a failure that was true at some moment of the call. */
  lemma CallLinearizable(run: seq<Global>, acts: seq<Action>, i: nat, t: Tid)
    requires IsRun(run, acts) && NoFault(run, acts) && i < |run| && t in run[i].threads && run[i].threads[t].pc.Ended?
    ensures var th := run[i].threads[t]; var ok := th.pc.ok;
            || (exists j :: th.start <= j < i && Performed(th.op, th.key, ok, run[j].tree.m, run[j + 1].tree.m))
            || (th.op.Remove? && !ok && exists j :: th.start <= j <= i && th.key !in run[j].tree.m)
            || th.op.Lookup?
  {
    RunInv(run, acts, i);
    EndedDone(run[i], Maps(run[..i + 1]), t);
    DoneInRun(run, Maps(run[..i + 1]), run[i].threads[t]);
  }

  lemma TookIs(th: Thread, m: map<Key, Value>, m': map<Key, Value>)
    requires Took(th, m, m')
    ensures Performed(th.op, th.key, th.ret, m, m')
  {
  }

  lemma TookInRun(run: seq<Global>, hist: seq<map<Key, Value>>, th: Thread)
    requires |hist| <= |run| && (forall j :: 0 <= j < |hist| ==> hist[j] == run[j].tree.m) && TookIn(hist, th)
    ensures exists j ::
      th.start <= j < |hist| - 1 && Performed(th.op, th.key, th.ret, run[j].tree.m, run[j + 1].tree.m)
  {
    var j :| th.start <= j < |hist| - 1 && Took(th, hist[j], hist[j + 1]);
    TookIs(th, hist[j], hist[j + 1]);
    assert Performed(th.op, th.key, th.ret, run[j].tree.m, run[j + 1].tree.m);
  }

  lemma MissedInRun(run: seq<Global>, hist: seq<map<Key, Value>>, th: Thread)
    requires |hist| <= |run| && (forall j :: 0 <= j < |hist| ==> hist[j] == run[j].tree.m) && Was(hist, th, None)
    ensures exists j :: th.start <= j < |hist| && th.key !in run[j].tree.m
  {
    var j :| th.start <= j < |hist| && MapGet(hist[j], th.key) == None;
    assert th.key !in run[j].tree.m;
  }

  lemma DoneInRun(run: seq<Global>, hist: seq<map<Key, Value>>, th: Thread)
    requires |hist| <= |run| && (forall j :: 0 <= j < |hist| ==> hist[j] == run[j].tree.m) && Done(hist, th)
    ensures
      || (exists j :: th.start <= j < |hist| - 1 && Performed(th.op, th.key, th.ret, run[j].tree.m, run[j + 1].tree.m))
      || (th.op.Remove? && !th.ret && exists j :: th.start <= j < |hist| && th.key !in run[j].tree.m)
      || th.op.Lookup?
  {
    if TookIn(hist, th) {
      TookInRun(run, hist, th);
    } else if th.op.Remove? {
      MissedInRun(run, hist, th);
    }
  }

  // ----- runs in which nothing can go wrong -----

  /** An upgrade from a word that was locked when it was read. */
  ghost predicate BlindStep(g: Global, a: Action) {
    WF(g.tree) && Can(g, a) && Blind(g, a)
  }

  /** A merge of inner nodes above the leaves' parents that pulls down another key than the separator. */
  ghost predicate WideStep(g: Global, a: Action) {
    WF(g.tree) && Can(g, a) && ShiftOf(g, a).level >= 3 && ShiftOf(g, a).mx != ShiftOf(g, a).sep
  }

  /** The last leaf below `a` is empty, and `mx` does not belong to it. */
  ghost predicate Hollow(s: State, a: Id, mx: Key) {
    a in s.heap && s.heap[a].Inner? && |s.heap[a].kids| > 0 &&
    var c := LastKid(s.heap[a]);
    c in s.heap && c in s.info && s.heap[c].keys == [] && !InRange(s.info[c], mx)
  }

  /** A merge of leaves' parents that finds its last leaf empty and pulls down a key that does not belong there. */
  ghost predicate HollowStep(g: Global, a: Action) {
    && WF(g.tree) && Can(g, a) && a.Body? && g.threads[a.t].pc.plan.JoinPair? && ShiftOf(g, a).level == 2
    && Hollow(g.tree, g.threads[a.t].pc.plan.left.id, a.mx)
  }

  /** A borrow into a full page. */
  ghost predicate OverfullStep(g: Global, a: Action) {
    WF(g.tree) && Can(g, a) && Overfills(g, a)
  }

  ghost predicate Risky(g: Global, a: Action) {
    BlindStep(g, a) || WideStep(g, a) || HollowStep(g, a) || OverfullStep(g, a)
  }

  ghost predicate Harmless(run: seq<Global>, acts: seq<Action>)
    requires |run| == |acts| + 1
  {
    forall j {:trigger acts[j]} :: 0 <= j < |acts| ==> !Risky(run[j], acts[j])
  }

  ghost predicate Tight(g: Global) {
    forall t :: t in g.threads ==> !g.threads[t].strayed
  }

  /** A merge of leaves' parents is sound if and only if the last leaf below the left one is not empty or the key that
      is pulled down happens to belong there: a leaf with entries cannot change in between. */
  lemma LowMergeSound(s: State, sizes: Caps, th: Thread, top: Id, extra: Id, mx: Key)
    requires Ready(s, sizes, th) && CanBody(s, th, th.pc.plan, th.pc.slot, top, extra, mx) && th.pc.plan.JoinPair?
    requires BodyShift(s, th, th.pc.plan, th.pc.slot, top, extra, mx).level < 3
    ensures Sound(s, WriteOf(s, th.key, th.pc.plan, top, extra, mx)) <==>
      !(BodyShift(s, th, th.pc.plan, th.pc.slot, top, extra, mx).level == 2 && Hollow(s, th.pc.plan.left.id, mx))
  {
    var plan := th.pc.plan;
    var w := WriteOf(s, th.key, plan, top, extra, mx);
    if JoinsInners(s, w) {
      var p, a := Par(plan.path).id, plan.left.id;
      JoinReady(s, sizes, th);
      PairFacts(s, p, plan.i);
      var c := LastKid(s.heap[a]);
      assert s.info[c] == KidInfo(s.heap[a].keys, s.info[a], |s.heap[a].keys|);
      assert NodeOk(s, s.heap[c], s.info[c]);
      OnSpine(s, a, c);
      assert SlotOk(s, a, th.pc.slot);
      PullableExactly(s, p, plan.i, mx);
    }
  }

  /** Pulling down the separator itself cuts nothing off. */
  lemma SeparatorIsPullable(s: State, p: Id, i: nat)
    requires WF(s) && Adjacent(s, p, i)
    ensures Pullable(s, p, i, s.heap[p].keys[i])
  {
    PairIds(s, p, i);
    var a := s.heap[p].kids[i];
    forall j | 0 <= j <= s.info[a].level ensures Lt(s.info[Spine(s, a, j)].lo, At(s.heap[p].keys[i])) {
      var z := Spine(s, a, j);
      assert NodeOk(s, s.heap[z], s.info[z]);
    }
  }

  lemma TightSound(s: State, sizes: Caps, th: Thread, top: Id, extra: Id, mx: Key)
    requires Ready(s, sizes, th) && CanBody(s, th, th.pc.plan, th.pc.slot, top, extra, mx) && th.pc.plan.JoinPair?
    requires var sh := BodyShift(s, th, th.pc.plan, th.pc.slot, top, extra, mx);
      (sh.level >= 3 ==> sh.mx == sh.sep) && (sh.level == 2 ==> !Hollow(s, th.pc.plan.left.id, mx))
    ensures Sound(s, WriteOf(s, th.key, th.pc.plan, top, extra, mx))
  {
    if BodyShift(s, th, th.pc.plan, th.pc.slot, top, extra, mx).level < 3 {
      LowMergeSound(s, sizes, th, top, extra, mx);
    } else {
      JoinReady(s, sizes, th);
      SeparatorIsPullable(s, Par(th.pc.plan.path).id, th.pc.plan.i);
    }
  }

  lemma TightBody(g: Global, a: Action, hist: seq<map<Key, Value>>)
    requires Inv(g, hist) && Can(g, a) && a.Body? && Tight(g) && !Risky(g, a)
    ensures !Fault(g, a)
  {
    var s, th := g.tree, g.threads[a.t];
    assert ThreadOk(s, g.sizes, th, hist);
    if th.pc.plan.JoinPair? {
      TightSound(s, g.sizes, th, a.top, a.extra, a.mx);
    } else if th.pc.plan.PutFull? || th.pc.plan.PutRoom? {
      LeafReady(s, g.sizes, th);
    }
  }

  lemma TightStep(g: Global, a: Action, hist: seq<map<Key, Value>>, now: nat)
    requires Inv(g, hist) && Can(g, a) && Tight(g) && !Risky(g, a)
    ensures !Fault(g, a) && Tight(After(g, a, now))
  {
    if a.Body? { TightBody(g, a, hist); }
    var g' := After(g, a, now);
    forall t | t in g'.threads ensures !g'.threads[t].strayed {
      if t != a.t { assert g'.threads[t] == Mark(g.threads[t], ShiftOf(g, a)); }
    }
  }

  lemma NextTight(g: Global, a: Action, g': Global, hist: seq<map<Key, Value>>, hist2: seq<map<Key, Value>>)
    requires Inv(g, hist) && Tight(g) && Stepped(g, a, g', |hist|) && !Risky(g, a)
      && hist2 == hist + [g'.tree.m]
    ensures Inv(g', hist2) && Tight(g') && !Faults(g, a)
  {
    TightStep(g, a, hist, |hist|);
    StepInv(g, a, hist);
  }

  lemma {:induction false} TightRun(run: seq<Global>, acts: seq<Action>, i: nat)
    requires IsRun(run, acts) && i < |run|
    requires Harmless(run, acts)
    ensures Inv(run[i], Maps(run[..i + 1])) && Tight(run[i])
  {
    if i == 0 {
      EmptyInv(run[0]);
      assert Maps(run[..1]) == [run[0].tree.m];
    } else {
      TightRun(run, acts, i - 1);
      assert Stepped(run[i - 1], acts[i - 1], run[i], i) && !Risky(run[i - 1], acts[i - 1]);
      MapsNext(run, i);
      NextTight(run[i - 1], acts[i - 1], run[i], Maps(run[..i]), Maps(run[..i + 1]));
    }
  }

  /** What one step does to the map, and what it leaves to be reported. */
  ghost predicate Effect(g: Global, a: Action, g': Global) {
    var m, m' := g.tree.m, g'.tree.m;
    if a.Body? && a.t in g.threads && a.t in g'.threads && g.threads[a.t].pc.Cleared? &&
       (g.threads[a.t].pc.plan.PutFull? || g.threads[a.t].pc.plan.PutRoom? || g.threads[a.t].pc.plan.EraseKey?)
    then Took(g'.threads[a.t], m, m') && !g.threads[a.t].op.Lookup?
    else m' == m
  }

  lemma StepEffect(g: Global, a: Action, hist: seq<map<Key, Value>>, now: nat)
    requires Inv(g, hist) && Can(g, a) && !Fault(g, a) && Tight(g)
    ensures Effect(g, a, After(g, a, now))
  {
    if a.Body? {
      BodyReadyIn(g, a, hist);
      var s, th := g.tree, g.threads[a.t];
      BodyOk(s, g.sizes, th, a.top, a.extra, a.mx);
      if th.pc.plan.PutFull? || th.pc.plan.PutRoom? {
        InsertAtomic(s, g.sizes, th, a.top, a.extra, a.mx);
      } else if th.pc.plan.EraseKey? {
        RemoveAtomic(s, g.sizes, th, a.top, a.extra, a.mx);
      }
    }
  }

  /** A run has no fault if each upgrade starts from an unlocked word, each merge above the leaves' parents pulls down
      the separator, each merge of leaves' parents with an empty last leaf a key that belongs there, and each borrow
      goes into a page with room.  Then the tree stays well formed and within its capacities, and every insert and
      remove takes effect on the map in its section exactly as it reports. */
  lemma SafeRun(run: seq<Global>, acts: seq<Action>)
    requires IsRun(run, acts)
    requires Harmless(run, acts)
    ensures NoFault(run, acts)
    ensures forall i :: 0 <= i < |run| ==> WF(run[i].tree) && MaxOk(run[i].tree, run[i].sizes)
    ensures forall i {:trigger acts[i]} :: 0 <= i < |acts| ==> Effect(run[i], acts[i], run[i + 1])
  {
    forall i | 0 <= i < |run| ensures WF(run[i].tree) && MaxOk(run[i].tree, run[i].sizes) {
      TightRun(run, acts, i);
    }
    forall i | 0 <= i < |acts| ensures !Faults(run[i], acts[i]) && Effect(run[i], acts[i], run[i + 1]) {
      TightRun(run, acts, i);
      assert Stepped(run[i], acts[i], run[i + 1], i + 1);
      TightStep(run[i], acts[i], Maps(run[..i + 1]), i + 1);
      StepEffect(run[i], acts[i], Maps(run[..i + 1]), i + 1);
    }
  }
}
