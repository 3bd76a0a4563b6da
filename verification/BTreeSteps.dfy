/** Steps that change no page keep the invariant of lock coupling: moves, upgrades and unlocks. */
module BTreeSteps {
  import opened SeqOps
  import opened BTreeHeap
  import opened BTreeSections
  import opened BTreeSize
  import opened BTreeOlc
  import opened BTreeCoupling

  // ----- steps that change neither a page nor a word -----

  /** A thread whose checks hold stands on a linked node that covers its key, unless it strayed. */
  lemma StandsOn(s: State, own: set<Id>, th: Thread, path: Path)
    requires WF(s) && PathOk(s, own, th, path) && Rooted(s, own, path)
    requires if |path| > 1 then Live(s, own, Par(path)) else Live(s, own, path[0])
    ensures Covers(s, th, Last(path).id)
    ensures |path| == 1 ==> Last(path).id == s.root
    ensures |path| > 1 ==>
      s.heap[Par(path).id].Inner? && IsKid(s, Par(path).id, LowerBound(s.heap[Par(path).id].keys, th.key),
      Last(path).id)
  {
    if |path| > 1 {
      ParIsLink(s, own, th, path);
      KidCovers(s, Par(path).id, th.key);
    }
  }

  lemma PathPush(s: State, th: Thread, path: Path, kid: Id)
    requires PathOk(s, {}, th, path) && Link(s, {}, th, Last(path), kid) && kid in s.ver && kid in s.heap
    ensures PathOk(s, {}, th, path + [Held(kid, s.ver[kid])])
  {
    var q := path + [Held(kid, s.ver[kid])];
    forall j | 0 <= j < |q| - 1 ensures Link(s, {}, th, q[j], q[j + 1].id) {
      if j < |path| - 1 { assert Link(s, {}, th, path[j], path[j + 1].id); }
    }
  }

  lemma DescendKeep(g: Global, th: Thread, pc: Pc, hist: seq<map<Key, Value>>)
    requires WF(g.tree) && |hist| > 0 && hist[|hist| - 1] == g.tree.m && ThreadOk(g.tree, g.sizes, th, hist)
      && Local(g, th, pc)
    requires pc != Begin && (th.pc == Begin || CanRestart(th.pc)) && !th.pc.ReadLeaf? && !th.pc.ParOk? && !th.pc.AtNode?
    ensures PcOk(g.tree, g.sizes, th.(pc := pc), hist)
  {
    var s, th2 := g.tree, th.(pc := pc);
    assert Carries(s, {}, th, s, {}, th2);
    match th.pc
    case Begin =>
    case GotRoot(n) =>
    case GotVer(n) =>
    case Down(path) => PathKeep(s, {}, th, s, {}, th2, path);
    case ReadKid(path, kid) =>
      PathKeep(s, {}, th, s, {}, th2, path);
      KidCovers(s, Last(path).id, th.key);
    case Checked(path, kid) =>
      PathPush(s, th, path, kid);
      PathKeep(s, {}, th, s, {}, th2, path + [Held(kid, s.ver[kid])]);
  }

  lemma AtNodeKeep(g: Global, th: Thread, pc: Pc, hist: seq<map<Key, Value>>)
    requires WF(g.tree) && |hist| > 0 && hist[|hist| - 1] == g.tree.m && ThreadOk(g.tree, g.sizes, th, hist)
      && Local(g, th, pc)
    requires pc != Begin && th.pc.AtNode?
    ensures PcOk(g.tree, g.sizes, th.(pc := pc), hist)
  {
    var s, th2, path := g.tree, th.(pc := pc), th.pc.path;
    assert Carries(s, {}, th, s, {}, th2);
    PathKeep(s, {}, th, s, {}, th2, path);
    if pc.Down? && Same(s, Last(path)) {
      StandsOn(s, {}, th, path);
    }
    if pc.Locking? {
      assert Locks(pc.plan)[..0] == [];
      assert Same(s, Last(path)) == Live(s, {}, Last(path));
    }
  }

  lemma AnswerKeep(g: Global, th: Thread, pc: Pc, hist: seq<map<Key, Value>>)
    requires WF(g.tree) && |hist| > 0 && hist[|hist| - 1] == g.tree.m && ThreadOk(g.tree, g.sizes, th, hist)
      && Local(g, th, pc)
    requires pc != Begin && (th.pc.ReadLeaf? || th.pc.ParOk?)
    ensures PcOk(g.tree, g.sizes, th.(pc := pc), hist)
  {
    var s, th2 := g.tree, th.(pc := pc);
    if th.pc.ReadLeaf? {
      var path := th.pc.path;
      if Same(s, Last(path)) {
        StandsOn(s, {}, th, path);
        LeafAnswers(s, Last(path).id, th.key);
        WasNow(hist, s.m, th2);
        if th.strayed { WasGrows(hist, s.m, th, th2, None); }
      }
    } else {
      WasGrows(hist, s.m, th, th2, th.pc.res);
    }
  }

  /** A section that holds its locks: what is linked and covered. */
  lemma LockedPair(s: State, sizes: Caps, th: Thread, plan: Plan)
    requires WF(s) && PlanOk(s, sizes, th, plan) && plan.JoinPair? && Live(s, th.own, Par(plan.path))
    ensures Adjacent(s, Par(plan.path).id, plan.i)
    ensures s.heap[Par(plan.path).id].kids[plan.i] == plan.left.id
      && s.heap[Par(plan.path).id].kids[plan.i + 1] == plan.right.id
  {
    var p := Par(plan.path).id;
    ParIsLink(s, th.own, th, plan.path);
    assert NodeOk(s, s.heap[p], s.info[p]);
  }

  lemma ClearKeep(g: Global, th: Thread, pc: Pc, hist: seq<map<Key, Value>>)
    requires WF(g.tree) && ThreadOk(g.tree, g.sizes, th, hist) && Local(g, th, pc) && th.pc.Locking? && pc.Cleared?
    ensures PcOk(g.tree, g.sizes, th.(pc := pc), hist)
  {
    var s, th2, plan := g.tree, th.(pc := pc), th.pc.plan;
    assert Carries(s, th.own, th, s, th2.own, th2);
    PlanKeep(s, g.sizes, th, s, th2, plan);
    assert Locks(plan)[..th.pc.got] == Locks(plan);
    if plan.PutRoom? || plan.EraseKey? {
      assert Last(plan.path) in Locks(plan);
      StandsOn(s, th.own, th, plan.path);
    } else if plan.JoinPair? && plan.how.MergePair? {
      assert Par(plan.path) in Locks(plan);
      LockedPair(s, g.sizes, th, plan);
      var a := plan.left.id;
      assert NodeOk(s, s.heap[a], s.info[a]);
    }
  }

  lemma SectionKeep(g: Global, th: Thread, pc: Pc, hist: seq<map<Key, Value>>)
    requires WF(g.tree) && |hist| > 0 && hist[|hist| - 1] == g.tree.m && ThreadOk(g.tree, g.sizes, th, hist)
      && Local(g, th, pc)
    requires (th.pc.Locking? && !pc.Cleared?) || th.pc.Releasing?
    ensures PcOk(g.tree, g.sizes, th.(pc := pc, strayed := th.strayed && pc != Begin), hist)
  {
    var s, th2 := g.tree, th.(pc := pc);
    assert Carries(s, {}, th, s, {}, th2);
    if th.pc.Releasing? && th.pc.next.Mend? {
      PathKeep(s, {}, th, s, {}, th2, th.pc.next.path);
    }
  }

  lemma RereadKeep(s: State, th: Thread, path: Path)
    requires PathOk(s, {}, th, path)
    ensures PathOk(s, {}, th, path[|path| - 1 := Held(Last(path).id, s.ver[Last(path).id])])
  {
    var q := path[|path| - 1 := Held(Last(path).id, s.ver[Last(path).id])];
    forall j | 0 <= j < |q| - 1 ensures Link(s, {}, th, q[j], q[j + 1].id) {
      assert Link(s, {}, th, path[j], path[j + 1].id);
    }
  }

  lemma JoinPlanOk(s: State, sizes: Caps, th: Thread, path: Path, i: nat, sib: Held, onLeft: bool, how: How)
    requires PathOk(s, {}, th, path) && EndOk(s, path) && th.own == {} && |path| > 1 && Known(s, sib)
      && Unlocked(sib.ver) && PairedWith(s, path, i, sib.id, onLeft)
    requires how == MergePair || (how == BorrowTo(!onLeft) && (Same(s, sib) ==> Surplus(sizes, s.heap[sib.id]) > 0))
    ensures PlanOk(s, sizes, th, JoinOf(path, i, sib, onLeft, how))
      && HasLocks(s, {}, Locks(JoinOf(path, i, sib, onLeft, how))[..0])
  {
    assert Same(s, Par(path)) == Live(s, {}, Par(path)) && Same(s, sib) == Live(s, {}, sib);
    assert Locks(JoinOf(path, i, sib, onLeft, how))[..0] == [];
  }

  lemma MendPlanKeep(g: Global, th: Thread, pc: Pc, hist: seq<map<Key, Value>>)
    requires ThreadOk(g.tree, g.sizes, th, hist) && Local(g, th, pc) && InMend(th.pc) && pc.Locking?
    ensures PcOk(g.tree, g.sizes, th.(pc := pc), hist)
  {
    var s, th2, path := g.tree, th.(pc := pc), th.pc.path;
    assert Carries(s, {}, th, s, {}, th2);
    PathKeep(s, {}, th, s, {}, th2, path);
    JoinPlanOk(s, g.sizes, th2, path, th.pc.i, th.pc.s, th.pc.onLeft, pc.plan.how);
  }

  lemma MendKeep(g: Global, th: Thread, pc: Pc, hist: seq<map<Key, Value>>)
    requires ThreadOk(g.tree, g.sizes, th, hist) && Local(g, th, pc) && InMend(th.pc) && !pc.Locking?
    ensures PcOk(g.tree, g.sizes, th.(pc := pc), hist)
  {
    var s, th2, path := g.tree, th.(pc := pc), th.pc.path;
    assert Carries(s, {}, th, s, {}, th2);
    PathKeep(s, {}, th, s, {}, th2, path);
    if th.pc.Reread? && pc.Mending? {
      RereadKeep(s, th2, path);
    } else if th.pc.Choosing? && pc.Mending? {
      PathPop(s, {}, th2, path);
      ParIsLink(s, {}, th2, path);
    }
  }

  lemma LocalPcKeep(g: Global, th: Thread, pc: Pc, hist: seq<map<Key, Value>>)
    requires WF(g.tree) && |hist| > 0 && hist[|hist| - 1] == g.tree.m && ThreadOk(g.tree, g.sizes, th, hist)
      && Local(g, th, pc)
    ensures PcOk(g.tree, g.sizes, th.(pc := pc, strayed := th.strayed && pc != Begin), hist)
  {
    if pc != Begin {
      assert th.(pc := pc, strayed := th.strayed && pc != Begin) == th.(pc := pc);
      if th.pc.AtNode? {
        AtNodeKeep(g, th, pc, hist);
      } else if th.pc.ReadLeaf? || th.pc.ParOk? {
        AnswerKeep(g, th, pc, hist);
      } else if th.pc == Begin || CanRestart(th.pc) {
        DescendKeep(g, th, pc, hist);
      } else if th.pc.Locking? && pc.Cleared? {
        ClearKeep(g, th, pc, hist);
      } else if th.pc.Locking? || th.pc.Releasing? {
        SectionKeep(g, th, pc, hist);
      } else if pc.Locking? {
        MendPlanKeep(g, th, pc, hist);
      } else {
        MendKeep(g, th, pc, hist);
      }
    }
  }

  lemma DescentRoom(g: Global, th: Thread, pc: Pc, hist: seq<map<Key, Value>>)
    requires ThreadOk(g.tree, g.sizes, th, hist) && Local(g, th, pc) && th.op.Insert? && th.own == {}
    requires th.pc.AtNode? || th.pc.Down? || th.pc.ReadKid? || th.pc.Checked?
    ensures RoomOk(g.tree, g.sizes, th.(pc := pc))
  {
    var s, path := g.tree, th.pc.path;
    assert |path| > 0 && (forall j :: 0 <= j < |path| - 1 ==> Roomy(s, g.sizes, {}, path[j]));
    if th.pc.AtNode? {
      var n := path[|path| - 1];
      assert Known(s, n) && Unlocked(n.ver) && Live(s, {}, n) == Same(s, n);
    }
  }

  lemma SizedRoom(g: Global, th: Thread, pc: Pc, hist: seq<map<Key, Value>>)
    requires ThreadOk(g.tree, g.sizes, th, hist) && Local(g, th, pc) && th.own == {} && th.pc.Sized? && pc.Locking?
    ensures RoomOk(g.tree, g.sizes, th.(pc := pc))
  {
    var s, path, sib := g.tree, th.pc.path, th.pc.s;
    assert Live(s, {}, sib) == Same(s, sib) && Live(s, {}, Last(path)) == Same(s, Last(path));
  }

  lemma LocalRoom(g: Global, th: Thread, pc: Pc, hist: seq<map<Key, Value>>)
    requires ThreadOk(g.tree, g.sizes, th, hist) && Local(g, th, pc)
    ensures RoomOk(g.tree, g.sizes, th.(pc := pc, strayed := th.strayed && pc != Begin))
  {
    var th2 := th.(pc := pc, strayed := th.strayed && pc != Begin);
    if pc != Begin {
      assert th2 == th.(pc := pc);
      if th.pc.AtNode? || th.pc.Down? || th.pc.ReadKid? || th.pc.Checked? {
        if th.op.Insert? { DescentRoom(g, th, pc, hist); }
      } else if th.pc.Sized? && pc.Locking? {
        SizedRoom(g, th, pc, hist);
      } else if th.pc.Locking? && pc.Cleared? {
        assert Carries(g.tree, th.own, th, g.tree, th2.own, th2);
        if th.op.Insert? || pc.plan.JoinPair? { PlanRoomKeep(g.tree, g.sizes, th, g.tree, th2, pc.plan); }
      }
    }
  }

  lemma LocalKeep(g: Global, th: Thread, pc: Pc, hist: seq<map<Key, Value>>)
    requires WF(g.tree) && |hist| > 0 && hist[|hist| - 1] == g.tree.m && ThreadOk(g.tree, g.sizes, th, hist)
      && Local(g, th, pc)
    ensures ThreadOk(g.tree, g.sizes, th.(pc := pc, strayed := th.strayed && pc != Begin), hist)
  {
    var th2 := th.(pc := pc, strayed := th.strayed && pc != Begin);
    LocalPcKeep(g, th, pc, hist);
    LocalRoom(g, th, pc, hist);
    if th2.strayed { WasGrows(hist, g.tree.m, th, th2, None); }
    if PastBody(pc) { DoneGrows(hist, g.tree.m, th, th2); }
  }

  // ----- taking and releasing locks -----

  ghost function Nothing(): Shift {
    Shift(0, 0, 0)
  }

  /** A node that another thread locks or unlocks. */
  lemma TickQuiet(s: State, n: Id, own: set<Id>)
    requires n in s.ver && n !in own && s.info.Keys <= s.heap.Keys && forall x :: x in own ==> x in s.ver
    ensures Quiet(s, s.(ver := Tick(s.ver, n)), {}, own, Nothing())
  {
  }

  lemma IdleKeep(s: State, t: State, sizes: Caps, th: Thread, hist: seq<map<Key, Value>>)
    requires |hist| > 0 && hist[|hist| - 1] == s.m && ThreadOk(s, sizes, th, hist) && t.heap == s.heap && t.m == s.m
    requires Quiet(s, t, {}, th.own, Nothing())
    ensures ThreadOk(t, sizes, th, hist + [t.m])
  {
    ThreadKeep(s, t, sizes, {}, Nothing(), th, hist);
    assert Mark(th, Nothing()) == th;
  }

  predicate SameCall(th: Thread, th2: Thread) {
    th2.key == th.key && th2.op == th.op && th2.start == th.start && th2.ret == th.ret && th2.strayed == th.strayed
  }

  lemma LockCarries(s: State, own: set<Id>, n: Id, th: Thread, th2: Thread)
    requires n in s.ver && Unlocked(s.ver[n]) && n !in own && SameCall(th, th2)
    ensures Carries(s, own, th, s.(ver := Tick(s.ver, n)), own + {n}, th2)
  {
    var t := s.(ver := Tick(s.ver, n));
    forall h | Known(s, h) && Unlocked(h.ver) && Live(t, own + {n}, h) ensures Live(s, own, h) {
      if h.id == n { assert t.ver[n] == s.ver[n] + 1; }
    }
  }

  lemma UnlockCarries(s: State, n: Id, th: Thread, th2: Thread)
    requires n in s.ver && SameCall(th, th2)
    ensures Carries(s, {}, th, s.(ver := Tick(s.ver, n)), {}, th2)
  {
  }

  lemma CallKeeps(th: Thread, th2: Thread, hist: seq<map<Key, Value>>, m: map<Key, Value>)
    requires SameCall(th, th2) && th.start < |hist| && (th.strayed ==> Was(hist, th, None))
      && (PastBody(th.pc) ==> Done(hist, th))
    ensures th2.start < |hist + [m]| && (th2.strayed ==> Was(hist + [m], th2, None))
      && (PastBody(th.pc) ==> Done(hist + [m], th2))
  {
    if th.strayed { WasGrows(hist, m, th, th2, None); }
    if PastBody(th.pc) { DoneGrows(hist, m, th, th2); }
  }

  lemma LocksGrow(s: State, own: set<Id>, hs: seq<Held>, got: nat)
    requires got < |hs| && HasLocks(s, own, hs[..got]) && Same(s, hs[got]) && Unlocked(hs[got].ver)
    ensures HasLocks(s.(ver := Tick(s.ver, hs[got].id)), own + {hs[got].id}, hs[..got + 1])
  {
    var t := s.(ver := Tick(s.ver, hs[got].id));
    assert hs[..got + 1] == hs[..got] + [hs[got]];
    forall h | h in hs[..got + 1] ensures Unlocked(h.ver) && h.id in t.ver && t.ver[h.id] == h.ver + 1 {
      if h in hs[..got] { assert s.ver[h.id] == h.ver + 1; }
    }
    assert IdsOf(hs[..got + 1]) == IdsOf(hs[..got]) + {hs[got].id};
  }

  lemma LockThread(s: State, sizes: Caps, th: Thread, hist: seq<map<Key, Value>>)
    requires ThreadOk(s, sizes, th, hist) && th.pc.Locking? && th.pc.got < |Locks(th.pc.plan)|
    requires Same(s, Target(th)) && Unlocked(Target(th).ver) && Target(th).id !in th.own
    ensures ThreadOk(s.(ver := Tick(s.ver, Target(th).id)), sizes,
                     th.(pc := Locking(th.pc.plan, th.pc.got + 1), own := th.own + {Target(th).id}), hist + [s.m])
  {
    var n, plan := Target(th).id, th.pc.plan;
    var t, th2 := s.(ver := Tick(s.ver, n)), th.(pc := Locking(plan, th.pc.got + 1), own := th.own + {n});
    LockCarries(s, th.own, n, th, th2);
    PlanKeep(s, sizes, th, t, th2, plan);
    if th.op.Insert? || plan.JoinPair? { PlanRoomKeep(s, sizes, th, t, th2, plan); }
    LocksGrow(s, th.own, Locks(plan), th.pc.got);
    CallKeeps(th, th2, hist, s.m);
  }

  lemma UnlockThread(s: State, sizes: Caps, th: Thread, n: Id, hist: seq<map<Key, Value>>)
    requires ThreadOk(s, sizes, th, hist) && th.pc.Releasing? && n in s.ver
    ensures ThreadOk(s.(ver := Tick(s.ver, n)), sizes, th.(own := th.own - {n}), hist + [s.m])
  {
    var t, th2 := s.(ver := Tick(s.ver, n)), th.(own := th.own - {n});
    UnlockCarries(s, n, th, th2);
    if th.pc.next.Mend? { PathKeep(s, {}, th, t, {}, th2, th.pc.next.path); }
    CallKeeps(th, th2, hist, s.m);
  }

  /** An unlocked node gets its owner. */
  lemma GainLock(g: Global, g': Global, t: Tid, n: Id)
    requires LocksOk(g) && n in g.tree.ver && Unlocked(g.tree.ver[n]) && g'.tree.ver == Tick(g.tree.ver, n)
    requires t in g.threads && g'.threads.Keys == g.threads.Keys && g'.threads[t].own == g.threads[t].own + {n}
    requires forall u {:trigger g'.threads[u]} :: u in g.threads && u != t ==> g'.threads[u] == g.threads[u]
    ensures LocksOk(g')
  {
    forall u, x | u in g'.threads && x in g'.threads[u].own ensures x in g'.tree.ver && !Unlocked(g'.tree.ver[x]) {
      assert x != n ==> x in g.threads[u].own;
    }
    forall u, v | u in g'.threads && v in g'.threads && u != v ensures g'.threads[u].own !! g'.threads[v].own {
      assert g.threads[u].own !! g.threads[v].own && n !in g.threads[u].own && n !in g.threads[v].own;
    }
    forall x | x in g'.tree.ver && !Unlocked(g'.tree.ver[x])
      ensures exists u :: u in g'.threads && x in g'.threads[u].own
    {
      if x == n {
        assert n in g'.threads[t].own;
      } else {
        var u :| u in g.threads && x in g.threads[u].own;
        assert x in g'.threads[u].own;
      }
    }
  }

  /** A locked node loses its owner. */
  lemma LoseLock(g: Global, g': Global, t: Tid, n: Id)
    requires LocksOk(g) && n in g.tree.ver && g'.tree.ver == Tick(g.tree.ver, n)
    requires t in g.threads && n in g.threads[t].own && g'.threads.Keys == g.threads.Keys
      && g'.threads[t].own == g.threads[t].own - {n}
    requires forall u {:trigger g'.threads[u]} :: u in g.threads && u != t ==> g'.threads[u] == g.threads[u]
    ensures LocksOk(g')
  {
    forall u, x | u in g'.threads && x in g'.threads[u].own ensures x in g'.tree.ver && !Unlocked(g'.tree.ver[x]) {
      assert x in g.threads[u].own;
      assert u != t ==> g.threads[t].own !! g.threads[u].own;
    }
    forall u, v | u in g'.threads && v in g'.threads && u != v ensures g'.threads[u].own !! g'.threads[v].own {
      assert g.threads[u].own !! g.threads[v].own;
    }
    forall x | x in g'.tree.ver && !Unlocked(g'.tree.ver[x])
      ensures exists u :: u in g'.threads && x in g'.threads[u].own
    {
      assert x != n;
      var u :| u in g.threads && x in g.threads[u].own;
      assert x in g'.threads[u].own;
    }
  }

  lemma OthersStay(g: Global, a: Action, now: nat)
    requires WF(g.tree) && Can(g, a) && !a.Body?
    ensures forall u {:trigger After(g, a, now).threads[u]} ::
      u in g.threads && u != a.t ==> After(g, a, now).threads[u] == g.threads[u]
    ensures After(g, a, now).threads.Keys == g.threads.Keys + {a.t}
      && After(g, a, now).threads[a.t] == ActorAfter(g, a, now)
  {
    forall u | u in g.threads && u != a.t ensures After(g, a, now).threads[u] == g.threads[u] {
      assert Mark(g.threads[u], Nothing()) == g.threads[u];
    }
  }

  lemma SamePulls(g: Global, g': Global, t: Tid)
    requires PullsOk(g) && g'.tree.heap == g.tree.heap && t in g'.threads && !g'.threads[t].pc.Cleared?
    requires forall u :: u in g'.threads && u != t ==> u in g.threads && g'.threads[u] == g.threads[u]
    ensures PullsOk(g')
  {
    forall u, v, l | u in g'.threads && v in g'.threads && Pulls(g'.tree, g'.threads[u], l)
      ensures !Writes(g'.threads[v], l)
    {
      if u != t && v != t { assert Pulls(g.tree, g.threads[u], l); }
    }
  }

  /** From g to g' thread t locks or unlocks node n. */
  ghost predicate Ticks(g: Global, g': Global, t: Tid, n: Id) {
    && t in g.threads && n in g.tree.ver && g'.tree == g.tree.(ver := Tick(g.tree.ver, n)) && g'.sizes == g.sizes
    && g'.threads.Keys == g.threads.Keys && !g'.threads[t].pc.Cleared?
    && (forall u {:trigger g'.threads[u]} ::
       u in g.threads && u != t ==> g'.threads[u] == g.threads[u] && n !in g.threads[u].own)
  }

  lemma TickThreads(g: Global, g': Global, t: Tid, n: Id, hist: seq<map<Key, Value>>)
    requires Inv(g, hist) && Ticks(g, g', t, n) && ThreadOk(g'.tree, g.sizes, g'.threads[t], hist + [g.tree.m])
    ensures ThreadsOk(g', hist + [g.tree.m])
  {
    forall u | u in g'.threads ensures ThreadOk(g'.tree, g'.sizes, g'.threads[u], hist + [g.tree.m]) {
      if u != t {
        TickQuiet(g.tree, n, g.threads[u].own);
        IdleKeep(g.tree, g'.tree, g.sizes, g.threads[u], hist);
      }
    }
  }

  lemma TickInv(g: Global, g': Global, t: Tid, n: Id, hist: seq<map<Key, Value>>)
    requires Inv(g, hist) && Ticks(g, g', t, n) && ThreadOk(g'.tree, g.sizes, g'.threads[t], hist + [g.tree.m])
      && LocksOk(g')
    ensures Inv(g', hist + [g'.tree.m])
  {
    WordsOk(g.tree, g'.tree.ver);
    TickThreads(g, g', t, n, hist);
    SamePulls(g, g', t);
  }

  lemma LockIs(g: Global, t: Tid, now: nat)
    requires WF(g.tree) && Can(g, Lock(t))
    ensures var g', th := After(g, Lock(t), now), g.threads[t];
            && g'.tree == g.tree.(ver := Tick(g.tree.ver, Target(th).id)) && g'.sizes == g.sizes
            && g'.threads.Keys == g.threads.Keys
            && g'.threads[t] == th.(pc := Locking(th.pc.plan, th.pc.got + 1), own := th.own + {Target(th).id})
            && forall u {:trigger g'.threads[u]} :: u in g.threads && u != t ==> g'.threads[u] == g.threads[u]
  {
    OthersStay(g, Lock(t), now);
  }

  lemma GainTicks(g: Global, g': Global, t: Tid, n: Id)
    requires LocksOk(g) && t in g.threads && n in g.tree.ver && Unlocked(g.tree.ver[n])
    requires g'.tree == g.tree.(ver := Tick(g.tree.ver, n)) && g'.sizes == g.sizes && g'.threads.Keys == g.threads.Keys
    requires !g'.threads[t].pc.Cleared? && g'.threads[t].own == g.threads[t].own + {n}
    requires forall u {:trigger g'.threads[u]} :: u in g.threads && u != t ==> g'.threads[u] == g.threads[u]
    ensures Ticks(g, g', t, n) && LocksOk(g') && n !in g.threads[t].own
  {
    GainLock(g, g', t, n);
  }

  lemma LockTicks(g: Global, t: Tid, now: nat)
    requires WF(g.tree) && LocksOk(g) && Can(g, Lock(t)) && !Blind(g, Lock(t))
    ensures var g', th := After(g, Lock(t), now), g.threads[t];
            && Ticks(g, g', t, Target(th).id) && LocksOk(g') && Target(th).id !in th.own
            && g'.threads[t] == th.(pc := Locking(th.pc.plan, th.pc.got + 1), own := th.own + {Target(th).id})
  {
    LockIs(g, t, now);
    GainTicks(g, After(g, Lock(t), now), t, Target(g.threads[t]).id);
  }

  lemma UnlockTicks(g: Global, t: Tid, n: Id, now: nat)
    requires WF(g.tree) && LocksOk(g) && Can(g, Unlock(t, n))
    ensures Ticks(g, After(g, Unlock(t, n), now), t, n) && LocksOk(After(g, Unlock(t, n), now))
  {
    OthersStay(g, Unlock(t, n), now);
    forall u | u in g.threads && u != t ensures n !in g.threads[u].own {
      assert g.threads[t].own !! g.threads[u].own;
    }
    LoseLock(g, After(g, Unlock(t, n), now), t, n);
  }

  lemma LockStep(g: Global, t: Tid, hist: seq<map<Key, Value>>, now: nat)
    requires Inv(g, hist) && Can(g, Lock(t)) && !Blind(g, Lock(t))
    ensures Inv(After(g, Lock(t), now), hist + [TreeAfter(g, Lock(t)).m])
  {
    LockTicks(g, t, now);
    assert ThreadOk(g.tree, g.sizes, g.threads[t], hist);
    LockThread(g.tree, g.sizes, g.threads[t], hist);
    TickInv(g, After(g, Lock(t), now), t, Target(g.threads[t]).id, hist);
  }

  lemma UnlockStep(g: Global, t: Tid, n: Id, hist: seq<map<Key, Value>>, now: nat)
    requires Inv(g, hist) && Can(g, Unlock(t, n))
    ensures Inv(After(g, Unlock(t, n), now), hist + [TreeAfter(g, Unlock(t, n)).m])
  {
    UnlockTicks(g, t, n, now);
    UnlockThread(g.tree, g.sizes, g.threads[t], n, hist);
    TickInv(g, After(g, Unlock(t, n), now), t, n, hist);
  }
}
