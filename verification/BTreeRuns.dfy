/** Every step without a fault keeps the invariant of lock coupling, and every page within its capacity. */
module BTreeRuns {
  import opened SeqOps
  import opened BTreeHeap
  import opened BTreeSections
  import opened BTreeSize
  import opened BTreeOlc
  import opened BTreeCoupling
  import opened BTreeSteps
  import opened BTreeBodies
  import opened BTreeRoom

  // ----- the step of a section -----

  lemma PathWeaker(s: State, own: set<Id>, th: Thread, path: Path)
    requires PathOk(s, own, th, path)
    ensures PathOk(s, {}, th, path)
  {
    forall j | 0 <= j < |path| - 1 ensures Link(s, {}, th, path[j], path[j + 1].id) {
      assert Link(s, own, th, path[j], path[j + 1].id);
    }
  }

  /** What the section leaves its own thread with. */
  function Freed(th: Thread, sh: Shift, more: bool, ret: bool): Thread
    requires th.pc.Cleared?
  {
    Mark(th, sh).(pc := Releasing(NextOf(th.pc.plan, more)), ret := ret)
  }

  lemma BodyPath(s: State, t: State, sizes: Caps, th: Thread, ws: set<Id>, sh: Shift, more: bool, ret: bool)
    requires th.pc.Cleared? && SectionOk(s, sizes, th) && Quiet(s, t, ws, {}, sh)
    ensures SectionOk(t, sizes, Freed(th, sh, more, ret))
  {
    var th2, next := Freed(th, sh, more, ret), NextOf(th.pc.plan, more);
    if next.Mend? {
      var path := th.pc.plan.path;
      PathWeaker(s, th.own, th, path);
      if th.pc.plan.JoinPair? {
        ParIsLink(s, {}, th, path);
        PathPop(s, {}, th, path);
      }
      QuietCarries(s, t, ws, {}, sh, th);
      PathKeep(s, {}, th, t, {}, Mark(th, sh), next.path);
      assert Carries(t, {}, Mark(th, sh), t, {}, th2);
      PathKeep(t, {}, Mark(th, sh), t, {}, th2, next.path);
      assert Last(next.path).id in t.heap;
    }
  }

  lemma BodyDone(s: State, sizes: Caps, th: Thread, top: Id, extra: Id, mx: Key, more: bool,
          hist: seq<map<Key, Value>>)
    requires Ready(s, sizes, th) && CanBody(s, th, th.pc.plan, th.pc.slot, top, extra, mx)
      && Faultless(s, th, top, extra, mx)
    requires |hist| > 0 && hist[|hist| - 1] == s.m && ThreadOk(s, sizes, th, hist)
    ensures var t, sh := BodyTree(s, th, th.pc.plan, th.pc.slot, top, extra, mx),
      BodyShift(s, th, th.pc.plan, th.pc.slot, top, extra, mx);
            var th2 := Freed(th, sh, more, RetOf(s, th, th.pc.plan));
            PastBody(th2.pc) ==> Done(hist + [t.m], th2)
  {
    var plan := th.pc.plan;
    var t, sh := BodyTree(s, th, plan, th.pc.slot, top, extra, mx), BodyShift(s, th, plan, th.pc.slot, top, extra, mx);
    var th2, h2 := Freed(th, sh, more, RetOf(s, th, plan)), hist + [t.m];
    assert h2[|hist| - 1] == s.m && h2[|hist|] == t.m;
    if plan.PutFull? || plan.PutRoom? {
      InsertAtomic(s, sizes, th, top, extra, mx);
      assert Took(th2, h2[|hist| - 1], h2[|hist| - 1 + 1]);
    } else if plan.EraseKey? {
      RemoveAtomic(s, sizes, th, top, extra, mx);
      if Took(th.(ret := th2.ret), s.m, t.m) {
        assert Took(th2, h2[|hist| - 1], h2[|hist| - 1 + 1]);
      } else {
        WasGrows(hist, t.m, th, th2, None);
      }
    } else if plan.JoinPair? {
      DoneGrows(hist, t.m, th, th2);
    }
  }

  lemma BodyActor(s: State, sizes: Caps, th: Thread, top: Id, extra: Id, mx: Key, more: bool,
          hist: seq<map<Key, Value>>)
    requires Ready(s, sizes, th) && CanBody(s, th, th.pc.plan, th.pc.slot, top, extra, mx)
      && Faultless(s, th, top, extra, mx)
    requires |hist| > 0 && hist[|hist| - 1] == s.m && ThreadOk(s, sizes, th, hist)
      && (forall n :: n in th.own ==> n in s.ver && !Unlocked(s.ver[n]))
    ensures var t, sh := BodyTree(s, th, th.pc.plan, th.pc.slot, top, extra, mx),
      BodyShift(s, th, th.pc.plan, th.pc.slot, top, extra, mx);
            ThreadOk(Written(s, t), sizes, Freed(th, sh, more, RetOf(s, th, th.pc.plan)), hist + [t.m])
  {
    var plan, slot := th.pc.plan, th.pc.slot;
    var t, ws, sh := BodyTree(s, th, plan, slot, top, extra, mx), BodySpan(s, th, plan, slot, top, extra, mx),
      BodyShift(s, th, plan, slot, top, extra, mx);
    var th2 := Freed(th, sh, more, RetOf(s, th, plan));
    BodyQuiet(s, sizes, th, top, extra, mx, {});
    BodyPath(s, Written(s, t), sizes, th, ws, sh, more, RetOf(s, th, plan));
    BodyDone(s, sizes, th, top, extra, mx, more, hist);
    ShiftFacts(s, sizes, th, top, extra, mx);
    if th2.strayed {
      if !th.strayed { WasNow(hist, s.m, th); }
      WasGrows(hist, t.m, th, th2, None);
    }
  }

  lemma BodyReadyIn(g: Global, a: Action, hist: seq<map<Key, Value>>)
    requires Inv(g, hist) && a.Body? && Can(g, a) && !Fault(g, a)
    ensures var th := g.threads[a.t];
            && Ready(g.tree, g.sizes, th) && CanBody(g.tree, th, th.pc.plan, th.pc.slot, a.top, a.extra, a.mx)
            && Faultless(g.tree, th, a.top, a.extra, a.mx) && ThreadOk(g.tree, g.sizes, th, hist)
  {
    assert ThreadOk(g.tree, g.sizes, g.threads[a.t], hist);
  }

  /** From g to g' thread t performs its section. */
  ghost predicate Performs(g: Global, g': Global, t: Tid, top: Id, extra: Id, mx: Key, more: bool)
    requires WF(g.tree)
  {
    && t in g.threads && g'.threads.Keys == g.threads.Keys && g'.sizes == g.sizes
    && var s, th := g.tree, g.threads[t];
       && Ready(s, g.sizes, th) && CanBody(s, th, th.pc.plan, th.pc.slot, top, extra, mx)
       && Faultless(s, th, top, extra, mx)
       && var sh := BodyShift(s, th, th.pc.plan, th.pc.slot, top, extra, mx);
          && g'.tree == Written(s, BodyTree(s, th, th.pc.plan, th.pc.slot, top, extra, mx))
          && g'.threads[t] == Freed(th, sh, more, RetOf(s, th, th.pc.plan))
          && (forall u {:trigger g'.threads[u]} :: u in g.threads && u != t ==> g'.threads[u] == Mark(g.threads[u], sh))
  }

  lemma BodyPerforms(g: Global, a: Action, hist: seq<map<Key, Value>>, now: nat)
    requires Inv(g, hist) && a.Body? && Can(g, a) && !Fault(g, a)
    ensures Performs(g, After(g, a, now), a.t, a.top, a.extra, a.mx, a.more)
  {
    BodyReadyIn(g, a, hist);
  }

  lemma OthersAfterBody(g: Global, g': Global, t: Tid, top: Id, extra: Id, mx: Key, more: bool,
          hist: seq<map<Key, Value>>, u: Tid)
    requires Inv(g, hist) && Performs(g, g', t, top, extra, mx, more) && u in g.threads && u != t
    ensures ThreadOk(g'.tree, g.sizes, g'.threads[u], hist + [g'.tree.m])
  {
    var s, th, ot := g.tree, g.threads[t], g.threads[u];
    var plan, slot := th.pc.plan, th.pc.slot;
    var ws, sh := BodySpan(s, th, plan, slot, top, extra, mx), BodyShift(s, th, plan, slot, top, extra, mx);
    assert ThreadOk(s, g.sizes, ot, hist) && th.own !! ot.own;
    BodyQuiet(s, g.sizes, th, top, extra, mx, ot.own);
    BodyLeafQuiet(s, g.sizes, th, top, extra, mx, ot);
    ShiftFacts(s, g.sizes, th, top, extra, mx);
    ThreadKeep(s, g'.tree, g.sizes, ws, sh, ot, hist);
  }

  lemma ThreadsAfterBody(g: Global, g': Global, t: Tid, top: Id, extra: Id, mx: Key, more: bool,
          hist: seq<map<Key, Value>>)
    requires Inv(g, hist) && Performs(g, g', t, top, extra, mx, more)
    ensures ThreadsOk(g', hist + [g'.tree.m])
  {
    forall u | u in g'.threads ensures ThreadOk(g'.tree, g'.sizes, g'.threads[u], hist + [g'.tree.m]) {
      if u == t {
        assert ThreadOk(g.tree, g.sizes, g.threads[t], hist);
        BodyActor(g.tree, g.sizes, g.threads[t], top, extra, mx, more, hist);
      } else {
        OthersAfterBody(g, g', t, top, extra, mx, more, hist, u);
      }
    }
  }

  /** Owners and old words stay, and new nodes are unlocked. */
  lemma OwnersStay(g: Global, g': Global)
    requires LocksOk(g) && g.threads.Keys <= g'.threads.Keys
    requires forall u {:trigger g'.threads[u]} ::
      u in g'.threads ==> g'.threads[u].own == if u in g.threads then g.threads[u].own else {}
    requires forall n {:trigger n in g'.tree.ver} ::
      n in g.tree.ver ==> n in g'.tree.ver && g'.tree.ver[n] == g.tree.ver[n]
    requires forall n {:trigger g'.tree.ver[n]} :: n in g'.tree.ver && n !in g.tree.ver ==> Unlocked(g'.tree.ver[n])
    ensures LocksOk(g')
  {
    forall u, n | u in g'.threads && n in g'.threads[u].own ensures n in g'.tree.ver && !Unlocked(g'.tree.ver[n]) {
      assert u in g.threads && n in g.threads[u].own;
    }
    forall u, v | u in g'.threads && v in g'.threads && u != v ensures g'.threads[u].own !! g'.threads[v].own {
      assert u in g.threads && v in g.threads ==> g.threads[u].own !! g.threads[v].own;
    }
    forall n | n in g'.tree.ver && !Unlocked(g'.tree.ver[n])
      ensures exists u :: u in g'.threads && n in g'.threads[u].own
    {
      var u :| u in g.threads && n in g.threads[u].own;
      assert u in g'.threads && n in g'.threads[u].own;
    }
  }

  lemma WrittenWords(s: State, t: State, ws: set<Id>, sh: Shift)
    requires Frame(s, t, ws, sh.level, sh.sep, sh.mx) && s.heap.Keys == s.ver.Keys
    ensures forall n {:trigger n in Written(s, t).ver} ::
      n in s.ver ==> n in Written(s, t).ver && Written(s, t).ver[n] == s.ver[n]
    ensures forall n {:trigger Written(s, t).ver[n]} ::
      n in Written(s, t).ver && n !in s.ver ==> Unlocked(Written(s, t).ver[n])
  {
    forall n | n in s.ver ensures n in Written(s, t).ver {
      assert n in s.heap && n in t.heap;
    }
  }

  lemma LocksAfterBody(g: Global, g': Global, t: State, ws: set<Id>, sh: Shift)
    requires LocksOk(g) && Frame(g.tree, t, ws, sh.level, sh.sep, sh.mx) && g.tree.heap.Keys == g.tree.ver.Keys
      && g'.tree == Written(g.tree, t)
    requires g'.threads.Keys == g.threads.Keys && forall u {:trigger g'.threads[u]} ::
      u in g.threads ==> g'.threads[u].own == g.threads[u].own
    ensures LocksOk(g')
  {
    WrittenWords(g.tree, t, ws, sh);
    OwnersStay(g, g');
  }

  lemma PullsBefore(s: State, t: State, sizes: Caps, ot: Thread, ws: set<Id>, sh: Shift, l: Id)
    requires Ready(s, sizes, ot) && ws !! ot.own && Frame(s, t, ws, sh.level, sh.sep, sh.mx) && Pulls(t, ot, l)
    ensures Pulls(s, ot, l)
  {
    var plan := ot.pc.plan;
    assert Locks(plan)[1] == plan.left;
    OwnedLive(s, ot.own, Locks(plan), plan.left);
    assert t.heap[plan.left.id] == s.heap[plan.left.id];
    assert l in s.heap;
  }

  lemma PullsAfterBody(g: Global, g': Global, t: Tid, top: Id, extra: Id, mx: Key, more: bool,
          hist: seq<map<Key, Value>>)
    requires Inv(g, hist) && Performs(g, g', t, top, extra, mx, more)
    ensures PullsOk(g')
  {
    var s, th := g.tree, g.threads[t];
    var ws, sh := BodySpan(s, th, th.pc.plan, th.pc.slot, top, extra, mx),
      BodyShift(s, th, th.pc.plan, th.pc.slot, top, extra, mx);
    BodyFrame(s, th, th.pc.plan, th.pc.slot, top, extra, mx);
    FrameWords(s, BodyTree(s, th, th.pc.plan, th.pc.slot, top, extra, mx), ws, sh);
    BodyOwned(s, g.sizes, th, top, extra, mx);
    forall u, v, l | u in g'.threads && v in g'.threads && Pulls(g'.tree, g'.threads[u], l)
      ensures !Writes(g'.threads[v], l)
    {
      var ot := g.threads[u];
      assert u != t && ThreadOk(s, g.sizes, ot, hist) && th.own !! ot.own;
      PullsBefore(s, g'.tree, g.sizes, ot, ws, sh, l);
      assert !Writes(g.threads[v], l);
    }
  }

  lemma PerformsInv(g: Global, g': Global, t: Tid, top: Id, extra: Id, mx: Key, more: bool, hist: seq<map<Key, Value>>)
    requires Inv(g, hist) && Performs(g, g', t, top, extra, mx, more) && LocksOk(g') && WF(g'.tree)
      && MaxOk(g'.tree, g'.sizes)
    ensures Inv(g', hist + [g'.tree.m])
  {
    ThreadsAfterBody(g, g', t, top, extra, mx, more, hist);
    PullsAfterBody(g, g', t, top, extra, mx, more, hist);
  }

  lemma PerformsTree(g: Global, g': Global, t: Tid, top: Id, extra: Id, mx: Key, more: bool)
    requires WF(g.tree) && LocksOk(g) && Performs(g, g', t, top, extra, mx, more)
    ensures LocksOk(g') && WF(g'.tree)
  {
    var s, th := g.tree, g.threads[t];
    BodyOk(s, g.sizes, th, top, extra, mx);
    var u := BodyTree(s, th, th.pc.plan, th.pc.slot, top, extra, mx);
    WordsOk(u, g'.tree.ver);
    BodyFrame(s, th, th.pc.plan, th.pc.slot, top, extra, mx);
    LocksAfterBody(g, g', u, BodySpan(s, th, th.pc.plan, th.pc.slot, top, extra, mx),
      BodyShift(s, th, th.pc.plan, th.pc.slot, top, extra, mx));
  }

  lemma BodyKeepsRoom(g: Global, a: Action, hist: seq<map<Key, Value>>)
    requires Inv(g, hist) && a.Body? && Can(g, a)
    ensures MaxOk(TreeAfter(g, a), g.sizes) <==> !Overfills(g, a)
  {
    var s, th := g.tree, g.threads[a.t];
    assert ThreadOk(s, g.sizes, th, hist);
    BodyFits(s, g.sizes, th, a.top, a.extra, a.mx);
    if th.pc.plan.JoinPair? { JoinReady(s, g.sizes, th); }
  }

  lemma BodyStep(g: Global, a: Action, hist: seq<map<Key, Value>>, now: nat)
    requires Inv(g, hist) && a.Body? && Can(g, a) && !Fault(g, a)
    ensures Inv(After(g, a, now), hist + [TreeAfter(g, a).m])
  {
    BodyPerforms(g, a, hist, now);
    PerformsTree(g, After(g, a, now), a.t, a.top, a.extra, a.mx, a.more);
    BodyKeepsRoom(g, a, hist);
    PerformsInv(g, After(g, a, now), a.t, a.top, a.extra, a.mx, a.more, hist);
  }

  // ----- the other steps -----

  lemma Unchanged(s: State, own: set<Id>)
    requires forall x :: x in own ==> x in s.ver
    ensures Quiet(s, s, {}, own, Nothing())
  {
  }

  /** From g to g' thread t takes a step that changes neither a page nor a word. */
  ghost predicate Moves(g: Global, g': Global, t: Tid) {
    && t in g'.threads && g'.tree == g.tree && g'.sizes == g.sizes && g'.threads.Keys == g.threads.Keys + {t}
    && (forall u {:trigger g'.threads[u]} :: u in g.threads && u != t ==> g'.threads[u] == g.threads[u])
    && g'.threads[t].own == if t in g.threads then g.threads[t].own else {}
  }

  lemma MoveThreads(g: Global, g': Global, t: Tid, hist: seq<map<Key, Value>>)
    requires Inv(g, hist) && Moves(g, g', t) && ThreadOk(g.tree, g.sizes, g'.threads[t], hist + [g.tree.m])
    ensures ThreadsOk(g', hist + [g.tree.m])
  {
    forall u | u in g'.threads ensures ThreadOk(g'.tree, g'.sizes, g'.threads[u], hist + [g.tree.m]) {
      if u != t {
        Unchanged(g.tree, g.threads[u].own);
        IdleKeep(g.tree, g.tree, g.sizes, g.threads[u], hist);
      }
    }
  }

  /** A write that has just passed its check is not of the last leaf below a merge of leaves' parents: such a merge
      holds the leaf's parent, whose word the check has found unchanged. */
  lemma WriterIsElsewhere(s: State, sizes: Caps, th: Thread, ot: Thread, l: Id)
    requires Ready(s, sizes, ot) && Pulls(s, ot, l) && (forall n :: n in ot.own ==> n in s.ver && !Unlocked(s.ver[n]))
    requires th.pc.Locking? && SectionOk(s, sizes, th) && (th.pc.plan.PutRoom? || th.pc.plan.EraseKey?)
    requires th.pc.got == |Locks(th.pc.plan)| && ParSame(s, th.pc.plan.path)
    ensures Last(th.pc.plan.path).id != l
  {
    var path := th.pc.plan.path;
    PullsKid(s, sizes, ot, l);
    var a := ot.pc.plan.left.id;
    assert Locks(th.pc.plan)[..th.pc.got] == Locks(th.pc.plan);
    OwnedLive(s, th.own, Locks(th.pc.plan), Last(path));
    if |path| > 1 { ParIsLink(s, th.own, th, path); }
    StandsOn(s, th.own, th, path);
    if Last(path).id == l && |path| > 1 {
      OneParent(s, a, |s.heap[a].kids| - 1, Par(path).id, LowerBound(s.heap[Par(path).id].keys, th.key), l);
    } else {
      RootIsTop(s, a, |s.heap[a].kids| - 1);
    }
  }

  /** The search for the largest key ends at an unlocked leaf, which nobody is about to write. */
  lemma PullerIsAlone(s: State, sizes: Caps, th: Thread, slot: Slot, ot: Thread, l: Id)
    requires s.heap.Keys == s.ver.Keys && th.pc.Locking? && PlanShape(th.pc.plan) && Clears(s, th.pc.plan, slot)
    requires Pulls(s, th.(pc := Cleared(th.pc.plan, slot)), l)
    requires ot.pc.Cleared? && SectionOk(s, sizes, ot)
    ensures !Writes(ot, l)
  {
    if Writes(ot, l) {
      OwnedLive(s, ot.own, Locks(ot.pc.plan), Last(ot.pc.plan.path));
    }
  }

  lemma ClearApart(g: Global, t: Tid, u: Tid, plan: Plan, slot: Slot, hist: seq<map<Key, Value>>, l: Id)
    requires Inv(g, hist) && t in g.threads && u in g.threads && PlanShape(plan)
      && g.threads[t].pc == Locking(plan, |Locks(plan)|)
    requires Clears(g.tree, plan, slot)
    ensures var th2 := g.threads[t].(pc := Cleared(plan, slot));
            && (Pulls(g.tree, th2, l) ==> !Writes(g.threads[u], l))
            && (Pulls(g.tree, g.threads[u], l) ==> !Writes(th2, l))
  {
    var th, ot := g.threads[t], g.threads[u];
    assert ThreadOk(g.tree, g.sizes, th, hist) && ThreadOk(g.tree, g.sizes, ot, hist);
    if Pulls(g.tree, th.(pc := Cleared(plan, slot)), l) && ot.pc.Cleared? {
      PullerIsAlone(g.tree, g.sizes, th, slot, ot, l);
    }
    if Pulls(g.tree, ot, l) && (plan.PutRoom? || plan.EraseKey?) {
      WriterIsElsewhere(g.tree, g.sizes, th, ot, l);
    }
  }

  lemma ClearPulls(g: Global, g': Global, t: Tid, plan: Plan, slot: Slot, hist: seq<map<Key, Value>>)
    requires Inv(g, hist) && Moves(g, g', t) && t in g.threads && PlanShape(plan)
      && g.threads[t].pc == Locking(plan, |Locks(plan)|)
    requires Clears(g.tree, plan, slot) && g'.threads[t] == g.threads[t].(pc := Cleared(plan, slot))
    ensures PullsOk(g')
  {
    forall u, v, l | u in g'.threads && v in g'.threads && Pulls(g'.tree, g'.threads[u], l)
      ensures !Writes(g'.threads[v], l)
    {
      if u == t && v != t {
        ClearApart(g, t, v, plan, slot, hist, l);
      } else if u != t && v == t {
        ClearApart(g, t, u, plan, slot, hist, l);
      } else if u != t {
        assert Pulls(g.tree, g.threads[u], l);
      }
    }
  }

  lemma MoveInv(g: Global, g': Global, t: Tid, hist: seq<map<Key, Value>>)
    requires Inv(g, hist) && Moves(g, g', t) && ThreadOk(g.tree, g.sizes, g'.threads[t], hist + [g.tree.m])
      && PullsOk(g')
    ensures Inv(g', hist + [g.tree.m])
  {
    OwnersStay(g, g');
    MoveThreads(g, g', t, hist);
  }

  lemma LocalThread(g: Global, t: Tid, pc: Pc, hist: seq<map<Key, Value>>)
    requires Inv(g, hist) && t in g.threads && Local(g, g.threads[t], pc)
    ensures ThreadOk(g.tree, g.sizes, g.threads[t].(pc := pc, strayed := g.threads[t].strayed && pc != Begin),
      hist + [g.tree.m])
  {
    var th := g.threads[t];
    assert ThreadOk(g.tree, g.sizes, th, hist);
    LocalKeep(g, th, pc, hist);
    Unchanged(g.tree, th.own);
    IdleKeep(g.tree, g.tree, g.sizes, th.(pc := pc, strayed := th.strayed && pc != Begin), hist);
  }

  lemma LocalPulls(g: Global, g': Global, t: Tid, pc: Pc, hist: seq<map<Key, Value>>)
    requires Inv(g, hist) && Moves(g, g', t) && t in g.threads && Local(g, g.threads[t], pc)
    requires g'.threads[t] == g.threads[t].(pc := pc, strayed := g.threads[t].strayed && pc != Begin)
    ensures PullsOk(g')
  {
    if pc.Cleared? {
      assert g'.threads[t] == g.threads[t].(pc := pc);
      ClearPulls(g, g', t, pc.plan, pc.slot, hist);
    } else {
      SamePulls(g, g', t);
    }
  }

  lemma LocalStep(g: Global, t: Tid, pc: Pc, hist: seq<map<Key, Value>>, now: nat)
    requires Inv(g, hist) && Can(g, Step(t, pc))
    ensures Inv(After(g, Step(t, pc), now), hist + [g.tree.m])
  {
    var g' := After(g, Step(t, pc), now);
    OthersStay(g, Step(t, pc), now);
    LocalThread(g, t, pc, hist);
    LocalPulls(g, g', t, pc, hist);
    MoveInv(g, g', t, hist);
  }

  lemma CallStep(g: Global, a: Action, hist: seq<map<Key, Value>>)
    requires Inv(g, hist) && a.Call? && Can(g, a)
    ensures Inv(After(g, a, |hist|), hist + [g.tree.m])
  {
    var g' := After(g, a, |hist|);
    OthersStay(g, a, |hist|);
    if a.t in g.threads { assert ThreadOk(g.tree, g.sizes, g.threads[a.t], hist); }
    SamePulls(g, g', a.t);
    MoveInv(g, g', a.t, hist);
  }

  /** A step keeps every page within its capacity if and only if it is not a borrow into a full page. */
  lemma RoomExactly(g: Global, a: Action, hist: seq<map<Key, Value>>)
    requires Inv(g, hist) && Can(g, a)
    ensures MaxOk(TreeAfter(g, a), g.sizes) <==> !Overfills(g, a)
  {
    if a.Body? {
      BodyKeepsRoom(g, a, hist);
    } else {
      var t := TreeAfter(g, a);
      forall n | n in t.info && n in t.heap ensures Fits(g.sizes, t.heap[n]) {
        assert n in g.tree.info;
      }
    }
  }

  /** Every step that is not a fault keeps the invariant. */
  lemma StepInv(g: Global, a: Action, hist: seq<map<Key, Value>>)
    requires Inv(g, hist) && Can(g, a) && !Fault(g, a)
    ensures Inv(After(g, a, |hist|), hist + [TreeAfter(g, a).m])
  {
    match a
    case Call(_, _, _) => CallStep(g, a, hist);
    case Step(t, pc) => LocalStep(g, t, pc, hist, |hist|);
    case Lock(t) => LockStep(g, t, hist, |hist|);
    case Unlock(t, n) => UnlockStep(g, t, n, hist, |hist|);
    case Body(_, _, _, _, _) => BodyStep(g, a, hist, |hist|);
  }
}
