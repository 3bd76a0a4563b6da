/** Calls that run while no other thread moves: whole descents, sections and repairs as schedules of single steps. */
module BTreeWalk {
  import opened SeqOps
  import opened BTreeHeap
  import opened BTreeSections
  import opened BTreeSize
  import opened BTreeOlc
  import opened BTreeCoupling
  import opened BTreeSteps
  import opened BTreeBodies
  import opened BTreeShared

  /** No word is locked. */
  predicate Free(s: State) {
    forall n {:trigger s.ver[n]} :: n in s.ver ==> Unlocked(s.ver[n])
  }

  predicate Idle(g: Global, t: Tid) {
    t in g.threads ==> g.threads[t].pc.Found? || g.threads[t].pc.Ended?
  }

  /** A thread that has just come to `pc` and holds nothing. */
  function Going(op: Op, k: Key, pc: Pc, ret: bool): Thread {
    Thread(op, k, pc, {}, ret, 0, false)
  }

  /** The nodes from the root on that a search for k visits, with their words. */
  ghost predicate Route(s: State, k: Key, path: Path) {
    && |path| > 0 && path[0].id == s.root
    && (forall j {:trigger path[j]} :: 0 <= j < |path| ==> path[j].id in s.heap && Same(s, path[j]))
    && (forall j {:trigger Hop(s, k, path, j)} :: 0 <= j < |path| - 1 ==> Hop(s, k, path, j))
  }

  ghost predicate Hop(s: State, k: Key, path: Path, j: nat)
    requires j + 1 < |path|
  {
    KidFor(s, path[j].id, k) == Some(path[j + 1].id)
  }

  /** An insert does not go down past a full node. */
  ghost predicate Passable(g: Global, op: Op, path: Path) {
    op.Insert? ==> forall j {:trigger path[j]} ::
      0 <= j < |path| - 1 && path[j].id in g.tree.heap ==> !Full(g.sizes, g.tree.heap[path[j].id])
  }

  // ----- calls and descents -----

  lemma Calls(g: Global, start: Global, acts: seq<Action>, t: Tid, op: Op, k: Key)
    requires WF(g.tree) && Idle(g, t) && Reaches(start, acts, g)
    ensures Reaches(start, acts + [Call(t, op, k)], With(g, t, Going(op, k, Begin, false)))
  {
    var a := Call(t, op, k);
    OthersStay(g, a, 0);
    assert After(g, a, 0).threads == With(g, t, Going(op, k, Begin, false)).threads;
    ReachesNext(start, acts, g, a, With(g, t, Going(op, k, Begin, false)));
  }

  lemma Enters(g: Global, start: Global, acts: seq<Action>, t: Tid) returns (more: seq<Action>)
    requires WF(g.tree) && Free(g.tree) && Reaches(start, acts, g) && t in g.threads && g.threads[t].pc == Begin
    ensures Reaches(start, more, Placed(g, t, AtNode([Held(g.tree.root, g.tree.ver[g.tree.root])])))
  {
    var n := g.tree.root;
    var h := Held(n, g.tree.ver[n]);
    assert Placed(g, t, Begin) == g;
    MoveOn(g, start, acts, t, Begin, GotRoot(n));
    MoveOn(g, start, acts + [Step(t, GotRoot(n))], t, GotRoot(n), GotVer(h));
    MoveOn(g, start, acts + [Step(t, GotRoot(n))] + [Step(t, GotVer(h))], t, GotVer(h), AtNode([h]));
    more := acts + [Step(t, GotRoot(n))] + [Step(t, GotVer(h))] + [Step(t, AtNode([h]))];
  }

  lemma Descends(g: Global, start: Global, acts: seq<Action>, t: Tid, path: Path, kid: Id) returns (more: seq<Action>)
    requires WF(g.tree) && Free(g.tree) && t in g.threads && Reaches(start, acts, Placed(g, t, AtNode(path)))
    requires |path| > 0 && Same(g.tree, Last(path)) && ParSame(g.tree, path)
    requires KidFor(g.tree, Last(path).id, g.threads[t].key) == Some(kid) && kid in g.tree.ver
    requires g.threads[t].op.Insert? ==> !Full(g.sizes, g.tree.heap[Last(path).id])
    ensures Reaches(start, more, Placed(g, t, AtNode(path + [Held(kid, g.tree.ver[kid])])))
  {
    var pc := AtNode(path + [Held(kid, g.tree.ver[kid])]);
    more := acts;
    MoveOn(g, start, more, t, AtNode(path), Down(path));
    more := more + [Step(t, Down(path))];
    MoveOn(g, start, more, t, Down(path), ReadKid(path, kid));
    more := more + [Step(t, ReadKid(path, kid))];
    MoveOn(g, start, more, t, ReadKid(path, kid), Checked(path, kid));
    more := more + [Step(t, Checked(path, kid))];
    MoveOn(g, start, more, t, Checked(path, kid), pc);
    more := more + [Step(t, pc)];
  }

  lemma {:induction false} Walks(g: Global, start: Global, acts: seq<Action>, t: Tid, path: Path, n: nat)
    returns (more: seq<Action>)
    requires WF(g.tree) && Free(g.tree) && Reaches(start, acts, g) && t in g.threads && g.threads[t].pc == Begin
    requires Route(g.tree, g.threads[t].key, path) && Passable(g, g.threads[t].op, path) && 0 < n <= |path|
    ensures Reaches(start, more, Placed(g, t, AtNode(path[..n])))
    decreases n
  {
    if n == 1 {
      more := Enters(g, start, acts, t);
      assert path[..1] == [path[0]];
    } else {
      more := Walks(g, start, acts, t, path, n - 1);
      RouteAt(g, g.threads[t].op, g.threads[t].key, path, n);
      more := Descends(g, start, more, t, path[..n - 1], path[n - 1].id);
    }
  }

  /** What the descent finds at its n-th node. */
  lemma RouteAt(g: Global, op: Op, k: Key, path: Path, n: nat)
    requires Route(g.tree, k, path) && Passable(g, op, path) && 1 < n <= |path|
    ensures var q, s := path[..n - 1], g.tree;
            && Same(s, Last(q)) && ParSame(s, q) && Last(q).id in s.heap && path[n - 1].id in s.ver
            && KidFor(s, Last(q).id, k) == Some(path[n - 1].id) && (op.Insert? ==> !Full(g.sizes, s.heap[Last(q).id]))
            && path[..n] == q + [Held(path[n - 1].id, s.ver[path[n - 1].id])]
  {
    var q := path[..n - 1];
    assert Last(q) == path[n - 2] && Same(g.tree, path[n - 1]) && Hop(g.tree, k, path, n - 2);
    assert n > 2 ==> Par(q) == path[n - 3];
  }

  /** The whole descent. */
  lemma Arrives(g: Global, start: Global, acts: seq<Action>, t: Tid, path: Path) returns (more: seq<Action>)
    requires WF(g.tree) && Free(g.tree) && Reaches(start, acts, g) && t in g.threads && g.threads[t].pc == Begin
    requires Route(g.tree, g.threads[t].key, path) && Passable(g, g.threads[t].op, path)
    ensures Reaches(start, more, Placed(g, t, AtNode(path)))
  {
    more := Walks(g, start, acts, t, path, |path|);
    assert path[..|path|] == path;
  }

  lemma {:induction false} RouteCovers(s: State, k: Key, path: Path, n: nat)
    requires WF(s) && Route(s, k, path) && n < |path|
    ensures path[n].id in s.info && InRange(s.info[path[n].id], k)
    decreases n
  {
    if n > 0 {
      RouteCovers(s, k, path, n - 1);
      assert Hop(s, k, path, n - 1);
      KidCovers(s, path[n - 1].id, k);
    }
  }

  // ----- sections -----

  function Lift(ver: map<Id, nat>, ids: set<Id>): map<Id, nat> {
    map n | n in ver :: if n in ids then ver[n] + 1 else ver[n]
  }

  /** After the first `n` locks of the plan. */
  function Seized(g: Global, t: Tid, plan: Plan, n: nat): Global
    requires t in g.threads && PlanShape(plan) && n <= |Locks(plan)|
  {
    var ids := IdsOf(Locks(plan)[..n]);
    With(g.(tree := g.tree.(ver := Lift(g.tree.ver, ids))), t, g.threads[t].(pc := Locking(plan, n), own := ids))
  }

  ghost predicate Takes(g: Global, t: Tid, plan: Plan) {
    && WF(g.tree) && t in g.threads && g.threads[t].own == {} && PlanShape(plan) && Distinct(Locks(plan))
    && (forall j {:trigger Locks(plan)[j]} :: 0 <= j < |Locks(plan)| ==> Same(g.tree, Locks(plan)[j]))
  }

  lemma SeizesNone(g: Global, t: Tid, plan: Plan)
    requires Takes(g, t, plan)
    ensures Seized(g, t, plan, 0) == Placed(g, t, Locking(plan, 0))
  {
    assert IdsOf(Locks(plan)[..0]) == {};
    assert Lift(g.tree.ver, {}) == g.tree.ver;
  }

  lemma LiftNext(ver: map<Id, nat>, ids: set<Id>, n: Id)
    requires n in ver && n !in ids
    ensures n in Lift(ver, ids) && Lift(ver, ids)[n] == ver[n] && Tick(Lift(ver, ids), n) == Lift(ver, ids + {n})
  {
  }

  lemma IdsNext(hs: seq<Held>, n: nat)
    requires n < |hs| && Distinct(hs)
    ensures IdsOf(hs[..n + 1]) == IdsOf(hs[..n]) + {hs[n].id} && hs[n].id !in IdsOf(hs[..n])
  {
    assert hs[..n + 1] == hs[..n] + [hs[n]];
  }

  lemma SeizesOne(g: Global, t: Tid, plan: Plan, n: nat)
    requires WF(g.tree) && t in g.threads && PlanShape(plan) && n < |Locks(plan)| && Distinct(Locks(plan))
      && Same(g.tree, Locks(plan)[n])
    ensures Does(Seized(g, t, plan, n), Lock(t), Seized(g, t, plan, n + 1))
  {
    var g1, g2, h := Seized(g, t, plan, n), Seized(g, t, plan, n + 1), Locks(plan)[n];
    WordsOk(g.tree, g1.tree.ver);
    IdsNext(Locks(plan), n);
    LiftNext(g.tree.ver, IdsOf(Locks(plan)[..n]), h.id);
    assert Target(g1.threads[t]) == h && Same(g1.tree, h);
    LockIs(g1, t, 0);
    assert After(g1, Lock(t), 0).threads == g2.threads;
  }

  lemma {:induction false} Seizes(g: Global, start: Global, acts: seq<Action>, t: Tid, plan: Plan, n: nat)
    returns (more: seq<Action>)
    requires Takes(g, t, plan) && n <= |Locks(plan)| && Reaches(start, acts, Placed(g, t, Locking(plan, 0)))
    ensures Reaches(start, more, Seized(g, t, plan, n))
    decreases n
  {
    if n == 0 {
      SeizesNone(g, t, plan);
      more := acts;
    } else {
      more := Seizes(g, start, acts, t, plan, n - 1);
      assert Same(g.tree, Locks(plan)[n - 1]);
      SeizesNext(g, start, more, t, plan, n - 1);
      more := more + [Lock(t)];
    }
  }

  lemma SeizesNext(g: Global, start: Global, acts: seq<Action>, t: Tid, plan: Plan, n: nat)
    requires WF(g.tree) && t in g.threads && PlanShape(plan) && n < |Locks(plan)| && Distinct(Locks(plan))
      && Same(g.tree, Locks(plan)[n]) && Reaches(start, acts, Seized(g, t, plan, n))
    ensures Reaches(start, acts + [Lock(t)], Seized(g, t, plan, n + 1))
  {
    SeizesOne(g, t, plan, n);
    ReachesNext(start, acts, Seized(g, t, plan, n), Lock(t), Seized(g, t, plan, n + 1));
  }

  /** With all its locks taken and its check passed. */
  function Poised(g: Global, t: Tid, plan: Plan, slot: Slot): Global
    requires t in g.threads && PlanShape(plan)
  {
    Placed(Seized(g, t, plan, |Locks(plan)|), t, Cleared(plan, slot))
  }

  lemma Readies(g: Global, start: Global, acts: seq<Action>, t: Tid, plan: Plan, slot: Slot) returns (more: seq<Action>)
    requires Takes(g, t, plan) && Reaches(start, acts, Placed(g, t, Locking(plan, 0)))
    requires Clears(Poised(g, t, plan, slot).tree, plan, slot)
    ensures Reaches(start, more, Poised(g, t, plan, slot)) && WF(Poised(g, t, plan, slot).tree)
  {
    var g1 := Seized(g, t, plan, |Locks(plan)|);
    more := Seizes(g, start, acts, t, plan, |Locks(plan)|);
    WordsOk(g.tree, g1.tree.ver);
    StepIs(g1, t, Cleared(plan, slot));
    ReachesNext(start, more, g1, Step(t, Cleared(plan, slot)), Poised(g, t, plan, slot));
    more := more + [Step(t, Cleared(plan, slot))];
  }

  /** What a section leaves: the thread still holds its locks. */
  ghost function Acted(g: Global, t: Tid, top: Id, extra: Id, mx: Key, more: bool): Global
    requires WF(g.tree) && t in g.threads && g.threads[t].pc.Cleared?
    requires CanBody(g.tree, g.threads[t], g.threads[t].pc.plan, g.threads[t].pc.slot, top, extra, mx)
  {
    var s, th := g.tree, g.threads[t];
    With(g.(tree := Written(s, BodyTree(s, th, th.pc.plan, th.pc.slot, top, extra, mx))), t,
         th.(pc := Releasing(NextOf(th.pc.plan, more)), ret := RetOf(s, th, th.pc.plan)))
  }

  lemma Acts(g: Global, t: Tid, top: Id, extra: Id, mx: Key, more: bool)
    requires WF(g.tree) && t in g.threads && g.threads[t].pc.Cleared?
    requires var th := g.threads[t];
      CanBody(g.tree, th, th.pc.plan, th.pc.slot, top, extra, mx)
      && BodyShift(g.tree, th, th.pc.plan, th.pc.slot, top, extra, mx).level < 3
    ensures Does(g, Body(t, top, extra, mx, more), Acted(g, t, top, extra, mx, more))
  {
    var a := Body(t, top, extra, mx, more);
    var h := Acted(g, t, top, extra, mx, more);
    forall u | u in g.threads ensures Mark(g.threads[u], ShiftOf(g, a)) == g.threads[u] { }
    assert After(g, a, 0).threads == h.threads;
  }

  /** With the nodes in `ids` unlocked. */
  function Dropped(g: Global, t: Tid, ids: set<Id>): Global
    requires t in g.threads
  {
    With(g.(tree := g.tree.(ver := Lift(g.tree.ver, ids))), t, g.threads[t].(own := g.threads[t].own - ids))
  }

  lemma DropsOne(g: Global, t: Tid, ids: set<Id>, n: Id)
    requires WF(g.tree) && t in g.threads && g.threads[t].pc.Releasing? && ids <= g.threads[t].own <= g.tree.ver.Keys
    requires n in g.threads[t].own && n !in ids
    ensures Does(Dropped(g, t, ids), Unlock(t, n), Dropped(g, t, ids + {n}))
  {
    var g1, g2 := Dropped(g, t, ids), Dropped(g, t, ids + {n});
    WordsOk(g.tree, g1.tree.ver);
    OthersStay(g1, Unlock(t, n), 0);
    assert Tick(g1.tree.ver, n) == g2.tree.ver;
    assert g1.threads[t].own - {n} == g2.threads[t].own;
    assert After(g1, Unlock(t, n), 0).threads == g2.threads;
  }

  lemma {:induction false} Drops(g: Global, start: Global, acts: seq<Action>, t: Tid, ids: set<Id>)
    returns (more: seq<Action>)
    requires WF(g.tree) && t in g.threads && g.threads[t].pc.Releasing? && ids <= g.threads[t].own <= g.tree.ver.Keys
    requires Reaches(start, acts, g)
    ensures Reaches(start, more, Dropped(g, t, ids))
    decreases |ids|
  {
    if ids == {} {
      assert Lift(g.tree.ver, {}) == g.tree.ver && g.threads[t].own - {} == g.threads[t].own;
      assert Dropped(g, t, {}).threads == g.threads;
      more := acts;
    } else {
      var n :| n in ids;
      more := Drops(g, start, acts, t, ids - {n});
      DropsOne(g, t, ids - {n}, n);
      assert ids - {n} + {n} == ids;
      ReachesNext(start, more, Dropped(g, t, ids - {n}), Unlock(t, n), Dropped(g, t, ids));
      more := more + [Unlock(t, n)];
    }
  }

  /** Everything unlocked, and on to what comes next. */
  function Resumed(g: Global, t: Tid): Global
    requires t in g.threads && g.threads[t].pc.Releasing?
  {
    Placed(Dropped(g, t, g.threads[t].own), t, Following(g.threads[t], g.threads[t].pc.next))
  }

  lemma Frees(g: Global, start: Global, acts: seq<Action>, t: Tid) returns (more: seq<Action>)
    requires WF(g.tree) && t in g.threads && g.threads[t].pc.Releasing? && g.threads[t].own <= g.tree.ver.Keys
    requires Reaches(start, acts, g) && !g.threads[t].strayed
    ensures Reaches(start, more, Resumed(g, t)) && WF(Resumed(g, t).tree)
  {
    var g1, pc := Dropped(g, t, g.threads[t].own), Following(g.threads[t], g.threads[t].pc.next);
    more := Drops(g, start, acts, t, g.threads[t].own);
    WordsOk(g.tree, g1.tree.ver);
    StepIs(g1, t, pc);
    ReachesNext(start, more, g1, Step(t, pc), Resumed(g, t));
    more := more + [Step(t, pc)];
  }

  // ----- whole operations -----

  /** The same tree, whatever the words. */
  predicate SameTree(s: State, t: State) {
    t.heap == s.heap && t.info == s.info && t.root == s.root && t.m == s.m
  }

  /** The section of a thread that holds its locks can be performed. */
  ghost predicate Able(g: Global, t: Tid, top: Id, extra: Id, mx: Key) {
    && WF(g.tree) && t in g.threads && g.threads[t].pc.Cleared? && !g.threads[t].strayed
    && var s, th := g.tree, g.threads[t];
       && CanBody(s, th, th.pc.plan, th.pc.slot, top, extra, mx)
       && BodyShift(s, th, th.pc.plan, th.pc.slot, top, extra, mx).level < 3
       && WF(BodyTree(s, th, th.pc.plan, th.pc.slot, top, extra, mx))
       && s.heap.Keys <= BodyTree(s, th, th.pc.plan, th.pc.slot, top, extra, mx).heap.Keys
  }

  lemma EvenAgain(s: State, s1: State, u: State, t: State, ids: set<Id>)
    requires Free(s) && ids <= s.ver.Keys && s1.ver == Lift(s.ver, ids) && s1.ver.Keys <= u.heap.Keys
    requires t.ver == Lift(Written(s1, u).ver, ids)
    ensures Free(t) && t.ver.Keys == u.heap.Keys && KeepWords(s, t, ids)
  {
    forall n | n in t.ver ensures Unlocked(t.ver[n]) {
      if n in s1.ver { assert Unlocked(s.ver[n]); }
    }
  }

  /** The end of an operation: where the thread goes on, with no lock held. */
  ghost predicate Leaves(g: Global, h: Global, t: Tid, ids: set<Id>, u: State, pc: Pc, ret: bool) {
    && t in g.threads && h.sizes == g.sizes
    && h.threads == g.threads[t := g.threads[t].(pc := pc, own := {}, ret := ret)]
    && SameTree(u, h.tree) && Free(h.tree) && KeepWords(g.tree, h.tree, ids)
  }

  /** Words have only grown, and only those of the nodes in `ids`. */
  predicate KeepWords(s: State, t: State, ids: set<Id>) {
    forall n {:trigger t.ver[n]} {:trigger n in t.ver} ::
      n in s.ver ==> n in t.ver && s.ver[n] <= t.ver[n] && (n !in ids ==> t.ver[n] == s.ver[n])
  }

  /** From the last check to the end of the section. */
  lemma Finishes(g: Global, start: Global, acts: seq<Action>, t: Tid, top: Id, extra: Id, mx: Key, more: bool)
    returns (all: seq<Action>)
    requires Able(g, t, top, extra, mx) && Reaches(start, acts, g) && g.threads[t].own <= g.tree.heap.Keys
    ensures Reaches(start, all, Resumed(Acted(g, t, top, extra, mx, more), t))
    ensures WF(Resumed(Acted(g, t, top, extra, mx, more), t).tree)
  {
    Acts(g, t, top, extra, mx, more);
    var g2, th := Acted(g, t, top, extra, mx, more), g.threads[t];
    ReachesNext(start, acts, g, Body(t, top, extra, mx, more), g2);
    WordsOk(BodyTree(g.tree, th, th.pc.plan, th.pc.slot, top, extra, mx), g2.tree.ver);
    all := Frees(g2, start, acts + [Body(t, top, extra, mx, more)], t);
  }

  /** What is left when it ends. */
  lemma Ends(g: Global, t: Tid, plan: Plan, slot: Slot, u: State, next: Next, ret: bool, g2: Global)
    requires t in g.threads && g.threads[t].own == {} && PlanShape(plan) && Free(g.tree)
    requires IdsOf(Locks(plan)) <= g.tree.ver.Keys <= u.heap.Keys
    requires var g1 := Poised(g, t, plan, slot);
      g2 == With(g1.(tree := Written(g1.tree, u)), t, g1.threads[t].(pc := Releasing(next), ret := ret))
    ensures Leaves(g, Resumed(g2, t), t, IdsOf(Locks(plan)), u, Following(g.threads[t].(ret := ret), next), ret)
  {
    var h, ids := Resumed(g2, t), IdsOf(Locks(plan));
    assert Locks(plan)[..|Locks(plan)|] == Locks(plan);
    EvenAgain(g.tree, Poised(g, t, plan, slot).tree, u, h.tree, ids);
    assert g2.threads[t].own == ids && ids - ids == {};
    assert h.threads == g.threads[t := g.threads[t].(pc := Following(g.threads[t].(ret := ret), next), own := {},
      ret := ret)];
  }

  /** From the plan to the end of its section. */
  lemma Completes(g: Global, start: Global, acts: seq<Action>, t: Tid, plan: Plan, slot: Slot, top: Id, extra: Id,
          mx: Key,
          more: bool)
    returns (all: seq<Action>, h: Global)
    requires Takes(g, t, plan) && Free(g.tree) && Reaches(start, acts, Placed(g, t, Locking(plan, 0)))
    requires Clears(Poised(g, t, plan, slot).tree, plan, slot) && Able(Poised(g, t, plan, slot), t, top, extra, mx)
    ensures Reaches(start, all, h) && WF(h.tree)
    ensures var g1 := Poised(g, t, plan, slot);
            Leaves(g, h, t, IdsOf(Locks(plan)), BodyTree(g1.tree, g1.threads[t], plan, slot, top, extra, mx),
                   Following(g.threads[t].(ret := RetOf(g1.tree, g1.threads[t], plan)), NextOf(plan, more)),
                   RetOf(g1.tree, g1.threads[t], plan))
  {
    var g1 := Poised(g, t, plan, slot);
    LockIds(g, t, plan);
    all := Readies(g, start, acts, t, plan, slot);
    all := Finishes(g1, start, all, t, top, extra, mx, more);
    h := Resumed(Acted(g1, t, top, extra, mx, more), t);
    Ends(g, t, plan, slot, BodyTree(g1.tree, g1.threads[t], plan, slot, top, extra, mx), NextOf(plan, more),
         RetOf(g1.tree, g1.threads[t], plan), Acted(g1, t, top, extra, mx, more));
  }

  lemma LockIds(g: Global, t: Tid, plan: Plan)
    requires Takes(g, t, plan)
    ensures IdsOf(Locks(plan)) <= g.tree.ver.Keys && Locks(plan)[..|Locks(plan)|] == Locks(plan)
  {
  }

  lemma LeavesSame(g: Global, h: Global, t: Tid, ids: set<Id>, u: State, u2: State, pc: Pc, ret: bool)
    requires Leaves(g, h, t, ids, u2, pc, ret) && SameTree(u, u2)
    ensures Leaves(g, h, t, ids, u, pc, ret)
  {
  }

  /** The section of thread `th`, whose result is `u`. */
  ghost predicate Yields(s: State, th: Thread, plan: Plan, slot: Slot, top: Id, extra: Id, mx: Key, u: State) {
    && WF(s) && CanBody(s, th, plan, slot, top, extra, mx)
    && BodyShift(s, th, plan, slot, top, extra, mx).level < 3
    && BodyTree(s, th, plan, slot, top, extra, mx) == u && WF(u) && s.heap.Keys <= u.heap.Keys
  }

  lemma YieldsAble(g: Global, t: Tid, plan: Plan, slot: Slot, top: Id, extra: Id, mx: Key, u: State)
    requires t in g.threads && g.threads[t].pc == Cleared(plan, slot) && !g.threads[t].strayed
    requires Yields(g.tree, g.threads[t], plan, slot, top, extra, mx, u)
    ensures Able(g, t, top, extra, mx)
  {
  }

  /** What a call finds on its way to a section. */
  ghost predicate Way(g: Global, t: Tid, path: Path, plan: Plan) {
    && WF(g.tree) && Free(g.tree) && t in g.threads && g.threads[t].pc == Begin
    && Route(g.tree, g.threads[t].key, path) && Passable(g, g.threads[t].op, path)
    && Local(g, g.threads[t].(pc := AtNode(path)), Locking(plan, 0))
  }

  lemma GetsThere(g: Global, start: Global, acts: seq<Action>, t: Tid, path: Path, plan: Plan)
    returns (all: seq<Action>)
    requires Way(g, t, path, plan) && Reaches(start, acts, g)
    ensures Reaches(start, all, Placed(g, t, Locking(plan, 0)))
  {
    all := Arrives(g, start, acts, t, path);
    MovesTo(g, start, all, t, AtNode(path), Locking(plan, 0));
    all := all + [Step(t, Locking(plan, 0))];
  }

  /** What it does there, with result `u` and report `ret`. */
  ghost predicate Deed(g: Global, t: Tid, plan: Plan, slot: Slot, top: Id, extra: Id, mx: Key, u: State, ret: bool)
    requires t in g.threads && PlanShape(plan)
  {
    var g1 := Poised(g, t, plan, slot);
    && Clears(g1.tree, plan, slot) && Yields(g1.tree, g1.threads[t], plan, slot, top, extra, mx, u)
    && RetOf(g1.tree, g1.threads[t], plan) == ret
  }

  lemma CompletesTo(g: Global, start: Global, acts: seq<Action>, t: Tid, plan: Plan, slot: Slot, top: Id, extra: Id,
          mx: Key, more: bool, u: State, v: State, ret: bool)
    returns (all: seq<Action>, h: Global)
    requires Takes(g, t, plan) && Free(g.tree) && !g.threads[t].strayed
    requires Reaches(start, acts, Placed(g, t, Locking(plan, 0)))
    requires Deed(g, t, plan, slot, top, extra, mx, u, ret) && SameTree(v, u)
    ensures Reaches(start, all, h) && WF(h.tree)
    ensures Leaves(g, h, t, IdsOf(Locks(plan)), v, Following(g.threads[t].(ret := ret), NextOf(plan, more)), ret)
  {
    YieldsAble(Poised(g, t, plan, slot), t, plan, slot, top, extra, mx, u);
    all, h := Completes(g, start, acts, t, plan, slot, top, extra, mx, more);
    LeavesSame(g, h, t, IdsOf(Locks(plan)), v, u, Following(g.threads[t].(ret := ret), NextOf(plan, more)), ret);
  }

  lemma MovesTo(g: Global, start: Global, acts: seq<Action>, t: Tid, pc: Pc, pc2: Pc)
    requires WF(g.tree) && t in g.threads && Reaches(start, acts, Placed(g, t, pc)) && pc2.Locking?
    requires Local(g, g.threads[t].(pc := pc), pc2)
    ensures Reaches(start, acts + [Step(t, pc2)], Placed(g, t, pc2))
  {
    assert Local(Placed(g, t, pc), g.threads[t].(pc := pc), pc2);
    MoveOn(g, start, acts, t, pc, pc2);
  }

  // ----- inserts -----

  /** Where an insert finds its leaf. */
  ghost predicate AtLeafOf(g: Global, t: Tid, path: Path) {
    && WF(g.tree) && Free(g.tree) && t in g.threads && g.threads[t].pc == Begin && g.threads[t].own == {}
    && !g.threads[t].strayed && Route(g.tree, g.threads[t].key, path) && Passable(g, g.threads[t].op, path)
    && g.tree.heap[Last(path).id].Leaf?
  }

  lemma LeafFacts(g: Global, t: Tid, path: Path)
    requires AtLeafOf(g, t, path)
    ensures var s, l := g.tree, Last(path).id;
            && l in s.info && InRange(s.info[l], g.threads[t].key) && LeafPage(s, l) && ParSame(s, path)
            && Same(s, Last(path)) && LeafGet(s.heap[l], g.threads[t].key) == MapGet(s.m, g.threads[t].key)
    ensures |path| > 1 ==>
      var s, p := g.tree, Par(path).id;
      && p in s.info && s.heap[p].Inner? && p != Last(path).id && Same(s, Par(path))
      && IsKid(s, p, LowerBound(s.heap[p].keys, g.threads[t].key), Last(path).id)
      && |s.heap[p].kids| == |s.heap[p].keys| + 1
  {
    var s, k, n := g.tree, g.threads[t].key, |path| - 1;
    RouteCovers(s, k, path, n);
    assert path[n] == Last(path);
    assert NodeOk(s, s.heap[path[n].id], s.info[path[n].id]);
    LeafAnswers(s, path[n].id, k);
    if n > 0 {
      RouteCovers(s, k, path, n - 1);
      assert path[n - 1] == Par(path) && Hop(s, k, path, n - 1);
      assert NodeOk(s, s.heap[path[n - 1].id], s.info[path[n - 1].id]);
    }
  }

  /** The state in which a thread has taken the locks of its plan differs in words only. */
  lemma PoisedIs(g: Global, t: Tid, plan: Plan, slot: Slot)
    requires WF(g.tree) && t in g.threads && PlanShape(plan)
    ensures var g1 := Poised(g, t, plan, slot);
            && SameTree(g.tree, g1.tree) && WF(g1.tree) && g1.tree.ver == Lift(g.tree.ver, IdsOf(Locks(plan)))
            && t in g1.threads
            && g1.threads[t] == g.threads[t].(pc := Cleared(plan, slot), own := IdsOf(Locks(plan)))
  {
    assert Locks(plan)[..|Locks(plan)|] == Locks(plan);
    WordsOk(g.tree, Poised(g, t, plan, slot).tree.ver);
  }

  lemma PutYields(s: State, th: Thread, path: Path, slot: Slot)
    requires WF(s) && th.op.Insert? && |path| > 0 && LeafPage(s, Last(path).id) && Last(path).id in s.info
    requires InRange(s.info[Last(path).id], th.key) && th.key !in s.m
    ensures Yields(s, th, PutRoom(path), slot, 0, 0, 0, PutEntry(s, Last(path).id, th.key, th.op.val))
    ensures RetOf(s, th, PutRoom(path))
  {
    PutIfOk(s, Last(path).id, th.key, th.op.val);
  }

  lemma PutTakes(g: Global, t: Tid, path: Path)
    requires AtLeafOf(g, t, path)
    ensures Takes(g, t, PutRoom(path)) && Takes(g, t, EraseKey(path))
  {
    LeafFacts(g, t, path);
  }

  lemma PutWay(g: Global, t: Tid, path: Path)
    requires AtLeafOf(g, t, path) && g.threads[t].op.Insert? && !Full(g.sizes, g.tree.heap[Last(path).id])
    ensures Way(g, t, path, PutRoom(path))
  {
    LeafFacts(g, t, path);
  }

  lemma PutClears(s: State, s1: State, path: Path, slot: Slot)
    requires |path| > 0 && ParSame(s, path) && (|path| > 1 ==> Par(path).id != Last(path).id)
    requires s1.ver == Lift(s.ver, IdsOf(Locks(PutRoom(path))))
    ensures Clears(s1, PutRoom(path), slot) && Clears(s1, EraseKey(path), slot)
  {
    assert Locks(PutRoom(path)) == [Last(path)];
  }

  lemma PutDeed(g: Global, t: Tid, path: Path) returns (u: State)
    requires AtLeafOf(g, t, path) && g.threads[t].op.Insert? && g.threads[t].key !in g.tree.m
    requires PagesOk(g.tree.heap[Last(path).id])
    ensures Deed(g, t, PutRoom(path), Slot(0, 0), 0, 0, 0, u, true)
    ensures SameTree(PutEntry(g.tree, Last(path).id, g.threads[t].key, g.threads[t].op.val), u)
  {
    var plan, slot := PutRoom(path), Slot(0, 0);
    var g1 := Poised(g, t, plan, slot);
    LeafFacts(g, t, path);
    PoisedIs(g, t, plan, slot);
    PutClears(g.tree, g1.tree, path, slot);
    PutYields(g1.tree, g1.threads[t], path, slot);
    u := PutEntry(g1.tree, Last(path).id, g.threads[t].key, g.threads[t].op.val);
  }

  lemma PutThere(g: Global, start: Global, acts: seq<Action>, t: Tid, path: Path) returns (all: seq<Action>)
    requires AtLeafOf(g, t, path) && Reaches(start, acts, g) && g.threads[t].op.Insert?
    requires !Full(g.sizes, g.tree.heap[Last(path).id])
    ensures Reaches(start, all, Placed(g, t, Locking(PutRoom(path), 0))) && Takes(g, t, PutRoom(path))
  {
    PutWay(g, t, path);
    PutTakes(g, t, path);
    all := GetsThere(g, start, acts, t, path, PutRoom(path));
  }

  /** An insert into a leaf with room. */
  lemma PutsRoom(g: Global, start: Global, acts: seq<Action>, t: Tid, path: Path) returns (all: seq<Action>, h: Global)
    requires AtLeafOf(g, t, path) && Reaches(start, acts, g) && g.threads[t].op.Insert?
    requires g.threads[t].key !in g.tree.m && !Full(g.sizes, g.tree.heap[Last(path).id])
    requires PagesOk(g.tree.heap[Last(path).id])
    ensures Reaches(start, all, h) && WF(h.tree)
    ensures Leaves(g, h, t, IdsOf(Locks(PutRoom(path))),
                   PutEntry(g.tree, Last(path).id, g.threads[t].key, g.threads[t].op.val), Ended(true), true)
  {
    all := PutThere(g, start, acts, t, path);
    var u := PutDeed(g, t, path);
    all, h := CompletesTo(g, start, all, t, PutRoom(path), Slot(0, 0), 0, 0, 0, false, u,
                          PutEntry(g.tree, Last(path).id, g.threads[t].key, g.threads[t].op.val), true);
  }

  lemma ApplySame(s: State, s1: State, w: Write)
    requires WF(s) && WF(s1) && SameTree(s, s1) && s.ver.Keys == s1.ver.Keys && Enabled(s, w)
      && (w.SplitKid? || w.SplitRoot?)
    ensures Enabled(s1, w) && SameTree(Apply(s, w), Apply(s1, w))
  {
  }

  /** How an insert splits the last node of its path. */
  function SplitOf(s: State, k: Key, path: Path, top: Id, extra: Id): Write
    requires |path| > 0
  {
    if |path| > 1 && Par(path).id in s.heap then SplitKid(Par(path).id, LowerBound(s.heap[Par(path).id].keys, k), extra)
    else SplitRoot(top, extra)
  }

  /** The tree after an insert into a full leaf. */
  ghost function PutSplit(s: State, k: Key, v: Value, path: Path, top: Id, extra: Id): State
    requires WF(s) && |path| > 0 && LeafPage(s, Last(path).id)
    requires SplitsNode(s, SplitOf(s, k, path, top, extra), Last(path).id)
  {
    var w, l := SplitOf(s, k, path, top, extra), Last(path).id;
    HalfIsLeaf(s, w, l, k);
    PutIf(Apply(s, w), Half(s.heap[l], l, extra, k), k, v)
  }

  lemma PutSplitSame(s: State, s1: State, k: Key, v: Value, path: Path, top: Id, extra: Id)
    requires WF(s) && WF(s1) && SameTree(s, s1) && |path| > 0 && LeafPage(s, Last(path).id) && s.ver.Keys == s1.ver.Keys
    requires SplitsNode(s, SplitOf(s, k, path, top, extra), Last(path).id)
    ensures SplitsNode(s1, SplitOf(s1, k, path, top, extra), Last(path).id)
    ensures SameTree(PutSplit(s, k, v, path, top, extra), PutSplit(s1, k, v, path, top, extra))
  {
    ApplySame(s, s1, SplitOf(s, k, path, top, extra));
  }

  lemma PutSplitYields(s: State, th: Thread, path: Path, slot: Slot, top: Id, extra: Id)
    requires WF(s) && th.op.Insert? && |path| > 0 && LeafPage(s, Last(path).id) && Last(path).id in s.info
    requires InRange(s.info[Last(path).id], th.key) && th.key !in s.m
    requires SplitsNode(s, SplitOf(s, th.key, path, top, extra), Last(path).id)
    ensures Yields(s, th, PutFull(path), slot, top, extra, 0, PutSplit(s, th.key, th.op.val, path, top, extra))
    ensures RetOf(s, th, PutFull(path))
  {
    var w, l := SplitOf(s, th.key, path, top, extra), Last(path).id;
    assert WriteOf(s, th.key, PutFull(path), top, extra, 0) == w;
    HalfIsLeaf(s, w, l, th.key);
    LeafAnswers(s, l, th.key);
    PutFullOk(s, w, l, th.key, th.op.val);
  }

  lemma FullSplits(g: Global, t: Tid, path: Path, top: Id, extra: Id)
    requires AtLeafOf(g, t, path) && Full(g.sizes, g.tree.heap[Last(path).id]) && g.sizes.leaf >= 3
    requires top !in g.tree.heap && extra !in g.tree.heap && top != extra
    ensures SplitsNode(g.tree, SplitOf(g.tree, g.threads[t].key, path, top, extra), Last(path).id)
  {
    LeafFacts(g, t, path);
    if |path| == 1 { assert path[0] == Last(path); }
  }

  lemma FullThere(g: Global, start: Global, acts: seq<Action>, t: Tid, path: Path) returns (all: seq<Action>)
    requires AtLeafOf(g, t, path) && Reaches(start, acts, g) && g.threads[t].op.Insert?
    requires Full(g.sizes, g.tree.heap[Last(path).id])
    ensures Reaches(start, all, Placed(g, t, Locking(PutFull(path), 0))) && Takes(g, t, PutFull(path))
  {
    LeafFacts(g, t, path);
    assert Way(g, t, path, PutFull(path));
    all := GetsThere(g, start, acts, t, path, PutFull(path));
  }

  lemma FullDeed(g: Global, t: Tid, path: Path, top: Id, extra: Id) returns (u: State)
    requires AtLeafOf(g, t, path) && g.threads[t].op.Insert? && g.threads[t].key !in g.tree.m
    requires LeafPage(g.tree, Last(path).id) && Full(g.sizes, g.tree.heap[Last(path).id])
    requires SplitsNode(g.tree, SplitOf(g.tree, g.threads[t].key, path, top, extra), Last(path).id)
    ensures Deed(g, t, PutFull(path), Slot(0, 0), top, extra, 0, u, true)
    ensures SameTree(PutSplit(g.tree, g.threads[t].key, g.threads[t].op.val, path, top, extra), u)
  {
    var th, plan, slot := g.threads[t], PutFull(path), Slot(0, 0);
    var g1 := Poised(g, t, plan, slot);
    LeafFacts(g, t, path);
    PoisedIs(g, t, plan, slot);
    if |path| == 1 { assert path[0] == Last(path); }
    PutSplitSame(g.tree, g1.tree, th.key, th.op.val, path, top, extra);
    PutSplitYields(g1.tree, g1.threads[t], path, slot, top, extra);
    u := PutSplit(g1.tree, th.key, th.op.val, path, top, extra);
  }

  /** An insert into a full leaf. */
  lemma PutsFull(g: Global, start: Global, acts: seq<Action>, t: Tid, path: Path, top: Id, extra: Id)
    returns (all: seq<Action>, h: Global)
    requires AtLeafOf(g, t, path) && Reaches(start, acts, g) && g.threads[t].op.Insert? && g.threads[t].key !in g.tree.m
    requires LeafPage(g.tree, Last(path).id) && Full(g.sizes, g.tree.heap[Last(path).id])
    requires SplitsNode(g.tree, SplitOf(g.tree, g.threads[t].key, path, top, extra), Last(path).id)
    ensures Reaches(start, all, h) && WF(h.tree)
    ensures Leaves(g, h, t, IdsOf(Locks(PutFull(path))),
                   PutSplit(g.tree, g.threads[t].key, g.threads[t].op.val, path, top, extra), Ended(true), true)
  {
    all := FullThere(g, start, acts, t, path);
    var u := FullDeed(g, t, path, top, extra);
    all, h := CompletesTo(g, start, all, t, PutFull(path), Slot(0, 0), top, extra, 0, false, u,
                          PutSplit(g.tree, g.threads[t].key, g.threads[t].op.val, path, top, extra), true);
  }

  // ----- a full inner root -----

  /** An insert finds the root full. */
  ghost predicate AtRoot(g: Global, t: Tid) {
    && WF(g.tree) && Free(g.tree) && t in g.threads && g.threads[t].pc == Begin && g.threads[t].own == {}
    && !g.threads[t].strayed && g.threads[t].op.Insert?
    && g.tree.heap[g.tree.root].Inner? && Full(g.sizes, g.tree.heap[g.tree.root]) && g.sizes.inner >= 3
  }

  function RootPath(s: State): Path
    requires s.root in s.ver
  {
    [Held(s.root, s.ver[s.root])]
  }

  lemma RootThere(g: Global, start: Global, acts: seq<Action>, t: Tid) returns (all: seq<Action>)
    requires AtRoot(g, t) && Reaches(start, acts, g)
    ensures Reaches(start, all, Placed(g, t, Locking(SplitNode(RootPath(g.tree)), 0)))
      && Takes(g, t, SplitNode(RootPath(g.tree)))
  {
    var path := RootPath(g.tree);
    assert Way(g, t, path, SplitNode(path));
    all := GetsThere(g, start, acts, t, path, SplitNode(path));
  }

  lemma RootYields(s: State, th: Thread, path: Path, slot: Slot, top: Id, extra: Id)
    requires WF(s) && |path| == 1 && Last(path).id == s.root && Splittable(s.heap[s.root])
    requires top !in s.heap && extra !in s.heap && top != extra
    ensures Yields(s, th, SplitNode(path), slot, top, extra, 0, SplitTop(s, top, extra))
  {
    ApplyOk(s, SplitRoot(top, extra));
  }

  lemma SplitTopSame(s: State, s1: State, top: Id, extra: Id)
    requires WF(s) && WF(s1) && SameTree(s, s1) && Splittable(s.heap[s.root])
    requires top !in s.heap && extra !in s.heap && top != extra
    ensures SameTree(SplitTop(s, top, extra), SplitTop(s1, top, extra))
  {
    ApplySame(s, s1, SplitRoot(top, extra));
  }

  lemma RootDeed(g: Global, t: Tid, top: Id, extra: Id) returns (u: State)
    requires WF(g.tree) && t in g.threads && top !in g.tree.heap && extra !in g.tree.heap && top != extra
    requires Splittable(g.tree.heap[g.tree.root])
    ensures Deed(g, t, SplitNode(RootPath(g.tree)), Slot(0, 0), top, extra, 0, u, g.threads[t].ret)
    ensures SameTree(SplitTop(g.tree, top, extra), u)
  {
    var plan, slot := SplitNode(RootPath(g.tree)), Slot(0, 0);
    var g1 := Poised(g, t, plan, slot);
    PoisedIs(g, t, plan, slot);
    SplitTopSame(g.tree, g1.tree, top, extra);
    RootYields(g1.tree, g1.threads[t], RootPath(g.tree), slot, top, extra);
    u := SplitTop(g1.tree, top, extra);
  }

  lemma SplitsFrom(g: Global, start: Global, acts: seq<Action>, t: Tid, top: Id, extra: Id)
    returns (all: seq<Action>, h: Global)
    requires WF(g.tree) && Takes(g, t, SplitNode(RootPath(g.tree))) && Free(g.tree) && !g.threads[t].strayed
    requires top !in g.tree.heap && extra !in g.tree.heap && top != extra && Splittable(g.tree.heap[g.tree.root])
    requires Reaches(start, acts, Placed(g, t, Locking(SplitNode(RootPath(g.tree)), 0)))
    ensures Reaches(start, all, h) && WF(h.tree)
    ensures Leaves(g, h, t, IdsOf(Locks(SplitNode(RootPath(g.tree)))), SplitTop(g.tree, top, extra), Begin,
      g.threads[t].ret)
  {
    var u := RootDeed(g, t, top, extra);
    all, h := CompletesTo(g, start, acts, t, SplitNode(RootPath(g.tree)), Slot(0, 0), top, extra, 0, false, u,
                          SplitTop(g.tree, top, extra), g.threads[t].ret);
  }

  /** It splits the root and begins again. */
  lemma SplitsRoot(g: Global, start: Global, acts: seq<Action>, t: Tid, top: Id, extra: Id)
    returns (all: seq<Action>, h: Global)
    requires AtRoot(g, t) && Reaches(start, acts, g) && top !in g.tree.heap && extra !in g.tree.heap && top != extra
    requires Splittable(g.tree.heap[g.tree.root])
    ensures Reaches(start, all, h) && WF(h.tree)
    ensures Leaves(g, h, t, IdsOf(Locks(SplitNode(RootPath(g.tree)))), SplitTop(g.tree, top, extra), Begin,
      g.threads[t].ret)
  {
    all := RootThere(g, start, acts, t);
    all, h := SplitsFrom(g, start, all, t, top, extra);
  }

  // ----- removes -----

  lemma EraseThere(g: Global, start: Global, acts: seq<Action>, t: Tid, path: Path) returns (all: seq<Action>)
    requires AtLeafOf(g, t, path) && Reaches(start, acts, g) && g.threads[t].op.Remove?
    ensures Reaches(start, all, Placed(g, t, Locking(EraseKey(path), 0))) && Takes(g, t, EraseKey(path))
  {
    PutTakes(g, t, path);
    assert Way(g, t, path, EraseKey(path));
    all := GetsThere(g, start, acts, t, path, EraseKey(path));
  }

  lemma EraseDeed(g: Global, t: Tid, path: Path) returns (u: State)
    requires AtLeafOf(g, t, path) && g.threads[t].op.Remove? && LeafPage(g.tree, Last(path).id)
    ensures Deed(g, t, EraseKey(path), Slot(0, 0), 0, 0, 0, u, g.threads[t].key in g.tree.m)
    ensures SameTree(EraseIf(g.tree, Last(path).id, g.threads[t].key), u)
  {
    var plan, slot := EraseKey(path), Slot(0, 0);
    var g1 := Poised(g, t, plan, slot);
    LeafFacts(g, t, path);
    PoisedIs(g, t, plan, slot);
    assert Locks(plan) == Locks(PutRoom(path));
    PutClears(g.tree, g1.tree, path, slot);
    EraseIfOk(g1.tree, Last(path).id, g.threads[t].key);
    u := EraseIf(g1.tree, Last(path).id, g.threads[t].key);
  }

  lemma CompletesErase(g: Global, start: Global, acts: seq<Action>, t: Tid, path: Path, u: State, v: State, ret: bool)
    returns (all: seq<Action>, h: Global)
    requires |path| > 1 && Takes(g, t, EraseKey(path)) && Free(g.tree) && !g.threads[t].strayed
    requires Reaches(start, acts, Placed(g, t, Locking(EraseKey(path), 0)))
    requires Deed(g, t, EraseKey(path), Slot(0, 0), 0, 0, 0, u, ret) && SameTree(v, u)
    ensures Reaches(start, all, h) && WF(h.tree)
    ensures Leaves(g, h, t, IdsOf(Locks(EraseKey(path))), v, Reread(path, false), ret)
  {
    all, h := CompletesTo(g, start, acts, t, EraseKey(path), Slot(0, 0), 0, 0, 0, true, u, v, ret);
  }

  /** A remove that goes on to repair its leaf. */
  lemma Erases(g: Global, start: Global, acts: seq<Action>, t: Tid, path: Path) returns (all: seq<Action>, h: Global)
    requires AtLeafOf(g, t, path) && Reaches(start, acts, g) && g.threads[t].op.Remove?
      && LeafPage(g.tree, Last(path).id)
    requires |path| > 1
    ensures Reaches(start, all, h) && WF(h.tree)
    ensures Leaves(g, h, t, IdsOf(Locks(EraseKey(path))), EraseIf(g.tree, Last(path).id, g.threads[t].key),
                   Reread(path, false), g.threads[t].key in g.tree.m)
  {
    all := EraseThere(g, start, acts, t, path);
    var u := EraseDeed(g, t, path);
    all, h := CompletesErase(g, start, all, t, path, u, EraseIf(g.tree, Last(path).id, g.threads[t].key),
                             g.threads[t].key in g.tree.m);
  }

  // ----- repairs -----

  function JoinPlan(g: Global, path: Path, i: nat, sib: Id, onLeft: bool): Plan
    requires |path| > 1 && Last(path).id in g.tree.ver && sib in g.tree.ver
  {
    JoinOf(Reread2(g, path), i, Held(sib, g.tree.ver[sib]), onLeft, MergePair)
  }

  /** The repair of `Last(path)` by a merge with its sibling. */
  ghost predicate Mends(g: Global, t: Tid, path: Path, i: nat, sib: Id, onLeft: bool) {
    && WF(g.tree) && Free(g.tree) && Repairs(g, t, path, i, sib, onLeft, MergePair) && !g.threads[t].strayed
    && PathOk(g.tree, {}, g.threads[t], path) && Par(path).id in g.tree.info
  }

  lemma MendThere(g: Global, start: Global, acts: seq<Action>, t: Tid, path: Path, i: nat, sib: Id, onLeft: bool)
    returns (all: seq<Action>)
    requires Mends(g, t, path, i, sib, onLeft) && Reaches(start, acts, g)
    ensures Reaches(start, all, Placed(g, t, Locking(JoinPlan(g, path, i, sib, onLeft), 0)))
    ensures Takes(g, t, JoinPlan(g, path, i, sib, onLeft))
  {
    var plan := JoinPlan(g, path, i, sib, onLeft);
    var walk := PlansJoin(g, t, path, i, sib, onLeft, MergePair);
    ReachesJoin(start, acts, g, walk, Placed(g, t, Locking(plan, 0)));
    RepairLocks(g, t, path, i, sib, onLeft, MergePair);
    all := acts + walk;
  }

  lemma MendPair(g: Global, t: Tid, path: Path, i: nat, sib: Id, onLeft: bool)
    requires Mends(g, t, path, i, sib, onLeft)
    ensures var plan, p := JoinPlan(g, path, i, sib, onLeft), Par(path).id;
            && CanMerge(g.tree, p, i) && g.tree.heap[p].kids[i] == plan.left.id
            && Par(plan.path).id == p && plan.i == i && plan.how == MergePair
  {
    var s, p := g.tree, Par(path).id;
    assert NodeOk(s, s.heap[p], s.info[p]);
    PairFacts(s, p, i);
  }

  lemma MergeSame(s: State, s1: State, p: Id, i: nat)
    requires SameTree(s, s1) && CanMerge(s, p, i)
    ensures CanMerge(s1, p, i) && SameTree(MergeShrink(s, p, i), MergeShrink(s1, p, i))
  {
  }

  lemma JoinYields(s: State, th: Thread, plan: Plan, slot: Slot)
    requires WF(s) && plan.JoinPair? && PlanShape(plan) && plan.how == MergePair
      && CanMerge(s, Par(plan.path).id, plan.i)
    requires slot.leaf !in s.heap && s.heap[s.heap[Par(plan.path).id].kids[plan.i]].Leaf?
    ensures Yields(s, th, plan, slot, 0, 0, 0, MergeShrink(s, Par(plan.path).id, plan.i))
  {
    ApplyOk(s, MergeKids(Par(plan.path).id, plan.i, 0));
  }

  /** A plan to merge two leaves. */
  ghost predicate JoinsLeafPair(s: State, plan: Plan, slot: Slot) {
    && plan.JoinPair? && PlanShape(plan) && plan.how == MergePair && CanMerge(s, Par(plan.path).id, plan.i)
    && s.heap[Par(plan.path).id].kids[plan.i] == plan.left.id && s.heap[plan.left.id].Leaf? && slot.leaf !in s.heap
  }

  lemma JoinDeed(g: Global, t: Tid, plan: Plan, slot: Slot) returns (u: State)
    requires WF(g.tree) && t in g.threads && JoinsLeafPair(g.tree, plan, slot)
    ensures Deed(g, t, plan, slot, 0, 0, 0, u, g.threads[t].ret)
    ensures SameTree(MergeShrink(g.tree, Par(plan.path).id, plan.i), u)
  {
    var g1 := Poised(g, t, plan, slot);
    PoisedIs(g, t, plan, slot);
    MergeSame(g.tree, g1.tree, Par(plan.path).id, plan.i);
    JoinYields(g1.tree, g1.threads[t], plan, slot);
    u := MergeShrink(g1.tree, Par(plan.path).id, plan.i);
  }

  lemma CompletesJoin(g: Global, start: Global, acts: seq<Action>, t: Tid, plan: Plan, slot: Slot, u: State, v: State,
          q: Path)
    returns (all: seq<Action>, h: Global)
    requires Takes(g, t, plan) && Free(g.tree) && !g.threads[t].strayed
    requires Reaches(start, acts, Placed(g, t, Locking(plan, 0)))
    requires Deed(g, t, plan, slot, 0, 0, 0, u, g.threads[t].ret) && SameTree(v, u)
    requires plan.JoinPair? && plan.how == MergePair && q == plan.path[..|plan.path| - 1]
    ensures Reaches(start, all, h) && WF(h.tree)
      && Leaves(g, h, t, IdsOf(Locks(plan)), v, Reread(q, true), g.threads[t].ret)
  {
    all, h := CompletesTo(g, start, acts, t, plan, slot, 0, 0, 0, true, u, v, g.threads[t].ret);
  }

  lemma JoinsFrom(g: Global, start: Global, acts: seq<Action>, t: Tid, plan: Plan, slot: Slot)
    returns (all: seq<Action>, h: Global)
    requires Takes(g, t, plan) && Free(g.tree) && !g.threads[t].strayed && JoinsLeafPair(g.tree, plan, slot)
    requires Reaches(start, acts, Placed(g, t, Locking(plan, 0)))
    ensures Reaches(start, all, h) && WF(h.tree)
    ensures Leaves(g, h, t, IdsOf(Locks(plan)), MergeShrink(g.tree, Par(plan.path).id, plan.i),
                   Reread(plan.path[..|plan.path| - 1], true), g.threads[t].ret)
  {
    var u := JoinDeed(g, t, plan, slot);
    all, h := CompletesJoin(g, start, acts, t, plan, slot, u, MergeShrink(g.tree, Par(plan.path).id, plan.i),
                            plan.path[..|plan.path| - 1]);
  }

  /** Two leaves are merged, and the repair goes on to their parent. */
  lemma JoinsLeaves(g: Global, start: Global, acts: seq<Action>, t: Tid, path: Path, i: nat, sib: Id, onLeft: bool,
          slot: Slot)
    returns (all: seq<Action>, h: Global)
    requires Mends(g, t, path, i, sib, onLeft) && slot.leaf !in g.tree.heap && Reaches(start, acts, g)
    requires CanMerge(g.tree, Par(path).id, i) && g.tree.heap[g.tree.heap[Par(path).id].kids[i]].Leaf?
    ensures Reaches(start, all, h) && WF(h.tree)
    ensures Leaves(g, h, t, IdsOf(Locks(JoinPlan(g, path, i, sib, onLeft))), MergeShrink(g.tree, Par(path).id, i),
                   Reread(path[..|path| - 1], true), g.threads[t].ret)
  {
    var plan := JoinPlan(g, path, i, sib, onLeft);
    MendPair(g, t, path, i, sib, onLeft);
    assert plan.path[..|path| - 1] == path[..|path| - 1];
    all := MendThere(g, start, acts, t, path, i, sib, onLeft);
    all, h := JoinsFrom(g, start, all, t, plan, slot);
  }
}
