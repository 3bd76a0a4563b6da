/** What a repair meets when others have been at the node between the decision to repair it and the reading of its lock
    word.  The repair of a parent after a merge ignores that the word is locked: it goes on to "lock" the node, and both
    hold it.  And no repair looks again at how full the node is: it borrows an entry into a page that has filled up. */
module BTreeShared {
  import opened BTreeHeap
  import opened BTreeSections
  import opened BTreeSize
  import opened BTreeOlc
  import opened BTreeCoupling
  import opened BTreeSteps
  import opened BTreeRoom

  ghost predicate Does(g: Global, a: Action, h: Global) {
    WF(g.tree) && Can(g, a) && h == After(g, a, 0)
  }

  ghost predicate Chain(gs: seq<Global>, acts: seq<Action>) {
    |gs| == |acts| + 1 && forall j {:trigger Does(gs[j], acts[j], gs[j + 1])} ::
      0 <= j < |acts| ==> Does(gs[j], acts[j], gs[j + 1])
  }

  /** Performing `acts` one after the other leads from g to h. */
  ghost predicate Reaches(g: Global, acts: seq<Action>, h: Global) {
    exists gs {:trigger Chain(gs, acts)} :: Chain(gs, acts) && gs[0] == g && gs[|acts|] == h
  }

  lemma ReachesNone(g: Global)
    ensures Reaches(g, [], g)
  {
    assert Chain([g], []);
  }

  lemma ReachesJoin(g: Global, xs: seq<Action>, h: Global, ys: seq<Action>, k: Global)
    requires Reaches(g, xs, h) && Reaches(h, ys, k)
    ensures Reaches(g, xs + ys, k)
  {
    var gs :| Chain(gs, xs) && gs[0] == g && gs[|xs|] == h;
    var hs :| Chain(hs, ys) && hs[0] == h && hs[|ys|] == k;
    var all := gs[..|xs|] + hs;
    forall j | 0 <= j < |xs + ys| ensures Does(all[j], (xs + ys)[j], all[j + 1]) {
      if j < |xs| {
        assert Does(gs[j], xs[j], gs[j + 1]);
      } else {
        var i := j - |xs|;
        assert Does(hs[i], ys[i], hs[i + 1]);
      }
    }
    assert Chain(all, xs + ys);
  }

  /** One more action after `xs`. */
  lemma ReachesNext(g: Global, xs: seq<Action>, h: Global, a: Action, k: Global)
    requires Reaches(g, xs, h) && Does(h, a, k)
    ensures Reaches(g, xs + [a], k)
  {
    var hs := [h, k];
    assert Does(hs[0], [a][0], hs[1]);
    assert Chain(hs, [a]);
    ReachesJoin(g, xs, h, [a], k);
  }

  function With(g: Global, t: Tid, th: Thread): Global {
    g.(threads := g.threads[t := th])
  }

  function Placed(g: Global, t: Tid, pc: Pc): Global
    requires t in g.threads
  {
    With(g, t, g.threads[t].(pc := pc))
  }

  lemma StepIs(g: Global, t: Tid, pc: Pc)
    requires WF(g.tree) && t in g.threads && Local(g, g.threads[t], pc) && (pc == Begin ==> !g.threads[t].strayed)
    ensures Does(g, Step(t, pc), Placed(g, t, pc))
  {
    OthersStay(g, Step(t, pc), 0);
    assert After(g, Step(t, pc), 0).threads == Placed(g, t, pc).threads;
  }

  /** The thread is about to repair node `Last(path)` below `Par(path)`, and will find its sibling `sib` fit for it. */
  ghost predicate Repairs(g: Global, t: Tid, path: Path, i: nat, sib: Id, onLeft: bool, how: How) {
    && t in g.threads && g.threads[t].pc.Reread? && g.threads[t].pc.path == path && |path| > 1
    && g.threads[t].own == {} && Last(path).id in g.tree.ver && Last(path).id in g.tree.heap
    && (g.threads[t].pc.careless || Unlocked(g.tree.ver[Last(path).id]))
    && sib in g.tree.ver && sib in g.tree.heap && Unlocked(g.tree.ver[sib]) && Same(g.tree, Par(path))
    && (if onLeft then IsPair(g.tree, Par(path).id, i, sib, Last(path).id)
        else IsPair(g.tree, Par(path).id, i, Last(path).id, sib))
    && match how
       case MergePair => HasSpace(g.sizes, g.tree.heap[sib], |g.tree.heap[Last(path).id].keys|)
       case BorrowTo(left) => left == !onLeft && Surplus(g.sizes, g.tree.heap[sib]) > 0
  }

  function Reread2(g: Global, path: Path): Path
    requires |path| > 0 && Last(path).id in g.tree.ver
  {
    path[|path| - 1 := Held(Last(path).id, g.tree.ver[Last(path).id])]
  }

  /** What the repair reads: the word of the node again, its sibling, and the sibling's word. */
  ghost predicate Reads(g: Global, q: Path, i: nat, h: Held, onLeft: bool) {
    && |q| > 1 && Same(g.tree, Last(q)) && Same(g.tree, h) && h.id in g.tree.heap && Unlocked(h.ver)
    && Same(g.tree, Par(q))
    && if onLeft then IsPair(g.tree, Par(q).id, i, h.id, Last(q).id) else IsPair(g.tree, Par(q).id, i, Last(q).id, h.id)
  }

  /** One move that changes nothing but the thread's place. */
  lemma MoveOn(g: Global, start: Global, acts: seq<Action>, t: Tid, pc: Pc, pc2: Pc)
    requires WF(g.tree) && t in g.threads && Reaches(start, acts, Placed(g, t, pc))
      && Local(Placed(g, t, pc), g.threads[t].(pc := pc), pc2) && (pc2 == Begin ==> !g.threads[t].strayed)
    ensures Reaches(start, acts + [Step(t, pc2)], Placed(g, t, pc2))
  {
    StepIs(Placed(g, t, pc), t, pc2);
    assert Placed(Placed(g, t, pc), t, pc2) == Placed(g, t, pc2);
    ReachesNext(start, acts, Placed(g, t, pc), Step(t, pc2), Placed(g, t, pc2));
  }

  predicate OnlyBy(t: Tid, acts: seq<Action>) {
    forall a :: a in acts ==> a.t == t
  }

  /** It reads the word again and checks it. */
  lemma Rechecks(g: Global, t: Tid, path: Path, i: nat, sib: Id, onLeft: bool, how: How) returns (acts: seq<Action>)
    requires WF(g.tree) && Repairs(g, t, path, i, sib, onLeft, how)
    ensures Reaches(g, acts, Placed(g, t, Choosing(Reread2(g, path)))) && OnlyBy(t, acts)
  {
    var q := Reread2(g, path);
    ReachesNone(g);
    StepIs(g, t, Mending(q));
    ReachesNext(g, [], g, Step(t, Mending(q)), Placed(g, t, Mending(q)));
    acts := [] + [Step(t, Mending(q))];
    MoveOn(g, g, acts, t, Mending(q), Choosing(q));
    acts := acts + [Step(t, Choosing(q))];
  }

  /** It picks the sibling and reads that one's word. */
  lemma PicksSibling(g: Global, t: Tid, q: Path, i: nat, h: Held, onLeft: bool, start: Global, acts: seq<Action>)
    requires WF(g.tree) && t in g.threads && Reads(g, q, i, h, onLeft)
      && Reaches(start, acts, Placed(g, t, Choosing(q)))
    ensures Reaches(start, acts + [Step(t, Sibling(q, i, h.id, onLeft))] + [Step(t, Sized(q, i, h, onLeft))],
      Placed(g, t, Sized(q, i, h, onLeft)))
  {
    MoveOn(g, start, acts, t, Choosing(q), Sibling(q, i, h.id, onLeft));
    MoveOn(g, start, acts + [Step(t, Sibling(q, i, h.id, onLeft))], t, Sibling(q, i, h.id, onLeft),
      Sized(q, i, h, onLeft));
  }

  /** It decides to merge or to borrow. */
  lemma PlansJoin(g: Global, t: Tid, path: Path, i: nat, sib: Id, onLeft: bool, how: How) returns (acts: seq<Action>)
    requires WF(g.tree) && Repairs(g, t, path, i, sib, onLeft, how)
    ensures Reaches(g, acts,
      Placed(g, t, Locking(JoinOf(Reread2(g, path), i, Held(sib, g.tree.ver[sib]), onLeft, how), 0)))
      && OnlyBy(t, acts)
  {
    var q, h := Reread2(g, path), Held(sib, g.tree.ver[sib]);
    assert Par(q) == Par(path) && Last(q).id == Last(path).id;
    acts := Rechecks(g, t, path, i, sib, onLeft, how);
    PicksSibling(g, t, q, i, h, onLeft, g, acts);
    acts := acts + [Step(t, Sibling(q, i, h.id, onLeft))] + [Step(t, Sized(q, i, h, onLeft))];
    MoveOn(g, g, acts, t, Sized(q, i, h, onLeft), Locking(JoinOf(q, i, h, onLeft, how), 0));
    acts := acts + [Step(t, Locking(JoinOf(q, i, h, onLeft, how), 0))];
  }

  /** From g to h thread t has taken the first `n` locks of its plan and nothing else has happened. */
  ghost predicate Took(g: Global, h: Global, t: Tid, plan: Plan, n: nat)
    requires PlanShape(plan)
  {
    && WF(h.tree) && t in h.threads && h.threads.Keys == g.threads.Keys && n <= |Locks(plan)|
    && h.threads[t].pc == Locking(plan, n) && (forall j :: 0 <= j < n ==> Locks(plan)[j].id in h.threads[t].own)
    && (forall u :: u in g.threads && u != t ==> h.threads[u] == g.threads[u])
    && h.tree.heap == g.tree.heap && h.tree.info == g.tree.info && h.sizes == g.sizes
    && (forall j :: n <= j < |Locks(plan)| ==> Same(h.tree, Locks(plan)[j]))
  }

  predicate Distinct(hs: seq<Held>) {
    forall j, k :: 0 <= j < k < |hs| ==> hs[j].id != hs[k].id
  }

  lemma TakesOne(g: Global, acts: seq<Action>, h: Global, t: Tid, plan: Plan, n: nat) returns (k: Global)
    requires PlanShape(plan) && Took(g, h, t, plan, n) && n < |Locks(plan)| && Distinct(Locks(plan))
      && Reaches(g, acts, h)
    ensures Reaches(g, acts + [Lock(t)], k) && Took(g, k, t, plan, n + 1)
  {
    assert Target(h.threads[t]) == Locks(plan)[n];
    LockIs(h, t, 0);
    WordsOk(h.tree, TreeAfter(h, Lock(t)).ver);
    k := After(h, Lock(t), 0);
    ReachesNext(g, acts, h, Lock(t), k);
  }

  function LockThrice(t: Tid): (acts: seq<Action>)
    ensures OnlyBy(t, acts)
  {
    [Lock(t)] + [Lock(t)] + [Lock(t)]
  }

  lemma TakesLocks(g: Global, t: Tid, plan: Plan) returns (h: Global)
    requires PlanShape(plan) && Took(g, g, t, plan, 0) && Distinct(Locks(plan)) && |Locks(plan)| == 3
    ensures Reaches(g, LockThrice(t), h) && Took(g, h, t, plan, 3)
  {
    ReachesNone(g);
    h := TakesOne(g, [], g, t, plan, 0);
    assert [] + [Lock(t)] == [Lock(t)];
    h := TakesOne(g, [Lock(t)], h, t, plan, 1);
    h := TakesOne(g, [Lock(t)] + [Lock(t)], h, t, plan, 2);
  }

  lemma RepairSetup(s: State, th: Thread, path: Path, i: nat, a: Id, b: Id)
    requires WF(s) && PathOk(s, {}, th, path) && |path| > 1 && Same(s, Par(path)) && IsPair(s, Par(path).id, i, a, b)
    ensures a != b && a != Par(path).id && b != Par(path).id
  {
    ParIsLink(s, {}, th, path);
    assert NodeOk(s, s.heap[Par(path).id], s.info[Par(path).id]);
    PairIds(s, Par(path).id, i);
  }

  lemma RepairLocks(g: Global, t: Tid, path: Path, i: nat, sib: Id, onLeft: bool, how: How)
    requires WF(g.tree) && Repairs(g, t, path, i, sib, onLeft, how) && PathOk(g.tree, {}, g.threads[t], path)
    ensures var plan := JoinOf(Reread2(g, path), i, Held(sib, g.tree.ver[sib]), onLeft, how);
            && Distinct(Locks(plan)) && |Locks(plan)| == 3 && Locks(plan)[if onLeft then 2 else 1].id == Last(path).id
            && forall j :: 0 <= j < |Locks(plan)| ==> Same(g.tree, Locks(plan)[j])
  {
    var q := Reread2(g, path);
    assert Par(q) == Par(path) && Last(q).id == Last(path).id;
    if onLeft {
      RepairSetup(g.tree, g.threads[t], path, i, sib, Last(path).id);
    } else {
      RepairSetup(g.tree, g.threads[t], path, i, Last(path).id, sib);
    }
  }

  lemma RepairTakes(g: Global, t: Tid, path: Path, i: nat, sib: Id, onLeft: bool, how: How, plan: Plan)
    returns (acts: seq<Action>, h: Global)
    requires WF(g.tree) && Repairs(g, t, path, i, sib, onLeft, how) && PathOk(g.tree, {}, g.threads[t], path)
    requires plan == JoinOf(Reread2(g, path), i, Held(sib, g.tree.ver[sib]), onLeft, how)
    ensures var g1 := Placed(g, t, Locking(plan, 0));
            Reaches(g1, acts, h) && OnlyBy(t, acts) && Took(g1, h, t, plan, 3) && Last(path).id in h.threads[t].own
  {
    var g1 := Placed(g, t, Locking(plan, 0));
    RepairLocks(g, t, path, i, sib, onLeft, how);
    assert Took(g1, g1, t, plan, 0);
    acts := LockThrice(t);
    h := TakesLocks(g1, t, plan);
  }

  lemma RepairGoesOn(g: Global, t: Tid, path: Path, i: nat, sib: Id, onLeft: bool, how: How,
          plan: Plan)
      returns (acts: seq<Action>, h: Global)
    requires WF(g.tree) && Repairs(g, t, path, i, sib, onLeft, how) && PathOk(g.tree, {}, g.threads[t], path)
    requires plan == JoinOf(Reread2(g, path), i, Held(sib, g.tree.ver[sib]), onLeft, how)
    ensures Reaches(g, acts, h) && OnlyBy(t, acts) && Took(Placed(g, t, Locking(plan, 0)), h, t, plan, 3)
      && Last(path).id in h.threads[t].own
  {
    var walk := PlansJoin(g, t, path, i, sib, onLeft, how);
    var locks;
    locks, h := RepairTakes(g, t, path, i, sib, onLeft, how, plan);
    ReachesJoin(g, walk, Placed(g, t, Locking(plan, 0)), locks, h);
    acts := walk + locks;
  }

  /** Whenever the repair of a parent begins while another thread holds the parent, with the grandparent unchanged and a
      sibling free and with room, the repairing thread alone can go on until both hold the parent. */
  lemma RepairSharesLock(g: Global, t: Tid, u: Tid, path: Path, i: nat, sib: Id, onLeft: bool, how: How)
      returns (acts: seq<Action>, h: Global)
    requires WF(g.tree) && Repairs(g, t, path, i, sib, onLeft, how) && PathOk(g.tree, {}, g.threads[t], path)
    requires u in g.threads && u != t && Last(path).id in g.threads[u].own
    ensures Reaches(g, acts, h) && OnlyBy(t, acts) && t in h.threads && u in h.threads
    ensures Last(path).id in h.threads[t].own && Last(path).id in h.threads[u].own
  {
    var plan := JoinOf(Reread2(g, path), i, Held(sib, g.tree.ver[sib]), onLeft, how);
    acts, h := RepairGoesOn(g, t, path, i, sib, onLeft, how, plan);
  }

  // ----- an entry too many -----

  /** The borrow of a thread that has taken its locks. */
  lemma BorrowStep(g: Global, t: Tid, plan: Plan, p: Id, i: nat, left: bool, slot: Slot)
    requires WF(g.tree) && t in g.threads && g.threads[t].pc == Cleared(plan, slot) && MaxOk(g.tree, g.sizes)
    requires plan.JoinPair? && plan.how == BorrowTo(left) && PlanShape(plan) && Par(plan.path).id == p && plan.i == i
    requires CanBorrow(g.tree, p, i, left) && g.tree.heap[p].kids[if left then i else i + 1] == Taker(plan).id
    requires Full(g.sizes, g.tree.heap[Taker(plan).id])
    ensures var b := Body(t, 0, 0, 0, false); Can(g, b) && Overfills(g, b) && !MaxOk(TreeAfter(g, b), g.sizes)
  {
    var s := g.tree;
    BorrowFits(s, g.sizes, p, i, left);
    var u := Borrow(s, p, i, left);
    assert Written(s, u).heap == u.heap && Written(s, u).info == u.info;
    assert MaxOk(Written(s, u), g.sizes) <==> MaxOk(u, g.sizes);
  }

  lemma RepairPair(g: Global, t: Tid, path: Path, i: nat, sib: Id, onLeft: bool)
    requires WF(g.tree) && Repairs(g, t, path, i, sib, onLeft, BorrowTo(!onLeft)) && g.sizes.leaf >= 3
      && g.sizes.inner >= 3
      && PathOk(g.tree, {}, g.threads[t], path)
    ensures CanBorrow(g.tree, Par(path).id, i, !onLeft)
    ensures g.tree.heap[Par(path).id].kids[if onLeft then i + 1 else i] == Last(path).id
  {
    var s, p := g.tree, Par(path).id;
    ParIsLink(s, {}, g.threads[t], path);
    assert NodeOk(s, s.heap[p], s.info[p]);
    PairFacts(s, p, i);
  }

  lemma ClearsBorrow(g: Global, acts: seq<Action>, h: Global, t: Tid, plan: Plan) returns (k: Global)
    requires Reaches(g, acts, h) && WF(h.tree) && t in h.threads && plan.JoinPair? && PlanShape(plan)
    requires plan.how.BorrowTo? && h.threads[t].pc == Locking(plan, 3)
    ensures Reaches(g, acts + [Step(t, Cleared(plan, Slot(0, 0)))], k) && k == Placed(h, t, Cleared(plan, Slot(0, 0)))
  {
    k := Placed(h, t, Cleared(plan, Slot(0, 0)));
    StepIs(h, t, Cleared(plan, Slot(0, 0)));
    ReachesNext(g, acts, h, Step(t, Cleared(plan, Slot(0, 0))), k);
  }

  lemma SamePages(s: State, t: State, c: Caps, p: Id, i: nat, left: bool)
    requires t.heap == s.heap && t.info == s.info && MaxOk(s, c) && CanBorrow(s, p, i, left)
    ensures MaxOk(t, c) && CanBorrow(t, p, i, left)
  {
    forall n | n in t.info && n in t.heap ensures Fits(c, t.heap[n]) {
      assert n in s.info;
    }
  }

  lemma RepairClears(g: Global, t: Tid, path: Path, i: nat, sib: Id, onLeft: bool, plan: Plan)
    returns (acts: seq<Action>, h: Global)
    requires WF(g.tree) && Repairs(g, t, path, i, sib, onLeft, BorrowTo(!onLeft))
      && PathOk(g.tree, {}, g.threads[t], path)
    requires plan == JoinOf(Reread2(g, path), i, Held(sib, g.tree.ver[sib]), onLeft, BorrowTo(!onLeft))
    ensures Reaches(g, acts, h) && OnlyBy(t, acts) && WF(h.tree) && t in h.threads
    ensures h.threads[t].pc == Cleared(plan, Slot(0, 0))
    ensures h.tree.heap == g.tree.heap && h.tree.info == g.tree.info && h.sizes == g.sizes
  {
    var walk, h1 := RepairGoesOn(g, t, path, i, sib, onLeft, BorrowTo(!onLeft), plan);
    h := ClearsBorrow(g, walk, h1, t, plan);
    acts := walk + [Step(t, Cleared(plan, Slot(0, 0)))];
  }

  /** Whenever the repair of a node begins after the node has filled up, with the parent unchanged and a sibling that
      can spare an entry, the repairing thread alone can go on until it puts an entry into the full page. */
  lemma RepairOverfills(g: Global, t: Tid, path: Path, i: nat, sib: Id, onLeft: bool)
    returns (acts: seq<Action>, h: Global)
    requires WF(g.tree) && MaxOk(g.tree, g.sizes) && g.sizes.leaf >= 3 && g.sizes.inner >= 3
    requires Repairs(g, t, path, i, sib, onLeft, BorrowTo(!onLeft)) && PathOk(g.tree, {}, g.threads[t], path)
      && Full(g.sizes, g.tree.heap[Last(path).id])
    ensures Reaches(g, acts, h) && OnlyBy(t, acts) && WF(h.tree) && MaxOk(h.tree, g.sizes) && h.sizes == g.sizes
    ensures var b := Body(t, 0, 0, 0, false); Can(h, b) && Overfills(h, b) && !MaxOk(TreeAfter(h, b), g.sizes)
  {
    var plan := JoinOf(Reread2(g, path), i, Held(sib, g.tree.ver[sib]), onLeft, BorrowTo(!onLeft));
    acts, h := RepairClears(g, t, path, i, sib, onLeft, plan);
    RepairPair(g, t, path, i, sib, onLeft);
    SamePages(g.tree, h.tree, g.sizes, Par(path).id, i, !onLeft);
    BorrowStep(h, t, plan, Par(path).id, i, !onLeft, Slot(0, 0));
  }
}
