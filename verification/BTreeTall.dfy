/** A four-level tree in which a merge above the leaves' parents and an insert spoil each other. */
module BTreeTall {
  import opened SeqOps
  import opened BTreeHeap
  import opened BTreeSections
  import opened BTreeSize
  import opened BTreeOlc
  import opened BTreeCoupling
  import opened BTreePull
  import opened BTreeStray

  function TallLevel(n: nat): nat {
    if n == 0 then 3 else if n <= 2 then 2 else if n <= 6 then 1 else 0
  }

  /** Where the range of node `n` starts and how wide it is. */
  function TallSpan(n: nat): (int, int) {
    if n == 0 then (0, 160)
      else if n <= 2 then (80 * (n - 1), 80) else if n <= 6 then (40 * (n - 3), 40) else (20 * (n - 7), 20)
  }

  function TallInfo(n: nat): Info {
    var (lo, w) := TallSpan(n);
    Info(if lo == 0 then NegInf else At(lo), if lo + w == 160 then PosInf else At(lo + w), TallLevel(n))
  }

  function TallNode(n: nat): Node {
    var (lo, w) := TallSpan(n);
    if n < 7 then Inner([lo + w / 2], [2 * n + 1, 2 * n + 2])
    else Leaf([lo + 10], [lo], if n == 14 then Null else To(n + 1))
  }

  function TallMap(): map<Key, Value> {
    map[10 := 0, 30 := 20, 50 := 40, 70 := 60, 90 := 80, 110 := 100, 130 := 120, 150 := 140]
  }

  /** A complete binary tree: node n has children 2n + 1 and 2n + 2, and leaves 7 to 14 hold 10, 30, ..., 150.  The
      nodes in `held` are locked, the others unlocked. */
  function TallTree(held: set<Id>): State {
    State(0, map n: nat | 0 <= n < 15 :: TallNode(n), map n: nat | 0 <= n < 15 :: if n in held then 5 else 4,
          map n: nat | 0 <= n < 15 :: TallInfo(n), TallMap())
  }

  /** The tree, node by node. */
  ghost predicate IsTall(s: State, held: set<Id>) {
    && s.root == 0 && s.m == TallMap()
    && (forall n {:trigger n in s.heap} :: n in s.heap <==> 0 <= n < 15)
    && (forall n {:trigger n in s.ver} :: n in s.ver <==> 0 <= n < 15)
    && (forall n {:trigger n in s.info} :: n in s.info <==> 0 <= n < 15)
    && (forall n {:trigger s.heap[n]} :: 0 <= n < 15 ==> n in s.heap && s.heap[n] == TallNode(n))
    && (forall n {:trigger s.info[n]} :: 0 <= n < 15 ==> n in s.info && s.info[n] == TallInfo(n))
    && (forall n {:trigger s.ver[n]} :: 0 <= n < 15 ==> n in s.ver && s.ver[n] == if n in held then 5 else 4)
  }

  lemma TallIs(held: set<Id>)
    ensures IsTall(TallTree(held), held)
  {
  }

  lemma TallInnerOk(s: State, n: nat)
    requires n < 7 && forall x: nat {:trigger s.info[x]} {:trigger x in s.info} ::
      x < 15 ==> x in s.info && s.info[x] == TallInfo(x)
    ensures NodeOk(s, TallNode(n), TallInfo(n))
  {
    var N, r := TallNode(n), TallInfo(n);
    assert TallInfo(2 * n + 1) == KidInfo(N.keys, r, 0) && TallInfo(2 * n + 2) == KidInfo(N.keys, r, 1);
    forall i | 0 <= i < |N.kids| ensures N.kids[i] in s.info && s.info[N.kids[i]] == KidInfo(N.keys, r, i) {
      assert N.kids[i] == 2 * n + 1 + i && N.kids[i] < 15;
    }
  }

  lemma TallLeafOk(s: State, n: nat)
    requires 7 <= n < 15 && s.m == TallMap() && forall x: nat {:trigger s.info[x]} {:trigger x in s.info} ::
      x < 15 ==> x in s.info && s.info[x] == TallInfo(x)
    ensures NodeOk(s, TallNode(n), TallInfo(n))
  {
    var k := TallSpan(n).0 + 10;
    assert s.m[k] == k - 10;
    assert TallNode(n).keys == [k];
    assert n < 14 ==> s.info[n + 1] == TallInfo(n + 1);
  }

  lemma TallApart(a: nat, b: nat)
    requires a < b < 15 && TallLevel(a) == TallLevel(b)
    ensures Apart(TallInfo(a), TallInfo(b)) && Apart(TallInfo(b), TallInfo(a))
  {
  }

  lemma TallNodeOk(s: State, held: set<Id>, n: Id)
    requires IsTall(s, held) && n in s.info
    ensures NodeOk(s, s.heap[n], s.info[n])
  {
    if n < 7 { TallInnerOk(s, n); } else { TallLeafOk(s, n); }
  }

  lemma TallPairOk(s: State, held: set<Id>, a: Id, b: Id)
    requires IsTall(s, held) && a in s.info && b in s.info && a != b && s.info[a].level == s.info[b].level
    ensures Apart(s.info[a], s.info[b])
  {
    if a < b { TallApart(a, b); } else { TallApart(b, a); }
  }

  lemma TallTop(s: State, held: set<Id>)
    requires IsTall(s, held)
    ensures s.info.Keys <= s.heap.Keys && s.heap.Keys == s.ver.Keys && s.root in s.info
    ensures s.info[s.root] == Info(NegInf, PosInf, 3) && forall n {:trigger s.info[n].level} ::
      n in s.info ==> s.info[n].level <= 3
  {
    assert s.info[0] == TallInfo(0);
  }

  lemma TallTreeOk(s: State, held: set<Id>)
    requires IsTall(s, held)
    ensures WF(s)
  {
    TallTop(s, held);
    assert forall n {:trigger NodeOk(s, s.heap[n], s.info[n])} :: n in s.info ==> NodeOk(s, s.heap[n], s.info[n]) by {
      forall n | n in s.info ensures NodeOk(s, s.heap[n], s.info[n]) {
        TallNodeOk(s, held, n);
      }
    }
    forall a, b | a in s.info && b in s.info && a != b && s.info[a].level == s.info[b].level
      ensures Apart(s.info[a], s.info[b])
    {
      TallPairOk(s, held, a, b);
    }
  }

  /** The words and pages of the tree, node by node. */
  lemma TallPage(s: State, held: set<Id>, n: nat)
    requires IsTall(s, held) && n < 15
    ensures n in s.heap && n in s.ver && n in s.info && s.heap[n] == TallNode(n) && s.info[n] == TallInfo(n)
    ensures s.ver[n] == if n in held then 5 else 4
  {
  }

  // ----- a merge overtakes an insert, and the insert spoils the merge's key -----

  /** Removes key 5; it has locked the root and its two children to merge them, and found the key 70 in leaf 10. */
  function Merger(): Thread {
    Thread(Remove, 5, Cleared(JoinPair([Held(0, 4), Held(1, 4)], 0, Held(1, 4), Held(2, 4), MergePair), Slot(10, 0)),
      {0, 1, 2}, false, 0, false)
  }

  /** Inserts 75; it has descended to leaf 10, locked it, and found the leaf's parent 4 unchanged. */
  function Inserter(): Thread {
    Thread(Insert(0), 75, Cleared(PutRoom([Held(0, 4), Held(1, 4), Held(4, 4), Held(10, 4)]), Slot(0, 0)), {10}, false,
      0, false)
  }

  ghost predicate IsRace(g: Global) {
    && IsTall(g.tree, {0, 1, 2, 10}) && g.sizes == Caps(3, 9)
    && g.threads.Keys == {0, 1} && g.threads[0] == Merger() && g.threads[1] == Inserter()
  }

  lemma MergerPlan(s: State, th: Thread)
    requires IsTall(s, {0, 1, 2, 10}) && th == Merger()
    ensures PlanOk(s, Caps(3, 9), th, th.pc.plan) && HasLocks(s, th.own, Locks(th.pc.plan))
  {
    TallPage(s, {0, 1, 2, 10}, 0);
    TallPage(s, {0, 1, 2, 10}, 1);
    TallPage(s, {0, 1, 2, 10}, 2);
    assert KidFor(s, 0, 5) == Some(1);
    var path := th.pc.plan.path;
    assert Link(s, th.own, th, path[0], path[1].id);
    assert Locks(th.pc.plan) == [Held(0, 4), Held(1, 4), Held(2, 4)];
    assert IdsOf(Locks(th.pc.plan)) == {0, 1, 2};
  }

  lemma MergerOk(s: State, th: Thread)
    requires IsTall(s, {0, 1, 2, 10}) && th == Merger()
    ensures ThreadOk(s, Caps(3, 9), th, [TallMap()])
  {
    MergerPlan(s, th);
    TallPage(s, {0, 1, 2, 10}, 1);
    TallPage(s, {0, 1, 2, 10}, 4);
    assert MapGet([TallMap()][0], 5) == None;
  }

  lemma InserterPlan(s: State, th: Thread)
    requires IsTall(s, {0, 1, 2, 10}) && th == Inserter()
    ensures PlanOk(s, Caps(3, 9), th, th.pc.plan) && HasLocks(s, th.own, Locks(th.pc.plan)) && Covers(s, th, 10)
  {
    TallPage(s, {0, 1, 2, 10}, 0);
    TallPage(s, {0, 1, 2, 10}, 1);
    TallPage(s, {0, 1, 2, 10}, 4);
    TallPage(s, {0, 1, 2, 10}, 10);
    assert KidFor(s, 4, 75) == Some(10);
    var path := th.pc.plan.path;
    assert Link(s, th.own, th, path[0], path[1].id) && Link(s, th.own, th, path[1], path[2].id)
      && Link(s, th.own, th, path[2], path[3].id);
    assert Locks(th.pc.plan) == [Held(10, 4)];
    assert IdsOf(Locks(th.pc.plan)) == {10};
  }

  lemma InserterOk(s: State, th: Thread)
    requires IsTall(s, {0, 1, 2, 10}) && th == Inserter()
    ensures ThreadOk(s, Caps(3, 9), th, [TallMap()])
  {
    InserterPlan(s, th);
  }

  /** Two threads that hold exactly the locked nodes between them. */
  lemma TwoOwners(g: Global, held: set<Id>)
    requires g.threads.Keys == {0, 1} && g.threads[0].own !! g.threads[1].own
      && g.threads[0].own + g.threads[1].own == held && held <= g.tree.ver.Keys
    requires forall n {:trigger g.tree.ver[n]} :: n in g.tree.ver ==> (Unlocked(g.tree.ver[n]) <==> n !in held)
    ensures LocksOk(g)
  {
    forall n | n in g.tree.ver && !Unlocked(g.tree.ver[n]) ensures exists t :: t in g.threads && n in g.threads[t].own {
      assert 0 in g.threads && 1 in g.threads;
      assert n in g.threads[0].own || n in g.threads[1].own;
    }
  }

  ghost predicate NoPulls(s: State, th: Thread) {
    forall l {:trigger Pulls(s, th, l)} :: !Pulls(s, th, l)
  }

  lemma NobodyPulls(g: Global)
    requires g.threads.Keys == {0, 1} && NoPulls(g.tree, g.threads[0]) && NoPulls(g.tree, g.threads[1])
    ensures PullsOk(g)
  {
  }

  lemma BothOk(g: Global, hist: seq<map<Key, Value>>)
    requires g.threads.Keys == {0, 1} && ThreadOk(g.tree, g.sizes, g.threads[0], hist)
      && ThreadOk(g.tree, g.sizes, g.threads[1], hist)
    ensures ThreadsOk(g, hist)
  {
    forall t | t in g.threads ensures ThreadOk(g.tree, g.sizes, g.threads[t], hist) {
      if t != 0 { assert t == 1; }
    }
  }

  lemma TwoThreads(g: Global, m: map<Key, Value>)
    requires WF(g.tree) && g.tree.m == m && g.sizes == Caps(3, 9) && g.threads.Keys == {0, 1} && LocksOk(g)
      && MaxOk(g.tree, g.sizes)
    requires ThreadOk(g.tree, Caps(3, 9), g.threads[0], [m]) && ThreadOk(g.tree, Caps(3, 9), g.threads[1], [m])
    requires NoPulls(g.tree, g.threads[0]) && NoPulls(g.tree, g.threads[1])
    ensures Inv(g, [m])
  {
    BothOk(g, [m]);
    NobodyPulls(g);
  }

  lemma TallWords(s: State, held: set<Id>)
    requires IsTall(s, held)
    ensures forall n {:trigger s.ver[n]} :: n in s.ver ==> (Unlocked(s.ver[n]) <==> n !in held)
    ensures forall n :: n in s.ver <==> 0 <= n < 15
  {
  }

  lemma RaceParts(s: State, a: Thread, b: Thread)
    requires IsTall(s, {0, 1, 2, 10}) && a == Merger() && b == Inserter()
    ensures WF(s) && ThreadOk(s, Caps(3, 9), a, [TallMap()]) && ThreadOk(s, Caps(3, 9), b, [TallMap()])
    ensures NoPulls(s, a) && NoPulls(s, b)
  {
    TallTreeOk(s, {0, 1, 2, 10});
    MergerOk(s, a);
    InserterOk(s, b);
    TallPage(s, {0, 1, 2, 10}, 1);
    TallPage(s, {0, 1, 2, 10}, 4);
  }

  lemma RaceLocks(g: Global)
    requires IsTall(g.tree, {0, 1, 2, 10}) && g.threads.Keys == {0, 1} && g.threads[0].own == {0, 1, 2}
      && g.threads[1].own == {10}
    ensures LocksOk(g)
  {
    TallWords(g.tree, {0, 1, 2, 10});
    TwoOwners(g, {0, 1, 2, 10});
  }

  lemma TallFits(s: State, held: set<Id>)
    requires IsTall(s, held)
    ensures MaxOk(s, Caps(3, 9))
  {
    forall n | n in s.info && n in s.heap ensures Fits(Caps(3, 9), s.heap[n]) {
      TallPage(s, held, n);
    }
  }

  lemma RaceOk(g: Global)
    requires IsRace(g)
    ensures Inv(g, [TallMap()])
  {
    RaceLocks(g);
    RaceParts(g.tree, g.threads[0], g.threads[1]);
    TallFits(g.tree, {0, 1, 2, 10});
    TwoThreads(g, TallMap());
  }

  lemma TallSpine(s: State, held: set<Id>)
    requires IsTall(s, held) && WF(s)
    ensures Spine(s, 1, 0) == 10 && s.heap[10] == Leaf([70], [60], To(11))
  {
    TallPage(s, held, 1);
    TallPage(s, held, 10);
    OnSpine(s, 1, 10);
  }

  lemma RaceSound(s: State)
    requires IsTall(s, {0, 1, 2, 10}) && WF(s)
    ensures var w := MergeKids(0, 0, 70);
      Enabled(s, w) && JoinsInners(s, w) && Sound(s, w) && s.heap[0] == Inner([80], [1, 2]) && s.info[0].level == 3
  {
    TallPage(s, {0, 1, 2, 10}, 0);
    TallPage(s, {0, 1, 2, 10}, 1);
    TallPage(s, {0, 1, 2, 10}, 2);
    TallSpine(s, {0, 1, 2, 10});
    MaxIsPullable(s, 0, 0, 70);
  }

  lemma RaceBody(s: State, th: Thread)
    requires IsTall(s, {0, 1, 2, 10}) && WF(s) && th == Merger()
    ensures CanBody(s, th, th.pc.plan, th.pc.slot, 15, 16, 70)
      && WriteOf(s, th.key, th.pc.plan, 15, 16, 70) == MergeKids(0, 0, 70)
    ensures BodyShift(s, th, th.pc.plan, th.pc.slot, 15, 16, 70) == Shift(3, 80, 70) && Sound(s, MergeKids(0, 0, 70))
  {
    RaceSound(s);
    TallSpine(s, {0, 1, 2, 10});
  }

  lemma RaceMerge(g: Global)
    requires IsRace(g) && Inv(g, [TallMap()])
    ensures var a := Body(0, 15, 16, 70, false); MergeBy(g, a, [TallMap()], 1) && ShiftOf(g, a) == Shift(3, 80, 70)
  {
    RaceBody(g.tree, g.threads[0]);
    IsMerge(g, Body(0, 15, 16, 70, false), [TallMap()], 1);
  }

  /** The merge of nodes 1 and 2 pulls down 70 instead of 80; the insert of 75 then reports success, and 75 is not
      found. */
  lemma RaceLosesInsert(g: Global)
    requires IsRace(g)
    ensures var a, b := Body(0, 15, 16, 70, false), Body(1, 0, 0, 0, false);
            && Inv(g, [TallMap()]) && Can(g, a) && !Fault(g, a)
            && var g1 := After(g, a, 1);
               && WF(g1.tree) && Can(g1, b)
               && var g2 := After(g1, b, 2);
                  && 1 in g2.threads && g2.threads[1].ret && 75 in g2.tree.m
                  && g1.tree.root in g1.tree.info
                  && Find(g2.tree.heap, g2.tree.root, 75, g1.tree.info[g1.tree.root].level).None?
  {
    RaceOk(g);
    RaceMerge(g);
    OvertakenInsertIsLost(g, Body(0, 15, 16, 70, false), [TallMap()], 1);
  }

  lemma RaceIsLate(g: Global)
    requires IsRace(g) && WF(g.tree)
    ensures TooLate(g, 0, 1)
  {
    TallSpine(g.tree, {0, 1, 2, 10});
    TallPage(g.tree, {0, 1, 2, 10}, 1);
  }

  /** In the other order the slot holds 70 again, but 75 is now the largest key below node 1, and the merge loses it. */
  lemma RaceLosesKey(g: Global) returns (mx: Key, big: Key)
    requires IsRace(g)
    ensures var b, a := Body(1, 0, 0, 0, false), Body(0, 15, 16, mx, false);
            && Inv(g, [TallMap()]) && Can(g, b) && !Fault(g, b)
            && var g1 := After(g, b, 1);
               && WF(g1.tree) && Can(g1, a) && Cuts(g1, a)
               && Loses(g1.tree, WriteOf(g1.tree, g1.threads[0].key, g1.threads[0].pc.plan, 15, 16, mx), big)
  {
    RaceOk(g);
    RaceIsLate(g);
    assert 15 !in g.tree.heap && 16 !in g.tree.heap;
    mx, big := LateReadCuts(g, [TallMap()], 0, 1, 15, 16);
  }

  /** The state exists. */
  lemma RaceExists() returns (race: Global)
    ensures IsRace(race)
  {
    TallIs({0, 1, 2, 10});
    race := Global(TallTree({0, 1, 2, 10}), map[0 := Merger(), 1 := Inserter()], Caps(3, 9));
  }
}
