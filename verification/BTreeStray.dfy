/** What goes wrong in the tree under lock coupling, and exactly when.  A merge of inner nodes pulls down a key of the
    left subtree instead of the separator above it.  That moves the ranges of nodes it holds no lock on, so a thread
    that stands below can find itself on the wrong side.  And the repair of a parent reads the parent's lock word again
    without heeding that it is locked, so that two threads can hold one node. */
module BTreeStray {
  import opened SeqOps
  import opened BTreeHeap
  import opened BTreeSections
  import opened BTreeSize
  import opened BTreeOlc
  import opened BTreeCoupling
  import opened BTreeBodies
  import opened BTreeRuns
  import opened BTreePull

  // ----- a merge overtakes a thread -----

  /** A sound merge takes a key out of the range of an untouched node below it if and only if the key lies above the one
      pulled down and not above the separator. */
  lemma ShiftExactly(s: State, w: Write, n: Id, k: Key)
    requires WF(s) && Enabled(s, w) && JoinsInners(s, w) && Sound(s, w)
    requires n in s.info && n !in Span(s, w) && s.info[n].level < s.info[w.p].level && InRange(s.info[n], k)
    ensures n in Apply(s, w).info && (InRange(Apply(s, w).info[n], k) <==> !(w.mx < k <= s.heap[w.p].keys[w.i]))
    ensures w.mx < k <= s.heap[w.p].keys[w.i] ==> s.info[n].hi == At(s.heap[w.p].keys[w.i])
  {
    ApplyFrame(s, w);
    PivotBelow(s, w.p, w.i, w.mx, n);
    assert Apply(s, w).info[n] == SwapInfo(s.info[n], s.heap[w.p].keys[w.i], w.mx);
  }

  /** Action `a` is a sound merge of inner nodes by another thread than `u`. */
  ghost predicate MergeBy(g: Global, a: Action, hist: seq<map<Key, Value>>, u: Tid) {
    && Inv(g, hist) && Can(g, a) && a.Body? && !Fault(g, a) && u in g.threads && u != a.t
    && ShiftOf(g, a).level >= 2
  }

  lemma IsMerge(g: Global, a: Action, hist: seq<map<Key, Value>>, u: Tid)
    requires Inv(g, hist) && a.Body? && a.t in g.threads && u in g.threads && u != a.t
    requires var th := g.threads[a.t];
      th.pc.Cleared? && th.pc.plan.JoinPair? && CanBody(g.tree, th, th.pc.plan, th.pc.slot, a.top, a.extra, a.mx)
    requires var s, th := g.tree, g.threads[a.t];
             && Sound(s, WriteOf(s, th.key, th.pc.plan, a.top, a.extra, a.mx))
             && BodyShift(s, th, th.pc.plan, th.pc.slot, a.top, a.extra, a.mx).level >= 2
    ensures MergeBy(g, a, hist, u)
    ensures ShiftOf(g, a) == BodyShift(g.tree, g.threads[a.t], g.threads[a.t].pc.plan, g.threads[a.t].pc.slot, a.top,
      a.extra, a.mx)
  {
  }

  ghost predicate InGap(g: Global, a: Action, k: Key)
    requires WF(g.tree) && Can(g, a)
  {
    ShiftOf(g, a).mx < k <= ShiftOf(g, a).sep
  }

  lemma MergeSetup(g: Global, a: Action, hist: seq<map<Key, Value>>, u: Tid) returns (w: Write)
    requires MergeBy(g, a, hist, u)
    ensures var s := g.tree;
            && Enabled(s, w) && JoinsInners(s, w) && Sound(s, w) && TreeAfter(g, a) == Written(s, Apply(s, w))
            && ShiftOf(g, a) == Shift(s.info[w.p].level, s.heap[w.p].keys[w.i], w.mx)
            && (forall n :: n in Span(s, w) ==> n in s.ver && !Unlocked(s.ver[n])) && Span(s, w) !! g.threads[u].own
  {
    var s, th := g.tree, g.threads[a.t];
    BodyReadyIn(g, a, hist);
    BodyOwned(s, g.sizes, th, a.top, a.extra, a.mx);
    assert th.own !! g.threads[u].own;
    w := WriteOf(s, th.key, th.pc.plan, a.top, a.extra, a.mx);
  }

  /** A thread that stands on an untouched node below the merge keeps passing its checks there, and the node stops
      covering its key if and only if the key lies between the key pulled down and the separator.  This holds at every
      point of its call and for every node whose word it has read, whether it has locked it since or not. */
  lemma MergeStraysExactly(g: Global, a: Action, hist: seq<map<Key, Value>>, u: Tid, h: Held)
    requires MergeBy(g, a, hist, u) && Known(g.tree, h) && Unlocked(h.ver) && Live(g.tree, g.threads[u].own, h)
    requires h.id in g.tree.info && InRange(g.tree.info[h.id], g.threads[u].key)
      && g.tree.info[h.id].level < ShiftOf(g, a).level
    ensures var t := TreeAfter(g, a);
            && Live(t, g.threads[u].own, h) && h.id in t.heap && t.heap[h.id] == g.tree.heap[h.id] && h.id in t.info
            && (!InRange(t.info[h.id], g.threads[u].key) <==> InGap(g, a, g.threads[u].key))
            && (InGap(g, a, g.threads[u].key) ==> g.tree.info[h.id].hi == At(ShiftOf(g, a).sep))
  {
    var w := MergeSetup(g, a, hist, u);
    ShiftExactly(g.tree, w, h.id, g.threads[u].key);
    ApplyFrame(g.tree, w);
    assert h.id in Apply(g.tree, w).heap;
  }

  predicate IsWriter(th: Thread) {
    th.pc.Cleared? && (th.pc.plan.PutRoom? || th.pc.plan.EraseKey?) && |th.pc.plan.path| > 0
  }

  function LeafOf(th: Thread): Held
    requires IsWriter(th)
  {
    Last(th.pc.plan.path)
  }

  lemma WriterHolds(g: Global, hist: seq<map<Key, Value>>, u: Tid)
    requires Inv(g, hist) && u in g.threads && IsWriter(g.threads[u])
    ensures var s, th, n := g.tree, g.threads[u], LeafOf(g.threads[u]);
            && Ready(s, g.sizes, th) && Known(s, n) && Unlocked(n.ver) && Live(s, th.own, n) && Covers(s, th, n.id)
            && s.heap[n.id].Leaf? && s.info[n.id].level == 0 && PagesOk(s.heap[n.id])
  {
    var s, th := g.tree, g.threads[u];
    assert ThreadOk(s, g.sizes, th, hist);
    LeafReady(s, g.sizes, th);
    OwnedLive(s, th.own, Locks(th.pc.plan), LeafOf(th));
    assert NodeOk(s, s.heap[LeafOf(th).id], s.info[LeafOf(th).id]);
  }

  /** A merge of leaves' parents shifts no leaf that is about to be written. */
  lemma LowMergeWaits(g: Global, a: Action, hist: seq<map<Key, Value>>, u: Tid)
    requires MergeBy(g, a, hist, u) && IsWriter(g.threads[u]) && ShiftOf(g, a).level == 2
    requires LeafOf(g.threads[u]).id in g.tree.info && g.tree.heap[LeafOf(g.threads[u]).id].Leaf?
    ensures g.tree.info[LeafOf(g.threads[u]).id].hi != At(ShiftOf(g, a).sep)
  {
    var l := LeafOf(g.threads[u]).id;
    BodyReadyIn(g, a, hist);
    if g.tree.info[l].hi == At(ShiftOf(g, a).sep) {
      LowLeaf(g.tree, g.sizes, g.threads[a.t], a.top, a.extra, a.mx, l);
      assert Writes(g.threads[u], l);
    }
  }

  /** An insert or remove that is about to write its leaf is overtaken if and only if the merge is above the leaves'
      parents and the key lies in the gap: further down, the merge waits until the leaf is free. */
  lemma WriterStraysExactly(g: Global, a: Action, hist: seq<map<Key, Value>>, u: Tid)
    requires MergeBy(g, a, hist, u) && IsWriter(g.threads[u]) && !g.threads[u].strayed
    ensures var th, l := g.threads[u], LeafOf(g.threads[u]).id;
            l in TreeAfter(g, a).info && (!InRange(TreeAfter(g, a).info[l], th.key) <==>
              ShiftOf(g, a).level >= 3 && InGap(g, a, th.key))
  {
    WriterHolds(g, hist, u);
    MergeStraysExactly(g, a, hist, u, LeafOf(g.threads[u]));
    if ShiftOf(g, a).level == 2 { LowMergeWaits(g, a, hist, u); }
  }

  // ----- an overtaken insert is lost -----

  /** Writing a key into a leaf that does not cover it hides the key from every search. */
  lemma MisplacedIsLost(s: State, l: Id, k: Key, v: Value)
    requires WF(s) && LeafPage(s, l) && l in s.info && !InRange(s.info[l], k) && k !in s.m
    ensures LeafGet(s.heap[l], k).None?
    ensures var u := PutIf(s, l, k, v); u.m == s.m[k := v] && Find(u.heap, s.root, k, s.info[s.root].level).None?
  {
    LeafAnswers(s, l, k);
    FindAnswers(s, PutIf(s, l, k, v).heap, {l}, s.root, k);
  }

  lemma GapIsFree(g: Global, a: Action, hist: seq<map<Key, Value>>, u: Tid)
    requires MergeBy(g, a, hist, u) && InGap(g, a, g.threads[u].key)
    ensures g.threads[u].key !in TreeAfter(g, a).m
  {
    BodyReadyIn(g, a, hist);
    ShiftFacts(g.tree, g.sizes, g.threads[a.t], a.top, a.extra, a.mx);
    BodyOk(g.tree, g.sizes, g.threads[a.t], a.top, a.extra, a.mx);
  }

  lemma Overtaken(g: Global, a: Action, hist: seq<map<Key, Value>>, u: Tid)
    requires MergeBy(g, a, hist, u) && IsWriter(g.threads[u]) && !g.threads[u].strayed && ShiftOf(g, a).level >= 3
      && InGap(g, a, g.threads[u].key)
    ensures var g1, th := After(g, a, |hist|), g.threads[u];
            && Inv(g1, hist + [g1.tree.m]) && u in g1.threads && g1.threads[u] == th.(strayed := true)
            && g1.tree.m == g.tree.m
            && th.key !in g1.tree.m && LeafOf(th).id in g1.tree.info && !InRange(g1.tree.info[LeafOf(th).id], th.key)
  {
    WriterStraysExactly(g, a, hist, u);
    GapIsFree(g, a, hist, u);
    StepInv(g, a, hist);
    BodyReadyIn(g, a, hist);
    BodyOk(g.tree, g.sizes, g.threads[a.t], a.top, a.extra, a.mx);
    assert After(g, a, |hist|).threads[u] == Mark(g.threads[u], ShiftOf(g, a));
  }

  lemma Misplaces(g: Global, hist: seq<map<Key, Value>>, u: Tid, now: nat)
    requires Inv(g, hist) && u in g.threads && IsWriter(g.threads[u]) && g.threads[u].op.Insert?
      && g.threads[u].pc.plan.PutRoom?
    requires var l := LeafOf(g.threads[u]).id;
      l in g.tree.info && !InRange(g.tree.info[l], g.threads[u].key) && g.threads[u].key !in g.tree.m
    ensures var th, b := g.threads[u], Body(u, 0, 0, 0, false);
            && Can(g, b)
            && var g2 := After(g, b, now);
               && g2.threads[u].ret && g2.tree.m == g.tree.m[th.key := th.op.val]
               && Find(g2.tree.heap, g2.tree.root, th.key, g.tree.info[g.tree.root].level).None?
  {
    WriterHolds(g, hist, u);
    MisplacedIsLost(g.tree, LeafOf(g.threads[u]).id, g.threads[u].key, g.threads[u].op.val);
  }

  /** An insert that is about to write its leaf when such a merge overtakes it goes on undisturbed and reports success;
      the key is then in no place where a search from the root looks. */
  lemma OvertakenInsertIsLost(g: Global, a: Action, hist: seq<map<Key, Value>>, u: Tid)
    requires MergeBy(g, a, hist, u) && IsWriter(g.threads[u]) && g.threads[u].op.Insert?
      && g.threads[u].pc.plan.PutRoom? && !g.threads[u].strayed
    requires ShiftOf(g, a).level >= 3 && InGap(g, a, g.threads[u].key)
    ensures var g1, b := After(g, a, |hist|), Body(u, 0, 0, 0, false);
            && WF(g1.tree) && Can(g1, b) && u in g1.threads
            && var g2 := After(g1, b, |hist| + 1);
               && g2.threads[u].ret && g2.tree.m == g.tree.m[g.threads[u].key := g.threads[u].op.val]
               && Find(g2.tree.heap, g2.tree.root, g.threads[u].key, g1.tree.info[g1.tree.root].level).None?
  {
    Overtaken(g, a, hist, u);
    Misplaces(After(g, a, |hist|), hist + [g.tree.m], u, |hist| + 1);
  }

  // ----- the key is copied too late -----

  /** The thread merges inner nodes and its search ended at the largest key below the left one. */
  ghost predicate HasSearched(s: State, th: Thread)
    requires WF(s)
  {
    && th.pc.Cleared? && th.pc.plan.JoinPair? && th.pc.plan.how.MergePair? && th.pc.plan.left.id in s.info
    && var l := Spine(s, th.pc.plan.left.id, 0);
       |s.heap[l].keys| > 0 && th.pc.slot == Slot(l, |s.heap[l].keys| - 1)
  }

  /** Thread `u` inserts into the leaf in which thread `t` has found the largest key, before `t` copies it. */
  ghost predicate TooLate(g: Global, t: Tid, u: Tid)
    requires WF(g.tree)
  {
    && t in g.threads && u in g.threads && u != t && HasSearched(g.tree, g.threads[t])
    && g.tree.heap[g.threads[t].pc.plan.left.id].Inner?
    && IsWriter(g.threads[u]) && g.threads[u].pc.plan.PutRoom? && !g.threads[u].strayed && g.threads[u].key !in g.tree.m
    && LeafOf(g.threads[u]).id == g.threads[t].pc.slot.leaf
  }

  lemma LatePut(g: Global, hist: seq<map<Key, Value>>, t: Tid, u: Tid)
    requires Inv(g, hist) && TooLate(g, t, u)
    ensures var th, b := g.threads[u], Body(u, 0, 0, 0, false);
            && Can(g, b) && !Fault(g, b) && th.op.Insert? && LeafPage(g.tree, LeafOf(th).id)
            && InRange(g.tree.info[LeafOf(th).id], th.key)
            && TreeAfter(g, b) == Written(g.tree, PutEntry(g.tree, LeafOf(th).id, th.key, th.op.val))
  {
    WriterHolds(g, hist, u);
    LeafAnswers(g.tree, LeafOf(g.threads[u]).id, g.threads[u].key);
  }

  /** The section is not sound, and after it the stored key `big` is not found. */
  ghost predicate Loses(s: State, w: Write, big: Key)
    requires WF(s)
  {
    && Enabled(s, w) && !Sound(s, w) && big in s.m
    && var t := Apply(s, w); t.root in s.info && Find(t.heap, t.root, big, s.info[t.root].level).None?
  }

  lemma WrittenSame(s: State, l: Id, k: Key, v: Value)
    requires s.heap.Keys == s.ver.Keys && LeafPage(s, l)
    ensures Written(s, PutEntry(s, l, k, v)) == PutEntry(s, l, k, v)
  {
    assert Written(s, PutEntry(s, l, k, v)).ver == s.ver;
  }

  lemma LateTree(s: State, sizes: Caps, th: Thread, k: Key, v: Value, mx: Key, big: Key)
    requires Ready(s, sizes, th) && HasSearched(s, th) && s.heap[th.pc.plan.left.id].Inner?
    requires var l := th.pc.slot.leaf; LeafPage(s, l) && l in s.info && InRange(s.info[l], k) && k !in s.m
    requires var keys := s.heap[th.pc.slot.leaf].keys;
      var after := InsertAt(keys, LowerBound(keys, k), k); mx == after[|keys| - 1] && big == after[|keys|]
    ensures var u := PutEntry(s, th.pc.slot.leaf, k, v);
      WF(u) && Loses(u, MergeKids(Par(th.pc.plan.path).id, th.pc.plan.i, mx), big)
  {
    JoinReady(s, sizes, th);
    LateReadLoses(s, Par(th.pc.plan.path).id, th.pc.plan.i, th.pc.slot.leaf, k, v);
  }

  lemma LateMerge(s: State, sizes: Caps, th: Thread, top: Id, extra: Id, mx: Key)
    requires Ready(s, sizes, th) && th.pc.plan.JoinPair? && th.pc.plan.how.MergePair? && top !in s.heap
      && extra !in s.heap && top != extra
    requires th.pc.slot.leaf in s.heap && th.pc.slot.pos < |s.heap[th.pc.slot.leaf].keys|
      && mx == s.heap[th.pc.slot.leaf].keys[th.pc.slot.pos]
    ensures CanBody(s, th, th.pc.plan, th.pc.slot, top, extra, mx)
    ensures WriteOf(s, th.key, th.pc.plan, top, extra, mx) == MergeKids(Par(th.pc.plan.path).id, th.pc.plan.i, mx)
  {
    BodyReady(s, sizes, th, top, extra, mx);
  }

  lemma LateState(g: Global, hist: seq<map<Key, Value>>, t: Tid, u: Tid)
    requires Inv(g, hist) && TooLate(g, t, u)
    ensures var b, th := Body(u, 0, 0, 0, false), g.threads[u];
            && Can(g, b) && !Fault(g, b) && th.op.Insert? && LeafPage(g.tree, LeafOf(th).id)
            && var g1 := After(g, b, |hist|);
               && Inv(g1, hist + [g1.tree.m]) && t in g1.threads && g1.threads[t] == g.threads[t] && g1.sizes == g.sizes
               && g1.tree == PutEntry(g.tree, LeafOf(th).id, th.key, th.op.val)
  {
    LatePut(g, hist, t, u);
    var b, th := Body(u, 0, 0, 0, false), g.threads[u];
    StepInv(g, b, hist);
    assert After(g, b, |hist|).threads[t] == Mark(g.threads[t], ShiftOf(g, b)) == g.threads[t];
    WrittenSame(g.tree, LeafOf(th).id, th.key, th.op.val);
  }

  ghost predicate HasKey(s: State, th: Thread, mx: Key) {
    && th.pc.Cleared? && th.pc.plan.JoinPair? && th.pc.plan.how.MergePair? && PlanShape(th.pc.plan)
    && th.pc.slot.leaf in s.heap && th.pc.slot.pos < |s.heap[th.pc.slot.leaf].keys|
    && mx == s.heap[th.pc.slot.leaf].keys[th.pc.slot.pos]
  }

  lemma CopyCuts(g: Global, hist: seq<map<Key, Value>>, t: Tid, top: Id, extra: Id, mx: Key, big: Key)
    requires Inv(g, hist) && t in g.threads && HasKey(g.tree, g.threads[t], mx) && top !in g.tree.heap
      && extra !in g.tree.heap && top != extra
    requires Loses(g.tree, MergeKids(Par(g.threads[t].pc.plan.path).id, g.threads[t].pc.plan.i, mx), big)
    ensures var b, th := Body(t, top, extra, mx, false), g.threads[t];
            && Can(g, b) && Cuts(g, b)
            && var w := WriteOf(g.tree, th.key, th.pc.plan, top, extra, mx);
               Loses(g.tree, w, big) && TreeAfter(g, b) == Written(g.tree, Apply(g.tree, w))
  {
    assert ThreadOk(g.tree, g.sizes, g.threads[t], hist);
    LateMerge(g.tree, g.sizes, g.threads[t], top, extra, mx);
  }

  lemma LateLoses(g: Global, hist: seq<map<Key, Value>>, t: Tid, u: Tid, mx: Key, big: Key)
    requires Inv(g, hist) && TooLate(g, t, u) && g.threads[u].op.Insert? && LeafPage(g.tree, LeafOf(g.threads[u]).id)
    requires var keys := g.tree.heap[g.threads[t].pc.slot.leaf].keys;
      var after := InsertAt(keys, LowerBound(keys, g.threads[u].key), g.threads[u].key);
             mx == after[|keys| - 1] && big == after[|keys|]
    ensures var th, ot := g.threads[t], g.threads[u];
            var s1 := PutEntry(g.tree, LeafOf(ot).id, ot.key, ot.op.val);
            && HasKey(s1, th, mx) && s1.heap.Keys == g.tree.heap.Keys && WF(s1)
            && Loses(s1, MergeKids(Par(th.pc.plan.path).id, th.pc.plan.i, mx), big)
  {
    LatePut(g, hist, t, u);
    assert ThreadOk(g.tree, g.sizes, g.threads[t], hist);
    LateTree(g.tree, g.sizes, g.threads[t], g.threads[u].key, g.threads[u].op.val, mx, big);
  }

  /** Then the slot holds a smaller key than the leaf's largest, and the merge loses that one. */
  lemma LateReadCuts(g: Global, hist: seq<map<Key, Value>>, t: Tid, u: Tid, top: Id, extra: Id)
    returns (mx: Key, big: Key)
    requires Inv(g, hist) && TooLate(g, t, u) && top !in g.tree.heap && extra !in g.tree.heap && top != extra
    ensures Can(g, Body(u, 0, 0, 0, false)) && !Fault(g, Body(u, 0, 0, 0, false))
    ensures var g1, b := After(g, Body(u, 0, 0, 0, false), |hist|), Body(t, top, extra, mx, false);
            && WF(g1.tree) && Can(g1, b) && Cuts(g1, b)
            && var w := WriteOf(g1.tree, g1.threads[t].key, g1.threads[t].pc.plan, top, extra, mx);
               Loses(g1.tree, w, big) && TreeAfter(g1, b) == Written(g1.tree, Apply(g1.tree, w))
  {
    LateState(g, hist, t, u);
    var g1 := After(g, Body(u, 0, 0, 0, false), |hist|);
    var keys, k := g.tree.heap[g.threads[t].pc.slot.leaf].keys, g.threads[u].key;
    var after := InsertAt(keys, LowerBound(keys, k), k);
    mx, big := after[|keys| - 1], after[|keys|];
    LateLoses(g, hist, t, u, mx, big);
    CopyCuts(g1, hist + [g1.tree.m], t, top, extra, mx, big);
  }

  // ----- the last leaf is empty -----

  /** The thread merges leaves' parents and has found the last leaf below the left one empty. */
  ghost predicate FoundEmpty(s: State, th: Thread)
    requires WF(s)
  {
    && th.pc.Cleared? && th.pc.plan.JoinPair? && th.pc.plan.how.MergePair? && th.pc.plan.left.id in s.info
    && s.heap[th.pc.plan.left.id].Inner?
    && s.info[th.pc.plan.left.id].level == 1 && s.heap[Spine(s, th.pc.plan.left.id, 0)].keys == []
  }

  lemma EmptyLast(s: State, a: Id, k: Key)
    requires WF(s) && a in s.info && s.info[a].level == 1 && s.heap[a].Inner? && s.heap[Spine(s, a, 0)].keys == []
    requires k in s.m && InRange(s.info[a], k)
    ensures LowerBound(s.heap[a].keys, k) < |s.heap[a].keys|
  {
    var i, l := LowerBound(s.heap[a].keys, k), Spine(s, a, 0);
    KidCovers(s, a, k);
    KidInside(s, a, i, s.heap[a].kids[i]);
    assert NodeOk(s, s.heap[a], s.info[a]) && NodeOk(s, s.heap[l], s.info[l]);
    assert LastKid(s.heap[a]) == l;
    LeafAnswers(s, l, k);
  }

  lemma HollowMisled(s: State, p: Id, i: nat, mx: Key, k: Key)
    requires WF(s) && CanMerge(s, p, i) && s.info[p].level == 2 && s.heap[s.heap[p].kids[i]].Inner?
    requires s.heap[p].kids[i] in s.info && s.heap[Spine(s, s.heap[p].kids[i], 0)].keys == [] && k in s.m
    ensures Misled(s, p, i, mx, k) <==> InRange(s.info[s.heap[p].kids[i + 1]], k) && k <= mx
  {
    PairIds(s, p, i);
    if InRange(s.info[s.heap[p].kids[i]], k) { EmptyLast(s, s.heap[p].kids[i], k); }
  }

  /** After such a merge every search is right if and only if what was pulled down lies below all keys of the right
      node. */
  lemma HollowLosesExactly(s: State, p: Id, i: nat, mx: Key)
    requires WF(s) && CanMerge(s, p, i) && s.info[p].level == 2 && s.heap[s.heap[p].kids[i]].Inner?
    requires s.heap[p].kids[i] in s.info && s.heap[Spine(s, s.heap[p].kids[i], 0)].keys == []
    ensures var t := Apply(s, MergeKids(p, i, mx));
            && t.root in s.info
            && ((forall k :: Find(t.heap, t.root, k, s.info[t.root].level) == MapGet(s.m, k)) <==>
                (forall k :: k in s.m && InRange(s.info[s.heap[p].kids[i + 1]], k) ==> mx < k))
  {
    PullLosesExactly(s, p, i, mx);
    forall k | k in s.m ensures Misled(s, p, i, mx, k) <==> InRange(s.info[s.heap[p].kids[i + 1]], k) && k <= mx {
      HollowMisled(s, p, i, mx, k);
    }
  }

  lemma HollowLoses(s: State, sizes: Caps, th: Thread, k: Key)
    requires Ready(s, sizes, th) && FoundEmpty(s, th) && k in s.m
    requires th.pc.plan.right.id in s.info && InRange(s.info[th.pc.plan.right.id], k)
    ensures Loses(s, MergeKids(Par(th.pc.plan.path).id, th.pc.plan.i, k), k)
  {
    var plan := th.pc.plan;
    var p := Par(plan.path).id;
    JoinReady(s, sizes, th);
    PairIds(s, p, plan.i);
    FindMerged(s, p, plan.i, k, k);
    PullableExactly(s, p, plan.i, k);
  }

  lemma EmptySlot(s: State, sizes: Caps, th: Thread)
    requires Ready(s, sizes, th) && FoundEmpty(s, th)
    ensures th.pc.slot.leaf in s.heap && s.heap[th.pc.slot.leaf].keys == []
  {
    var a := th.pc.plan.left.id;
    assert NodeOk(s, s.heap[a], s.info[a]);
    var c := LastKid(s.heap[a]);
    assert s.info[c] == KidInfo(s.heap[a].keys, s.info[a], |s.heap[a].keys|);
    assert NodeOk(s, s.heap[c], s.info[c]);
    OnSpine(s, a, c);
    assert SlotOk(s, a, th.pc.slot);
  }

  /** The memory in front of the leaf may hold any key.  If it is one that is stored below the right node, the merge
      loses that key. */
  lemma HollowCuts(g: Global, hist: seq<map<Key, Value>>, t: Tid, top: Id, extra: Id, k: Key)
    requires Inv(g, hist) && t in g.threads && FoundEmpty(g.tree, g.threads[t]) && k in g.tree.m
    requires g.threads[t].pc.plan.right.id in g.tree.info && InRange(g.tree.info[g.threads[t].pc.plan.right.id], k)
    requires top !in g.tree.heap && extra !in g.tree.heap && top != extra
    ensures var b, th := Body(t, top, extra, k, false), g.threads[t];
            && Can(g, b) && Cuts(g, b)
            && var w := WriteOf(g.tree, th.key, th.pc.plan, top, extra, k);
               Loses(g.tree, w, k) && TreeAfter(g, b) == Written(g.tree, Apply(g.tree, w))
  {
    var s, th := g.tree, g.threads[t];
    assert ThreadOk(s, g.sizes, th, hist);
    HollowLoses(s, g.sizes, th, k);
    EmptySlot(s, g.sizes, th);
    BodyReady(s, g.sizes, th, top, extra, k);
  }
}
