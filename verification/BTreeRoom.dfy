/** Sections and page capacities: a section leaves every page within its capacity, except for a borrow into a page that
    has filled up since it was found too small. */
module BTreeRoom {
  import opened BTreeHeap
  import opened BTreeSections
  import opened BTreeSize
  import opened BTreeOlc
  import opened BTreeCoupling
  import opened BTreeBodies

  lemma PutFits(s: State, c: Caps, l: Id, k: Key, v: Value)
    requires LeafPage(s, l) && MaxOk(s, c) && (l in s.info ==> |s.heap[l].keys| < c.leaf)
    ensures MaxOk(PutIf(s, l, k, v), c)
  {
    var t := PutIf(s, l, k, v);
    forall n | n in t.info && n in t.heap ensures Fits(c, t.heap[n]) {
      assert n in s.info && n in s.heap;
    }
  }

  lemma EraseFits(s: State, c: Caps, l: Id, k: Key)
    requires LeafPage(s, l) && MaxOk(s, c)
    ensures MaxOk(EraseIf(s, l, k), c)
  {
    var t := EraseIf(s, l, k);
    forall n | n in t.info && n in t.heap ensures Fits(c, t.heap[n]) {
      assert n in s.info && n in s.heap;
    }
  }

  lemma SplitFits(s: State, c: Caps, w: Write, l: Id)
    requires WF(s) && SplitsNode(s, w, l) && MaxOk(s, c) && c.leaf >= 3 && c.inner >= 3 && Full(c, s.heap[l])
    requires w.SplitKid? ==> !Full(c, s.heap[w.p])
    ensures MaxOk(Apply(s, w), c)
  {
    if w.SplitKid? {
      SplitSizes(s, c, w.p, w.i, w.extra);
    } else {
      SplitTopSizes(s, c, w.top, w.extra);
    }
  }

  lemma HalfFits(s: State, c: Caps, w: Write, l: Id, k: Key, v: Value)
    requires WF(s) && SplitsNode(s, w, l) && LeafPage(s, l) && Splittable(s.heap[l]) && MaxOk(Apply(s, w), c)
    requires c.leaf >= 3 && Full(c, s.heap[l]) && LeafPage(Apply(s, w), Half(s.heap[l], l, w.extra, k))
    ensures MaxOk(PutIf(Apply(s, w), Half(s.heap[l], l, w.extra, k), k, v), c)
  {
    SplitHalves(s, w, l);
    PutFits(Apply(s, w), c, Half(s.heap[l], l, w.extra, k), k, v);
  }

  lemma MovedSize(a: Node, sep: Key, b: Node, toLeft: bool)
    requires PagesOk(a) && PagesOk(b) && a.Leaf? == b.Leaf? && |(if toLeft then b else a).keys| >= if a.Leaf? then 2
      else 1
    ensures var x := if toLeft then BorrowFromRight(a, sep, b) else BorrowFromLeft(a, sep, b);
            && x.left.Leaf? == x.right.Leaf? == a.Leaf?
            && |x.left.keys| == |a.keys| + (if toLeft then 1 else -1)
            && |x.right.keys| == |b.keys| + (if toLeft then -1 else 1)
  {
  }

  /** The pages after a borrow. */
  lemma BorrowPages(s: State, p: Id, i: nat, toLeft: bool)
    requires WF(s) && CanBorrow(s, p, i, toLeft)
    ensures var t, a, b := Borrow(s, p, i, toLeft), s.heap[p].kids[i], s.heap[p].kids[i + 1];
            && t.info.Keys == s.info.Keys <= t.heap.Keys && t.root == s.root && {p, a, b} <= t.info.Keys
            && t.heap[p].Inner? && |t.heap[p].keys| == |s.heap[p].keys|
            && t.heap[a].Leaf? == s.heap[a].Leaf? && |t.heap[a].keys| == |s.heap[a].keys| + (if toLeft then 1 else -1)
            && t.heap[b].Leaf? == s.heap[b].Leaf? && |t.heap[b].keys| == |s.heap[b].keys| + (if toLeft then -1 else 1)
            && (forall n {:trigger t.info[n]} :: n in t.info && n !in {p, a, b} ==> t.heap[n] == s.heap[n])
  {
    PairIds(s, p, i);
    MovedSize(s.heap[s.heap[p].kids[i]], s.heap[p].keys[i], s.heap[s.heap[p].kids[i + 1]], toLeft);
  }

  /** A borrow keeps every page within its capacity if and only if the page that takes the entry is not full. */
  lemma BorrowFits(s: State, c: Caps, p: Id, i: nat, toLeft: bool)
    requires WF(s) && CanBorrow(s, p, i, toLeft) && MaxOk(s, c)
    ensures MaxOk(Borrow(s, p, i, toLeft), c) <==> !Full(c, s.heap[s.heap[p].kids[if toLeft then i else i + 1]])
  {
    var t, a, b := Borrow(s, p, i, toLeft), s.heap[p].kids[i], s.heap[p].kids[i + 1];
    BorrowPages(s, p, i, toLeft);
    PairIds(s, p, i);
    assert s.info[p] == s.info[p] && s.info[a] == s.info[a] && s.info[b] == s.info[b];
    var x := if toLeft then a else b;
    if Full(c, s.heap[x]) {
      assert t.info[x] == t.info[x] && !Fits(c, t.heap[x]);
    } else {
      SizesKeep(s, t, c, {}, {p, a, b}, {});
    }
  }

  /** The pages after a merge, whatever key it pulls down. */
  lemma MergePages(s: State, p: Id, i: nat, mx: Key)
    requires WF(s) && CanMerge(s, p, i)
    ensures var t, a, b := Apply(s, MergeKids(p, i, mx)), s.heap[p].kids[i], s.heap[p].kids[i + 1];
            && t.info.Keys <= s.info.Keys && t.info.Keys <= t.heap.Keys && b !in t.info
            && a in t.heap && t.heap[a].Leaf? == s.heap[a].Leaf?
            && |t.heap[a].keys| == |s.heap[a].keys| + |s.heap[b].keys| + (if s.heap[a].Leaf? then 0 else 1)
            && p in t.heap && t.heap[p].Inner? && |t.heap[p].keys| + 1 == |s.heap[p].keys|
            && (forall n {:trigger t.info[n]} :: n in t.info && n !in {p, a} ==> t.heap[n] == s.heap[n])
  {
    PairIds(s, p, i);
    if s.heap[s.heap[p].kids[i]].Inner? { PivotMerges(s, p, i, mx); }
  }

  lemma MergeKeepsRoom(s: State, c: Caps, p: Id, i: nat, mx: Key)
    requires WF(s) && CanMerge(s, p, i) && MaxOk(s, c)
    requires FitTogether(c, s.heap[s.heap[p].kids[i]], s.heap[s.heap[p].kids[i + 1]])
    ensures MaxOk(Apply(s, MergeKids(p, i, mx)), c)
  {
    var t, a := Apply(s, MergeKids(p, i, mx)), s.heap[p].kids[i];
    MergePages(s, p, i, mx);
    forall n | n in t.info && n in t.heap ensures Fits(c, t.heap[n]) {
      assert n in s.info && t.info[n] == t.info[n];
    }
  }

  // ----- the section of a thread -----

  lemma SplitRoom(s: State, sizes: Caps, th: Thread, top: Id, extra: Id, mx: Key)
    requires Ready(s, sizes, th) && CanBody(s, th, th.pc.plan, th.pc.slot, top, extra, mx)
    requires th.pc.plan.SplitNode? || th.pc.plan.PutFull?
    requires MaxOk(s, sizes) && PlanRoom(s, sizes, th, th.pc.plan)
    ensures var w := WriteOf(s, th.key, th.pc.plan, top, extra, mx);
            Full(sizes, s.heap[Last(th.pc.plan.path).id]) && MaxOk(Apply(s, w), sizes)
  {
    var plan := th.pc.plan;
    var w, n := WriteOf(s, th.key, plan, top, extra, mx), Last(plan.path);
    OwnedLive(s, th.own, Locks(plan), n);
    if |plan.path| > 1 {
      assert Locks(plan)[0] == Par(plan.path) == plan.path[|plan.path| - 2];
      OwnedLive(s, th.own, Locks(plan), Par(plan.path));
      assert Roomy(s, sizes, th.own, Par(plan.path));
    }
    SplitFits(s, sizes, w, n.id);
  }

  lemma PutRoomFits(s: State, sizes: Caps, th: Thread)
    requires Ready(s, sizes, th) && th.pc.plan.PutRoom? && MaxOk(s, sizes) && PlanRoom(s, sizes, th, th.pc.plan)
    requires LeafPage(s, Last(th.pc.plan.path).id) && th.op.Insert?
    ensures MaxOk(PutIf(s, Last(th.pc.plan.path).id, th.key, th.op.val), sizes)
  {
    var n := Last(th.pc.plan.path);
    OwnedLive(s, th.own, Locks(th.pc.plan), n);
    LeafReady(s, sizes, th);
    assert s.info[n.id] == s.info[n.id];
    PutFits(s, sizes, n.id, th.key, th.op.val);
  }

  lemma JoinFits(s: State, sizes: Caps, th: Thread, top: Id, extra: Id, mx: Key)
    requires Ready(s, sizes, th) && CanBody(s, th, th.pc.plan, th.pc.slot, top, extra, mx) && th.pc.plan.JoinPair?
    requires MaxOk(s, sizes) && PlanRoom(s, sizes, th, th.pc.plan)
    ensures MaxOk(Apply(s, WriteOf(s, th.key, th.pc.plan, top, extra, mx)), sizes) <==>
      (th.pc.plan.how.BorrowTo? ==> Taker(th.pc.plan).id in s.heap && !Full(sizes, s.heap[Taker(th.pc.plan).id]))
  {
    var plan := th.pc.plan;
    var p := Par(plan.path).id;
    JoinReady(s, sizes, th);
    match plan.how
    case BorrowTo(left) => BorrowFits(s, sizes, p, plan.i, left);
    case MergePair =>
      assert Locks(plan) == [Par(plan.path), plan.left, plan.right];
      OwnedLive(s, th.own, Locks(plan), plan.left);
      OwnedLive(s, th.own, Locks(plan), plan.right);
      MergeKeepsRoom(s, sizes, p, plan.i, mx);
  }

  lemma PutFullFits(s: State, sizes: Caps, th: Thread, top: Id, extra: Id, mx: Key)
    requires Ready(s, sizes, th) && CanBody(s, th, th.pc.plan, th.pc.slot, top, extra, mx) && th.pc.plan.PutFull?
    requires MaxOk(s, sizes) && PlanRoom(s, sizes, th, th.pc.plan)
    ensures MaxOk(BodyTree(s, th, th.pc.plan, th.pc.slot, top, extra, mx), sizes)
  {
    var w, l := WriteOf(s, th.key, th.pc.plan, top, extra, mx), Last(th.pc.plan.path).id;
    SplitRoom(s, sizes, th, top, extra, mx);
    HalfIsLeaf(s, w, l, th.key);
    HalfFits(s, sizes, w, l, th.key, th.op.val);
  }

  /** A section of a thread that holds its locks keeps every page within its capacity if and only if it is not a borrow
      into a full page. */
  lemma BodyFits(s: State, sizes: Caps, th: Thread, top: Id, extra: Id, mx: Key)
    requires Ready(s, sizes, th) && CanBody(s, th, th.pc.plan, th.pc.slot, top, extra, mx)
    requires MaxOk(s, sizes) && RoomOk(s, sizes, th)
    ensures MaxOk(Written(s, BodyTree(s, th, th.pc.plan, th.pc.slot, top, extra, mx)), sizes) <==>
      (th.pc.plan.JoinPair? && th.pc.plan.how.BorrowTo? ==>
        Taker(th.pc.plan).id in s.heap && !Full(sizes, s.heap[Taker(th.pc.plan).id]))
  {
    var plan := th.pc.plan;
    var t := BodyTree(s, th, plan, th.pc.slot, top, extra, mx);
    match plan {
      case SplitNode(_) => SplitRoom(s, sizes, th, top, extra, mx);
      case PutFull(_) => PutFullFits(s, sizes, th, top, extra, mx);
      case PutRoom(_) => PutRoomFits(s, sizes, th);
      case EraseKey(path) => EraseFits(s, sizes, Last(path).id, th.key);
      case JoinPair(_, _, _, _, _) => JoinFits(s, sizes, th, top, extra, mx);
    }
    assert Written(s, t).heap == t.heap && Written(s, t).info == t.info;
    assert MaxOk(Written(s, t), sizes) <==> MaxOk(t, sizes);
  }
}
