/** Sections: a thread that holds its locks and is past its checks can perform its section, writes only nodes it has
    locked, changes the map as its operation asks, and disturbs no other thread. */
module BTreeBodies {
  import opened SeqOps
  import opened BTreeHeap
  import opened BTreeSections
  import opened BTreeSize
  import opened BTreeOlc
  import opened BTreeCoupling
  import opened BTreeSteps

  ghost predicate Ready(s: State, sizes: Caps, th: Thread) {
    WF(s) && th.pc.Cleared? && SectionOk(s, sizes, th) && sizes.leaf >= 3 && sizes.inner >= 3
  }

  lemma OwnedLive(s: State, own: set<Id>, hs: seq<Held>, h: Held)
    requires HasLocks(s, own, hs) && h in hs
    ensures h.id in own && Live(s, own, h) && Unlocked(h.ver)
  {
  }

  /** The node to be split is the root, or the child of the locked parent at the key's position. */
  lemma SplitReady(s: State, sizes: Caps, th: Thread, top: Id, extra: Id, mx: Key)
    requires Ready(s, sizes, th) && (th.pc.plan.SplitNode? || th.pc.plan.PutFull?)
    requires top !in s.heap && extra !in s.heap && top != extra
    ensures SplitsNode(s, WriteOf(s, th.key, th.pc.plan, top, extra, mx), Last(th.pc.plan.path).id)
  {
    var plan := th.pc.plan;
    var n := Last(plan.path);
    OwnedLive(s, th.own, Locks(plan), n);
    if |plan.path| > 1 {
      OwnedLive(s, th.own, Locks(plan), Par(plan.path));
      assert Locks(plan)[0] == Par(plan.path);
    }
    StandsOn(s, th.own, th, plan.path);
    assert NodeOk(s, s.heap[n.id], s.info[n.id]);
    if |plan.path| > 1 {
      assert NodeOk(s, s.heap[Par(plan.path).id], s.info[Par(plan.path).id]);
    }
  }

  lemma JoinReady(s: State, sizes: Caps, th: Thread)
    requires Ready(s, sizes, th) && th.pc.plan.JoinPair?
    ensures var plan := th.pc.plan; var p := Par(plan.path).id;
            && Adjacent(s, p, plan.i) && s.heap[p].kids[plan.i] == plan.left.id
            && s.heap[p].kids[plan.i + 1] == plan.right.id
            && CanMerge(s, p, plan.i) && (plan.how.BorrowTo? ==> CanBorrow(s, p, plan.i, plan.how.left))
  {
    var plan := th.pc.plan;
    assert Locks(plan) == [Par(plan.path), plan.left, plan.right];
    OwnedLive(s, th.own, Locks(plan), Par(plan.path));
    OwnedLive(s, th.own, Locks(plan), plan.left);
    OwnedLive(s, th.own, Locks(plan), plan.right);
    LockedPair(s, sizes, th, plan);
    PairFacts(s, Par(plan.path).id, plan.i);
  }

  lemma LeafReady(s: State, sizes: Caps, th: Thread)
    requires Ready(s, sizes, th) && (th.pc.plan.PutRoom? || th.pc.plan.EraseKey? || th.pc.plan.PutFull?)
    ensures Covers(s, th, Last(th.pc.plan.path).id) && LeafPage(s, Last(th.pc.plan.path).id)
  {
    var plan := th.pc.plan;
    var n := Last(plan.path);
    if plan.PutFull? {
      OwnedLive(s, th.own, Locks(plan), n);
      if |plan.path| > 1 {
        OwnedLive(s, th.own, Locks(plan), Par(plan.path));
        assert Locks(plan)[0] == Par(plan.path);
      }
      StandsOn(s, th.own, th, plan.path);
    }
    assert NodeOk(s, s.heap[n.id], s.info[n.id]);
  }

  /** A thread past its checks can perform its section, with any ids not in use and whatever key its slot holds. */
  lemma BodyReady(s: State, sizes: Caps, th: Thread, top: Id, extra: Id, mx: Key)
    requires Ready(s, sizes, th) && top !in s.heap && extra !in s.heap && top != extra
    requires th.pc.slot.leaf in s.heap && th.pc.slot.pos < |s.heap[th.pc.slot.leaf].keys| ==>
      mx == s.heap[th.pc.slot.leaf].keys[th.pc.slot.pos]
    ensures CanBody(s, th, th.pc.plan, th.pc.slot, top, extra, mx)
  {
    match th.pc.plan
    case SplitNode(_) => SplitReady(s, sizes, th, top, extra, mx);
    case PutFull(_) => SplitReady(s, sizes, th, top, extra, mx); LeafReady(s, sizes, th);
    case PutRoom(_) => LeafReady(s, sizes, th);
    case EraseKey(_) => LeafReady(s, sizes, th);
    case JoinPair(_, _, _, _, _) => JoinReady(s, sizes, th);
  }

  /** It writes only nodes it has locked. */
  lemma BodyOwned(s: State, sizes: Caps, th: Thread, top: Id, extra: Id, mx: Key)
    requires Ready(s, sizes, th) && CanBody(s, th, th.pc.plan, th.pc.slot, top, extra, mx)
    ensures BodySpan(s, th, th.pc.plan, th.pc.slot, top, extra, mx) <= th.own
  {
    var plan := th.pc.plan;
    if plan.JoinPair? {
      JoinReady(s, sizes, th);
      assert Locks(plan) == [Par(plan.path), plan.left, plan.right];
    } else {
      OwnedLive(s, th.own, Locks(plan), Last(plan.path));
      if |plan.path| > 1 && (plan.SplitNode? || plan.PutFull?) {
        assert Locks(plan)[0] == Par(plan.path);
        OwnedLive(s, th.own, Locks(plan), Par(plan.path));
      }
    }
  }

  lemma PutHalfFrame(s: State, u: State, ws: set<Id>, h: Id, k: Key, v: Value)
    requires Frame(s, u, ws, 0, 0, 0) && LeafPage(u, h) && (h in s.heap ==> h in ws)
    ensures Frame(s, PutIf(u, h, k, v), ws, 0, 0, 0)
  {
    var t := PutIf(u, h, k, v);
    forall n | n in s.heap
      ensures n in t.heap && t.heap[n].Inner? == s.heap[n].Inner? && (n !in ws ==> t.heap[n] == s.heap[n])
    {
      assert n in u.heap;
    }
  }

  lemma SplitSpan(s: State, w: Write, l: Id)
    requires WF(s) && SplitsNode(s, w, l)
    ensures l in Span(s, w) && w.extra !in s.heap && ShiftLevel(s, w) == 0 && ShiftSep(s, w) == 0 && ShiftKey(s, w) == 0
  {
  }

  lemma FrameWords(s: State, t: State, ws: set<Id>, sh: Shift)
    requires Frame(s, t, ws, sh.level, sh.sep, sh.mx)
    ensures Frame(s, Written(s, t), ws, sh.level, sh.sep, sh.mx)
  {
    var u := Written(s, t);
    assert u.heap == t.heap && u.info == t.info && u.root == t.root;
    forall n | n in s.heap
      ensures n in u.heap && u.heap[n].Inner? == s.heap[n].Inner? && (n !in ws ==> u.heap[n] == s.heap[n])
    {
      assert n in t.heap;
    }
    forall n | n in s.info && n !in ws ensures n in u.info && u.info[n] == Shifted(s.info[n], sh.level, sh.sep, sh.mx) {
      assert n in t.info;
    }
  }

  lemma PutFullFrame(s: State, w: Write, l: Id, k: Key, v: Value)
    requires WF(s) && SplitsNode(s, w, l) && LeafPage(s, l) && Splittable(s.heap[l])
      && LeafPage(Apply(s, w), Half(s.heap[l], l, w.extra, k))
    ensures Frame(s, PutIf(Apply(s, w), Half(s.heap[l], l, w.extra, k), k, v), Span(s, w), 0, 0, 0)
  {
    SplitSpan(s, w, l);
    ApplyFrame(s, w);
    PutHalfFrame(s, Apply(s, w), Span(s, w), Half(s.heap[l], l, w.extra, k), k, v);
  }

  lemma BodyFrame(s: State, th: Thread, plan: Plan, slot: Slot, top: Id, extra: Id, mx: Key)
    requires WF(s) && CanBody(s, th, plan, slot, top, extra, mx)
    ensures var ws, sh := BodySpan(s, th, plan, slot, top, extra, mx), BodyShift(s, th, plan, slot, top, extra, mx);
            Frame(s, BodyTree(s, th, plan, slot, top, extra, mx), ws, sh.level, sh.sep, sh.mx)
  {
    match plan
    case SplitNode(_) => ApplyFrame(s, WriteOf(s, th.key, plan, top, extra, mx));
    case PutFull(path) =>
      HalfIsLeaf(s, WriteOf(s, th.key, plan, top, extra, mx), Last(path).id, th.key);
      PutFullFrame(s, WriteOf(s, th.key, plan, top, extra, mx), Last(path).id, th.key, th.op.val);
    case PutRoom(path) => PutFrame(s, Last(path).id, th.key, th.op.val);
    case EraseKey(path) => PutFrame(s, Last(path).id, th.key, 0);
    case JoinPair(_, _, _, _, _) => ApplyFrame(s, WriteOf(s, th.key, plan, top, extra, mx));
  }

  // ----- what the section does to the map -----

  lemma SplitFinds(n: Node, extra: Id, k: Key)
    requires n.Leaf? && Splittable(n) && Sorted(n.keys)
    ensures LeafGet(if k > SepKey(n) then RightHalf(n) else LeftHalf(n, extra), k) == LeafGet(n, k)
  {
    var h, p := SplitAt(n), LowerBound(n.keys, k);
    if k > SepKey(n) {
      assert n.keys[h - 1] < k && p >= h;
      assert Sorted(n.keys[h..]);
      LowerBoundOf(n.keys[h..], k, p - h);
    } else {
      assert p <= h - 1;
      assert Sorted(n.keys[..h]);
      LowerBoundOf(n.keys[..h], k, p);
    }
  }

  lemma PutFullOk(s: State, w: Write, l: Id, k: Key, v: Value)
    requires WF(s) && SplitsNode(s, w, l) && LeafPage(s, l) && Splittable(s.heap[l])
    requires LeafGet(s.heap[l], k).None? ==> InRange(s.info[l], k)
    requires LeafPage(Apply(s, w), Half(s.heap[l], l, w.extra, k))
    ensures var t := PutIf(Apply(s, w), Half(s.heap[l], l, w.extra, k), k, v);
            WF(t) && t.m == (if k in s.m then s.m else s.m[k := v]) && LeafGet(s.heap[l], k).None? == (k !in s.m)
  {
    var n := s.heap[l];
    SplitHalves(s, w, l);
    SplitFinds(n, w.extra, k);
    PutIfOk(Apply(s, w), Half(n, l, w.extra, k), k, v);
  }

  lemma InsertAtomic(s: State, sizes: Caps, th: Thread, top: Id, extra: Id, mx: Key)
    requires Ready(s, sizes, th) && CanBody(s, th, th.pc.plan, th.pc.slot, top, extra, mx)
      && (th.pc.plan.PutFull? || th.pc.plan.PutRoom?)
    requires var l := Last(th.pc.plan.path).id;
      Answer(s, th, th.pc.plan.path).None? ==> l in s.info && InRange(s.info[l], th.key)
    ensures var t := BodyTree(s, th, th.pc.plan, th.pc.slot, top, extra, mx);
            WF(t) && Took(th.(ret := RetOf(s, th, th.pc.plan)), s.m, t.m)
  {
    var plan := th.pc.plan;
    var l := Last(plan.path).id;
    LeafReady(s, sizes, th);
    if plan.PutFull? {
      var w := WriteOf(s, th.key, plan, top, extra, mx);
      HalfIsLeaf(s, w, l, th.key);
      PutFullOk(s, w, l, th.key, th.op.val);
    } else {
      PutIfOk(s, l, th.key, th.op.val);
    }
  }

  /** A remove erases exactly its key and reports whether it was there; one that strayed may miss it. */
  lemma RemoveAtomic(s: State, sizes: Caps, th: Thread, top: Id, extra: Id, mx: Key)
    requires Ready(s, sizes, th) && CanBody(s, th, th.pc.plan, th.pc.slot, top, extra, mx) && th.pc.plan.EraseKey?
    ensures var t, ret := BodyTree(s, th, th.pc.plan, th.pc.slot, top, extra, mx), RetOf(s, th, th.pc.plan);
            WF(t) && (Took(th.(ret := ret), s.m, t.m) || (th.strayed && !ret && t.m == s.m))
  {
    var l := Last(th.pc.plan.path).id;
    LeafReady(s, sizes, th);
    LeafAnswers(s, l, th.key);
    EraseIfOk(s, l, th.key);
    if th.key !in s.m { assert s.m - {th.key} == s.m; }
  }

  ghost predicate Faultless(s: State, th: Thread, top: Id, extra: Id, mx: Key)
    requires WF(s) && th.pc.Cleared? && CanBody(s, th, th.pc.plan, th.pc.slot, top, extra, mx)
  {
    var plan := th.pc.plan;
    && (plan.PutFull? || plan.PutRoom? ==>
       var l := Last(plan.path).id; Answer(s, th, plan.path).None? ==> l in s.info && InRange(s.info[l], th.key))
    && (plan.JoinPair? ==> Sound(s, WriteOf(s, th.key, plan, top, extra, mx)))
  }

  lemma BodyOk(s: State, sizes: Caps, th: Thread, top: Id, extra: Id, mx: Key)
    requires Ready(s, sizes, th) && CanBody(s, th, th.pc.plan, th.pc.slot, top, extra, mx)
      && Faultless(s, th, top, extra, mx)
    ensures var t := BodyTree(s, th, th.pc.plan, th.pc.slot, top, extra, mx);
            WF(t) && (th.pc.plan.SplitNode? || th.pc.plan.JoinPair? ==> t.m == s.m)
  {
    match th.pc.plan
    case SplitNode(_) => ApplyOk(s, WriteOf(s, th.key, th.pc.plan, top, extra, mx));
    case PutFull(_) => InsertAtomic(s, sizes, th, top, extra, mx);
    case PutRoom(_) => InsertAtomic(s, sizes, th, top, extra, mx);
    case EraseKey(_) => RemoveAtomic(s, sizes, th, top, extra, mx);
    case JoinPair(_, _, _, _, _) => ApplyOk(s, WriteOf(s, th.key, th.pc.plan, top, extra, mx));
  }

  // ----- what other threads see of it -----

  /** The shift of a sound merge goes down, over keys the map does not hold. */
  lemma ShiftFacts(s: State, sizes: Caps, th: Thread, top: Id, extra: Id, mx: Key)
    requires Ready(s, sizes, th) && CanBody(s, th, th.pc.plan, th.pc.slot, top, extra, mx)
      && Faultless(s, th, top, extra, mx)
    ensures var sh := BodyShift(s, th, th.pc.plan, th.pc.slot, top, extra, mx);
            sh.level > 0 ==> sh.level >= 2 && sh.mx <= sh.sep && forall k :: k in s.m && sh.mx < k ==> sh.sep < k
  {
    var plan := th.pc.plan;
    if plan.JoinPair? {
      JoinReady(s, sizes, th);
      PairFacts(s, Par(plan.path).id, plan.i);
    }
  }

  /** A merge of leaves' parents moves no bound of another inner node. */
  lemma LowQuiet(s: State, sizes: Caps, th: Thread, top: Id, extra: Id, mx: Key, n: Id)
    requires Ready(s, sizes, th) && CanBody(s, th, th.pc.plan, th.pc.slot, top, extra, mx)
    requires BodyShift(s, th, th.pc.plan, th.pc.slot, top, extra, mx).level == 2
      && n !in BodySpan(s, th, th.pc.plan, th.pc.slot, top, extra, mx)
    requires n in s.info && s.heap[n].Inner? && s.info[n].level < 2
    ensures var sep := BodyShift(s, th, th.pc.plan, th.pc.slot, top, extra, mx).sep;
      s.info[n].lo != At(sep) && s.info[n].hi != At(sep)
  {
    LowShift(s, Par(th.pc.plan.path).id, th.pc.plan.i, n);
  }

  lemma BodyQuiet(s: State, sizes: Caps, th: Thread, top: Id, extra: Id, mx: Key, own: set<Id>)
    requires Ready(s, sizes, th) && CanBody(s, th, th.pc.plan, th.pc.slot, top, extra, mx)
      && Faultless(s, th, top, extra, mx)
    requires (forall n :: n in th.own ==> n in s.ver && !Unlocked(s.ver[n])) && th.own !! own
      && (forall n :: n in own ==> n in s.ver)
    ensures Quiet(s, Written(s, BodyTree(s, th, th.pc.plan, th.pc.slot, top, extra, mx)),
                  BodySpan(s, th, th.pc.plan, th.pc.slot, top, extra, mx), own,
                    BodyShift(s, th, th.pc.plan, th.pc.slot, top, extra, mx))
  {
    var plan, slot := th.pc.plan, th.pc.slot;
    var t, ws, sh := BodyTree(s, th, plan, slot, top, extra, mx), BodySpan(s, th, plan, slot, top, extra, mx),
      BodyShift(s, th, plan, slot, top, extra, mx);
    BodyOwned(s, sizes, th, top, extra, mx);
    BodyFrame(s, th, plan, slot, top, extra, mx);
    FrameWords(s, t, ws, sh);
    ShiftFacts(s, sizes, th, top, extra, mx);
    forall n | sh.level == 2 && n in s.info && n in s.heap && s.heap[n].Inner? && n !in ws && s.info[n].level < 2
      ensures s.info[n].lo != At(sh.sep) && s.info[n].hi != At(sh.sep)
    {
      LowQuiet(s, sizes, th, top, extra, mx, n);
    }
    forall n | n in s.ver ensures n in Written(s, t).ver && Written(s, t).ver[n] == s.ver[n] {
      assert n in s.heap && n in t.heap;
    }
  }

  /** The only leaf whose upper bound a merge of leaves' parents moves is the one in which it found its key. */
  lemma LowLeaf(s: State, sizes: Caps, th: Thread, top: Id, extra: Id, mx: Key, l: Id)
    requires Ready(s, sizes, th) && CanBody(s, th, th.pc.plan, th.pc.slot, top, extra, mx)
    requires BodyShift(s, th, th.pc.plan, th.pc.slot, top, extra, mx).level == 2 && l in s.info && s.heap[l].Leaf?
    requires s.info[l].hi == At(BodyShift(s, th, th.pc.plan, th.pc.slot, top, extra, mx).sep)
    ensures Pulls(s, th, l)
  {
    var plan := th.pc.plan;
    var p, a := Par(plan.path).id, plan.left.id;
    JoinReady(s, sizes, th);
    PairFacts(s, p, plan.i);
    var c := LastKid(s.heap[a]);
    assert s.info[c] == KidInfo(s.heap[a].keys, s.info[a], |s.heap[a].keys|);
    assert NodeOk(s, s.heap[c], s.info[c]) && NodeOk(s, s.heap[l], s.info[l]);
    assert c == l || Apart(s.info[c], s.info[l]);
  }

  /** A leaf is written either alone or together with its parent. */
  lemma WrittenLeaf(s: State, sizes: Caps, th: Thread, top: Id, extra: Id, mx: Key, a: Id, j: nat, l: Id)
    requires Ready(s, sizes, th) && CanBody(s, th, th.pc.plan, th.pc.slot, top, extra, mx)
    requires IsKid(s, a, j, l) && l in s.info && s.heap[l].Leaf?
      && l in BodySpan(s, th, th.pc.plan, th.pc.slot, top, extra, mx)
    ensures Writes(th, l) || a in th.own
  {
    var plan := th.pc.plan;
    if plan.JoinPair? {
      JoinReady(s, sizes, th);
      var p := Par(plan.path).id;
      OneParent(s, p, if l == plan.left.id then plan.i else plan.i + 1, a, j, l);
      assert Locks(plan)[0] == Par(plan.path);
      OwnedLive(s, th.own, Locks(plan), Par(plan.path));
    } else if plan.SplitNode? || plan.PutFull? {
      if |plan.path| > 1 {
        assert Locks(plan)[0] == Par(plan.path);
        OwnedLive(s, th.own, Locks(plan), Par(plan.path));
        OneParent(s, Par(plan.path).id, LowerBound(s.heap[Par(plan.path).id].keys, th.key), a, j, l);
      } else {
        RootIsTop(s, a, j);
      }
    }
  }

  /** The left node of a merge past its search is held and linked, and so is its last child. */
  lemma PullsKid(s: State, sizes: Caps, th: Thread, l: Id)
    requires Ready(s, sizes, th) && Pulls(s, th, l)
    ensures var a := th.pc.plan.left.id; a in th.own && IsKid(s, a, |s.heap[a].kids| - 1, l) && l in s.info
  {
    var plan := th.pc.plan;
    JoinReady(s, sizes, th);
    assert Locks(plan)[1] == plan.left;
    OwnedLive(s, th.own, Locks(plan), plan.left);
    assert NodeOk(s, s.heap[plan.left.id], s.info[plan.left.id]);
  }

  lemma BodyLeafQuiet(s: State, sizes: Caps, th: Thread, top: Id, extra: Id, mx: Key, ot: Thread)
    requires Ready(s, sizes, th) && CanBody(s, th, th.pc.plan, th.pc.slot, top, extra, mx)
      && Faultless(s, th, top, extra, mx)
    requires th.own !! ot.own && (ot.pc.Cleared? ==> SectionOk(s, sizes, ot))
    requires forall l :: Pulls(s, th, l) ==> !Writes(ot, l)
    requires forall l :: Pulls(s, ot, l) ==> !Writes(th, l)
    ensures LeafQuiet(s, Written(s, BodyTree(s, th, th.pc.plan, th.pc.slot, top, extra, mx)), ot,
                      BodyShift(s, th, th.pc.plan, th.pc.slot, top, extra, mx))
  {
    var plan, slot := th.pc.plan, th.pc.slot;
    var t, sh := BodyTree(s, th, plan, slot, top, extra, mx), BodyShift(s, th, plan, slot, top, extra, mx);
    BodyFrame(s, th, plan, slot, top, extra, mx);
    forall l | Writes(ot, l) && l in s.info && sh.level == 2 ensures s.info[l].hi != At(sh.sep) {
      if s.info[l].hi == At(sh.sep) { LowLeaf(s, sizes, th, top, extra, mx, l); }
    }
    forall l | Pulls(s, ot, l) ensures l in t.heap && t.heap[l] == s.heap[l] {
      PullsKid(s, sizes, ot, l);
      if l in BodySpan(s, th, plan, slot, top, extra, mx) {
        WrittenLeaf(s, sizes, th, top, extra, mx, ot.pc.plan.left.id, |s.heap[ot.pc.plan.left.id].kids| - 1, l);
      }
      assert l in t.heap;
    }
  }
}
