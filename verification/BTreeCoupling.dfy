/** The invariant of optimistic lock coupling, and what of it a step of another thread leaves alone. */
module BTreeCoupling {
  import opened SeqOps
  import opened BTreeHeap
  import opened BTreeSections
  import opened BTreeSize
  import opened BTreeOlc

  // ----- what a thread may rely on -----

  predicate Known(s: State, h: Held) {
    h.id in s.ver && h.id in s.heap && h.ver <= s.ver[h.id]
  }

  /** The node is as it was when its word was read: the word is unchanged, or only the thread itself has locked it
      since. */
  predicate Live(s: State, own: set<Id>, h: Held) {
    h.id in s.ver && (s.ver[h.id] == h.ver || (h.id in own && s.ver[h.id] == h.ver + 1))
  }

  /** The node is linked and covers the key, unless the key was absent at some moment of the descent. */
  ghost predicate Covers(s: State, th: Thread, n: Id) {
    n in s.info && (InRange(s.info[n], th.key) || th.strayed)
  }

  ghost predicate Here(s: State, own: set<Id>, th: Thread, h: Held) {
    && Known(s, h) && Unlocked(h.ver) && s.heap[h.id].Inner?
    && (Live(s, own, h) ==> Covers(s, th, h.id))
  }

  ghost predicate Link(s: State, own: set<Id>, th: Thread, h: Held, kid: Id) {
    Here(s, own, th, h) && (Live(s, own, h) ==> KidFor(s, h.id, th.key) == Some(kid))
  }

  ghost predicate PathOk(s: State, own: set<Id>, th: Thread, path: Path) {
    && |path| > 0 && Known(s, Last(path))
    && (forall j {:trigger path[j]} :: 0 <= j < |path| - 1 ==> Link(s, own, th, path[j], path[j + 1].id))
  }

  ghost predicate Rooted(s: State, own: set<Id>, path: Path) {
    |path| == 1 && Live(s, own, path[0]) ==> path[0].id == s.root
  }

  /** Only the repair of an inner node may have recorded a locked word. */
  predicate EndOk(s: State, path: Path) {
    |path| > 0 && Last(path).id in s.heap && (s.heap[Last(path).id].Leaf? ==> Unlocked(Last(path).ver))
  }

  predicate MendEnd(s: State, path: Path, careless: bool) {
    careless ==> |path| > 0 && Last(path).id in s.heap && s.heap[Last(path).id].Inner?
  }

  ghost predicate Donor(s: State, sizes: Caps, own: set<Id>, h: Held) {
    Known(s, h) && Unlocked(h.ver) && (Live(s, own, h) ==> Surplus(sizes, s.heap[h.id]) > 0)
  }

  ghost predicate PlanOk(s: State, sizes: Caps, th: Thread, plan: Plan) {
    && PlanShape(plan) && PathOk(s, th.own, th, plan.path)
    && (!plan.JoinPair? ==> Unlocked(Last(plan.path).ver) && Rooted(s, th.own, plan.path))
    && var n := Last(plan.path);
    match plan
    case SplitNode(_) => th.op.Insert? && s.heap[n.id].Inner? && (Live(s, th.own, n) ==> Full(sizes, s.heap[n.id]))
    case PutFull(_) => th.op.Insert? && s.heap[n.id].Leaf? && (Live(s, th.own, n) ==> Full(sizes, s.heap[n.id]))
    case PutRoom(_) => th.op.Insert? && s.heap[n.id].Leaf?
    case EraseKey(_) => th.op.Remove? && s.heap[n.id].Leaf?
    case JoinPair(path, i, left, right, how) =>
      && Known(s, left) && Known(s, right) && EndOk(s, path)
      && ((left == n && Unlocked(right.ver)) || (right == n && Unlocked(left.ver)))
      && (Live(s, th.own, Par(path)) ==> IsPair(s, Par(path).id, i, left.id, right.id))
      && (how.BorrowTo? ==> Donor(s, sizes, th.own, if how.left then right else left))
  }

  /** The last leaf below a merge of leaves' parents is as the search left it. */
  ghost predicate SlotOk(s: State, a: Id, slot: Slot) {
    a in s.heap && s.heap[a].Inner? && |s.heap[a].kids| > 0 ==>
      var c := LastKid(s.heap[a]);
      c in s.heap
      && (s.heap[c].Leaf? ==> slot.leaf == c && (|s.heap[c].keys| > 0 ==> slot.pos + 1 == |s.heap[c].keys|))
  }

  ghost predicate ClearedOk(s: State, th: Thread, plan: Plan, slot: Slot)
    requires PlanShape(plan)
  {
    && (plan.PutRoom? || plan.EraseKey? ==> Covers(s, th, Last(plan.path).id))
    && (plan.JoinPair? && plan.how.MergePair? ==> SlotOk(s, plan.left.id, slot))
  }

  predicate HasLocks(s: State, own: set<Id>, hs: seq<Held>) {
    && own == IdsOf(hs)
    && (forall h {:trigger h in hs} :: h in hs ==> Unlocked(h.ver) && h.id in s.ver && s.ver[h.id] == h.ver + 1)
  }

  // ----- what the call has done -----

  /** The map held answer `r` for the thread's key at some moment of its call. */
  ghost predicate Was(hist: seq<map<Key, Value>>, th: Thread, r: Option<Value>) {
    exists j :: th.start <= j < |hist| && MapGet(hist[j], th.key) == r
  }

  /** One step took the map from `m` to `m'` as the call asks for and reports. */
  predicate Took(th: Thread, m: map<Key, Value>, m': map<Key, Value>) {
    match th.op
    case Lookup => true
    case Insert(v) => m' == (if th.key in m then m else m[th.key := v]) && th.ret == (th.key !in m)
    case Remove => m' == m - {th.key} && th.ret == (th.key in m)
  }

  ghost predicate TookIn(hist: seq<map<Key, Value>>, th: Thread) {
    exists j :: th.start <= j < |hist| - 1 && Took(th, hist[j], hist[j + 1])
  }

  /** The call took effect in one step of its own.  A remove that strayed may instead report failure, and then the key
      was absent at some moment of the call. */
  ghost predicate Done(hist: seq<map<Key, Value>>, th: Thread) {
    TookIn(hist, th) || (th.op.Remove? && !th.ret && Was(hist, th, None)) || th.op.Lookup?
  }

  predicate PastBody(pc: Pc) {
    match pc
    case Locking(plan, _) => plan.JoinPair?
    case Cleared(plan, _) => plan.JoinPair?
    case Releasing(next) => !next.Again?
    case Reread(_, _) => true
    case Mending(_) => true
    case Choosing(_) => true
    case Sibling(_, _, _, _) => true
    case Sized(_, _, _, _) => true
    case Ended(_) => true
    case _ => false
  }

  // ----- the invariant -----

  ghost predicate PairedWith(s: State, path: Path, i: nat, sib: Id, onLeft: bool)
    requires |path| > 1
  {
    Same(s, Par(path)) ==>
      if onLeft then IsPair(s, Par(path).id, i, sib, Last(path).id) else IsPair(s, Par(path).id, i, Last(path).id, sib)
  }

  ghost predicate DescentOk(s: State, th: Thread, hist: seq<map<Key, Value>>) {
    match th.pc
    case GotRoot(n) => n in s.ver && n in s.heap
    case GotVer(n) => Known(s, n) && Unlocked(n.ver)
    case AtNode(path) => PathOk(s, {}, th, path) && Unlocked(Last(path).ver) && Rooted(s, {}, path)
    case Down(path) => PathOk(s, {}, th, path) && Here(s, {}, th, Last(path))
    case ReadKid(path, kid) => PathOk(s, {}, th, path) && Link(s, {}, th, Last(path), kid)
    case Checked(path, kid) => PathOk(s, {}, th, path) && Link(s, {}, th, Last(path), kid) && kid in s.heap
    case ReadLeaf(path, res) =>
      && PathOk(s, {}, th, path) && Unlocked(Last(path).ver) && Rooted(s, {}, path) && s.heap[Last(path).id].Leaf?
      && (Same(s, Last(path)) ==> res == LeafGet(s.heap[Last(path).id], th.key))
    case ParOk(n, res) => Known(s, n) && Unlocked(n.ver) && (Same(s, n) ==> Was(hist, th, res))
    case Found(res) => Was(hist, th, res)
    case _ => true
  }

  ghost predicate SectionOk(s: State, sizes: Caps, th: Thread) {
    match th.pc
    case Locking(plan, got) =>
      PlanOk(s, sizes, th, plan) && got <= |Locks(plan)| && HasLocks(s, th.own, Locks(plan)[..got])
    case Cleared(plan, slot) =>
      PlanOk(s, sizes, th, plan) && HasLocks(s, th.own, Locks(plan)) && ClearedOk(s, th, plan, slot)
    case Releasing(next) => next.Mend? ==> PathOk(s, {}, th, next.path) && MendEnd(s, next.path, next.careless)
    case _ => true
  }

  ghost predicate MendOk(s: State, th: Thread) {
    match th.pc
    case Reread(path, careless) => PathOk(s, {}, th, path) && MendEnd(s, path, careless)
    case Mending(path) => PathOk(s, {}, th, path) && EndOk(s, path)
    case Choosing(path) => PathOk(s, {}, th, path) && EndOk(s, path)
    case Sibling(path, i, sib, onLeft) =>
      PathOk(s, {}, th, path) && EndOk(s, path) && |path| > 1 && sib in s.heap && PairedWith(s, path, i, sib, onLeft)
    case Sized(path, i, sib, onLeft) =>
      && PathOk(s, {}, th, path) && EndOk(s, path) && |path| > 1
      && Known(s, sib) && Unlocked(sib.ver) && PairedWith(s, path, i, sib.id, onLeft)
    case _ => true
  }

  // ----- room in the pages -----

  /** As long as the node is as it was when its word was read, it is not full. */
  predicate Roomy(s: State, sizes: Caps, own: set<Id>, h: Held) {
    Known(s, h) && Unlocked(h.ver) && (Live(s, own, h) ==> !Full(sizes, s.heap[h.id]))
  }

  predicate RoomPath(s: State, sizes: Caps, own: set<Id>, path: Path, n: int) {
    forall j {:trigger path[j]} :: 0 <= j < n && j < |path| ==> Roomy(s, sizes, own, path[j])
  }

  predicate FitTogether(c: Caps, a: Node, b: Node) {
    HasSpace(c, a, |b.keys|) || HasSpace(c, b, |a.keys|)
  }

  ghost predicate JoinRoom(s: State, sizes: Caps, own: set<Id>, a: Held, b: Held) {
    && Known(s, a) && Known(s, b)
    && (Unlocked(a.ver) && Unlocked(b.ver) && Live(s, own, a) && Live(s, own, b) ==>
          FitTogether(sizes, s.heap[a.id], s.heap[b.id]))
  }

  ghost predicate PlanRoom(s: State, sizes: Caps, th: Thread, plan: Plan) {
    if plan.JoinPair? then plan.how.MergePair? ==> JoinRoom(s, sizes, th.own, plan.left, plan.right)
    else
      && RoomPath(s, sizes, th.own, plan.path, |plan.path| - 1)
      && (plan.PutRoom? && |plan.path| > 0 ==> Roomy(s, sizes, th.own, Last(plan.path)))
  }

  /** Where an insert has passed there was room, and a merge has been planned where there was space. */
  ghost predicate RoomOk(s: State, sizes: Caps, th: Thread) {
    match th.pc
    case AtNode(path) => th.op.Insert? ==> RoomPath(s, sizes, th.own, path, |path| - 1)
    case Down(path) => th.op.Insert? ==> RoomPath(s, sizes, th.own, path, |path|)
    case ReadKid(path, _) => th.op.Insert? ==> RoomPath(s, sizes, th.own, path, |path|)
    case Checked(path, _) => th.op.Insert? ==> RoomPath(s, sizes, th.own, path, |path|)
    case Locking(plan, _) => th.op.Insert? || plan.JoinPair? ==> PlanRoom(s, sizes, th, plan)
    case Cleared(plan, _) => th.op.Insert? || plan.JoinPair? ==> PlanRoom(s, sizes, th, plan)
    case _ => true
  }

  predicate InSection(pc: Pc) {
    pc.Locking? || pc.Cleared? || pc.Releasing?
  }

  predicate InMend(pc: Pc) {
    pc.Reread? || pc.Mending? || pc.Choosing? || pc.Sibling? || pc.Sized?
  }

  ghost predicate PcOk(s: State, sizes: Caps, th: Thread, hist: seq<map<Key, Value>>) {
    if InSection(th.pc) then SectionOk(s, sizes, th)
    else if InMend(th.pc) then MendOk(s, th)
    else if th.pc.Ended? then th.pc.ok == th.ret
    else DescentOk(s, th, hist)
  }

  ghost predicate ThreadOk(s: State, sizes: Caps, th: Thread, hist: seq<map<Key, Value>>) {
    && th.start < |hist| && (th.strayed ==> Was(hist, th, None)) && (PastBody(th.pc) ==> Done(hist, th))
    && (th.own != {} ==> InSection(th.pc))
    && PcOk(s, sizes, th, hist) && RoomOk(s, sizes, th)
  }

  ghost predicate ThreadsOk(g: Global, hist: seq<map<Key, Value>>) {
    forall t {:trigger g.threads[t]} :: t in g.threads ==> ThreadOk(g.tree, g.sizes, g.threads[t], hist)
  }

  /** A node is locked exactly while one thread holds it. */
  ghost predicate LocksOk(g: Global) {
    && (forall t, n {:trigger n in g.threads[t].own} ::
       t in g.threads && n in g.threads[t].own ==> n in g.tree.ver && !Unlocked(g.tree.ver[n]))
    && (forall t, u {:trigger g.threads[t], g.threads[u]} ::
       t in g.threads && u in g.threads && t != u ==> g.threads[t].own !! g.threads[u].own)
    && (forall n {:trigger g.tree.ver[n]} ::
       n in g.tree.ver && !Unlocked(g.tree.ver[n]) ==> exists t :: t in g.threads && n in g.threads[t].own)
  }

  /** The thread is past its checks and about to write leaf `l` alone. */
  predicate Writes(th: Thread, l: Id) {
    th.pc.Cleared? && (th.pc.plan.PutRoom? || th.pc.plan.EraseKey?) && PlanShape(th.pc.plan)
      && Last(th.pc.plan.path).id == l
  }

  /** The thread merges leaves' parents and has found the largest key below the left one in leaf `l`. */
  ghost predicate Pulls(s: State, th: Thread, l: Id) {
    && th.pc.Cleared? && th.pc.plan.JoinPair? && th.pc.plan.how.MergePair? && th.pc.plan.left.id in s.heap
    && var a := s.heap[th.pc.plan.left.id];
       a.Inner? && |a.kids| > 0 && LastKid(a) == l && l in s.heap && s.heap[l].Leaf?
  }

  /** Nobody is about to write the leaf in which a merge of leaves' parents has found its key. */
  ghost predicate PullsOk(g: Global) {
    forall t, u, l {:trigger Pulls(g.tree, g.threads[t], l), Writes(g.threads[u], l)} ::
      t in g.threads && u in g.threads && Pulls(g.tree, g.threads[t], l) ==> !Writes(g.threads[u], l)
  }

  ghost predicate Inv(g: Global, hist: seq<map<Key, Value>>) {
    && WF(g.tree) && |hist| > 0 && hist[|hist| - 1] == g.tree.m && g.sizes.leaf >= 3 && g.sizes.inner >= 3
    && MaxOk(g.tree, g.sizes) && ThreadsOk(g, hist) && LocksOk(g) && PullsOk(g)
  }

  // ----- what carries over from one state to the next -----

  /** Whatever the thread relies on in `s`, owning `own`, it may rely on in `t`, owning `own2`. */
  ghost predicate Carries(s: State, own: set<Id>, th: Thread, t: State, own2: set<Id>, th2: Thread) {
    && th2.key == th.key && th2.op == th.op
    && (forall n {:trigger n in t.heap} :: n in s.heap ==> n in t.heap && t.heap[n].Inner? == s.heap[n].Inner?)
    && (forall n {:trigger n in t.ver} :: n in s.ver ==> n in t.ver && s.ver[n] <= t.ver[n])
    && (forall h {:trigger Live(t, own2, h)} :: Known(s, h) && Unlocked(h.ver) && Live(t, own2, h) ==>
          && Live(s, own, h) && h.id in t.heap && t.heap[h.id] == s.heap[h.id] && (h.id == s.root ==> h.id == t.root)
          && (s.heap[h.id].Inner? && Covers(s, th, h.id) ==> Covers(t, th2, h.id)))
  }

  lemma LinkKeep(s: State, own: set<Id>, th: Thread, t: State, own2: set<Id>, th2: Thread, h: Held, kid: Id)
    requires Carries(s, own, th, t, own2, th2) && Link(s, own, th, h, kid)
    ensures Link(t, own2, th2, h, kid)
  {
    assert h.id in t.heap && h.id in t.ver;
  }

  lemma HereKeep(s: State, own: set<Id>, th: Thread, t: State, own2: set<Id>, th2: Thread, h: Held)
    requires Carries(s, own, th, t, own2, th2) && Here(s, own, th, h)
    ensures Here(t, own2, th2, h)
  {
    assert h.id in t.heap && h.id in t.ver;
  }

  lemma PathKeep(s: State, own: set<Id>, th: Thread, t: State, own2: set<Id>, th2: Thread, path: Path)
    requires Carries(s, own, th, t, own2, th2) && PathOk(s, own, th, path)
    ensures PathOk(t, own2, th2, path)
  {
    assert Last(path).id in t.heap && Last(path).id in t.ver;
    forall j | 0 <= j < |path| - 1 ensures Link(t, own2, th2, path[j], path[j + 1].id) {
      LinkKeep(s, own, th, t, own2, th2, path[j], path[j + 1].id);
    }
  }

  lemma ParIsLink(s: State, own: set<Id>, th: Thread, path: Path)
    requires PathOk(s, own, th, path) && |path| > 1
    ensures Link(s, own, th, Par(path), Last(path).id)
  {
    assert path[|path| - 2] == Par(path);
  }

  lemma PlanKeep(s: State, sizes: Caps, th: Thread, t: State, th2: Thread, plan: Plan)
    requires Carries(s, th.own, th, t, th2.own, th2) && PlanOk(s, sizes, th, plan)
    ensures PlanOk(t, sizes, th2, plan)
  {
    PathKeep(s, th.own, th, t, th2.own, th2, plan.path);
    assert Last(plan.path).id in t.heap && Last(plan.path).id in t.ver;
    if plan.JoinPair? {
      ParIsLink(s, th.own, th, plan.path);
      assert plan.left.id in t.heap && plan.left.id in t.ver && plan.right.id in t.heap && plan.right.id in t.ver;
      if Live(t, th2.own, Par(plan.path)) {
        assert IsPair(s, Par(plan.path).id, plan.i, plan.left.id, plan.right.id);
      }
    }
  }

  lemma RoomyKeep(s: State, sizes: Caps, own: set<Id>, th: Thread, t: State, own2: set<Id>, th2: Thread, h: Held)
    requires Carries(s, own, th, t, own2, th2) && Roomy(s, sizes, own, h)
    ensures Roomy(t, sizes, own2, h)
  {
    assert h.id in t.heap && h.id in t.ver;
  }

  lemma RoomPathKeep(s: State, sizes: Caps, own: set<Id>, th: Thread, t: State, own2: set<Id>, th2: Thread, path: Path,
          n: int)
    requires Carries(s, own, th, t, own2, th2) && RoomPath(s, sizes, own, path, n)
    ensures RoomPath(t, sizes, own2, path, n)
  {
    forall j | 0 <= j < n && j < |path| ensures Roomy(t, sizes, own2, path[j]) {
      RoomyKeep(s, sizes, own, th, t, own2, th2, path[j]);
    }
  }

  lemma PlanRoomKeep(s: State, sizes: Caps, th: Thread, t: State, th2: Thread, plan: Plan)
    requires Carries(s, th.own, th, t, th2.own, th2) && PlanRoom(s, sizes, th, plan)
    ensures PlanRoom(t, sizes, th2, plan)
  {
    if plan.JoinPair? {
      if plan.how.MergePair? {
        assert plan.left.id in t.heap && plan.left.id in t.ver && plan.right.id in t.heap && plan.right.id in t.ver;
      }
    } else {
      RoomPathKeep(s, sizes, th.own, th, t, th2.own, th2, plan.path, |plan.path| - 1);
      if plan.PutRoom? && |plan.path| > 0 { RoomyKeep(s, sizes, th.own, th, t, th2.own, th2, Last(plan.path)); }
    }
  }

  lemma RoomKeep(s: State, sizes: Caps, th: Thread, t: State, th2: Thread)
    requires Carries(s, th.own, th, t, th2.own, th2) && RoomOk(s, sizes, th) && th2.pc == th.pc
    ensures RoomOk(t, sizes, th2)
  {
    if th.op.Insert? {
      match th.pc
      case AtNode(path) => RoomPathKeep(s, sizes, th.own, th, t, th2.own, th2, path, |path| - 1);
      case Down(path) => RoomPathKeep(s, sizes, th.own, th, t, th2.own, th2, path, |path|);
      case ReadKid(path, _) => RoomPathKeep(s, sizes, th.own, th, t, th2.own, th2, path, |path|);
      case Checked(path, _) => RoomPathKeep(s, sizes, th.own, th, t, th2.own, th2, path, |path|);
      case _ =>
    }
    if (th.pc.Locking? || th.pc.Cleared?) && (th.op.Insert? || th.pc.plan.JoinPair?) {
      PlanRoomKeep(s, sizes, th, t, th2, th.pc.plan);
    }
  }

  lemma PathPop(s: State, own: set<Id>, th: Thread, path: Path)
    requires PathOk(s, own, th, path) && |path| > 1
    ensures PathOk(s, own, th, path[..|path| - 1])
  {
    var q := path[..|path| - 1];
    forall j | 0 <= j < |q| - 1 ensures Link(s, own, th, q[j], q[j + 1].id) {
      assert Link(s, own, th, path[j], path[j + 1].id);
    }
    ParIsLink(s, own, th, path);
  }

  lemma WasGrows(hist: seq<map<Key, Value>>, m: map<Key, Value>, th: Thread, th2: Thread, r: Option<Value>)
    requires Was(hist, th, r) && th2.start == th.start && th2.key == th.key
    ensures Was(hist, th2, r) && Was(hist + [m], th2, r)
  {
    var j :| th.start <= j < |hist| && MapGet(hist[j], th.key) == r;
    assert (hist + [m])[j] == hist[j];
  }

  lemma WasNow(hist: seq<map<Key, Value>>, m: map<Key, Value>, th: Thread)
    requires th.start < |hist| && hist[|hist| - 1] == m
    ensures Was(hist, th, MapGet(m, th.key))
  {
    assert MapGet(hist[|hist| - 1], th.key) == MapGet(m, th.key);
  }

  lemma DoneGrows(hist: seq<map<Key, Value>>, m: map<Key, Value>, th: Thread, th2: Thread)
    requires Done(hist, th) && th2.start == th.start && th2.key == th.key && th2.op == th.op && th2.ret == th.ret
    ensures Done(hist, th2) && Done(hist + [m], th2)
  {
    if TookIn(hist, th) {
      var j :| th.start <= j < |hist| - 1 && Took(th, hist[j], hist[j + 1]);
      assert Took(th2, hist[j], hist[j + 1]);
      assert (hist + [m])[j] == hist[j] && (hist + [m])[j + 1] == hist[j + 1];
    } else if th.op.Remove? {
      WasGrows(hist, m, th, th2, None);
    }
  }

  // ----- a step of another thread -----

  /** Seen by a thread that owns `own`: the nodes in `ws`, locked by another, may have changed, ranges may have shifted,
      and words may have grown, but not those of its own nodes. */
  ghost predicate Quiet(s: State, t: State, ws: set<Id>, own: set<Id>, sh: Shift) {
    && Frame(s, t, ws, sh.level, sh.sep, sh.mx)
    && (forall n {:trigger n in t.ver} :: n in s.ver ==> n in t.ver && s.ver[n] <= t.ver[n])
    && (forall n {:trigger n in ws} :: n in ws ==> n in s.ver && !Unlocked(s.ver[n]))
    && ws !! own && (forall n {:trigger n in own} :: n in own ==> n in s.ver && n in t.ver && t.ver[n] == s.ver[n])
    && (sh.level > 0 ==> sh.mx <= sh.sep && sh.level >= 2)
    && (sh.level == 2 ==> forall n {:trigger s.info[n]} ::
          n in s.info && n in s.heap && s.heap[n].Inner? && n !in ws && s.info[n].level < 2 ==>
          s.info[n].lo != At(sh.sep) && s.info[n].hi != At(sh.sep))
  }

  lemma CoversKeep(s: State, t: State, ws: set<Id>, own: set<Id>, sh: Shift, th: Thread, n: Id)
    requires Quiet(s, t, ws, own, sh) && Covers(s, th, n) && n !in ws && n in s.heap
    requires s.heap[n].Inner? || sh.level != 2 || s.info[n].hi != At(sh.sep)
    ensures Covers(t, Mark(th, sh), n)
  {
    assert n in t.info && t.info[n] == Shifted(s.info[n], sh.level, sh.sep, sh.mx);
  }

  lemma QuietCarries(s: State, t: State, ws: set<Id>, own: set<Id>, sh: Shift, th: Thread)
    requires Quiet(s, t, ws, own, sh)
    ensures Carries(s, own, th, t, own, Mark(th, sh))
  {
    forall h | Known(s, h) && Unlocked(h.ver) && Live(t, own, h)
      ensures Live(s, own, h) && h.id in t.heap && t.heap[h.id] == s.heap[h.id] && (h.id == s.root ==> h.id == t.root)
      ensures s.heap[h.id].Inner? && Covers(s, th, h.id) ==> Covers(t, Mark(th, sh), h.id)
    {
      assert h.id in own ==> t.ver[h.id] == s.ver[h.id];
      assert h.id in t.heap && h.id in t.ver && h.id !in ws;
      if s.heap[h.id].Inner? && Covers(s, th, h.id) {
        CoversKeep(s, t, ws, own, sh, th, h.id);
      }
    }
  }

  lemma LocksKeep(s: State, t: State, ws: set<Id>, sh: Shift, own: set<Id>, hs: seq<Held>)
    requires Quiet(s, t, ws, own, sh) && HasLocks(s, own, hs)
    ensures HasLocks(t, own, hs)
  {
    forall h | h in hs ensures h.id in t.ver && t.ver[h.id] == h.ver + 1 {
      assert h.id in own;
    }
  }

  /** What a section that is past its checks relies on beyond its plan. */
  ghost predicate LeafQuiet(s: State, t: State, th: Thread, sh: Shift) {
    && (forall l {:trigger Writes(th, l)} ::
       Writes(th, l) && l in s.info && sh.level == 2 ==> s.info[l].hi != At(sh.sep))
    && (forall l {:trigger Pulls(s, th, l)} :: Pulls(s, th, l) ==> l in t.heap && t.heap[l] == s.heap[l])
  }

  lemma ClearedKeep(s: State, t: State, sizes: Caps, ws: set<Id>, sh: Shift, th: Thread, plan: Plan, slot: Slot)
    requires Quiet(s, t, ws, th.own, sh) && th.pc == Cleared(plan, slot) && LeafQuiet(s, t, th, sh)
    requires PlanOk(s, sizes, th, plan) && HasLocks(s, th.own, Locks(plan)) && ClearedOk(s, th, plan, slot)
    ensures ClearedOk(t, Mark(th, sh), plan, slot)
  {
    if plan.PutRoom? || plan.EraseKey? {
      var n := Last(plan.path);
      assert n in Locks(plan) && n.id in th.own;
      assert Writes(th, n.id);
      CoversKeep(s, t, ws, th.own, sh, th, n.id);
    } else if plan.JoinPair? && plan.how.MergePair? {
      assert plan.left in Locks(plan) && plan.left.id in th.own;
      var a := plan.left.id;
      assert a in t.heap && t.heap[a] == s.heap[a];
      if s.heap[a].Inner? && |s.heap[a].kids| > 0 {
        var c := LastKid(s.heap[a]);
        assert c in t.heap;
        if s.heap[c].Leaf? {
          assert Pulls(s, th, c);
        }
      }
    }
  }

  /** The program counters at which a thread holds no lock and relies on a path. */
  predicate OnPath(pc: Pc) {
    pc.AtNode? || pc.Down? || pc.ReadKid? || pc.Checked? || pc.ReadLeaf? || InMend(pc)
  }

  lemma DescentKeep(s: State, th: Thread, hist: seq<map<Key, Value>>, t: State, th2: Thread,
          hist2: seq<map<Key, Value>>)
    requires Carries(s, {}, th, t, {}, th2) && DescentOk(s, th, hist) && th2.pc == th.pc && OnPath(th.pc)
      && !InMend(th.pc)
    ensures DescentOk(t, th2, hist2)
  {
    var path := th.pc.path;
    PathKeep(s, {}, th, t, {}, th2, path);
    assert Last(path).id in t.heap && Last(path).id in t.ver;
    match th.pc
    case AtNode(_) =>
    case Down(_) => HereKeep(s, {}, th, t, {}, th2, Last(path));
    case ReadKid(_, kid) => LinkKeep(s, {}, th, t, {}, th2, Last(path), kid);
    case Checked(_, kid) => LinkKeep(s, {}, th, t, {}, th2, Last(path), kid);
    case ReadLeaf(_, _) => assert Same(t, Last(path)) == Live(t, {}, Last(path));
  }

  lemma MendPathKeep(s: State, th: Thread, t: State, th2: Thread)
    requires Carries(s, {}, th, t, {}, th2) && MendOk(s, th) && th2.pc == th.pc && InMend(th.pc)
    ensures MendOk(t, th2)
  {
    var path := th.pc.path;
    PathKeep(s, {}, th, t, {}, th2, path);
    assert Last(path).id in t.heap;
    if th.pc.Sibling? || th.pc.Sized? {
      ParIsLink(s, {}, th, path);
      assert Same(t, Par(path)) == Live(t, {}, Par(path));
    }
    match th.pc
    case Sibling(_, _, sib, _) => assert sib in t.heap;
    case Sized(_, _, sib, _) => assert sib.id in t.heap && sib.id in t.ver;
    case _ =>
  }

  lemma HeldKeep(s: State, t: State, sizes: Caps, ws: set<Id>, sh: Shift, th: Thread)
    requires Quiet(s, t, ws, th.own, sh) && SectionOk(s, sizes, th) && LeafQuiet(s, t, th, sh) && InSection(th.pc)
    ensures SectionOk(t, sizes, Mark(th, sh))
  {
    var th2 := Mark(th, sh);
    QuietCarries(s, t, ws, th.own, sh, th);
    match th.pc
    case Locking(plan, got) =>
      PlanKeep(s, sizes, th, t, th2, plan);
      LocksKeep(s, t, ws, sh, th.own, Locks(plan)[..got]);
    case Cleared(plan, slot) =>
      PlanKeep(s, sizes, th, t, th2, plan);
      LocksKeep(s, t, ws, sh, th.own, Locks(plan));
      ClearedKeep(s, t, sizes, ws, sh, th, plan, slot);
    case Releasing(next) =>
      QuietCarries(s, t, ws, {}, sh, th);
      if next.Mend? {
        PathKeep(s, {}, th, t, {}, th2, next.path);
        assert Last(next.path).id in t.heap;
      }
  }

  lemma PcKeep(s: State, t: State, sizes: Caps, ws: set<Id>, sh: Shift, th: Thread, hist: seq<map<Key, Value>>,
          m: map<Key, Value>)
    requires Quiet(s, t, ws, th.own, sh) && PcOk(s, sizes, th, hist) && LeafQuiet(s, t, th, sh)
    ensures PcOk(t, sizes, Mark(th, sh), hist + [m])
  {
    var th2 := Mark(th, sh);
    QuietCarries(s, t, ws, {}, sh, th);
    if InSection(th.pc) {
      HeldKeep(s, t, sizes, ws, sh, th);
    } else if InMend(th.pc) {
      MendPathKeep(s, th, t, th2);
    } else if OnPath(th.pc) {
      DescentKeep(s, th, hist, t, th2, hist + [m]);
    } else {
      match th.pc
      case GotRoot(n) => assert n in t.ver && n in t.heap;
      case GotVer(n) => assert n.id in t.ver && n.id in t.heap;
      case ParOk(n, res) =>
        assert n.id in t.ver && n.id in t.heap;
        if Same(t, n) { WasGrows(hist, m, th, th2, res); }
      case Found(res) => WasGrows(hist, m, th, th2, res);
      case _ =>
    }
  }

  lemma ThreadKeep(s: State, t: State, sizes: Caps, ws: set<Id>, sh: Shift, th: Thread, hist: seq<map<Key, Value>>)
    requires |hist| > 0 && hist[|hist| - 1] == s.m && ThreadOk(s, sizes, th, hist)
    requires Quiet(s, t, ws, th.own, sh) && LeafQuiet(s, t, th, sh)
    requires sh.level > 0 && sh.mx < th.key <= sh.sep ==> th.key !in s.m
    ensures ThreadOk(t, sizes, Mark(th, sh), hist + [t.m])
  {
    var th2 := Mark(th, sh);
    PcKeep(s, t, sizes, ws, sh, th, hist, t.m);
    QuietCarries(s, t, ws, th.own, sh, th);
    RoomKeep(s, sizes, th, t, th2);
    if th2.strayed {
      if !th.strayed { WasNow(hist, s.m, th); }
      WasGrows(hist, t.m, th, th2, None);
    }
    if PastBody(th.pc) { DoneGrows(hist, t.m, th, th2); }
  }
}
