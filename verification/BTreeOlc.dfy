/** Optimistic lock coupling over the node heap: any number of lookups, inserts and removes.  Every read of a lock word,
    every page read, every upgrade of a word to a write lock, every section that changes pages and every unlock is a
    step of its own, and the steps of all threads interleave freely.  The lock word of a node is `tree.ver`: even when
    unlocked, odd while a writer holds the node.  A page read under a word that has since changed may be torn and yields
    anything.  What a writer does to its locked pages is one step: no other thread can tell when it happens between the
    last upgrade and the first unlock. */
module BTreeOlc {
  import opened SeqOps
  import opened BTreeHeap
  import opened BTreeSections
  import opened BTreeSize

  // ----- threads -----

  type Tid = nat

  datatype Op = Lookup | Insert(val: Value) | Remove

  /** A node and the lock word that was read from it. */
  datatype Held = Held(id: Id, ver: nat)

  /** The nodes of a descent, from the root to the current node. */
  type Path = seq<Held>

  datatype How = BorrowTo(left: bool) | MergePair

  /** A section to come.  The first four work on the last node of the path; the last repairs it with a sibling, child
      `i` or `i + 1` of the node before it. */
  datatype Plan =
    | SplitNode(path: Path)
    | PutFull(path: Path)
    | PutRoom(path: Path)
    | EraseKey(path: Path)
    | JoinPair(path: Path, i: nat, left: Held, right: Held, how: How)

  /** The place in a leaf at which the search for the largest key below a node ended. */
  datatype Slot = Slot(leaf: Id, pos: nat)

  /** What follows a section: the call begins again, ends, or goes on to repair the last node of a path.  The repair
      reads that node's lock word again; if `careless`, it ignores that the word is locked. */
  datatype Next = Again | Finish | Mend(path: Path, careless: bool)

  datatype Pc =
    | Begin
    | GotRoot(top: Id)
    | GotVer(n: Held)
    | AtNode(path: Path)
    | Down(path: Path)
    | ReadKid(path: Path, kid: Id)
    | Checked(path: Path, kid: Id)
    | ReadLeaf(path: Path, res: Option<Value>)
    | ParOk(n: Held, res: Option<Value>)
    | Found(res: Option<Value>)
    | Locking(plan: Plan, got: nat)
    | Cleared(plan: Plan, slot: Slot)
    | Releasing(next: Next)
    | Reread(path: Path, careless: bool)
    | Mending(path: Path)
    | Choosing(path: Path)
    | Sibling(path: Path, i: nat, sib: Id, onLeft: bool)
    | Sized(path: Path, i: nat, s: Held, onLeft: bool)
    | Ended(ok: bool)

  /** `own` are the nodes whose lock the thread holds and `ret` is what it will report.  `start` and `strayed` are
      auxiliary: the index in the run of the state in which the call began, and whether, since its last descent began,
      a merge above the leaves' parents has moved a separator past the key. */
  datatype Thread = Thread(op: Op, key: Key, pc: Pc, own: set<Id>, ret: bool, start: nat, strayed: bool)

  datatype Global = Global(tree: State, threads: map<Tid, Thread>, sizes: Caps)

  predicate Unlocked(ver: nat) {
    ver % 2 == 0
  }

  function Last(path: Path): Held
    requires |path| > 0
  {
    path[|path| - 1]
  }

  function Par(path: Path): Held
    requires |path| > 1
  {
    path[|path| - 2]
  }

  predicate PlanShape(plan: Plan) {
    |plan.path| > if plan.JoinPair? then 1 else 0
  }

  /** The locks of a section, in the order in which they are taken: top to bottom, left to right. */
  function Locks(plan: Plan): seq<Held>
    requires PlanShape(plan)
  {
    match plan
    case SplitNode(path) => if |path| > 1 then [Par(path), Last(path)] else [Last(path)]
    case PutFull(path) => if |path| > 1 then [Par(path), Last(path)] else [Last(path)]
    case PutRoom(path) => [Last(path)]
    case EraseKey(path) => [Last(path)]
    case JoinPair(path, _, left, right, _) => [Par(path), left, right]
  }

  function IdsOf(hs: seq<Held>): set<Id> {
    set h | h in hs :: h.id
  }

  predicate Same(s: State, h: Held) {
    h.id in s.ver && s.ver[h.id] == h.ver
  }

  predicate ParSame(s: State, path: Path) {
    |path| <= 1 || Same(s, Par(path))
  }

  ghost predicate IsPair(s: State, p: Id, i: nat, a: Id, b: Id) {
    p in s.heap && s.heap[p].Inner? && i + 1 < |s.heap[p].kids| && s.heap[p].kids[i] == a && s.heap[p].kids[i + 1] == b
  }

  // ----- steps that change neither a page nor a word -----

  ghost predicate AtInner(g: Global, th: Thread, path: Path, pc: Pc)
    requires |path| > 0 && Last(path).id in g.tree.heap
  {
    || (&& ParSame(g.tree, path) && pc == Down(path)
        && (th.op.Insert? && Same(g.tree, Last(path)) ==> !Full(g.sizes, g.tree.heap[Last(path).id])))
    || (&& th.op.Insert? && pc == Locking(SplitNode(path), 0)
        && (Same(g.tree, Last(path)) ==> Full(g.sizes, g.tree.heap[Last(path).id])))
  }

  ghost predicate AtLeaf(g: Global, th: Thread, path: Path, pc: Pc)
    requires |path| > 0 && Last(path).id in g.tree.heap && g.tree.heap[Last(path).id].Leaf?
  {
    var s, n := g.tree, Last(path);
    match th.op
    case Lookup => pc.ReadLeaf? && pc.path == path && (Same(s, n) ==> pc.res == LeafGet(s.heap[n.id], th.key))
    case Insert(_) => ParSame(s, path) &&
      (|| (pc == Locking(PutFull(path), 0) && (Same(s, n) ==> Full(g.sizes, s.heap[n.id])))
       || (pc == Locking(PutRoom(path), 0) && (Same(s, n) ==> !Full(g.sizes, s.heap[n.id]))))
    case Remove => pc == Locking(EraseKey(path), 0)
  }

  /** The search for the largest key below `a`.  Above the leaves' parents it may end anywhere: by the time the key is
      copied the leaf can have changed.  Below a leaves' parent, which the section has locked, it waits for the last
      leaf to be unlocked; if that leaf is empty, it ends before the first entry, at memory that may hold anything. */
  ghost predicate FindsMax(s: State, a: Id, slot: Slot) {
    a in s.heap && s.heap[a].Inner? && |s.heap[a].kids| > 0 ==>
      var c := LastKid(s.heap[a]);
      c in s.heap && c in s.ver && s.heap[c].Leaf? ==>
        slot.leaf == c && Unlocked(s.ver[c]) && (|s.heap[c].keys| > 0 ==> slot.pos == |s.heap[c].keys| - 1)
  }

  /** The check after the last lock was taken. */
  ghost predicate Clears(s: State, plan: Plan, slot: Slot)
    requires PlanShape(plan)
  {
    match plan
    case SplitNode(path) => |path| > 1 || s.root == Last(path).id
    case PutFull(path) => |path| > 1 || s.root == Last(path).id
    case PutRoom(path) => ParSame(s, path)
    case EraseKey(path) => ParSame(s, path)
    case JoinPair(_, _, left, _, how) => how.MergePair? ==> FindsMax(s, left.id, slot)
  }

  function GiveUp(plan: Plan): Next {
    if plan.JoinPair? then Finish else Again
  }

  function Following(th: Thread, next: Next): Pc {
    match next
    case Again => Begin
    case Finish => Ended(th.ret)
    case Mend(path, careless) => Reread(path, careless)
  }

  function JoinOf(path: Path, i: nat, sib: Held, onLeft: bool, how: How): Plan
    requires |path| > 1
  {
    if onLeft then JoinPair(path, i, sib, Last(path), how) else JoinPair(path, i, Last(path), sib, how)
  }

  ghost predicate Picks(s: State, path: Path, pc: Pc)
    requires |path| > 1
  {
    && pc.Sibling? && pc.path == path && pc.sib in s.heap
    && (Same(s, Par(path)) ==> if pc.onLeft then IsPair(s, Par(path).id, pc.i, pc.sib, Last(path).id)
                                            else IsPair(s, Par(path).id, pc.i, Last(path).id, pc.sib))
  }

  /** Merge if the sibling has space for the node's entries, or borrow if it has some to spare. */
  ghost predicate Decides(g: Global, path: Path, i: nat, sib: Held, onLeft: bool, pc: Pc)
    requires |path| > 1
  {
    var s := g.tree;
    && sib.id in s.heap && Last(path).id in s.heap
    && if pc == Locking(JoinOf(path, i, sib, onLeft, MergePair), 0)
       then Same(s, sib) && Same(s, Last(path)) ==> HasSpace(g.sizes, s.heap[sib.id], |s.heap[Last(path).id].keys|)
       else pc == Locking(JoinOf(path, i, sib, onLeft, BorrowTo(!onLeft)), 0)
            && (Same(s, sib) ==> Surplus(g.sizes, s.heap[sib.id]) > 0)
  }

  predicate CanRestart(pc: Pc) {
    pc.GotRoot? || pc.GotVer? || pc.AtNode? || pc.Down? || pc.ReadKid? || pc.Checked? || pc.ReadLeaf? || pc.ParOk?
  }

  ghost predicate Local(g: Global, th: Thread, pc: Pc) {
    var s := g.tree;
    || (pc == Begin && CanRestart(th.pc))
    || match th.pc
       case Begin => pc == GotRoot(s.root)
       case GotRoot(n) => n in s.ver && Unlocked(s.ver[n]) && pc == GotVer(Held(n, s.ver[n]))
       case GotVer(n) => n.id == s.root && pc == AtNode([n])
       case AtNode(path) =>
         |path| > 0 && Last(path).id in s.heap &&
         if s.heap[Last(path).id].Inner? then AtInner(g, th, path, pc) else AtLeaf(g, th, path, pc)
       case Down(path) =>
         |path| > 0 && pc.ReadKid? && pc.path == path
           && (Same(s, Last(path)) ==> KidFor(s, Last(path).id, th.key) == Some(pc.kid))
       case ReadKid(path, kid) => |path| > 0 && Same(s, Last(path)) && pc == Checked(path, kid)
       case Checked(path, kid) => kid in s.ver && Unlocked(s.ver[kid]) && pc == AtNode(path + [Held(kid, s.ver[kid])])
       case ReadLeaf(path, res) => |path| > 0 && ParSame(s, path) && pc == ParOk(Last(path), res)
       case ParOk(n, res) => Same(s, n) && pc == Found(res)
       case Locking(plan, got) =>
         || pc == Releasing(GiveUp(plan))
         || (PlanShape(plan) && got == |Locks(plan)| && pc.Cleared? && pc.plan == plan && Clears(s, plan, pc.slot))
       case Releasing(next) => th.own == {} && pc == Following(th, next)
       case Reread(path, careless) =>
         || (!careless && pc == Ended(th.ret))
         || (&& |path| > 0 && Last(path).id in s.ver && (careless || Unlocked(s.ver[Last(path).id]))
             && pc == Mending(path[|path| - 1 := Held(Last(path).id, s.ver[Last(path).id])]))
       case Mending(path) => pc == Ended(th.ret) || (|path| > 1 && Same(s, Last(path)) && pc == Choosing(path))
       case Choosing(path) =>
         || pc == Ended(th.ret)
         || (|path| > 2 && pc == Mending(path[..|path| - 1]))
         || (|path| > 1 && Picks(s, path, pc))
       case Sibling(path, i, sib, onLeft) =>
         pc == Choosing(path)
           || (sib in s.ver && Unlocked(s.ver[sib]) && pc == Sized(path, i, Held(sib, s.ver[sib]), onLeft))
       case Sized(path, i, sib, onLeft) =>
         || pc == Choosing(path)
         || (|path| > 1 && Decides(g, path, i, sib, onLeft, pc))
       case Cleared(_, _) => false
       case Found(_) => false
       case Ended(_) => false
  }

  // ----- sections -----

  ghost function WriteOf(s: State, key: Key, plan: Plan, top: Id, extra: Id, mx: Key): Write
    requires PlanShape(plan) && !plan.PutRoom? && !plan.EraseKey?
  {
    if plan.JoinPair? then
      match plan.how
      case BorrowTo(left) => BorrowKid(Par(plan.path).id, plan.i, left)
      case MergePair => MergeKids(Par(plan.path).id, plan.i, mx)
    else if |plan.path| > 1 && Par(plan.path).id in s.heap then
      SplitKid(Par(plan.path).id, LowerBound(s.heap[Par(plan.path).id].keys, key), extra)
    else SplitRoot(top, extra)
  }

  /** The section splits node `n`. */
  ghost predicate SplitsNode(s: State, w: Write, n: Id)
    requires WF(s)
  {
    && Enabled(s, w) && n in s.info
    && match w
       case SplitKid(p, i, _) => s.heap[p].kids[i] == n
       case SplitRoot(_, _) => s.root == n
       case _ => false
  }

  function Half(n: Node, l: Id, extra: Id, key: Key): Id
    requires Splittable(n)
  {
    if key > SepKey(n) then extra else l
  }

  ghost predicate LeafPage(s: State, l: Id) {
    l in s.heap && s.heap[l].Leaf? && PagesOk(s.heap[l])
  }

  ghost predicate CanBody(s: State, th: Thread, plan: Plan, slot: Slot, top: Id, extra: Id, mx: Key)
    requires WF(s)
  {
    PlanShape(plan) &&
    match plan
    case SplitNode(path) => SplitsNode(s, WriteOf(s, th.key, plan, top, extra, mx), Last(path).id)
    case PutFull(path) =>
      th.op.Insert? && LeafPage(s, Last(path).id)
        && SplitsNode(s, WriteOf(s, th.key, plan, top, extra, mx), Last(path).id)
    case PutRoom(path) => th.op.Insert? && LeafPage(s, Last(path).id)
    case EraseKey(path) => th.op.Remove? && LeafPage(s, Last(path).id)
    case JoinPair(_, _, _, _, how) =>
      && Enabled(s, WriteOf(s, th.key, plan, top, extra, mx))
      && (how.MergePair? && slot.leaf in s.heap && slot.pos < |s.heap[slot.leaf].keys| ==>
         mx == s.heap[slot.leaf].keys[slot.pos])
  }

  lemma SplitHalves(s: State, w: Write, l: Id)
    requires WF(s) && SplitsNode(s, w, l)
    ensures var u, n := Apply(s, w), s.heap[l];
            && Splittable(n) && w.extra !in s.heap && l in s.info && NodeOk(s, n, s.info[l])
            && WF(u) && u.m == s.m && w.extra in u.info && l in u.info && u.heap[l] == LeftHalf(n, w.extra)
            && u.heap[w.extra] == RightHalf(n)
            && u.info[l] == s.info[l].(hi := At(SepKey(n))) && u.info[w.extra] == s.info[l].(lo := At(SepKey(n)))
  {
    ApplyOk(s, w);
    assert NodeOk(s, s.heap[l], s.info[l]);
    if w.SplitKid? {
      SplitSetup(s, w.p, w.i, w.extra);
    }
  }

  lemma HalfIsLeaf(s: State, w: Write, l: Id, key: Key)
    requires WF(s) && SplitsNode(s, w, l) && LeafPage(s, l)
    ensures Splittable(s.heap[l]) && LeafPage(Apply(s, w), Half(s.heap[l], l, w.extra, key))
  {
    SplitHalves(s, w, l);
  }

  /** The tree after the section; the lock words are still those of the locked nodes, and new nodes are unlocked. */
  ghost function Written(s: State, t: State): State {
    t.(ver := map n | n in t.heap :: if n in s.ver then s.ver[n] else 2)
  }

  ghost function BodyTree(s: State, th: Thread, plan: Plan, slot: Slot, top: Id, extra: Id, mx: Key): State
    requires WF(s) && CanBody(s, th, plan, slot, top, extra, mx)
  {
    match plan
    case SplitNode(_) => Apply(s, WriteOf(s, th.key, plan, top, extra, mx))
    case PutFull(path) =>
      var w, l := WriteOf(s, th.key, plan, top, extra, mx), Last(path).id;
      HalfIsLeaf(s, w, l, th.key);
      PutIf(Apply(s, w), Half(s.heap[l], l, w.extra, th.key), th.key, th.op.val)
    case PutRoom(path) => PutIf(s, Last(path).id, th.key, th.op.val)
    case EraseKey(path) => EraseIf(s, Last(path).id, th.key)
    case JoinPair(_, _, _, _, _) => Apply(s, WriteOf(s, th.key, plan, top, extra, mx))
  }

  /** The nodes the section writes. */
  ghost function BodySpan(s: State, th: Thread, plan: Plan, slot: Slot, top: Id, extra: Id, mx: Key): set<Id>
    requires WF(s) && CanBody(s, th, plan, slot, top, extra, mx)
  {
    if plan.PutRoom? || plan.EraseKey? then {Last(plan.path).id} else Span(s, WriteOf(s, th.key, plan, top, extra, mx))
  }

  datatype Shift = Shift(level: nat, sep: Key, mx: Key)

  /** How the section moves the ranges of nodes it does not lock. */
  ghost function BodyShift(s: State, th: Thread, plan: Plan, slot: Slot, top: Id, extra: Id, mx: Key): Shift
    requires WF(s) && CanBody(s, th, plan, slot, top, extra, mx)
  {
    if plan.JoinPair? then
      var w := WriteOf(s, th.key, plan, top, extra, mx);
      Shift(ShiftLevel(s, w), ShiftSep(s, w), ShiftKey(s, w))
    else Shift(0, 0, 0)
  }

  ghost function Answer(s: State, th: Thread, path: Path): Option<Value>
    requires |path| > 0 && LeafPage(s, Last(path).id)
  {
    LeafGet(s.heap[Last(path).id], th.key)
  }

  function NextOf(plan: Plan, more: bool): Next {
    match plan
    case SplitNode(_) => Again
    case PutFull(_) => Finish
    case PutRoom(_) => Finish
    case EraseKey(path) => if more && |path| > 1 then Mend(path, false) else Finish
    case JoinPair(path, _, _, _, how) =>
      if more && how.MergePair? && |path| > 1 then Mend(path[..|path| - 1], true) else Finish
  }

  ghost function RetOf(s: State, th: Thread, plan: Plan): bool
    requires PlanShape(plan) && (plan.PutFull? || plan.PutRoom? || plan.EraseKey? ==> LeafPage(s, Last(plan.path).id))
  {
    if plan.PutFull? || plan.PutRoom? then Answer(s, th, plan.path).None?
    else if plan.EraseKey? then Answer(s, th, plan.path).Some?
    else th.ret
  }

  // ----- all steps -----

  datatype Action =
    | Call(t: Tid, op: Op, key: Key)
    | Step(t: Tid, pc: Pc)
    | Lock(t: Tid)
    | Unlock(t: Tid, n: Id)
    | Body(t: Tid, top: Id, extra: Id, mx: Key, more: bool)

  function Target(th: Thread): Held
    requires th.pc.Locking? && PlanShape(th.pc.plan) && th.pc.got < |Locks(th.pc.plan)|
  {
    Locks(th.pc.plan)[th.pc.got]
  }

  ghost predicate Can(g: Global, a: Action)
    requires WF(g.tree)
  {
    if a.Call? then a.t in g.threads ==> g.threads[a.t].pc.Found? || g.threads[a.t].pc.Ended?
    else
      a.t in g.threads &&
      var th := g.threads[a.t];
      match a
      case Step(_, pc) => Local(g, th, pc)
      case Lock(_) => th.pc.Locking? && PlanShape(th.pc.plan) && th.pc.got < |Locks(th.pc.plan)|
        && Same(g.tree, Target(th))
      case Unlock(_, n) => th.pc.Releasing? && n in th.own && n in g.tree.ver
      case Body(_, top, extra, mx, _) => th.pc.Cleared? && CanBody(g.tree, th, th.pc.plan, th.pc.slot, top, extra, mx)
  }

  function Tick(ver: map<Id, nat>, n: Id): map<Id, nat>
    requires n in ver
  {
    ver[n := ver[n] + 1]
  }

  ghost function TreeAfter(g: Global, a: Action): State
    requires WF(g.tree) && Can(g, a)
  {
    var s := g.tree;
    match a
    case Call(_, _, _) => s
    case Step(_, _) => s
    case Lock(t) => s.(ver := Tick(s.ver, Target(g.threads[t]).id))
    case Unlock(_, n) => s.(ver := Tick(s.ver, n))
    case Body(t, top, extra, mx, _) =>
      var th := g.threads[t];
      Written(s, BodyTree(s, th, th.pc.plan, th.pc.slot, top, extra, mx))
  }

  function Mark(th: Thread, sh: Shift): Thread {
    th.(strayed := th.strayed || (sh.level >= 3 && sh.mx < th.key <= sh.sep))
  }

  ghost function ShiftOf(g: Global, a: Action): Shift
    requires WF(g.tree) && Can(g, a)
  {
    if a.Body? then
      var th := g.threads[a.t];
      BodyShift(g.tree, th, th.pc.plan, th.pc.slot, a.top, a.extra, a.mx)
    else Shift(0, 0, 0)
  }

  /** The acting thread after its step. */
  ghost function ActorAfter(g: Global, a: Action, now: nat): Thread
    requires WF(g.tree) && Can(g, a)
  {
    match a
    case Call(_, op, k) => Thread(op, k, Begin, {}, false, now, false)
    case Step(t, pc) => var th := g.threads[t]; th.(pc := pc, strayed := th.strayed && pc != Begin)
    case Lock(t) => var th := g.threads[t];
      th.(pc := Locking(th.pc.plan, th.pc.got + 1), own := th.own + {Target(th).id})
    case Unlock(t, n) => var th := g.threads[t]; th.(own := th.own - {n})
    case Body(t, _, _, _, more) =>
      var th := g.threads[t];
      Mark(th, ShiftOf(g, a)).(pc := Releasing(NextOf(th.pc.plan, more)), ret := RetOf(g.tree, th, th.pc.plan))
  }

  ghost function ThreadsAfter(g: Global, a: Action, now: nat): map<Tid, Thread>
    requires WF(g.tree) && Can(g, a)
  {
    (map t | t in g.threads :: Mark(g.threads[t], ShiftOf(g, a)))[a.t := ActorAfter(g, a, now)]
  }

  ghost function After(g: Global, a: Action, now: nat): Global
    requires WF(g.tree) && Can(g, a)
  {
    g.(tree := TreeAfter(g, a), threads := ThreadsAfter(g, a, now))
  }

  // ----- what can go wrong -----

  /** An upgrade whose recorded word was locked. */
  ghost predicate Blind(g: Global, a: Action)
    requires WF(g.tree) && Can(g, a)
  {
    a.Lock? && !Unlocked(Target(g.threads[a.t]).ver)
  }

  /** An insert that writes its key into a leaf whose range does not hold it. */
  ghost predicate Stray(g: Global, a: Action)
    requires WF(g.tree) && Can(g, a)
  {
    && a.Body? && (g.threads[a.t].pc.plan.PutFull? || g.threads[a.t].pc.plan.PutRoom?)
    && var th, l := g.threads[a.t], Last(g.threads[a.t].pc.plan.path).id;
       Answer(g.tree, th, th.pc.plan.path).None? && !(l in g.tree.info && InRange(g.tree.info[l], th.key))
  }

  /** A merge of inner nodes that pulls down a key which does not separate what is stored on the left and right. */
  ghost predicate Cuts(g: Global, a: Action)
    requires WF(g.tree) && Can(g, a)
  {
    && a.Body? && g.threads[a.t].pc.plan.JoinPair?
    && !Sound(g.tree, WriteOf(g.tree, g.threads[a.t].key, g.threads[a.t].pc.plan, a.top, a.extra, a.mx))
  }

  /** The node that is given an entry when `plan` borrows. */
  function Taker(plan: Plan): Held
    requires plan.JoinPair? && plan.how.BorrowTo?
  {
    if plan.how.left then plan.left else plan.right
  }

  /** An entry that is moved into a page without room. */
  ghost predicate Overfills(g: Global, a: Action)
    requires WF(g.tree) && Can(g, a)
  {
    && a.Body? && g.threads[a.t].pc.plan.JoinPair? && g.threads[a.t].pc.plan.how.BorrowTo?
    && Taker(g.threads[a.t].pc.plan).id in g.tree.heap
    && Full(g.sizes, g.tree.heap[Taker(g.threads[a.t].pc.plan).id])
  }

  ghost predicate Fault(g: Global, a: Action)
    requires WF(g.tree) && Can(g, a)
  {
    Blind(g, a) || Stray(g, a) || Cuts(g, a) || Overfills(g, a)
  }
}
