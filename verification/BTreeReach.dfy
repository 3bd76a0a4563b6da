/** Schedules from the empty tree.  With pages of three entries and inner pages of three, the least that the program
    accepts, six inserts build a tree of three levels.  From there on, or earlier, the runs go wrong. */
module BTreeReach {
  import opened SeqOps
  import opened BTreeHeap
  import opened BTreeSections
  import opened BTreeSize
  import opened BTreeOlc
  import opened BTreeCoupling
  import opened BTreeLinear
  import BTreePull
  import opened BTreeShared
  import opened BTreeWalk

  const SMALL := Caps(3, 3)

  /** The actions lead from the empty tree to g. */
  ghost predicate Led(acts: seq<Action>, g: Global) {
    Reaches(Empty(SMALL), acts, g)
  }

  /** The tree with these pages and keys, and nobody at work on it. */
  ghost predicate Holds(s: State, heap: map<Id, Node>, root: Id, keys: set<Key>) {
    WF(s) && Free(s) && s.heap == heap && s.root == root && s.m.Keys == keys
  }

  /** Thread t is free for a call. */
  ghost predicate Stage(g: Global, t: Tid, heap: map<Id, Node>, root: Id, keys: set<Key>) {
    Holds(g.tree, heap, root, keys) && g.sizes == SMALL && Idle(g, t)
  }

  /** Thread t begins a call. */
  ghost predicate Begun(g: Global, t: Tid, heap: map<Id, Node>, root: Id, keys: set<Key>, op: Op, k: Key) {
    Holds(g.tree, heap, root, keys) && g.sizes == SMALL && t in g.threads && g.threads[t] == Going(op, k, Begin, false)
  }

  /** Nothing but thread t and the words of `ids` has changed. */
  ghost predicate OnlyOf(g: Global, h: Global, t: Tid, ids: set<Id>) {
    && KeepWords(g.tree, h.tree, ids) && h.threads.Keys == g.threads.Keys + {t}
    && forall u {:trigger h.threads[u]} :: u in g.threads && u != t ==> h.threads[u] == g.threads[u]
  }

  lemma Starts(acts: seq<Action>, g: Global, t: Tid, heap: map<Id, Node>, root: Id, keys: set<Key>, op: Op, k: Key)
    returns (all: seq<Action>, h: Global)
    requires Led(acts, g) && Stage(g, t, heap, root, keys)
    ensures Led(all, h) && Begun(h, t, heap, root, keys, op, k) && OnlyOf(g, h, t, {})
  {
    Calls(g, Empty(SMALL), acts, t, op, k);
    all, h := acts + [Call(t, op, k)], With(g, t, Going(op, k, Begin, false));
  }

  /** The path over these nodes. */
  function PathOf(s: State, ids: seq<Id>): (path: Path)
    requires forall i :: 0 <= i < |ids| ==> ids[i] in s.ver
    ensures |path| == |ids| && forall i :: 0 <= i < |ids| ==> path[i] == Held(ids[i], s.ver[ids[i]])
  {
    seq(|ids|, i requires 0 <= i < |ids| => Held(ids[i], s.ver[ids[i]]))
  }

  function Put(n: Node, k: Key): Node
    requires n.Leaf? && |n.vals| == |n.keys|
  {
    var i := LowerBound(n.keys, k);
    Leaf(InsertAt(n.keys, i, k), InsertAt(n.vals, i, 0), n.next)
  }

  /** A search for k goes through `ids`, none of them full but the last. */
  ghost predicate Via(heap: map<Id, Node>, root: Id, k: Key, ids: seq<Id>, insert: bool) {
    && |ids| > 0 && ids[0] == root && (forall i :: 0 <= i < |ids| ==> ids[i] in heap)
    && (forall i {:trigger ids[i]} :: 0 <= i < |ids| - 1 ==>
          && heap[ids[i]].Inner? && LowerBound(heap[ids[i]].keys, k) < |heap[ids[i]].kids|
          && heap[ids[i]].kids[LowerBound(heap[ids[i]].keys, k)] == ids[i + 1]
          && (insert ==> !Full(SMALL, heap[ids[i]])))
    && heap[ids[|ids| - 1]].Leaf?
  }

  lemma ViaPath(g: Global, t: Tid, heap: map<Id, Node>, root: Id, keys: set<Key>, op: Op, k: Key, ids: seq<Id>)
    requires Begun(g, t, heap, root, keys, op, k) && Via(heap, root, k, ids, op.Insert?)
    ensures (forall i :: 0 <= i < |ids| ==> ids[i] in g.tree.ver) && AtLeafOf(g, t, PathOf(g.tree, ids))
  {
    var path := PathOf(g.tree, ids);
    forall j: nat | j < |path| - 1 ensures Hop(g.tree, k, path, j) {
      assert path[j].id == ids[j];
    }
  }

  /** An insert into a leaf with room. */
  lemma Adds(acts: seq<Action>, g: Global, t: Tid, heap: map<Id, Node>, root: Id, keys: set<Key>, k: Key, ids: seq<Id>)
    returns (all: seq<Action>, h: Global)
    requires Led(acts, g) && Begun(g, t, heap, root, keys, Insert(0), k) && Via(heap, root, k, ids, true) && k !in keys
    requires var n := heap[ids[|ids| - 1]]; |n.vals| == |n.keys| < 3
    ensures Led(all, h) && OnlyOf(g, h, t, {ids[|ids| - 1]})
    ensures Stage(h, t, heap[ids[|ids| - 1] := Put(heap[ids[|ids| - 1]], k)], root, keys + {k})
  {
    ViaPath(g, t, heap, root, keys, Insert(0), k, ids);
    all, h := PutsRoom(g, Empty(SMALL), acts, t, PathOf(g.tree, ids));
  }

  lemma SplitKidHeap(s: State, k: Key, path: Path, top: Id, extra: Id)
    requires WF(s) && |path| > 1 && LeafPage(s, Last(path).id) && Par(path).id in s.heap
    requires SplitsNode(s, SplitOf(s, k, path, top, extra), Last(path).id) && k !in s.m
    requires k > SepKey(s.heap[Last(path).id]) && InRange(s.info[Last(path).id], k)
    ensures var l, p := Last(path).id, Par(path).id;
            var n, u := s.heap[l], PutSplit(s, k, 0, path, top, extra);
            && u.heap == s.heap[l := LeftHalf(n, extra)][extra := Put(RightHalf(n), k)][p :=
               AddKid(s.heap[p], SepKey(n), extra)]
            && u.root == s.root && u.m.Keys == s.m.Keys + {k}
  {
    var l, w := Last(path).id, SplitOf(s, k, path, top, extra);
    SplitHalves(s, w, l);
    HalfIsLeaf(s, w, l, k);
    PutIfOk(Apply(s, w), extra, k, 0);
    SplitSetup(s, w.p, w.i, extra);
  }

  lemma SplitTopHeap(s: State, top: Id, extra: Id)
    requires WF(s) && Splittable(s.heap[s.root]) && top !in s.heap && extra !in s.heap && top != extra
    ensures var n, u := s.heap[s.root], SplitTop(s, top, extra);
            && u.heap == s.heap[s.root := LeftHalf(n, extra)][extra := RightHalf(n)][top :=
               Inner([SepKey(n)], [s.root, extra])]
            && u.root == top && u.m == s.m
  {
    var G := GrowRoot(s, top).heap[top];
    assert G == Inner([], [s.root]);
    assert InsertAt(G.keys, 0, SepKey(s.heap[s.root])) == [SepKey(s.heap[s.root])];
    assert InsertAt(G.kids, 1, extra) == [s.root, extra];
  }

  lemma SplitRootHeap(s: State, k: Key, path: Path, top: Id, extra: Id)
    requires WF(s) && |path| == 1 && LeafPage(s, Last(path).id)
    requires SplitsNode(s, SplitOf(s, k, path, top, extra), Last(path).id) && k !in s.m
    requires k > SepKey(s.heap[Last(path).id]) && InRange(s.info[Last(path).id], k)
    ensures var l := Last(path).id;
            var n, u := s.heap[l], PutSplit(s, k, 0, path, top, extra);
            && u.heap == s.heap[l := LeftHalf(n, extra)][extra := Put(RightHalf(n), k)][top :=
               Inner([SepKey(n)], [l, extra])]
            && u.root == top && u.m.Keys == s.m.Keys + {k}
  {
    var l, w := Last(path).id, SplitOf(s, k, path, top, extra);
    SplitTopHeap(s, top, extra);
    SplitHalves(s, w, l);
    HalfIsLeaf(s, w, l, k);
    PutIfOk(SplitTop(s, top, extra), extra, k, 0);
  }

  /** An insert into a full leaf, to the right of the separator. */
  lemma AddsFull(acts: seq<Action>, g: Global, t: Tid, heap: map<Id, Node>, root: Id, keys: set<Key>, k: Key,
          ids: seq<Id>, top: Id,
          extra: Id)
    returns (all: seq<Action>, h: Global)
    requires Led(acts, g) && Begun(g, t, heap, root, keys, Insert(0), k) && Via(heap, root, k, ids, true) && k !in keys
    requires var n := heap[ids[|ids| - 1]]; |n.vals| == |n.keys| == 3 && k > SepKey(n)
    requires top !in heap && extra !in heap && top != extra && |ids| > 1
    requires var P := heap[ids[|ids| - 2]]; P.Inner? && |P.kids| == |P.keys| + 1
    ensures Led(all, h) && h.threads.Keys == g.threads.Keys
    ensures var l, p := ids[|ids| - 1], ids[|ids| - 2];
            Stage(h, t, heap[l := LeftHalf(heap[l], extra)][extra := Put(RightHalf(heap[l]), k)]
                         [p := AddKid(heap[p], SepKey(heap[l]), extra)], root, keys + {k})
  {
    ViaPath(g, t, heap, root, keys, Insert(0), k, ids);
    var path := PathOf(g.tree, ids);
    LeafFacts(g, t, path);
    FullSplits(g, t, path, top, extra);
    all, h := PutsFull(g, Empty(SMALL), acts, t, path, top, extra);
    SplitKidHeap(g.tree, k, path, top, extra);
  }

  lemma AddsFullRoot(acts: seq<Action>, g: Global, t: Tid, heap: map<Id, Node>, root: Id, keys: set<Key>, k: Key,
          top: Id, extra: Id)
    returns (all: seq<Action>, h: Global)
    requires Led(acts, g) && Begun(g, t, heap, root, keys, Insert(0), k) && Via(heap, root, k, [root], true)
      && k !in keys
    requires |heap[root].vals| == |heap[root].keys| == 3 && k > SepKey(heap[root])
    requires top !in heap && extra !in heap && top != extra
    ensures Led(all, h) && h.threads.Keys == g.threads.Keys
    ensures Stage(h, t, heap[root := LeftHalf(heap[root], extra)][extra := Put(RightHalf(heap[root]), k)]
                         [top := Inner([SepKey(heap[root])], [root, extra])], top, keys + {k})
  {
    ViaPath(g, t, heap, root, keys, Insert(0), k, [root]);
    var path := PathOf(g.tree, [root]);
    LeafFacts(g, t, path);
    FullSplits(g, t, path, top, extra);
    all, h := PutsFull(g, Empty(SMALL), acts, t, path, top, extra);
    SplitRootHeap(g.tree, k, path, top, extra);
  }

  // ----- six inserts -----

  lemma PutLast(n: Node, k: Key)
    requires n.Leaf? && |n.vals| == |n.keys| && forall i :: 0 <= i < |n.keys| ==> n.keys[i] < k
    ensures Put(n, k) == Leaf(n.keys + [k], n.vals + [0], n.next)
  {
    BoundIs(n.keys, k, |n.keys|);
  }

  /** Inserts a key above all others of a leaf with room. */
  lemma Appends(acts: seq<Action>, g: Global, t: Tid, heap: map<Id, Node>, root: Id, keys: set<Key>, k: Key,
          ids: seq<Id>)
    returns (all: seq<Action>, h: Global)
    requires Led(acts, g) && Stage(g, t, heap, root, keys) && Via(heap, root, k, ids, true) && k !in keys
    requires var n := heap[ids[|ids| - 1]]; |n.vals| == |n.keys| < 3 && forall i :: 0 <= i < |n.keys| ==> n.keys[i] < k
    ensures var n := heap[ids[|ids| - 1]];
            && Led(all, h) && h.threads.Keys == g.threads.Keys + {t}
            && Stage(h, t, heap[ids[|ids| - 1] := Leaf(n.keys + [k], n.vals + [0], n.next)], root, keys + {k})
  {
    PutLast(heap[ids[|ids| - 1]], k);
    var g1;
    all, g1 := Starts(acts, g, t, heap, root, keys, Insert(0), k);
    all, h := Adds(all, g1, t, heap, root, keys, k, ids);
  }

  function Keys(n: nat): set<Key> {
    set j | 1 <= j <= n :: 10 * j
  }

  lemma KeysNext(n: nat)
    ensures Keys(n) + {10 * (n + 1)} == Keys(n + 1) && 10 * (n + 1) !in Keys(n)
  {
  }

  /** The pages after up to three inserts: one leaf. */
  function OneLeaf(n: nat): map<Id, Node> {
    map[0 := Leaf(seq(n, i => 10 * (i + 1)), seq(n, i => 0), Null)]
  }

  lemma None() returns (acts: seq<Action>, g: Global)
    ensures Led(acts, g) && Stage(g, 0, OneLeaf(0), 0, Keys(0)) && g.threads.Keys <= {0}
  {
    acts, g := [], Empty(SMALL);
    ReachesNone(g);
    EmptyInv(g);
    assert OneLeaf(0)[0] == Leaf([], [], Null);
  }

  lemma OneLeafNext(n: nat)
    ensures var p := OneLeaf(n)[0];
      OneLeaf(n)[0 := Leaf(p.keys + [10 * (n + 1)], p.vals + [0], p.next)] == OneLeaf(n + 1)
  {
    var p := OneLeaf(n)[0];
    assert p.keys + [10 * (n + 1)] == OneLeaf(n + 1)[0].keys && p.vals + [0] == OneLeaf(n + 1)[0].vals;
  }

  lemma Upto3(n: nat) returns (acts: seq<Action>, g: Global)
    requires n <= 3
    ensures Led(acts, g) && Stage(g, 0, OneLeaf(n), 0, Keys(n)) && g.threads.Keys <= {0}
  {
    if n == 0 {
      acts, g := None();
    } else {
      acts, g := Upto3(n - 1);
      OneLeafNext(n - 1);
      KeysNext(n - 1);
      acts, g := Appends(acts, g, 0, OneLeaf(n - 1), 0, Keys(n - 1), 10 * n, [0]);
    }
  }

  /** After four inserts: two leaves below a root. */
  function TwoLeaves(): map<Id, Node> {
    OneLeaf(3)[0 := Leaf([10], [0], To(2))][2 := Leaf([20, 30, 40], [0, 0, 0], Null)][1 := Inner([10], [0, 2])]
  }

  lemma TwoHalves()
    ensures var n := OneLeaf(3)[0];
            && LeftHalf(n, 2) == Leaf([10], [0], To(2)) && Put(RightHalf(n), 40) == Leaf([20, 30, 40], [0, 0, 0], Null)
            && SepKey(n) == 10 && Via(OneLeaf(3), 0, 40, [0], true)
  {
    var n := OneLeaf(3)[0];
    assert n.keys == [10, 20, 30] && n.vals == [0, 0, 0];
    assert RightHalf(n) == Leaf([20, 30], [0, 0], Null);
    PutLast(RightHalf(n), 40);
  }

  lemma Four() returns (acts: seq<Action>, g: Global)
    ensures Led(acts, g) && Stage(g, 0, TwoLeaves(), 1, Keys(4)) && g.threads.Keys <= {0}
  {
    acts, g := Upto3(3);
    TwoHalves();
    KeysNext(3);
    acts, g := Starts(acts, g, 0, OneLeaf(3), 0, Keys(3), Insert(0), 40);
    acts, g := AddsFullRoot(acts, g, 0, OneLeaf(3), 0, Keys(3), 40, 1, 2);
  }

  /** After five: three leaves. */
  function ThreeLeaves(): map<Id, Node> {
    TwoLeaves()[2 := Leaf([20], [0], To(3))][3 := Leaf([30, 40, 50], [0, 0, 0], Null)][1 := Inner([10, 20], [0, 2, 3])]
  }

  /** A key above the only one of a node goes to the second child. */
  lemma SecondKid(keys: seq<Key>, k: Key)
    requires |keys| == 1 && keys[0] < k
    ensures LowerBound(keys, k) == 1
  {
  }

  lemma ThreeHalves()
    ensures var n := TwoLeaves()[2];
            && LeftHalf(n, 3) == Leaf([20], [0], To(3)) && Put(RightHalf(n), 50) == Leaf([30, 40, 50], [0, 0, 0], Null)
            && SepKey(n) == 20 && AddKid(TwoLeaves()[1], 20, 3) == Inner([10, 20], [0, 2, 3])
  {
    var n := TwoLeaves()[2];
    assert RightHalf(n) == Leaf([30, 40], [0, 0], Null);
    PutLast(RightHalf(n), 50);
    SecondKid([10], 20);
  }

  lemma ViaTwo()
    ensures Via(TwoLeaves(), 1, 50, [1, 2], true)
  {
    SecondKid([10], 50);
  }

  lemma Five() returns (acts: seq<Action>, g: Global)
    ensures Led(acts, g) && Stage(g, 0, ThreeLeaves(), 1, Keys(5)) && g.threads.Keys <= {0}
  {
    acts, g := Four();
    acts, g := Starts(acts, g, 0, TwoLeaves(), 1, Keys(4), Insert(0), 50);
    acts, g := FiveFrom(acts, g);
  }

  lemma FiveFrom(acts: seq<Action>, g: Global) returns (all: seq<Action>, h: Global)
    requires Led(acts, g) && Begun(g, 0, TwoLeaves(), 1, Keys(4), Insert(0), 50)
    ensures Led(all, h) && Stage(h, 0, ThreeLeaves(), 1, Keys(5)) && h.threads.Keys == g.threads.Keys
  {
    ThreeHalves();
    ViaTwo();
    KeysNext(4);
    all, h := AddsFull(acts, g, 0, TwoLeaves(), 1, Keys(4), 50, [1, 2], 4, 3);
  }

  /** The sixth insert first splits the full root, node 1. */
  function TallerTree(): map<Id, Node> {
    ThreeLeaves()[1 := Inner([], [0])][5 := Inner([20], [2, 3])][4 := Inner([10], [1, 5])]
  }

  lemma RootHalves()
    ensures var n := ThreeLeaves()[1];
            Splittable(n) && LeftHalf(n, 5) == Inner([], [0]) && RightHalf(n) == Inner([20], [2, 3]) && SepKey(n) == 10
  {
  }

  lemma Taller(acts: seq<Action>, g: Global) returns (all: seq<Action>, h: Global)
    requires Led(acts, g) && Begun(g, 0, ThreeLeaves(), 1, Keys(5), Insert(0), 60)
    ensures Led(all, h) && Begun(h, 0, TallerTree(), 4, Keys(5), Insert(0), 60) && h.threads.Keys == g.threads.Keys
  {
    RootHalves();
    all, h := SplitsRoot(g, Empty(SMALL), acts, 0, 4, 5);
    SplitTopHeap(g.tree, 4, 5);
  }

  /** Then it goes down to leaf 3, which is full. */
  function FourLeaves(): map<Id, Node> {
    TallerTree()[3 := Leaf([30], [0], To(6))][6 := Leaf([40, 50, 60], [0, 0, 0], Null)][5 := Inner([20, 30], [2, 3, 6])]
  }

  lemma FourHalves()
    ensures var n := TallerTree()[3];
            && LeftHalf(n, 6) == Leaf([30], [0], To(6)) && Put(RightHalf(n), 60) == Leaf([40, 50, 60], [0, 0, 0], Null)
            && SepKey(n) == 30 && AddKid(TallerTree()[5], 30, 6) == Inner([20, 30], [2, 3, 6])
  {
    var n := TallerTree()[3];
    assert RightHalf(n) == Leaf([40, 50], [0, 0], Null);
    PutLast(RightHalf(n), 60);
    SecondKid([20], 30);
  }

  lemma ViaTaller()
    ensures Via(TallerTree(), 4, 60, [4, 5, 3], true)
  {
    SecondKid([10], 60);
    SecondKid([20], 60);
  }

  lemma FourIs()
    ensures var n := TallerTree()[3];
            TallerTree()[3 := LeftHalf(n, 6)][6 := Put(RightHalf(n), 60)][5 := AddKid(TallerTree()[5], SepKey(n), 6)]
            == FourLeaves()
    ensures 6 !in TallerTree() && 7 !in TallerTree() && TallerTree()[5] == Inner([20], [2, 3])
    ensures var n := TallerTree()[3]; |n.vals| == |n.keys| == 3 && 60 > SepKey(n)
  {
    FourHalves();
  }

  lemma SixFrom(acts: seq<Action>, g: Global) returns (all: seq<Action>, h: Global)
    requires Led(acts, g) && Begun(g, 0, TallerTree(), 4, Keys(5), Insert(0), 60)
    ensures Led(all, h) && Stage(h, 0, FourLeaves(), 4, Keys(6)) && h.threads.Keys == g.threads.Keys
  {
    FourIs();
    ViaTaller();
    KeysNext(5);
    all, h := AddsFull(acts, g, 0, TallerTree(), 4, Keys(5), 60, [4, 5, 3], 7, 6);
  }

  /** After six inserts: a root above two inner nodes, with four leaves. */
  lemma Six() returns (acts: seq<Action>, g: Global)
    ensures Led(acts, g) && Stage(g, 0, FourLeaves(), 4, Keys(6)) && g.threads.Keys <= {0}
  {
    acts, g := Five();
    acts, g := Starts(acts, g, 0, ThreeLeaves(), 1, Keys(5), Insert(0), 60);
    acts, g := Taller(acts, g);
    acts, g := SixFrom(acts, g);
  }

  // ----- a borrow into a full page -----

  /** A remove that has erased its key and goes on to repair its leaf. */
  ghost predicate Repairing(g: Global, t: Tid, k: Key, pc: Pc, ret: bool) {
    t in g.threads && g.threads[t] == Going(Remove, k, pc, ret)
  }

  lemma LeavesOnly(g: Global, h: Global, t: Tid, ids: set<Id>, u: State, pc: Pc, ret: bool)
    requires Leaves(g, h, t, ids, u, pc, ret)
    ensures OnlyOf(g, h, t, ids) && h.threads[t] == g.threads[t].(pc := pc, own := {}, ret := ret)
  {
  }

  /** The tree after a remove. */
  ghost predicate Cut(u: State, heap: map<Id, Node>, root: Id, keys: set<Key>) {
    u.heap == heap && u.root == root && u.m.Keys == keys
  }

  lemma Removes(acts: seq<Action>, g: Global, t: Tid, heap: map<Id, Node>, root: Id, keys: set<Key>, k: Key,
          ids: seq<Id>,
          heap2: map<Id, Node>)
    returns (all: seq<Action>, h: Global)
    requires Led(acts, g) && Begun(g, t, heap, root, keys, Remove, k) && Via(heap, root, k, ids, false) && |ids| > 1
    requires var n := heap[ids[|ids| - 1]]; |n.vals| == |n.keys|
    requires LeafPage(g.tree, ids[|ids| - 1]) && Cut(EraseIf(g.tree, ids[|ids| - 1], k), heap2, root, keys - {k})
    ensures Led(all, h) && Holds(h.tree, heap2, root, keys - {k}) && h.sizes == SMALL
      && OnlyOf(g, h, t, {ids[|ids| - 1]})
    ensures (forall i :: 0 <= i < |ids| ==> ids[i] in g.tree.ver)
      && Repairing(h, t, k, Reread(PathOf(g.tree, ids), false), k in keys)
  {
    ViaPath(g, t, heap, root, keys, Remove, k, ids);
    var path := PathOf(g.tree, ids);
    all, h := Erases(g, Empty(SMALL), acts, t, path);
    assert Locks(EraseKey(path)) == [Last(path)] && IdsOf(Locks(EraseKey(path))) == {ids[|ids| - 1]};
    LeavesOnly(g, h, t, {ids[|ids| - 1]}, EraseIf(g.tree, ids[|ids| - 1], k), Reread(path, false), k in keys);
  }

  /** Removing the only entry of a leaf. */
  lemma CutOnly(g: Global, t: Tid, heap: map<Id, Node>, root: Id, keys: set<Key>, k: Key, l: Id, next: Ref)
    requires Begun(g, t, heap, root, keys, Remove, k) && l in heap && heap[l] == Leaf([k], [0], next)
    ensures LeafPage(g.tree, l) && Cut(EraseIf(g.tree, l, k), heap[l := Leaf([], [], next)], root, keys - {k})
  {
    BoundIs([k], k, 0);
    assert RemoveAt([k], 0) == [] && RemoveAt([0], 0) == [];
  }

  /** A remove that leaves its leaf empty. */
  lemma Empties(acts: seq<Action>, g: Global, t: Tid, heap: map<Id, Node>, root: Id, keys: set<Key>, k: Key,
          ids: seq<Id>, next: Ref)
    returns (all: seq<Action>, h: Global)
    requires Led(acts, g) && Begun(g, t, heap, root, keys, Remove, k) && Via(heap, root, k, ids, false) && |ids| > 1
    requires heap[ids[|ids| - 1]] == Leaf([k], [0], next) && k in keys
    ensures Led(all, h) && h.sizes == SMALL && OnlyOf(g, h, t, {ids[|ids| - 1]})
    ensures Holds(h.tree, heap[ids[|ids| - 1] := Leaf([], [], next)], root, keys - {k})
    ensures (forall i :: 0 <= i < |ids| ==> ids[i] in g.tree.ver)
      && Repairing(h, t, k, Reread(PathOf(g.tree, ids), false), true)
  {
    var l := ids[|ids| - 1];
    CutOnly(g, t, heap, root, keys, k, l, next);
    all, h := Removes(acts, g, t, heap, root, keys, k, ids, heap[l := Leaf([], [], next)]);
  }

  /** Thread 0, on its way to repair leaf 0 below node 1. */
  ghost predicate WillRepair(g: Global) {
    && g.sizes == SMALL && 0 in g.tree.ver && 1 in g.tree.ver && 0 in g.threads && g.threads[0].pc.Reread?
    && |g.threads[0].pc.path| == 2
    && var path := g.threads[0].pc.path;
       && Repairing(g, 0, 10, Reread(path, false), true) && path[0] == Held(1, g.tree.ver[1]) && path[1].id == 0
       && path[1].ver <= g.tree.ver[0]
  }

  lemma ViaFirst(heap: map<Id, Node>, k: Key, insert: bool)
    requires 0 in heap && 1 in heap && heap[0].Leaf? && heap[1] == Inner([10], [0, 2]) && k <= 10
    ensures Via(heap, 1, k, [1, 0], insert)
  {
  }

  /** The tree with two leaves, the first of them empty. */
  function FirstCut(): map<Id, Node> {
    TwoLeaves()[0 := Leaf([], [], To(2))]
  }

  /** Removing 10 leaves leaf 0 with too few entries. */
  lemma FindsSmall() returns (acts: seq<Action>, g: Global)
    ensures Led(acts, g) && Stage(g, 1, FirstCut(), 1, Keys(4) - {10}) && WillRepair(g)
  {
    acts, g := Four();
    acts, g := Starts(acts, g, 0, TwoLeaves(), 1, Keys(4), Remove, 10);
    ViaFirst(TwoLeaves(), 10, false);
    var g0 := g;
    assert 10 in Keys(4) by { assert 10 == 10 * 1; }
    acts, g := Empties(acts, g, 0, TwoLeaves(), 1, Keys(4), 10, [1, 0], To(2));
    assert g.threads[0].pc.path == PathOf(g0.tree, [1, 0]);
  }

  lemma StillRepairs(g: Global, h: Global)
    requires WillRepair(g) && OnlyOf(g, h, 1, {0}) && h.sizes == g.sizes
    ensures WillRepair(h)
  {
  }

  /** In between another thread inserts 1, 2 and 3 into that leaf, which is now full. */
  lemma AddsOne(acts: seq<Action>, g: Global, heap: map<Id, Node>, keys: set<Key>, k: Key)
    returns (all: seq<Action>, h: Global)
    requires Led(acts, g) && Stage(g, 1, heap, 1, keys) && WillRepair(g) && k !in keys && k <= 10
    requires 0 in heap && 1 in heap && heap[0].Leaf? && heap[1] == Inner([10], [0, 2])
      && |heap[0].vals| == |heap[0].keys| < 3
    ensures Led(all, h) && WillRepair(h) && Stage(h, 1, heap[0 := Put(heap[0], k)], 1, keys + {k})
  {
    var g1;
    ViaFirst(heap, k, true);
    all, g1 := Starts(acts, g, 1, heap, 1, keys, Insert(0), k);
    StillRepairs(g, g1);
    all, h := Adds(all, g1, 1, heap, 1, keys, k, [1, 0]);
    StillRepairs(g1, h);
  }

  /** The tree with two leaves, the first of them with n entries. */
  function Filled(n: nat): map<Id, Node> {
    TwoLeaves()[0 := Leaf(seq(n, i => i + 1), seq(n, i => 0), To(2))]
  }

  lemma FilledNext(n: nat)
    ensures |Filled(n)[0].vals| == |Filled(n)[0].keys| == n && Filled(n)[0 := Put(Filled(n)[0], n + 1)] == Filled(n + 1)
  {
    var p := Filled(n)[0];
    PutLast(p, n + 1);
    assert p.keys + [n + 1] == Filled(n + 1)[0].keys && p.vals + [0] == Filled(n + 1)[0].vals;
  }

  function Added(n: nat): (keys: set<Key>)
    ensures forall k :: k in keys ==> k <= n || k >= 20
  {
    if n == 0 then Keys(4) - {10} else Added(n - 1) + {n}
  }

  lemma Fills(n: nat) returns (acts: seq<Action>, g: Global)
    requires n <= 3
    ensures Led(acts, g) && Stage(g, 1, Filled(n), 1, Added(n)) && WillRepair(g)
  {
    if n == 0 {
      acts, g := FindsSmall();
      assert Filled(0)[0] == Leaf([], [], To(2));
    } else {
      acts, g := Fills(n - 1);
      FilledNext(n - 1);
      acts, g := AddsOne(acts, g, Filled(n - 1), Added(n - 1), n);
    }
  }

  lemma FullRepairs(g: Global)
    requires WillRepair(g) && Holds(g.tree, Filled(3), 1, Added(3))
    ensures Repairs(g, 0, g.threads[0].pc.path, 0, 2, false, BorrowTo(true)) && Full(SMALL, g.tree.heap[0])
    ensures MaxOk(g.tree, SMALL) && PathOk(g.tree, {}, g.threads[0], g.threads[0].pc.path)
  {
    var s, path := g.tree, g.threads[0].pc.path;
    assert Filled(3).Keys == {0, 1, 2};
    assert 2 in s.ver && KidFor(s, 1, 10) == Some(0);
    assert Link(s, {}, g.threads[0], path[0], path[1].id);
  }

  /** From the empty tree: seven inserts and a remove, after which a page holds more than it has room for. */
  lemma OverfullReached() returns (acts: seq<Action>, h: Global)
    ensures Led(acts, h) && !MaxOk(h.tree, SMALL)
  {
    var g;
    acts, g := Fills(3);
    FullRepairs(g);
    var more, k := RepairOverfills(g, 0, g.threads[0].pc.path, 0, 2, false);
    var b := Body(0, 0, 0, 0, false);
    ReachesJoin(Empty(SMALL), acts, g, more, k);
    h := After(k, b, 0);
    ReachesNext(Empty(SMALL), acts + more, k, b, h);
    acts := acts + more + [b];
  }

  // ----- two leaves are merged, and their parent is to be repaired -----

  lemma MergeHeap(s: State, p: Id, i: nat)
    requires CanMerge(s, p, i) && p != s.root
    ensures var P, u := s.heap[p], MergeShrink(s, p, i);
            && u.heap == s.heap[P.kids[i] := MergedNode(s.heap[P.kids[i]], P.keys[i], s.heap[P.kids[i + 1]])]
                               [p := Inner(RemoveAt(P.keys, i), RemoveAt(P.kids, i + 1))]
            && u.root == s.root && u.m == s.m
  {
  }

  /** The upper part of the tree with four leaves, and the leaves 2 and 3. */
  predicate LikeFour(heap: map<Id, Node>, first: seq<Key>) {
    && {1, 2, 3, 4, 5} <= heap.Keys && 9 !in heap && heap[4] == Inner([10], [1, 5])
    && heap[5] == Inner([20, 30], [2, 3, 6])
    && heap[2] == Leaf(first, seq(|first|, i => 0), To(3)) && heap[3] == Leaf([30], [0], To(6))
  }

  function Cut2(heap: map<Id, Node>): map<Id, Node> {
    heap[2 := Leaf([], [], To(3))]
  }

  function Joined(heap: map<Id, Node>): map<Id, Node> {
    heap[2 := Leaf([30], [0], To(6))][5 := Inner([30], [2, 6])]
  }

  /** Thread 0 has removed 20 from leaf 2, and will repair that leaf. */
  ghost predicate Below5(g: Global) {
    && g.sizes == SMALL && {2, 4, 5} <= g.tree.ver.Keys && 0 in g.threads && g.threads[0].pc.Reread?
    && |g.threads[0].pc.path| == 3
    && var path := g.threads[0].pc.path;
       && Repairing(g, 0, 20, Reread(path, false), true) && path[0] == Held(4, g.tree.ver[4])
       && path[1] == Held(5, g.tree.ver[5]) && path[2].id == 2 && path[2].ver <= g.tree.ver[2]
  }

  lemma ViaLikeFour(heap: map<Id, Node>)
    requires LikeFour(heap, [20])
    ensures Via(heap, 4, 20, [4, 5, 2], false)
  {
    SecondKid([10], 20);
    BoundIs([20, 30], 20, 0);
  }

  lemma FindsSmall2(acts: seq<Action>, g: Global, heap: map<Id, Node>, keys: set<Key>)
    returns (all: seq<Action>, h: Global)
    requires Led(acts, g) && Stage(g, 0, heap, 4, keys) && LikeFour(heap, [20]) && 20 in keys
    ensures Led(all, h) && Holds(h.tree, Cut2(heap), 4, keys - {20}) && Below5(h)
    ensures h.threads.Keys == g.threads.Keys + {0}
  {
    ViaLikeFour(heap);
    var g1;
    all, g1 := Starts(acts, g, 0, heap, 4, keys, Remove, 20);
    assert heap[2] == Leaf([20], [0], To(3));
    all, h := Empties(all, g1, 0, heap, 4, keys, 20, [4, 5, 2], To(3));
    assert h.threads[0].pc.path == PathOf(g1.tree, [4, 5, 2]);
  }

  lemma SmallMends(g: Global, heap: map<Id, Node>, keys: set<Key>)
    requires Holds(g.tree, heap, 4, keys) && LikeFour(heap, []) && Below5(g)
    ensures Mends(g, 0, g.threads[0].pc.path, 0, 3, false) && CanMerge(g.tree, 5, 0)
  {
    var s, th, path := g.tree, g.threads[0], g.threads[0].pc.path;
    SecondKid([10], 20);
    BoundIs([20, 30], 20, 0);
    assert KidFor(s, 4, 20) == Some(5) && KidFor(s, 5, 20) == Some(2);
    assert NodeOk(s, s.heap[4], s.info[4]);
    KidCovers(s, 4, 20);
    KidCovers(s, 5, 20);
    assert NodeOk(s, s.heap[5], s.info[5]);
    assert Link(s, {}, th, path[0], path[1].id) && Link(s, {}, th, path[1], path[2].id);
  }

  /** Thread 0 will repair node 5 below node 4, without looking whether it is locked. */
  ghost predicate Below4(g: Global) {
    && g.sizes == SMALL && {1, 4, 5} <= g.tree.ver.Keys && 0 in g.threads && g.threads[0].pc.Reread?
    && |g.threads[0].pc.path| == 2
    && var path := g.threads[0].pc.path;
       && Repairing(g, 0, 20, Reread(path, true), true) && path[0] == Held(4, g.tree.ver[4]) && path[1].id == 5
       && path[1].ver <= g.tree.ver[5]
  }

  lemma JoinsTwo(acts: seq<Action>, g: Global, heap: map<Id, Node>, keys: set<Key>)
    returns (all: seq<Action>, h: Global)
    requires Led(acts, g) && Holds(g.tree, heap, 4, keys) && LikeFour(heap, []) && Below5(g)
    ensures Led(all, h) && Holds(h.tree, Joined(heap), 4, keys) && Below4(h) && h.threads.Keys == g.threads.Keys
  {
    var path := g.threads[0].pc.path;
    SmallMends(g, heap, keys);
    all, h := JoinsLeaves(g, Empty(SMALL), acts, 0, path, 0, 3, false, Slot(9, 0));
    MergeHeap(g.tree, 5, 0);
    assert MergedNode(heap[2], 20, heap[3]) == Leaf([30], [0], To(6));
    assert RemoveAt([20, 30], 0) == [30] && RemoveAt([2, 3, 6], 1) == [2, 6];
    JoinIds(g, path);
  }

  lemma JoinIds(g: Global, path: Path)
    requires |path| == 3 && path[0].id == 4 && path[1].id == 5 && path[2].id == 2 && 2 in g.tree.ver && 3 in g.tree.ver
    ensures 4 !in IdsOf(Locks(JoinPlan(g, path, 0, 3, false)))
  {
    var plan := JoinPlan(g, path, 0, 3, false);
    assert Locks(plan) == [Par(plan.path), plan.left, plan.right];
  }

  // ----- two threads hold one node -----

  /** A remove of 20 that merges leaves 2 and 3 and goes on to node 5. */
  lemma Removes20(acts: seq<Action>, g: Global, heap: map<Id, Node>, keys: set<Key>)
    returns (all: seq<Action>, h: Global)
    requires Led(acts, g) && Stage(g, 0, heap, 4, keys) && LikeFour(heap, [20]) && 20 in keys
    ensures Led(all, h) && Holds(h.tree, Joined(heap), 4, keys - {20}) && Below4(h)
    ensures h.threads.Keys == g.threads.Keys + {0}
  {
    var g1;
    all, g1 := FindsSmall2(acts, g, heap, keys);
    assert LikeFour(Cut2(heap), []);
    all, h := JoinsTwo(all, g1, Cut2(heap), keys - {20});
    assert Joined(Cut2(heap)) == Joined(heap);
  }

  lemma BelowFour() returns (acts: seq<Action>, g: Global)
    ensures Led(acts, g) && Holds(g.tree, Joined(FourLeaves()), 4, Keys(6) - {20}) && Below4(g) && g.threads.Keys <= {0}
  {
    acts, g := Six();
    assert LikeFour(FourLeaves(), [20]);
    assert 20 in Keys(6) by { assert 20 == 10 * 2; }
    acts, g := Removes20(acts, g, FourLeaves(), Keys(6));
  }

  lemma ViaJoined()
    ensures Via(Joined(FourLeaves()), 4, 55, [4, 5, 6], true) && Full(SMALL, Joined(FourLeaves())[6])
  {
    SecondKid([10], 55);
    SecondKid([30], 55);
  }

  /** Node 5 is locked by thread 1. */
  ghost predicate Taken5(g: Global) {
    && 1 in g.threads && g.threads[1].own == {5} && Below4(g) && WF(g.tree) && g.tree.heap == Joined(FourLeaves())
    && g.tree.root == 4 && Unlocked(g.tree.ver[1]) && Unlocked(g.tree.ver[4])
  }

  lemma SeizedIs(g: Global, plan: Plan)
    requires Begun(g, 1, Joined(FourLeaves()), 4, Keys(6) - {20}, Insert(0), 55) && Below4(g)
    requires PlanShape(plan) && |Locks(plan)| > 0 && Locks(plan)[0].id == 5
    ensures Taken5(Seized(g, 1, plan, 1))
  {
    assert Locks(plan)[..1] == [Locks(plan)[0]] && IdsOf(Locks(plan)[..1]) == {5};
    WordsOk(g.tree, Seized(g, 1, plan, 1).tree.ver);
  }

  /** Another thread locks node 5 in order to split leaf 6. */
  lemma Locks5(acts: seq<Action>, g: Global) returns (all: seq<Action>, h: Global)
    requires Led(acts, g) && Begun(g, 1, Joined(FourLeaves()), 4, Keys(6) - {20}, Insert(0), 55) && Below4(g)
    ensures Led(all, h) && Taken5(h)
  {
    ViaJoined();
    ViaPath(g, 1, Joined(FourLeaves()), 4, Keys(6) - {20}, Insert(0), 55, [4, 5, 6]);
    var path := PathOf(g.tree, [4, 5, 6]);
    all := FullThere(g, Empty(SMALL), acts, 1, path);
    all := Seizes(g, Empty(SMALL), all, 1, PutFull(path), 1);
    SeizedIs(g, PutFull(path));
    h := Seized(g, 1, PutFull(path), 1);
  }

  lemma ClashState() returns (acts: seq<Action>, g: Global)
    ensures Led(acts, g) && Taken5(g)
  {
    acts, g := BelowFour();
    acts, g := Starts(acts, g, 1, Joined(FourLeaves()), 4, Keys(6) - {20}, Insert(0), 55);
    acts, g := Locks5(acts, g);
  }

  lemma RootLink(s: State, th: Thread, v: nat)
    requires WF(s) && s.root == 4 && 4 in s.ver && s.ver[4] == v && Unlocked(v) && s.heap[4] == Inner([10], [1, 5])
    requires th.key == 20
    ensures Link(s, {}, th, Held(4, v), 5)
  {
    SecondKid([10], 20);
  }

  lemma Repairs5(g: Global)
    requires Below4(g) && WF(g.tree) && g.tree.root == 4 && g.tree.heap.Keys >= {1, 4, 5}
    requires Unlocked(g.tree.ver[1]) && Unlocked(g.tree.ver[4])
    requires g.tree.heap[4] == Inner([10], [1, 5]) && g.tree.heap[1] == Inner([], [0])
      && g.tree.heap[5] == Inner([30], [2, 6])
    ensures Repairs(g, 0, g.threads[0].pc.path, 0, 1, true, MergePair)
    ensures PathOk(g.tree, {}, g.threads[0], g.threads[0].pc.path)
  {
    var path := g.threads[0].pc.path;
    RootLink(g.tree, g.threads[0], g.tree.ver[4]);
    assert path[0] == Held(4, g.tree.ver[4]);
  }

  /** From the empty tree: six inserts, a remove and the beginning of an insert, after which two threads hold node 5. */
  lemma ClashReached() returns (acts: seq<Action>, h: Global)
    ensures Led(acts, h) && 0 in h.threads && 1 in h.threads && 5 in h.threads[0].own && 5 in h.threads[1].own
  {
    var g, more;
    acts, g := ClashState();
    Repairs5(g);
    more, h := RepairSharesLock(g, 0, 1, g.threads[0].pc.path, 0, 1, true, MergePair);
    ReachesJoin(Empty(SMALL), acts, g, more, h);
    acts := acts + more;
  }

  // ----- an empty last leaf -----

  /** The repair of an only child turns to the parent, finds no sibling fit for that one either, and ends the call. */
  lemma GivesUp(acts: seq<Action>, g: Global, path: Path, ret: bool, k: Key) returns (all: seq<Action>, h: Global)
    requires Led(acts, g) && WF(g.tree) && Free(g.tree) && Repairing(g, 0, k, Reread(path, false), ret)
    requires |path| > 2 && Last(path).id in g.tree.ver && Same(g.tree, Par(path))
    ensures Led(all, h) && h == Placed(g, 0, Ended(ret))
  {
    var q, e := Reread2(g, path), Empty(SMALL);
    var up := q[..|q| - 1];
    assert Placed(g, 0, Reread(path, false)) == g && Last(up) == Par(path);
    all := acts;
    MoveOn(g, e, all, 0, Reread(path, false), Mending(q));
    all := all + [Step(0, Mending(q))];
    MoveOn(g, e, all, 0, Mending(q), Choosing(q));
    all := all + [Step(0, Choosing(q))];
    MoveOn(g, e, all, 0, Choosing(q), Mending(up));
    all := all + [Step(0, Mending(up))];
    MoveOn(g, e, all, 0, Mending(up), Choosing(up));
    all := all + [Step(0, Choosing(up))];
    MoveOn(g, e, all, 0, Choosing(up), Ended(ret));
    all, h := all + [Step(0, Ended(ret))], Placed(g, 0, Ended(ret));
  }

  /** The tree with four leaves, the first of them empty. */
  function EmptyFirst(): map<Id, Node> {
    FourLeaves()[0 := Leaf([], [], To(2))]
  }

  lemma ViaFirstLeaf(heap: map<Id, Node>)
    requires {0, 1, 4} <= heap.Keys && heap[4] == Inner([10], [1, 5]) && heap[1] == Inner([], [0]) && heap[0].Leaf?
    ensures Via(heap, 4, 10, [4, 1, 0], false)
  {
    BoundIs([10], 10, 0);
    BoundIs([], 10, 0);
  }

  lemma EmptyLeaf() returns (acts: seq<Action>, g: Global)
    ensures Led(acts, g) && Stage(g, 0, EmptyFirst(), 4, Keys(6) - {10}) && g.threads.Keys <= {0}
  {
    acts, g := Six();
    acts, g := Starts(acts, g, 0, FourLeaves(), 4, Keys(6), Remove, 10);
    ViaFirstLeaf(FourLeaves());
    var g0 := g;
    assert 10 in Keys(6) by { assert 10 == 10 * 1; }
    acts, g := Empties(acts, g, 0, FourLeaves(), 4, Keys(6), 10, [4, 1, 0], To(2));
    acts, g := GivesUp(acts, g, PathOf(g0.tree, [4, 1, 0]), true, 10);
  }

  lemma BelowEmpty() returns (acts: seq<Action>, g: Global)
    ensures Led(acts, g) && Holds(g.tree, Joined(EmptyFirst()), 4, Keys(6) - {10} - {20}) && Below4(g)
    ensures g.threads.Keys == {0}
  {
    acts, g := EmptyLeaf();
    assert LikeFour(EmptyFirst(), [20]);
    assert 20 in Keys(6) by { assert 20 == 10 * 2; }
    acts, g := Removes20(acts, g, EmptyFirst(), Keys(6) - {10});
  }

  lemma Mends5(g: Global)
    requires Holds(g.tree, Joined(EmptyFirst()), 4, Keys(6) - {10} - {20}) && Below4(g)
    ensures Mends(g, 0, g.threads[0].pc.path, 0, 1, true) && g.threads[0].pc.path[0].id == 4
  {
    Repairs5(g);
  }

  /** The merge of nodes 1 and 5 has searched the last leaf below node 1, which is empty. */
  ghost predicate Searched(g: Global, plan: Plan) {
    && WF(g.tree) && g.tree.heap == Joined(EmptyFirst()) && g.tree.root == 4 && 30 in g.tree.m
    && 0 in g.threads && g.threads[0].pc == Cleared(plan, Slot(0, 0))
    && plan.JoinPair? && PlanShape(plan) && plan.how == MergePair && Par(plan.path).id == 4 && plan.i == 0
    && plan.left.id == 1
  }

  lemma PlanIs(g: Global, path: Path, plan: Plan)
    requires |path| == 2 && path[0].id == 4 && path[1].id == 5 && 1 in g.tree.ver && 5 in g.tree.ver
    requires plan == JoinPlan(g, path, 0, 1, true)
    ensures plan.JoinPair? && PlanShape(plan) && plan.how == MergePair && Par(plan.path).id == 4 && plan.i == 0
    ensures plan.left.id == 1 && IdsOf(Locks(plan)) == {4, 1, 5}
  {
    assert Locks(plan) == [Par(plan.path), plan.left, plan.right];
  }

  lemma SearchedIs(g: Global, plan: Plan)
    requires Holds(g.tree, Joined(EmptyFirst()), 4, Keys(6) - {10} - {20}) && Below4(g)
    requires plan == JoinPlan(g, g.threads[0].pc.path, 0, 1, true)
    ensures PlanShape(plan) && Searched(Poised(g, 0, plan, Slot(0, 0)), plan)
    ensures Clears(Poised(g, 0, plan, Slot(0, 0)).tree, plan, Slot(0, 0))
  {
    PlanIs(g, g.threads[0].pc.path, plan);
    PoisedIs(g, 0, plan, Slot(0, 0));
    assert 30 in Keys(6) by { assert 30 == 10 * 3; }
  }

  lemma Searches(acts: seq<Action>, g: Global, plan: Plan) returns (all: seq<Action>)
    requires Led(acts, g) && Holds(g.tree, Joined(EmptyFirst()), 4, Keys(6) - {10} - {20}) && Below4(g)
    requires plan == JoinPlan(g, g.threads[0].pc.path, 0, 1, true) && PlanShape(plan)
    requires Clears(Poised(g, 0, plan, Slot(0, 0)).tree, plan, Slot(0, 0))
    ensures Led(all, Poised(g, 0, plan, Slot(0, 0)))
  {
    Mends5(g);
    all := MendThere(g, Empty(SMALL), acts, 0, g.threads[0].pc.path, 0, 1, true);
    all := Readies(g, Empty(SMALL), all, 0, plan, Slot(0, 0));
  }

  lemma Levels(s: State)
    requires WF(s) && s.root == 4 && {0, 1, 4, 5} <= s.heap.Keys
    requires s.heap[4] == Inner([10], [1, 5]) && s.heap[1] == Inner([], [0]) && s.heap[0].Leaf?
    ensures {0, 1, 4, 5} <= s.info.Keys && s.info[4].level == 2 && s.info[1].level == 1 && CanMerge(s, 4, 0)
  {
    assert NodeOk(s, s.heap[4], s.info[4]);
    assert s.heap[4].kids[0] == 1 && s.heap[4].kids[1] == 5;
    KidInside(s, 4, 0, 1);
    KidInside(s, 4, 1, 5);
    assert NodeOk(s, s.heap[1], s.info[1]);
    assert s.heap[1].kids[0] == 0;
    KidInside(s, 1, 0, 0);
    assert NodeOk(s, s.heap[0], s.info[0]);
    PairFacts(s, 4, 0);
  }

  lemma Loses30(s: State)
    requires WF(s) && s.root == 4 && {0, 1, 4, 5} <= s.heap.Keys && s.heap[5].Inner?
    requires s.heap[4] == Inner([10], [1, 5]) && s.heap[1] == Inner([], [0]) && s.heap[0].Leaf?
    ensures CanMerge(s, 4, 0)
    ensures var u := Apply(s, MergeKids(4, 0, 30)); u.root == 1 && u.m == s.m && BTreePull.Find(u.heap, 1, 30, 1).None?
  {
    Levels(s);
    BTreePull.ApplyJoins(s, 4, 0, 30);
    SecondKid([10], 30);
    KidCovers(s, 4, 30);
    BTreePull.FindMerged(s, 4, 0, 30, 30);
  }

  lemma CanPull30(g: Global, plan: Plan)
    requires Searched(g, plan)
    ensures CanBody(g.tree, g.threads[0], plan, Slot(0, 0), 0, 0, 30)
    ensures BodyShift(g.tree, g.threads[0], plan, Slot(0, 0), 0, 0, 30).level < 3
    ensures BodyTree(g.tree, g.threads[0], plan, Slot(0, 0), 0, 0, 30) == Apply(g.tree, MergeKids(4, 0, 30))
  {
    Levels(g.tree);
  }

  lemma Pulls30(acts: seq<Action>, g: Global, plan: Plan) returns (all: seq<Action>, h: Global)
    requires Searched(g, plan) && Led(acts, g)
    ensures h.threads.Keys == g.threads.Keys
    ensures Led(all, h) && 30 in h.tree.m && BTreePull.Find(h.tree.heap, h.tree.root, 30, 1).None?
  {
    CanPull30(g, plan);
    Loses30(g.tree);
    Acts(g, 0, 0, 0, 30, false);
    h := Acted(g, 0, 0, 0, 30, false);
    ReachesNext(Empty(SMALL), acts, g, Body(0, 0, 0, 30, false), h);
    all := acts + [Body(0, 0, 0, 30, false)];
  }

  /** From the empty tree, by one thread: six inserts and two removes, after which the stored key 30 is not found. */
  lemma HollowReached() returns (acts: seq<Action>, h: Global)
    ensures Led(acts, h) && h.threads.Keys == {0}
    ensures 30 in h.tree.m && BTreePull.Find(h.tree.heap, h.tree.root, 30, 1).None?
  {
    var g;
    acts, g := BelowEmpty();
    var plan := JoinPlan(g, g.threads[0].pc.path, 0, 1, true);
    SearchedIs(g, plan);
    acts := Searches(acts, g, plan);
    acts, h := Pulls30(acts, Poised(g, 0, plan, Slot(0, 0)), plan);
  }
}
