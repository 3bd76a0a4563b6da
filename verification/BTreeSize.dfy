/** Page capacities: how full nodes may be, and why splits, borrows and merges respect it. */
module BTreeSize {
  import opened BTreeHeap
  import opened BTreeSections

  /** Entries a leaf page holds, and keys an inner page has room for; an inner page is full one key earlier. */
  datatype Caps = Caps(leaf: nat, inner: nat)

  predicate Full(c: Caps, n: Node) {
    if n.Leaf? then |n.keys| == c.leaf else |n.keys| == c.inner - 1
  }

  predicate Fits(c: Caps, n: Node) {
    if n.Leaf? then |n.keys| <= c.leaf else |n.keys| <= c.inner - 1
  }

  /** No linked page overflows. */
  ghost predicate MaxOk(s: State, c: Caps) {
    forall n {:trigger s.info[n]} {:trigger n in s.info} :: n in s.info && n in s.heap ==> Fits(c, s.heap[n])
  }

  /** Apart from the nodes in `but`, inner pages have a key and leaves other than the root have an entry. */
  ghost predicate MinOk(s: State, but: set<Id>) {
    forall n {:trigger s.info[n]} {:trigger n in s.info} :: n in s.info && n in s.heap && n !in but ==>
      |s.heap[n].keys| >= 1 || (s.heap[n].Leaf? && n == s.root)
  }

  /** The entry count below which a page is rebalanced: the merge test compares count / capacity with the
      single-precision constant 0.4, which is a little above 2 / 5. */
  predicate NeedMerge(c: Caps, n: Node) {
    5 * |n.keys| <= 2 * if n.Leaf? then c.leaf else c.inner
  }

  /** Entries above the rounded-up threshold. */
  function Surplus(c: Caps, n: Node): int {
    |n.keys| - (2 * (if n.Leaf? then c.leaf else c.inner) + 4) / 5
  }

  predicate HasSpace(c: Caps, n: Node, need: nat) {
    if n.Leaf? then |n.keys| + need <= c.leaf else |n.keys| + need + 1 < c.inner
  }

  /** With these capacities a page that needs merging can always be joined with a sibling that has nothing to lend. */
  lemma MergeFits(c: Caps, child: Node, sibling: Node)
    requires c.leaf >= 3 && c.inner >= 9 && child.Leaf? == sibling.Leaf?
    requires NeedMerge(c, child) && Surplus(c, sibling) <= 0
    ensures HasSpace(c, sibling, |child.keys|)
  {
  }

  /** With smaller inner pages that is not so. */
  lemma EightIsTooSmall()
    ensures var c, child, sibling := Caps(3, 8), Inner([1, 2, 3], [0, 1, 2, 3]), Inner([5, 6, 7, 8], [4, 5, 6, 7, 8]);
            NeedMerge(c, child) && Surplus(c, sibling) <= 0 && !HasSpace(c, sibling, |child.keys|)
  {
  }

  /** A node whose page is unchanged by a section keeps its bounds; only the touched pages need checking. */
  lemma SizesKeep(s: State, t: State, c: Caps, but: set<Id>, touched: set<Id>, but': set<Id>)
    requires s.info.Keys <= s.heap.Keys && t.info.Keys <= t.heap.Keys && MaxOk(s, c) && but <= but' + touched
    requires forall n {:trigger t.info[n]} ::
      n in t.info && n !in touched ==> n in s.info && t.heap[n] == s.heap[n] && (n == s.root ==> n == t.root)
    requires forall n {:trigger t.heap[n]} :: n in touched && n in t.info ==> Fits(c, t.heap[n])
    ensures MaxOk(t, c)
    ensures
      MinOk(s, but) &&
      (forall n {:trigger t.heap[n]} :: n in touched && n !in but' && n in t.info ==> |t.heap[n].keys| >= 1) ==>
        MinOk(t, but')
  {
    forall n | n in t.info && n in t.heap ensures Fits(c, t.heap[n]) {
      if n !in touched { assert s.info[n] == s.info[n]; }
    }
    if MinOk(s, but) && forall n {:trigger t.heap[n]} ::
      n in touched && n !in but' && n in t.info ==> |t.heap[n].keys| >= 1 {
      forall n | n in t.info && n in t.heap && n !in but'
        ensures |t.heap[n].keys| >= 1 || (t.heap[n].Leaf? && n == t.root)
      {
        if n !in touched { assert s.info[n] == s.info[n]; }
      }
    }
  }

  lemma HalvesFit(c: Caps, n: Node, extra: Id)
    requires Splittable(n) && Full(c, n) && c.leaf >= 3 && c.inner >= 3
    ensures Fits(c, LeftHalf(n, extra)) && Fits(c, RightHalf(n))
    ensures c.inner >= 5 ==> |LeftHalf(n, extra).keys| >= 1 && |RightHalf(n).keys| >= 1
  {
  }

  lemma SplitPages(s: State, p: Id, i: nat, extra: Id)
    requires WF(s) && CanSplit(s, p, i, extra)
    ensures var t, k := Split(s, p, i, extra), s.heap[p].kids[i];
            && t.info.Keys <= t.heap.Keys && t.root == s.root
            && k in t.heap && t.heap[k] == LeftHalf(s.heap[k], extra)
            && extra in t.heap && t.heap[extra] == RightHalf(s.heap[k])
            && p in t.heap && t.heap[p].Inner? && |t.heap[p].keys| == |s.heap[p].keys| + 1
            && (forall n {:trigger t.info[n]} :: n in t.info && n !in {p, k, extra} ==>
                  n in s.info && n in s.heap && t.heap[n] == s.heap[n])
  {
    SplitSetup(s, p, i, extra);
    SplitTouches(s, p, i, extra);
  }

  lemma SplitSizes(s: State, c: Caps, p: Id, i: nat, extra: Id)
    requires WF(s) && CanSplit(s, p, i, extra) && MaxOk(s, c) && c.leaf >= 3 && c.inner >= 3
    requires !Full(c, s.heap[p]) && Full(c, s.heap[s.heap[p].kids[i]])
    ensures MaxOk(Split(s, p, i, extra), c)
    ensures c.inner >= 5 && MinOk(s, {}) ==> MinOk(Split(s, p, i, extra), {})
  {
    var t, k := Split(s, p, i, extra), s.heap[p].kids[i];
    SplitPages(s, p, i, extra);
    HalvesFit(c, s.heap[k], extra);
    assert Fits(c, s.heap[p]) by { assert s.info[p] == s.info[p]; }
    SizesKeep(s, t, c, {}, {p, k, extra}, {});
  }

  lemma SplitTopTouches(s: State, top: Id, extra: Id)
    requires WF(s) && Splittable(s.heap[s.root]) && top !in s.heap && extra !in s.heap && top != extra
    ensures var t, n, r := SplitTop(s, top, extra), s.heap[s.root], s.info[s.root];
            && t.root == top && top in t.info && t.info[top] == Info(NegInf, PosInf, r.level + 1)
            && t.heap[top].Inner? && |t.heap[top].keys| == 1
            && s.root in t.info && t.info[s.root] == r.(hi := At(SepKey(n))) && t.heap[s.root] == LeftHalf(n, extra)
            && extra in t.info && t.info[extra] == r.(lo := At(SepKey(n))) && t.heap[extra] == RightHalf(n)
            && (forall x {:trigger t.info[x]} :: x in t.info && x !in {top, s.root, extra} ==>
                  x in s.info && t.info[x] == s.info[x] && t.heap[x] == s.heap[x])
  {
  }

  lemma SplitTopSizes(s: State, c: Caps, top: Id, extra: Id)
    requires WF(s) && Splittable(s.heap[s.root]) && top !in s.heap && extra !in s.heap && top != extra
    requires MaxOk(s, c) && c.leaf >= 3 && c.inner >= 3 && Full(c, s.heap[s.root])
    ensures MaxOk(SplitTop(s, top, extra), c)
    ensures c.inner >= 5 && MinOk(s, {}) ==> MinOk(SplitTop(s, top, extra), {})
  {
    SplitTopTouches(s, top, extra);
    SizesKeep(s, SplitTop(s, top, extra), c, {}, {top, s.root, extra}, {});
  }

  lemma RebalanceSizes(s: State, c: Caps, p: Id, i: nat, x: Node, sep: Key, y: Node, z: Id)
    requires WF(s) && Adjacent(s, p, i) && MaxOk(s, c) && MinOk(s, {z})
    requires z == s.heap[p].kids[i] || z == s.heap[p].kids[i + 1]
    requires Fits(c, x) && Fits(c, y) && |x.keys| >= 1 && |y.keys| >= 1
    ensures MaxOk(Rebalance(s, p, i, x, sep, y), c) && MinOk(Rebalance(s, p, i, x, sep, y), {})
  {
    var a, b := s.heap[p].kids[i], s.heap[p].kids[i + 1];
    PairIds(s, p, i);
    RebalanceTouches(s, p, i, x, sep, y);
    assert s.info[p] == s.info[p];
    SizesKeep(s, Rebalance(s, p, i, x, sep, y), c, {z}, {p, a, b}, {});
  }

  lemma MovedSizes(c: Caps, a: Node, sep: Key, b: Node, toLeft: bool)
    requires PagesOk(a) && PagesOk(b) && a.Leaf? == b.Leaf? && Fits(c, a) && Fits(c, b) && c.leaf >= 3 && c.inner >= 9
    requires NeedMerge(c, if toLeft then a else b) && Surplus(c, if toLeft then b else a) > 0
    ensures |(if toLeft then b else a).keys| >= 2
    ensures var x := if toLeft then BorrowFromRight(a, sep, b) else BorrowFromLeft(a, sep, b);
            Fits(c, x.left) && Fits(c, x.right) && |x.left.keys| >= 1 && |x.right.keys| >= 1
  {
  }

  /** A page that needs merging takes an entry from a sibling that can spare one; both stay within bounds. */
  lemma BorrowSizes(s: State, c: Caps, p: Id, i: nat, toLeft: bool)
    requires WF(s) && CanBorrow(s, p, i, toLeft) && MaxOk(s, c) && c.leaf >= 3 && c.inner >= 9
    requires var a, b := s.heap[p].kids[i], s.heap[p].kids[i + 1];
             && NeedMerge(c, s.heap[if toLeft then a else b]) && Surplus(c, s.heap[if toLeft then b else a]) > 0
             && MinOk(s, {if toLeft then a else b})
    ensures MaxOk(Borrow(s, p, i, toLeft), c) && MinOk(Borrow(s, p, i, toLeft), {})
  {
    var a, b, sep := s.heap[p].kids[i], s.heap[p].kids[i + 1], s.heap[p].keys[i];
    assert s.info[a] == s.info[a] && s.info[b] == s.info[b];
    MovedSizes(c, s.heap[a], sep, s.heap[b], toLeft);
    var x := if toLeft then BorrowFromRight(s.heap[a], sep, s.heap[b]) else BorrowFromLeft(s.heap[a], sep, s.heap[b]);
    RebalanceSizes(s, c, p, i, x.left, x.sep, x.right, if toLeft then a else b);
  }

  /** Two siblings with room merge into one page within bounds; the parent has one key less. */
  lemma MergeSizes(s: State, c: Caps, p: Id, i: nat, x: Id)
    requires WF(s) && CanMerge(s, p, i) && MaxOk(s, c) && c.leaf >= 3 && c.inner >= 9
    requires x == s.heap[p].kids[i] || x == s.heap[p].kids[i + 1]
    requires HasSpace(c, s.heap[s.heap[p].kids[i]], |s.heap[s.heap[p].kids[i + 1]].keys|) && MinOk(s, {x})
    ensures MaxOk(MergeShrink(s, p, i), c) && MinOk(MergeShrink(s, p, i), {p})
    ensures p == s.root ==> MinOk(MergeShrink(s, p, i), {})
  {
    var t := MergeShrink(s, p, i);
    var a, b := s.heap[p].kids[i], s.heap[p].kids[i + 1];
    PairFacts(s, p, i);
    RootIsTop(s, p, i);
    RootIsTop(s, p, i + 1);
    MergeShrinkOk(s, p, i);
    assert s.info[p] == s.info[p] && s.info[a] == s.info[a] && s.info[b] == s.info[b];
    SizesKeep(s, t, c, {x}, {p, a, b}, {p});
    if p == s.root {
      SizesKeep(s, t, c, {x}, {p, a, b}, {});
    }
  }

  lemma PivotSizes(s: State, c: Caps, p: Id, i: nat, mx: Key, but: set<Id>)
    requires CanPivot(s, p, i, mx) && MaxOk(s, c) && MinOk(s, but)
    ensures MaxOk(Repivot(s, p, i, mx), c) && MinOk(Repivot(s, p, i, mx), but)
  {
    var t := Repivot(s, p, i, mx);
    forall n | n in t.info && n in t.heap
      ensures Fits(c, t.heap[n]) && (n !in but ==> |t.heap[n].keys| >= 1 || (t.heap[n].Leaf? && n == t.root))
    {
      assert s.info[n] == s.info[n];
    }
  }

  // ----- why the split-and-restart loop ends -----

  ghost predicate FullAt(s: State, c: Caps, k: Key, l: nat) {
    exists n :: n in s.info && n in s.heap && s.info[n].level == l && InRange(s.info[n], k) && Full(c, s.heap[n])
  }

  /** The levels whose node on the search path of `k` is full. */
  ghost function FullLevels(s: State, c: Caps, k: Key): set<nat>
    requires WF(s)
  {
    set l: nat | 0 <= l <= s.info[s.root].level && FullAt(s, c, k, l)
  }

  /** Levels from the top down to the first full one. */
  ghost function Above(s: State, c: Caps, k: Key, l: nat): nat
    requires WF(s)
    decreases l
  {
    if FullAt(s, c, k, l) then 0 else if l == 0 then 1 else 1 + Above(s, c, k, l - 1)
  }

  lemma AboveIs(s: State, c: Caps, k: Key, l: nat, f: nat)
    requires WF(s) && f <= l && FullAt(s, c, k, f) && forall j :: f < j <= l ==> !FullAt(s, c, k, j)
    ensures Above(s, c, k, l) == l - f
  {
  }

  /** Nothing is full on the path of `k` above level `l`. */
  ghost predicate ClearAbove(s: State, c: Caps, k: Key, l: nat) {
    forall n {:trigger s.info[n]} ::
      n in s.info && n in s.heap && s.info[n].level > l && InRange(s.info[n], k) ==> !Full(c, s.heap[n])
  }

  /** One node covers a key at each level. */
  lemma OneCover(s: State, a: Id, b: Id, k: Key)
    requires WF(s) && a in s.info && b in s.info && s.info[a].level == s.info[b].level && InRange(s.info[a], k)
      && InRange(s.info[b], k)
    ensures a == b
  {
    assert NodeOk(s, s.heap[a], s.info[a]) && NodeOk(s, s.heap[b], s.info[b]);
    assert a == b || Apart(s.info[a], s.info[b]);
  }

  lemma SubsetSize<T>(a: set<T>, b: set<T>)
    requires a <= b
    ensures |a| <= |b|
  {
    assert b == a + (b - a);
  }

  lemma FewerOrHigher(F: set<nat>, F': set<nat>, l: nat)
    requires l in F && l + 1 !in F && F' <= F - {l} + {l + 1}
    ensures |F'| <= |F| && (l + 1 !in F' ==> |F'| < |F|)
  {
    if l + 1 in F' {
      SubsetSize(F', F - {l} + {l + 1});
    } else {
      assert F' <= F - {l};
      SubsetSize(F', F - {l});
    }
  }

  /** Level `l`, the topmost full one, is no longer full, and at most the one above it is newly full. */
  lemma Progress(s: State, t: State, c: Caps, k: Key, l: nat)
    requires WF(s) && WF(t) && t.info[t.root].level == s.info[s.root].level && l <= s.info[s.root].level
    requires FullAt(s, c, k, l) && forall j :: l < j <= s.info[s.root].level ==> !FullAt(s, c, k, j)
    requires forall j: nat ::
      j <= s.info[s.root].level && FullAt(t, c, k, j) ==> j != l && (FullAt(s, c, k, j) || j == l + 1)
    ensures |FullLevels(t, c, k)| <= |FullLevels(s, c, k)|
    ensures |FullLevels(t, c, k)| == |FullLevels(s, c, k)| ==>
      Above(t, c, k, t.info[t.root].level) < Above(s, c, k, s.info[s.root].level)
  {
    var h := s.info[s.root].level;
    AboveIs(s, c, k, h, l);
    FewerOrHigher(FullLevels(s, c, k), FullLevels(t, c, k), l);
    if l + 1 in FullLevels(t, c, k) {
      AboveIs(t, c, k, h, l + 1);
    }
  }

  /** Splitting the topmost full node on the path: either fewer levels stay full, or the same number and the topmost
      full level has moved up. */
  lemma SplitProgress(s: State, c: Caps, k: Key, p: Id, i: nat, extra: Id)
    requires WF(s) && CanSplit(s, p, i, extra) && c.leaf >= 3 && c.inner >= 3
    requires var kid := s.heap[p].kids[i];
             Full(c, s.heap[kid]) && InRange(s.info[kid], k) && ClearAbove(s, c, k, s.info[kid].level)
    ensures var t := Split(s, p, i, extra);
            && WF(t) && t.root == s.root && t.info[t.root].level == s.info[s.root].level
            && |FullLevels(t, c, k)| <= |FullLevels(s, c, k)|
            && (|FullLevels(t, c, k)| == |FullLevels(s, c, k)| ==>
                  Above(t, c, k, t.info[t.root].level) < Above(s, c, k, s.info[s.root].level))
  {
    var t, kid := Split(s, p, i, extra), s.heap[p].kids[i];
    var l, h := s.info[kid].level, s.info[s.root].level;
    SplitOk(s, p, i, extra);
    KidInside(s, p, i, kid);
    RootIsTop(s, p, i);
    assert t.info[t.root].level == h by { SplitRootLevel(s, p, i, extra); }
    forall j: nat | j <= h && FullAt(t, c, k, j) ensures j != l && (FullAt(s, c, k, j) || j == l + 1) {
      SplitLevels(s, c, k, p, i, extra, j);
    }
    Progress(s, t, c, k, l);
  }

  lemma SplitRootLevel(s: State, p: Id, i: nat, extra: Id)
    requires WF(s) && CanSplit(s, p, i, extra) && s.heap[p].kids[i] != s.root
    ensures var t := Split(s, p, i, extra); t.root == s.root && t.root in t.info && t.info[t.root] == s.info[s.root]
  {
  }

  lemma SplitLevels(s: State, c: Caps, k: Key, p: Id, i: nat, extra: Id, j: nat)
    requires WF(s) && CanSplit(s, p, i, extra) && c.leaf >= 3 && c.inner >= 3
    requires Full(c, s.heap[s.heap[p].kids[i]]) && InRange(s.info[s.heap[p].kids[i]], k)
      && FullAt(Split(s, p, i, extra), c, k, j)
    ensures j != s.info[s.heap[p].kids[i]].level && (FullAt(s, c, k, j) || j == s.info[s.heap[p].kids[i]].level + 1)
  {
    var t, kid := Split(s, p, i, extra), s.heap[p].kids[i];
    SplitOk(s, p, i, extra);
    SplitSetup(s, p, i, extra);
    SplitTouches(s, p, i, extra);
    KidInside(s, p, i, kid);
    var n :| n in t.info && n in t.heap && t.info[n].level == j && InRange(t.info[n], k) && Full(c, t.heap[n]);
    if j == s.info[kid].level {
      if InRange(t.info[kid], k) { OneCover(t, n, kid, k); } else { OneCover(t, n, extra, k); }
    } else if n != p {
      assert s.info[n] == t.info[n] && s.heap[n] == t.heap[n];
    }
  }

  lemma RootProgress(s: State, c: Caps, k: Key, top: Id, extra: Id)
    requires WF(s) && Splittable(s.heap[s.root]) && top !in s.heap && extra !in s.heap && top != extra
    requires c.leaf >= 3 && c.inner >= 3 && Full(c, s.heap[s.root])
    ensures WF(SplitTop(s, top, extra)) && |FullLevels(SplitTop(s, top, extra), c, k)| < |FullLevels(s, c, k)|
  {
    var t, h := SplitTop(s, top, extra), s.info[s.root].level;
    SplitTopOk(s, top, extra);
    assert FullAt(s, c, k, h) by {
      assert s.root in s.info && InRange(s.info[s.root], k);
    }
    var F, F' := FullLevels(s, c, k), FullLevels(t, c, k);
    forall j | j in F' ensures j in F && j != h {
      RootLevels(s, t, c, k, top, extra, j);
    }
    assert F' <= F - {h};
    SubsetSize(F', F - {h});
  }

  lemma RootLevels(s: State, t: State, c: Caps, k: Key, top: Id, extra: Id, j: nat)
    requires WF(s) && Splittable(s.heap[s.root]) && top !in s.heap && extra !in s.heap && top != extra
    requires t == SplitTop(s, top, extra) && WF(t) && c.leaf >= 3 && c.inner >= 3 && Full(c, s.heap[s.root])
      && FullAt(t, c, k, j)
    ensures j < s.info[s.root].level && FullAt(s, c, k, j)
  {
    SplitTopTouches(s, top, extra);
    var n :| n in t.info && n in t.heap && t.info[n].level == j && InRange(t.info[n], k) && Full(c, t.heap[n]);
    assert n !in {top, s.root, extra};
    assert s.info[n] == t.info[n] && s.heap[n] == t.heap[n];
    if j == s.info[s.root].level {
      OneCover(s, n, s.root, k);
    }
  }
}
