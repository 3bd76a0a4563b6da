/** The B+ tree run by one thread: lookup, insert with eager splits and restarts, next-key insert, remove with borrow
    and merge, and the scan that descends again for every leaf, each proved against the ordered map. */
module BTreeMap {
  import opened SeqOps
  import opened BTreeHeap
  import opened BTreeSections
  import opened BTreeSize

  class BPlusTree {
    const caps: Caps
    var root: Id
    var heap: map<Id, Node>
    var ver: map<Id, nat>
    var nextId: Id
    ghost var info: map<Id, Info>
    ghost var contents: map<Key, Value>

    ghost function S(): State
      reads this
    {
      State(root, heap, ver, info, contents)
    }

    ghost predicate Valid()
      reads this
    {
      WF(S()) && MaxOk(S(), caps) && caps.leaf >= 3 && caps.inner >= 3 && forall n :: n in heap ==> n < nextId
    }

    /** No inner page without keys and, beside the root, no empty leaf. */
    ghost predicate Lean()
      reads this
    {
      MinOk(S(), {})
    }

    constructor (c: Caps)
      requires c.leaf >= 3 && c.inner >= 3
      ensures Valid() && Lean() && contents == map[] && caps == c
    {
      caps := c;
      root, heap, ver, nextId := 0, map[0 := Leaf([], [], Null)], map[0 := 2], 1;
      info, contents := map[0 := Info(NegInf, PosInf, 0)], map[];
      new;
      assert NodeOk(S(), heap[0], info[0]);
    }

    /** Find the leaf for `k`. */
    method Descend(k: Key) returns (leaf: Id)
      requires Valid()
      ensures leaf in info && heap[leaf].Leaf? && InRange(info[leaf], k)
    {
      leaf := root;
      while heap[leaf].Inner?
        invariant leaf in info && InRange(info[leaf], k)
        decreases info[leaf].level
      {
        KidCovers(S(), leaf, k);
        KidInside(S(), leaf, LowerBound(heap[leaf].keys, k), KidFor(S(), leaf, k).value);
        leaf := heap[leaf].kids[LowerBound(heap[leaf].keys, k)];
      }
    }

    method Lookup(k: Key) returns (r: Option<Value>)
      requires Valid()
      ensures r == MapGet(contents, k)
    {
      var leaf := Descend(k);
      LeafAnswers(S(), leaf, k);
      r := LeafGet(heap[leaf], k);
    }

    // ----- insert -----

    method SplitKid(p: Id, i: nat)
      requires Valid() && CanSplit(S(), p, i, nextId)
      modifies this
      ensures S() == Split(old(S()), p, i, old(nextId)) && nextId == old(nextId) + 1
    {
      var c, extra := heap[p].kids[i], nextId;
      var n := heap[c];
      var sep := SepKey(n);
      heap := heap[c := LeftHalf(n, extra)][extra := RightHalf(n)][p := AddKid(heap[p], sep, extra)];
      ver := Bump(ver, {p, c})[extra := 2];
      info := info[c := info[c].(hi := At(sep))][extra := info[c].(lo := At(sep))];
      nextId := nextId + 1;
    }

    method SplitRoot()
      requires Valid() && Splittable(heap[root])
      modifies this
      ensures S() == SplitTop(old(S()), old(nextId), old(nextId) + 1) && nextId == old(nextId) + 2
      ensures forall n :: n in heap ==> n < nextId
    {
      SplitTopIs(S(), nextId, nextId + 1);
      ghost var t := SplitTop(S(), nextId, nextId + 1);
      var c, top, extra := root, nextId, nextId + 1;
      var n := heap[c];
      var sep := SepKey(n);
      heap := heap[c := LeftHalf(n, extra)][extra := RightHalf(n)][top := Inner([sep], [c, extra])];
      ver := Bump(ver, {c})[extra := 2][top := 2];
      info := t.info;
      root, nextId := top, nextId + 2;
    }

    method SplitUnder(k: Key, p: Id, n: Id) returns (extra: Id)
      requires Valid() && OnPath(S(), caps, k, Some(p), n) && Full(caps, heap[n])
        && ClearAbove(S(), caps, k, info[n].level)
      modifies this
      ensures Valid() && SplitKeeps(old(S()), S(), caps, k) && Halved(old(S()), S(), n, extra)
    {
      SplitUnderOk(S(), caps, k, p, n, nextId);
      extra := nextId;
      SplitKid(p, LowerBound(heap[p].keys, k));
    }

    method SplitAbove(k: Key) returns (extra: Id)
      requires Valid() && Full(caps, heap[root])
      modifies this
      ensures Valid() && SplitKeeps(old(S()), S(), caps, k) && Halved(old(S()), S(), old(root), extra)
    {
      SplitRootOk(S(), caps, k, nextId);
      extra := nextId + 1;
      SplitRoot();
    }

    /** Split a full node under its parent, or under a new root. */
    method SplitFull(k: Key, par: Option<Id>, n: Id) returns (extra: Id)
      requires Valid() && OnPath(S(), caps, k, par, n) && Full(caps, heap[n]) && ClearAbove(S(), caps, k, info[n].level)
      modifies this
      ensures Valid() && SplitKeeps(old(S()), S(), caps, k) && Halved(old(S()), S(), n, extra)
    {
      match par
      case None => extra := SplitAbove(k);
      case Some(p) => extra := SplitUnder(k, p, n);
    }

    /** Descend to the leaf for `k`, splitting the first full inner node on the way and giving up after that. */
    method DescendSplitting(k: Key) returns (restart: bool, par: Option<Id>, leaf: Id)
      requires Valid()
      modifies this
      ensures Valid()
      ensures restart ==> SplitKeeps(old(S()), S(), caps, k)
      ensures !restart ==>
        S() == old(S()) && nextId == old(nextId) && OnPath(S(), caps, k, par, leaf) && heap[leaf].Leaf?
        && ClearAbove(S(), caps, k, 0)
    {
      par, leaf, restart := None, root, false;
      while heap[leaf].Inner?
        invariant Valid() && S() == old(S()) && nextId == old(nextId) && OnPath(S(), caps, k, par, leaf)
        invariant ClearAbove(S(), caps, k, info[leaf].level)
        decreases info[leaf].level
      {
        assert NodeOk(S(), heap[leaf], info[leaf]);
        if |heap[leaf].keys| == caps.inner - 1 {
          var _ := SplitFull(k, par, leaf);
          return true, None, leaf;
        }
        KidCovers(S(), leaf, k);
        KidInside(S(), leaf, LowerBound(heap[leaf].keys, k), KidFor(S(), leaf, k).value);
        ClearBelow(S(), caps, k, leaf);
        par, leaf := Some(leaf), heap[leaf].kids[LowerBound(heap[leaf].keys, k)];
      }
      assert NodeOk(S(), heap[leaf], info[leaf]);
    }

    /** Put an entry into a leaf with room, unless the key is there. */
    method PutLeaf(l: Id, k: Key, v: Value) returns (ok: bool)
      requires Valid() && l in info && heap[l].Leaf? && InRange(info[l], k) && !Full(caps, heap[l])
      modifies this
      ensures Valid() && ok == (k !in old(contents)) && contents == if ok then old(contents)[k := v] else old(contents)
      ensures (old(Lean()) ==> Lean()) && PutAt(old(S()), S(), l, k)
    {
      LeafAnswers(S(), l, k);
      assert NodeOk(S(), heap[l], info[l]);
      PutIfOk(S(), l, k, v);
      PutSizes(S(), caps, l, k, v);
      var n, i := heap[l], LowerBound(heap[l].keys, k);
      ok := !(i < |n.keys| && n.keys[i] == k);
      if ok {
        heap := heap[l := Leaf(InsertAt(n.keys, i, k), InsertAt(n.vals, i, v), n.next)];
        contents := contents[k := v];
      }
    }

    /** At a full leaf: split it and put the entry into the half that covers the key. */
    method PutFull(k: Key, v: Value, par: Option<Id>, leaf: Id) returns (ok: bool)
      requires Valid() && OnPath(S(), caps, k, par, leaf) && heap[leaf].Leaf? && Full(caps, heap[leaf])
        && ClearAbove(S(), caps, k, 0)
      modifies this
      ensures Valid() && ok == (k !in old(contents)) && contents == if ok then old(contents)[k := v] else old(contents)
      ensures caps.inner >= 5 && old(Lean()) ==> Lean()
    {
      assert NodeOk(S(), heap[leaf], info[leaf]);
      var sep := SepKey(heap[leaf]);
      var extra := SplitFull(k, par, leaf);
      ok := PutLeaf(if k > sep then extra else leaf, k, v);
    }

    /** At a leaf with room: only the leaf is locked. */
    method PutRoom(k: Key, v: Value, leaf: Id) returns (ok: bool)
      requires Valid() && leaf in info && heap[leaf].Leaf? && InRange(info[leaf], k) && !Full(caps, heap[leaf])
      modifies this
      ensures Valid() && ok == (k !in old(contents)) && contents == if ok then old(contents)[k := v] else old(contents)
      ensures (old(Lean()) ==> Lean()) && PutAt(old(S()), S(), leaf, k)
    {
      RaiseOk(S(), leaf);
      ver := Bump(ver, {leaf});
      ok := PutLeaf(leaf, k, v);
    }

    method Insert(k: Key, v: Value) returns (ok: bool)
      requires Valid()
      modifies this
      ensures Valid() && ok == (k !in old(contents)) && contents == if ok then old(contents)[k := v] else old(contents)
      ensures caps.inner >= 5 && old(Lean()) ==> Lean()
    {
      while true
        invariant Valid() && contents == old(contents) && (caps.inner >= 5 && old(Lean()) ==> Lean())
        decreases |FullLevels(S(), caps, k)|, Above(S(), caps, k, info[root].level)
      {
        var restart, par, leaf := DescendSplitting(k);
        if !restart {
          if |heap[leaf].keys| == caps.leaf {
            ok := PutFull(k, v, par, leaf);
          } else {
            ok := PutRoom(k, v, leaf);
          }
          return;
        }
      }
    }

    /** Insert `k` only if it is absent and `lock` accepts the least key above it.  If that key should be in the next
        leaf and this one is empty, `lock` is asked about what the first slot of the empty page holds, `junk`. */
    method InsertLockNextKey(k: Key, v: Value, lock: (Key, Value) -> bool, junk: (Key, Value)) returns (r: NextInsert)
      requires Valid()
      modifies this
      ensures Valid() && (caps.inner >= 5 && old(Lean()) ==> Lean() && !r.Misread?)
      ensures NextInsertOf(old(contents), k, lock, junk, r)
        && (r.Misread? <==> k !in old(contents) && NextEmpty(S(), k))
      ensures contents == if r.Inserted? || r == Misread(true) then old(contents)[k := v] else old(contents)
    {
      while true
        invariant Valid() && contents == old(contents) && (caps.inner >= 5 && old(Lean()) ==> Lean())
        decreases |FullLevels(S(), caps, k)|, Above(S(), caps, k, info[root].level)
      {
        var restart, par, leaf := DescendSplitting(k);
        if !restart {
          if |heap[leaf].keys| == caps.leaf {
            var _ := SplitFull(k, par, leaf);
          } else {
            r := PutBelowNext(k, v, leaf, lock, junk);
            if caps.inner >= 5 && old(Lean()) { LeanNext(S(), k); }
            return;
          }
        }
      }
    }

    method PutBelowNext(k: Key, v: Value, leaf: Id, lock: (Key, Value) -> bool, junk: (Key, Value))
      returns (r: NextInsert)
      requires Valid() && leaf in info && heap[leaf].Leaf? && InRange(info[leaf], k) && !Full(caps, heap[leaf])
      modifies this
      ensures Valid() && (old(Lean()) ==> Lean()) && NextInsertOf(old(contents), k, lock, junk, r)
      ensures r.Misread? <==> k !in old(contents) && NextEmpty(S(), k)
      ensures contents == if r.Inserted? || r == Misread(true) then old(contents)[k := v] else old(contents)
    {
      LeafAnswers(S(), leaf, k);
      assert NodeOk(S(), heap[leaf], info[leaf]);
      var n, pos := heap[leaf], LowerBound(heap[leaf].keys, k);
      if pos < |n.keys| && n.keys[pos] == k {
        return Exists;
      }
      NextEmptyIs(S(), leaf, k);
      ghost var blind := NextEmpty(S(), k);
      if !blind { LeafNext(S(), leaf, k); }
      var key, val, empty := 0, 0, false;
      if pos == |n.keys| {
        if n.next == Null {
          return NoNextKey;
        }
        empty := |heap[n.next.id].keys| == 0;
        if empty {
          key, val := junk.0, junk.1;
        } else {
          key, val := heap[n.next.id].keys[0], heap[n.next.id].vals[0];
        }
      } else {
        key, val := n.keys[pos], n.vals[pos];
      }
      var ok := lock(key, val);
      if ok {
        ghost var s := S();
        var _ := PutRoom(k, v, leaf);
        NextEmptyKept(s, S(), leaf, k);
      }
      r := if empty then Misread(ok) else if ok then Inserted(key) else Refused(key);
    }

    // ----- scan -----

    /** Visit the entries of the leaf that covers `low`, from `low` upward, and name the key to go on with. */
    method ScanLeaf(start: Key, low: Key, stop: (Key, Value, bool) -> bool, seen: seq<Visit>, ghost lean: bool)
        returns (out: seq<Visit>, quit: bool, from: Key)
      requires Valid() && (lean ==> Lean()) && start <= low && GapsFrom(S(), start, low)
      requires Visits(contents, lean, start, seen) && Covers(contents, start, low, seen) && Going(stop, seen)
      modifies this
      ensures Valid() && S() == old(S()).(ver := ver) && Visits(contents, lean, start, out)
      ensures quit ==> ScanEnd(contents, HasGap(S(), start), start, stop, out)
      ensures !quit ==> GapsFrom(S(), start, from)
      ensures !quit ==>
        start <= from && Covers(contents, start, from, out) && Going(stop, out)
        && LeavesFrom(S(), from) < LeavesFrom(S(), low)
    {
      var leaf := Descend(low);
      RaiseOk(S(), leaf);
      GapWords(S(), Raise(S(), leaf), start);
      ver := Bump(ver, {leaf});
      var n := heap[leaf];
      assert NodeOk(S(), n, info[leaf]);
      forall p | 0 <= p < |n.keys| ensures FlagOk(contents, lean, n, p) {
        LastFlag(S(), leaf, p, lean);
      }
      ghost var mid;
      out, quit, mid := VisitEntries(n, start, low, stop, seen, lean, contents, info[leaf], HasGap(S(), start));
      from := low;
      if !quit {
        AfterLeaf(S(), leaf, low, mid);
        if n.next == Null || |heap[n.next.id].keys| == 0 {
          if n.next == Null {
            EndOfChain(S(), start, leaf, low);
          } else {
            EndAtEmpty(S(), start, leaf, low, mid);
          }
          assert HasGap(S(), start) <==> exists k :: k in contents && mid <= k;
          EndsSeen(contents, HasGap(S(), start), start, mid, stop, lean, out);
          quit := true;
        } else {
          GapsNext(S(), start, leaf, low);
          from := heap[n.next.id].keys[0];
        }
      }
    }

    /** Visit the entries from `start` upward until `stop` asks to end; each leaf is found by a new descent. */
    method ScanForUpdate(start: Key, stop: (Key, Value, bool) -> bool) returns (out: seq<Visit>)
      requires Valid()
      modifies this
      ensures Valid() && S() == old(S()).(ver := ver)
      ensures Visits(contents, old(Lean()), start, out)
      ensures ScanEnd(contents, old(HasGap(S(), start)), start, stop, out)
    {
      ghost var lean := Lean();
      var low, quit := start, false;
      out := [];
      while !quit
        invariant Valid() && S() == old(S()).(ver := ver) && start <= low && Visits(contents, lean, start, out)
        invariant HasGap(S(), start) == old(HasGap(S(), start))
        invariant !quit ==> Covers(contents, start, low, out) && Going(stop, out) && GapsFrom(S(), start, low)
        invariant quit ==> ScanEnd(contents, HasGap(S(), start), start, stop, out)
        decreases !quit, LeavesFrom(S(), low)
      {
        var from;
        ghost var s := S();
        out, quit, from := ScanLeaf(start, low, stop, out, lean);
        GapWords(s, S(), start);
        if !quit {
          low := from;
        }
      }
    }

    // ----- remove -----

    /** The path from the root to the leaf for `k`, each node with its position in its parent. */
    method DescendStack(k: Key) returns (stack: seq<Step>)
      requires Valid()
      ensures |stack| > 0 && PathOk(S(), stack)
      ensures var leaf := stack[|stack| - 1].node; heap[leaf].Leaf? && InRange(info[leaf], k)
    {
      var node := root;
      stack := [Step(root, 0)];
      while heap[node].Inner?
        invariant |stack| > 0 && stack[|stack| - 1].node == node && PathOk(S(), stack) && InRange(info[node], k)
        decreases info[node].level
      {
        var i := LowerBound(heap[node].keys, k);
        KidCovers(S(), node, k);
        KidInside(S(), node, i, KidFor(S(), node, k).value);
        PathPush(S(), stack, heap[node].kids[i], i);
        node := heap[node].kids[i];
        stack := stack + [Step(node, i)];
      }
    }

    /** The largest key below an inner node: the last key of its rightmost leaf.  If that leaf is empty, it is whatever
        lies in front of the leaf's keys, `junk`. */
    method SubTreeMaxKey(a: Id, junk: Key) returns (mx: Key)
      requires Valid() && a in info
      ensures if |heap[Spine(S(), a, 0)].keys| > 0 then SubTreeMax(S(), a, mx) else mx == junk
    {
      var n := a;
      while heap[n].Inner?
        invariant n in info && Spine(S(), n, 0) == Spine(S(), a, 0)
        decreases info[n].level
      {
        assert NodeOk(S(), heap[n], info[n]);
        KidInside(S(), n, |heap[n].kids| - 1, heap[n].kids[|heap[n].kids| - 1]);
        n := heap[n].kids[|heap[n].kids| - 1];
      }
      assert NodeOk(S(), heap[n], info[n]);
      mx := if |heap[n].keys| > 0 then heap[n].keys[|heap[n].keys| - 1] else junk;
    }

    method EraseLeaf(l: Id, k: Key) returns (ok: bool)
      requires Valid() && Lean() && l in info && heap[l].Leaf? && InRange(info[l], k)
      modifies this
      ensures Valid() && MinOk(S(), {l}) && ok == (k in old(contents)) && contents == old(contents) - {k}
      ensures root == old(root) && info == old(info) && l in heap && heap[l].Leaf?
      ensures forall x :: x in old(heap) && x != l ==> x in heap && heap[x] == old(heap[x])
    {
      LeafAnswers(S(), l, k);
      assert NodeOk(S(), heap[l], info[l]);
      EraseIfOk(S(), l, k);
      ghost var t := Raise(EraseIf(S(), l, k), l);
      RaiseOk(EraseIf(S(), l, k), l);
      EraseSizes(S(), caps, l, k);
      var n, i := heap[l], LowerBound(heap[l].keys, k);
      ok := i < |n.keys| && n.keys[i] == k;
      if ok {
        heap := heap[l := Leaf(RemoveAt(n.keys, i), RemoveAt(n.vals, i), n.next)];
        contents := contents - {k};
      }
      ver := Bump(ver, {l});
      assert S() == t;
    }

    method BorrowKids(p: Id, i: nat, toLeft: bool)
      requires Valid() && caps.inner >= 9 && CanBorrow(S(), p, i, toLeft)
      requires var a, b := heap[p].kids[i], heap[p].kids[i + 1];
               && NeedMerge(caps, heap[if toLeft then a else b]) && Surplus(caps, heap[if toLeft then b else a]) > 0
               && MinOk(S(), {if toLeft then a else b})
      modifies this
      ensures Valid() && Lean() && contents == old(contents)
    {
      BorrowOk(S(), p, i, toLeft);
      BorrowSizes(S(), caps, p, i, toLeft);
      PairIds(S(), p, i);
      ghost var t := Borrow(S(), p, i, toLeft);
      var P := heap[p];
      var a, b, sep := P.kids[i], P.kids[i + 1], P.keys[i];
      var x := if toLeft then BorrowFromRight(heap[a], sep, heap[b]) else BorrowFromLeft(heap[a], sep, heap[b]);
      heap := heap[a := x.left][b := x.right][p := Inner(P.keys[i := x.sep], P.kids)];
      ver := Bump(ver, {p, a, b});
      info := t.info;
      assert S() == t;
    }

    /** Merge child `i + 1` of `p` into child `i`; an inner page pulls down the largest key below the left child. */
    method MergeKids(p: Id, i: nat, ghost x: Id)
      requires Valid() && caps.inner >= 9 && CanMerge(S(), p, i)
      requires x == heap[p].kids[i] || x == heap[p].kids[i + 1]
      requires HasSpace(caps, heap[heap[p].kids[i]], |heap[heap[p].kids[i + 1]].keys|) && MinOk(S(), {x})
      modifies this
      ensures Valid() && contents == old(contents) && MergeKeeps(old(S()), S(), p) && MinOk(S(), {p})
      ensures p == old(root) ==> Lean()
    {
      var a, mx := heap[p].kids[i], 0;
      if heap[a].Inner? {
        SpineFull(S(), p, i, x);
        mx := SubTreeMaxKey(a, 0);
        MaxIsPullable(S(), p, i, mx);
      }
      MergeKidsKeeps(S(), caps, p, i, mx, x);
      JoinPages(p, i, mx);
    }

    method JoinPages(p: Id, i: nat, mx: Key)
      requires Valid() && Enabled(S(), Write.MergeKids(p, i, mx))
      modifies this
      ensures S() == Apply(old(S()), Write.MergeKids(p, i, mx)) && nextId == old(nextId) && forall n ::
        n in heap ==> n < nextId
    {
      MergeKidsIs(S(), p, i, mx);
      ghost var t := Apply(S(), Write.MergeKids(p, i, mx));
      var P := heap[p];
      var a, b := P.kids[i], P.kids[i + 1];
      heap := heap[a := MergedNode(heap[a], mx, heap[b])][p := Inner(RemoveAt(P.keys, i), RemoveAt(P.kids, i + 1))];
      ver := Bump(ver, {p, a, b});
      if p == root && |P.keys| == 1 {
        root := a;
      }
      info := t.info;
    }

    /** Borrow an entry for child `pos` from a sibling that can spare one or, failing that, merge it with a sibling. */
    method JoinSibling(p: Id, pos: nat, child: Id) returns (merged: bool)
      requires Valid() && caps.inner >= 9 && IsKid(S(), p, pos, child) && Siblings(S(), p, pos)
      requires |heap[p].keys| >= 1 && NeedMerge(caps, heap[child]) && MinOk(S(), {child})
      modifies this
      ensures Valid() && contents == old(contents)
      ensures if merged then MergeKeeps(old(S()), S(), p) && MinOk(S(), {p}) && (p == old(root) ==> Lean()) else Lean()
    {
      var kids := heap[p].kids;
      var hasLeft, hasRight := pos > 0, pos < |heap[p].keys|;
      if hasLeft && Surplus(caps, heap[kids[pos - 1]]) > 0 {
        BorrowKids(p, pos - 1, false);
        return false;
      }
      if hasRight && Surplus(caps, heap[kids[pos + 1]]) > 0 {
        BorrowKids(p, pos, true);
        return false;
      }
      if hasLeft && HasSpace(caps, heap[kids[pos - 1]], |heap[child].keys|) {
        MergeKids(p, pos - 1, child);
      } else {
        MergeFits(caps, heap[child], heap[kids[if hasLeft then pos - 1 else pos + 1]]);
        assert hasRight && HasSpace(caps, heap[kids[pos + 1]], |heap[child].keys|);
        MergeKids(p, pos, child);
      }
      merged := true;
    }

    /** Repair the page on top of the stack with the help of a sibling, then its parent if that became too small. */
    method EraseMerge(stack: seq<Step>) returns (done: bool)
      requires Valid() && caps.inner >= 9 && |stack| > 0
      requires |stack| == 1 ==> Lean()
      requires |stack| > 1 ==>
        PathOk(S(), stack) && NeedMerge(caps, heap[stack[|stack| - 1].node]) && MinOk(S(), {stack[|stack| - 1].node})
      modifies this
      ensures Valid() && Lean() && contents == old(contents) && done == (|stack| > 1)
      decreases |stack|
    {
      if |stack| == 1 {
        return false;
      }
      var child, pos, p := stack[|stack| - 1].node, stack[|stack| - 1].pos, stack[|stack| - 2].node;
      PathTop(S(), stack);
      var merged := JoinSibling(p, pos, child);
      if merged {
        PathPop(old(S()), S(), stack);
        if NeedMerge(caps, heap[p]) {
          var _ := EraseMerge(stack[..|stack| - 1]);
        }
      }
      done := true;
    }

    method Remove(k: Key) returns (ok: bool)
      requires Valid() && Lean() && caps.inner >= 9
      modifies this
      ensures Valid() && Lean() && ok == (k in old(contents)) && contents == old(contents) - {k}
    {
      var stack := DescendStack(k);
      var leaf := stack[|stack| - 1].node;
      ok := EraseLeaf(leaf, k);
      PathSame(old(S()), S(), stack);
      if |stack| > 1 && NeedMerge(caps, heap[leaf]) {
        var _ := EraseMerge(stack);
      }
    }
  }

  /** A node on a root-to-leaf path and its position in the node before it. */
  datatype Step = Step(node: Id, pos: nat)

  ghost predicate PathOk(s: State, stack: seq<Step>) {
    && (forall i {:trigger stack[i]} :: 0 <= i < |stack| ==> stack[i].node in s.info && stack[i].node in s.heap)
    && (|stack| > 0 ==> stack[0].node == s.root && s.root in s.info)
    && (forall i {:trigger stack[i]} :: 0 < i < |stack| ==> IsKid(s, stack[i - 1].node, stack[i].pos, stack[i].node))
    && (forall i {:trigger stack[i]} :: 0 <= i < |stack| ==> s.info[stack[i].node].level + i == s.info[s.root].level)
  }

  lemma PathPush(s: State, stack: seq<Step>, n: Id, i: nat)
    requires WF(s) && PathOk(s, stack) && |stack| > 0 && IsKid(s, stack[|stack| - 1].node, i, n)
    ensures PathOk(s, stack + [Step(n, i)])
  {
    KidInside(s, stack[|stack| - 1].node, i, n);
  }

  /** The two nodes on top of the stack, and the siblings the upper one can offer. */
  lemma PathTop(s: State, stack: seq<Step>)
    requires WF(s) && PathOk(s, stack) && |stack| > 1
    ensures var child, pos, p := stack[|stack| - 1].node, stack[|stack| - 1].pos, stack[|stack| - 2].node;
            && IsKid(s, p, pos, child) && Siblings(s, p, pos)
            && (MinOk(s, {child}) ==> |s.heap[p].keys| >= 1)
  {
    var child, pos, p := stack[|stack| - 1].node, stack[|stack| - 1].pos, stack[|stack| - 2].node;
    assert IsKid(s, p, pos, child);
    assert NodeOk(s, s.heap[p], s.info[p]) && NodeOk(s, s.heap[child], s.info[child]);
    if pos > 0 {
      PairFacts(s, p, pos - 1);
    }
    if pos < |s.heap[p].keys| {
      PairFacts(s, p, pos);
    }
  }

  /** Both neighbours of a child, where they exist, are pages of its kind. */
  ghost predicate Siblings(s: State, p: Id, pos: nat) {
    && p in s.heap && s.heap[p].Inner? && pos <= |s.heap[p].keys| && |s.heap[p].kids| == |s.heap[p].keys| + 1
    && s.heap[p].kids[pos] in s.heap && PagesOk(s.heap[s.heap[p].kids[pos]])
    && (pos > 0 ==> Adjacent(s, p, pos - 1) && Alike(s.heap[s.heap[p].kids[pos - 1]], s.heap[s.heap[p].kids[pos]]))
    && (pos < |s.heap[p].keys| ==>
       Adjacent(s, p, pos) && Alike(s.heap[s.heap[p].kids[pos + 1]], s.heap[s.heap[p].kids[pos]]))
  }

  predicate Alike(a: Node, b: Node) {
    a.Leaf? == b.Leaf? && PagesOk(a)
  }

  /** A merge below `p` leaves the nodes above it alone. */
  ghost predicate MergeKeeps(s: State, t: State, p: Id) {
    && p in s.info && p in t.heap && t.heap[p].Inner?
    && (p != s.root ==> t.root == s.root && forall n {:trigger t.info[n]} {:trigger n in t.info} ::
          n in s.info && n in s.heap && s.info[n].level >= s.info[p].level ==>
          n in t.info && n in t.heap && t.info[n].level == s.info[n].level && (n != p ==> t.heap[n] == s.heap[n]))
  }

  lemma PathPop(s: State, t: State, stack: seq<Step>)
    requires WF(s) && WF(t) && PathOk(s, stack) && |stack| > 1 && MergeKeeps(s, t, stack[|stack| - 2].node)
    ensures |stack| == 2 ==> stack[0].node == s.root
    ensures |stack| > 2 ==> stack[|stack| - 2].node != s.root && PathOk(t, stack[..|stack| - 1])
  {
    var st, p := stack[..|stack| - 1], stack[|stack| - 2].node;
    if |stack| > 2 {
      assert s.info[p].level + |stack| - 2 == s.info[s.root].level;
      assert t.root in t.info;
      forall i | 0 <= i < |st|
        ensures st[i].node in t.info && st[i].node in t.heap && t.info[st[i].node].level + i == t.info[t.root].level
      {
        assert st[i] == stack[i];
        assert st[i].node in t.info;
      }
      forall i | 0 < i < |st| ensures IsKid(t, st[i - 1].node, st[i].pos, st[i].node) {
        assert st[i] == stack[i] && st[i - 1] == stack[i - 1];
        assert st[i - 1].node in t.info;
      }
    }
  }

  lemma PathSame(s: State, t: State, stack: seq<Step>)
    requires WF(s) && PathOk(s, stack) && |stack| > 0 && t.root == s.root && t.info == s.info
    requires stack[|stack| - 1].node in t.heap && s.heap[stack[|stack| - 1].node].Leaf?
    requires forall x :: x in s.heap && x != stack[|stack| - 1].node ==> x in t.heap && t.heap[x] == s.heap[x]
    ensures PathOk(t, stack)
  {
  }

  lemma EraseSizes(s: State, c: Caps, l: Id, k: Key)
    requires WF(s) && MaxOk(s, c) && MinOk(s, {}) && l in s.info && s.heap[l].Leaf? && PagesOk(s.heap[l])
    ensures MaxOk(EraseIf(s, l, k), c) && MinOk(EraseIf(s, l, k), {l})
  {
    var t := EraseIf(s, l, k);
    forall n | n in t.info && n in t.heap
      ensures Fits(c, t.heap[n]) && (n != l ==> |t.heap[n].keys| >= 1 || (t.heap[n].Leaf? && n == t.root))
    {
      assert s.info[n] == s.info[n];
    }
  }

  /** The rightmost leaf below an inner node is not empty, unless it is the page being repaired. */
  lemma SpineFull(s: State, p: Id, i: nat, x: Id)
    requires WF(s) && CanMerge(s, p, i) && s.heap[s.heap[p].kids[i]].Inner? && MinOk(s, {x})
    requires x == s.heap[p].kids[i] || x == s.heap[p].kids[i + 1]
    ensures |s.heap[Spine(s, s.heap[p].kids[i], 0)].keys| > 0
  {
    PairFacts(s, p, i);
    var z := Spine(s, s.heap[p].kids[i], 0);
    assert s.info[z].level == 0 && s.info[x].level > 0 && s.info[s.root].level > 0;
  }

  lemma MergeKidsSizes(s: State, c: Caps, p: Id, i: nat, mx: Key, x: Id)
    requires WF(s) && Enabled(s, Write.MergeKids(p, i, mx)) && Sound(s, Write.MergeKids(p, i, mx)) && MaxOk(s, c)
      && c.leaf >= 3 && c.inner >= 9
    requires x == s.heap[p].kids[i] || x == s.heap[p].kids[i + 1]
    requires HasSpace(c, s.heap[s.heap[p].kids[i]], |s.heap[s.heap[p].kids[i + 1]].keys|) && MinOk(s, {x})
    ensures var t := Apply(s, Write.MergeKids(p, i, mx));
            MaxOk(t, c) && MinOk(t, {p}) && (p == s.root ==> MinOk(t, {}))
  {
    if s.heap[s.heap[p].kids[i]].Leaf? {
      MergeSizes(s, c, p, i, x);
    } else {
      PairIds(s, p, i);
      PivotMerges(s, p, i, mx);
      RepivotOk(s, p, i, mx);
      PivotSizes(s, c, p, i, mx, {x});
      MergeSizes(Repivot(s, p, i, mx), c, p, i, x);
    }
  }

  lemma MergeKidsKeeps(s: State, c: Caps, p: Id, i: nat, mx: Key, x: Id)
    requires WF(s) && Enabled(s, Write.MergeKids(p, i, mx)) && Sound(s, Write.MergeKids(p, i, mx)) && MaxOk(s, c)
      && c.leaf >= 3 && c.inner >= 9
    requires x == s.heap[p].kids[i] || x == s.heap[p].kids[i + 1]
    requires HasSpace(c, s.heap[s.heap[p].kids[i]], |s.heap[s.heap[p].kids[i + 1]].keys|) && MinOk(s, {x})
    ensures var t := Apply(s, Write.MergeKids(p, i, mx));
            && WF(t) && t.m == s.m && MergeKeeps(s, t, p)
            && MaxOk(t, c) && MinOk(t, {p}) && (p == s.root ==> MinOk(t, {}))
  {
    ApplyOk(s, Write.MergeKids(p, i, mx));
    MergeKidsSizes(s, c, p, i, mx, x);
    MergeKidsIs(s, p, i, mx);
  }

  /** A merge, in one piece. */
  lemma MergeKidsIs(s: State, p: Id, i: nat, mx: Key)
    requires WF(s) && Enabled(s, Write.MergeKids(p, i, mx))
    ensures var t, P := Apply(s, Write.MergeKids(p, i, mx)), s.heap[p]; var a, b := P.kids[i], P.kids[i + 1];
            && t.heap == s.heap[a := MergedNode(s.heap[a], mx, s.heap[b])][p :=
               Inner(RemoveAt(P.keys, i), RemoveAt(P.kids, i + 1))]
            && t.ver == Bump(s.ver, {p, a, b}) && t.root == (if p == s.root && |P.keys| == 1 then a else s.root)
            && MergeKeeps(s, t, p)
  {
    PairFacts(s, p, i);
    var P := s.heap[p];
    if s.heap[P.kids[i]].Inner? {
      PivotMerges(s, p, i, mx);
      assert RemoveAt(P.keys[i := mx], i) == RemoveAt(P.keys, i);
    }
  }

  /** One call of the scan's processor: key, value, and whether this is announced as the last item. */
  datatype Visit = Visit(key: Key, val: Value, last: bool)

  ghost predicate NoneAbove(m: map<Key, Value>, k: Key) {
    forall j :: j in m ==> j <= k
  }

  /** Every visited item is an entry of the map at or above `start`, in ascending order; an item is announced as last
      only if no greater key exists and, in a tree without empty leaves, exactly then. */
  ghost predicate Visits(m: map<Key, Value>, lean: bool, start: Key, out: seq<Visit>) {
    && (forall i :: 0 <= i < |out| ==> start <= out[i].key && out[i].key in m && m[out[i].key] == out[i].val)
    && (forall i :: 0 <= i < |out| ==>
       (out[i].last ==> NoneAbove(m, out[i].key)) && (lean && NoneAbove(m, out[i].key) ==> out[i].last))
    && (forall i, j :: 0 <= i < j < |out| ==> out[i].key < out[j].key)
  }

  ghost predicate Seen(out: seq<Visit>, k: Key) {
    exists i :: 0 <= i < |out| && out[i].key == k
  }

  /** The visited items are exactly the keys of the map from `start` up to, not including, `low`. */
  ghost predicate Covers(m: map<Key, Value>, start: Key, low: Key, out: seq<Visit>) {
    && (forall i :: 0 <= i < |out| ==> out[i].key < low)
    && (forall k :: k in m && start <= k < low ==> Seen(out, k))
  }

  ghost predicate Going(stop: (Key, Value, bool) -> bool, out: seq<Visit>) {
    forall i :: 0 <= i < |out| ==> !stop(out[i].key, out[i].val, out[i].last)
  }

  /** An empty leaf behind the one where the scan starts, with keys behind it. */
  ghost predicate Gap(s: State, start: Key, l: Id) {
    && l in s.info && l in s.heap && s.heap[l].Leaf? && s.heap[l].keys == [] && Le(At(start), s.info[l].lo)
    && exists k :: k in s.m && Lt(s.info[l].hi, At(k))
  }

  ghost predicate HasGap(s: State, start: Key) {
    exists l :: Gap(s, start, l)
  }

  /** No key was skipped, `stop` held at most at the last item, and a scan that it did not end has seen everything if
      and only if there is no gap. */
  ghost predicate ScanEnd(m: map<Key, Value>, gap: bool, start: Key, stop: (Key, Value, bool) -> bool,
          out: seq<Visit>) {
    && (|out| > 0 ==> Covers(m, start, out[|out| - 1].key + 1, out) && Going(stop, out[..|out| - 1]))
    && (Going(stop, out) ==> (!gap <==> forall k :: k in m && start <= k ==> Seen(out, k)))
  }

  lemma NoGapWhenLean(s: State, start: Key)
    requires WF(s) && MinOk(s, {})
    ensures !HasGap(s, start)
  {
    forall l | l in s.info && l in s.heap && s.heap[l].Leaf? && s.heap[l].keys == [] ensures s.info[l].lo == NegInf {
      assert s.info[l] == s.info[l];
    }
  }

  lemma GapWords(s: State, t: State, start: Key)
    requires t == s.(ver := t.ver)
    ensures HasGap(s, start) == HasGap(t, start) && forall low :: GapsFrom(s, start, low) == GapsFrom(t, start, low)
  {
    forall l ensures Gap(s, start, l) == Gap(t, start, l) { }
    assert forall low :: GapsFrom(s, start, low) == GapsFrom(t, start, low);
  }

  /** Behind `low` the scan has still all gaps before it. */
  ghost predicate GapsFrom(s: State, start: Key, low: Key) {
    forall l {:trigger Gap(s, start, l)} :: Gap(s, start, l) ==> Le(At(low), s.info[l].lo)
  }

  /** No gap lies between a leaf and the first entry of the next one. */
  lemma GapsNext(s: State, start: Key, l: Id, low: Key)
    requires WF(s) && l in s.info && s.heap[l].Leaf? && InRange(s.info[l], low) && GapsFrom(s, start, low)
    requires s.heap[l].next.To? && s.heap[l].next.id in s.heap && |s.heap[s.heap[l].next.id].keys| > 0
    ensures GapsFrom(s, start, s.heap[s.heap[l].next.id].keys[0])
  {
    var y := s.heap[l].next.id;
    assert NodeOk(s, s.heap[l], s.info[l]) && NodeOk(s, s.heap[y], s.info[y]);
    forall x | Gap(s, start, x) ensures Le(At(s.heap[y].keys[0]), s.info[x].lo) {
      assert NodeOk(s, s.heap[x], s.info[x]);
      assert Apart(s.info[x], s.info[l]) && Apart(s.info[x], s.info[y]);
    }
  }

  /** Where the chain of leaves ends, every key has been seen and there was no gap. */
  lemma EndOfChain(s: State, start: Key, l: Id, low: Key)
    requires WF(s) && l in s.info && s.heap[l].Leaf? && InRange(s.info[l], low) && GapsFrom(s, start, low)
    requires s.heap[l].next.Null?
    ensures !HasGap(s, start)
  {
    assert NodeOk(s, s.heap[l], s.info[l]);
    forall x | x in s.info && x in s.heap && s.heap[x].Leaf? && x != l ensures !Gap(s, start, x) {
      assert NodeOk(s, s.heap[x], s.info[x]);
      assert Apart(s.info[x], s.info[l]);
    }
  }

  /** At an empty next leaf the scan ends: there is a gap if and only if a key is left. */
  lemma EndAtEmpty(s: State, start: Key, l: Id, low: Key, mid: Key)
    requires WF(s) && l in s.info && s.heap[l].Leaf? && InRange(s.info[l], low) && GapsFrom(s, start, low)
      && start <= low
    requires low <= mid && Le(At(mid - 1), s.info[l].hi) && forall j :: j in s.m && mid <= j ==> Lt(s.info[l].hi, At(j))
    requires s.heap[l].next.To? && s.heap[l].next.id in s.heap && s.heap[s.heap[l].next.id].keys == []
    ensures HasGap(s, start) <==> exists k :: k in s.m && mid <= k
  {
    var y := s.heap[l].next.id;
    assert NodeOk(s, s.heap[l], s.info[l]) && NodeOk(s, s.heap[y], s.info[y]);
    if exists k :: k in s.m && mid <= k {
      var k :| k in s.m && mid <= k;
      assert !InRange(s.info[y], k);
      assert Gap(s, start, y);
    } else {
      forall x | x in s.info && x in s.heap && s.heap[x].Leaf? && x != l ensures !Gap(s, start, x) {
        assert NodeOk(s, s.heap[x], s.info[x]);
        assert Apart(s.info[x], s.info[l]);
      }
    }
  }

  /** What is left unseen when the scan ends at `mid`. */
  lemma EndsSeen(m: map<Key, Value>, gap: bool, start: Key, mid: Key, stop: (Key, Value, bool) -> bool, lean: bool,
          out: seq<Visit>)
    requires Covers(m, start, mid, out) && Going(stop, out) && Visits(m, lean, start, out) && start <= mid
    requires gap <==> exists k :: k in m && mid <= k
    ensures ScanEnd(m, gap, start, stop, out)
  {
    if exists k :: k in m && mid <= k {
      var k :| k in m && mid <= k;
      assert !Seen(out, k);
    }
    if |out| > 0 {
      var last := out[|out| - 1].key;
      forall k | k in m && start <= k < last + 1 ensures Seen(out, k) {
        assert k < mid;
      }
    }
  }

  /** A root above three leaves, the middle one empty. */
  function ThreeLeaves(): State {
    State(0, map[0 := Inner([10, 20], [1, 2, 3]), 1 := Leaf([10], [0], To(2)), 2 := Leaf([], [], To(3)),
                 3 := Leaf([30], [0], Null)],
          map[0 := 2, 1 := 2, 2 := 2, 3 := 2],
          map[0 := Info(NegInf, PosInf, 1), 1 := Info(NegInf, At(10), 0), 2 := Info(At(10), At(20), 0),
              3 := Info(At(20), PosInf, 0)],
          map[10 := 0, 30 := 0])
  }

  lemma ThreeLeavesOk(n: Id)
    requires n in ThreeLeaves().info
    ensures n in ThreeLeaves().heap && NodeOk(ThreeLeaves(), ThreeLeaves().heap[n], ThreeLeaves().info[n])
  {
    var s := ThreeLeaves();
    if n == 0 {
      assert NodeOk(s, Inner([10, 20], [1, 2, 3]), Info(NegInf, PosInf, 1));
    } else if n == 1 {
      assert NodeOk(s, Leaf([10], [0], To(2)), Info(NegInf, At(10), 0));
    } else if n == 2 {
      assert NodeOk(s, Leaf([], [], To(3)), Info(At(10), At(20), 0));
    } else {
      assert NodeOk(s, Leaf([30], [0], Null), Info(At(20), PosInf, 0));
    }
  }

  lemma ThreeLeavesApart(a: Id, b: Id)
    requires var s := ThreeLeaves(); a in s.info && b in s.info && a != b && s.info[a].level == s.info[b].level
    ensures Apart(ThreeLeaves().info[a], ThreeLeaves().info[b])
  {
  }

  lemma ThreeLeavesFit(s: State)
    requires s == ThreeLeaves()
    ensures MaxOk(s, Caps(3, 3)) && s.info.Keys == s.heap.Keys == s.ver.Keys == {0, 1, 2, 3} && s.m.Keys == {10, 30}
    ensures s.root == 0 && s.info[0] == Info(NegInf, PosInf, 1) && forall n :: n in s.info ==> s.info[n].level <= 1
  {
  }

  lemma ThreeLeavesTree(s: State)
    requires s == ThreeLeaves()
    ensures WF(s)
  {
    ThreeLeavesFit(s);
    assert forall n {:trigger NodeOk(s, s.heap[n], s.info[n])} :: n in s.info ==> NodeOk(s, s.heap[n], s.info[n]) by {
      forall n | n in s.info ensures NodeOk(s, s.heap[n], s.info[n]) {
        ThreeLeavesOk(n);
      }
    }
    forall a, b | a in s.info && b in s.info && a != b && s.info[a].level == s.info[b].level
      ensures Apart(s.info[a], s.info[b])
    {
      ThreeLeavesApart(a, b);
    }
  }

  /** A scan of it from 0 that nothing stops sees 10 and not 30. */
  lemma GapTree(s: State)
    requires s == ThreeLeaves()
    ensures WF(s) && MaxOk(s, Caps(3, 3)) && HasGap(s, 0) && s.m.Keys == {10, 30}
  {
    ThreeLeavesFit(s);
    ThreeLeavesTree(s);
    assert 30 in s.m && Lt(s.info[2].hi, At(30));
    assert Gap(s, 0, 2);
  }

  /** The loop over the entries of one leaf. */
  method VisitEntries(n: Node, start: Key, low: Key, stop: (Key, Value, bool) -> bool, seen: seq<Visit>,
                      ghost lean: bool, ghost m: map<Key, Value>, ghost r: Info, ghost gap: bool)
      returns (out: seq<Visit>, quit: bool, ghost mid: Key)
    requires n.Leaf? && LeafBody(m, n, r) && InRange(r, low) && start <= low && forall p ::
      0 <= p < |n.keys| ==> FlagOk(m, lean, n, p)
    requires Visits(m, lean, start, seen) && Covers(m, start, low, seen) && Going(stop, seen)
    ensures Visits(m, lean, start, out)
    ensures quit ==> ScanEnd(m, gap, start, stop, out)
    ensures !quit ==> low <= mid && Le(At(mid - 1), r.hi) && Covers(m, start, mid, out) && Going(stop, out)
    ensures !quit ==> forall j :: j in m && mid <= j ==> Lt(r.hi, At(j))
  {
    out, mid := seen, low;
    var p := LowerBound(n.keys, low);
    while p < |n.keys|
      invariant low <= mid && Le(At(mid - 1), r.hi) && StartsAt(n.keys, mid, p)
      invariant Visits(m, lean, start, out) && Covers(m, start, mid, out) && Going(stop, out)
    {
      var v := Visit(n.keys[p], n.vals[p], n.next == Null && p + 1 == |n.keys|);
      assert FlagOk(m, lean, n, p);
      LeafFrom(m, n, r, low, mid, p);
      AddVisit(m, lean, start, mid, out, v);
      StopOrGo(m, gap, start, stop, out, v);
      StartNext(n.keys, mid, p);
      out := out + [v];
      if stop(v.key, v.val, v.last) {
        return out, true, mid;
      }
      p, mid := p + 1, n.keys[p] + 1;
    }
    LeafFrom(m, n, r, low, mid, p);
    quit := false;
  }

  /** The nodes that reach up to `low` or beyond. */
  ghost function LeavesFrom(s: State, low: Key): set<Id> {
    set n | n in s.info && Le(At(low), s.info[n].hi)
  }

  lemma StopOrGo(m: map<Key, Value>, gap: bool, start: Key, stop: (Key, Value, bool) -> bool, out: seq<Visit>,
          v: Visit)
    requires Covers(m, start, v.key + 1, out + [v]) && Going(stop, out)
    ensures if stop(v.key, v.val, v.last) then ScanEnd(m, gap, start, stop, out + [v]) else Going(stop, out + [v])
  {
    var o := out + [v];
    assert o[|o| - 1] == v && o[..|o| - 1] == out;
  }

  lemma StartNext(keys: seq<Key>, mid: Key, p: nat)
    requires Sorted(keys) && StartsAt(keys, mid, p) && p < |keys|
    ensures mid <= keys[p] && StartsAt(keys, keys[p] + 1, p + 1)
  {
  }

  lemma AddVisit(m: map<Key, Value>, lean: bool, start: Key, mid: Key, out: seq<Visit>, v: Visit)
    requires Visits(m, lean, start, out) && Covers(m, start, mid, out) && start <= mid <= v.key
    requires v.key in m && m[v.key] == v.val && (v.last ==> NoneAbove(m, v.key))
      && (lean && NoneAbove(m, v.key) ==> v.last)
    requires forall j :: j in m && mid <= j ==> v.key <= j
    ensures Visits(m, lean, start, out + [v]) && Covers(m, start, v.key + 1, out + [v])
  {
    var o := out + [v];
    forall k | k in m && start <= k < v.key + 1 ensures Seen(o, k) {
      if k < mid {
        var i :| 0 <= i < |out| && out[i].key == k;
        assert o[i].key == k;
      } else {
        assert o[|out|].key == k;
      }
    }
  }

  /** Position `p` of a leaf is where its keys from `mid` upward start. */
  ghost predicate StartsAt(keys: seq<Key>, mid: Key, p: nat) {
    p <= |keys| && (forall i :: 0 <= i < p ==> keys[i] < mid) && (p < |keys| ==> mid <= keys[p])
  }

  /** Then the map's keys from `mid` upward start there too, or lie above the leaf's range. */
  lemma LeafFrom(m: map<Key, Value>, n: Node, r: Info, low: Key, mid: Key, p: nat)
    requires n.Leaf? && LeafBody(m, n, r) && InRange(r, low) && low <= mid && StartsAt(n.keys, mid, p)
    ensures p == |n.keys| ==> forall j :: j in m && mid <= j ==> Lt(r.hi, At(j))
    ensures p < |n.keys| ==> forall j :: j in m && mid <= j ==> n.keys[p] <= j
  {
    forall j | j in m && mid <= j && Le(At(j), r.hi) ensures p < |n.keys| && n.keys[p] <= j {
      assert InRange(r, j);
      var i :| 0 <= i < |n.keys| && n.keys[i] == j;
      assert i == p || p < i;
    }
  }

  /** The flag the scan passes at position `p`: the last entry of the last leaf. */
  ghost predicate FlagOk(m: map<Key, Value>, lean: bool, n: Node, p: nat)
    requires n.Leaf? && p < |n.keys|
  {
    var last := n.next == Null && p + 1 == |n.keys|;
    (last ==> NoneAbove(m, n.keys[p])) && (lean && NoneAbove(m, n.keys[p]) ==> last)
  }

  lemma LastFlag(s: State, l: Id, p: nat, lean: bool)
    requires WF(s) && (lean ==> MinOk(s, {})) && l in s.info && s.heap[l].Leaf? && p < |s.heap[l].keys|
    ensures FlagOk(s.m, lean, s.heap[l], p)
  {
    var n := s.heap[l];
    assert NodeOk(s, n, s.info[l]);
    if n.next == Null && p + 1 == |n.keys| {
      LeafFrom(s.m, n, s.info[l], n.keys[p], n.keys[p] + 1, p + 1);
    }
    if lean && p + 1 < |n.keys| {
      assert n.keys[p + 1] in s.m;
    }
    if lean && n.next.To? {
      NextFull(s, l);
      NextFirst(s, l);
    }
  }

  /** Past the last entry of a leaf, the map goes on with the first entry of the next leaf, or ends. */
  lemma AfterLeaf(s: State, l: Id, low: Key, mid: Key)
    requires WF(s) && l in s.info && s.heap[l].Leaf? && InRange(s.info[l], low)
    requires low <= mid && Le(At(mid - 1), s.info[l].hi) && forall j :: j in s.m && mid <= j ==> Lt(s.info[l].hi, At(j))
    ensures var n := s.heap[l];
            && (n.next.Null? ==> forall j :: j in s.m ==> j < mid)
            && (n.next.To? ==> n.next.id in s.heap && (MinOk(s, {}) ==> |s.heap[n.next.id].keys| > 0))
            && (n.next.To? && |s.heap[n.next.id].keys| > 0 ==>
                  var f := s.heap[n.next.id].keys[0];
                  low < f && mid <= f && (forall j :: j in s.m && mid <= j ==> f <= j)
                    && LeavesFrom(s, f) < LeavesFrom(s, low))
  {
    var n := s.heap[l];
    assert NodeOk(s, n, s.info[l]);
    if n.next.To? {
      if MinOk(s, {}) {
        NextFull(s, l);
      }
      if |s.heap[n.next.id].keys| > 0 {
        NextFirst(s, l);
        assert l in LeavesFrom(s, low);
      }
    }
  }

  lemma NextFull(s: State, l: Id)
    requires WF(s) && MinOk(s, {}) && l in s.info && s.heap[l].Leaf? && s.heap[l].next.To?
    ensures s.heap[l].next.id in s.heap && |s.heap[s.heap[l].next.id].keys| > 0
  {
    assert NodeOk(s, s.heap[l], s.info[l]);
    var y := s.heap[l].next.id;
    assert NodeOk(s, s.heap[y], s.info[y]);
    assert y != s.root;
  }

  datatype NextInsert = Exists | NoNextKey | Refused(next: Key) | Inserted(next: Key) | Misread(ok: bool)

  /** `n` is the least key above `k`. */
  ghost predicate IsNext(m: map<Key, Value>, k: Key, n: Key) {
    n in m && k < n && forall j :: j in m && k < j ==> n <= j
  }

  ghost predicate NextInsertOf(m: map<Key, Value>, k: Key, lock: (Key, Value) -> bool, junk: (Key, Value),
          r: NextInsert) {
    match r
    case Exists => k in m
    case NoNextKey => k !in m && forall j :: j in m ==> j < k
    case Refused(n) => k !in m && IsNext(m, k, n) && !lock(n, m[n])
    case Inserted(n) => k !in m && IsNext(m, k, n) && lock(n, m[n])
    case Misread(ok) => k !in m && ok == lock(junk.0, junk.1)
  }

  /** The leaf for `k` has no key above `k`, and the leaf after it is empty. */
  ghost predicate NextEmpty(s: State, k: Key) {
    exists l :: EmptyAfter(s, l, k)
  }

  ghost predicate EmptyAfter(s: State, l: Id, k: Key) {
    && l in s.info && l in s.heap && s.heap[l].Leaf? && InRange(s.info[l], k)
    && (forall j :: j in s.heap[l].keys ==> j <= k)
    && s.heap[l].next.To? && s.heap[l].next.id in s.heap && s.heap[s.heap[l].next.id].keys == []
  }

  lemma NextEmptyIs(s: State, l: Id, k: Key)
    requires WF(s) && l in s.info && s.heap[l].Leaf? && InRange(s.info[l], k)
    ensures NextEmpty(s, k) <==> EmptyAfter(s, l, k)
    ensures k !in s.heap[l].keys ==>
      ((forall j :: j in s.heap[l].keys ==> j <= k) <==> LowerBound(s.heap[l].keys, k) == |s.heap[l].keys|)
    ensures s.heap[l].next.To? ==> s.heap[l].next.id in s.heap
  {
    assert NodeOk(s, s.heap[l], s.info[l]);
    forall x | EmptyAfter(s, x, k) ensures x == l {
      assert NodeOk(s, s.heap[x], s.info[x]);
      OneCover(s, x, l, k);
    }
  }

  /** Without empty leaves that does not happen. */
  lemma LeanNext(s: State, k: Key)
    requires WF(s) && MinOk(s, {})
    ensures !NextEmpty(s, k)
  {
    forall l | l in s.info && l in s.heap && s.heap[l].Leaf? && s.heap[l].next.To? ensures !EmptyAfter(s, l, k) {
      NextFull(s, l);
    }
  }

  /** From s to t key `k` has been put into leaf `l`, if it was not there. */
  ghost predicate PutAt(s: State, t: State, l: Id, k: Key) {
    && t.info == s.info && l in s.heap && l in t.heap && s.heap[l].Leaf? && t.heap[l].Leaf?
    && t.heap[l].next == s.heap[l].next
    && (forall j :: j in t.heap[l].keys <==> j in s.heap[l].keys || j == k)
    && (forall x :: x in s.heap && x != l ==> x in t.heap && t.heap[x] == s.heap[x])
  }

  lemma NextEmptyKept(s: State, t: State, l: Id, k: Key)
    requires WF(s) && WF(t) && PutAt(s, t, l, k) && l in s.info && InRange(s.info[l], k)
    ensures NextEmpty(s, k) <==> NextEmpty(t, k)
  {
    NextEmptyIs(s, l, k);
    NextEmptyIs(t, l, k);
    assert NodeOk(s, s.heap[l], s.info[l]);
    if s.heap[l].next.To? {
      var y := s.heap[l].next.id;
      assert NodeOk(s, s.heap[y], s.info[y]);
      assert y != l;
    }
  }

  /** The next key is the entry at the key's lower bound or, past the end of the leaf, the first entry of the next
      one. */
  lemma LeafNext(s: State, l: Id, k: Key)
    requires WF(s) && l in s.info && s.heap[l].Leaf? && InRange(s.info[l], k) && k !in s.m && !NextEmpty(s, k)
    ensures var n := s.heap[l]; var pos := LowerBound(n.keys, k);
            && |n.vals| == |n.keys|
            && (pos < |n.keys| ==> IsNext(s.m, k, n.keys[pos]) && s.m[n.keys[pos]] == n.vals[pos])
            && (pos == |n.keys| && n.next.Null? ==> forall j :: j in s.m ==> j < k)
            && (pos == |n.keys| && n.next.To? ==>
                  n.next.id in s.heap && s.heap[n.next.id].Leaf?
                    && |s.heap[n.next.id].vals| == |s.heap[n.next.id].keys| > 0 &&
                  var f := s.heap[n.next.id].keys[0]; IsNext(s.m, k, f) && s.m[f] == s.heap[n.next.id].vals[0])
  {
    var n := s.heap[l];
    var pos := LowerBound(n.keys, k);
    assert NodeOk(s, n, s.info[l]);
    forall j | j in s.m && InRange(s.info[l], j) && k < j ensures pos < |n.keys| && n.keys[pos] <= j {
      var i :| 0 <= i < |n.keys| && n.keys[i] == j;
    }
    if pos == |n.keys| && n.next.To? {
      NextEmptyIs(s, l, k);
      NextFirst(s, l);
    }
  }

  /** The leaf after `l` starts with the least key above the range of `l`. */
  lemma NextFirst(s: State, l: Id)
    requires WF(s) && l in s.info && s.heap[l].Leaf? && s.heap[l].next.To?
    requires s.heap[l].next.id in s.heap && |s.heap[s.heap[l].next.id].keys| > 0
    ensures var x, hi := s.heap[s.heap[l].next.id], s.info[l].hi;
            && x.Leaf? && |x.vals| == |x.keys| > 0 && x.keys[0] in s.m && s.m[x.keys[0]] == x.vals[0]
            && Lt(hi, At(x.keys[0]))
            && forall j :: j in s.m && Lt(hi, At(j)) ==> x.keys[0] <= j
  {
    assert NodeOk(s, s.heap[l], s.info[l]);
    var y := s.heap[l].next.id;
    var x := s.heap[y];
    assert NodeOk(s, x, s.info[y]);
    assert x.Leaf?;
    forall j | j in s.m && Lt(s.info[l].hi, At(j)) ensures x.keys[0] <= j {
      if InRange(s.info[y], j) {
        var i :| 0 <= i < |x.keys| && x.keys[i] == j;
      }
    }
  }

  lemma PutSizes(s: State, c: Caps, l: Id, k: Key, v: Value)
    requires WF(s) && MaxOk(s, c) && l in s.info && s.heap[l].Leaf? && PagesOk(s.heap[l]) && !Full(c, s.heap[l])
    ensures MaxOk(PutIf(s, l, k, v), c) && (MinOk(s, {}) ==> MinOk(PutIf(s, l, k, v), {}))
  {
    var t := PutIf(s, l, k, v);
    assert s.info[l] == s.info[l];
    forall n | n in t.info && n in t.heap
      ensures Fits(c, t.heap[n]) && (MinOk(s, {}) ==> |t.heap[n].keys| >= 1 || (t.heap[n].Leaf? && n == t.root))
    {
      assert s.info[n] == s.info[n];
    }
  }

  /** Splitting the root, in one piece. */
  lemma SplitTopIs(s: State, top: Id, extra: Id)
    requires WF(s) && Splittable(s.heap[s.root]) && top !in s.heap && extra !in s.heap && top != extra
    ensures var n := s.heap[s.root]; var sep := SepKey(n);
            SplitTop(s, top, extra) ==
            State(top, s.heap[s.root := LeftHalf(n, extra)][extra := RightHalf(n)][top :=
              Inner([sep], [s.root, extra])],
                  Bump(s.ver, {s.root})[extra := 2][top := 2], SplitTop(s, top, extra).info, s.m)
  {
    var sep := SepKey(s.heap[s.root]);
    assert AddKid(Inner([], [s.root]), sep, extra) == Inner([sep], [s.root, extra]);
    assert Bump(GrowRoot(s, top).ver, {top, s.root})[extra := 2] == Bump(s.ver, {s.root})[extra := 2][top := 2];
  }

  /** Node `n` covers `k`, and `par` is its parent, not full, or there is none. */
  ghost predicate OnPath(s: State, c: Caps, k: Key, par: Option<Id>, n: Id) {
    && n in s.info && n in s.heap && InRange(s.info[n], k)
    && match par
       case None => n == s.root
       case Some(p) =>
         p in s.heap && s.heap[p].Inner? && !Full(c, s.heap[p]) && IsKid(s, p, LowerBound(s.heap[p].keys, k), n)
  }

  /** Node `n` and a new sibling share out its entries and its range at its separator key. */
  ghost predicate Halved(s: State, t: State, n: Id, extra: Id) {
    && n in s.heap && n in s.info && Splittable(s.heap[n]) && n in t.heap && n in t.info && extra in t.heap
    && extra in t.info
    && t.heap[n] == LeftHalf(s.heap[n], extra) && t.heap[extra] == RightHalf(s.heap[n])
    && t.info[n] == s.info[n].(hi := At(SepKey(s.heap[n]))) && t.info[extra] == s.info[n].(lo := At(SepKey(s.heap[n])))
  }

  /** What a split on the path of `k` keeps, and the progress it makes. */
  ghost predicate SplitKeeps(s: State, t: State, c: Caps, k: Key) {
    && WF(s) && WF(t) && MaxOk(t, c) && t.m == s.m && (c.inner >= 5 && MinOk(s, {}) ==> MinOk(t, {}))
       && Closer(s, t, c, k)
  }

  lemma SplitUnderOk(s: State, c: Caps, k: Key, p: Id, n: Id, id: Id)
    requires WF(s) && MaxOk(s, c) && c.leaf >= 3 && c.inner >= 3 && OnPath(s, c, k, Some(p), n) && Full(c, s.heap[n])
    requires ClearAbove(s, c, k, s.info[n].level) && id !in s.heap
    ensures CanSplit(s, p, LowerBound(s.heap[p].keys, k), id)
    ensures SplitKeeps(s, Split(s, p, LowerBound(s.heap[p].keys, k), id), c, k)
    ensures Halved(s, Split(s, p, LowerBound(s.heap[p].keys, k), id), n, id)
  {
    var i := LowerBound(s.heap[p].keys, k);
    assert NodeOk(s, s.heap[n], s.info[n]) && NodeOk(s, s.heap[p], s.info[p]);
    SplitProgress(s, c, k, p, i, id);
    SplitSizes(s, c, p, i, id);
    SplitSetup(s, p, i, id);
    SplitTouches(s, p, i, id);
  }

  lemma SplitRootOk(s: State, c: Caps, k: Key, id: Id)
    requires WF(s) && MaxOk(s, c) && c.leaf >= 3 && c.inner >= 3 && Full(c, s.heap[s.root]) && id !in s.heap
      && id + 1 !in s.heap
    ensures Splittable(s.heap[s.root]) && SplitKeeps(s, SplitTop(s, id, id + 1), c, k)
    ensures Halved(s, SplitTop(s, id, id + 1), s.root, id + 1)
  {
    assert NodeOk(s, s.heap[s.root], s.info[s.root]);
    SplitTopSizes(s, c, id, id + 1);
    RootProgress(s, c, k, id, id + 1);
    SplitTopTouches(s, id, id + 1);
  }

  /** Fewer full levels on the search path of `k`, or as many and the topmost of them higher up. */
  ghost predicate Closer(s: State, t: State, c: Caps, k: Key)
    requires WF(s) && WF(t)
  {
    || |FullLevels(t, c, k)| < |FullLevels(s, c, k)|
    || (|FullLevels(t, c, k)| == |FullLevels(s, c, k)|
        && Above(t, c, k, t.info[t.root].level) < Above(s, c, k, s.info[s.root].level))
  }

  lemma ClearBelow(s: State, c: Caps, k: Key, n: Id)
    requires WF(s) && n in s.info && s.heap[n].Inner? && InRange(s.info[n], k) && !Full(c, s.heap[n])
      && ClearAbove(s, c, k, s.info[n].level)
    requires s.info[n].level > 0
    ensures ClearAbove(s, c, k, s.info[n].level - 1)
  {
    forall x | x in s.info && x in s.heap && s.info[x].level > s.info[n].level - 1 && InRange(s.info[x], k)
      ensures !Full(c, s.heap[x])
    {
      if s.info[x].level == s.info[n].level {
        OneCover(s, x, n, k);
      }
    }
  }
}
