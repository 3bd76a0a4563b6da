/** What it costs to pull down another key than the separator when inner nodes are merged: exactly the stored keys
    between the two can no longer be found. */
module BTreePull {
  import opened SeqOps
  import opened BTreeHeap
  import opened BTreeSections

  /** The sequential search from node `n`, following at most `steps` links. */
  function Find(heap: map<Id, Node>, n: Id, k: Key, steps: nat): Option<Value>
    decreases steps
  {
    if n !in heap then None
    else match heap[n]
      case Leaf(_, _, _) => LeafGet(heap[n], k)
      case Inner(keys, kids) =>
        var i := LowerBound(keys, k);
        if steps == 0 || i >= |kids| then None else Find(heap, kids[i], k, steps - 1)
  }

  /** Searching a well-formed tree for k gives the map's answer, whatever the leaves in `odd`, none covering k, hold. */
  lemma {:induction false} FindAnswers(s: State, heap: map<Id, Node>, odd: set<Id>, n: Id, k: Key)
    requires WF(s) && n in s.info && InRange(s.info[n], k)
    requires forall l :: l in odd && l in s.info ==> s.heap[l].Leaf? && !InRange(s.info[l], k)
    requires s.heap.Keys <= heap.Keys && forall x :: x in s.heap && x !in odd ==> heap[x] == s.heap[x]
    ensures Find(heap, n, k, s.info[n].level) == MapGet(s.m, k)
    decreases s.info[n].level
  {
    assert NodeOk(s, s.heap[n], s.info[n]);
    if s.heap[n].Leaf? {
      LeafAnswers(s, n, k);
    } else {
      KidCovers(s, n, k);
      KidInside(s, n, LowerBound(s.heap[n].keys, k), KidFor(s, n, k).value);
      FindAnswers(s, heap, odd, KidFor(s, n, k).value, k);
    }
  }

  /** The sequential lookup agrees with the map. */
  lemma FindIsLookup(s: State, k: Key)
    requires WF(s)
    ensures Find(s.heap, s.root, k, s.info[s.root].level) == MapGet(s.m, k)
  {
    FindAnswers(s, s.heap, {}, s.root, k);
  }

  /** Below an untouched part of the tree a search finds exactly the keys of that part. */
  lemma {:induction false} FindBelow(s: State, heap: map<Id, Node>, n: Id, k: Key)
    requires WF(s) && n in s.info
    requires forall x {:trigger heap[x]} {:trigger x in heap} ::
      x in s.info && s.info[x].level <= s.info[n].level ==> x in heap && heap[x] == s.heap[x]
    ensures Find(heap, n, k, s.info[n].level) == if InRange(s.info[n], k) then MapGet(s.m, k) else None
    decreases s.info[n].level
  {
    assert NodeOk(s, s.heap[n], s.info[n]);
    assert n in heap;
    if s.heap[n].Leaf? {
      LeafAnswers(s, n, k);
      if LeafGet(s.heap[n], k).Some? {
        assert InRange(s.info[n], s.heap[n].keys[LowerBound(s.heap[n].keys, k)]);
      }
    } else {
      KidCovers(s, n, k);
      var i, c := LowerBound(s.heap[n].keys, k), KidFor(s, n, k).value;
      KidInside(s, n, i, c);
      FindBelow(s, heap, c, k);
    }
  }

  /** With `mx` between the joined pages a search for k takes a child that does not cover k: k belongs below the last
      child of the left node and lies above `mx`, or k belongs to the right node and does not. */
  ghost predicate Misled(s: State, p: Id, i: nat, mx: Key, k: Key)
    requires WF(s) && CanMerge(s, p, i) && s.heap[s.heap[p].kids[i]].Inner?
  {
    var a, b := s.heap[p].kids[i], s.heap[p].kids[i + 1];
    || (InRange(s.info[a], k) && LowerBound(s.heap[a].keys, k) == |s.heap[a].keys| && mx < k)
    || (InRange(s.info[b], k) && k <= mx)
  }

  /** What a search finds after the merge. */
  ghost function Left(s: State, p: Id, i: nat, mx: Key, k: Key): Option<Value>
    requires WF(s) && CanMerge(s, p, i) && s.heap[s.heap[p].kids[i]].Inner?
  {
    if Misled(s, p, i, mx, k) then None else MapGet(s.m, k)
  }

  /** The search of the joined keys, in order or not. */
  lemma JoinedBound(ak: seq<Key>, mx: Key, bk: seq<Key>, k: Key)
    ensures LowerBound(ak + [mx] + bk, k) ==
      if LowerBound(ak, k) < |ak| then LowerBound(ak, k)
      else if k <= mx then |ak| else |ak| + 1 + LowerBound(bk, k)
  {
    var all, x, y := ak + [mx] + bk, LowerBound(ak, k), LowerBound(bk, k);
    assert forall j :: 0 <= j < |ak| ==> all[j] == ak[j];
    assert forall j :: 0 <= j < |bk| ==> all[|ak| + 1 + j] == bk[j];
    assert all[|ak|] == mx;
    if x < |ak| {
      BoundIs(all, k, x);
    } else if k <= mx {
      BoundIs(all, k, |ak|);
    } else {
      forall j | 0 <= j < |ak| + 1 + y ensures all[j] < k {
        if j > |ak| { assert all[j] == bk[j - |ak| - 1]; }
      }
      BoundIs(all, k, |ak| + 1 + y);
    }
  }

  /** The heap after the merge, by its pages. */
  ghost predicate Joined(s: State, p: Id, i: nat, mx: Key, heap: map<Id, Node>)
    requires CanMerge(s, p, i)
  {
    var P := s.heap[p];
    var a, b := P.kids[i], P.kids[i + 1];
    heap == s.heap[a := MergedNode(s.heap[a], mx, s.heap[b])][p := Inner(RemoveAt(P.keys, i), RemoveAt(P.kids, i + 1))]
  }

  lemma ApplyJoins(s: State, p: Id, i: nat, mx: Key)
    requires WF(s) && CanMerge(s, p, i) && s.heap[s.heap[p].kids[i]].Inner?
    ensures var t := Apply(s, MergeKids(p, i, mx));
            && Joined(s, p, i, mx, t.heap) && t.m == s.m
            && t.root == if p == s.root && |s.heap[p].keys| == 1 then s.heap[p].kids[i] else s.root
  {
    PairFacts(s, p, i);
    PivotMerges(s, p, i, mx);
    var P := s.heap[p];
    assert RemoveAt(P.keys[i := mx], i) == RemoveAt(P.keys, i);
  }

  /** Which child a search takes in the merged node, and whether that child covers the key. */
  lemma JoinedKid(s: State, p: Id, i: nat, mx: Key, k: Key) returns (c: Id)
    requires WF(s) && CanMerge(s, p, i) && s.heap[s.heap[p].kids[i]].Inner?
    requires var a, b := s.heap[p].kids[i], s.heap[p].kids[i + 1]; Lt(s.info[a].lo, At(k)) && Le(At(k), s.info[b].hi)
    ensures var A, B := s.heap[s.heap[p].kids[i]], s.heap[s.heap[p].kids[i + 1]];
            var h := LowerBound(A.keys + [mx] + B.keys, k);
            h < |A.kids + B.kids| && (A.kids + B.kids)[h] == c
    ensures c in s.info && s.info[c].level + 2 == s.info[p].level
      && (InRange(s.info[c], k) <==> !Misled(s, p, i, mx, k))
  {
    var a, b := s.heap[p].kids[i], s.heap[p].kids[i + 1];
    PairFacts(s, p, i);
    var A, B := s.heap[a], s.heap[b];
    var x, y := LowerBound(A.keys, k), LowerBound(B.keys, k);
    JoinedBound(A.keys, mx, B.keys, k);
    if x < |A.keys| || k <= mx {
      KidCovers(s, a, k);
      c := A.kids[x];
      KidInside(s, a, x, c);
    } else {
      KidCovers(s, b, k);
      c := B.kids[y];
      KidInside(s, b, y, c);
    }
    JoinedSide(s, p, i, mx, k);
  }

  /** On which side of the separator the key lies. */
  lemma JoinedSide(s: State, p: Id, i: nat, mx: Key, k: Key)
    requires WF(s) && CanMerge(s, p, i) && s.heap[s.heap[p].kids[i]].Inner?
    requires var a, b := s.heap[p].kids[i], s.heap[p].kids[i + 1]; Lt(s.info[a].lo, At(k)) && Le(At(k), s.info[b].hi)
    ensures var a, b, sep := s.heap[p].kids[i], s.heap[p].kids[i + 1], s.heap[p].keys[i];
            && (InRange(s.info[a], k) <==> k <= sep) && (InRange(s.info[b], k) <==> sep < k)
            && (sep < k ==> LowerBound(s.heap[a].keys, k) == |s.heap[a].keys|)
  {
    PairFacts(s, p, i);
    var a := s.heap[p].kids[i];
    assert NodeOk(s, s.heap[a], s.info[a]);
  }

  lemma FindJoined(s: State, p: Id, i: nat, mx: Key, heap: map<Id, Node>, k: Key)
    requires WF(s) && CanMerge(s, p, i) && s.heap[s.heap[p].kids[i]].Inner? && Joined(s, p, i, mx, heap)
    requires var a, b := s.heap[p].kids[i], s.heap[p].kids[i + 1]; Lt(s.info[a].lo, At(k)) && Le(At(k), s.info[b].hi)
    ensures var a := s.heap[p].kids[i]; Find(heap, a, k, s.info[a].level) == Left(s, p, i, mx, k)
  {
    var a, b := s.heap[p].kids[i], s.heap[p].kids[i + 1];
    PairIds(s, p, i);
    var c := JoinedKid(s, p, i, mx, k);
    assert heap[a] == Inner(s.heap[a].keys + [mx] + s.heap[b].keys, s.heap[a].kids + s.heap[b].kids);
    forall x | x in s.info && s.info[x].level <= s.info[c].level ensures x in heap && heap[x] == s.heap[x] {
      assert x != p && x != a;
    }
    FindBelow(s, heap, c, k);
  }

  /** Below the parent of the merged pair: its keys with the separator gone, and its children with the right one
      gone. */
  lemma RemovedBound(keys: seq<Key>, i: nat, k: Key)
    requires Sorted(keys) && i < |keys|
    ensures var j := LowerBound(keys, k); LowerBound(RemoveAt(keys, i), k) == if j <= i then j else j - 1
  {
    var j := LowerBound(keys, k);
    RemoveAtSorted(keys, i);
    LowerBoundOf(RemoveAt(keys, i), k, if j <= i then j else j - 1);
  }

  /** As FindBelow, for a node whose level has one other node with a changed page. */
  lemma FindBeside(s: State, heap: map<Id, Node>, n: Id, a: Id, k: Key)
    requires WF(s) && n in s.info && n != a && a in s.info && s.info[a].level == s.info[n].level
      && InRange(s.info[n], k)
    requires forall x ::
      x in s.info && s.info[x].level <= s.info[n].level && x != a ==> x in heap && heap[x] == s.heap[x]
    ensures Find(heap, n, k, s.info[n].level) == MapGet(s.m, k)
  {
    assert NodeOk(s, s.heap[n], s.info[n]);
    if s.heap[n].Leaf? {
      LeafAnswers(s, n, k);
    } else {
      KidCovers(s, n, k);
      KidInside(s, n, LowerBound(s.heap[n].keys, k), KidFor(s, n, k).value);
      FindBelow(s, heap, KidFor(s, n, k).value, k);
    }
  }

  /** A node at the level of the merged pair that is neither of them. */
  lemma FindSibling(s: State, p: Id, i: nat, mx: Key, heap: map<Id, Node>, n: Id, k: Key)
    requires WF(s) && CanMerge(s, p, i) && s.heap[s.heap[p].kids[i]].Inner? && Joined(s, p, i, mx, heap)
    requires n in s.info && InRange(s.info[n], k) && s.info[n].level + 1 == s.info[p].level
    requires n != s.heap[p].kids[i] && n != s.heap[p].kids[i + 1]
    ensures Find(heap, n, k, s.info[n].level) == Left(s, p, i, mx, k)
  {
    var a, b := s.heap[p].kids[i], s.heap[p].kids[i + 1];
    PairIds(s, p, i);
    assert Apart(s.info[n], s.info[a]) && Apart(s.info[n], s.info[b]);
    assert NodeOk(s, s.heap[a], s.info[a]) && NodeOk(s, s.heap[b], s.info[b]) && NodeOk(s, s.heap[n], s.info[n]);
    forall x | x in s.info && s.info[x].level <= s.info[n].level && x != a ensures x in heap && heap[x] == s.heap[x] {
      assert x != p;
    }
    FindBeside(s, heap, n, a, k);
  }

  lemma FindParent(s: State, p: Id, i: nat, mx: Key, heap: map<Id, Node>, k: Key)
    requires WF(s) && CanMerge(s, p, i) && s.heap[s.heap[p].kids[i]].Inner? && Joined(s, p, i, mx, heap)
    requires InRange(s.info[p], k)
    ensures Find(heap, p, k, s.info[p].level) == Left(s, p, i, mx, k)
  {
    var P, a, b := s.heap[p], s.heap[p].kids[i], s.heap[p].kids[i + 1];
    PairFacts(s, p, i);
    KidCovers(s, p, k);
    var j := LowerBound(P.keys, k);
    RemovedBound(P.keys, i, k);
    assert s.info[P.kids[j]] == KidInfo(P.keys, s.info[p], j);
    var h := LowerBound(RemoveAt(P.keys, i), k);
    if j == i || j == i + 1 {
      assert RemoveAt(P.kids, i + 1)[h] == a;
      FindJoined(s, p, i, mx, heap, k);
    } else {
      assert RemoveAt(P.kids, i + 1)[h] == P.kids[j];
      FindSibling(s, p, i, mx, heap, P.kids[j], k);
    }
  }

  /** The parent of the merged pair, and any node at its level or above. */
  lemma {:induction false} FindAfter(s: State, p: Id, i: nat, mx: Key, heap: map<Id, Node>, n: Id, k: Key)
    requires WF(s) && CanMerge(s, p, i) && s.heap[s.heap[p].kids[i]].Inner? && Joined(s, p, i, mx, heap)
    requires n in s.info && InRange(s.info[n], k) && s.info[n].level >= s.info[p].level
    ensures Find(heap, n, k, s.info[n].level) == Left(s, p, i, mx, k)
    decreases s.info[n].level
  {
    if n == p {
      FindParent(s, p, i, mx, heap, k);
    } else {
      var a, b := s.heap[p].kids[i], s.heap[p].kids[i + 1];
      PairIds(s, p, i);
      assert NodeOk(s, s.heap[n], s.info[n]);
      KidCovers(s, n, k);
      var j, c := LowerBound(s.heap[n].keys, k), KidFor(s, n, k).value;
      KidInside(s, n, j, c);
      assert heap[n] == s.heap[n];
      if s.info[n].level == s.info[p].level {
        if c == a { OneParent(s, n, j, p, i, a); }
        if c == b { OneParent(s, n, j, p, i + 1, b); }
        FindSibling(s, p, i, mx, heap, c, k);
      } else {
        FindAfter(s, p, i, mx, heap, c, k);
      }
    }
  }

  /** After the merge a search answers as the map does, except that it does not find the keys it is misled about. */
  lemma FindMerged(s: State, p: Id, i: nat, mx: Key, k: Key)
    requires WF(s) && CanMerge(s, p, i) && s.heap[s.heap[p].kids[i]].Inner?
    ensures var t := Apply(s, MergeKids(p, i, mx));
            t.root in s.info && Find(t.heap, t.root, k, s.info[t.root].level) == Left(s, p, i, mx, k)
  {
    ApplyJoins(s, p, i, mx);
    PairFacts(s, p, i);
    var t := Apply(s, MergeKids(p, i, mx));
    if t.root == s.root {
      FindAfter(s, p, i, mx, t.heap, s.root, k);
    } else {
      FindJoined(s, p, i, mx, t.heap, k);
    }
  }

  /** Whatever key the merge pulls down, no key is lost if and only if no stored key below the last child of the left
      node lies above it, and none below the right node does not. */
  lemma PullLosesExactly(s: State, p: Id, i: nat, mx: Key)
    requires WF(s) && CanMerge(s, p, i) && s.heap[s.heap[p].kids[i]].Inner?
    ensures var t := Apply(s, MergeKids(p, i, mx));
            && t.root in s.info
            && ((forall k :: Find(t.heap, t.root, k, s.info[t.root].level) == MapGet(s.m, k)) <==>
                (forall k :: k in s.m ==> !Misled(s, p, i, mx, k)))
  {
    var t := Apply(s, MergeKids(p, i, mx));
    forall k ensures t.root in s.info && Find(t.heap, t.root, k, s.info[t.root].level) == Left(s, p, i, mx, k) {
      FindMerged(s, p, i, mx, k);
    }
    if exists k :: k in s.m && Misled(s, p, i, mx, k) {
      var k :| k in s.m && Misled(s, p, i, mx, k);
      assert Find(t.heap, t.root, k, s.info[t.root].level) != MapGet(s.m, k);
    }
  }

  /** In particular, for a key that keeps the joined page in order only the keys between it and the separator count. */
  lemma MisledBetween(s: State, p: Id, i: nat, mx: Key, k: Key)
    requires WF(s) && CanMerge(s, p, i) && s.heap[s.heap[p].kids[i]].Inner?
    requires mx <= s.heap[p].keys[i] && forall j ::
      0 <= j < |s.heap[s.heap[p].kids[i]].keys| ==> s.heap[s.heap[p].kids[i]].keys[j] < mx
    requires InRange(s.info[s.heap[p].kids[i]], k) || InRange(s.info[s.heap[p].kids[i + 1]], k)
    ensures Misled(s, p, i, mx, k) <==> mx < k <= s.heap[p].keys[i]
  {
    PairFacts(s, p, i);
    JoinedSide(s, p, i, mx, k);
  }

  /** The slot in which the largest key was found holds a smaller one as soon as another key is inserted into the
      leaf. */
  lemma LateSlot(keys: seq<Key>, k: Key)
    requires Sorted(keys) && |keys| > 0 && k !in keys
    ensures var after := InsertAt(keys, LowerBound(keys, k), k); after[|keys| - 1] < after[|keys|]
  {
    InsertAtSorted(keys, k);
  }

  lemma LatePage(s: State, l: Id, k: Key, v: Value)
    requires WF(s) && l in s.info && s.heap[l].Leaf? && PagesOk(s.heap[l]) && |s.heap[l].keys| > 0
      && InRange(s.info[l], k) && k !in s.m
    ensures var u, at := PutEntry(s, l, k, v), |s.heap[l].keys|;
            && WF(u) && u.info == s.info && |u.heap[l].keys| == at + 1 && u.heap[l].keys[at - 1] < u.heap[l].keys[at]
            && InRange(s.info[l], u.heap[l].keys[at - 1]) && InRange(s.info[l], u.heap[l].keys[at])
            && u.heap[l].keys[at] in u.m
  {
    assert NodeOk(s, s.heap[l], s.info[l]);
    PutEntryOk(s, l, k, v);
    LateSlot(s.heap[l].keys, k);
    var u := PutEntry(s, l, k, v);
    assert NodeOk(u, u.heap[l], u.info[l]);
  }

  /** A search is misled about every key of the last leaf below the left node that lies above the key pulled down. */
  lemma LastIsMisled(s: State, p: Id, i: nat, l: Id, mx: Key, k: Key)
    requires WF(s) && CanMerge(s, p, i) && s.heap[s.heap[p].kids[i]].Inner? && mx < k
    requires l in s.info && s.info[l].level == 0 && s.info[l].hi == At(s.heap[p].keys[i]) && InRange(s.info[l], k)
    ensures Misled(s, p, i, mx, k)
  {
    var a := s.heap[p].kids[i];
    PairFacts(s, p, i);
    OnSpine(s, a, l);
    SpineNests(s, a, s.info[a].level - 1, 0);
    assert LastKid(s.heap[a]) == Spine(s, a, s.info[a].level - 1);
    BelowLast(s, a, k);
  }

  lemma BelowLast(s: State, a: Id, k: Key)
    requires WF(s) && a in s.info && s.heap[a].Inner? && |s.heap[a].kids| > 0
    requires var c := LastKid(s.heap[a]); c in s.info && Lt(s.info[c].lo, At(k)) && Le(At(k), s.info[a].hi)
    ensures InRange(s.info[a], k) && LowerBound(s.heap[a].keys, k) == |s.heap[a].keys|
  {
    assert NodeOk(s, s.heap[a], s.info[a]);
    assert s.info[LastKid(s.heap[a])] == KidInfo(s.heap[a].keys, s.info[a], |s.heap[a].keys|);
  }

  /** An insert into the last leaf below the left node, between the search for its largest key and the copying of the
      slot, makes the merge lose the largest key there, whatever the inserted key is. */
  lemma LateReadLoses(s: State, p: Id, i: nat, l: Id, k: Key, v: Value)
    requires WF(s) && CanMerge(s, p, i) && s.heap[s.heap[p].kids[i]].Inner? && l == Spine(s, s.heap[p].kids[i], 0)
    requires s.heap[l].Leaf? && PagesOk(s.heap[l]) && |s.heap[l].keys| > 0 && InRange(s.info[l], k) && k !in s.m
    ensures var u := PutEntry(s, l, k, v);
            var mx, big := u.heap[l].keys[|s.heap[l].keys| - 1], u.heap[l].keys[|s.heap[l].keys|];
            && WF(u) && CanMerge(u, p, i) && big in u.m && mx < big <= u.heap[p].keys[i]
            && var t := Apply(u, MergeKids(p, i, mx));
               t.root in u.info && Find(t.heap, t.root, big, u.info[t.root].level).None?
  {
    PairFacts(s, p, i);
    LatePage(s, l, k, v);
    var u := PutEntry(s, l, k, v);
    LastIsMisled(u, p, i, l, u.heap[l].keys[|s.heap[l].keys| - 1], u.heap[l].keys[|s.heap[l].keys|]);
    FindMerged(u, p, i, u.heap[l].keys[|s.heap[l].keys| - 1], u.heap[l].keys[|s.heap[l].keys|]);
  }
}
