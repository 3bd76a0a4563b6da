/** What writers do to the tree while they hold the locks of every node they change, and what such a section leaves
    alone: the pages of all other nodes, and their key ranges up to the shift of an inner merge. */
module BTreeSections {
  import opened SeqOps
  import opened BTreeHeap

  // ----- sections that restructure the tree -----

  datatype Write =
    | SplitKid(p: Id, i: nat, extra: Id)
    | SplitRoot(top: Id, extra: Id)
    | BorrowKid(p: Id, i: nat, toLeft: bool)
    | MergeKids(p: Id, i: nat, mx: Key)

  ghost predicate Enabled(s: State, w: Write)
    requires WF(s)
  {
    match w
    case SplitKid(p, i, extra) => CanSplit(s, p, i, extra)
    case SplitRoot(top, extra) => Splittable(s.heap[s.root]) && top !in s.heap && extra !in s.heap && top != extra
    case BorrowKid(p, i, toLeft) => CanBorrow(s, p, i, toLeft)
    case MergeKids(p, i, mx) => CanMerge(s, p, i)
  }

  predicate JoinsInners(s: State, w: Write) {
    w.MergeKids? && w.p in s.heap && w.i < |s.heap[w.p].keys| && s.heap[w.p].Inner? && w.i < |s.heap[w.p].kids| &&
    s.heap[w.p].kids[w.i] in s.heap && s.heap[s.heap[w.p].kids[w.i]].Inner?
  }

  /** A merge of inner nodes is sound if the key it pulls down cuts nothing off. */
  ghost predicate Sound(s: State, w: Write)
    requires WF(s) && Enabled(s, w)
  {
    JoinsInners(s, w) ==> Pullable(s, w.p, w.i, w.mx)
  }

  /** Merge two siblings; a root left without keys hands over to its only child. */
  ghost function MergeShrink(s: State, p: Id, i: nat): State
    requires CanMerge(s, p, i)
  {
    var t := Merge(s, p, i);
    if p == s.root && t.heap[p].keys == [] && |t.heap[p].kids| > 0 then ShrinkRoot(t) else t
  }

  ghost function SplitTop(s: State, top: Id, extra: Id): State
    requires WF(s) && Splittable(s.heap[s.root]) && top !in s.heap && extra !in s.heap && top != extra
  {
    Split(GrowRoot(s, top), top, 0, extra)
  }

  ghost function Apply(s: State, w: Write): State
    requires WF(s) && Enabled(s, w)
  {
    match w
    case SplitKid(p, i, extra) => Split(s, p, i, extra)
    case SplitRoot(top, extra) => SplitTop(s, top, extra)
    case BorrowKid(p, i, toLeft) => Borrow(s, p, i, toLeft)
    case MergeKids(p, i, mx) =>
      if s.heap[s.heap[p].kids[i]].Leaf? then MergeShrink(s, p, i)
      else PivotMerges(s, p, i, mx); MergeShrink(Repivot(s, p, i, mx), p, i)
  }

  lemma PivotMerges(s: State, p: Id, i: nat, mx: Key)
    requires WF(s) && Enabled(s, MergeKids(p, i, mx)) && s.heap[s.heap[p].kids[i]].Inner?
    ensures CanMerge(Repivot(s, p, i, mx), p, i)
  {
    PairIds(s, p, i);
  }

  lemma MergeShrinkOk(s: State, p: Id, i: nat)
    requires WF(s) && CanMerge(s, p, i)
    ensures WF(MergeShrink(s, p, i))
  {
    MergeOk(s, p, i);
    var t := Merge(s, p, i);
    if p == s.root && t.heap[p].keys == [] && |t.heap[p].kids| > 0 {
      ShrinkRootOk(t);
    }
  }

  lemma SplitTopOk(s: State, top: Id, extra: Id)
    requires WF(s) && Splittable(s.heap[s.root]) && top !in s.heap && extra !in s.heap && top != extra
    ensures WF(SplitTop(s, top, extra))
  {
    GrowRootOk(s, top);
    SplitOk(GrowRoot(s, top), top, 0, extra);
  }

  lemma MergeKidsOk(s: State, p: Id, i: nat, mx: Key)
    requires WF(s) && Enabled(s, MergeKids(p, i, mx)) && Sound(s, MergeKids(p, i, mx))
    ensures WF(Apply(s, MergeKids(p, i, mx))) && Apply(s, MergeKids(p, i, mx)).m == s.m
  {
    if s.heap[s.heap[p].kids[i]].Leaf? {
      MergeShrinkOk(s, p, i);
    } else {
      RepivotOk(s, p, i, mx);
      PivotMerges(s, p, i, mx);
      MergeShrinkOk(Repivot(s, p, i, mx), p, i);
    }
  }

  /** Every sound restructuring section keeps the tree well formed and the map unchanged. */
  lemma ApplyOk(s: State, w: Write)
    requires WF(s) && Enabled(s, w) && Sound(s, w)
    ensures WF(Apply(s, w)) && Apply(s, w).m == s.m
  {
    match w
    case SplitKid(p, i, extra) => SplitOk(s, p, i, extra);
    case SplitRoot(top, extra) => SplitTopOk(s, top, extra);
    case BorrowKid(p, i, toLeft) => BorrowOk(s, p, i, toLeft);
    case MergeKids(p, i, mx) => MergeKidsOk(s, p, i, mx);
  }

  // ----- what a section leaves alone -----

  /** The nodes a section writes. */
  ghost function Span(s: State, w: Write): set<Id>
    requires WF(s) && Enabled(s, w)
  {
    match w
    case SplitKid(p, i, _) => {p, s.heap[p].kids[i]}
    case SplitRoot(_, _) => {s.root}
    case BorrowKid(p, i, _) => {p, s.heap[p].kids[i], s.heap[p].kids[i + 1]}
    case MergeKids(p, i, _) => {p, s.heap[p].kids[i], s.heap[p].kids[i + 1]}
  }

  /** Below this level a merge of inner nodes moves the bounds at `ShiftSep` to `ShiftKey`; 0 if nothing moves. */
  ghost function ShiftLevel(s: State, w: Write): nat
    requires WF(s) && Enabled(s, w)
  {
    if JoinsInners(s, w) then s.info[w.p].level else 0
  }

  ghost function ShiftSep(s: State, w: Write): Key
    requires WF(s) && Enabled(s, w)
  {
    if JoinsInners(s, w) then s.heap[w.p].keys[w.i] else 0
  }

  ghost function ShiftKey(s: State, w: Write): Key
    requires WF(s) && Enabled(s, w)
  {
    if JoinsInners(s, w) then w.mx else 0
  }

  function Shifted(r: Info, level: nat, sep: Key, mx: Key): Info {
    if r.level < level then SwapInfo(r, sep, mx) else r
  }

  /** From s to t only the nodes in `ws` changed.  Every other node keeps its page and stays linked with its range,
      except that below `level` a bound at `sep` has moved to `mx`. */
  ghost predicate Frame(s: State, t: State, ws: set<Id>, level: nat, sep: Key, mx: Key) {
    && (forall n {:trigger t.heap[n]} {:trigger n in t.heap} :: n in s.heap ==>
          n in t.heap && t.heap[n].Inner? == s.heap[n].Inner? && (n !in ws ==> t.heap[n] == s.heap[n]))
    && (forall n {:trigger t.info[n]} {:trigger n in t.info} :: n in s.info && n !in ws ==>
          n in t.info && t.info[n] == Shifted(s.info[n], level, sep, mx))
    && (s.root !in ws ==> t.root == s.root)
  }

  lemma SplitFrame(s: State, p: Id, i: nat, extra: Id)
    requires WF(s) && CanSplit(s, p, i, extra)
    ensures Frame(s, Split(s, p, i, extra), {p, s.heap[p].kids[i]}, 0, 0, 0)
  {
    KidsDiffer(s, p, i);
    assert NodeOk(s, s.heap[s.heap[p].kids[i]], s.info[s.heap[p].kids[i]]);
  }

  lemma SplitTopFrame(s: State, top: Id, extra: Id)
    requires WF(s) && Splittable(s.heap[s.root]) && top !in s.heap && extra !in s.heap && top != extra
    ensures Frame(s, SplitTop(s, top, extra), {s.root}, 0, 0, 0)
  {
    GrowRootOk(s, top);
    SplitFrame(GrowRoot(s, top), top, 0, extra);
  }

  lemma BorrowFrame(s: State, p: Id, i: nat, toLeft: bool)
    requires WF(s) && CanBorrow(s, p, i, toLeft)
    ensures Frame(s, Borrow(s, p, i, toLeft), {p, s.heap[p].kids[i], s.heap[p].kids[i + 1]}, 0, 0, 0)
  {
    PairIds(s, p, i);
  }

  lemma MergeFrame(s: State, p: Id, i: nat)
    requires CanMerge(s, p, i) && s.info.Keys <= s.heap.Keys
    requires var a, b := s.heap[p].kids[i], s.heap[p].kids[i + 1];
             a != b && a != p && b != p && a != s.root && b != s.root
    ensures Frame(s, MergeShrink(s, p, i), {p, s.heap[p].kids[i], s.heap[p].kids[i + 1]}, 0, 0, 0)
  {
  }

  lemma PivotMergeFrame(s: State, p: Id, i: nat, mx: Key)
    requires WF(s) && Enabled(s, MergeKids(p, i, mx)) && s.heap[s.heap[p].kids[i]].Inner?
    ensures var w := MergeKids(p, i, mx); Frame(s, Apply(s, w), Span(s, w), s.info[p].level, s.heap[p].keys[i], mx)
  {
    var r, ws := Repivot(s, p, i, mx), {p, s.heap[p].kids[i], s.heap[p].kids[i + 1]};
    PairIds(s, p, i);
    RootIsTop(s, p, i);
    RootIsTop(s, p, i + 1);
    PivotMerges(s, p, i, mx);
    MergeFrame(r, p, i);
    var t := MergeShrink(r, p, i);
    forall n | n in s.info && n !in ws
      ensures n in t.info && t.info[n] == Shifted(s.info[n], s.info[p].level, s.heap[p].keys[i], mx)
    {
      assert n in r.info && t.info[n] == Shifted(r.info[n], 0, 0, 0);
    }
    forall n | n in s.heap
      ensures n in t.heap && t.heap[n].Inner? == s.heap[n].Inner? && (n !in ws ==> t.heap[n] == s.heap[n])
    {
      assert n in r.heap && n in t.heap;
    }
  }

  lemma ApplyFrame(s: State, w: Write)
    requires WF(s) && Enabled(s, w)
    ensures Frame(s, Apply(s, w), Span(s, w), ShiftLevel(s, w), ShiftSep(s, w), ShiftKey(s, w))
  {
    match w
    case SplitKid(p, i, extra) => SplitFrame(s, p, i, extra);
    case SplitRoot(top, extra) => SplitTopFrame(s, top, extra);
    case BorrowKid(p, i, toLeft) => BorrowFrame(s, p, i, toLeft);
    case MergeKids(p, i, mx) =>
      if s.heap[s.heap[p].kids[i]].Leaf? {
        PairIds(s, p, i);
        RootIsTop(s, p, i);
        RootIsTop(s, p, i + 1);
        MergeFrame(s, p, i);
      } else {
        PivotMergeFrame(s, p, i, mx);
      }
  }

  /** An inner node outside a merge of the leaves' parents has no bound at the separator between them. */
  lemma LowShift(s: State, p: Id, i: nat, n: Id)
    requires WF(s) && CanMerge(s, p, i) && s.info[p].level == 2 && n in s.info && s.heap[n].Inner?
      && s.info[n].level < 2
    requires n != s.heap[p].kids[i] && n != s.heap[p].kids[i + 1]
    ensures s.info[n].lo != At(s.heap[p].keys[i]) && s.info[n].hi != At(s.heap[p].keys[i])
  {
    PairFacts(s, p, i);
    var a, b := s.heap[p].kids[i], s.heap[p].kids[i + 1];
    assert NodeOk(s, s.heap[n], s.info[n]);
    assert Apart(s.info[n], s.info[a]) && Apart(s.info[n], s.info[b]);
  }

  // ----- descending and answering -----

  ghost function KidFor(s: State, n: Id, k: Key): Option<Id> {
    if n in s.heap && s.heap[n].Inner? && LowerBound(s.heap[n].keys, k) < |s.heap[n].kids|
    then Some(s.heap[n].kids[LowerBound(s.heap[n].keys, k)]) else None
  }

  /** The child chosen under a covering parent covers the key. */
  lemma KidCovers(s: State, p: Id, k: Key)
    requires WF(s) && p in s.info && s.heap[p].Inner?
    ensures KidFor(s, p, k).Some? && KidFor(s, p, k).value in s.info
    ensures InRange(s.info[p], k) ==> InRange(s.info[KidFor(s, p, k).value], k)
    ensures IsKid(s, p, LowerBound(s.heap[p].keys, k), KidFor(s, p, k).value)
  {
    var n, r := s.heap[p], s.info[p];
    assert NodeOk(s, n, r);
    var i := LowerBound(n.keys, k);
    assert s.info[n.kids[i]] == KidInfo(n.keys, r, i);
  }

  /** What a linked leaf answers is what the map answers, for keys in its range; a found entry is always in the map. */
  lemma LeafAnswers(s: State, l: Id, k: Key)
    requires WF(s) && l in s.info && s.heap[l].Leaf?
    ensures InRange(s.info[l], k) ==> LeafGet(s.heap[l], k) == MapGet(s.m, k)
    ensures LeafGet(s.heap[l], k).Some? ==> LeafGet(s.heap[l], k) == MapGet(s.m, k)
    ensures LeafGet(s.heap[l], k).None? ==> k !in s.heap[l].keys
  {
    var n := s.heap[l];
    assert NodeOk(s, n, s.info[l]);
    var p := LowerBound(n.keys, k);
    if k in n.keys {
      var j :| 0 <= j < |n.keys| && n.keys[j] == k;
      assert j == p;
    }
  }

  // ----- sections that write one leaf -----

  ghost function Raise(s: State, n: Id): State {
    s.(ver := Bump(s.ver, {n}))
  }

  ghost function PutIf(s: State, l: Id, k: Key, v: Value): State
    requires l in s.heap && s.heap[l].Leaf? && PagesOk(s.heap[l])
  {
    if LeafGet(s.heap[l], k).Some? then s else PutEntry(s, l, k, v)
  }

  ghost function EraseIf(s: State, l: Id, k: Key): State
    requires l in s.heap && s.heap[l].Leaf? && PagesOk(s.heap[l])
  {
    if LeafGet(s.heap[l], k).Some? then EraseEntry(s, l, LowerBound(s.heap[l].keys, k)) else s
  }

  /** Lock words play no part in the shape of the tree. */
  lemma WordsOk(s: State, ver: map<Id, nat>)
    requires WF(s) && ver.Keys == s.heap.Keys
    ensures WF(s.(ver := ver))
  {
    var t := s.(ver := ver);
    forall x | x in t.info ensures NodeOk(t, t.heap[x], t.info[x]) {
      assert NodeOk(s, s.heap[x], s.info[x]);
      if s.heap[x].Inner? { InnerKeep(s, t, s.heap[x], s.info[x]); }
    }
    forall a, b | a in t.info && b in t.info && a != b && t.info[a].level == t.info[b].level
      ensures Apart(t.info[a], t.info[b])
    {
      assert Apart(s.info[a], s.info[b]);
    }
  }

  lemma RaiseOk(s: State, n: Id)
    requires WF(s)
    ensures WF(Raise(s, n))
  {
    WordsOk(s, Bump(s.ver, {n}));
  }

  /** Inserting into a linked leaf that covers the key adds exactly that binding. */
  lemma PutIfOk(s: State, l: Id, k: Key, v: Value)
    requires WF(s) && l in s.info && s.heap[l].Leaf? && PagesOk(s.heap[l])
    requires LeafGet(s.heap[l], k).None? ==> InRange(s.info[l], k)
    ensures WF(PutIf(s, l, k, v))
    ensures PutIf(s, l, k, v).m == if k in s.m then s.m else s.m[k := v]
    ensures LeafGet(s.heap[l], k) == MapGet(s.m, k)
  {
    LeafAnswers(s, l, k);
    if LeafGet(s.heap[l], k).None? {
      PutEntryOk(s, l, k, v);
    }
  }

  lemma EraseIfOk(s: State, l: Id, k: Key)
    requires WF(s) && l in s.info && s.heap[l].Leaf? && PagesOk(s.heap[l])
    ensures WF(EraseIf(s, l, k))
    ensures EraseIf(s, l, k).m == if LeafGet(s.heap[l], k).Some? then s.m - {k} else s.m
  {
    if LeafGet(s.heap[l], k).Some? {
      EraseEntryOk(s, l, LowerBound(s.heap[l].keys, k));
    }
  }

  lemma PutFrame(s: State, l: Id, k: Key, v: Value)
    requires l in s.heap && s.heap[l].Leaf? && PagesOk(s.heap[l])
    ensures Frame(s, PutIf(s, l, k, v), {l}, 0, 0, 0)
    ensures Frame(s, EraseIf(s, l, k), {l}, 0, 0, 0)
  {
  }
}
