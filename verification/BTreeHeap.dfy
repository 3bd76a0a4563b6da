/** The B+ tree as a heap of nodes addressed by id, with the structural steps that writers
    perform while they hold the locks of every node they change.

    `root`, `heap` and `ver` are what the program stores.  `info` and `m` are auxiliary: the
    key range and level of every linked node, and the ordered map the tree stands for. */
module BTreeHeap {
  import opened SeqOps

  type Key = int
  type Value = int
  type Id = nat

  datatype Ref = Null | To(id: Id)

  datatype Node =
    | Leaf(keys: seq<Key>, vals: seq<Value>, next: Ref)
    | Inner(keys: seq<Key>, kids: seq<Id>)

  datatype Bound = NegInf | At(key: Key) | PosInf

  /** A linked node covers the keys in (lo, hi]; leaves have level 0. */
  datatype Info = Info(lo: Bound, hi: Bound, level: nat)

  datatype State = State(root: Id, heap: map<Id, Node>, ver: map<Id, nat>, info: map<Id, Info>, m: map<Key, Value>)

  predicate Lt(a: Bound, b: Bound) {
    match a
    case NegInf => b != NegInf
    case At(i) => (b.At? && i < b.key) || b.PosInf?
    case PosInf => false
  }

  predicate Le(a: Bound, b: Bound) {
    a == b || Lt(a, b)
  }

  predicate InRange(r: Info, k: Key) {
    Lt(r.lo, At(k)) && Le(At(k), r.hi)
  }

  predicate Apart(a: Info, b: Info) {
    Le(a.hi, b.lo) || Le(b.hi, a.lo)
  }

  /** Range of child `i` of an inner node that itself covers `r`. */
  function KidInfo(keys: seq<Key>, r: Info, i: nat): Info
    requires i <= |keys| && r.level > 0
  {
    Info(if i == 0 then r.lo else At(keys[i - 1]), if i == |keys| then r.hi else At(keys[i]), r.level - 1)
  }

  function LeafGet(n: Node, k: Key): Option<Value>
    requires n.Leaf?
  {
    var p := LowerBound(n.keys, k);
    if p < |n.keys| && p < |n.vals| && n.keys[p] == k then Some(n.vals[p]) else None
  }

  function MapGet(m: map<Key, Value>, k: Key): Option<Value> {
    if k in m then Some(m[k]) else None
  }

  // ----- the invariant -----

  /** A leaf holds exactly the bindings of the map in its range, in ascending key order. */
  ghost predicate LeafBody(m: map<Key, Value>, n: Node, r: Info)
    requires n.Leaf?
  {
    && r.level == 0
    && |n.vals| == |n.keys| && Sorted(n.keys)
    && (forall i :: 0 <= i < |n.keys| ==> InRange(r, n.keys[i]) && n.keys[i] in m && m[n.keys[i]] == n.vals[i])
    && (forall k :: k in m && InRange(r, k) ==> k in n.keys)
  }

  /** The leaf chain follows the key order and ends at the leaf that covers the largest keys. */
  ghost predicate NextOk(s: State, next: Ref, r: Info) {
    match next
    case Null => r.hi == PosInf
    case To(x) => x in s.info && s.info[x].level == 0 && s.info[x].lo == r.hi
  }

  ghost predicate InnerShape(n: Node, r: Info)
    requires n.Inner?
  {
    && r.level > 0
    && |n.kids| == |n.keys| + 1 && Sorted(n.keys)
    && (forall i :: 0 <= i < |n.keys| ==> Lt(r.lo, At(n.keys[i])) && Lt(At(n.keys[i]), r.hi))
  }

  ghost predicate InnerOk(s: State, n: Node, r: Info)
    requires n.Inner?
  {
    && InnerShape(n, r)
    && (forall i :: 0 <= i < |n.kids| ==> n.kids[i] in s.info && s.info[n.kids[i]] == KidInfo(n.keys, r, i))
  }

  ghost predicate NodeOk(s: State, n: Node, r: Info) {
    Lt(r.lo, r.hi) && if n.Leaf? then LeafBody(s.m, n, r) && NextOk(s, n.next, r) else InnerOk(s, n, r)
  }

  ghost predicate WF(s: State) {
    && s.info.Keys <= s.heap.Keys && s.heap.Keys == s.ver.Keys
    && s.root in s.info && s.info[s.root].lo == NegInf && s.info[s.root].hi == PosInf
    && (forall n {:trigger NodeOk(s, s.heap[n], s.info[n])} :: n in s.info ==> NodeOk(s, s.heap[n], s.info[n]))
    && (forall n {:trigger s.info[n].level} :: n in s.info ==> s.info[n].level <= s.info[s.root].level)
    && (forall a, b {:trigger Apart(s.info[a], s.info[b])} ::
          a in s.info && b in s.info && a != b && s.info[a].level == s.info[b].level ==> Apart(s.info[a], s.info[b]))
  }

  ghost predicate IsKid(s: State, p: Id, i: nat, c: Id) {
    p in s.info && p in s.heap && s.heap[p].Inner? && i < |s.heap[p].kids| && s.heap[p].kids[i] == c
  }

  /** A linked node has one parent and one position in it. */
  lemma OneParent(s: State, p: Id, i: nat, q: Id, j: nat, c: Id)
    requires WF(s) && IsKid(s, p, i, c) && IsKid(s, q, j, c)
    ensures p == q && i == j
  {
    var P, Q := s.heap[p], s.heap[q];
    assert NodeOk(s, P, s.info[p]) && NodeOk(s, Q, s.info[q]);
    assert s.info[c] == KidInfo(P.keys, s.info[p], i) == KidInfo(Q.keys, s.info[q], j);
    assert NodeOk(s, s.heap[c], s.info[c]);
    assert p == q || Apart(s.info[p], s.info[q]);
  }

  /** A node's range lies inside its parent's. */
  lemma KidInside(s: State, p: Id, i: nat, c: Id)
    requires WF(s) && IsKid(s, p, i, c)
    ensures c in s.info && s.info[c].level + 1 == s.info[p].level
    ensures Le(s.info[p].lo, s.info[c].lo) && Le(s.info[c].hi, s.info[p].hi) && Lt(s.info[c].lo, s.info[c].hi)
  {
    assert NodeOk(s, s.heap[p], s.info[p]);
    assert s.info[c] == KidInfo(s.heap[p].keys, s.info[p], i);
    assert NodeOk(s, s.heap[c], s.info[c]);
  }

  // ----- writer steps on one leaf -----

  function Bump(ver: map<Id, nat>, ids: set<Id>): map<Id, nat> {
    map x | x in ver :: if x in ids then ver[x] + 2 else ver[x]
  }

  /** The entry goes to the lower bound of its key. */
  function PutEntry(s: State, l: Id, k: Key, v: Value): State
    requires l in s.heap && s.heap[l].Leaf? && |s.heap[l].vals| == |s.heap[l].keys|
  {
    var n := s.heap[l];
    var p := LowerBound(n.keys, k);
    s.(heap := s.heap[l := Leaf(InsertAt(n.keys, p, k), InsertAt(n.vals, p, v), n.next)], m := s.m[k := v])
  }

  /** Erase position `p` of a leaf. */
  function EraseEntry(s: State, l: Id, p: nat): State
    requires l in s.heap && s.heap[l].Leaf? && |s.heap[l].vals| == |s.heap[l].keys| && p < |s.heap[l].keys|
  {
    var n := s.heap[l];
    s.(heap := s.heap[l := Leaf(RemoveAt(n.keys, p), RemoveAt(n.vals, p), n.next)], m := s.m - {n.keys[p]})
  }

  /** Changing the entry of one key inside one leaf's range leaves every other node alone. */
  lemma OtherNodesKeep(s: State, t: State, l: Id, k: Key)
    requires WF(s) && l in s.info && s.info[l].level == 0 && InRange(s.info[l], k)
    requires t.info == s.info && forall x :: x in s.heap && x != l ==> x in t.heap && t.heap[x] == s.heap[x]
    requires forall j :: j != k ==> (j in t.m <==> j in s.m) && (j in s.m ==> t.m[j] == s.m[j])
    ensures forall n :: n in s.info && n != l ==> NodeOk(t, t.heap[n], t.info[n])
  {
    forall n | n in s.info && n != l
      ensures NodeOk(t, t.heap[n], t.info[n])
    {
      assert NodeOk(s, s.heap[n], s.info[n]);
      if s.heap[n].Leaf? {
        assert Apart(s.info[n], s.info[l]);
        assert !InRange(s.info[n], k);
      }
    }
  }

  lemma PutBody(m: map<Key, Value>, n: Node, r: Info, k: Key, v: Value)
    requires n.Leaf? && LeafBody(m, n, r) && k !in n.keys && InRange(r, k)
    ensures var p := LowerBound(n.keys, k);
            LeafBody(m[k := v], Leaf(InsertAt(n.keys, p, k), InsertAt(n.vals, p, v), n.next), r)
  {
    var p := LowerBound(n.keys, k);
    var keys := InsertAt(n.keys, p, k);
    InsertAtSorted(n.keys, k);
    forall j | j in m[k := v] && InRange(r, j) ensures j in keys {
      InsertAtMember(n.keys, p, k, j);
    }
  }

  lemma EraseBody(m: map<Key, Value>, n: Node, r: Info, p: nat)
    requires n.Leaf? && LeafBody(m, n, r) && p < |n.keys|
    ensures LeafBody(m - {n.keys[p]}, Leaf(RemoveAt(n.keys, p), RemoveAt(n.vals, p), n.next), r)
  {
    var m' := m - {n.keys[p]};
    var keys, vals := RemoveAt(n.keys, p), RemoveAt(n.vals, p);
    RemoveAtSorted(n.keys, p);
    forall i | 0 <= i < |keys|
      ensures InRange(r, keys[i]) && keys[i] in m' && m'[keys[i]] == vals[i]
    {
      var j := if i < p then i else i + 1;
      assert keys[i] == n.keys[j] && vals[i] == n.vals[j];
      assert n.keys[j] != n.keys[p];
    }
    forall j | j in m' && InRange(r, j) ensures j in keys {
      RemoveAtMember(n.keys, p, j);
    }
  }

  lemma PutEntryOk(s: State, l: Id, k: Key, v: Value)
    requires WF(s) && l in s.info && s.heap[l].Leaf? && |s.heap[l].vals| == |s.heap[l].keys|
    requires InRange(s.info[l], k) && k !in s.heap[l].keys
    ensures WF(PutEntry(s, l, k, v)) && k !in s.m
  {
    var t := PutEntry(s, l, k, v);
    assert NodeOk(s, s.heap[l], s.info[l]);
    PutBody(s.m, s.heap[l], s.info[l], k, v);
    OtherNodesKeep(s, t, l, k);
  }

  lemma EraseEntryOk(s: State, l: Id, p: nat)
    requires WF(s) && l in s.info && s.heap[l].Leaf? && |s.heap[l].vals| == |s.heap[l].keys| && p < |s.heap[l].keys|
    ensures WF(EraseEntry(s, l, p)) && s.heap[l].keys[p] in s.m
  {
    var t := EraseEntry(s, l, p);
    assert NodeOk(s, s.heap[l], s.info[l]);
    EraseBody(s.m, s.heap[l], s.info[l], p);
    OtherNodesKeep(s, t, l, s.heap[l].keys[p]);
  }

  // ----- restructuring below one parent -----

  /** `t` differs from `s` only in the parent `p`, in the children `changed` of `p`, and in ids new to the heap. */
  ghost predicate Surgery(s: State, t: State, p: Id, changed: set<Id>) {
    && p in s.info && p in s.heap && s.heap[p].Inner?
    && p in t.heap && t.heap[p].Inner? && p in t.info && t.info[p] == s.info[p]
    && (forall c :: c in changed ==> c in s.heap[p].kids)
    && s.heap.Keys <= t.heap.Keys && t.info.Keys <= t.heap.Keys && t.heap.Keys == t.ver.Keys
    && (forall x :: x in s.heap && x != p && x !in changed ==> t.heap[x] == s.heap[x])
    && (forall x :: x in s.info && x !in changed ==> x in t.info && t.info[x] == s.info[x])
    && t.root == s.root && t.m == s.m
  }

  lemma SurgeryInner(s: State, t: State, p: Id, changed: set<Id>, n: Id)
    requires WF(s) && Surgery(s, t, p, changed) && n in s.info && n != p && n !in changed && s.heap[n].Inner?
    ensures NodeOk(t, t.heap[n], t.info[n])
  {
    assert NodeOk(s, s.heap[n], s.info[n]);
    var N := s.heap[n];
    forall i | 0 <= i < |N.kids|
      ensures N.kids[i] in t.info && t.info[N.kids[i]] == KidInfo(N.keys, t.info[n], i)
    {
      var c := N.kids[i];
      if c in changed {
        var j :| 0 <= j < |s.heap[p].kids| && s.heap[p].kids[j] == c;
        OneParent(s, p, j, n, i, c);
      }
    }
  }

  /** Nodes at the children's level that are not children `i..j` stay clear of the range those children span. */
  lemma SpanApart(s: State, p: Id, i: nat, j: nat, a: Id, b: Id, x: Id)
    requires WF(s) && IsKid(s, p, i, a) && IsKid(s, p, j, b) && i <= j <= i + 1
    requires a in s.info && b in s.info && x in s.info && x != a && x != b && s.info[x].level + 1 == s.info[p].level
    ensures Apart(s.info[x], Info(s.info[a].lo, s.info[b].hi, s.info[x].level))
  {
    KidInside(s, p, i, a);
    KidInside(s, p, j, b);
    assert NodeOk(s, s.heap[p], s.info[p]) && NodeOk(s, s.heap[x], s.info[x]);
    assert Apart(s.info[x], s.info[a]) && Apart(s.info[x], s.info[b]);
    assert s.info[a] == KidInfo(s.heap[p].keys, s.info[p], i) && s.info[b] == KidInfo(s.heap[p].keys, s.info[p], j);
  }

  ghost predicate Within(r: Info, lo: Bound, hi: Bound, level: nat) {
    r.level == level && Le(lo, r.lo) && Le(r.hi, hi)
  }

  predicate Touched(s: State, t: State, changed: set<Id>, x: Id) {
    x in t.info && (x in changed || x !in s.info)
  }

  /** What a surgery has to establish about the nodes it touched: they are well formed and share out
      the range (lo, hi] that the changed children had, and no leaf outside points at a moved one. */
  ghost predicate SharesOut(s: State, t: State, p: Id, changed: set<Id>, lo: Bound, hi: Bound) {
    && Surgery(s, t, p, changed) && s.info[p].level > 0 && NodeOk(t, t.heap[p], t.info[p])
    && (forall x :: Touched(s, t, changed, x) ==>
          NodeOk(t, t.heap[x], t.info[x]) && Within(t.info[x], lo, hi, s.info[p].level - 1))
    && (forall x, y :: Touched(s, t, changed, x) && Touched(s, t, changed, y) && x != y ==> Apart(t.info[x], t.info[y]))
    && (forall x :: x in s.info && x !in changed && s.info[x].level + 1 == s.info[p].level
          ==> Apart(s.info[x], Info(lo, hi, s.info[x].level)))
    && (forall n :: n in s.info && n in s.heap && n !in changed && s.heap[n].Leaf? ==>
       NextOk(t, s.heap[n].next, s.info[n]))
  }

  lemma ApartWithin(a: Info, b: Info, lo: Bound, hi: Bound, level: nat)
    requires Within(a, lo, hi, level) && Apart(b, Info(lo, hi, level))
    ensures Apart(a, b) && Apart(b, a)
  {
  }

  lemma SurgeryNodes(s: State, t: State, p: Id, changed: set<Id>, lo: Bound, hi: Bound, n: Id)
    requires WF(s) && SharesOut(s, t, p, changed, lo, hi) && n in t.info
    ensures NodeOk(t, t.heap[n], t.info[n])
    ensures t.info[n].level <= s.info[s.root].level
  {
    if !Touched(s, t, changed, n) && n != p {
      assert NodeOk(s, s.heap[n], s.info[n]);
      if s.heap[n].Inner? {
        SurgeryInner(s, t, p, changed, n);
      }
    }
  }

  lemma SurgeryApart(s: State, t: State, p: Id, changed: set<Id>, lo: Bound, hi: Bound, a: Id, b: Id)
    requires WF(s) && SharesOut(s, t, p, changed, lo, hi)
    requires a in t.info && b in t.info && a != b && t.info[a].level == t.info[b].level
    ensures Apart(t.info[a], t.info[b])
  {
    if Touched(s, t, changed, a) && !Touched(s, t, changed, b) {
      ApartWithin(t.info[a], t.info[b], lo, hi, s.info[p].level - 1);
    } else if !Touched(s, t, changed, a) && Touched(s, t, changed, b) {
      ApartWithin(t.info[b], t.info[a], lo, hi, s.info[p].level - 1);
    }
  }

  lemma SurgeryOk(s: State, t: State, p: Id, changed: set<Id>, lo: Bound, hi: Bound)
    requires WF(s) && SharesOut(s, t, p, changed, lo, hi)
    ensures WF(t)
  {
    forall n | n in t.info
      ensures NodeOk(t, t.heap[n], t.info[n]) && t.info[n].level <= s.info[s.root].level
    {
      SurgeryNodes(s, t, p, changed, lo, hi, n);
    }
    forall a, b | a in t.info && b in t.info && a != b && t.info[a].level == t.info[b].level
      ensures Apart(t.info[a], t.info[b])
    {
      SurgeryApart(s, t, p, changed, lo, hi, a, b);
    }
    forall j | 0 <= j < |s.heap[p].kids| ensures s.heap[p].kids[j] != s.root {
      RootIsTop(s, p, j);
    }
  }

  lemma RootIsTop(s: State, p: Id, i: nat)
    requires WF(s) && p in s.info && s.heap[p].Inner? && i < |s.heap[p].kids|
    ensures s.heap[p].kids[i] != s.root
  {
    KidInside(s, p, i, s.heap[p].kids[i]);
  }

  /** A surgery that leaves two nodes sharing the range (lo, hi] at `mid`. */
  lemma TwoShare(s: State, t: State, p: Id, changed: set<Id>, a: Id, b: Id, lo: Bound, mid: Bound, hi: Bound)
    requires Surgery(s, t, p, changed) && s.info[p].level > 0 && NodeOk(t, t.heap[p], t.info[p])
    requires a in t.info && b in t.info && a != b
    requires forall x :: Touched(s, t, changed, x) <==> x == a || x == b
    requires NodeOk(t, t.heap[a], t.info[a]) && t.info[a] == Info(lo, mid, s.info[p].level - 1)
    requires NodeOk(t, t.heap[b], t.info[b]) && t.info[b] == Info(mid, hi, s.info[p].level - 1)
    requires forall x :: x in s.info && x !in changed && s.info[x].level + 1 == s.info[p].level
               ==> Apart(s.info[x], Info(lo, hi, s.info[x].level))
    requires forall n ::
      n in s.info && n in s.heap && n !in changed && s.heap[n].Leaf? ==> NextOk(t, s.heap[n].next, s.info[n])
    ensures SharesOut(s, t, p, changed, lo, hi)
  {
    assert Lt(lo, mid) && Lt(mid, hi);
  }

  /** A surgery that leaves one node holding the whole range (lo, hi]. */
  lemma SurgeryOne(s: State, t: State, p: Id, changed: set<Id>, a: Id, lo: Bound, hi: Bound)
    requires WF(s) && Surgery(s, t, p, changed) && s.info[p].level > 0 && NodeOk(t, t.heap[p], t.info[p])
    requires a in t.info && forall x :: Touched(s, t, changed, x) <==> x == a
    requires NodeOk(t, t.heap[a], t.info[a]) && t.info[a] == Info(lo, hi, s.info[p].level - 1)
    requires forall x :: x in s.info && x !in changed && s.info[x].level + 1 == s.info[p].level
               ==> Apart(s.info[x], Info(lo, hi, s.info[x].level))
    requires forall n ::
      n in s.info && n in s.heap && n !in changed && s.heap[n].Leaf? ==> NextOk(t, s.heap[n].next, s.info[n])
    ensures WF(t)
  {
    assert SharesOut(s, t, p, changed, lo, hi);
    SurgeryOk(s, t, p, changed, lo, hi);
  }

  // ----- split -----

  /** The separator and the two halves of a split.  A leaf keeps count / 2 entries and the separator is the
      largest of them; an inner node keeps count / 2 - 1 keys and its next key moves up. */
  function SplitAt(n: Node): (h: nat)
    requires |n.keys| >= 2
    ensures h < |n.keys|
  {
    if n.Leaf? then |n.keys| / 2 else |n.keys| / 2 - 1
  }

  function SepKey(n: Node): Key
    requires |n.keys| >= 2
  {
    if n.Leaf? then n.keys[SplitAt(n) - 1] else n.keys[SplitAt(n)]
  }

  predicate Splittable(n: Node) {
    |n.keys| >= 2 && if n.Leaf? then |n.vals| == |n.keys| else |n.kids| == |n.keys| + 1
  }

  function LeftHalf(n: Node, right: Id): Node
    requires Splittable(n)
  {
    var h := SplitAt(n);
    if n.Leaf? then Leaf(n.keys[..h], n.vals[..h], To(right)) else Inner(n.keys[..h], n.kids[..h + 1])
  }

  function RightHalf(n: Node): Node
    requires Splittable(n)
  {
    var h := SplitAt(n);
    if n.Leaf? then Leaf(n.keys[h..], n.vals[h..], n.next) else Inner(n.keys[h + 1..], n.kids[h + 1..])
  }

  /** Insert a separator and the child to its right into an inner node. */
  function AddKid(n: Node, sep: Key, kid: Id): Node
    requires n.Inner? && |n.kids| == |n.keys| + 1
  {
    var pos := LowerBound(n.keys, sep);
    Inner(InsertAt(n.keys, pos, sep), InsertAt(n.kids, pos + 1, kid))
  }

  ghost predicate CanSplit(s: State, p: Id, i: nat, extra: Id) {
    p in s.info && p in s.heap && s.heap[p].Inner? && i < |s.heap[p].kids| && |s.heap[p].kids| == |s.heap[p].keys| + 1
    && s.heap[p].kids[i] in s.info && s.heap[p].kids[i] in s.heap && Splittable(s.heap[s.heap[p].kids[i]])
    && extra !in s.heap && extra !in s.ver && extra !in s.info
  }

  ghost function Split(s: State, p: Id, i: nat, extra: Id): State
    requires CanSplit(s, p, i, extra)
  {
    var c := s.heap[p].kids[i];
    var n, r := s.heap[c], s.info[c];
    var sep := SepKey(n);
    s.(heap := s.heap[c := LeftHalf(n, extra)][extra := RightHalf(n)][p := AddKid(s.heap[p], sep, extra)],
       ver := Bump(s.ver, {p, c})[extra := 2],
       info := s.info[c := r.(hi := At(sep))][extra := r.(lo := At(sep))])
  }

  lemma LowerBoundOf(keys: seq<Key>, k: Key, i: nat)
    requires Sorted(keys) && i <= |keys|
    requires i > 0 ==> keys[i - 1] < k
    requires i < |keys| ==> k <= keys[i]
    ensures LowerBound(keys, k) == i
  {
  }

  // ----- cutting and joining well-formed nodes -----

  /** The part of a leaf that lies in a sub-range: positions a..b hold exactly the keys in q. */
  lemma LeafSlice(m: map<Key, Value>, n: Node, r: Info, a: nat, b: nat, q: Info, next: Ref)
    requires n.Leaf? && LeafBody(m, n, r) && a <= b <= |n.keys|
    requires q.level == 0 && Le(r.lo, q.lo) && Le(q.hi, r.hi)
    requires forall i :: 0 <= i < |n.keys| ==> (InRange(q, n.keys[i]) <==> a <= i < b)
    ensures LeafBody(m, Leaf(n.keys[a..b], n.vals[a..b], next), q)
  {
    var keys := n.keys[a..b];
    forall k | k in m && InRange(q, k) ensures k in keys {
      assert InRange(r, k);
      var j :| 0 <= j < |n.keys| && n.keys[j] == k;
      assert keys[j - a] == k;
    }
  }

  lemma LeafJoin(m: map<Key, Value>, n1: Node, r1: Info, n2: Node, r2: Info, next: Ref)
    requires n1.Leaf? && n2.Leaf? && LeafBody(m, n1, r1) && LeafBody(m, n2, r2)
    requires r1.hi == r2.lo && Lt(r1.lo, r1.hi) && Lt(r2.lo, r2.hi)
    ensures LeafBody(m, Leaf(n1.keys + n2.keys, n1.vals + n2.vals, next), r1.(hi := r2.hi))
  {
    var r := r1.(hi := r2.hi);
    var keys := n1.keys + n2.keys;
    assert forall i :: 0 <= i < |n1.keys| ==> InRange(r, n1.keys[i]);
    assert forall i :: 0 <= i < |n2.keys| ==> InRange(r, n2.keys[i]);
    assert forall i, j :: 0 <= i < |n1.keys| && 0 <= j < |n2.keys| ==> n1.keys[i] < n2.keys[j];
    assert Sorted(keys);
    forall k | k in m && InRange(r, k) ensures k in keys {
      assert InRange(r1, k) || InRange(r2, k);
    }
  }

  function SliceInfo(keys: seq<Key>, r: Info, a: nat, b: nat): Info
    requires a <= b <= |keys|
  {
    Info(if a == 0 then r.lo else At(keys[a - 1]), if b == |keys| then r.hi else At(keys[b]), r.level)
  }

  lemma InnerSlice(s: State, n: Node, r: Info, a: nat, b: nat)
    requires n.Inner? && InnerOk(s, n, r) && a <= b <= |n.keys|
    ensures InnerOk(s, Inner(n.keys[a..b], n.kids[a..b + 1]), SliceInfo(n.keys, r, a, b))
  {
    var keys, kids, q := n.keys[a..b], n.kids[a..b + 1], SliceInfo(n.keys, r, a, b);
    forall i | 0 <= i < |kids|
      ensures kids[i] in s.info && s.info[kids[i]] == KidInfo(keys, q, i)
    {
      assert kids[i] == n.kids[a + i];
      assert KidInfo(keys, q, i) == KidInfo(n.keys, r, a + i);
    }
  }

  lemma InnerJoin(s: State, n1: Node, r1: Info, sep: Key, n2: Node, r2: Info)
    requires n1.Inner? && n2.Inner? && InnerOk(s, n1, r1) && InnerOk(s, n2, r2)
    requires r1.hi == At(sep) == r2.lo && Lt(r1.lo, r1.hi) && Lt(r2.lo, r2.hi) && r1.level == r2.level
    ensures InnerOk(s, Inner(n1.keys + [sep] + n2.keys, n1.kids + n2.kids), r1.(hi := r2.hi))
  {
    var keys, kids, r := n1.keys + [sep] + n2.keys, n1.kids + n2.kids, r1.(hi := r2.hi);
    assert Sorted(keys);
    forall i | 0 <= i < |kids|
      ensures kids[i] in s.info && s.info[kids[i]] == KidInfo(keys, r, i)
    {
      if i < |n1.kids| {
        assert kids[i] == n1.kids[i] && KidInfo(keys, r, i) == KidInfo(n1.keys, r1, i);
      } else {
        var j := i - |n1.kids|;
        assert kids[i] == n2.kids[j] && KidInfo(keys, r, i) == KidInfo(n2.keys, r2, j);
      }
    }
  }

  /** An inner node stays well formed when its own children keep their ranges. */
  lemma InnerKeep(s: State, t: State, n: Node, r: Info)
    requires n.Inner? && InnerOk(s, n, r)
    requires forall i :: 0 <= i < |n.kids| ==> n.kids[i] in t.info && t.info[n.kids[i]] == s.info[n.kids[i]]
    ensures InnerOk(t, n, r)
  {
  }

  lemma AddKidAt(t: State, keys: seq<Key>, kids: seq<Id>, r: Info, i: nat, sep: Key, extra: Id, j: nat)
    requires |kids| == |keys| + 1 && i < |kids| && j <= |kids| && r.level > 0
    requires kids[i] in t.info && t.info[kids[i]] == KidInfo(keys, r, i).(hi := At(sep))
    requires extra in t.info && t.info[extra] == KidInfo(keys, r, i).(lo := At(sep))
    requires forall x :: 0 <= x < |kids| && x != i ==> kids[x] in t.info && t.info[kids[x]] == KidInfo(keys, r, x)
    ensures InsertAt(kids, i + 1, extra)[j] in t.info
    ensures t.info[InsertAt(kids, i + 1, extra)[j]] == KidInfo(InsertAt(keys, i, sep), r, j)
  {
    var ks, cs := InsertAt(keys, i, sep), InsertAt(kids, i + 1, extra);
    if j <= i {
      assert cs[j] == kids[j];
    } else if j == i + 1 {
      assert cs[j] == extra;
    } else {
      assert cs[j] == kids[j - 1];
    }
  }

  /** The parent of a split: child `i` keeps the lower part of its range, the new child takes the rest. */
  lemma ParentAdd(s: State, t: State, n: Node, r: Info, i: nat, sep: Key, extra: Id)
    requires n.Inner? && InnerOk(s, n, r) && i < |n.kids| && Lt(r.lo, r.hi)
    requires Lt(KidInfo(n.keys, r, i).lo, At(sep)) && Lt(At(sep), KidInfo(n.keys, r, i).hi)
    requires n.kids[i] in t.info && t.info[n.kids[i]] == KidInfo(n.keys, r, i).(hi := At(sep))
    requires extra in t.info && t.info[extra] == KidInfo(n.keys, r, i).(lo := At(sep))
    requires forall j :: 0 <= j < |n.kids| && j != i ==> n.kids[j] in t.info && t.info[n.kids[j]] == s.info[n.kids[j]]
    ensures InnerOk(t, Inner(InsertAt(n.keys, i, sep), InsertAt(n.kids, i + 1, extra)), r)
  {
    AddKeyShape(n.keys, r, i, sep);
    var kids := InsertAt(n.kids, i + 1, extra);
    forall j | 0 <= j < |kids|
      ensures kids[j] in t.info && t.info[kids[j]] == KidInfo(InsertAt(n.keys, i, sep), r, j)
    {
      AddKidAt(t, n.keys, n.kids, r, i, sep, extra, j);
    }
  }

  lemma AddKeyShape(keys: seq<Key>, r: Info, i: nat, sep: Key)
    requires Sorted(keys) && r.level > 0 && i <= |keys| && Lt(r.lo, r.hi)
    requires forall j :: 0 <= j < |keys| ==> Lt(r.lo, At(keys[j])) && Lt(At(keys[j]), r.hi)
    requires Lt(KidInfo(keys, r, i).lo, At(sep)) && Lt(At(sep), KidInfo(keys, r, i).hi)
    ensures Sorted(InsertAt(keys, i, sep))
    ensures forall j ::
      0 <= j <= |keys| ==> Lt(r.lo, At(InsertAt(keys, i, sep)[j])) && Lt(At(InsertAt(keys, i, sep)[j]), r.hi)
  {
  }

  lemma SplitSep(s: State, n: Node, r: Info)
    requires NodeOk(s, n, r) && Splittable(n)
    ensures Lt(r.lo, At(SepKey(n))) && Lt(At(SepKey(n)), r.hi)
  {
    if n.Leaf? {
      assert n.keys[SplitAt(n) - 1] < n.keys[SplitAt(n)];
      assert InRange(r, n.keys[SplitAt(n) - 1]) && InRange(r, n.keys[SplitAt(n)]);
    }
  }

  lemma SplitLeafHalves(s: State, t: State, n: Node, r: Info, extra: Id)
    requires n.Leaf? && NodeOk(s, n, r) && Splittable(n) && t.m == s.m && NextOk(t, n.next, r)
    requires extra in t.info && t.info[extra] == r.(lo := At(SepKey(n)))
    ensures NodeOk(t, LeftHalf(n, extra), r.(hi := At(SepKey(n))))
    ensures NodeOk(t, RightHalf(n), r.(lo := At(SepKey(n))))
  {
    var h, sep := SplitAt(n), SepKey(n);
    SplitSep(s, n, r);
    assert n.keys[0..h] == n.keys[..h] && n.vals[0..h] == n.vals[..h];
    LeafSlice(s.m, n, r, 0, h, r.(hi := At(sep)), To(extra));
    assert n.keys[h..|n.keys|] == n.keys[h..] && n.vals[h..|n.keys|] == n.vals[h..];
    LeafSlice(s.m, n, r, h, |n.keys|, r.(lo := At(sep)), n.next);
  }

  lemma SplitInnerHalves(s: State, t: State, n: Node, r: Info, extra: Id)
    requires n.Inner? && NodeOk(s, n, r) && Splittable(n)
    requires forall i :: 0 <= i < |n.kids| ==> n.kids[i] in t.info && t.info[n.kids[i]] == s.info[n.kids[i]]
    ensures NodeOk(t, LeftHalf(n, extra), r.(hi := At(SepKey(n))))
    ensures NodeOk(t, RightHalf(n), r.(lo := At(SepKey(n))))
  {
    var h := SplitAt(n);
    SplitSep(s, n, r);
    InnerKeep(s, t, n, r);
    assert n.keys[0..h] == n.keys[..h] && n.kids[0..h + 1] == n.kids[..h + 1];
    InnerSlice(t, n, r, 0, h);
    assert n.keys[h + 1..|n.keys|] == n.keys[h + 1..] && n.kids[h + 1..|n.keys| + 1] == n.kids[h + 1..];
    InnerSlice(t, n, r, h + 1, |n.keys|);
  }

  /** The other children of `p` differ from child `i`, and no node is its own child. */
  lemma KidsDiffer(s: State, p: Id, i: nat)
    requires WF(s) && p in s.info && s.heap[p].Inner? && i < |s.heap[p].kids|
    ensures forall j :: 0 <= j < |s.heap[p].kids| && j != i ==> s.heap[p].kids[j] != s.heap[p].kids[i]
    ensures s.heap[p].kids[i] != p
  {
    forall j | 0 <= j < |s.heap[p].kids| && j != i ensures s.heap[p].kids[j] != s.heap[p].kids[i] {
      if s.heap[p].kids[j] == s.heap[p].kids[i] {
        OneParent(s, p, i, p, j, s.heap[p].kids[i]);
      }
    }
    KidInside(s, p, i, s.heap[p].kids[i]);
  }

  lemma SplitTouches(s: State, p: Id, i: nat, extra: Id)
    requires CanSplit(s, p, i, extra) && p != s.heap[p].kids[i]
    requires s.info.Keys <= s.heap.Keys && s.heap.Keys == s.ver.Keys
    requires LowerBound(s.heap[p].keys, SepKey(s.heap[s.heap[p].kids[i]])) == i
    ensures var t, P, c := Split(s, p, i, extra), s.heap[p], s.heap[p].kids[i];
            && Surgery(s, t, p, {c})
            && (forall x :: Touched(s, t, {c}, x) <==> x == c || x == extra)
            && t.heap[c] == LeftHalf(s.heap[c], extra) && t.heap[extra] == RightHalf(s.heap[c])
            && t.heap[p] == Inner(InsertAt(P.keys, i, SepKey(s.heap[c])), InsertAt(P.kids, i + 1, extra))
            && t.info[c] == s.info[c].(hi := At(SepKey(s.heap[c])))
            && t.info[extra] == s.info[c].(lo := At(SepKey(s.heap[c])))
  {
  }

  lemma SplitNext(s: State, p: Id, i: nat, extra: Id, n: Id)
    requires WF(s) && CanSplit(s, p, i, extra) && n in s.info && s.heap[n].Leaf?
    ensures NextOk(Split(s, p, i, extra), s.heap[n].next, s.info[n])
  {
    assert NodeOk(s, s.heap[n], s.info[n]);
  }

  lemma SplitSetup(s: State, p: Id, i: nat, extra: Id)
    requires WF(s) && CanSplit(s, p, i, extra)
    ensures p != s.heap[p].kids[i] && NodeOk(s, s.heap[s.heap[p].kids[i]], s.info[s.heap[p].kids[i]])
    ensures LowerBound(s.heap[p].keys, SepKey(s.heap[s.heap[p].kids[i]])) == i
  {
    var P, c := s.heap[p], s.heap[p].kids[i];
    assert NodeOk(s, P, s.info[p]) && NodeOk(s, s.heap[c], s.info[c]);
    SplitSep(s, s.heap[c], s.info[c]);
    KidsDiffer(s, p, i);
    LowerBoundOf(P.keys, SepKey(s.heap[c]), i);
  }

  lemma SplitChildren(s: State, p: Id, i: nat, extra: Id)
    requires WF(s) && CanSplit(s, p, i, extra)
    ensures var t, c := Split(s, p, i, extra), s.heap[p].kids[i];
            NodeOk(t, t.heap[c], t.info[c]) && NodeOk(t, t.heap[extra], t.info[extra])
  {
    SplitSetup(s, p, i, extra);
    SplitTouches(s, p, i, extra);
    var t, c := Split(s, p, i, extra), s.heap[p].kids[i];
    var n, r := s.heap[c], s.info[c];
    if n.Inner? {
      forall j | 0 <= j < |n.kids| ensures n.kids[j] != c {
        KidInside(s, c, j, n.kids[j]);
      }
      SplitInnerHalves(s, t, n, r, extra);
    } else {
      SplitNext(s, p, i, extra, c);
      SplitLeafHalves(s, t, n, r, extra);
    }
  }

  lemma SplitParentOk(s: State, p: Id, i: nat, extra: Id)
    requires WF(s) && CanSplit(s, p, i, extra)
    ensures NodeOk(Split(s, p, i, extra), Split(s, p, i, extra).heap[p], s.info[p])
  {
    SplitSetup(s, p, i, extra);
    SplitTouches(s, p, i, extra);
    var P, c := s.heap[p], s.heap[p].kids[i];
    assert NodeOk(s, P, s.info[p]);
    KidsDiffer(s, p, i);
    SplitSep(s, s.heap[c], s.info[c]);
    ParentAdd(s, Split(s, p, i, extra), P, s.info[p], i, SepKey(s.heap[c]), extra);
  }

  lemma SplitOk(s: State, p: Id, i: nat, extra: Id)
    requires WF(s) && CanSplit(s, p, i, extra)
    ensures WF(Split(s, p, i, extra))
  {
    var t, c := Split(s, p, i, extra), s.heap[p].kids[i];
    var r := s.info[c];
    SplitSetup(s, p, i, extra);
    SplitTouches(s, p, i, extra);
    SplitChildren(s, p, i, extra);
    SplitParentOk(s, p, i, extra);
    KidInside(s, p, i, c);
    SplitSep(s, s.heap[c], r);
    forall x | x in s.info && x != c && s.info[x].level + 1 == s.info[p].level
      ensures Apart(s.info[x], Info(r.lo, r.hi, s.info[x].level))
    {
      SpanApart(s, p, i, i, c, c, x);
    }
    forall x | x in s.info && x in s.heap && s.heap[x].Leaf? ensures NextOk(t, s.heap[x].next, s.info[x]) {
      SplitNext(s, p, i, extra, x);
    }
    TwoShare(s, t, p, {c}, c, extra, r.lo, At(SepKey(s.heap[c])), r.hi);
    SurgeryOk(s, t, p, {c}, r.lo, r.hi);
  }

  // ----- borrow from a sibling -----

  ghost predicate Adjacent(s: State, p: Id, i: nat) {
    && p in s.info && p in s.heap && s.heap[p].Inner? && i + 1 < |s.heap[p].kids|
    && |s.heap[p].kids| == |s.heap[p].keys| + 1
    && s.heap[p].kids[i] in s.info && s.heap[p].kids[i] in s.heap
    && s.heap[p].kids[i + 1] in s.info && s.heap[p].kids[i + 1] in s.heap
  }

  /** Replace two adjacent children and the separator between them. */
  ghost function Rebalance(s: State, p: Id, i: nat, x: Node, sep: Key, y: Node): State
    requires Adjacent(s, p, i)
  {
    var P := s.heap[p];
    var a, b := P.kids[i], P.kids[i + 1];
    s.(heap := s.heap[a := x][b := y][p := Inner(P.keys[i := sep], P.kids)],
       ver := Bump(s.ver, {p, a, b}),
       info := s.info[a := s.info[a].(hi := At(sep))][b := s.info[b].(lo := At(sep))])
  }

  lemma PairFacts(s: State, p: Id, i: nat)
    requires WF(s) && Adjacent(s, p, i)
    ensures var P, r := s.heap[p], s.info[p]; var a, b := P.kids[i], P.kids[i + 1];
            && a != b && a != p && b != p && r.level > 0
            && s.info[a] == KidInfo(P.keys, r, i) && s.info[b] == KidInfo(P.keys, r, i + 1)
            && NodeOk(s, P, r) && NodeOk(s, s.heap[a], s.info[a]) && NodeOk(s, s.heap[b], s.info[b])
            && s.heap[a].Leaf? == s.heap[b].Leaf? && s.heap[a].Leaf? == (r.level == 1)
            && (forall j :: 0 <= j < |P.kids| && j != i && j != i + 1 ==> P.kids[j] != a && P.kids[j] != b)
  {
    KidsDiffer(s, p, i);
    KidsDiffer(s, p, i + 1);
    assert NodeOk(s, s.heap[p], s.info[p]);
    assert NodeOk(s, s.heap[s.heap[p].kids[i]], s.info[s.heap[p].kids[i]]);
    assert NodeOk(s, s.heap[s.heap[p].kids[i + 1]], s.info[s.heap[p].kids[i + 1]]);
  }

  lemma PairIds(s: State, p: Id, i: nat)
    requires WF(s) && Adjacent(s, p, i)
    ensures var a, b := s.heap[p].kids[i], s.heap[p].kids[i + 1];
            && a != b && a != p && b != p && s.info[p].level > 0
            && s.info[a].hi == s.info[b].lo == At(s.heap[p].keys[i])
            && s.info[a].level == s.info[p].level - 1 == s.info[b].level
  {
    PairFacts(s, p, i);
  }

  /** Only the left neighbour of a leaf links to it. */
  lemma NextUnique(s: State, n: Id, a: Id, b: Id)
    requires WF(s) && n in s.info && a in s.info && b in s.info && s.heap[n].Leaf? && s.heap[a].Leaf? && s.heap[b].Leaf?
    requires s.info[a].hi == s.info[b].lo && s.heap[n].next == To(b)
    ensures n == a
  {
    assert NodeOk(s, s.heap[n], s.info[n]) && NodeOk(s, s.heap[a], s.info[a]);
    assert n != a ==> Apart(s.info[n], s.info[a]);
  }

  lemma NextIsSibling(s: State, a: Id, b: Id)
    requires WF(s) && a in s.info && b in s.info && s.heap[a].Leaf? && s.heap[b].Leaf?
    requires s.info[a].hi == s.info[b].lo && s.info[a].hi != PosInf
    ensures s.heap[a].next == To(b)
  {
    assert NodeOk(s, s.heap[a], s.info[a]) && NodeOk(s, s.heap[b], s.info[b]);
    var x := s.heap[a].next.id;
    assert NodeOk(s, s.heap[x], s.info[x]);
    assert x != b ==> Apart(s.info[x], s.info[b]);
  }

  lemma SetKeyShape(n: Node, r: Info, i: nat, sep: Key)
    requires n.Inner? && InnerShape(n, r) && i < |n.keys| && Lt(r.lo, r.hi)
    requires Lt(KidInfo(n.keys, r, i).lo, At(sep)) && Lt(At(sep), KidInfo(n.keys, r, i + 1).hi)
    ensures InnerShape(Inner(n.keys[i := sep], n.kids), r)
  {
  }

  lemma SetKeyOk(s: State, t: State, n: Node, r: Info, i: nat, sep: Key)
    requires n.Inner? && InnerOk(s, n, r) && i + 1 < |n.kids| && Lt(r.lo, r.hi)
    requires Lt(KidInfo(n.keys, r, i).lo, At(sep)) && Lt(At(sep), KidInfo(n.keys, r, i + 1).hi)
    requires forall j ::
      0 <= j < |n.kids| && j != i && j != i + 1 ==> n.kids[j] in t.info && t.info[n.kids[j]] == s.info[n.kids[j]]
    requires n.kids[i] in t.info && t.info[n.kids[i]] == s.info[n.kids[i]].(hi := At(sep))
    requires n.kids[i + 1] in t.info && t.info[n.kids[i + 1]] == s.info[n.kids[i + 1]].(lo := At(sep))
    ensures InnerOk(t, Inner(n.keys[i := sep], n.kids), r)
  {
    SetKeyShape(n, r, i, sep);
    forall j | 0 <= j < |n.kids|
      ensures n.kids[j] in t.info && t.info[n.kids[j]] == KidInfo(n.keys[i := sep], r, j)
    {
      assert s.info[n.kids[j]] == KidInfo(n.keys, r, j);
    }
  }

  lemma RebalanceTouches(s: State, p: Id, i: nat, x: Node, sep: Key, y: Node)
    requires Adjacent(s, p, i) && s.info.Keys <= s.heap.Keys && s.heap.Keys == s.ver.Keys
    requires s.heap[p].kids[i] != s.heap[p].kids[i + 1] && s.heap[p].kids[i] != p && s.heap[p].kids[i + 1] != p
    ensures var t, P := Rebalance(s, p, i, x, sep, y), s.heap[p]; var a, b := P.kids[i], P.kids[i + 1];
            && Surgery(s, t, p, {a, b})
            && (forall z :: Touched(s, t, {a, b}, z) <==> z == a || z == b)
            && t.heap[a] == x && t.heap[b] == y && t.heap[p] == Inner(P.keys[i := sep], P.kids)
            && t.info[a] == s.info[a].(hi := At(sep)) && t.info[b] == s.info[b].(lo := At(sep))
  {
  }

  lemma RebalanceNext(s: State, p: Id, i: nat, x: Node, sep: Key, y: Node, n: Id)
    requires WF(s) && Adjacent(s, p, i) && n in s.info && s.heap[n].Leaf? && n != s.heap[p].kids[i]
    ensures NextOk(Rebalance(s, p, i, x, sep, y), s.heap[n].next, s.info[n])
  {
    PairFacts(s, p, i);
    var a, b := s.heap[p].kids[i], s.heap[p].kids[i + 1];
    assert NodeOk(s, s.heap[n], s.info[n]);
    if s.heap[n].next == To(b) {
      assert NodeOk(s, s.heap[b], s.info[b]);
      NextUnique(s, n, a, b);
    }
  }

  lemma RebalanceParent(s: State, p: Id, i: nat, x: Node, sep: Key, y: Node)
    requires WF(s) && Adjacent(s, p, i)
    requires Lt(s.info[s.heap[p].kids[i]].lo, At(sep)) && Lt(At(sep), s.info[s.heap[p].kids[i + 1]].hi)
    ensures NodeOk(Rebalance(s, p, i, x, sep, y), Inner(s.heap[p].keys[i := sep], s.heap[p].kids), s.info[p])
  {
    PairFacts(s, p, i);
    SetKeyOk(s, Rebalance(s, p, i, x, sep, y), s.heap[p], s.info[p], i, sep);
  }

  /** Everything outside two adjacent children stays clear of the range they span. */
  lemma PairApart(s: State, p: Id, i: nat)
    requires WF(s) && Adjacent(s, p, i)
    ensures var a, b := s.heap[p].kids[i], s.heap[p].kids[i + 1];
            forall z :: z in s.info && z !in {a, b} && s.info[z].level + 1 == s.info[p].level
                        ==> Apart(s.info[z], Info(s.info[a].lo, s.info[b].hi, s.info[z].level))
  {
    var a, b := s.heap[p].kids[i], s.heap[p].kids[i + 1];
    forall z | z in s.info && z !in {a, b} && s.info[z].level + 1 == s.info[p].level
      ensures Apart(s.info[z], Info(s.info[a].lo, s.info[b].hi, s.info[z].level))
    {
      SpanApart(s, p, i, i + 1, a, b, z);
    }
  }

  lemma RebalanceNexts(s: State, p: Id, i: nat, x: Node, sep: Key, y: Node)
    requires WF(s) && Adjacent(s, p, i)
    ensures forall n :: n in s.info && n in s.heap && n != s.heap[p].kids[i] && s.heap[n].Leaf?
              ==> NextOk(Rebalance(s, p, i, x, sep, y), s.heap[n].next, s.info[n])
  {
    forall n | n in s.info && n in s.heap && n != s.heap[p].kids[i] && s.heap[n].Leaf?
      ensures NextOk(Rebalance(s, p, i, x, sep, y), s.heap[n].next, s.info[n])
    {
      RebalanceNext(s, p, i, x, sep, y, n);
    }
  }

  lemma RebalanceShares(s: State, p: Id, i: nat, x: Node, sep: Key, y: Node)
    requires WF(s) && Adjacent(s, p, i)
    requires var t := Rebalance(s, p, i, x, sep, y);
             NodeOk(t, x, t.info[s.heap[p].kids[i]]) && NodeOk(t, y, t.info[s.heap[p].kids[i + 1]])
    ensures var a, b := s.heap[p].kids[i], s.heap[p].kids[i + 1];
            SharesOut(s, Rebalance(s, p, i, x, sep, y), p, {a, b}, s.info[a].lo, s.info[b].hi)
  {
    var t, P := Rebalance(s, p, i, x, sep, y), s.heap[p];
    var a, b := P.kids[i], P.kids[i + 1];
    PairIds(s, p, i);
    RebalanceTouches(s, p, i, x, sep, y);
    RebalanceParent(s, p, i, x, sep, y);
    PairApart(s, p, i);
    RebalanceNexts(s, p, i, x, sep, y);
    TwoShare(s, t, p, {a, b}, a, b, s.info[a].lo, At(sep), s.info[b].hi);
  }

  lemma RebalanceOk(s: State, p: Id, i: nat, x: Node, sep: Key, y: Node)
    requires WF(s) && Adjacent(s, p, i)
    requires var t := Rebalance(s, p, i, x, sep, y);
             NodeOk(t, x, t.info[s.heap[p].kids[i]]) && NodeOk(t, y, t.info[s.heap[p].kids[i + 1]])
    ensures WF(Rebalance(s, p, i, x, sep, y))
  {
    var a, b := s.heap[p].kids[i], s.heap[p].kids[i + 1];
    RebalanceShares(s, p, i, x, sep, y);
    SurgeryOk(s, Rebalance(s, p, i, x, sep, y), p, {a, b}, s.info[a].lo, s.info[b].hi);
  }

  predicate PagesOk(n: Node) {
    if n.Leaf? then |n.vals| == |n.keys| else |n.kids| == |n.keys| + 1
  }

  datatype Moved = Moved(left: Node, sep: Key, right: Node)

  /** The left node takes the first entry of the right one. */
  function BorrowFromRight(a: Node, sep: Key, b: Node): Moved
    requires PagesOk(a) && PagesOk(b) && a.Leaf? == b.Leaf? && |b.keys| >= 1
  {
    if a.Leaf? then
      Moved(Leaf(a.keys + b.keys[..1], a.vals + b.vals[..1], a.next), b.keys[0], Leaf(b.keys[1..], b.vals[1..], b.next))
    else
      Moved(Inner(a.keys + [sep], a.kids + b.kids[..1]), b.keys[0], Inner(b.keys[1..], b.kids[1..]))
  }

  /** The right node takes the last entry of the left one. */
  function BorrowFromLeft(a: Node, sep: Key, b: Node): Moved
    requires PagesOk(a) && PagesOk(b) && a.Leaf? == b.Leaf? && |a.keys| >= if a.Leaf? then 2 else 1
  {
    var e := |a.keys| - 1;
    if a.Leaf? then
      Moved(Leaf(a.keys[..e], a.vals[..e], a.next), a.keys[e - 1],
        Leaf(a.keys[e..] + b.keys, a.vals[e..] + b.vals, b.next))
    else
      Moved(Inner(a.keys[..e], a.kids[..e + 1]), a.keys[e], Inner([sep] + b.keys, a.kids[e + 1..] + b.kids))
  }

  lemma LeafShiftLeft(m: map<Key, Value>, a: Node, ra: Info, sep: Key, b: Node, rb: Info)
    requires a.Leaf? && b.Leaf? && LeafBody(m, a, ra) && LeafBody(m, b, rb) && |b.keys| >= 2
    requires ra.hi == rb.lo && Lt(ra.lo, ra.hi) && Lt(rb.lo, rb.hi)
    ensures var x := BorrowFromRight(a, sep, b);
            && Lt(ra.lo, At(x.sep)) && Lt(At(x.sep), rb.hi)
            && LeafBody(m, x.left, ra.(hi := At(x.sep))) && LeafBody(m, x.right, rb.(lo := At(x.sep)))
  {
    var q := rb.(hi := At(b.keys[0]));
    assert InRange(rb, b.keys[0]) && InRange(rb, b.keys[1]) && b.keys[0] < b.keys[1];
    LeafSlice(m, b, rb, 0, 1, q, b.next);
    assert b.keys[0..1] == b.keys[..1] && b.vals[0..1] == b.vals[..1];
    LeafJoin(m, a, ra, Leaf(b.keys[..1], b.vals[..1], b.next), q, a.next);
    LeafSlice(m, b, rb, 1, |b.keys|, rb.(lo := At(b.keys[0])), b.next);
    assert b.keys[1..|b.keys|] == b.keys[1..] && b.vals[1..|b.keys|] == b.vals[1..];
  }

  lemma LeafShiftRight(m: map<Key, Value>, a: Node, ra: Info, sep: Key, b: Node, rb: Info)
    requires a.Leaf? && b.Leaf? && LeafBody(m, a, ra) && LeafBody(m, b, rb) && |a.keys| >= 2
    requires ra.hi == rb.lo && Lt(ra.lo, ra.hi) && Lt(rb.lo, rb.hi)
    ensures var x := BorrowFromLeft(a, sep, b);
            && Lt(ra.lo, At(x.sep)) && Lt(At(x.sep), rb.hi)
            && LeafBody(m, x.left, ra.(hi := At(x.sep))) && LeafBody(m, x.right, rb.(lo := At(x.sep)))
  {
    var e := |a.keys| - 1;
    var q := ra.(lo := At(a.keys[e - 1]));
    assert InRange(ra, a.keys[e]) && InRange(ra, a.keys[e - 1]) && a.keys[e - 1] < a.keys[e];
    LeafSlice(m, a, ra, e, |a.keys|, q, a.next);
    assert a.keys[e..|a.keys|] == a.keys[e..] && a.vals[e..|a.keys|] == a.vals[e..];
    LeafJoin(m, Leaf(a.keys[e..], a.vals[e..], a.next), q, b, rb, b.next);
    LeafSlice(m, a, ra, 0, e, ra.(hi := At(a.keys[e - 1])), a.next);
    assert a.keys[0..e] == a.keys[..e] && a.vals[0..e] == a.vals[..e];
  }

  lemma InnerShift(s: State, a: Node, ra: Info, sep: Key, b: Node, rb: Info, toLeft: bool)
    requires a.Inner? && b.Inner? && InnerOk(s, a, ra) && InnerOk(s, b, rb) && ra.level == rb.level
    requires ra.hi == At(sep) == rb.lo && Lt(ra.lo, ra.hi) && Lt(rb.lo, rb.hi)
    requires if toLeft then |b.keys| >= 1 else |a.keys| >= 1
    ensures var x := if toLeft then BorrowFromRight(a, sep, b) else BorrowFromLeft(a, sep, b);
            && Lt(ra.lo, At(x.sep)) && Lt(At(x.sep), rb.hi)
            && InnerOk(s, x.left, ra.(hi := At(x.sep))) && InnerOk(s, x.right, rb.(lo := At(x.sep)))
  {
    if toLeft {
      InnerSlice(s, b, rb, 0, 0);
      assert b.kids[0..1] == b.kids[..1];
      InnerJoin(s, a, ra, sep, Inner(b.keys[0..0], b.kids[..1]), rb.(hi := At(b.keys[0])));
      assert a.keys + [sep] + b.keys[0..0] == a.keys + [sep];
      InnerSlice(s, b, rb, 1, |b.keys|);
      assert b.keys[1..|b.keys|] == b.keys[1..] && b.kids[1..|b.keys| + 1] == b.kids[1..];
    } else {
      var e := |a.keys| - 1;
      InnerSlice(s, a, ra, e + 1, e + 1);
      assert a.kids[e + 1..e + 2] == a.kids[e + 1..];
      InnerJoin(s, Inner(a.keys[e + 1..e + 1], a.kids[e + 1..]), ra.(lo := At(a.keys[e])), sep, b, rb);
      assert a.keys[e + 1..e + 1] + [sep] + b.keys == [sep] + b.keys;
      InnerSlice(s, a, ra, 0, e);
      assert a.keys[0..e] == a.keys[..e] && a.kids[0..e + 1] == a.kids[..e + 1];
    }
  }

  ghost predicate CanBorrow(s: State, p: Id, i: nat, toLeft: bool) {
    Adjacent(s, p, i) &&
    var a, b := s.heap[s.heap[p].kids[i]], s.heap[s.heap[p].kids[i + 1]];
    && PagesOk(a) && PagesOk(b) && a.Leaf? == b.Leaf?
    && |(if toLeft then b else a).keys| >= if a.Leaf? then 2 else 1
  }

  /** Move one entry between two adjacent children: into the left one (`toLeft`) or into the right one. */
  ghost function Borrow(s: State, p: Id, i: nat, toLeft: bool): State
    requires CanBorrow(s, p, i, toLeft)
  {
    var a, b, sep := s.heap[s.heap[p].kids[i]], s.heap[s.heap[p].kids[i + 1]], s.heap[p].keys[i];
    var x := if toLeft then BorrowFromRight(a, sep, b) else BorrowFromLeft(a, sep, b);
    Rebalance(s, p, i, x.left, x.sep, x.right)
  }

  lemma BorrowLeaves(s: State, p: Id, i: nat, toLeft: bool)
    requires WF(s) && CanBorrow(s, p, i, toLeft) && s.heap[s.heap[p].kids[i]].Leaf?
    ensures WF(Borrow(s, p, i, toLeft))
  {
    var a, b, sep := s.heap[p].kids[i], s.heap[p].kids[i + 1], s.heap[p].keys[i];
    PairFacts(s, p, i);
    if toLeft {
      LeafShiftLeft(s.m, s.heap[a], s.info[a], sep, s.heap[b], s.info[b]);
    } else {
      LeafShiftRight(s.m, s.heap[a], s.info[a], sep, s.heap[b], s.info[b]);
    }
    NextIsSibling(s, a, b);
    var x := if toLeft then BorrowFromRight(s.heap[a], sep, s.heap[b]) else BorrowFromLeft(s.heap[a], sep, s.heap[b]);
    RebalanceNext(s, p, i, x.left, x.sep, x.right, b);
    RebalanceOk(s, p, i, x.left, x.sep, x.right);
  }

  lemma BorrowInners(s: State, p: Id, i: nat, toLeft: bool)
    requires WF(s) && CanBorrow(s, p, i, toLeft) && s.heap[s.heap[p].kids[i]].Inner?
    ensures WF(Borrow(s, p, i, toLeft))
  {
    var a, b, sep := s.heap[p].kids[i], s.heap[p].kids[i + 1], s.heap[p].keys[i];
    PairFacts(s, p, i);
    InnerShift(s, s.heap[a], s.info[a], sep, s.heap[b], s.info[b], toLeft);
    var x := if toLeft then BorrowFromRight(s.heap[a], sep, s.heap[b]) else BorrowFromLeft(s.heap[a], sep, s.heap[b]);
    InnerKeepRebalanced(s, p, i, x.left, x.sep, x.right, x.left, s.info[a].(hi := At(x.sep)));
    InnerKeepRebalanced(s, p, i, x.left, x.sep, x.right, x.right, s.info[b].(lo := At(x.sep)));
    RebalanceOk(s, p, i, x.left, x.sep, x.right);
  }

  /** A node at the children's level has no child among them, so it survives their rebalancing. */
  lemma InnerKeepRebalanced(s: State, p: Id, i: nat, x: Node, sep: Key, y: Node, n: Node, r: Info)
    requires WF(s) && Adjacent(s, p, i) && n.Inner? && InnerOk(s, n, r) && r.level + 1 == s.info[p].level
    ensures InnerOk(Rebalance(s, p, i, x, sep, y), n, r)
  {
    PairIds(s, p, i);
    forall j | 0 <= j < |n.kids|
      ensures n.kids[j] != s.heap[p].kids[i] && n.kids[j] != s.heap[p].kids[i + 1]
    {
      assert s.info[n.kids[j]] == KidInfo(n.keys, r, j);
    }
    InnerKeep(s, Rebalance(s, p, i, x, sep, y), n, r);
  }

  lemma BorrowOk(s: State, p: Id, i: nat, toLeft: bool)
    requires WF(s) && CanBorrow(s, p, i, toLeft)
    ensures WF(Borrow(s, p, i, toLeft))
  {
    if s.heap[s.heap[p].kids[i]].Leaf? {
      BorrowLeaves(s, p, i, toLeft);
    } else {
      BorrowInners(s, p, i, toLeft);
    }
  }

  // ----- merge two siblings -----

  /** Replace two adjacent children by one: the right child leaves the tree, its page stays behind. */
  ghost function Fuse(s: State, p: Id, i: nat, x: Node): State
    requires Adjacent(s, p, i)
  {
    var P := s.heap[p];
    var a, b := P.kids[i], P.kids[i + 1];
    s.(heap := s.heap[a := x][p := Inner(RemoveAt(P.keys, i), RemoveAt(P.kids, i + 1))],
       ver := Bump(s.ver, {p, a, b}),
       info := s.info[a := s.info[a].(hi := s.info[b].hi)] - {b})
  }

  lemma FuseTouches(s: State, p: Id, i: nat, x: Node)
    requires Adjacent(s, p, i) && s.info.Keys <= s.heap.Keys && s.heap.Keys == s.ver.Keys
    requires s.heap[p].kids[i] != s.heap[p].kids[i + 1] && s.heap[p].kids[i] != p && s.heap[p].kids[i + 1] != p
    ensures var t, P := Fuse(s, p, i, x), s.heap[p]; var a, b := P.kids[i], P.kids[i + 1];
            && (forall z :: Touched(s, t, {a, b}, z) <==> z == a)
            && t.heap[a] == x && t.heap[p] == Inner(RemoveAt(P.keys, i), RemoveAt(P.kids, i + 1))
            && t.info[a] == s.info[a].(hi := s.info[b].hi)
            && Surgery(s, t, p, {a, b})
  {
    var P := s.heap[p];
    assert P.kids[i] in P.kids && P.kids[i + 1] in P.kids;
  }

  lemma RemoveKeyShape(n: Node, r: Info, i: nat)
    requires n.Inner? && InnerShape(n, r) && i < |n.keys|
    ensures InnerShape(Inner(RemoveAt(n.keys, i), RemoveAt(n.kids, i + 1)), r)
  {
    RemoveAtSorted(n.keys, i);
  }

  lemma RemoveKidOk(s: State, t: State, n: Node, r: Info, i: nat)
    requires n.Inner? && InnerOk(s, n, r) && i + 1 < |n.kids|
    requires forall j ::
      0 <= j < |n.kids| && j != i && j != i + 1 ==> n.kids[j] in t.info && t.info[n.kids[j]] == s.info[n.kids[j]]
    requires n.kids[i] in t.info && t.info[n.kids[i]] == KidInfo(n.keys, r, i).(hi := KidInfo(n.keys, r, i + 1).hi)
    ensures InnerOk(t, Inner(RemoveAt(n.keys, i), RemoveAt(n.kids, i + 1)), r)
  {
    var keys, kids := RemoveAt(n.keys, i), RemoveAt(n.kids, i + 1);
    RemoveKeyShape(n, r, i);
    forall j | 0 <= j < |kids|
      ensures kids[j] in t.info && t.info[kids[j]] == KidInfo(keys, r, j)
    {
      var o := if j <= i then j else j + 1;
      assert kids[j] == n.kids[o];
      assert s.info[n.kids[o]] == KidInfo(n.keys, r, o);
    }
  }

  lemma FuseNext(s: State, p: Id, i: nat, x: Node, n: Id)
    requires WF(s) && Adjacent(s, p, i) && n in s.info && s.heap[n].Leaf? && n != s.heap[p].kids[i]
    ensures NextOk(Fuse(s, p, i, x), s.heap[n].next, s.info[n])
  {
    PairFacts(s, p, i);
    var a, b := s.heap[p].kids[i], s.heap[p].kids[i + 1];
    assert NodeOk(s, s.heap[n], s.info[n]);
    if s.heap[n].next == To(b) {
      assert NodeOk(s, s.heap[b], s.info[b]);
      NextUnique(s, n, a, b);
    }
  }

  lemma FuseNexts(s: State, p: Id, i: nat, x: Node)
    requires WF(s) && Adjacent(s, p, i)
    ensures forall n :: n in s.info && n in s.heap && n != s.heap[p].kids[i] && s.heap[n].Leaf?
              ==> NextOk(Fuse(s, p, i, x), s.heap[n].next, s.info[n])
  {
    forall n | n in s.info && n in s.heap && n != s.heap[p].kids[i] && s.heap[n].Leaf?
      ensures NextOk(Fuse(s, p, i, x), s.heap[n].next, s.info[n])
    {
      FuseNext(s, p, i, x, n);
    }
  }

  lemma FuseParent(s: State, p: Id, i: nat, x: Node)
    requires WF(s) && Adjacent(s, p, i)
    ensures var t := Fuse(s, p, i, x); p in t.heap && NodeOk(t, t.heap[p], s.info[p])
  {
    PairFacts(s, p, i);
    RemoveKidOk(s, Fuse(s, p, i, x), s.heap[p], s.info[p], i);
  }

  lemma FuseOk(s: State, p: Id, i: nat, x: Node)
    requires WF(s) && Adjacent(s, p, i)
    requires var a, b := s.heap[p].kids[i], s.heap[p].kids[i + 1];
             NodeOk(Fuse(s, p, i, x), x, s.info[a].(hi := s.info[b].hi))
    ensures WF(Fuse(s, p, i, x))
  {
    var a, b := s.heap[p].kids[i], s.heap[p].kids[i + 1];
    PairIds(s, p, i);
    FuseTouches(s, p, i, x);
    FuseParent(s, p, i, x);
    PairApart(s, p, i);
    FuseNexts(s, p, i, x);
    SurgeryOne(s, Fuse(s, p, i, x), p, {a, b}, a, s.info[a].lo, s.info[b].hi);
  }

  /** The page of a merged pair; inner pages pull the separator down between their keys. */
  function MergedNode(a: Node, sep: Key, b: Node): Node
    requires a.Leaf? == b.Leaf?
  {
    if a.Leaf? then Leaf(a.keys + b.keys, a.vals + b.vals, b.next)
    else Inner(a.keys + [sep] + b.keys, a.kids + b.kids)
  }

  ghost predicate CanMerge(s: State, p: Id, i: nat) {
    Adjacent(s, p, i) && s.heap[s.heap[p].kids[i]].Leaf? == s.heap[s.heap[p].kids[i + 1]].Leaf?
  }

  ghost function Merge(s: State, p: Id, i: nat): State
    requires CanMerge(s, p, i)
  {
    Fuse(s, p, i, MergedNode(s.heap[s.heap[p].kids[i]], s.heap[p].keys[i], s.heap[s.heap[p].kids[i + 1]]))
  }

  lemma MergeLeaves(s: State, p: Id, i: nat)
    requires WF(s) && CanMerge(s, p, i) && s.heap[s.heap[p].kids[i]].Leaf?
    ensures WF(Merge(s, p, i))
  {
    var a, b := s.heap[p].kids[i], s.heap[p].kids[i + 1];
    PairFacts(s, p, i);
    LeafJoin(s.m, s.heap[a], s.info[a], s.heap[b], s.info[b], s.heap[b].next);
    var x := MergedNode(s.heap[a], s.heap[p].keys[i], s.heap[b]);
    FuseNext(s, p, i, x, b);
    FuseOk(s, p, i, x);
  }

  lemma MergeInners(s: State, p: Id, i: nat)
    requires WF(s) && CanMerge(s, p, i) && s.heap[s.heap[p].kids[i]].Inner?
    ensures WF(Merge(s, p, i))
  {
    var a, b := s.heap[p].kids[i], s.heap[p].kids[i + 1];
    PairFacts(s, p, i);
    InnerJoin(s, s.heap[a], s.info[a], s.heap[p].keys[i], s.heap[b], s.info[b]);
    var x, r := MergedNode(s.heap[a], s.heap[p].keys[i], s.heap[b]), s.info[a].(hi := s.info[b].hi);
    forall j | 0 <= j < |x.kids| ensures x.kids[j] != a && x.kids[j] != b {
      assert s.info[x.kids[j]] == KidInfo(x.keys, r, j);
    }
    InnerKeep(s, Fuse(s, p, i, x), x, r);
    FuseOk(s, p, i, x);
  }

  lemma MergeOk(s: State, p: Id, i: nat)
    requires WF(s) && CanMerge(s, p, i)
    ensures WF(Merge(s, p, i))
  {
    if s.heap[s.heap[p].kids[i]].Leaf? {
      MergeLeaves(s, p, i);
    } else {
      MergeInners(s, p, i);
    }
  }

  // ----- an inner merge pulls down the largest key below the left node, not the separator -----

  ghost function LastKid(n: Node): Id
    requires n.Inner? && |n.kids| > 0
  {
    n.kids[|n.kids| - 1]
  }

  /** The node at level `j` on the rightmost path below `n`. */
  ghost function Spine(s: State, n: Id, j: nat): (z: Id)
    requires WF(s) && n in s.info && j <= s.info[n].level
    ensures z in s.info && s.info[z].level == j && s.info[z].hi == s.info[n].hi && Le(s.info[n].lo, s.info[z].lo)
    decreases s.info[n].level
  {
    if j == s.info[n].level then n
    else
      assert NodeOk(s, s.heap[n], s.info[n]);
      var c := LastKid(s.heap[n]);
      assert IsKid(s, n, |s.heap[n].kids| - 1, c);
      KidInside(s, n, |s.heap[n].kids| - 1, c);
      Spine(s, c, j)
  }

  /** Lower spine nodes start later. */
  lemma SpineNests(s: State, n: Id, i: nat, j: nat)
    requires WF(s) && n in s.info && j <= i <= s.info[n].level
    ensures Le(s.info[Spine(s, n, i)].lo, s.info[Spine(s, n, j)].lo)
    decreases s.info[n].level
  {
    if i < s.info[n].level {
      assert NodeOk(s, s.heap[n], s.info[n]);
      var c := LastKid(s.heap[n]);
      assert IsKid(s, n, |s.heap[n].kids| - 1, c);
      KidInside(s, n, |s.heap[n].kids| - 1, c);
      SpineNests(s, c, i, j);
    }
  }

  /** A linked node that ends where `n` ends, at or below its level, is on its rightmost path. */
  lemma OnSpine(s: State, n: Id, z: Id)
    requires WF(s) && n in s.info && z in s.info && s.info[z].level <= s.info[n].level && s.info[z].hi == s.info[n].hi
    ensures z == Spine(s, n, s.info[z].level)
  {
    var y := Spine(s, n, s.info[z].level);
    assert NodeOk(s, s.heap[y], s.info[y]) && NodeOk(s, s.heap[z], s.info[z]);
    assert y == z || Apart(s.info[y], s.info[z]);
  }

  /** `mx` is the largest key stored below `a`: the last key of its rightmost leaf. */
  ghost predicate SubTreeMax(s: State, a: Id, mx: Key)
    requires WF(s) && a in s.info
  {
    var l := s.heap[Spine(s, a, 0)];
    |l.keys| > 0 && mx == l.keys[|l.keys| - 1]
  }

  function Swap(b: Bound, sep: Key, mx: Key): Bound {
    if b == At(sep) then At(mx) else b
  }

  function SwapInfo(r: Info, sep: Key, mx: Key): Info {
    Info(Swap(r.lo, sep, mx), Swap(r.hi, sep, mx), r.level)
  }

  /** Pulling `mx` down instead of the separator after child `i` cuts off no key and no node: no key of the map lies
      above `mx` and not above the separator, and every node on the rightmost path below the child starts before
      `mx`. */
  ghost predicate Pullable(s: State, p: Id, i: nat, mx: Key)
    requires WF(s) && Adjacent(s, p, i)
  {
    var a, sep := s.heap[p].kids[i], s.heap[p].keys[i];
    && mx <= sep
    && (forall j {:trigger Spine(s, a, j)} :: 0 <= j <= s.info[a].level ==> Lt(s.info[Spine(s, a, j)].lo, At(mx)))
    && (forall k :: k in s.m && mx < k ==> sep < k)
  }

  ghost predicate CanPivot(s: State, p: Id, i: nat, mx: Key) {
    WF(s) && Adjacent(s, p, i) && Pullable(s, p, i, mx)
  }

  /** Lower the separator after child `i` to `mx`; below `p`, ranges that ended or began at it move along. */
  ghost function Repivot(s: State, p: Id, i: nat, mx: Key): State
    requires Adjacent(s, p, i)
  {
    var P := s.heap[p];
    s.(heap := s.heap[p := Inner(P.keys[i := mx], P.kids)],
       info := map n | n in s.info ::
         if s.info[n].level < s.info[p].level then SwapInfo(s.info[n], P.keys[i], mx) else s.info[n])
  }

  /** A key can be pulled down if and only if it belongs to the last leaf below child `i` and is not below any entry
      of that leaf. */
  lemma PullableExactly(s: State, p: Id, i: nat, mx: Key)
    requires WF(s) && Adjacent(s, p, i)
    ensures var l := Spine(s, s.heap[p].kids[i], 0);
            Pullable(s, p, i, mx) <==> InRange(s.info[l], mx) && forall k :: k in s.heap[l].keys ==> k <= mx
  {
    PairFacts(s, p, i);
    var a, sep := s.heap[p].kids[i], s.heap[p].keys[i];
    var l := Spine(s, a, 0);
    assert NodeOk(s, s.heap[l], s.info[l]);
    if Pullable(s, p, i, mx) {
      forall k | k in s.heap[l].keys ensures k <= mx {
        assert k in s.m && InRange(s.info[l], k);
      }
    } else if InRange(s.info[l], mx) && forall k :: k in s.heap[l].keys ==> k <= mx {
      forall j | 0 <= j <= s.info[a].level ensures Lt(s.info[Spine(s, a, j)].lo, At(mx)) {
        SpineNests(s, a, j, 0);
      }
      assert exists k :: k in s.m && mx < k <= sep;
      var k :| k in s.m && mx < k <= sep;
      assert InRange(s.info[l], k);
      assert false;
    }
  }

  /** The largest key below child `i` can be pulled down. */
  lemma MaxIsPullable(s: State, p: Id, i: nat, mx: Key)
    requires WF(s) && Adjacent(s, p, i) && SubTreeMax(s, s.heap[p].kids[i], mx)
    ensures CanPivot(s, p, i, mx)
  {
    PairFacts(s, p, i);
    var l := Spine(s, s.heap[p].kids[i], 0);
    assert NodeOk(s, s.heap[l], s.info[l]);
    PullableExactly(s, p, i, mx);
  }

  /** Below `p`, the separator is the end of the spine and the start of what follows it, and nothing lies between. */
  lemma PivotBelow(s: State, p: Id, i: nat, mx: Key, n: Id)
    requires CanPivot(s, p, i, mx) && n in s.info && s.info[n].level < s.info[p].level
    ensures var sep, r := s.heap[p].keys[i], s.info[n];
            && (r.hi == At(sep) ==> Lt(r.lo, At(mx)))
            && (r.hi != At(sep) ==> Le(r.hi, At(mx)) || Le(At(sep), r.lo))
            && Lt(Swap(r.lo, sep, mx), Swap(r.hi, sep, mx))
  {
    PairFacts(s, p, i);
    var a, sep, r := s.heap[p].kids[i], s.heap[p].keys[i], s.info[n];
    var z := Spine(s, a, r.level);
    assert NodeOk(s, s.heap[n], r) && NodeOk(s, s.heap[z], s.info[z]);
    assert n == z || Apart(r, s.info[z]);
    if r.hi == At(sep) {
      OnSpine(s, a, n);
    }
  }

  lemma PivotLeaf(s: State, p: Id, i: nat, mx: Key, n: Id)
    requires CanPivot(s, p, i, mx) && n in s.info && s.heap[n].Leaf?
    ensures var t := Repivot(s, p, i, mx); NodeOk(t, t.heap[n], t.info[n])
  {
    PairFacts(s, p, i);
    var a, t, N, r := s.heap[p].kids[i], Repivot(s, p, i, mx), s.heap[n], s.info[n];
    assert NodeOk(s, N, r);
    PivotBelow(s, p, i, mx, n);
    if r.hi == At(s.heap[p].keys[i]) {
      OnSpine(s, a, n);
      assert forall j :: 0 <= j < |N.keys| ==> N.keys[j] <= mx;
    }
    PivotBody(s.m, N, r, s.heap[p].keys[i], mx);
  }

  lemma PivotBody(m: map<Key, Value>, n: Node, r: Info, sep: Key, mx: Key)
    requires n.Leaf? && LeafBody(m, n, r) && mx <= sep
    requires forall k :: k in m && mx < k ==> sep < k
    requires r.hi == At(sep) ==> forall j :: 0 <= j < |n.keys| ==> n.keys[j] <= mx
    ensures LeafBody(m, n, SwapInfo(r, sep, mx))
  {
  }

  lemma PivotKids(s: State, p: Id, i: nat, mx: Key, n: Id)
    requires CanPivot(s, p, i, mx) && n in s.info && s.heap[n].Inner? && n != p
    ensures var t := Repivot(s, p, i, mx); NodeOk(t, t.heap[n], t.info[n])
  {
    PairFacts(s, p, i);
    var t, N, r, sep := Repivot(s, p, i, mx), s.heap[n], s.info[n], s.heap[p].keys[i];
    assert NodeOk(s, N, r);
    if s.info[p].level <= r.level {
      PivotAbove(s, p, i, mx, n);
    } else {
      PivotInside(s, p, i, mx, n);
    }
  }

  lemma PivotAbove(s: State, p: Id, i: nat, mx: Key, n: Id)
    requires CanPivot(s, p, i, mx) && n in s.info && s.heap[n].Inner? && n != p && s.info[p].level <= s.info[n].level
    ensures var t := Repivot(s, p, i, mx); InnerOk(t, t.heap[n], t.info[n])
  {
    PairFacts(s, p, i);
    var t, N, r, sep := Repivot(s, p, i, mx), s.heap[n], s.info[n], s.heap[p].keys[i];
    assert NodeOk(s, N, r);
    forall j | 0 <= j < |N.kids| ensures N.kids[j] in t.info && t.info[N.kids[j]] == s.info[N.kids[j]] {
      if r.level == s.info[p].level {
        assert Apart(r, s.info[p]);
        assert IsKid(s, n, j, N.kids[j]);
        KidInside(s, n, j, N.kids[j]);
      }
    }
    InnerKeep(s, t, N, r);
  }

  lemma PivotInside(s: State, p: Id, i: nat, mx: Key, n: Id)
    requires CanPivot(s, p, i, mx) && n in s.info && s.heap[n].Inner? && s.info[n].level < s.info[p].level
    ensures var t := Repivot(s, p, i, mx); NodeOk(t, t.heap[n], t.info[n])
  {
    PivotBelow(s, p, i, mx, n);
    var t, N, r, sep := Repivot(s, p, i, mx), s.heap[n], s.info[n], s.heap[p].keys[i];
    assert NodeOk(s, N, r);
    forall j | 0 <= j < |N.kids|
      ensures N.kids[j] in s.info && t.info[N.kids[j]] == SwapInfo(s.info[N.kids[j]], sep, mx)
      ensures s.info[N.kids[j]].hi == At(sep) ==> Lt(s.info[N.kids[j]].lo, At(mx))
    {
      assert s.info[N.kids[j]] == KidInfo(N.keys, r, j);
      PivotBelow(s, p, i, mx, N.kids[j]);
    }
    PivotSep(s, p, i, mx, n);
    SwapInner(s, t, N, r, sep, mx);
  }

  /** The separator of `p` does not occur inside a node below it. */
  lemma PivotSep(s: State, p: Id, i: nat, mx: Key, n: Id)
    requires CanPivot(s, p, i, mx) && n in s.info && s.heap[n].Inner? && s.info[n].level < s.info[p].level
    ensures s.heap[p].keys[i] !in s.heap[n].keys
  {
    PairFacts(s, p, i);
    PivotBelow(s, p, i, mx, n);
    assert NodeOk(s, s.heap[n], s.info[n]);
  }

  lemma SwapInner(s: State, t: State, n: Node, r: Info, sep: Key, mx: Key)
    requires n.Inner? && InnerOk(s, n, r) && mx <= sep && sep !in n.keys
    requires r.hi == At(sep) ==> Lt(r.lo, At(mx))
    requires forall j ::
      0 <= j < |n.kids| ==> n.kids[j] in t.info && t.info[n.kids[j]] == SwapInfo(s.info[n.kids[j]], sep, mx)
    requires forall j :: 0 <= j < |n.kids| && s.info[n.kids[j]].hi == At(sep) ==> Lt(s.info[n.kids[j]].lo, At(mx))
    ensures InnerOk(t, n, SwapInfo(r, sep, mx))
  {
    var q := SwapInfo(r, sep, mx);
    if r.hi == At(sep) && |n.keys| > 0 {
      assert s.info[n.kids[|n.keys|]] == KidInfo(n.keys, r, |n.keys|);
      assert n.keys[|n.keys| - 1] < mx;
    }
    assert InnerShape(n, q);
    forall j | 0 <= j < |n.kids| ensures t.info[n.kids[j]] == KidInfo(n.keys, q, j) {
      assert s.info[n.kids[j]] == KidInfo(n.keys, r, j);
    }
  }

  lemma PivotParent(s: State, p: Id, i: nat, mx: Key)
    requires CanPivot(s, p, i, mx)
    ensures var t := Repivot(s, p, i, mx); NodeOk(t, t.heap[p], t.info[p])
  {
    PairFacts(s, p, i);
    var P, r, t := s.heap[p], s.info[p], Repivot(s, p, i, mx);
    var a := P.kids[i];
    assert a == Spine(s, a, s.info[a].level);
    forall j | 0 <= j < |P.kids| && j != i && j != i + 1
      ensures P.kids[j] in t.info && t.info[P.kids[j]] == s.info[P.kids[j]]
    {
      assert s.info[P.kids[j]] == KidInfo(P.keys, r, j);
    }
    SetKeyOk(s, t, P, r, i, mx);
  }

  lemma PivotApart(s: State, p: Id, i: nat, mx: Key, x: Id, y: Id)
    requires CanPivot(s, p, i, mx) && x in s.info && y in s.info && x != y && s.info[x].level == s.info[y].level
    ensures var t := Repivot(s, p, i, mx); Apart(t.info[x], t.info[y])
  {
    assert Apart(s.info[x], s.info[y]);
    if s.info[x].level < s.info[p].level {
      PivotBelow(s, p, i, mx, x);
      PivotBelow(s, p, i, mx, y);
      assert NodeOk(s, s.heap[x], s.info[x]) && NodeOk(s, s.heap[y], s.info[y]);
    }
  }

  lemma RepivotOk(s: State, p: Id, i: nat, mx: Key)
    requires CanPivot(s, p, i, mx)
    ensures WF(Repivot(s, p, i, mx))
  {
    var t := Repivot(s, p, i, mx);
    forall n | n in t.info ensures NodeOk(t, t.heap[n], t.info[n]) {
      if n == p {
        PivotParent(s, p, i, mx);
      } else if s.heap[n].Leaf? {
        PivotLeaf(s, p, i, mx, n);
      } else {
        PivotKids(s, p, i, mx, n);
      }
    }
    forall x, y | x in t.info && y in t.info && x != y && t.info[x].level == t.info[y].level
      ensures Apart(t.info[x], t.info[y])
    {
      PivotApart(s, p, i, mx, x, y);
    }
  }

  // ----- the root grows and shrinks -----

  /** A new root above the old one, before it receives its first separator; the split that follows brings its
      version to that of a new page. */
  ghost function GrowRoot(s: State, id: Id): State
    requires s.root in s.info
  {
    s.(root := id, heap := s.heap[id := Inner([], [s.root])], ver := s.ver[id := 0],
       info := s.info[id := Info(NegInf, PosInf, s.info[s.root].level + 1)])
  }

  lemma GrowRootOk(s: State, id: Id)
    requires WF(s) && id !in s.heap
    ensures WF(GrowRoot(s, id))
  {
    var t := GrowRoot(s, id);
    forall n | n in t.info ensures NodeOk(t, t.heap[n], t.info[n]) {
      if n != id {
        assert NodeOk(s, s.heap[n], s.info[n]);
        if s.heap[n].Inner? {
          InnerKeep(s, t, s.heap[n], s.info[n]);
        }
      }
    }
    forall a, b | a in t.info && b in t.info && a != b && t.info[a].level == t.info[b].level
      ensures Apart(t.info[a], t.info[b])
    {
      assert s.info[s.root].level < t.info[id].level;
      assert Apart(s.info[a], s.info[b]);
    }
  }

  /** The only child of a root without keys takes its place. */
  ghost function ShrinkRoot(s: State): State
    requires s.root in s.heap && s.heap[s.root].Inner? && |s.heap[s.root].kids| > 0
  {
    s.(root := s.heap[s.root].kids[0], info := s.info - {s.root})
  }

  lemma ShrinkRootOk(s: State)
    requires WF(s) && s.heap[s.root].Inner? && s.heap[s.root].keys == []
    ensures |s.heap[s.root].kids| > 0 && WF(ShrinkRoot(s))
  {
    assert NodeOk(s, s.heap[s.root], s.info[s.root]);
    var t, top, c := ShrinkRoot(s), s.info[s.root], s.heap[s.root].kids[0];
    assert s.info[c] == KidInfo([], top, 0);
    assert NodeOk(s, s.heap[c], s.info[c]);
    forall n | n in t.info ensures NodeOk(t, t.heap[n], t.info[n]) && t.info[n].level < top.level {
      assert NodeOk(s, s.heap[n], s.info[n]);
      assert s.info[n].level != top.level || Apart(s.info[n], top);
      if s.heap[n].Inner? {
        forall j | 0 <= j < |s.heap[n].kids| ensures s.heap[n].kids[j] != s.root {
          RootIsTop(s, n, j);
        }
        InnerKeep(s, t, s.heap[n], s.info[n]);
      } else {
        assert s.heap[n].next != To(s.root);
      }
    }
    forall a, b | a in t.info && b in t.info && a != b && t.info[a].level == t.info[b].level
      ensures Apart(t.info[a], t.info[b])
    {
      assert Apart(s.info[a], s.info[b]);
    }
  }
}
