/** The pages of the B+ tree as fixed-size arrays changed in place: search, insert, erase, split, merge and borrow, each
    proved to do to the page what the tree's node functions say. */
module Pages {
  import opened SeqOps
  import opened BTreeHeap

  // ----- search -----

  /** Pages with fewer than 128 entries are searched one by one, larger ones by halving. */
  method Search(a: array<Key>, count: nat, k: Key) returns (r: nat)
    requires count <= a.Length && Sorted(a[..count])
    ensures r == LowerBound(a[..count], k)
  {
    if count < 128 {
      r := 0;
      while r < count && a[r] < k
        invariant 0 <= r <= count && forall i :: 0 <= i < r ==> a[i] < k
      {
        r := r + 1;
      }
    } else {
      var left, right := 0, count - 1;
      while left <= right
        invariant 0 <= left <= right + 1 <= count
        invariant (forall i :: 0 <= i < left ==> a[i] < k) && (forall i :: right < i < count ==> k < a[i])
      {
        var mid := left + (right - left) / 2;
        if a[mid] == k {
          Unique(a[..count], k, mid);
          return mid;
        } else if a[mid] < k {
          left := mid + 1;
        } else {
          right := mid - 1;
        }
      }
      r := left;
    }
    Unique(a[..count], k, r);
  }

  /** In a sorted page one position has smaller keys before it and none from it on. */
  lemma Unique(s: seq<Key>, k: Key, r: nat)
    requires Sorted(s) && r <= |s| && (forall i :: 0 <= i < r ==> s[i] < k || (r < |s| && s[r] == k))
      && (r < |s| ==> k <= s[r])
    ensures r == LowerBound(s, k)
  {
  }

  // ----- moving entries -----

  /** Make room at `pos`, from the end backwards. */
  method ShiftRight<T>(a: array<T>, count: nat, pos: nat)
    requires pos <= count < a.Length
    modifies a
    ensures a[..pos] == old(a[..pos]) && a[pos + 1..count + 1] == old(a[pos..count])
  {
    var i := count;
    while i > pos
      invariant pos <= i <= count
      invariant a[..i] == old(a[..i]) && a[i + 1..count + 1] == old(a[i..count])
    {
      a[i] := a[i - 1];
      i := i - 1;
    }
  }

  /** Close the gap at `pos`. */
  method ShiftLeft<T>(a: array<T>, count: nat, pos: nat)
    requires pos < count <= a.Length
    modifies a
    ensures a[..count - 1] == RemoveAt(old(a[..count]), pos)
  {
    for i := pos to count - 1
      invariant a[..i] == old(a[..pos] + a[pos + 1..i + 1]) && a[i + 1..] == old(a[i + 1..])
    {
      a[i] := a[i + 1];
    }
  }

  method Insert1<T>(a: array<T>, count: nat, pos: nat, x: T)
    requires pos <= count < a.Length
    modifies a
    ensures a[..count + 1] == InsertAt(old(a[..count]), pos, x)
  {
    ShiftRight(a, count, pos);
    a[pos] := x;
    assert a[..count + 1] == a[..pos] + [x] + a[pos + 1..count + 1];
  }

  /** Copy `src[from..to]` to position `at` of another array. */
  method Copy<T>(src: array<T>, from: nat, to: nat, dst: array<T>, at: nat)
    requires from <= to <= src.Length && at + (to - from) <= dst.Length && src != dst
    modifies dst
    ensures dst[..at] == old(dst[..at]) && dst[at..at + (to - from)] == src[from..to]
  {
    for i := from to to
      invariant dst[..at] == old(dst[..at]) && dst[at..at + (i - from)] == src[from..i]
    {
      dst[at + (i - from)] := src[i];
    }
  }

  // ----- leaf pages -----

  class LeafPage {
    const keys: array<Key>
    const vals: array<Value>
    var count: nat
    var next: Ref

    ghost predicate Valid()
      reads this
    {
      keys != vals && keys.Length == vals.Length && count <= keys.Length
    }

    ghost function Page(): Node
      reads this, keys, vals
      requires Valid()
    {
      Leaf(keys[..count], vals[..count], next)
    }

    constructor (capacity: nat)
      ensures Valid() && Page() == Leaf([], [], Null) && keys.Length == capacity && fresh(keys) && fresh(vals)
    {
      keys := new Key[capacity];
      vals := new Value[capacity];
      count, next := 0, Null;
    }

    method Insert(k: Key, v: Value) returns (ok: bool)
      requires Valid() && Sorted(keys[..count]) && count < keys.Length
      modifies this`count, keys, vals
      ensures Valid() && ok == (k !in old(keys[..count]))
      ensures var n, pos := old(Page()), LowerBound(old(keys[..count]), k);
              Page() == if ok then Leaf(InsertAt(n.keys, pos, k), InsertAt(n.vals, pos, v), n.next) else n
    {
      var pos := Search(keys, count, k);
      Present(keys[..count], k);
      if pos < count && keys[pos] == k {
        return false;
      }
      Insert1(keys, count, pos, k);
      Insert1(vals, count, pos, v);
      count := count + 1;
      ok := true;
    }

    method Erase(pos: nat)
      requires Valid() && pos < count
      modifies this`count, keys, vals
      ensures Valid() && Page() == Leaf(RemoveAt(old(Page()).keys, pos), RemoveAt(old(Page()).vals, pos), next)
    {
      ShiftLeft(keys, count, pos);
      ShiftLeft(vals, count, pos);
      count := count - 1;
    }

    /** The upper half goes to an empty page; the separator is the largest key that stays. */
    method Split(right: LeafPage, id: Id) returns (sep: Key)
      requires Valid() && right.Valid() && right.count == 0 && count >= 2 && right.keys.Length >= keys.Length
      requires {this, keys, vals} !! {right, right.keys, right.vals}
      modifies this, right, right.keys, right.vals
      ensures Valid() && right.Valid() && Page() == LeftHalf(old(Page()), id) && right.Page() == RightHalf(old(Page()))
        && sep == SepKey(old(Page()))
    {
      var half := count / 2;
      Copy(keys, half, count, right.keys, 0);
      Copy(vals, half, count, right.vals, 0);
      right.count := count - half;
      right.next, next := next, To(id);
      count := half;
      sep := keys[count - 1];
    }

    /** Take over the entries and the link of the right sibling. */
    method Merge(right: LeafPage)
      requires Valid() && right.Valid() && count + right.count <= keys.Length
        && {this, keys, vals} !! {right, right.keys, right.vals}
      modifies this, keys, vals
      ensures Valid() && Page() == MergedNode(old(Page()), 0, right.Page())
    {
      Copy(right.keys, 0, right.count, keys, count);
      Copy(right.vals, 0, right.count, vals, count);
      assert keys[..count + right.count] == keys[..count] + keys[count..count + right.count];
      assert vals[..count + right.count] == vals[..count] + vals[count..count + right.count];
      count := count + right.count;
      next := right.next;
    }

    /** Take the first entry of the right sibling; the result is the new separator. */
    method BorrowFirst(right: LeafPage) returns (sep: Key)
      requires Valid() && right.Valid() && count < keys.Length && right.count >= 1
        && {this, keys, vals} !! {right, right.keys, right.vals}
      modifies this, keys, vals, right, right.keys, right.vals
      ensures Valid() && right.Valid()
        && Moved(Page(), sep, right.Page()) == BorrowFromRight(old(Page()), 0, old(right.Page()))
    {
      keys[count], vals[count] := right.keys[0], right.vals[0];
      count := count + 1;
      right.Erase(0);
      sep := keys[count - 1];
      ghost var a, b := old(Page()), old(right.Page());
      assert keys[..count] == a.keys + b.keys[..1] && vals[..count] == a.vals + b.vals[..1];
      assert RemoveAt(b.keys, 0) == b.keys[1..] && RemoveAt(b.vals, 0) == b.vals[1..];
    }

    /** Take the last entry of the left sibling; the result is the new separator. */
    method BorrowLast(left: LeafPage) returns (sep: Key)
      requires Valid() && left.Valid() && count < keys.Length && left.count >= 2
        && {this, keys, vals} !! {left, left.keys, left.vals}
      modifies this, keys, vals, left
      ensures Valid() && left.Valid() && Moved(left.Page(), sep, Page()) == BorrowFromLeft(old(left.Page()), 0,
        old(Page()))
    {
      Insert1(keys, count, 0, left.keys[left.count - 1]);
      Insert1(vals, count, 0, left.vals[left.count - 1]);
      count := count + 1;
      left.count := left.count - 1;
      sep := left.keys[left.count - 1];
      ghost var a, b := old(left.Page()), old(Page());
      assert keys[..count] == a.keys[|a.keys| - 1..] + b.keys && vals[..count] == a.vals[|a.keys| - 1..] + b.vals;
      assert left.keys[..left.count] == a.keys[..|a.keys| - 1] && left.vals[..left.count] == a.vals[..|a.keys| - 1];
    }
  }

  lemma Present(s: seq<Key>, k: Key)
    requires Sorted(s)
    ensures k in s <==> LowerBound(s, k) < |s| && s[LowerBound(s, k)] == k
  {
    if k in s {
      var i :| 0 <= i < |s| && s[i] == k;
      var l := LowerBound(s, k);
      assert !(i < l);
    }
  }

  // ----- inner pages -----

  class InnerPage {
    const keys: array<Key>
    const kids: array<Id>
    var count: nat

    ghost predicate Valid()
      reads this
    {
      keys.Length + 1 == kids.Length && count <= keys.Length
    }

    ghost function Page(): Node
      reads this, keys, kids
      requires Valid()
    {
      Inner(keys[..count], kids[..count + 1])
    }

    /** A new root: one key between two children. */
    constructor (capacity: nat, k: Key, left: Id, right: Id)
      requires capacity >= 1
      ensures Valid() && Page() == Inner([k], [left, right]) && keys.Length == capacity && fresh(keys) && fresh(kids)
    {
      keys := new Key[capacity];
      kids := new Id[capacity + 1];
      count := 1;
      new;
      keys[0], kids[0], kids[1] := k, left, right;
    }

    /** The child first takes the place at the key's position and is then swapped behind the one that was there. */
    method Insert(k: Key, child: Id)
      requires Valid() && Sorted(keys[..count]) && count < keys.Length
      modifies this`count, keys, kids
      ensures Valid() && Page() == AddKid(old(Page()), k, child)
    {
      var pos := Search(keys, count, k);
      Insert1(keys, count, pos, k);
      Insert1(kids, count + 1, pos, child);
      SwapIn(pos, child, old(kids[..count + 1]));
      count := count + 1;
    }

    method SwapIn(pos: nat, child: Id, ghost was: seq<Id>)
      requires pos < |was| < kids.Length && kids[..|was| + 1] == InsertAt(was, pos, child)
      modifies kids
      ensures kids[..|was| + 1] == InsertAt(was, pos + 1, child)
    {
      kids[pos], kids[pos + 1] := kids[pos + 1], kids[pos];
    }

    /** Erase the key at `pos` and the child behind it; true if no key is left. */
    method Erase(pos: nat) returns (empty: bool)
      requires Valid() && pos < count
      modifies this`count, keys, kids
      ensures Valid() && Page() == Inner(RemoveAt(old(Page()).keys, pos), RemoveAt(old(Page()).kids, pos + 1))
      ensures empty == (old(count) == 1)
    {
      ShiftLeft(keys, count, pos);
      ShiftLeft(kids, count + 1, pos + 1);
      count := count - 1;
      empty := count == 0;
    }

    /** The keys above the separator, with their children, go to another page; the separator goes up. */
    method Split(right: InnerPage) returns (sep: Key)
      requires Valid() && right.Valid() && count >= 2 && right.keys.Length >= keys.Length
        && {this, keys, kids} !! {right, right.keys, right.kids}
      modifies this, right, right.keys, right.kids
      ensures Valid() && right.Valid() && Page() == LeftHalf(old(Page()), 0) && right.Page() == RightHalf(old(Page()))
        && sep == SepKey(old(Page()))
    {
      var half := count / 2 - 1;
      sep := keys[half];
      Copy(keys, half + 1, count, right.keys, 0);
      Copy(kids, half + 1, count + 1, right.kids, 0);
      right.count := count - half - 1;
      count := half;
    }

    /** Pull a key down and take over the keys and children of the right sibling. */
    method Merge(right: InnerPage, mx: Key)
      requires Valid() && right.Valid() && count + 1 + right.count <= keys.Length
        && {this, keys, kids} !! {right, right.keys, right.kids}
      modifies this, keys, kids
      ensures Valid() && Page() == MergedNode(old(Page()), mx, right.Page())
    {
      keys[count] := mx;
      Copy(right.keys, 0, right.count, keys, count + 1);
      Copy(right.kids, 0, right.count + 1, kids, count + 1);
      ghost var n := count + 1 + right.count;
      assert keys[..n] == keys[..count] + [mx] + keys[count + 1..n];
      assert kids[..n + 1] == kids[..count + 1] + kids[count + 1..n + 1];
      count := count + 1 + right.count;
    }

    /** Take the separator and the first child of the right sibling; its first key is the new separator. */
    method BorrowFirst(sep: Key, right: InnerPage) returns (up: Key)
      requires Valid() && right.Valid() && count < keys.Length && right.count >= 1
        && {this, keys, kids} !! {right, right.keys, right.kids}
      modifies this, keys, kids, right, right.keys, right.kids
      ensures Valid() && right.Valid()
        && Moved(Page(), up, right.Page()) == BorrowFromRight(old(Page()), sep, old(right.Page()))
    {
      keys[count], kids[count + 1] := sep, right.kids[0];
      count := count + 1;
      up := right.keys[0];
      ShiftLeft(right.kids, right.count + 1, 0);
      ShiftLeft(right.keys, right.count, 0);
      right.count := right.count - 1;
      ghost var a, b := old(Page()), old(right.Page());
      assert keys[..count] == a.keys + [sep] && kids[..count + 1] == a.kids + b.kids[..1];
      assert RemoveAt(b.keys, 0) == b.keys[1..] && RemoveAt(b.kids, 0) == b.kids[1..];
    }

    /** Take the separator and the last child of the left sibling; its last key is the new separator. */
    method BorrowLast(sep: Key, left: InnerPage) returns (up: Key)
      requires Valid() && left.Valid() && count < keys.Length && left.count >= 1
        && {this, keys, kids} !! {left, left.keys, left.kids}
      modifies this, keys, kids, left
      ensures Valid() && left.Valid() && Moved(left.Page(), up, Page()) == BorrowFromLeft(old(left.Page()), sep,
        old(Page()))
    {
      Insert1(kids, count + 1, 0, left.kids[left.count]);
      Insert1(keys, count, 0, sep);
      count := count + 1;
      up := left.keys[left.count - 1];
      left.count := left.count - 1;
      ghost var a, b := old(left.Page()), old(Page());
      assert keys[..count] == [sep] + b.keys && kids[..count + 1] == a.kids[|a.keys|..] + b.kids;
      assert left.keys[..left.count] == a.keys[..|a.keys| - 1] && left.kids[..left.count + 1] == a.kids[..|a.keys|];
    }
  }
}
