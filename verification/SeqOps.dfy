/** Sequence operations shared by the node pages and the tree: the shifts of an
    in-place array insert and erase, and the search that both kinds of node use. */
module SeqOps {

  datatype Option<+T> = None | Some(value: T)

  function InsertAt<T>(s: seq<T>, i: nat, x: T): seq<T>
    requires i <= |s|
  {
    s[..i] + [x] + s[i..]
  }

  function RemoveAt<T>(s: seq<T>, i: nat): seq<T>
    requires i < |s|
  {
    s[..i] + s[i + 1..]
  }

  ghost predicate Sorted(s: seq<int>) {
    forall i, j :: 0 <= i < j < |s| ==> s[i] < s[j]
  }

  /** Position of the first key not below `k`: what every descent and every page search computes. */
  function LowerBound(s: seq<int>, k: int): (r: nat)
    ensures r <= |s|
    ensures forall i :: 0 <= i < r ==> s[i] < k
    ensures r < |s| ==> k <= s[r]
  {
    if |s| == 0 || k <= s[0] then 0
    else
      var r := 1 + LowerBound(s[1..], k);
      assert forall i :: 1 <= i < r ==> s[i] == s[1..][i - 1];
      r
  }

  lemma BoundIs(keys: seq<int>, k: int, r: nat)
    requires r <= |keys| && (forall j :: 0 <= j < r ==> keys[j] < k) && (r < |keys| ==> k <= keys[r])
    ensures LowerBound(keys, k) == r
  {
    var q := LowerBound(keys, k);
    assert (q < |keys| ==> k <= keys[q]) && (r < |keys| ==> k <= keys[r]);
  }

  lemma InsertAtSorted(s: seq<int>, k: int)
    requires Sorted(s) && k !in s
    ensures Sorted(InsertAt(s, LowerBound(s, k), k))
  {
  }

  lemma RemoveAtSorted(s: seq<int>, p: nat)
    requires Sorted(s) && p < |s|
    ensures Sorted(RemoveAt(s, p))
    ensures s[p] !in RemoveAt(s, p)
  {
  }

  lemma InsertAtMember<T>(s: seq<T>, p: nat, x: T, y: T)
    requires p <= |s|
    ensures y in InsertAt(s, p, x) <==> y == x || y in s
  {
  }

  lemma RemoveAtMember<T>(s: seq<T>, p: nat, y: T)
    requires p < |s|
    ensures y in RemoveAt(s, p) ==> y in s
    ensures y in s ==> y == s[p] || y in RemoveAt(s, p)
  {
    assert s == s[..p] + [s[p]] + s[p + 1..];
  }
}
