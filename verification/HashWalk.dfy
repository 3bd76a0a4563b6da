/** The walk over a sharded hash map: bucket by bucket, and within one bucket number shard by shard, so that the lock
    can be released between buckets. */
module HashWalk {

  type Entry = (int, int)

  /** A shard is its list of buckets. */
  type Shard = seq<seq<Entry>>

  function Buckets(b: Shard): multiset<Entry> {
    if b == [] then multiset{} else Buckets(b[..|b| - 1]) + multiset(b[|b| - 1])
  }

  /** Every entry of every shard. */
  function Entries(maps: seq<Shard>): multiset<Entry> {
    if maps == [] then multiset{} else Entries(maps[..|maps| - 1]) + Buckets(maps[|maps| - 1])
  }

  function Take(b: Shard, m: nat): Shard {
    if m <= |b| then b[..m] else b
  }

  /** The entries of the first `j` buckets of every shard and, in the first `i` shards, of bucket `j` too. */
  function Walked(maps: seq<Shard>, j: nat, i: nat): multiset<Entry> {
    if maps == [] then multiset{}
    else Walked(maps[..|maps| - 1], j, i) + Buckets(Take(maps[|maps| - 1], if |maps| - 1 < i then j + 1 else j))
  }

  lemma {:induction false} WalkOne(maps: seq<Shard>, j: nat, i: nat)
    requires i < |maps|
    ensures Walked(maps, j, i + 1) == Walked(maps, j, i) + if j < |maps[i]| then multiset(maps[i][j]) else multiset{}
    decreases |maps|
  {
    var rest := maps[..|maps| - 1];
    if i == |maps| - 1 {
      WalkSame(rest, j, i, i + 1);
      TakeOne(maps[i], j);
    } else {
      WalkOne(rest, j, i);
    }
  }

  lemma TakeOne(b: Shard, j: nat)
    ensures Buckets(Take(b, j + 1)) == Buckets(Take(b, j)) + if j < |b| then multiset(b[j]) else multiset{}
  {
    if j < |b| {
      assert b[..j + 1][..j] == b[..j];
    } else {
      assert Take(b, j) == b;
    }
  }

  lemma {:induction false} WalkSame(maps: seq<Shard>, j: nat, i: nat, k: nat)
    requires |maps| <= i && |maps| <= k
    ensures Walked(maps, j, i) == Walked(maps, j, k)
    decreases |maps|
  {
    if maps != [] {
      WalkSame(maps[..|maps| - 1], j, i, k);
    }
  }

  lemma {:induction false} WalkRow(maps: seq<Shard>, j: nat, i: nat)
    requires |maps| <= i
    ensures Walked(maps, j, i) == Walked(maps, j + 1, 0)
    decreases |maps|
  {
    if maps != [] {
      WalkRow(maps[..|maps| - 1], j, i);
    }
  }

  lemma {:induction false} WalkAll(maps: seq<Shard>, j: nat)
    requires forall i :: 0 <= i < |maps| ==> |maps[i]| <= j
    ensures Walked(maps, j, 0) == Entries(maps)
    decreases |maps|
  {
    if maps != [] {
      WalkAll(maps[..|maps| - 1], j);
      assert Take(maps[|maps| - 1], j) == maps[|maps| - 1];
    }
  }

  lemma {:induction false} WalkNone(maps: seq<Shard>)
    ensures Walked(maps, 0, 0) == multiset{}
    decreases |maps|
  {
    if maps != [] {
      WalkNone(maps[..|maps| - 1]);
      assert Take(maps[|maps| - 1], 0) == [];
    }
  }

  method VisitBucket(seen: seq<Entry>, bucket: seq<Entry>) returns (out: seq<Entry>)
    ensures out == seen + bucket
  {
    out := seen;
    for k := 0 to |bucket|
      invariant out == seen + bucket[..k]
    {
      out := out + [bucket[k]];
    }
  }

  /** The largest number of buckets. */
  method MaxBuckets(maps: seq<Shard>) returns (most: nat)
    ensures forall i :: 0 <= i < |maps| ==> |maps[i]| <= most
  {
    most := 0;
    for i := 0 to |maps|
      invariant forall k :: 0 <= k < i ==> |maps[k]| <= most
    {
      if |maps[i]| > most {
        most := |maps[i]|;
      }
    }
  }

  /** Every entry is handed out exactly as often as it is stored, whatever the shards' bucket counts. */
  method Iterate(maps: seq<Shard>) returns (out: seq<Entry>)
    ensures multiset(out) == Entries(maps)
  {
    out := [];
    var most := MaxBuckets(maps);
    WalkNone(maps);
    for j := 0 to most
      invariant multiset(out) == Walked(maps, j, 0)
    {
      for i := 0 to |maps|
        invariant multiset(out) == Walked(maps, j, i)
      {
        WalkOne(maps, j, i);
        if j < |maps[i]| {
          out := VisitBucket(out, maps[i][j]);
        }
      }
      WalkRow(maps, j, |maps|);
    }
    WalkAll(maps, most);
  }
}
