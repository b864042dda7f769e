/** Sort keys and bounded top-k retention (rank.rs). */
module TopK {
  import opened Records

  const U32: nat := 0x1_0000_0000
  const NAME_LEN_MAX: nat := 0xFF_FFFF

  /** How a search ranks its hits. */
  datatype Order = Relevance | Recent | Largest

  // ---- keys --------------------------------------------------------------------------

  type Key = nat

  /** Match class, clamped name length, record: eight, twenty-four and thirty-two bits. */
  function RelevanceKey(quality: nat, nameLen: nat, record: nat): Key {
    (quality * 0x100_0000 + if nameLen < NAME_LEN_MAX then nameLen else NAME_LEN_MAX) * U32 + record
  }

  /** Newest first. */
  function RecentKey(mtimeSecs: nat, record: nat): Key
    requires mtimeSecs < U32
  {
    (U32 - 1 - mtimeSecs) * U32 + record
  }

  /** Largest first. */
  function LargestKey(sizeKib: nat, record: nat): Key
    requires sizeKib < U32
  {
    (U32 - 1 - sizeKib) * U32 + record
  }

  function KeyRecord(key: Key): nat {
    key % U32
  }

  function KeyRankBits(key: Key): nat {
    key / U32
  }

  lemma PackedParts(high: nat, record: nat)
    requires record < U32
    ensures KeyRecord(high * U32 + record) == record && KeyRankBits(high * U32 + record) == high
  {
  }

  /** Comparing two packed keys compares their high halves, then their records. */
  lemma PackedOrder(high: nat, record: nat, high': nat, record': nat)
    requires record < U32 && record' < U32
    ensures high * U32 + record < high' * U32 + record' <==> high < high' || (high == high' && record < record')
  {
    if high < high' {
      assert (high + 1) * U32 <= high' * U32;
    } else if high' < high {
      assert (high' + 1) * U32 <= high * U32;
    }
  }

  /** Better class first, then shorter names, then lower records. */
  lemma TheoremRelevanceOrder(q: nat, len: nat, r: nat, q': nat, len': nat, r': nat)
    requires len <= NAME_LEN_MAX && len' <= NAME_LEN_MAX && r < U32 && r' < U32
    ensures KeyRecord(RelevanceKey(q, len, r)) == r
    ensures RelevanceKey(q, len, r) < RelevanceKey(q', len', r') <==>
      q < q' || (q == q' && (len < len' || (len == len' && r < r')))
  {
    PackedParts(q * 0x100_0000 + len, r);
    PackedOrder(q * 0x100_0000 + len, r, q' * 0x100_0000 + len', r');
  }

  /** Later times, and larger sizes, sort first. */
  lemma TheoremDescendingOrder(v: nat, r: nat, v': nat, r': nat)
    requires v < U32 && v' < U32 && r < U32 && r' < U32
    ensures RecentKey(v, r) == LargestKey(v, r) && KeyRecord(RecentKey(v, r)) == r
    ensures RecentKey(v, r) < RecentKey(v', r') <==> v > v' || (v == v' && r < r')
  {
    PackedParts(U32 - 1 - v, r);
    PackedOrder(U32 - 1 - v, r, U32 - 1 - v', r');
  }

  // ---- the best keys of a collection -------------------------------------------------

  /** `kept` holds the `limit` smallest keys of `all`, or all of them. */
  ghost predicate IsBest(all: multiset<Key>, limit: nat, kept: multiset<Key>) {
    && kept <= all
    && |kept| == (if |all| < limit then |all| else limit)
    && forall x, y :: x in kept && y in all - kept ==> x <= y
  }

  lemma SubmultisetSize(a: multiset<Key>, b: multiset<Key>)
    requires a <= b
    ensures |b - a| == |b| - |a|
    ensures |a| == |b| ==> a == b
  {
    assert b == a + (b - a);
    assert |a| == |b| ==> b - a == multiset{};
  }

  lemma Missed(all: multiset<Key>, k: multiset<Key>, m: multiset<Key>, x: Key)
    requires k <= all && k[x] > m[x]
    ensures x in k && x in all - m
  {
  }

  /** There is only one such selection. */
  lemma TheoremBestIsUnique(all: multiset<Key>, limit: nat, k: multiset<Key>, m: multiset<Key>)
    requires IsBest(all, limit, k) && IsBest(all, limit, m)
    ensures k == m
  {
    if k <= m {
      SubmultisetSize(k, m);
    } else if m <= k {
      SubmultisetSize(m, k);
    } else {
      var x :| x in k && k[x] > m[x];
      var y :| y in m && m[y] > k[y];
      Missed(all, k, m, x);
      Missed(all, m, k, y);
    }
  }

  /** Only the retained keys of a part can matter for the whole. */
  lemma BestOfParts(a: multiset<Key>, b: multiset<Key>, limit: nat, part: multiset<Key>, kept: multiset<Key>)
    requires IsBest(a, limit, part) && IsBest(part + b, limit, kept)
    ensures IsBest(a + b, limit, kept)
  {
    PartSizes(a, b, limit, part, kept);
    forall x, y | x in kept && y in a + b - kept ensures x <= y {
      PartPair(a, b, limit, part, kept, x, y);
    }
  }

  lemma PartSizes(a: multiset<Key>, b: multiset<Key>, limit: nat, part: multiset<Key>, kept: multiset<Key>)
    requires IsBest(a, limit, part) && IsBest(part + b, limit, kept)
    ensures kept <= a + b && |kept| == if |a + b| < limit then |a + b| else limit
  {
    SubmultisetSize(part, a);
    assert a == part + (a - part);
  }

  lemma PartPair(a: multiset<Key>, b: multiset<Key>, limit: nat, part: multiset<Key>, kept: multiset<Key>, x: Key, y: Key)
    requires IsBest(a, limit, part) && IsBest(part + b, limit, kept)
    requires x in kept && y in a + b - kept
    ensures x <= y
  {
    if y !in part + b - kept {
      Lost(a, b, part, kept, y);
      LostIsWorse(a, b, limit, part, kept, x, y);
    }
  }

  lemma Lost(a: multiset<Key>, b: multiset<Key>, part: multiset<Key>, kept: multiset<Key>, y: Key)
    requires part <= a && y in a + b - kept && y !in part + b - kept
    ensures y in a - part
  {
  }

  lemma LostIsWorse(a: multiset<Key>, b: multiset<Key>, limit: nat, part: multiset<Key>, kept: multiset<Key>, x: Key, y: Key)
    requires IsBest(a, limit, part) && IsBest(part + b, limit, kept)
    requires x in kept && y in a - part
    ensures x <= y
  {
    SubmultisetSize(part, a);
    assert |a - part| > 0 && |part| == limit;
    if x !in part {
      if part <= kept {
        SubmultisetSize(part, kept);
      } else {
        var z :| z in part && part[z] > kept[z];
        assert z in part + b - kept;
      }
    }
  }

  // ---- the heap ----------------------------------------------------------------------

  ghost predicate IsMax(keys: multiset<Key>, worst: Key) {
    worst in keys && forall k :: k in keys ==> k <= worst
  }

  lemma {:induction false} HasMax(keys: multiset<Key>)
    requires |keys| > 0
    ensures exists worst :: IsMax(keys, worst)
    decreases |keys|
  {
    var k :| k in keys;
    if |keys| > 1 {
      var rest := keys - multiset{k};
      HasMax(rest);
      var w :| IsMax(rest, w);
      assert keys == rest + multiset{k};
      assert IsMax(keys, if w < k then k else w);
    } else {
      SubmultisetSize(multiset{k}, keys);
      assert IsMax(keys, k);
    }
  }

  /** A binary max-heap, seen as the multiset of its keys. */
  class BinaryHeap {
    var keys: multiset<Key>

    constructor ()
      ensures keys == multiset{}
    {
      keys := multiset{};
    }

    method Peek() returns (worst: Key)
      requires |keys| > 0
      ensures IsMax(keys, worst)
    {
      HasMax(keys);
      worst :| worst in keys && forall k :: k in keys ==> k <= worst;
    }

    method Push(key: Key)
      modifies this
      ensures keys == old(keys) + multiset{key}
    {
      keys := keys + multiset{key};
    }

    method Pop() returns (worst: Key)
      requires |keys| > 0
      modifies this
      ensures IsMax(old(keys), worst) && keys == old(keys) - multiset{worst}
    {
      worst := Peek();
      keys := keys - multiset{worst};
    }
  }

  /** Retains `key` if there is room for it or it beats the worst key; `all` is everything offered so far. */
  method RetainHit(heap: BinaryHeap, key: Key, limit: nat, ghost all: multiset<Key>)
    requires IsBest(all, limit, heap.keys)
    modifies heap
    ensures IsBest(all + multiset{key}, limit, heap.keys)
  {
    if limit == 0 {
      return;
    }
    ghost var was := heap.keys;
    if |heap.keys| < limit {
      heap.Push(key);
      RoomLeft(all, limit, was, key);
    } else {
      var worst := heap.Peek();
      if key < worst {
        var popped := heap.Pop();
        heap.Push(key);
        Replaced(all, limit, was, popped, key);
      } else {
        NotBetter(all, limit, was, worst, key);
      }
    }
  }

  lemma RoomLeft(all: multiset<Key>, limit: nat, kept: multiset<Key>, key: Key)
    requires IsBest(all, limit, kept) && |kept| < limit
    ensures IsBest(all + multiset{key}, limit, kept + multiset{key})
  {
    SubmultisetSize(kept, all);
  }

  lemma Replaced(all: multiset<Key>, limit: nat, kept: multiset<Key>, worst: Key, key: Key)
    requires IsBest(all, limit, kept) && |kept| == limit && IsMax(kept, worst) && key < worst
    ensures IsBest(all + multiset{key}, limit, kept - multiset{worst} + multiset{key})
  {
    var next := kept - multiset{worst} + multiset{key};
    SubmultisetSize(multiset{worst}, kept);
    forall x, y | x in next && y in all + multiset{key} - next ensures x <= y {
      ReplacedPair(all, kept, worst, key, x, y);
    }
    SubmultisetSize(kept, all);
  }

  lemma ReplacedPair(all: multiset<Key>, kept: multiset<Key>, worst: Key, key: Key, x: Key, y: Key)
    requires kept <= all && IsMax(kept, worst) && key < worst
    requires forall a, b :: a in kept && b in all - kept ==> a <= b
    requires x in kept - multiset{worst} + multiset{key}
    requires y in all + multiset{key} - (kept - multiset{worst} + multiset{key})
    ensures x <= y
  {
    assert x == key || x in kept;
    assert y == worst || y in all - kept;
    assert worst in kept;
  }

  lemma NotBetter(all: multiset<Key>, limit: nat, kept: multiset<Key>, worst: Key, key: Key)
    requires IsBest(all, limit, kept) && |kept| == limit && IsMax(kept, worst) && worst <= key
    ensures IsBest(all + multiset{key}, limit, kept)
  {
    SubmultisetSize(kept, all);
    forall y | y in all + multiset{key} - kept ensures y == key || y in all - kept {
    }
  }

  /** Merges the keys of a shard's heap, in whatever order they come; `all` and `offered` are what each heap has seen. */
  method MergeHeap(merged: BinaryHeap, shard: multiset<Key>, limit: nat, ghost all: multiset<Key>, ghost offered: multiset<Key>)
    requires IsBest(all, limit, merged.keys) && IsBest(offered, limit, shard)
    modifies merged
    ensures IsBest(all + offered, limit, merged.keys)
  {
    hide IsBest;
    var rest := shard;
    ghost var seen: multiset<Key> := multiset{};
    assert all + seen == all;
    while |rest| > 0
      invariant seen + rest == shard
      invariant IsBest(all + seen, limit, merged.keys)
      decreases |rest|
    {
      var key :| key in rest;
      RetainHit(merged, key, limit, all + seen);
      rest := rest - multiset{key};
      assert all + seen + multiset{key} == all + (seen + multiset{key});
      seen := seen + multiset{key};
    }
    assert seen == shard;
    assert shard + all == all + seen && offered + all == all + offered;
    BestOfParts(offered, all, limit, shard, merged.keys);
  }

  /** drain_heap: best first. */
  method DrainHeap(heap: BinaryHeap) returns (hits: seq<Key>)
    modifies heap
    ensures multiset(hits) == old(heap.keys) && heap.keys == multiset{}
    ensures forall i, j :: 0 <= i < j < |hits| ==> hits[i] <= hits[j]
  {
    hits := [];
    while |heap.keys| > 0
      invariant multiset(hits) + heap.keys == old(heap.keys)
      invariant forall i, j :: 0 <= i < j < |hits| ==> hits[i] <= hits[j]
      invariant forall i, k :: 0 <= i < |hits| && k in heap.keys ==> k <= hits[i]
      decreases |heap.keys|
    {
      var worst := heap.Pop();
      hits := [worst] + hits;
    }
  }

  // ---- shards ------------------------------------------------------------------------

  datatype Shard = Shard(start: nat, end: nat)

  /** Consecutive, non-empty, bucket-aligned ranges that cover the records. */
  ghost predicate IsPartition(shards: seq<Shard>, n: nat) {
    && (n == 0 <==> shards == [])
    && (forall s :: 0 <= s < |shards| ==> shards[s].start < shards[s].end <= n && shards[s].start % BUCKET_SIZE == 0)
    && (shards != [] ==> shards[0].start == 0 && shards[|shards| - 1].end == n)
    && (forall s :: 0 <= s < |shards| - 1 ==> shards[s].end == shards[s + 1].start)
  }

  function CeilDiv(a: nat, b: nat): nat
    requires b > 0
  {
    (a + b - 1) / b
  }

  /** bucket_shards: at most `threads` ranges. */
  method BucketShards(n: nat, threads: nat) returns (shards: seq<Shard>)
    ensures IsPartition(shards, n)
    ensures |shards| <= if threads == 0 then 1 else threads
  {
    var numBuckets := CeilDiv(n, BUCKET_SIZE);
    var workers := if threads == 0 then 1 else threads;
    var perWorker := CeilDiv(numBuckets, workers);
    var shardBuckets := if perWorker == 0 then 1 else perWorker;
    BucketsCover(n, numBuckets);
    hide CeilDiv;
    shards := [];
    var startBucket := 0;
    while startBucket < numBuckets
      invariant startBucket == |shards| * shardBuckets && |shards| <= workers
      invariant (startBucket == 0 <==> shards == [])
      invariant IsPartition(shards, if startBucket < numBuckets then startBucket * BUCKET_SIZE else n)
    {
      var endBucket := if startBucket + shardBuckets < numBuckets then startBucket + shardBuckets else numBuckets;
      var start := startBucket * BUCKET_SIZE;
      var end := if endBucket * BUCKET_SIZE < n then endBucket * BUCKET_SIZE else n;
      FewShards(numBuckets, workers, |shards|);
      BucketsCover(n, startBucket);
      BucketsCover(n, endBucket);
      OneMoreShard(shards, start, end);
      assert (|shards| + 1) * shardBuckets == |shards| * shardBuckets + shardBuckets;
      shards := shards + [Shard(start, end)];
      startBucket := startBucket + shardBuckets;
    }
  }

  lemma BucketsCover(n: nat, bucket: nat)
    ensures bucket < CeilDiv(n, BUCKET_SIZE) ==> bucket * BUCKET_SIZE < n
    ensures bucket >= CeilDiv(n, BUCKET_SIZE) ==> bucket * BUCKET_SIZE >= n
    ensures bucket * BUCKET_SIZE % BUCKET_SIZE == 0
  {
  }

  lemma OneMoreShard(shards: seq<Shard>, start: nat, end: nat)
    requires IsPartition(shards, start) && start < end && start % BUCKET_SIZE == 0
    ensures IsPartition(shards + [Shard(start, end)], end)
  {
    var more := shards + [Shard(start, end)];
    forall s | 0 <= s < |more| - 1 ensures more[s].end == more[s + 1].start {
      if s < |shards| - 1 {
        assert shards[s].end == shards[s + 1].start;
      }
    }
  }

  lemma FewShards(buckets: nat, workers: nat, k: nat)
    requires workers > 0 && k * (if CeilDiv(buckets, workers) == 0 then 1 else CeilDiv(buckets, workers)) < buckets
    ensures k < workers
  {
    var per := CeilDiv(buckets, workers);
    assert per * workers >= buckets;
    assert k >= workers ==> k * per >= workers * per by {
      if k >= workers {
        Grows(workers, k, per);
      }
    }
  }

  lemma Grows(a: nat, b: nat, c: nat)
    requires a <= b
    ensures a * c <= b * c
  {
  }
}
