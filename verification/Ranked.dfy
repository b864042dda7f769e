/** Parallel scans, and ranking while scanning (query.rs, query/parallel.rs, view/ranked.rs). */
module Ranked {
  import opened Records
  import opened Ascii
  import opened Cancel
  import opened Names
  import opened TopK
  import opened Query
  import Literals
  import Trigram

  // ---- unranked shards ---------------------------------------------------------------

  /** One worker: its own hits, unless it saw the query superseded. */
  method ScanShard(ix: Index, test: Name -> bool, shard: Shard, cancel: Cancellation?, ghost names: seq<Name>)
    returns (local: seq<nat>)
    requires IsIndex(ix, names) && shard.start < shard.end <= |names|
    modifies Flag(cancel)
    ensures old(Superseded(cancel)) ==> Superseded(cancel)
    ensures Superseded(cancel) || local == Hits(names, test, shard.start, shard.end)
  {
    hide IsIndex, Codes, InBucket, CHECK_INTERVAL, WRAP;
    IndexParts(ix, names);
    var start := shard.start;
    var visits := WalkRange(ix.nb, start, shard.end, names);
    local := [];
    var checked, matched := 0, false;
    for k := 0 to |visits|
      invariant local == Hits(names, test, start, start + k)
      invariant k > 0 ==> matched == test(names[start + k - 1])
      invariant old(Superseded(cancel)) ==> Superseded(cancel)
    {
      var stop;
      stop, checked := PollPeriodically(cancel, checked);
      if stop {
        return;
      }
      if !visits[k].repeated {
        matched := test(visits[k].name);
      }
      if matched {
        local := local + [visits[k].idx];
      }
    }
  }

  /** scan_full_parallel: the shards' hits in shard order, or nothing once superseded. */
  method ScanFullParallel(ix: Index, test: Name -> bool, threads: nat, cancel: Cancellation?, ghost names: seq<Name>)
    returns (results: seq<nat>)
    requires IsIndex(ix, names)
    modifies Flag(cancel)
    ensures results == AllHits(names, test) || (Superseded(cancel) && results == [])
  {
    IndexParts(ix, names);
    hide IsIndex, IsPartition, Hits;
    if ix.nb.n == 0 {
      return [];
    }
    var shards := BucketShards(ix.nb.n, threads);
    PartitionParts(shards, ix.nb.n);
    results := [];
    for s := 0 to |shards|
      invariant old(Superseded(cancel)) ==> Superseded(cancel)
      invariant Superseded(cancel) || results == Hits(names, test, 0, StartOf(shards, s, ix.nb.n))
    {
      var local := ScanShard(ix, test, shards[s], cancel, names);
      HitsSplit(names, test, 0, shards[s].start, shards[s].end);
      results := results + local;
    }
    var superseded := Poll(cancel);
    if superseded {
      return [];
    }
  }

  function StartOf(shards: seq<Shard>, s: nat, n: nat): nat {
    if s < |shards| then shards[s].start else n
  }

  lemma PartitionParts(shards: seq<Shard>, n: nat)
    requires IsPartition(shards, n)
    ensures StartOf(shards, 0, n) == 0
    ensures forall s :: 0 <= s < |shards| ==>
      shards[s].start < shards[s].end <= n && StartOf(shards, s, n) == shards[s].start && StartOf(shards, s + 1, n) == shards[s].end
  {
  }

  // ---- keys of a scan ----------------------------------------------------------------

  /** How a view ranks: which records are live, and what a key is made of. */
  datatype Ranking = Ranking(live: nat -> bool, needsName: bool, quality: Name -> nat, key: (nat, nat, nat) -> Key)

  function KeyFor(rk: Ranking, record: nat, name: Name): Key {
    if rk.needsName then rk.key(record, rk.quality(name), |name|) else rk.key(record, 0, 0)
  }

  /** The keys of the live records among `hits`. */
  function KeysOf(names: seq<Name>, rk: Ranking, hits: seq<nat>): multiset<Key>
    requires forall i :: 0 <= i < |hits| ==> hits[i] < |names|
  {
    if hits == [] then multiset{}
    else
      var last := |hits| - 1;
      KeysOf(names, rk, hits[..last]) +
      if rk.live(hits[last]) then multiset{KeyFor(rk, hits[last], names[hits[last]])} else multiset{}
  }

  lemma {:induction false} HitsInRange(names: seq<Name>, test: Name -> bool, lo: nat, hi: nat)
    requires lo <= hi <= |names|
    ensures forall i :: 0 <= i < |Hits(names, test, lo, hi)| ==> Hits(names, test, lo, hi)[i] < |names|
    decreases hi - lo
  {
    if lo < hi {
      HitsInRange(names, test, lo, hi - 1);
    }
  }

  ghost function RangeKeys(names: seq<Name>, test: Name -> bool, rk: Ranking, lo: nat, hi: nat): multiset<Key>
    requires lo <= hi <= |names|
  {
    HitsInRange(names, test, lo, hi);
    KeysOf(names, rk, Hits(names, test, lo, hi))
  }

  lemma RangeKeysStep(names: seq<Name>, test: Name -> bool, rk: Ranking, lo: nat, k: nat)
    requires lo <= k < |names|
    ensures RangeKeys(names, test, rk, lo, lo) == multiset{}
    ensures RangeKeys(names, test, rk, lo, k + 1) == RangeKeys(names, test, rk, lo, k) +
      if test(names[k]) && rk.live(k) then multiset{KeyFor(rk, k, names[k])} else multiset{}
  {
    var before := Hits(names, test, lo, k);
    HitsInRange(names, test, lo, k);
    if test(names[k]) {
      var more := before + [k];
      assert more == Hits(names, test, lo, k + 1) && more[..|before|] == before;
    } else {
      assert Hits(names, test, lo, k + 1) == before;
    }
  }

  lemma {:induction false} RangeKeysSplit(names: seq<Name>, test: Name -> bool, rk: Ranking, lo: nat, mid: nat, hi: nat)
    requires lo <= mid <= hi <= |names|
    ensures RangeKeys(names, test, rk, lo, hi) == RangeKeys(names, test, rk, lo, mid) + RangeKeys(names, test, rk, mid, hi)
    decreases hi - mid
  {
    hide RangeKeys;
    if mid < hi {
      RangeKeysSplit(names, test, rk, lo, mid, hi - 1);
      RangeKeysStep(names, test, rk, lo, hi - 1);
      RangeKeysStep(names, test, rk, mid, hi - 1);
    } else if hi < |names| {
      RangeKeysStep(names, test, rk, hi, hi);
    } else {
      NoKeysAtEnd(names, test, rk, hi);
    }
  }

  lemma NoKeysAtEnd(names: seq<Name>, test: Name -> bool, rk: Ranking, k: nat)
    requires k <= |names|
    ensures RangeKeys(names, test, rk, k, k) == multiset{}
  {
  }

  // ---- ranking while scanning --------------------------------------------------------

  /** The class and length of the last name that needed them, reused across repeated names. */
  datatype NameRank = NameRank(quality: nat, length: nat)

  function RankOf(rk: Ranking, name: Name): NameRank {
    NameRank(rk.quality(name), |name|)
  }

  /** The key callback: rejects tombstoned records, and decodes the class of a run of equal names once. */
  method RankOne(v: Visit, rk: Ranking, limit: nat, heap: BinaryHeap, before: Option<NameRank>, ghost seen: multiset<Key>)
    returns (nameRank: Option<NameRank>)
    requires IsBest(seen, limit, heap.keys)
    requires v.repeated && before.Some? ==> before.value == RankOf(rk, v.name)
    modifies heap
    ensures nameRank.Some? ==> nameRank.value == RankOf(rk, v.name)
    ensures IsBest(seen + if rk.live(v.idx) then multiset{KeyFor(rk, v.idx, v.name)} else multiset{}, limit, heap.keys)
  {
    hide IsBest;
    nameRank := if v.repeated then before else None;
    if rk.live(v.idx) {
      if rk.needsName && nameRank.None? {
        nameRank := Some(RankOf(rk, v.name));
      }
      var key := if rk.needsName then rk.key(v.idx, nameRank.value.quality, nameRank.value.length) else rk.key(v.idx, 0, 0);
      RetainHit(heap, key, limit, seen);
    } else {
      assert seen + multiset{} == seen;
    }
  }

  /** The ranked callback over one walk. */
  method RankVisits(visits: seq<Visit>, test: Name -> bool, rk: Ranking, limit: nat, heap: BinaryHeap, checkedBefore: nat,
                    cancel: Cancellation?, ghost names: seq<Name>, ghost start: nat, ghost stop: nat, ghost all: multiset<Key>)
    returns (checked: nat, cancelled: bool)
    requires start <= stop <= |names| && IsWalk(names, start, stop, visits) && IsBest(all, limit, heap.keys)
    modifies Flag(cancel), heap
    ensures cancelled ==> Superseded(cancel)
    ensures old(Superseded(cancel)) ==> Superseded(cancel)
    ensures !cancelled ==> IsBest(all + RangeKeys(names, test, rk, start, stop), limit, heap.keys)
  {
    hide InBucket, IsBest, RangeKeys, KeyFor, RankOf, CHECK_INTERVAL, WRAP;
    checked, cancelled := checkedBefore, false;
    var matched, nameRank: Option<NameRank> := false, None;
    NoKeysAtEnd(names, test, rk, start);
    assert all + multiset{} == all;
    for k := 0 to |visits|
      invariant IsBest(all + RangeKeys(names, test, rk, start, start + k), limit, heap.keys)
      invariant k > 0 ==> matched == test(names[start + k - 1])
      invariant k > 0 && matched && nameRank.Some? ==> nameRank.value == RankOf(rk, names[start + k - 1])
      invariant old(Superseded(cancel)) ==> Superseded(cancel)
    {
      var stop';
      stop', checked := PollPeriodically(cancel, checked);
      if stop' {
        return checked, true;
      }
      var v := visits[k];
      if !v.repeated {
        matched := test(v.name);
      }
      KeysGrow(names, test, rk, start, start + k, all);
      if matched {
        nameRank := RankOne(v, rk, limit, heap, nameRank, all + RangeKeys(names, test, rk, start, start + k));
      }
    }
  }

  lemma KeysGrow(names: seq<Name>, test: Name -> bool, rk: Ranking, lo: nat, k: nat, all: multiset<Key>)
    requires lo <= k < |names|
    ensures all + RangeKeys(names, test, rk, lo, k + 1) ==
      if test(names[k]) then all + RangeKeys(names, test, rk, lo, k) + (if rk.live(k) then multiset{KeyFor(rk, k, names[k])} else multiset{})
      else all + RangeKeys(names, test, rk, lo, k)
  {
    hide RangeKeys;
    RangeKeysStep(names, test, rk, lo, k);
  }

  ghost function AllKeys(names: seq<Name>, test: Name -> bool, rk: Ranking): multiset<Key> {
    RangeKeys(names, test, rk, 0, |names|)
  }

  /** Ranks a walk over every name. */
  method RankAll(ix: Index, test: Name -> bool, rk: Ranking, limit: nat, heap: BinaryHeap, cancel: Cancellation?,
                 ghost names: seq<Name>)
    returns (cancelled: bool)
    requires IsIndex(ix, names) && heap.keys == multiset{}
    modifies Flag(cancel), heap
    ensures cancelled ==> Superseded(cancel)
    ensures !cancelled ==> IsBest(AllKeys(names, test, rk), limit, heap.keys)
  {
    IndexParts(ix, names);
    StartsBest(limit);
    hide IsIndex, Codes, IsWalk, IsBest, RangeKeys;
    var visits := WalkAll(ix.nb, names);
    var checked;
    checked, cancelled := RankVisits(visits, test, rk, limit, heap, 0, cancel, names, 0, |names|, multiset{});
    NothingBefore(AllKeys(names, test, rk));
  }

  lemma StartsBest(limit: nat)
    ensures IsBest(multiset{}, limit, multiset{})
  {
  }

  lemma NothingBefore(keys: multiset<Key>)
    ensures multiset{} + keys == keys
  {
  }

  /** Ranks one candidate block; `all` is what was offered before it. */
  method RankBlock(ix: Index, test: Name -> bool, rk: Ranking, limit: nat, heap: BinaryHeap, block: nat, checkedBefore: nat,
                   cancel: Cancellation?, ghost names: seq<Name>)
    returns (checked: nat, cancelled: bool)
    requires IsIndex(ix, names) && block < Trigram.NumBlocks(|names|) && BlockStart(block, |names|) <= |names|
    requires IsBest(RangeKeys(names, test, rk, 0, BlockStart(block, |names|)), limit, heap.keys)
    modifies Flag(cancel), heap
    ensures cancelled ==> Superseded(cancel)
    ensures BlockStart(block + 1, |names|) <= |names|
    ensures !cancelled ==> IsBest(RangeKeys(names, test, rk, 0, BlockStart(block + 1, |names|)), limit, heap.keys)
  {
    IndexParts(ix, names);
    BlockRange(block, |names|);
    hide IsIndex, Codes, IsWalk, RangeKeys, IsBest, BlockStart, Trigram.NumBlocks;
    var start := block * Trigram.TRIGRAM_BLOCK;
    var end := if start + Trigram.TRIGRAM_BLOCK < ix.nb.n then start + Trigram.TRIGRAM_BLOCK else ix.nb.n;
    var visits := WalkRange(ix.nb, start, end, names);
    ghost var before := RangeKeys(names, test, rk, 0, start);
    checked, cancelled := RankVisits(visits, test, rk, limit, heap, checkedBefore, cancel, names, start, end, before);
    RangeKeysSplit(names, test, rk, 0, start, end);
  }

  lemma SkippedKeys(names: seq<Name>, test: Name -> bool, rk: Ranking, a: nat, b: nat)
    requires a <= |names| && b <= |names| && Hits(names, test, 0, a) == Hits(names, test, 0, b)
    ensures RangeKeys(names, test, rk, 0, a) == RangeKeys(names, test, rk, 0, b)
  {
    hide Hits;
  }

  lemma NoHitsAtStart(names: seq<Name>, test: Name -> bool)
    ensures Hits(names, test, 0, 0) == []
  {
  }

  /** Ranks the candidate blocks only. */
  method RankBlocks(ix: Index, test: Name -> bool, rk: Ranking, limit: nat, heap: BinaryHeap, blocks: seq<nat>,
                    cancel: Cancellation?, ghost names: seq<Name>)
    returns (cancelled: bool)
    requires IsIndex(ix, names) && CoversHits(names, test, blocks) && heap.keys == multiset{}
    modifies Flag(cancel), heap
    ensures cancelled ==> Superseded(cancel)
    ensures !cancelled ==> IsBest(AllKeys(names, test, rk), limit, heap.keys)
  {
    hide IsIndex, CoversHits, Hits, BlockStart, Trigram.NumBlocks, IsBest, RangeKeys, Take, AllHits;
    SkipToFirst(names, test, blocks);
    BlocksInRange(names, test, blocks);
    StartsBest(limit);
    NoKeysAtEnd(names, test, rk, 0);
    NoHitsAtStart(names, test);
    SkippedKeys(names, test, rk, 0, Reached(blocks, 0, |names|));
    var checked := 0;
    cancelled := false;
    for i := 0 to |blocks|
      invariant Reached(blocks, i, |names|) <= |names| && !cancelled
      invariant IsBest(RangeKeys(names, test, rk, 0, Reached(blocks, i, |names|)), limit, heap.keys)
    {
      BlockDone(names, test, blocks, i);
      checked, cancelled := RankBlock(ix, test, rk, limit, heap, blocks[i], checked, cancel, names);
      if cancelled {
        return;
      }
      SkippedKeys(names, test, rk, BlockStart(blocks[i] + 1, |names|), Reached(blocks, i + 1, |names|));
    }
  }

  // ---- ranked shards -----------------------------------------------------------------

  /** One worker and its own bounded heap. */
  method RankShard(ix: Index, test: Name -> bool, rk: Ranking, limit: nat, shard: Shard, cancel: Cancellation?,
                   ghost names: seq<Name>)
    returns (keys: multiset<Key>)
    requires IsIndex(ix, names) && shard.start < shard.end <= |names|
    modifies Flag(cancel)
    ensures old(Superseded(cancel)) ==> Superseded(cancel)
    ensures Superseded(cancel) || IsBest(RangeKeys(names, test, rk, shard.start, shard.end), limit, keys)
  {
    IndexParts(ix, names);
    StartsBest(limit);
    hide IsIndex, Codes, IsWalk, IsBest, RangeKeys;
    var heap := new BinaryHeap();
    var visits := WalkRange(ix.nb, shard.start, shard.end, names);
    var checked, cancelled := RankVisits(visits, test, rk, limit, heap, 0, cancel, names, shard.start, shard.end, multiset{});
    NothingBefore(RangeKeys(names, test, rk, shard.start, shard.end));
    keys := heap.keys;
  }

  /** Every shard's heap holds the best of its own range. */
  ghost predicate ShardHeaps(names: seq<Name>, test: Name -> bool, rk: Ranking, limit: nat, shards: seq<Shard>, heaps: seq<multiset<Key>>)
    requires |heaps| <= |shards| && forall s :: 0 <= s < |shards| ==> shards[s].start < shards[s].end <= |names|
  {
    forall s :: 0 <= s < |heaps| ==> IsBest(RangeKeys(names, test, rk, shards[s].start, shards[s].end), limit, heaps[s])
  }

  /** Merging the shard heaps gives the best of the whole, whatever the number of workers. */
  method MergeShards(shards: seq<Shard>, heaps: seq<multiset<Key>>, limit: nat, ghost names: seq<Name>,
                     ghost test: Name -> bool, ghost rk: Ranking)
    returns (merged: BinaryHeap)
    requires IsPartition(shards, |names|) && |heaps| == |shards|
    requires ShardHeaps(names, test, rk, limit, shards, heaps)
    ensures fresh(merged) && IsBest(AllKeys(names, test, rk), limit, merged.keys)
  {
    StartsBest(limit);
    NoKeysAtEnd(names, test, rk, 0);
    PartitionParts(shards, |names|);
    hide IsPartition, RangeKeys, IsBest;
    merged := new BinaryHeap();
    for s := 0 to |shards|
      invariant fresh(merged)
      invariant StartOf(shards, s, |names|) <= |names|
      invariant IsBest(RangeKeys(names, test, rk, 0, StartOf(shards, s, |names|)), limit, merged.keys)
    {
      RangeKeysSplit(names, test, rk, 0, shards[s].start, shards[s].end);
      MergeHeap(merged, heaps[s], limit, RangeKeys(names, test, rk, 0, shards[s].start),
                RangeKeys(names, test, rk, shards[s].start, shards[s].end));
    }
  }

  method RankShards(ix: Index, test: Name -> bool, rk: Ranking, limit: nat, shards: seq<Shard>, cancel: Cancellation?,
                    ghost names: seq<Name>)
    returns (heaps: seq<multiset<Key>>)
    requires IsIndex(ix, names) && forall s :: 0 <= s < |shards| ==> shards[s].start < shards[s].end <= |names|
    modifies Flag(cancel)
    ensures Superseded(cancel) || (|heaps| == |shards| && ShardHeaps(names, test, rk, limit, shards, heaps))
  {
    hide IsIndex, RangeKeys, IsBest;
    heaps := [];
    for s := 0 to |shards|
      invariant |heaps| == s
      invariant Superseded(cancel) || ShardHeaps(names, test, rk, limit, shards, heaps)
    {
      var keys := RankShard(ix, test, rk, limit, shards[s], cancel, names);
      heaps := heaps + [keys];
    }
  }

  /** scan_full_parallel_ranked: every shard keeps its own best, then the shard heaps are merged. */
  method ScanFullParallelRanked(ix: Index, test: Name -> bool, rk: Ranking, limit: nat, threads: nat, cancel: Cancellation?,
                                ghost names: seq<Name>)
    returns (merged: BinaryHeap)
    requires IsIndex(ix, names)
    modifies Flag(cancel)
    ensures fresh(merged)
    ensures IsBest(AllKeys(names, test, rk), limit, merged.keys) || (Superseded(cancel) && merged.keys == multiset{})
  {
    IndexParts(ix, names);
    EmptyIsBest(names, test, rk, limit);
    hide IsIndex, RangeKeys, IsBest, ShardHeaps, AllKeys;
    if ix.nb.n == 0 || limit == 0 {
      merged := new BinaryHeap();
      return;
    }
    var shards := BucketShards(ix.nb.n, threads);
    PartitionParts(shards, ix.nb.n);
    hide IsPartition;
    var heaps := RankShards(ix, test, rk, limit, shards, cancel, names);
    var superseded := Poll(cancel);
    if superseded {
      merged := new BinaryHeap();
    } else {
      merged := MergeShards(shards, heaps, limit, names, test, rk);
    }
  }

  lemma EmptyIsBest(names: seq<Name>, test: Name -> bool, rk: Ranking, limit: nat)
    ensures names == [] || limit == 0 ==> IsBest(AllKeys(names, test, rk), limit, multiset{})
  {
  }

  // ---- search_ranked_streaming -------------------------------------------------------

  /** Whether the index can filter the query, and with which blocks. */
  method Filter(ix: Index, query: Query, ghost test: Name -> bool, ghost names: seq<Name>) returns (filtered: bool, blocks: seq<nat>)
    requires IsIndex(ix, names) && Decides(query, test) && !query.Prefix?
    ensures filtered ==> CoversHits(names, test, blocks)
  {
    IndexParts(ix, names);
    hide IsIndex, Codes, CoversHits, Trigram.Marks, Literals.IsMatch;
    match query {
      case Substring(needle) =>
        filtered, blocks := Trigram.CandidateBlocks(LowerAll(needle), ix.matrix, ix.nb.n, names);
        if filtered {
          NeedleCovers(names, LowerAll(needle), test, blocks);
        }
      case Regex(Some(h)) =>
        filtered, blocks := RegexBlocks(ix, h, test, names);
      case Regex(None) =>
        filtered, blocks := false, [];
    }
  }

  /** The `limit` best keys among the live hits, whichever scan produces them. */
  method SearchRankedStreaming(ix: Index, query: Query, test: Name -> bool, rk: Ranking, limit: nat, threads: nat,
                               cancel: Cancellation?, ghost names: seq<Name>)
    returns (heap: BinaryHeap)
    requires IsIndex(ix, names) && Decides(query, test) && !query.Prefix?
    modifies Flag(cancel)
    ensures fresh(heap)
    ensures IsBest(AllKeys(names, test, rk), limit, heap.keys) || (Superseded(cancel) && heap.keys == multiset{})
  {
    if limit == 0 {
      heap := new BinaryHeap();
      return;
    }
    hide IsIndex, CoversHits, RangeKeys, IsBest, Decides;
    var filtered, blocks := Filter(ix, query, test, names);
    if threads <= 1 || filtered {
      heap := new BinaryHeap();
      var cancelled;
      if filtered {
        cancelled := RankBlocks(ix, test, rk, limit, heap, blocks, cancel, names);
      } else {
        cancelled := RankAll(ix, test, rk, limit, heap, cancel, names);
      }
      if cancelled {
        heap := new BinaryHeap();
      }
    } else {
      heap := ScanFullParallelRanked(ix, test, rk, limit, threads, cancel, names);
    }
  }
}
