/** Dense enumeration over a record bitmap, sequential and sharded (view/path_search.rs). */
module PathDense {
  import opened Records
  import opened Ascii
  import opened Bits
  import opened Cancel
  import opened Intervals
  import opened Names
  import opened PathEnumerate
  import opened PathRank
  import opened PathSeed
  import opened PathTerms
  import opened PathWorld
  import opened Query
  import opened TopK
  import opened TreeOrder
  import Ranked

  /** The records of a bitmap in `start .. end`. */
  ghost function BitsIn(m: seq<bv8>, start: nat, end: nat): (s: set<nat>)
    ensures forall r: nat :: r in s <==> start <= r < end && Bit(m, r)
  {
    set r | start <= r < end && Bit(m, r)
  }

  /** The bitmap marks the records at the covered positions. */
  ghost predicate Membership(m: seq<bv8>, runs: seq<Span>, ask: Ask, w: World)
    requires IsWorld(w)
  {
    FinalRuns(runs, ask, w) && BitsIn(m, 0, Size(w)) == RecordsAt(CoveredSet(runs, Size(w)), w)
  }

  /** Exactly the records of `done` are marked. */
  ghost predicate Marked(m: seq<bv8>, done: set<nat>) {
    forall r: nat :: Bit(m, r) <==> r in done
  }

  method MarkPositions(ar: Arena, ps: seq<nat>, matches: array<bv8>, cancel: Cancellation?, ghost w: World)
    returns (completed: bool)
    requires IsArena(ar, w) && IsWorld(w) && ArePositions(ps, w) && matches.Length == BytesFor(Size(w))
    requires Marked(matches[..], {})
    modifies Flag(cancel), matches
    ensures !completed ==> Superseded(cancel)
    ensures old(Superseded(cancel)) ==> Superseded(cancel)
    ensures completed ==> Marked(matches[..], RecordsOf(ps, w))
  {
    PrefixPositions(ps, w);
    hide IsArena, IsWorld, RecordsOf, ArePositions, Marked, BytesFor, CHECK_INTERVAL, WRAP;
    var checked := 0;
    for k := 0 to |ps|
      invariant old(Superseded(cancel)) ==> Superseded(cancel)
      invariant ArePositions(ps[..k], w) && Marked(matches[..], RecordsOf(ps[..k], w))
    {
      var stop;
      stop, checked := PollPeriodically(cancel, checked);
      if stop {
        return false;
      }
      MarkPosition(ar, ps, k, matches, w);
    }
    assert ps[..|ps|] == ps;
    completed := true;
  }

  /** path_record_bitmap: None means cancelled. */
  method PathRecordBitmap(ar: Arena, ghost ask: Ask, runs: seq<Span>, cancel: Cancellation?, ghost w: World)
    returns (r: Option<seq<bv8>>)
    requires IsArena(ar, w) && IsAsk(ask, w) && IsWorld(w) && FinalRuns(runs, ask, w)
    modifies Flag(cancel)
    ensures r.None? ==> Superseded(cancel)
    ensures old(Superseded(cancel)) ==> Superseded(cancel)
    ensures r.Some? ==> Membership(r.value, runs, ask, w)
  {
    ArenaParts(ar, w);
    RunsEnumerated(runs, ask, w);
    hide IsArena, IsAsk, IsIndex, IsWorld, FinalRuns, RecordsOf, ArePositions, Permutation, Marked;
    hide Positions, RecordsAt, CoveredSet, ChosenKeys, BaseHits, BytesFor;
    var superseded := Poll(cancel);
    if superseded {
      return None;
    }
    var matches := new bv8[BytesFor(ar.ix.nb.n)](_ => 0);
    ClearMarks(matches[..]);
    var completed := MarkPositions(ar, Positions(runs), matches, cancel, w);
    if !completed {
      return None;
    }
    superseded := Poll(cancel);
    if superseded {
      return None;
    }
    r := Some(matches[..]);
    MarkedAll(r.value, runs, ask, w);
  }

  lemma ClearMarks(m: seq<bv8>)
    requires forall i :: 0 <= i < |m| ==> m[i] == 0
    ensures Marked(m, {})
  {
  }

  method MarkPosition(ar: Arena, ps: seq<nat>, k: nat, matches: array<bv8>, ghost w: World)
    requires IsArena(ar, w) && IsWorld(w) && ArePositions(ps, w) && k < |ps| && matches.Length == BytesFor(Size(w))
    requires ArePositions(ps[..k], w) && Marked(matches[..], RecordsOf(ps[..k], w))
    modifies matches
    ensures ArePositions(ps[..k + 1], w) && Marked(matches[..], RecordsOf(ps[..k + 1], w))
  {
    ArenaParts(ar, w);
    RecordsStep(ps, k, w);
    PositionInside(ps, k, w);
    hide IsArena, IsWorld, IsIndex, RecordsOf, ArePositions, Permutation, Bit;
    var record := ar.l.records[ps[k]];
    assert record / 8 < matches.Length;
    SetBit(matches, record);
  }

  lemma MarkedAll(m: seq<bv8>, runs: seq<Span>, ask: Ask, w: World)
    requires IsWorld(w) && FinalRuns(runs, ask, w) && ArePositions(Positions(runs), w)
    requires Marked(m, RecordsOf(Positions(runs), w))
    requires RecordsOf(Positions(runs), w) == RecordsAt(CoveredSet(runs, Size(w)), w)
    ensures Membership(m, runs, ask, w)
  {
    hide IsForest, FinalRuns, Covers, RecordsOf;
    assert BitsIn(m, 0, Size(w)) == RecordsAt(CoveredSet(runs, Size(w)), w);
  }

  // ---- strategy two, dense: every bucket of the bitmap -------------------------------------

  /** The chosen records of one bucket: its four bytes of the bitmap. */
  function BucketBits(m: seq<bv8>, start: nat, end: nat): (s: set<nat>)
    ensures forall r: nat :: r in s <==> start <= r < end && Bit(m, r)
  {
    set r: nat | start <= r < end && Bit(m, r)
  }

  /** Where the walk stands before a bucket. */
  function StartOf(bucket: nat, n: nat): nat {
    if BUCKET_SIZE * bucket < n then BUCKET_SIZE * bucket else n
  }

  lemma BucketStarts(bucket: nat, n: nat)
    ensures bucket < Buckets(n) ==> StartOf(bucket, n) == BUCKET_SIZE * bucket < n
    ensures bucket < Buckets(n) ==> StartOf(bucket + 1, n) == if BUCKET_SIZE * bucket + BUCKET_SIZE < n then BUCKET_SIZE * bucket + BUCKET_SIZE else n
  {
  }

  lemma BucketEnds(n: nat)
    ensures StartOf(0, n) == 0 && StartOf(Buckets(n), n) == n
  {
  }

  method VisitBitmapBucket(ar: Arena, ask: Ask, m: seq<bv8>, bucket: nat, heap: BinaryHeap, ghost w: World)
    requires IsArena(ar, w) && IsAsk(ask, w) && bucket < Buckets(Size(w))
    requires Kept(ask, w, BitsIn(m, 0, StartOf(bucket, Size(w))), heap)
    modifies heap
    ensures Kept(ask, w, BitsIn(m, 0, StartOf(bucket + 1, Size(w))), heap)
  {
    ArenaParts(ar, w);
    IndexParts(ar.ix, w.names);
    BucketStarts(bucket, Size(w));
    hide IsArena, IsAsk, IsIndex, IsWorld, Codes, Kept, IsWalk, Bit, Buckets, Permutation, StartOf;
    var start := BUCKET_SIZE * bucket;
    ghost var end := StartOf(bucket + 1, Size(w));
    var chosen := BucketBits(m, start, start + BUCKET_SIZE);
    if chosen == {} {
      assert BitsIn(m, 0, end) == BitsIn(m, 0, start) by {
        forall r: nat | start <= r < end ensures !Bit(m, r) {
          assert r !in chosen;
        }
      }
      return;
    }
    var visits := WalkRange(ar.ix.nb, start, start + BUCKET_SIZE, w.names);
    ghost var after := VisitBucket(ask, visits, chosen, heap, w, start, end, BitsIn(m, 0, start));
    assert after == BitsIn(m, 0, end);
  }

  lemma NoBits(m: seq<bv8>)
    ensures BitsIn(m, 0, 0) == {}
  {
  }

  method VisitBuckets(ar: Arena, ask: Ask, m: seq<bv8>, heap: BinaryHeap, cancel: Cancellation?, ghost w: World)
    returns (completed: bool)
    requires IsArena(ar, w) && IsAsk(ask, w) && Kept(ask, w, BitsIn(m, 0, 0), heap)
    modifies Flag(cancel), heap
    ensures !completed ==> Superseded(cancel)
    ensures completed ==> Kept(ask, w, BitsIn(m, 0, Size(w)), heap)
  {
    ArenaParts(ar, w);
    BucketEnds(Size(w));
    hide IsArena, IsAsk, IsIndex, IsWorld, Kept, Permutation, BitsIn, Bit, Buckets, StartOf;
    for bucket := 0 to Buckets(ar.ix.nb.n)
      invariant Kept(ask, w, BitsIn(m, 0, StartOf(bucket, Size(w))), heap)
    {
      var superseded := Poll(cancel);
      if superseded {
        return false;
      }
      VisitBitmapBucket(ar, ask, m, bucket, heap, w);
    }
    completed := true;
  }

  /** visit_path_bitmap_names: polls before every bucket, empty ones included, and once more at the end. */
  method VisitBitmapNames(ar: Arena, ask: Ask, m: seq<bv8>, runs: seq<Span>, heap: BinaryHeap, cancel: Cancellation?, ghost w: World)
    returns (completed: bool)
    requires IsArena(ar, w) && IsAsk(ask, w) && IsWorld(w) && Membership(m, runs, ask, w) && heap.keys == multiset{}
    modifies Flag(cancel), heap
    ensures !completed ==> Superseded(cancel)
    ensures completed ==> BestHits(ask, w, heap)
  {
    StartsKept(ask, w, heap);
    NoBits(m);
    hide IsArena, IsAsk, IsWorld, Kept, Membership, BestHits, BitsIn, Bit;
    completed := VisitBuckets(ar, ask, m, heap, cancel, w);
    if completed {
      WholeBitmap(m, runs, ask, w, heap);
      var superseded := Poll(cancel);
      completed := !superseded;
    }
  }

  lemma WholeBitmap(m: seq<bv8>, runs: seq<Span>, ask: Ask, w: World, heap: BinaryHeap)
    requires IsAsk(ask, w) && IsWorld(w) && Membership(m, runs, ask, w) && Kept(ask, w, BitsIn(m, 0, Size(w)), heap)
    ensures BestHits(ask, w, heap)
  {
    RunsEnumerated(runs, ask, w);
    hide FinalRuns, IsAsk, IsWorld, IsBest;
  }

  // ---- strategy three: bucket-aligned shards -----------------------------------------------

  /** One worker's callback: the mask is kept while names repeat, selected or not. */
  method DenseVisits(ask: Ask, visits: seq<Visit>, m: seq<bv8>, heap: BinaryHeap, cancel: Cancellation?, ghost w: World,
                     ghost start: nat, ghost end: nat)
    returns (stopped: bool)
    requires IsAsk(ask, w) && start <= end <= Size(w) && IsWalk(w.names, start, end, visits)
    requires Kept(ask, w, {}, heap)
    modifies Flag(cancel), heap
    ensures stopped ==> Superseded(cancel)
    ensures old(Superseded(cancel)) ==> Superseded(cancel)
    ensures !stopped ==> Kept(ask, w, BitsIn(m, start, end), heap)
  {
    hide IsAsk, Kept, InBucket, MaskOf, Bit, CHECK_INTERVAL, WRAP;
    assert BitsIn(m, start, start) == {};
    var ownMask: Option<Mask>, checked := None, 0;
    for k := 0 to |visits|
      invariant old(Superseded(cancel)) ==> Superseded(cancel)
      invariant Kept(ask, w, BitsIn(m, start, start + k), heap)
      invariant k > 0 && ownMask.Some? ==> ownMask.value == MaskOf(ask.terms, w.names[start + k - 1])
    {
      var v := visits[k];
      if !v.repeated {
        ownMask := None;
      }
      stopped, checked := PollPeriodically(cancel, checked);
      if stopped {
        return;
      }
      BitsStep(m, start, start + k);
      if Bit(m, v.idx) {
        ownMask := VisitRecord(ask, v.idx, v.name, true, ownMask, heap, w, BitsIn(m, start, start + k));
      }
    }
    stopped := false;
  }

  lemma BitsStep(m: seq<bv8>, start: nat, k: nat)
    requires start <= k
    ensures k !in BitsIn(m, start, k)
    ensures BitsIn(m, start, k + 1) == if Bit(m, k) then BitsIn(m, start, k) + {k} else BitsIn(m, start, k)
  {
  }

  method DenseShard(ar: Arena, ask: Ask, m: seq<bv8>, shard: Shard, cancel: Cancellation?, ghost w: World)
    returns (keys: multiset<Key>)
    requires IsArena(ar, w) && IsAsk(ask, w) && shard.start < shard.end <= Size(w)
    modifies Flag(cancel)
    ensures old(Superseded(cancel)) ==> Superseded(cancel)
    ensures Superseded(cancel) || DenseKeys(ask, w, m, shard, keys)
  {
    ArenaParts(ar, w);
    IndexParts(ar.ix, w.names);
    hide IsArena, IsIndex, IsWorld, Codes, IsWalk, BitsIn, ChosenKeys, IsBest, Permutation;
    var heap := new BinaryHeap();
    StartsKept(ask, w, heap);
    var visits := WalkRange(ar.ix.nb, shard.start, shard.end, w.names);
    var stopped := DenseVisits(ask, visits, m, heap, cancel, w, shard.start, shard.end);
    keys := heap.keys;
  }

  ghost predicate DenseKeys(ask: Ask, w: World, m: seq<bv8>, shard: Shard, keys: multiset<Key>)
    requires IsAsk(ask, w)
  {
    Inside(BitsIn(m, shard.start, shard.end), w) &&
    IsBest(ChosenKeys(ask, w, BitsIn(m, shard.start, shard.end)), ask.limit, keys)
  }

  ghost predicate AllDenseKeys(ask: Ask, w: World, m: seq<bv8>, shards: seq<Shard>, heaps: seq<multiset<Key>>)
    requires IsAsk(ask, w)
  {
    |heaps| <= |shards| && forall s :: 0 <= s < |heaps| ==> DenseKeys(ask, w, m, shards[s], heaps[s])
  }

  method DenseShards(ar: Arena, ask: Ask, m: seq<bv8>, shards: seq<Shard>, cancel: Cancellation?, ghost w: World)
    returns (heaps: seq<multiset<Key>>)
    requires IsArena(ar, w) && IsAsk(ask, w) && forall s :: 0 <= s < |shards| ==> shards[s].start < shards[s].end <= Size(w)
    modifies Flag(cancel)
    ensures Superseded(cancel) || (|heaps| == |shards| && AllDenseKeys(ask, w, m, shards, heaps))
  {
    hide IsArena, IsAsk, DenseKeys;
    heaps := [];
    for s := 0 to |shards|
      invariant |heaps| == s
      invariant Superseded(cancel) || AllDenseKeys(ask, w, m, shards, heaps)
    {
      var keys := DenseShard(ar, ask, m, shards[s], cancel, w);
      heaps := heaps + [keys];
    }
  }

  method MergeDense(ask: Ask, m: seq<bv8>, shards: seq<Shard>, heaps: seq<multiset<Key>>, ghost w: World) returns (merged: BinaryHeap)
    requires IsAsk(ask, w) && IsPartition(shards, Size(w)) && |heaps| == |shards| && AllDenseKeys(ask, w, m, shards, heaps)
    ensures fresh(merged) && Kept(ask, w, BitsIn(m, 0, Size(w)), merged)
  {
    Ranked.PartitionParts(shards, Size(w));
    assert BitsIn(m, 0, 0) == {};
    hide IsAsk, IsPartition, BitsIn, ChosenKeys, IsBest;
    merged := new BinaryHeap();
    StartsKept(ask, w, merged);
    for s := 0 to |shards|
      invariant fresh(merged)
      invariant Kept(ask, w, BitsIn(m, 0, Ranked.StartOf(shards, s, Size(w))), merged)
    {
      assert DenseKeys(ask, w, m, shards[s], heaps[s]);
      SplitBits(m, shards[s].start, shards[s].end);
      ghost var before, part := BitsIn(m, 0, shards[s].start), BitsIn(m, shards[s].start, shards[s].end);
      ChosenParts(ask, w, before, part);
      MergeHeap(merged, heaps[s], ask.limit, ChosenKeys(ask, w, before), ChosenKeys(ask, w, part));
    }
  }

  lemma SplitBits(m: seq<bv8>, mid: nat, end: nat)
    requires mid <= end
    ensures BitsIn(m, 0, mid) !! BitsIn(m, mid, end)
    ensures BitsIn(m, 0, end) == BitsIn(m, 0, mid) + BitsIn(m, mid, end)
  {
    hide Bit;
  }

  /** retain_dense_path_hits_parallel: None means cancelled. */
  method RetainDenseParallel(ar: Arena, ask: Ask, runs: seq<Span>, threads: nat, cancel: Cancellation?, ghost w: World)
    returns (merged: Option<BinaryHeap>)
    requires IsArena(ar, w) && IsAsk(ask, w) && IsWorld(w) && FinalRuns(runs, ask, w)
    modifies Flag(cancel)
    ensures merged.None? ==> Superseded(cancel)
    ensures merged.Some? ==> fresh(merged.value) && BestHits(ask, w, merged.value)
  {
    ArenaParts(ar, w);
    hide IsArena, IsAsk, IsIndex, IsWorld, FinalRuns, Membership, Permutation, BestHits, AllDenseKeys, Kept;
    var matches := PathRecordBitmap(ar, ask, runs, cancel, w);
    if matches.None? {
      return None;
    }
    var shards := BucketShards(ar.ix.nb.n, threads);
    Ranked.PartitionParts(shards, Size(w));
    hide IsPartition;
    var heaps := DenseShards(ar, ask, matches.value, shards, cancel, w);
    var superseded := Poll(cancel);
    if superseded {
      return None;
    }
    var heap := MergeDense(ask, matches.value, shards, heaps, w);
    WholeBitmap(matches.value, runs, ask, w, heap);
    merged := Some(heap);
  }

  // ---- choosing a strategy -------------------------------------------------------------------

  /** visit_path_candidate_names: batches when staging record numbers beats a bit per record. */
  method VisitCandidateNames(ar: Arena, ask: Ask, runs: seq<Span>, heap: BinaryHeap, cancel: Cancellation?, ghost w: World)
    returns (completed: bool)
    requires IsArena(ar, w) && IsAsk(ask, w) && IsWorld(w) && FinalRuns(runs, ask, w) && heap.keys == multiset{}
    modifies Flag(cancel), heap
    ensures !completed ==> Superseded(cancel)
    ensures completed ==> BestHits(ask, w, heap)
  {
    ArenaParts(ar, w);
    hide IsArena, IsAsk, IsIndex, IsWorld, FinalRuns, Membership, Permutation, BestHits;
    if LenPositions(runs) <= ar.ix.nb.n / 32 {
      completed := EnumerateBatches(ar, ask, runs, heap, cancel, w);
    } else {
      var matches := PathRecordBitmap(ar, ask, runs, cancel, w);
      if matches.None? {
        return false;
      }
      completed := VisitBitmapNames(ar, ask, matches.value, runs, heap, cancel, w);
    }
  }

  /** Whichever strategy is picked, the heap ends with the best of the hits. */
  method Enumerate(ar: Arena, ask: Ask, runs: seq<Span>, threads: nat, cancel: Cancellation?, ghost w: World)
    returns (completed: bool, heap: BinaryHeap)
    requires IsArena(ar, w) && IsAsk(ask, w) && IsWorld(w) && FinalRuns(runs, ask, w)
    modifies Flag(cancel)
    ensures fresh(heap)
    ensures !completed ==> Superseded(cancel)
    ensures completed ==> BestHits(ask, w, heap)
  {
    ArenaParts(ar, w);
    hide IsArena, IsAsk, IsIndex, IsWorld, FinalRuns, Permutation, BestHits;
    heap := new BinaryHeap();
    if NeedsName(ask) && threads > 1 && LenPositions(runs) >= (ar.ix.nb.n + 3) / 4 {
      var merged := RetainDenseParallel(ar, ask, runs, threads, cancel, w);
      completed := merged.Some?;
      if merged.Some? {
        heap := merged.value;
      }
    } else if NeedsName(ask) && LenPositions(runs) > SPARSE_PATH_HITS {
      completed := VisitCandidateNames(ar, ask, runs, heap, cancel, w);
    } else {
      completed := EnumerateSparse(ar, ask, runs, heap, cancel, w);
    }
  }
}
