/** The sweep that builds the set of a single short term (view/path_search.rs). */
module PathShort {
  import opened Records
  import opened Ascii
  import opened Bits
  import opened Cancel
  import opened Intervals
  import opened Names
  import opened PathTerms
  import opened PathWorld
  import opened Query
  import opened TopK
  import opened TreeOrder
  import Ranked

  // ---- own matches ---------------------------------------------------------------------

  /** Bit `j` says whether record `start + j` owns the term. */
  ghost predicate OwnBits(bits: seq<bv8>, w: World, term: Name, start: nat, end: nat) {
    forall j: nat :: Bit(bits, j) <==> start + j < end && Owns(w, term, start + j)
  }

  method MarkVisits(visits: seq<Visit>, tombs: set<nat>, term: Name, local: array<bv8>, start: nat, cancel: Cancellation?,
                    ghost w: World, ghost end: nat)
    returns (cancelled: bool)
    requires tombs == w.tombs && start <= end <= Size(w) && IsWalk(w.names, start, end, visits)
    requires local.Length == BytesFor(end - start) && OwnBits(local[..], w, term, start, start)
    modifies Flag(cancel), local
    ensures cancelled ==> Superseded(cancel)
    ensures old(Superseded(cancel)) ==> Superseded(cancel)
    ensures !cancelled ==> OwnBits(local[..], w, term, start, end)
  {
    hide Bit, Contains, InBucket, CHECK_INTERVAL, WRAP;
    cancelled := false;
    var checked, matched := 0, false;
    for k := 0 to |visits|
      invariant OwnBits(local[..], w, term, start, start + k)
      invariant k > 0 ==> matched == Contains(w.names[start + k - 1], term)
      invariant old(Superseded(cancel)) ==> Superseded(cancel)
    {
      var stop;
      stop, checked := PollPeriodically(cancel, checked);
      if stop {
        return true;
      }
      var v := visits[k];
      if !v.repeated {
        matched := ContainsCi(v.name, term);
      }
      if v.idx !in tombs && matched {
        assert (v.idx - start) / 8 < local.Length;
        SetBit(local, v.idx - start);
      }
    }
  }

  method OwnMatches(ar: Arena, tombs: set<nat>, term: Name, start: nat, end: nat, cancel: Cancellation?, ghost w: World)
    returns (local: seq<bv8>, cancelled: bool)
    requires IsArena(ar, w) && tombs == w.tombs && start < end <= Size(w)
    modifies Flag(cancel)
    ensures cancelled ==> Superseded(cancel)
    ensures old(Superseded(cancel)) ==> Superseded(cancel)
    ensures !cancelled ==> |local| == BytesFor(end - start) && OwnBits(local, w, term, start, end)
  {
    ArenaParts(ar, w);
    IndexParts(ar.ix, w.names);
    hide IsArena, IsWorld, IsIndex, Codes, IsWalk, Owns;
    var bits := new bv8[BytesFor(end - start)](_ => 0);
    ClearBits(bits[..], w, term, start);
    hide OwnBits;
    var visits := WalkRange(ar.ix.nb, start, end, w.names);
    cancelled := MarkVisits(visits, tombs, term, bits, start, cancel, w, end);
    local := bits[..];
  }

  lemma ClearBits(bits: seq<bv8>, w: World, term: Name, start: nat)
    requires forall i :: 0 <= i < |bits| ==> bits[i] == 0
    ensures OwnBits(bits, w, term, start, start)
  {
  }

  /** copy_from_slice of one shard's bitmap into the whole, at a byte boundary. */
  method CopyShard(own: array<bv8>, local: seq<bv8>, start: nat, ghost end: nat, ghost w: World, ghost term: Name)
    requires start % 8 == 0 && start < end <= Size(w) && |local| == BytesFor(end - start)
    requires own.Length == BytesFor(Size(w))
    requires OwnBits(own[..], w, term, 0, start) && OwnBits(local, w, term, start, end)
    modifies own
    ensures OwnBits(own[..], w, term, 0, end)
  {
    hide Owns, ByteBit;
    var startByte := start / 8;
    assert startByte + |local| <= own.Length;
    ghost var was := own[..];
    for i := 0 to |local|
      invariant forall k :: 0 <= k < own.Length ==>
        own[k] == if startByte <= k < startByte + i then local[k - startByte] else was[k]
    {
      own[startByte + i] := local[i];
    }
    forall j: nat ensures Bit(own[..], j) <==> j < end && Owns(w, term, j) {
      CopiedBit(own[..], was, local, startByte, j);
      if j >= start {
        assert Bit(local, j - start) <==> start + (j - start) < end && Owns(w, term, start + (j - start));
      }
      hide Bit;
      if j < start || j / 8 >= startByte + |local| {
        assert Bit(was, j) <==> j < start && Owns(w, term, j);
        assert j / 8 >= startByte + |local| ==> j >= end;
      }
    }
  }

  lemma CopiedBit(own: seq<bv8>, was: seq<bv8>, local: seq<bv8>, startByte: nat, j: nat)
    requires startByte + |local| <= |own| == |was|
    requires forall k :: 0 <= k < |own| ==> own[k] == if startByte <= k < startByte + |local| then local[k - startByte] else was[k]
    ensures Bit(own, j) <==> if 8 * startByte <= j && j / 8 < startByte + |local| then Bit(local, j - 8 * startByte) else Bit(was, j)
  {
    hide ByteBit;
    if 8 * startByte <= j {
      assert (j - 8 * startByte) / 8 == j / 8 - startByte && (j - 8 * startByte) % 8 == j % 8;
    } else {
      assert j / 8 < startByte;
    }
  }

  /** Every worker's bitmap marks its own shard. */
  ghost predicate LocalBits(locals: seq<seq<bv8>>, shards: seq<Shard>, w: World, term: Name) {
    |locals| <= |shards| && forall k :: 0 <= k < |locals| ==> LocalBit(locals[k], shards[k], w, term)
  }

  ghost predicate LocalBit(local: seq<bv8>, shard: Shard, w: World, term: Name) {
    && shard.start <= shard.end && |local| == BytesFor(shard.end - shard.start)
    && OwnBits(local, w, term, shard.start, shard.end)
  }

  method OwnMatchesShards(ar: Arena, tombs: set<nat>, term: Name, shards: seq<Shard>, cancel: Cancellation?, ghost w: World)
    returns (locals: seq<seq<bv8>>, cancelled: bool)
    requires IsArena(ar, w) && tombs == w.tombs && forall s :: 0 <= s < |shards| ==> shards[s].start < shards[s].end <= Size(w)
    modifies Flag(cancel)
    ensures cancelled ==> Superseded(cancel)
    ensures !cancelled ==> |locals| == |shards| && LocalBits(locals, shards, w, term)
  {
    hide IsArena, OwnBits;
    locals, cancelled := [], false;
    for s := 0 to |shards|
      invariant |locals| == s && (cancelled ==> Superseded(cancel))
      invariant !cancelled ==> LocalBits(locals, shards, w, term)
    {
      var local, stopped := OwnMatches(ar, tombs, term, shards[s].start, shards[s].end, cancel, w);
      locals := locals + [local];
      cancelled := cancelled || stopped;
    }
  }

  /** The workers' bitmaps, gathered once every worker has finished. */
  method OwnMatchesParallel(ar: Arena, tombs: set<nat>, term: Name, threads: nat, own: array<bv8>, cancel: Cancellation?, ghost w: World)
    returns (cancelled: bool)
    requires IsArena(ar, w) && tombs == w.tombs && own.Length == BytesFor(Size(w)) && Size(w) > 0
    requires OwnBits(own[..], w, term, 0, 0)
    modifies Flag(cancel), own
    ensures cancelled ==> Superseded(cancel)
    ensures !cancelled ==> OwnBits(own[..], w, term, 0, Size(w))
  {
    ArenaParts(ar, w);
    var shards := BucketShards(ar.ix.nb.n, threads);
    Ranked.PartitionParts(shards, Size(w));
    AlignedStarts(shards, Size(w));
    hide IsArena, IsWorld, IsIndex, IsPartition, OwnBits, Permutation, Owns;
    var locals;
    locals, cancelled := OwnMatchesShards(ar, tombs, term, shards, cancel, w);
    if cancelled {
      return;
    }
    for s := 0 to |shards|
      invariant OwnBits(own[..], w, term, 0, Ranked.StartOf(shards, s, Size(w)))
    {
      assert LocalBit(locals[s], shards[s], w, term);
      CopyShard(own, locals[s], shards[s].start, shards[s].end, w, term);
    }
  }

  lemma AlignedStarts(shards: seq<Shard>, n: nat)
    requires IsPartition(shards, n)
    ensures forall s :: 0 <= s < |shards| ==> shards[s].start % 8 == 0
  {
    forall s | 0 <= s < |shards| ensures shards[s].start % 8 == 0 {
      MultipleOfEight(shards[s].start);
    }
  }

  lemma MultipleOfEight(x: nat)
    requires x % BUCKET_SIZE == 0
    ensures x % 8 == 0
  {
    assert x == 8 * (4 * (x / 32));
  }

  // ---- the sweep -----------------------------------------------------------------------

  /** The furthest end among the owning directories at the first `p` positions. */
  ghost predicate InheritedEnd(w: World, term: Name, p: nat, end: nat)
    requires IsWorld(w)
  {
    && (forall a: nat | a < Size(w) && Owns(w, term, a) && IsDir(w, a) && w.l.positions[a] < p :: w.l.ends[a] <= end)
    && (end > 0 ==> exists a: nat | a < Size(w) :: Owns(w, term, a) && IsDir(w, a) && w.l.positions[a] < p && w.l.ends[a] == end)
  }

  lemma SweepStep(w: World, term: Name, p: nat, end: nat)
    requires IsWorld(w) && p < Size(w) && InheritedEnd(w, term, p, end)
    ensures w.l.records[p] < Size(w)
    ensures var r := w.l.records[p];
      var next := if Owns(w, term, r) && IsDir(w, r) && end < w.l.ends[r] then w.l.ends[r] else end;
      InheritedEnd(w, term, p + 1, next) && (TermAt(w, term, p) <==> Owns(w, term, r) || p < next)
  {
    hide Linked, Owns;
    var r := w.l.records[p];
    var next := if Owns(w, term, r) && IsDir(w, r) && end < w.l.ends[r] then w.l.ends[r] else end;
    forall a: nat | a < Size(w) && w.l.positions[a] == p ensures a == r {
    }
    if Owns(w, term, r) {
      assert SpanOf(w, r, p);
    }
    if p < next && !Owns(w, term, r) {
      var a: nat :| a < Size(w) && Owns(w, term, a) && IsDir(w, a) && w.l.positions[a] < p && w.l.ends[a] == end;
      assert SpanOf(w, a, p);
    }
  }

  /** Positions swept so far, in order. */
  ghost predicate Swept(runs: seq<Span>, w: World, term: Name, p: nat)
    requires IsWorld(w)
  {
    && (forall q: nat :: Covers(runs, q) <==> q < p && TermAt(w, term, q))
    && forall i :: 0 <= i < |runs| ==> runs[i].end <= p
  }

  method PushSwept(set': IntervalSet, position: nat, covered: bool, ghost term: Name, ghost w: World)
    requires IsWorld(w) && set'.Valid() && set'.coalescedLen == |set'.runs| && Swept(set'.runs, w, term, position)
    requires covered <==> TermAt(w, term, position)
    modifies set'
    ensures set'.Valid() && set'.coalescedLen == |set'.runs| && Swept(set'.runs, w, term, position + 1)
  {
    hide IsWorld, CoveredBy, Covers, Coalesced;
    if covered {
      set'.PushOrderedPoint(position);
    }
  }

  method Sweep(ar: Arena, own: seq<bv8>, set': IntervalSet, ghost term: Name, cancel: Cancellation?, ghost w: World)
    returns (completed: bool)
    requires IsArena(ar, w) && OwnBits(own, w, term, 0, Size(w)) && set'.Valid() && set'.runs == []
    modifies Flag(cancel), set'
    ensures set'.Valid()
    ensures !completed ==> Superseded(cancel)
    ensures completed ==> set'.coalescedLen == |set'.runs| && Denotes(set'.runs, w, term)
  {
    ArenaParts(ar, w);
    hide IsArena, IsIndex, Coalesced, Owns, CoveredBy, Bit, CHECK_INTERVAL, WRAP, IsForest;
    assert InheritedEnd(w, term, 0, 0) && Swept([], w, term, 0);
    hide IsWorld, InheritedEnd, SpanOf, Swept;
    var inheritedEnd: nat, checked := 0, 0;
    for position := 0 to ar.ix.nb.n
      invariant set'.Valid() && set'.coalescedLen == |set'.runs|
      invariant InheritedEnd(w, term, position, inheritedEnd) && Swept(set'.runs, w, term, position)
    {
      var stop;
      stop, checked := PollPeriodically(cancel, checked);
      if stop {
        return false;
      }
      SweepStep(w, term, position, inheritedEnd);
      var record := ar.l.records[position];
      var ownMatch := Bit(own, record);
      if ownMatch && WordIsDir(ar.parents[record]) && inheritedEnd < ar.l.ends[record] {
        inheritedEnd := ar.l.ends[record];
      }
      PushSwept(set', position, ownMatch || position < inheritedEnd, term, w);
    }
    SweptAll(set'.runs, w, term);
    completed := true;
  }

  lemma SweptAll(runs: seq<Span>, w: World, term: Name)
    requires IsWorld(w) && Swept(runs, w, term, Size(w))
    ensures Denotes(runs, w, term)
  {
    hide IsForest, Covers, CoveredBy;
    forall p: nat | TermAt(w, term, p) ensures p < Size(w) {
      CoverageInside(w, term, p);
    }
  }

  /** build_short_single_term_set. */
  method BuildShortSingleTermSet(ar: Arena, tombs: set<nat>, term: Name, set': IntervalSet, threads: nat,
                                 cancel: Cancellation?, ghost w: World)
    returns (completed: bool)
    requires IsArena(ar, w) && tombs == w.tombs && set'.Valid() && set'.runs == []
    modifies Flag(cancel), set'
    ensures set'.Valid()
    ensures !completed ==> Superseded(cancel)
    ensures completed ==> set'.coalescedLen == |set'.runs| && Denotes(set'.runs, w, term)
  {
    ArenaParts(ar, w);
    IndexParts(ar.ix, w.names);
    hide IsArena, IsWorld, IsIndex, Codes, IsWalk, Owns, Coalesced, Permutation;
    var n := ar.ix.nb.n;
    var own := new bv8[BytesFor(n)](_ => 0);
    ClearBits(own[..], w, term, 0);
    hide OwnBits;
    var cancelled;
    if threads <= 1 || n < BUCKET_SIZE * 2 {
      var visits := WalkAll(ar.ix.nb, w.names);
      cancelled := MarkVisits(visits, tombs, term, own, 0, cancel, w, Size(w));
    } else {
      cancelled := OwnMatchesParallel(ar, tombs, term, threads, own, cancel, w);
    }
    if cancelled {
      return false;
    }
    var superseded := Poll(cancel);
    if superseded {
      return false;
    }
    completed := Sweep(ar, own[..], set', term, cancel, w);
  }
}
