/** The ways of enumerating a final position set (view/path_search.rs). */
module PathEnumerate {
  import opened Records
  import opened Ascii
  import opened Bits
  import opened Cancel
  import opened Intervals
  import opened Names
  import opened PathRank
  import opened PathSeed
  import opened PathTerms
  import opened PathWorld
  import opened Query
  import opened TopK
  import opened TreeOrder
  import Ranked
  import Sorting

  const SPARSE_PATH_HITS: nat := 1024
  const PATH_RECORD_BATCH: nat := 4096

  /** The heap holds the best of what has been visited. */
  ghost predicate Kept(ask: Ask, w: World, done: set<nat>, heap: BinaryHeap)
    requires IsAsk(ask, w)
    reads heap
  {
    Inside(done, w) && IsBest(ChosenKeys(ask, w, done), ask.limit, heap.keys)
  }

  lemma StartsKept(ask: Ask, w: World, heap: BinaryHeap)
    requires IsAsk(ask, w) && heap.keys == multiset{}
    ensures Kept(ask, w, {}, heap)
  {
    NoneChosen(ask, w);
  }

  lemma AskParts(ask: Ask, w: World)
    requires IsAsk(ask, w)
    ensures IsWorld(w) && ask.tombs == w.tombs
    ensures forall r: nat :: ask.cols.mtime(r) < U32 && ask.cols.sizeKib(r) < U32
  {
    hide IsForest;
  }

  /** The visit callback: `before` is the mask of the last visited name, valid when `canReuse` says the name is the same. */
  method VisitRecord(ask: Ask, record: nat, name: Name, canReuse: bool, before: Option<Mask>, heap: BinaryHeap,
                     ghost w: World, ghost done: set<nat>)
    returns (ownMask: Option<Mask>)
    requires IsAsk(ask, w) && record < Size(w) && name == w.names[record] && record !in done
    requires canReuse && before.Some? ==> before.value == MaskOf(ask.terms, name)
    requires Kept(ask, w, done, heap)
    modifies heap
    ensures ownMask.Some? ==> ownMask.value == MaskOf(ask.terms, name)
    ensures Kept(ask, w, done + {record}, heap)
  {
    AskParts(ask, w);
    ChosenStep(ask, w, done, record);
    hide IsAsk, IsWorld, IsBest, ChosenKeys, MatchesFilter, MaskOf, SortKey;
    ghost var keys := ChosenKeys(ask, w, done);
    ownMask := if canReuse then before else None;
    if record !in ask.tombs && MatchesFilter(ask.cols, record, name, ask.filter) {
      if ownMask.None? {
        ownMask := Some(MaskOf(ask.terms, name));
      }
      var key := SortKey(ask.order, ask.cols, record, Missing(ask.terms, ownMask.value), |name|);
      RetainHit(heap, key, ask.limit, keys);
    } else {
      assert keys + multiset{} == keys;
    }
  }

  // ---- one bucket ----------------------------------------------------------------------

  /** The chosen records of a bucket, walked from `a` to `b`; unchosen repeats in between keep the mask usable. */
  method VisitBucket(ask: Ask, visits: seq<Visit>, chosen: set<nat>, heap: BinaryHeap, ghost w: World, ghost a: nat, ghost b: nat,
                     ghost done: set<nat>)
    returns (ghost after: set<nat>)
    requires IsAsk(ask, w) && a <= b <= Size(w) && IsWalk(w.names, a, b, visits)
    requires Kept(ask, w, done, heap) && forall r :: r in done ==> !(a <= r < b && r in chosen)
    modifies heap
    ensures Kept(ask, w, after, heap)
    ensures forall r: nat :: r in after <==> r in done || (a <= r < b && r in chosen)
  {
    hide IsAsk, Kept, InBucket, MaskOf;
    after := done;
    var ownMask: Option<Mask>, canReuse := None, false;
    for k := 0 to |visits|
      invariant Kept(ask, w, after, heap)
      invariant forall r: nat :: r in after <==> r in done || (a <= r < a + k && r in chosen)
      invariant k > 0 && canReuse && ownMask.Some? ==> ownMask.value == MaskOf(ask.terms, w.names[a + k - 1])
    {
      var v := visits[k];
      if !v.repeated {
        canReuse := false;
      }
      if v.idx in chosen {
        ownMask := VisitRecord(ask, v.idx, v.name, canReuse, ownMask, heap, w, after);
        after := after + {v.idx};
        canReuse := true;
      }
    }
  }

  // ---- batches -------------------------------------------------------------------------

  function NatLeq(): (nat, nat) -> bool {
    (a, b) => a <= b
  }

  lemma NatOrder()
    ensures Sorting.TotalOrder(NatLeq())
  {
  }

  ghost predicate Ascending(records: seq<nat>, n: nat) {
    && (forall i :: 0 <= i < |records| ==> records[i] < n)
    && forall i, j :: 0 <= i < j < |records| ==> records[i] < records[j]
  }

  /** The end of the records that share a bucket with `records[at]`. */
  method BucketStop(records: seq<nat>, at: nat, ghost n: nat) returns (next: nat)
    requires at < |records| && Ascending(records, n)
    ensures at < next <= |records|
    ensures forall i :: at <= i < |records| ==> (i < next <==> records[i] / BUCKET_SIZE == records[at] / BUCKET_SIZE)
  {
    var start := records[at] / BUCKET_SIZE * BUCKET_SIZE;
    next := at + 1;
    while next < |records| && records[next] - start < BUCKET_SIZE
      invariant at < next <= |records|
      invariant forall i :: at <= i < next ==> records[i] - start < BUCKET_SIZE
    {
      next := next + 1;
    }
    forall i | at <= i < |records| ensures i < next <==> records[i] / BUCKET_SIZE == records[at] / BUCKET_SIZE {
      SameBucket(records[at], records[i]);
      if i >= next {
        assert records[i] >= records[next];
      }
    }
  }

  lemma SameBucket(first: nat, r: nat)
    requires first <= r
    ensures r - first / BUCKET_SIZE * BUCKET_SIZE < BUCKET_SIZE <==> r / BUCKET_SIZE == first / BUCKET_SIZE
  {
  }

  function Members(records: seq<nat>): set<nat> {
    set r | r in records
  }

  lemma BucketFacts(records: seq<nat>, at: nat, next: nat, n: nat, done: set<nat>)
    requires at < next <= |records| && Ascending(records, n) && forall i :: at <= i < |records| ==> records[i] !in done
    ensures records[at] <= records[next - 1] < n
    ensures forall r :: r in Members(records[at..next]) ==> r !in done && records[at] <= r <= records[next - 1]
  {
    forall r | r in Members(records[at..next]) ensures r !in done && records[at] <= r <= records[next - 1] {
      var i :| 0 <= i < next - at && records[at..next][i] == r;
      assert records[at + i] == r;
      assert i > 0 ==> records[at] < records[at + i];
      assert at + i < next - 1 ==> records[at + i] < records[next - 1];
    }
  }

  /** The staged records that share the bucket of `records[at]`. */
  method VisitStagedBucket(ar: Arena, ask: Ask, records: seq<nat>, at: nat, heap: BinaryHeap, ghost w: World, ghost done: set<nat>)
    returns (next: nat, ghost after: set<nat>)
    requires IsArena(ar, w) && IsAsk(ask, w) && Kept(ask, w, done, heap)
    requires Ascending(records, Size(w)) && at < |records| && forall i :: at <= i < |records| ==> records[i] !in done
    modifies heap
    ensures at < next <= |records| && after == done + Members(records[at..next])
    ensures Kept(ask, w, after, heap)
  {
    ArenaParts(ar, w);
    IndexParts(ar.ix, w.names);
    hide IsArena, IsAsk, IsIndex, Codes, Kept, IsWalk, IsWorld, Permutation, Members;
    next := BucketStop(records, at, Size(w));
    BucketFacts(records, at, next, Size(w), done);
    hide Ascending;
    var first, last := records[at], records[next - 1];
    var visits := WalkRange(ar.ix.nb, first, last + 1, w.names);
    var chosen := Members(records[at..next]);
    after := VisitBucket(ask, visits, chosen, heap, w, first, last + 1, done);
    assert after == done + chosen;
  }

  lemma MembersSplit(records: seq<nat>, at: nat, next: nat, done: set<nat>)
    requires at <= next <= |records|
    ensures done + Members(records[..next]) == done + Members(records[..at]) + Members(records[at..next])
    ensures Members(records[..|records|]) == Members(records) && Members(records[..0]) == {}
  {
    assert records[..next] == records[..at] + records[at..next];
    assert records[..|records|] == records;
  }

  /** visit_path_record_batch: sorts the staged records and visits them bucket by bucket. */
  method VisitRecordBatch(ar: Arena, ask: Ask, staged: seq<nat>, heap: BinaryHeap, cancel: Cancellation?, ghost w: World, ghost done: set<nat>)
    returns (completed: bool, ghost after: set<nat>)
    requires IsArena(ar, w) && IsAsk(ask, w) && Kept(ask, w, done, heap) && Staged(staged, done, w)
    modifies Flag(cancel), heap
    ensures !completed ==> Superseded(cancel)
    ensures old(Superseded(cancel)) ==> Superseded(cancel)
    ensures completed ==> Kept(ask, w, after, heap) && after == done + Members(staged)
  {
    var records := SortStaged(staged, Size(w));
    MembersSplit(records, 0, 0, done);
    assert forall r :: r in records ==> r !in done by { SameMembers(records, staged); }
    hide IsArena, IsAsk, Kept, IsWorld, Members;
    after := done;
    var at := 0;
    while at < |records|
      invariant at <= |records|
      invariant old(Superseded(cancel)) ==> Superseded(cancel)
      invariant Kept(ask, w, after, heap) && after == done + Members(records[..at])
    {
      var superseded := Poll(cancel);
      if superseded {
        return false, after;
      }
      StillAhead(records, at, Size(w), done);
      ghost var from := at;
      at, after := VisitStagedBucket(ar, ask, records, at, heap, w, after);
      MembersSplit(records, from, at, done);
    }
    completed := true;
  }

  lemma SameMembers(records: seq<nat>, staged: seq<nat>)
    requires Members(records) == Members(staged)
    ensures forall r :: r in records ==> r in staged
  {
    forall r | r in records ensures r in staged {
      assert r in Members(records);
    }
  }

  /** sort_unstable on a batch, which has no duplicates. */
  method SortStaged(staged: seq<nat>, ghost n: nat) returns (records: seq<nat>)
    requires forall r :: r in staged ==> r < n
    ensures Ascending(records, n) && Members(records) == Members(staged)
  {
    NatOrder();
    records := Sorting.SortDedup(staged, NatLeq());
    SortedAscends(records, n);
  }

  lemma SortedAscends(records: seq<nat>, n: nat)
    requires Sorting.Increasing(records, NatLeq()) && forall r :: r in records ==> r < n
    ensures Ascending(records, n)
  {
    forall i | 0 <= i < |records| ensures records[i] < n {
      assert records[i] in records;
    }
    forall i, j | 0 <= i < j < |records| ensures records[i] < records[j] {
      assert NatLeq()(records[i], records[j]);
    }
  }

  lemma StillAhead(records: seq<nat>, at: nat, n: nat, done: set<nat>)
    requires at <= |records| && Ascending(records, n) && forall r :: r in records ==> r !in done
    ensures forall i :: at <= i < |records| ==> records[i] !in done + Members(records[..at])
  {
    forall i | at <= i < |records| ensures records[i] !in done + Members(records[..at]) {
      assert records[i] in records;
    }
  }

  // ---- positions -----------------------------------------------------------------------

  function Range(start: nat, end: nat): (r: seq<nat>)
    ensures |r| == (if start < end then end - start else 0)
    ensures forall i :: 0 <= i < |r| ==> r[i] == start + i
  {
    if start < end then seq(end - start, i requires 0 <= i => start + i) else []
  }

  /** iter_positions: the positions of the runs, in order. */
  function Positions(runs: seq<Span>): seq<nat> {
    if runs == [] then [] else Positions(runs[..|runs| - 1]) + Range(runs[|runs| - 1].start, runs[|runs| - 1].end)
  }

  lemma {:induction false} PositionsExact(runs: seq<Span>)
    requires Coalesced(runs)
    ensures forall q: nat :: q in Positions(runs) <==> Covers(runs, q)
    ensures forall i, j :: 0 <= i < j < |Positions(runs)| ==> Positions(runs)[i] < Positions(runs)[j]
    decreases |runs|
  {
    if runs != [] {
      var n := |runs| - 1;
      PositionsExact(runs[..n]);
      var before, last := Positions(runs[..n]), runs[n];
      RangeMembers(last.start, last.end);
      assert runs == runs[..n] + [last];
      LaterRun(runs[..n], last);
      hide Coalesced;
      forall q: nat ensures q in Positions(runs) <==> Covers(runs, q) {
        CoversAppend(runs[..n], [last], q);
        CoversOne(last, q);
      }
      hide Covers;
      forall i | 0 <= i < |before| ensures before[i] < last.start {
        assert before[i] in before;
      }
    }
  }

  lemma LaterRun(before: seq<Span>, last: Span)
    requires Coalesced(before + [last])
    ensures forall q: nat :: Covers(before, q) ==> q < last.start
  {
    forall q: nat | Covers(before, q) ensures q < last.start {
      var i :| 0 <= i < |before| && before[i].start <= q < before[i].end;
      assert (before + [last])[i] == before[i] && (before + [last])[|before|] == last;
    }
  }

  lemma RangeMembers(start: nat, end: nat)
    ensures forall q: nat :: q in Range(start, end) <==> start <= q < end
  {
    forall q: nat | start <= q < end ensures q in Range(start, end) {
      assert Range(start, end)[q - start] == q;
    }
  }

  /** Distinct positions of the index, and the records that stand there. */
  ghost predicate ArePositions(ps: seq<nat>, w: World) {
    && (forall i :: 0 <= i < |ps| ==> ps[i] < Size(w))
    && forall i, j :: 0 <= i < j < |ps| ==> ps[i] < ps[j]
  }

  ghost function RecordsOf(ps: seq<nat>, w: World): (s: set<nat>)
    requires IsWorld(w) && ArePositions(ps, w)
    ensures Inside(s, w)
  {
    set i | 0 <= i < |ps| :: w.l.records[ps[i]]
  }

  lemma RecordsStep(ps: seq<nat>, k: nat, w: World)
    requires IsWorld(w) && ArePositions(ps, w) && k < |ps|
    ensures w.l.records[ps[k]] < Size(w)
    ensures ArePositions(ps[..k], w) && ArePositions(ps[..k + 1], w)
    ensures w.l.records[ps[k]] !in RecordsOf(ps[..k], w)
    ensures RecordsOf(ps[..k + 1], w) == RecordsOf(ps[..k], w) + {w.l.records[ps[k]]}
  {
    hide Linked, Nested;
    var r := w.l.records[ps[k]];
    forall i | 0 <= i < k ensures w.l.records[ps[..k][i]] != r {
      assert w.l.positions[w.l.records[ps[i]]] == ps[i] && w.l.positions[r] == ps[k];
    }
    var more := ps[..k + 1];
    assert forall i :: 0 <= i < k ==> more[i] == ps[..k][i];
    assert more[k] == ps[k];
    forall x | x in RecordsOf(more, w) ensures x in RecordsOf(ps[..k], w) + {r} {
      var i :| 0 <= i < |more| && w.l.records[more[i]] == x;
    }
    forall x | x in RecordsOf(ps[..k], w) + {r} ensures x in RecordsOf(more, w) {
      if x == r {
        assert w.l.records[more[k]] == r;
      } else {
        var i :| 0 <= i < k && w.l.records[ps[..k][i]] == x;
        assert w.l.records[more[i]] == x;
      }
    }
  }

  /** The positions a coalesced list of runs covers. */
  ghost function CoveredSet(runs: seq<Span>, n: nat): set<nat> {
    set q | 0 <= q < n && Covers(runs, q)
  }

  /** A coalesced set that stays inside the index and is exact on live records. */
  ghost predicate FinalRuns(runs: seq<Span>, ask: Ask, w: World)
    requires IsWorld(w)
  {
    Coalesced(runs) && (forall q: nat :: Covers(runs, q) ==> q < Size(w)) && IsFinal(CoveredSet(runs, Size(w)), ask, w)
  }

  lemma RunsEnumerated(runs: seq<Span>, ask: Ask, w: World)
    requires IsAsk(ask, w) && IsWorld(w) && FinalRuns(runs, ask, w)
    ensures ArePositions(Positions(runs), w)
    ensures RecordsOf(Positions(runs), w) == RecordsAt(CoveredSet(runs, Size(w)), w)
    ensures ChosenKeys(ask, w, RecordsOf(Positions(runs), w)) == ChosenKeys(ask, w, BaseHits(ask, w))
  {
    hide Linked, Nested, PathHit, Coalesced, Covers;
    var ps := Positions(runs);
    PositionsExact(runs);
    forall i | 0 <= i < |ps| ensures ps[i] < Size(w) {
      assert ps[i] in ps;
    }
    forall r | r in RecordsOf(ps, w) ensures r in RecordsAt(CoveredSet(runs, Size(w)), w) {
      var i :| 0 <= i < |ps| && w.l.records[ps[i]] == r;
      assert ps[i] in ps;
    }
    forall r | r in RecordsAt(CoveredSet(runs, Size(w)), w) ensures r in RecordsOf(ps, w) {
      var i :| 0 <= i < |ps| && ps[i] == w.l.positions[r];
    }
    FinalKeys(CoveredSet(runs, Size(w)), ask, w);
  }

  /** What every strategy must leave in the heap. */
  ghost predicate BestHits(ask: Ask, w: World, heap: BinaryHeap)
    requires IsAsk(ask, w) && IsWorld(w)
    reads heap
  {
    IsBest(ChosenKeys(ask, w, BaseHits(ask, w)), ask.limit, heap.keys)
  }

  /** The heap after every position has been visited. */
  lemma AllVisited(runs: seq<Span>, ask: Ask, w: World, heap: BinaryHeap, done: set<nat>)
    requires IsAsk(ask, w) && IsWorld(w) && FinalRuns(runs, ask, w) && Kept(ask, w, done, heap)
    requires ArePositions(Positions(runs), w) && done == RecordsOf(Positions(runs), w)
    ensures BestHits(ask, w, heap)
  {
    hide FinalRuns, IsAsk, IsWorld, IsBest, ArePositions;
    RunsEnumerated(runs, ask, w);
  }

  // ---- strategy one: position by position ------------------------------------------------

  /** One position of a sparse set: the name is decoded on its own, and only when needed. */
  method VisitSparse(ar: Arena, ask: Ask, record: nat, heap: BinaryHeap, ghost w: World, ghost done: set<nat>)
    requires IsArena(ar, w) && IsAsk(ask, w) && record < Size(w) && record !in done && Kept(ask, w, done, heap)
    modifies heap
    ensures Kept(ask, w, done + {record}, heap)
  {
    ArenaParts(ar, w);
    IndexParts(ar.ix, w.names);
    AskParts(ask, w);
    ChosenStep(ask, w, done, record);
    hide IsArena, IsAsk, IsIndex, IsWorld, Codes, IsBest, ChosenKeys, MaskOf, Permutation;
    ghost var keys := ChosenKeys(ask, w, done);
    assert keys + multiset{} == keys;
    if record in ask.tombs {
      return;
    }
    var name: Name := [];
    if NeedsName(ask) {
      name := NameInto(ar.ix.nb, record, w.names);
    }
    assert MatchesFilter(ask.cols, record, name, ask.filter) <==> MatchesFilter(ask.cols, record, w.names[record], ask.filter);
    if !MatchesFilter(ask.cols, record, name, ask.filter) {
      return;
    }
    hide MatchesFilter;
    var quality, nameLen := 0, 0;
    if ask.order == Relevance {
      quality, nameLen := Missing(ask.terms, MaskOf(ask.terms, name)), |name|;
    }
    var key := SortKey(ask.order, ask.cols, record, quality, nameLen);
    RetainHit(heap, key, ask.limit, keys);
  }

  method VisitPosition(ar: Arena, ask: Ask, ps: seq<nat>, k: nat, heap: BinaryHeap, ghost w: World, ghost done: set<nat>)
    returns (ghost after: set<nat>)
    requires IsArena(ar, w) && IsAsk(ask, w) && IsWorld(w) && ArePositions(ps, w) && k < |ps|
    requires Kept(ask, w, done, heap) && ArePositions(ps[..k], w) && done == RecordsOf(ps[..k], w)
    modifies heap
    ensures ArePositions(ps[..k + 1], w) && after == RecordsOf(ps[..k + 1], w) && Kept(ask, w, after, heap)
  {
    ArenaParts(ar, w);
    hide IsArena, IsAsk, IsIndex, IsWorld, Kept, RecordsOf, ArePositions, Permutation;
    RecordsStep(ps, k, w);
    PositionInside(ps, k, w);
    var record := ar.l.records[ps[k]];
    VisitSparse(ar, ask, record, heap, w, done);
    after := done + {record};
  }

  method EnumerateSparse(ar: Arena, ask: Ask, runs: seq<Span>, heap: BinaryHeap, cancel: Cancellation?, ghost w: World)
    returns (completed: bool)
    requires IsArena(ar, w) && IsAsk(ask, w) && IsWorld(w) && FinalRuns(runs, ask, w) && heap.keys == multiset{}
    modifies Flag(cancel), heap
    ensures !completed ==> Superseded(cancel)
    ensures completed ==> BestHits(ask, w, heap)
  {
    ArenaParts(ar, w);
    RunsEnumerated(runs, ask, w);
    StartsKept(ask, w, heap);
    var ps := Positions(runs);
    PrefixPositions(ps, w);
    hide IsArena, IsAsk, IsIndex, IsWorld, Kept, FinalRuns, RecordsOf, ArePositions, Permutation, BestHits, CHECK_INTERVAL, WRAP;
    ghost var done: set<nat> := {};
    var checked := 0;
    for k := 0 to |ps|
      invariant Kept(ask, w, done, heap)
      invariant ArePositions(ps[..k], w) && done == RecordsOf(ps[..k], w)
    {
      var stop;
      stop, checked := PollPeriodically(cancel, checked);
      if stop {
        return false;
      }
      done := VisitPosition(ar, ask, ps, k, heap, w, done);
    }
    assert ps[..|ps|] == ps;
    AllVisited(runs, ask, w, heap, done);
    completed := true;
  }

  lemma PrefixPositions(ps: seq<nat>, w: World)
    requires IsWorld(w) && ArePositions(ps, w)
    ensures ArePositions(ps[..0], w) && RecordsOf(ps[..0], w) == {}
  {
  }

  lemma PositionInside(ps: seq<nat>, k: nat, w: World)
    requires ArePositions(ps, w) && IsWorld(w) && k < |ps|
    ensures ps[k] < Size(w) == |w.l.records| && w.l.records[ps[k]] < Size(w)
  {
  }

  // ---- strategy two: bounded batches in bucket order -------------------------------------

  /** The first `k` positions' records: those visited, and those staged. */
  ghost predicate Batching(records: seq<nat>, done: set<nat>, w: World, ps: seq<nat>, k: nat)
    requires IsWorld(w) && k <= |ps|
  {
    && Staged(records, done, w)
    && ArePositions(ps[..k], w) && done + Members(records) == RecordsOf(ps[..k], w)
  }

  /** Staged records are in the index and not yet visited. */
  ghost predicate Staged(records: seq<nat>, done: set<nat>, w: World) {
    forall r :: r in records ==> r < Size(w) && r !in done
  }

  lemma BatchingStarts(ps: seq<nat>, w: World)
    requires IsWorld(w) && ArePositions(ps, w)
    ensures Batching([], {}, w, ps, 0)
  {
    hide IsForest;
  }

  lemma BatchingStep(records: seq<nat>, done: set<nat>, w: World, ps: seq<nat>, k: nat)
    requires IsWorld(w) && k < |ps| && ArePositions(ps, w) && Batching(records, done, w, ps, k)
    ensures ps[k] < Size(w) == |w.l.records|
    ensures Batching(records + [w.l.records[ps[k]]], done, w, ps, k + 1)
  {
    PositionInside(ps, k, w);
    RecordsStep(ps, k, w);
    hide IsWorld, ArePositions, RecordsOf;
  }

  lemma BatchingFlush(records: seq<nat>, done: set<nat>, w: World, ps: seq<nat>, k: nat)
    requires IsWorld(w) && k <= |ps| && Batching(records, done, w, ps, k)
    ensures Batching([], done + Members(records), w, ps, k)
    ensures Staged(records, done, w)
    ensures k == |ps| ==> ArePositions(ps, w) && done + Members(records) == RecordsOf(ps, w)
  {
    hide IsForest, ArePositions, RecordsOf;
    assert ps[..|ps|] == ps;
  }

  method EnumerateBatches(ar: Arena, ask: Ask, runs: seq<Span>, heap: BinaryHeap, cancel: Cancellation?, ghost w: World)
    returns (completed: bool)
    requires IsArena(ar, w) && IsAsk(ask, w) && IsWorld(w) && FinalRuns(runs, ask, w) && heap.keys == multiset{}
    modifies Flag(cancel), heap
    ensures !completed ==> Superseded(cancel)
    ensures completed ==> BestHits(ask, w, heap)
  {
    ArenaParts(ar, w);
    RunsEnumerated(runs, ask, w);
    StartsKept(ask, w, heap);
    var ps := Positions(runs);
    BatchingStarts(ps, w);
    hide IsArena, IsAsk, IsIndex, IsWorld, Kept, FinalRuns, RecordsOf, ArePositions, Permutation, BestHits, CHECK_INTERVAL, WRAP;
    hide Batching, Members, Staged;
    ghost var done: set<nat> := {};
    var checked, records: seq<nat> := 0, [];
    for k := 0 to |ps|
      invariant Kept(ask, w, done, heap) && Batching(records, done, w, ps, k)
    {
      var stop;
      stop, checked := PollPeriodically(cancel, checked);
      if stop {
        return false;
      }
      completed, records, done := StageOne(ar, ask, ps, k, records, heap, cancel, w, done);
      if !completed {
        return;
      }
    }
    BatchingFlush(records, done, w, ps, |ps|);
    completed, done := VisitRecordBatch(ar, ask, records, heap, cancel, w, done);
    if completed {
      AllVisited(runs, ask, w, heap, done);
    }
  }

  /** Stages one record, and visits the batch when it is full. */
  method StageOne(ar: Arena, ask: Ask, ps: seq<nat>, k: nat, before: seq<nat>, heap: BinaryHeap, cancel: Cancellation?,
                  ghost w: World, ghost done: set<nat>)
    returns (completed: bool, records: seq<nat>, ghost after: set<nat>)
    requires IsArena(ar, w) && IsAsk(ask, w) && IsWorld(w) && ArePositions(ps, w) && k < |ps|
    requires Kept(ask, w, done, heap) && Batching(before, done, w, ps, k)
    modifies Flag(cancel), heap
    ensures !completed ==> Superseded(cancel)
    ensures completed ==> Kept(ask, w, after, heap) && Batching(records, after, w, ps, k + 1)
  {
    ArenaParts(ar, w);
    hide IsArena, IsAsk, IsIndex, IsWorld, Kept, RecordsOf, ArePositions, Permutation, Batching, Members, Staged;
    BatchingStep(before, done, w, ps, k);
    records := before + [ar.l.records[ps[k]]];
    after := done;
    completed := true;
    if |records| == PATH_RECORD_BATCH {
      BatchingFlush(records, done, w, ps, k + 1);
      completed, after := VisitRecordBatch(ar, ask, records, heap, cancel, w, done);
      records := [];
    }
  }
}
