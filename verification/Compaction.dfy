/** Merging a delta into its base: streams, slot formulas and parent patching (view/compaction.rs, arena/spooled.rs). */
module Compaction {
  import opened Records
  import opened Ascii
  import opened Bits
  import opened CompactOrder
  import opened DeltaState
  import opened Names
  import Counting
  import RankSelect
  import TreeOrder

  const U32: nat := 0x1_0000_0000

  /** The base columns compaction reads; sizes are in KiB. */
  datatype BaseColumns = BaseColumns(nb: NameBlob, parents: seq<Word>, mtimes: seq<nat>, sizes: seq<nat>, exact: seq<bool>)

  /** Everything a compaction works on: the base, the tombstone bytes, the additions and their live indices in name order. */
  datatype Job = Job(base: BaseColumns, bits: seq<bv8>, added: seq<DeltaRecord>, order: seq<nat>)

  ghost predicate IsBase(base: BaseColumns, names: seq<Name>) {
    && Codes(base.nb, names) && Sorted(names)
    && |base.parents| == |base.mtimes| == |base.sizes| == |base.exact| == |names| < PARENT_NONE
    && (forall i :: 0 <= i < |names| ==> UnpackParent(base.parents[i]) == PARENT_NONE || UnpackParent(base.parents[i]) < |names|)
    && (forall i :: 0 <= i < |names| ==> base.sizes[i] < U32)
  }

  /** The live additions, each once, sorted by name; ties may stand in any order. */
  ghost predicate IsLiveOrder(order: seq<nat>, added: seq<DeltaRecord>) {
    && (forall k :: 0 <= k < |order| ==> order[k] < |added| && added[order[k]].live)
    && (forall j :: 0 <= j < |added| && added[j].live ==> j in order)
    && (forall k, l :: 0 <= k < l < |order| ==> order[k] != order[l])
    && (forall k, l :: 0 <= k < l < |order| ==> Leq(added[order[k]].name, added[order[l]].name))
  }

  /** Additions as a reachable delta leaves them. */
  ghost predicate AddedFit(added: seq<DeltaRecord>, n: nat) {
    forall j :: 0 <= j < |added| ==>
      (added[j].parent.AtBase? ==> added[j].parent.index < n) && (added[j].parent.AtDelta? ==> added[j].parent.index < |added|)
  }

  ghost predicate IsJob(job: Job, names: seq<Name>) {
    IsBase(job.base, names) && IsLiveOrder(job.order, job.added) && AddedFit(job.added, |names|)
  }

  ghost function DeltaNames(job: Job): (d: seq<Name>)
    requires forall k :: 0 <= k < |job.order| ==> job.order[k] < |job.added|
    ensures |d| == |job.order| && forall k :: 0 <= k < |d| ==> d[k] == job.added[job.order[k]].name
  {
    seq(|job.order|, k requires 0 <= k < |job.order| => job.added[job.order[k]].name)
  }

  /** The merge this job describes. */
  ghost function MergeOf(job: Job, names: seq<Name>): (v: Merge)
    requires IsJob(job, names)
    ensures IsMerge(v) && v.base == names && |v.delta| == |job.order|
    ensures forall k :: 0 <= k < |v.delta| ==> v.delta[k] == job.added[job.order[k]].name
  {
    var v := Merge(names, job.bits, DeltaNames(job));
    SortedDelta(job, names, v.delta);
    v
  }

  lemma SortedDelta(job: Job, names: seq<Name>, delta: seq<Name>)
    requires IsJob(job, names) && |delta| == |job.order|
    requires forall k :: 0 <= k < |delta| ==> delta[k] == job.added[job.order[k]].name
    ensures Sorted(delta)
  {
    hide CmpCi, Codes, AddedFit;
    forall k, l | 0 <= k <= l < |delta| ensures Leq(delta[k], delta[l]) {
      if k == l {
        SelfLeq(delta[k]);
      }
    }
  }

  lemma JobParts(job: Job, names: seq<Name>)
    requires IsJob(job, names)
    ensures Codes(job.base.nb, names) && Sorted(names) && job.base.nb.n == |names| < PARENT_NONE
    ensures |job.base.parents| == |job.base.mtimes| == |job.base.sizes| == |job.base.exact| == |names|
    ensures forall k :: 0 <= k < |job.order| ==> job.order[k] < |job.added| && job.added[job.order[k]].live
  {
  }

  // ---- sorting the live additions --------------------------------------------------------

  function InsertByName(order: seq<nat>, j: nat, names: nat -> Name): seq<nat> {
    if order == [] || CmpCi(names(j), names(order[0])) == Less then [j] + order
    else [order[0]] + InsertByName(order[1..], j, names)
  }

  function AddedName(added: seq<DeltaRecord>): nat -> Name {
    (j: nat) => if j < |added| then added[j].name else []
  }

  ghost predicate ByName(order: seq<nat>, names: nat -> Name) {
    && (forall k, l :: 0 <= k < l < |order| ==> order[k] != order[l])
    && (forall k, l :: 0 <= k < l < |order| ==> Leq(names(order[k]), names(order[l])))
  }

  lemma {:induction false} InsertByNameKeeps(order: seq<nat>, j: nat, names: nat -> Name)
    requires ByName(order, names) && j !in order
    ensures forall x :: x in InsertByName(order, j, names) <==> x in order || x == j
    ensures ByName(InsertByName(order, j, names), names)
  {
    hide CmpCi;
    if order != [] {
      assert order == [order[0]] + order[1..];
      if CmpCi(names(j), names(order[0])) == Less {
        forall l | 0 <= l < |order| ensures Leq(names(j), names(order[l])) {
          if l > 0 {
            LeqTransitive(names(j), names(order[0]), names(order[l]));
          }
        }
      } else {
        InsertByNameKeeps(order[1..], j, names);
        var rest := InsertByName(order[1..], j, names);
        CmpFlips(names(j), names(order[0]));
        CmpFlips(names(order[0]), names(j));
        forall l | 0 <= l < |rest| ensures order[0] != rest[l] && Leq(names(order[0]), names(rest[l])) {
          assert rest[l] in rest;
          if rest[l] != j {
            var m :| 0 <= m < |order[1..]| && order[1..][m] == rest[l];
            assert order[m + 1] == rest[l];
          }
        }
      }
    }
  }

  /** delta_sorted. */
  method SortLive(added: seq<DeltaRecord>) returns (order: seq<nat>)
    ensures IsLiveOrder(order, added)
  {
    hide CmpCi, InsertByName;
    order := [];
    for j := 0 to |added|
      invariant ByName(order, AddedName(added))
      invariant forall x: nat :: x in order <==> x < j && added[x].live
    {
      if added[j].live {
        InsertByNameKeeps(order, j, AddedName(added));
        order := InsertByName(order, j, AddedName(added));
      }
    }
    forall k | 0 <= k < |order| ensures order[k] < |added| && added[order[k]].live {
      assert order[k] in order;
    }
    forall k, l | 0 <= k < l < |order| ensures Leq(added[order[k]].name, added[order[l]].name) {
      assert Leq(AddedName(added)(order[k]), AddedName(added)(order[l]));
    }
  }

  /** delta_rank: the place of each live addition in the sorted list. */
  method Ranks(order: seq<nat>, n: nat) returns (rank: seq<nat>)
    requires (forall k :: 0 <= k < |order| ==> order[k] < n) && forall k, l :: 0 <= k < l < |order| ==> order[k] != order[l]
    ensures |rank| == n && forall k :: 0 <= k < |order| ==> rank[order[k]] == k
  {
    var ranks := new nat[n](_ => 0);
    for k := 0 to |order|
      invariant forall l :: 0 <= l < k ==> ranks[order[l]] == l
    {
      ranks[order[k]] := k;
    }
    rank := ranks[..];
  }

  // ---- the formulas ----------------------------------------------------------------------

  /** partition_point over the sorted additions. */
  method DeltaBeforeCount(job: Job, name: Name, ghost names: seq<Name>) returns (count: nat)
    requires IsJob(job, names)
    ensures count == LowerBound(MergeOf(job, names).delta, name)
  {
    hide IsJob, CmpCi, LowerBound, Sorted;
    JobParts(job, names);
    ghost var delta := MergeOf(job, names).delta;
    LowerExact(delta, name);
    var lo, hi := 0, |job.order|;
    while lo < hi
      invariant lo <= hi <= |job.order|
      invariant forall k :: 0 <= k < lo ==> Below(delta[k], name)
      invariant forall k :: hi <= k < |job.order| ==> !Below(delta[k], name)
    {
      var mid := lo + (hi - lo) / 2;
      if CmpCi(job.added[job.order[mid]].name, name) == Less {
        lo := mid + 1;
      } else {
        hi := mid;
      }
    }
    LowerIs(delta, name, lo);
    count := lo;
  }

  /** final_index_of_base: None for a tombstoned record. */
  method FinalIndexOfBase(job: Job, samples: seq<nat>, i: nat, ghost names: seq<Name>) returns (slot: Option<nat>)
    requires IsJob(job, names) && RankSelect.IsSampled(job.bits, samples) && i < |names|
    ensures slot == if Live(MergeOf(job, names), i) then Some(SlotOfBase(MergeOf(job, names), i)) else None
  {
    hide IsJob, Codes, RankSelect.IsSampled, Sorted, LowerBound, Bit, CmpCi;
    JobParts(job, names);
    if Bit(job.bits, i) {
      return None;
    }
    var tombs := RankSelect.Rank1(job.bits, samples, i);
    OnesAtMost(job.bits, i);
    var name := NameInto(job.base.nb, i, names);
    var before := DeltaBeforeCount(job, name, names);
    return Some(i - tombs + before);
  }

  /** final_index_of_delta, for the addition of rank `k`. */
  method FinalIndexOfDelta(job: Job, samples: seq<nat>, rank: seq<nat>, j: nat, ghost names: seq<Name>, ghost k: nat) returns (slot: nat)
    requires IsJob(job, names) && RankSelect.IsSampled(job.bits, samples)
    requires k < |job.order| && job.order[k] == j < |rank| && rank[j] == k && j < |job.added|
    ensures slot == FormulaOfDelta(MergeOf(job, names), k)
  {
    hide IsJob, Codes, RankSelect.IsSampled, Sorted, LowerBound, CmpCi;
    JobParts(job, names);
    var target := job.added[j].name;
    var boundary := LowerBoundName(job.base.nb, target, names);
    LowerIs(names, target, boundary);
    var tombs := RankSelect.Rank1(job.bits, samples, boundary);
    OnesAtMost(job.bits, boundary);
    slot := boundary - tombs + rank[j];
  }

  // ---- the builder -----------------------------------------------------------------------

  /** Bytes to KiB, rounding up and saturating. */
  function BytesToSizeKib(bytes: nat): nat {
    if (bytes + 1023) / 1024 < U32 then (bytes + 1023) / 1024 else U32 - 1
  }

  /** The fewest whole KiB that hold the bytes, or the most a column holds. */
  ghost predicate IsKibOf(kib: nat, bytes: nat) {
    && kib < U32
    && (bytes <= kib * 1024 || kib == U32 - 1)
    && (kib > 0 ==> (kib - 1) * 1024 < bytes)
  }

  lemma TheoremKib(bytes: nat)
    ensures IsKibOf(BytesToSizeKib(bytes), bytes)
    ensures forall kib: nat :: IsKibOf(kib, bytes) ==> kib == BytesToSizeKib(bytes)
  {
    var exact := (bytes + 1023) / 1024;
    assert bytes <= exact * 1024 && (exact > 0 ==> (exact - 1) * 1024 < bytes);
    forall kib: nat | IsKibOf(kib, bytes) ensures kib == BytesToSizeKib(bytes) {
      if kib < U32 - 1 {
        assert kib <= exact && exact <= kib;
      }
    }
  }

  /** What a record carries besides its parent. */
  datatype Row = Row(name: Name, mtime: nat, isDir: bool, sizeKib: nat, exact: bool)

  class SpooledArenaBuilder {
    var names: seq<Name>
    var parents: seq<Word>
    var mtimes: seq<nat>
    var sizes: seq<nat>
    var exact: seq<bool>

    constructor ()
      ensures names == [] && parents == [] && mtimes == [] && sizes == [] && exact == []
    {
      names, parents, mtimes, sizes, exact := [], [], [], [], [];
    }

    /** Appends a record in final order; its index is the push count. */
    method Push(name: Name, mtimeSecs: nat, isDir: bool, sizeBytes: nat, sizeExact: bool, rawParent: nat) returns (idx: nat)
      requires rawParent <= PARENT_NONE
      modifies this
      ensures idx == |old(parents)|
      ensures names == old(names) + [name] && parents == old(parents) + [PackParent(rawParent, isDir)]
      ensures mtimes == old(mtimes) + [mtimeSecs] && sizes == old(sizes) + [BytesToSizeKib(sizeBytes)]
      ensures exact == old(exact) + [sizeExact]
    {
      idx := |parents|;
      names := names + [name];
      parents := parents + [PackParent(rawParent, isDir)];
      mtimes := mtimes + [mtimeSecs];
      sizes := sizes + [BytesToSizeKib(sizeBytes)];
      exact := exact + [sizeExact];
    }

    /** Overwrites a parent; the directory flag stays. */
    method PatchParent(idx: nat, finalParent: nat)
      requires idx < |parents| && finalParent <= PARENT_NONE
      modifies this`parents
      ensures parents == old(parents)[idx := PackParent(finalParent, WordIsDir(old(parents)[idx]))]
    {
      var isDir := WordIsDir(parents[idx]);
      parents := parents[idx := PackParent(finalParent, isDir)];
    }
  }

  // ---- what the output means -------------------------------------------------------------

  function BaseRow(base: BaseColumns, name: Name, i: nat): Row
    requires i < |base.parents| && i < |base.mtimes| && i < |base.sizes| && i < |base.exact|
  {
    Row(name, base.mtimes[i], WordIsDir(base.parents[i]), base.sizes[i], base.exact[i])
  }

  function DeltaRow(r: DeltaRecord): Row {
    Row(r.name, r.meta.mtimeSecs, r.meta.isDir, BytesToSizeKib(r.meta.sizeBytes), r.meta.sizeExact)
  }

  ghost function RowOf(job: Job, names: seq<Name>, source: Source): Row
    requires IsJob(job, names)
    requires source.FromBase? ==> source.i < |names|
    requires source.FromDelta? ==> source.k < |job.order|
  {
    JobParts(job, names);
    match source
    case FromBase(i) => BaseRow(job.base, names[i], i)
    case FromDelta(k) => DeltaRow(job.added[job.order[k]])
  }

  ghost predicate InJob(job: Job, names: seq<Name>, m: seq<Source>) {
    forall s :: 0 <= s < |m| ==>
      (m[s].FromBase? ==> m[s].i < |names|) && (m[s].FromDelta? ==> m[s].k < |job.order|)
  }

  /** The builder holds the rows of `m`, in order. */
  ghost predicate Holds(b: SpooledArenaBuilder, job: Job, names: seq<Name>, m: seq<Source>)
    requires IsJob(job, names) && InJob(job, names, m)
    reads b
  {
    && |b.names| == |b.parents| == |b.mtimes| == |b.sizes| == |b.exact| == |m|
    && forall s :: 0 <= s < |m| ==>
      Row(b.names[s], b.mtimes[s], WordIsDir(b.parents[s]), b.sizes[s], b.exact[s]) == RowOf(job, names, m[s])
  }

  /** No parent has been patched yet. */
  ghost predicate Unpatched(b: SpooledArenaBuilder)
    reads b
  {
    forall s :: 0 <= s < |b.parents| ==> UnpackParent(b.parents[s]) == PARENT_NONE
  }

  lemma KibRoundTrip(kib: nat)
    requires kib < U32
    ensures BytesToSizeKib(kib * 1024) == kib
  {
    assert (kib * 1024 + 1023) / 1024 == kib;
  }

  lemma PackUnpack(parent: nat, isDir: bool)
    requires parent <= PARENT_NONE
    ensures UnpackParent(PackParent(parent, isDir)) == parent && WordIsDir(PackParent(parent, isDir)) == isDir
  {
  }

  // ---- the merge loop --------------------------------------------------------------------

  /** Moves past tombstoned base records. */
  method SkipTombstones(job: Job, start: nat, ghost names: seq<Name>, ghost m: seq<Source>, ghost d: nat) returns (next: nat)
    requires IsJob(job, names)
    requires Merging(MergeOf(job, names), m, start, d) && Split(MergeOf(job, names), start, d)
    ensures start <= next <= |names| && (next < |names| ==> Live(MergeOf(job, names), next))
    ensures Merging(MergeOf(job, names), m, next, d) && Split(MergeOf(job, names), next, d)
  {
    hide IsJob, Merging, Split, Bit, Codes, Sorted;
    JobParts(job, names);
    next := start;
    MergingInside(MergeOf(job, names), m, next, d);
    while next < job.base.nb.n && Bit(job.bits, next)
      invariant start <= next <= |names|
      invariant Merging(MergeOf(job, names), m, next, d) && Split(MergeOf(job, names), next, d)
    {
      SkipTombstone(MergeOf(job, names), m, next, d);
      next := next + 1;
    }
  }

  lemma MergingInside(v: Merge, m: seq<Source>, b: nat, d: nat)
    requires Merging(v, m, b, d)
    ensures b <= |v.base| && d <= |v.delta|
  {
  }

  ghost predicate Streaming(b: SpooledArenaBuilder, job: Job, names: seq<Name>, m: seq<Source>)
    requires IsJob(job, names)
    reads b
  {
    InJob(job, names, m) && Holds(b, job, names, m) && Unpatched(b)
  }

  method PushBase(b: SpooledArenaBuilder, job: Job, i: nat, name: Name, ghost names: seq<Name>, ghost m: seq<Source>)
    requires IsJob(job, names) && i < |names| && name == names[i] && Streaming(b, job, names, m)
    modifies b
    ensures Streaming(b, job, names, m + [FromBase(i)])
  {
    hide Codes, Sorted, IsLiveOrder, AddedFit, BytesToSizeKib, PackParent;
    KibRoundTrip(job.base.sizes[i]);
    PackUnpack(PARENT_NONE, WordIsDir(job.base.parents[i]));
    hide UnpackParent, WordIsDir;
    var idx := b.Push(name, job.base.mtimes[i], WordIsDir(job.base.parents[i]), job.base.sizes[i] * 1024, job.base.exact[i], PARENT_NONE);
  }

  method PushDelta(b: SpooledArenaBuilder, job: Job, k: nat, ghost names: seq<Name>, ghost m: seq<Source>)
    requires IsJob(job, names) && k < |job.order| && job.order[k] < |job.added| && Streaming(b, job, names, m)
    modifies b
    ensures Streaming(b, job, names, m + [FromDelta(k)])
  {
    hide IsJob, BytesToSizeKib, PackParent, UnpackParent, WordIsDir;
    var record := job.added[job.order[k]];
    PackUnpack(PARENT_NONE, record.meta.isDir);
    var idx := b.Push(record.name, record.meta.mtimeSecs, record.meta.isDir, record.meta.sizeBytes, record.meta.sizeExact, PARENT_NONE);
  }

  lemma StartsStreaming(b: SpooledArenaBuilder, job: Job, names: seq<Name>)
    requires IsJob(job, names) && b.names == [] && b.parents == [] && b.mtimes == [] && b.sizes == [] && b.exact == []
    ensures Streaming(b, job, names, [])
  {
    hide IsJob;
  }

  /** The two-way merge: base first on equal names. */
  method MergeStreams(job: Job, b: SpooledArenaBuilder, ghost names: seq<Name>) returns (ghost m: seq<Source>)
    requires IsJob(job, names)
    requires b.names == [] && b.parents == [] && b.mtimes == [] && b.sizes == [] && b.exact == []
    modifies b
    ensures IsMerged(MergeOf(job, names), m) && Streaming(b, job, names, m)
  {
    hide IsJob, Merging, Split, IsMerged, Streaming, Codes, Sorted, CmpCi, Bit;
    JobParts(job, names);
    ghost var v := MergeOf(job, names);
    m := [];
    MergeStarts(v);
    StartsStreaming(b, job, names);
    var deltaI: nat := 0;
    var baseOld := SkipTombstones(job, 0, names, m, 0);
    while baseOld < job.base.nb.n || deltaI < |job.order|
      invariant baseOld <= |names| && deltaI <= |job.order|
      invariant baseOld < |names| ==> Live(v, baseOld)
      invariant Merging(v, m, baseOld, deltaI) && Split(v, baseOld, deltaI)
      invariant Streaming(b, job, names, m)
      decreases |names| - baseOld + |job.order| - deltaI
    {
      var baseName: Name := [];
      if baseOld < job.base.nb.n {
        baseName := NameInto(job.base.nb, baseOld, names);
      }
      var takeBase := baseOld < job.base.nb.n;
      if takeBase && deltaI < |job.order| {
        takeBase := CmpCi(baseName, job.added[job.order[deltaI]].name) != Greater;
      }
      if takeBase {
        PushBase(b, job, baseOld, baseName, names, m);
        TakeBase(v, m, baseOld, deltaI);
        m := m + [FromBase(baseOld)];
        baseOld := SkipTombstones(job, baseOld + 1, names, m, deltaI);
      } else {
        PushDelta(b, job, deltaI, names, m);
        TakeDelta(v, m, baseOld, deltaI);
        m := m + [FromDelta(deltaI)];
        deltaI := deltaI + 1;
      }
    }
    MergeDone(v, m);
  }

  // ---- parents ---------------------------------------------------------------------------

  ghost predicate IsRank(rank: seq<nat>, job: Job) {
    |rank| == |job.added| && forall k :: 0 <= k < |job.order| ==> job.order[k] < |rank| && rank[job.order[k]] == k
  }

  /** Where a base record's parent stands in the output, or none. */
  ghost function BaseTarget(job: Job, names: seq<Name>, i: nat): nat
    requires IsJob(job, names) && i < |names|
  {
    JobParts(job, names);
    TargetInBase(job, names, UnpackParent(job.base.parents[i]))
  }

  /** The slot of a live base record; a tombstoned one leaves its children without a parent. */
  ghost function TargetInBase(job: Job, names: seq<Name>, p: nat): nat
    requires IsJob(job, names)
  {
    if p < |names| && Live(MergeOf(job, names), p) then SlotOfBase(MergeOf(job, names), p) else PARENT_NONE
  }

  /** Where an addition's parent stands. */
  ghost function DeltaTarget(job: Job, names: seq<Name>, rank: seq<nat>, k: nat): nat
    requires IsJob(job, names) && IsRank(rank, job) && k < |job.order|
  {
    JobParts(job, names);
    match job.added[job.order[k]].parent
    case AtBase(p) => TargetInBase(job, names, p)
    case AtDelta(q) => TargetInDelta(job, names, rank, q)
    case Rootless => PARENT_NONE
  }

  ghost function TargetInDelta(job: Job, names: seq<Name>, rank: seq<nat>, q: nat): nat
    requires IsJob(job, names) && IsRank(rank, job)
  {
    if q < |job.added| && job.added[q].live && rank[q] < |job.order| then SlotOfDelta(MergeOf(job, names), rank[q]) else PARENT_NONE
  }

  ghost function TargetOf(job: Job, names: seq<Name>, rank: seq<nat>, source: Source): nat
    requires IsJob(job, names) && IsRank(rank, job)
    requires source.FromBase? ==> source.i < |names|
    requires source.FromDelta? ==> source.k < |job.order|
  {
    match source
    case FromBase(i) => BaseTarget(job, names, i)
    case FromDelta(k) => DeltaTarget(job, names, rank, k)
  }

  /** Whether a source's parent has been patched when the base below `b` and the additions below `d` are done. */
  ghost predicate Reached(job: Job, source: Source, b: nat, d: nat)
    requires source.FromDelta? ==> source.k < |job.order|
  {
    match source
    case FromBase(i) => i < b
    case FromDelta(k) => job.order[k] < d
  }

  /** Patched sources have their targets, the others none yet. */
  ghost predicate PatchedTo(parents: seq<Word>, job: Job, names: seq<Name>, rank: seq<nat>, m: seq<Source>, b: nat, d: nat)
    requires IsJob(job, names) && IsRank(rank, job) && InJob(job, names, m)
  {
    |parents| == |m| && forall s :: 0 <= s < |m| ==>
      UnpackParent(parents[s]) == if Reached(job, m[s], b, d) then TargetOf(job, names, rank, m[s]) else PARENT_NONE
  }

  /** No live base record and live addition have names that differ at most in ASCII case. */
  ghost predicate NoTies(v: Merge) {
    forall k :: 0 <= k < |v.delta| ==> Ties(v, k) == {}
  }

  ghost predicate HasLiveParent(job: Job, names: seq<Name>, j: nat)
    requires IsJob(job, names) && j < |job.added|
  {
    match job.added[j].parent
    case AtBase(p) => Live(MergeOf(job, names), p)
    case AtDelta(q) => q < |job.added| && job.added[q].live
    case Rootless => false
  }

  predicate Childless(job: Job, q: nat) {
    forall j :: 0 <= j < |job.added| && job.added[j].live ==> job.added[j].parent != AtDelta(q)
  }

  /** No parent edge of the view touches an addition that ties with a live base record. */
  ghost predicate TiesAreLoose(job: Job, names: seq<Name>)
    requires IsJob(job, names)
  {
    forall k: nat :: k < |job.order| && Ties(MergeOf(job, names), k) != {} ==> Loose(job, names, job.order[k])
  }

  ghost predicate Loose(job: Job, names: seq<Name>, j: nat)
    requires IsJob(job, names)
  {
    j < |job.added| && !HasLiveParent(job, names, j) && Childless(job, j)
  }

  lemma SourceAt(v: Merge, m: seq<Source>, source: Source, slot: nat, s: nat)
    requires IsMerged(v, m) && Placed(v, source, slot) && s < |m| && m[s] == source
    ensures s == slot
  {
    hide SlotOfBase, SlotOfDelta, LiveBelow, Live;
    assert Placed(v, m[s], s);
  }

  lemma SlotOfSource(v: Merge, m: seq<Source>, source: Source, slot: nat)
    requires IsMerged(v, m) && Placed(v, source, slot)
    ensures slot < |m| && m[slot] == source
  {
    hide SlotOfBase, SlotOfDelta, LiveBelow, Live;
  }

  /** Patching the slot of a source with its target moves the pass past that source. */
  lemma PatchOne(parents: seq<Word>, job: Job, names: seq<Name>, rank: seq<nat>, m: seq<Source>, b: nat, d: nat, b': nat, d': nat,
                 source: Source, slot: nat, target: nat)
    requires IsJob(job, names) && IsRank(rank, job) && InJob(job, names, m) && IsMerged(MergeOf(job, names), m)
    requires PatchedTo(parents, job, names, rank, m, b, d) && Placed(MergeOf(job, names), source, slot)
    requires slot < |m| && m[slot] == source && target <= PARENT_NONE
    requires target == TargetOf(job, names, rank, source) && Reached(job, source, b', d')
    requires forall x: Source :: x != source && (x.FromDelta? ==> x.k < |job.order|) ==> (Reached(job, x, b', d') <==> Reached(job, x, b, d))
    ensures PatchedTo(parents[slot := PackParent(target, WordIsDir(parents[slot]))], job, names, rank, m, b', d')
    ensures target == PARENT_NONE && !Reached(job, source, b, d) ==> PatchedTo(parents, job, names, rank, m, b', d')
  {
    hide IsJob, IsRank, IsMerged, Placed, UnpackParent, PackParent, WordIsDir, TargetOf;
    PackUnpack(target, WordIsDir(parents[slot]));
    forall s | 0 <= s < |m| && s != slot ensures m[s] != source {
      if m[s] == source {
        SourceAt(MergeOf(job, names), m, source, slot, s);
      }
    }
  }

  lemma NothingPatched(b: SpooledArenaBuilder, job: Job, names: seq<Name>, rank: seq<nat>, m: seq<Source>)
    requires IsJob(job, names) && IsRank(rank, job) && Streaming(b, job, names, m)
    ensures InJob(job, names, m) && PatchedTo(b.parents, job, names, rank, m, 0, 0)
  {
    hide IsJob, IsRank, UnpackParent, TargetOf;
  }

  /** A tombstoned record is no source, so the pass steps over it. */
  lemma PassTombstone(parents: seq<Word>, job: Job, names: seq<Name>, rank: seq<nat>, m: seq<Source>, i: nat)
    requires IsJob(job, names) && IsRank(rank, job) && InJob(job, names, m) && IsMerged(MergeOf(job, names), m)
    requires PatchedTo(parents, job, names, rank, m, i, 0) && !Live(MergeOf(job, names), i)
    ensures PatchedTo(parents, job, names, rank, m, i + 1, 0)
  {
    hide IsJob, IsRank, UnpackParent, TargetOf, SlotOfBase, SlotOfDelta, LiveBelow, Live;
    forall s | 0 <= s < |m| ensures m[s] != FromBase(i) {
      assert Placed(MergeOf(job, names), m[s], s);
    }
  }

  /** The output fits the index space. */
  ghost predicate Fits(job: Job, names: seq<Name>)
    requires IsJob(job, names)
  {
    LiveBelow(MergeOf(job, names), |names|) + |job.order| <= PARENT_NONE
  }

  lemma SlotFits(job: Job, names: seq<Name>, m: seq<Source>, source: Source, slot: nat)
    requires IsJob(job, names) && Fits(job, names) && IsMerged(MergeOf(job, names), m) && Placed(MergeOf(job, names), source, slot)
    ensures slot < |m| <= PARENT_NONE && m[slot] == source
  {
    SlotOfSource(MergeOf(job, names), m, source, slot);
    hide IsJob;
  }

  lemma TargetFits(job: Job, names: seq<Name>, m: seq<Source>, p: nat)
    requires IsJob(job, names) && Fits(job, names) && IsMerged(MergeOf(job, names), m)
    ensures TargetInBase(job, names, p) <= PARENT_NONE
  {
    hide IsJob, Fits, IsMerged, SlotOfBase, Live;
    if p < |names| && Live(MergeOf(job, names), p) {
      SlotFits(job, names, m, FromBase(p), SlotOfBase(MergeOf(job, names), p));
    }
  }

  /** The parent of one live base record. */
  method PatchBaseRecord(job: Job, b: SpooledArenaBuilder, samples: seq<nat>, i: nat, ghost names: seq<Name>, ghost rank: seq<nat>,
                         ghost m: seq<Source>)
    requires IsJob(job, names) && IsRank(rank, job) && InJob(job, names, m) && IsMerged(MergeOf(job, names), m) && Fits(job, names)
    requires RankSelect.IsSampled(job.bits, samples) && i < |names|
    requires Holds(b, job, names, m) && PatchedTo(b.parents, job, names, rank, m, i, 0)
    modifies b`parents
    ensures Holds(b, job, names, m) && PatchedTo(b.parents, job, names, rank, m, i + 1, 0)
  {
    hide IsJob, IsRank, InJob, IsMerged, Fits, Codes, RankSelect.IsSampled, Sorted, Holds, PatchedTo, SlotOfBase, Live, PackParent, WordIsDir;
    JobParts(job, names);
    ghost var v := MergeOf(job, names);
    PatchedLength(b.parents, job, names, rank, m, i, 0);
    var finalSelf := FinalIndexOfBase(job, samples, i, names);
    if finalSelf.None? {
      PassTombstone(b.parents, job, names, rank, m, i);
      return;
    }
    assert Placed(v, FromBase(i), finalSelf.value) by { PlacedBase(v, i); }
    SlotFits(job, names, m, FromBase(i), finalSelf.value);
    var parent := UnpackParent(job.base.parents[i]);
    ParentInside(job, names, i);
    TargetFits(job, names, m, parent);
    ghost var target := BaseTarget(job, names, i);
    PatchOne(b.parents, job, names, rank, m, i, 0, i + 1, 0, FromBase(i), finalSelf.value, target);
    if parent == PARENT_NONE {
      return;
    }
    var finalParent := FinalIndexOfBase(job, samples, parent, names);
    if finalParent.Some? {
      Patch(b, finalSelf.value, finalParent.value, job, names, m);
    }
  }

  /** patch_parent, which leaves every row as it was. */
  method Patch(b: SpooledArenaBuilder, slot: nat, target: nat, ghost job: Job, ghost names: seq<Name>, ghost m: seq<Source>)
    requires IsJob(job, names) && InJob(job, names, m) && Holds(b, job, names, m)
    requires slot < |b.parents| && target <= PARENT_NONE
    modifies b`parents
    ensures Holds(b, job, names, m)
    ensures b.parents == old(b.parents)[slot := PackParent(target, WordIsDir(old(b.parents)[slot]))]
  {
    hide IsJob, WordIsDir, PackParent, UnpackParent, RowOf;
    PackUnpack(target, WordIsDir(b.parents[slot]));
    b.PatchParent(slot, target);
  }

  lemma PlacedBase(v: Merge, i: nat)
    requires Live(v, i)
    ensures Placed(v, FromBase(i), SlotOfBase(v, i))
  {
  }

  lemma PatchedLength(parents: seq<Word>, job: Job, names: seq<Name>, rank: seq<nat>, m: seq<Source>, b: nat, d: nat)
    requires IsJob(job, names) && IsRank(rank, job) && InJob(job, names, m) && PatchedTo(parents, job, names, rank, m, b, d)
    ensures |parents| == |m|
  {
  }

  lemma ParentInside(job: Job, names: seq<Name>, i: nat)
    requires IsJob(job, names) && i < |names| == |job.base.parents|
    ensures UnpackParent(job.base.parents[i]) == PARENT_NONE || UnpackParent(job.base.parents[i]) < |names| < PARENT_NONE
  {
  }

  // ---- the parents of the additions ------------------------------------------------------

  lemma RankedAt(job: Job, names: seq<Name>, rank: seq<nat>, j: nat)
    requires IsJob(job, names) && IsRank(rank, job) && j < |job.added|
    ensures job.added[j].live ==> rank[j] < |job.order| && job.order[rank[j]] == j
  {
    hide Codes, Sorted;
    if job.added[j].live {
      assert j in job.order;
      var k :| 0 <= k < |job.order| && job.order[k] == j;
    }
  }

  lemma FormulaFits(job: Job, names: seq<Name>, m: seq<Source>, k: nat)
    requires IsJob(job, names) && Fits(job, names) && IsMerged(MergeOf(job, names), m) && k < |job.order|
    ensures FormulaOfDelta(MergeOf(job, names), k) < |m| <= PARENT_NONE
    ensures SlotOfDelta(MergeOf(job, names), k) < |m|
    ensures Ties(MergeOf(job, names), k) == {} <==> FormulaOfDelta(MergeOf(job, names), k) == SlotOfDelta(MergeOf(job, names), k)
  {
    hide IsJob, IsMerged, FormulaOfDelta, SlotOfDelta, Ties, Fits;
    var v := MergeOf(job, names);
    TheoremDeltaFormula(v, k);
    assert Placed(v, FromDelta(k), SlotOfDelta(v, k)) by { PlacedDelta(v, k); }
    SlotFits(job, names, m, FromDelta(k), SlotOfDelta(v, k));
  }

  lemma PlacedDelta(v: Merge, k: nat)
    requires k < |v.delta|
    ensures Placed(v, FromDelta(k), SlotOfDelta(v, k))
  {
  }

  lemma PassDead(parents: seq<Word>, job: Job, names: seq<Name>, rank: seq<nat>, m: seq<Source>, j: nat)
    requires IsJob(job, names) && IsRank(rank, job) && InJob(job, names, m)
    requires PatchedTo(parents, job, names, rank, m, |names|, j) && j < |job.added| && !job.added[j].live
    ensures PatchedTo(parents, job, names, rank, m, |names|, j + 1)
  {
    hide IsJob, IsRank, UnpackParent, TargetOf, MergeOf;
    JobParts(job, names);
  }

  /** What is written as the parent of an addition: its parent's slot, by formula. */
  ghost function FormulaTarget(job: Job, names: seq<Name>, rank: seq<nat>, k: nat): nat
    requires IsJob(job, names) && IsRank(rank, job) && k < |job.order|
  {
    JobParts(job, names);
    match job.added[job.order[k]].parent
    case AtBase(p) => TargetInBase(job, names, p)
    case AtDelta(q) => FormulaInDelta(job, names, rank, q)
    case Rootless => PARENT_NONE
  }

  ghost function FormulaInDelta(job: Job, names: seq<Name>, rank: seq<nat>, q: nat): nat
    requires IsJob(job, names) && IsRank(rank, job)
  {
    if q < |job.added| && job.added[q].live && rank[q] < |job.order| then FormulaOfDelta(MergeOf(job, names), rank[q]) else PARENT_NONE
  }

  /** Addition `i` is patched at the slot of addition `k`. */
  ghost predicate Hits(job: Job, names: seq<Name>, i: nat, k: nat)
    requires IsJob(job, names)
  {
    i < |job.order| && k < |job.order| && FormulaOfDelta(MergeOf(job, names), i) == SlotOfDelta(MergeOf(job, names), k)
  }

  /** The parent at an addition's slot is what the additions patched so far wrote there, if any did. */
  ghost predicate Written(parents: seq<Word>, job: Job, names: seq<Name>, rank: seq<nat>, j: nat)
    requires IsJob(job, names) && IsRank(rank, job)
  {
    && (forall k: nat :: k < |job.order| ==> SlotOfDelta(MergeOf(job, names), k) < |parents|)
    && (forall i: nat, k: nat :: Hits(job, names, i, k) && job.order[i] < j ==>
          UnpackParent(parents[SlotOfDelta(MergeOf(job, names), k)]) == FormulaTarget(job, names, rank, i))
    && (forall k: nat :: k < |job.order| && (forall i: nat :: Hits(job, names, i, k) ==> job.order[i] >= j) ==>
          UnpackParent(parents[SlotOfDelta(MergeOf(job, names), k)]) == PARENT_NONE)
  }

  lemma HitsOnce(job: Job, names: seq<Name>, i: nat, k: nat)
    requires IsJob(job, names) && Hits(job, names, i, k)
    ensures i == k + |Ties(MergeOf(job, names), k)| && Ties(MergeOf(job, names), i) == Ties(MergeOf(job, names), k)
  {
    hide IsJob, SlotOfDelta, FormulaOfDelta, Ties;
    FormulaMeetsSlot(MergeOf(job, names), i, k);
  }

  lemma NoneWritten(parents: seq<Word>, job: Job, names: seq<Name>, rank: seq<nat>, m: seq<Source>)
    requires IsJob(job, names) && IsRank(rank, job) && InJob(job, names, m) && IsMerged(MergeOf(job, names), m)
    requires PatchedTo(parents, job, names, rank, m, |names|, 0)
    ensures Written(parents, job, names, rank, 0)
  {
    hide IsJob, IsRank, UnpackParent, TargetOf, FormulaTarget, FormulaOfDelta, SlotOfBase, SlotOfDelta, LiveBelow;
    forall k: nat | k < |job.order|
      ensures SlotOfDelta(MergeOf(job, names), k) < |m| && m[SlotOfDelta(MergeOf(job, names), k)] == FromDelta(k)
    {
      assert k < |MergeOf(job, names).delta|;
    }
  }

  /** One addition patched; a target of none is not written, and nothing stands there. */
  lemma WrittenStep(parents: seq<Word>, next: seq<Word>, job: Job, names: seq<Name>, rank: seq<nat>, m: seq<Source>, j: nat, k: nat)
    requires IsJob(job, names) && IsRank(rank, job) && IsMerged(MergeOf(job, names), m) && |parents| == |m|
    requires Written(parents, job, names, rank, j) && k < |job.order| && job.order[k] == j
    requires FormulaOfDelta(MergeOf(job, names), k) < |m|
    requires var slot, target := FormulaOfDelta(MergeOf(job, names), k), FormulaTarget(job, names, rank, k);
             && (target == PARENT_NONE ==> next == parents)
             && (target != PARENT_NONE ==> |next| == |parents| && UnpackParent(next[slot]) == target)
             && (target != PARENT_NONE ==> forall s :: 0 <= s < |parents| && s != slot ==> next[s] == parents[s])
    ensures Written(next, job, names, rank, j + 1)
  {
    hide IsRank, IsMerged, UnpackParent, FormulaTarget, SlotOfDelta, FormulaOfDelta, Codes, Sorted, Hits;
    var v, slot := MergeOf(job, names), FormulaOfDelta(MergeOf(job, names), k);
    forall i: nat, x: nat | Hits(job, names, i, x) ensures i < |job.order| && x < |job.order| {
      assert Hits(job, names, i, x) ==> i < |job.order| && x < |job.order| by { HitsInside(job, names, i, x); }
    }
    forall i: nat, x: nat | Hits(job, names, i, x) && Hits(job, names, k, x) ensures i == k {
      HitsOnce(job, names, i, x);
      HitsOnce(job, names, k, x);
    }
    forall i: nat | i < |job.order| && i != k ensures job.order[i] != j {
      OrderDistinct(job, names, i, k);
    }
    forall x: nat | x < |job.order| ensures SlotOfDelta(v, x) == slot <==> Hits(job, names, k, x) {
      HitsMeans(job, names, k, x);
    }
  }

  lemma HitsInside(job: Job, names: seq<Name>, i: nat, k: nat)
    requires IsJob(job, names) && Hits(job, names, i, k)
    ensures i < |job.order| && k < |job.order|
  {
  }

  lemma HitsMeans(job: Job, names: seq<Name>, i: nat, k: nat)
    requires IsJob(job, names) && i < |job.order| && k < |job.order|
    ensures Hits(job, names, i, k) <==> FormulaOfDelta(MergeOf(job, names), i) == SlotOfDelta(MergeOf(job, names), k)
  {
  }

  lemma OrderDistinct(job: Job, names: seq<Name>, i: nat, k: nat)
    requires IsJob(job, names) && i < |job.order| && k < |job.order| && i != k
    ensures job.order[i] != job.order[k]
  {
    hide Codes, Sorted;
    assert i < k ==> job.order[i] != job.order[k];
    assert k < i ==> job.order[k] != job.order[i];
  }

  /** Whether ties are loose decides if patching by formula is right. */
  lemma FormulaIsTarget(job: Job, names: seq<Name>, rank: seq<nat>, m: seq<Source>, k: nat)
    requires IsJob(job, names) && IsRank(rank, job) && Fits(job, names) && IsMerged(MergeOf(job, names), m) && k < |job.order|
    ensures DeltaTarget(job, names, rank, k) == PARENT_NONE <==> !HasLiveParent(job, names, job.order[k])
    ensures FormulaTarget(job, names, rank, k) == PARENT_NONE <==> !HasLiveParent(job, names, job.order[k])
    ensures TiesAreLoose(job, names) ==> FormulaTarget(job, names, rank, k) == DeltaTarget(job, names, rank, k)
  {
    hide IsJob, IsMerged, Fits, Codes, Sorted, SlotOfBase, SlotOfDelta, FormulaOfDelta, Live, Ties;
    JobParts(job, names);
    var j := job.order[k];
    OrderIsLive(job, names, k);
    AddedParent(job, names, j);
    match job.added[j].parent {
      case AtBase(p) =>
        TargetBelow(job, names, m, p);
      case AtDelta(q) =>
        if job.added[q].live {
          RankedAt(job, names, rank, q);
          FormulaFits(job, names, m, rank[q]);
          FormulaBelow(job, names, m, rank[q]);
        }
      case Rootless =>
    }
  }

  lemma OrderIsLive(job: Job, names: seq<Name>, k: nat)
    requires IsJob(job, names) && k < |job.order|
    ensures job.order[k] < |job.added| && job.added[job.order[k]].live
  {
    hide Codes, Sorted;
    assert job.order[k] in job.order;
  }

  lemma TargetBelow(job: Job, names: seq<Name>, m: seq<Source>, p: nat)
    requires IsJob(job, names) && Fits(job, names) && IsMerged(MergeOf(job, names), m)
    ensures TargetInBase(job, names, p) == PARENT_NONE <==> !Live(MergeOf(job, names), p)
  {
    hide IsJob, Fits, IsMerged, SlotOfBase, Bit;
    if Live(MergeOf(job, names), p) {
      SlotFits(job, names, m, FromBase(p), SlotOfBase(MergeOf(job, names), p));
    }
  }

  lemma FormulaBelow(job: Job, names: seq<Name>, m: seq<Source>, k: nat)
    requires IsJob(job, names) && Fits(job, names) && IsMerged(MergeOf(job, names), m) && k < |job.order|
    ensures FormulaOfDelta(MergeOf(job, names), k) < PARENT_NONE && SlotOfDelta(MergeOf(job, names), k) < PARENT_NONE
  {
    hide IsJob, IsMerged, FormulaOfDelta, SlotOfDelta, Fits, Ties;
    FormulaFits(job, names, m, k);
  }

  /** What the passes keep whatever the names; when ties are loose, also the targets. */
  ghost predicate Patching(b: SpooledArenaBuilder, job: Job, names: seq<Name>, rank: seq<nat>, m: seq<Source>, j: nat)
    requires IsJob(job, names) && IsRank(rank, job) && InJob(job, names, m)
    reads b
  {
    && Holds(b, job, names, m) && Written(b.parents, job, names, rank, j)
    && (TiesAreLoose(job, names) ==> PatchedTo(b.parents, job, names, rank, m, |names|, j))
  }

  lemma PatchingLength(b: SpooledArenaBuilder, job: Job, names: seq<Name>, rank: seq<nat>, m: seq<Source>, j: nat)
    requires IsJob(job, names) && IsRank(rank, job) && InJob(job, names, m) && Patching(b, job, names, rank, m, j)
    ensures |b.parents| == |m|
  {
  }

  /** The final parent of the addition `j`, by formula. */
  method FinalParent(job: Job, samples: seq<nat>, rank: seq<nat>, j: nat, ghost names: seq<Name>, ghost m: seq<Source>)
    returns (target: Option<nat>)
    requires IsJob(job, names) && IsRank(rank, job) && Fits(job, names) && IsMerged(MergeOf(job, names), m)
    requires RankSelect.IsSampled(job.bits, samples) && j < |job.added| && job.added[j].live
    requires rank[j] < |job.order| && job.order[rank[j]] == j
    ensures target.Some? ==> target.value < PARENT_NONE
    ensures FormulaTarget(job, names, rank, rank[j]) == if target.Some? then target.value else PARENT_NONE
  {
    hide IsJob, IsMerged, Fits, Codes, RankSelect.IsSampled, Sorted, SlotOfBase, SlotOfDelta, FormulaOfDelta, Live, Ties;
    JobParts(job, names);
    AddedParent(job, names, j);
    match job.added[j].parent {
      case AtBase(p) =>
        target := FinalIndexOfBase(job, samples, p, names);
        TargetBelow(job, names, m, p);
        TargetFits(job, names, m, p);
      case AtDelta(q) =>
        if !job.added[q].live {
          return None;
        }
        RankedAt(job, names, rank, q);
        FormulaBelow(job, names, m, rank[q]);
        var slot := FinalIndexOfDelta(job, samples, rank, q, names, rank[q]);
        target := Some(slot);
      case Rootless =>
        target := None;
    }
  }

  lemma AddedParent(job: Job, names: seq<Name>, j: nat)
    requires IsJob(job, names) && j < |job.added|
    ensures job.added[j].parent.AtBase? ==> job.added[j].parent.index < |names|
    ensures job.added[j].parent.AtDelta? ==> job.added[j].parent.index < |job.added|
  {
  }

  method PatchDeltaRecord(job: Job, b: SpooledArenaBuilder, samples: seq<nat>, rank: seq<nat>, j: nat, ghost names: seq<Name>,
                          ghost m: seq<Source>)
    requires IsJob(job, names) && IsRank(rank, job) && InJob(job, names, m) && IsMerged(MergeOf(job, names), m) && Fits(job, names)
    requires RankSelect.IsSampled(job.bits, samples) && j < |job.added| && job.added[j].live
    requires Patching(b, job, names, rank, m, j)
    modifies b`parents
    ensures Patching(b, job, names, rank, m, j + 1)
  {
    hide IsJob, InJob, IsMerged, Fits, Codes, RankSelect.IsSampled, Sorted, Holds, PatchedTo, Written, SlotOfDelta, FormulaOfDelta;
    hide PackParent, UnpackParent, WordIsDir, DeltaTarget, FormulaTarget, TiesAreLoose, Ties;
    JobParts(job, names);
    PatchingLength(b, job, names, rank, m, j);
    RankedAt(job, names, rank, j);
    ghost var k := rank[j];
    FormulaFits(job, names, m, k);
    var finalSelf := FinalIndexOfDelta(job, samples, rank, j, names, k);
    var finalParent := FinalParent(job, samples, rank, j, names, m);
    ghost var before := b.parents;
    if finalParent.Some? {
      PackUnpack(finalParent.value, WordIsDir(b.parents[finalSelf]));
      Patch(b, finalSelf, finalParent.value, job, names, m);
    }
    WrittenStep(before, b.parents, job, names, rank, m, j, k);
    if TiesAreLoose(job, names) {
      LooseStep(before, job, names, rank, m, j, k);
    }
  }

  /** When ties are loose, an addition is patched where it stands or not at all. */
  lemma LooseStep(parents: seq<Word>, job: Job, names: seq<Name>, rank: seq<nat>, m: seq<Source>, j: nat, k: nat)
    requires IsJob(job, names) && IsRank(rank, job) && InJob(job, names, m) && IsMerged(MergeOf(job, names), m) && Fits(job, names)
    requires TiesAreLoose(job, names) && PatchedTo(parents, job, names, rank, m, |names|, j) && |parents| == |m|
    requires k < |job.order| && job.order[k] == j
    ensures var slot, target := FormulaOfDelta(MergeOf(job, names), k), FormulaTarget(job, names, rank, k);
            slot < |m| && target <= PARENT_NONE
            && PatchedTo(if target == PARENT_NONE then parents else parents[slot := PackParent(target, WordIsDir(parents[slot]))],
                         job, names, rank, m, |names|, j + 1)
  {
    hide IsJob, InJob, IsMerged, Fits, PatchedTo, SlotOfDelta, FormulaOfDelta, PackParent, WordIsDir, DeltaTarget, FormulaTarget, Ties;
    hide HasLiveParent, Childless;
    var v := MergeOf(job, names);
    FormulaFits(job, names, m, k);
    FormulaIsTarget(job, names, rank, m, k);
    TargetAtMost(job, names, rank, m, k);
    assert Placed(v, FromDelta(k), SlotOfDelta(v, k)) by { PlacedDelta(v, k); }
    SlotFits(job, names, m, FromDelta(k), SlotOfDelta(v, k));
    OnlyThis(job, names, k, j);
    PatchOne(parents, job, names, rank, m, |names|, j, |names|, j + 1, FromDelta(k), SlotOfDelta(v, k), FormulaTarget(job, names, rank, k));
  }

  lemma TargetAtMost(job: Job, names: seq<Name>, rank: seq<nat>, m: seq<Source>, k: nat)
    requires IsJob(job, names) && IsRank(rank, job) && Fits(job, names) && IsMerged(MergeOf(job, names), m) && k < |job.order|
    ensures FormulaTarget(job, names, rank, k) <= PARENT_NONE
  {
    hide IsJob, IsMerged, Fits, FormulaOfDelta, SlotOfDelta, Ties, TargetInBase;
    JobParts(job, names);
    match job.added[job.order[k]].parent
    case AtBase(p) => TargetFits(job, names, m, p);
    case AtDelta(q) =>
      if q < |job.added| && job.added[q].live && rank[q] < |job.order| {
        FormulaBelow(job, names, m, rank[q]);
      }
    case Rootless =>
  }

  lemma OnlyThis(job: Job, names: seq<Name>, k: nat, j: nat)
    requires IsJob(job, names) && k < |job.order| && job.order[k] == j
    ensures forall x: Source :: x != FromDelta(k) && (x.FromDelta? ==> x.k < |job.order|) ==>
      (Reached(job, x, |names|, j + 1) <==> Reached(job, x, |names|, j))
    ensures !Reached(job, FromDelta(k), |names|, j) && Reached(job, FromDelta(k), |names|, j + 1)
  {
    hide Codes, Sorted;
    forall x: Source | x.FromDelta? && x != FromDelta(k) && x.k < |job.order| ensures job.order[x.k] != j {
      if x.k < k {
        assert job.order[x.k] != job.order[k];
      } else {
        assert job.order[k] != job.order[x.k];
      }
    }
  }

  // ---- the whole pass --------------------------------------------------------------------

  method PatchBaseParents(job: Job, b: SpooledArenaBuilder, samples: seq<nat>, ghost names: seq<Name>, ghost rank: seq<nat>,
                          ghost m: seq<Source>)
    requires IsJob(job, names) && IsRank(rank, job) && InJob(job, names, m) && IsMerged(MergeOf(job, names), m) && Fits(job, names)
    requires RankSelect.IsSampled(job.bits, samples)
    requires Holds(b, job, names, m) && PatchedTo(b.parents, job, names, rank, m, 0, 0)
    modifies b`parents
    ensures Holds(b, job, names, m) && PatchedTo(b.parents, job, names, rank, m, |names|, 0)
  {
    hide IsJob, IsRank, InJob, IsMerged, Fits, RankSelect.IsSampled, Holds, PatchedTo, Codes, Sorted;
    JobParts(job, names);
    for i := 0 to job.base.nb.n
      invariant Holds(b, job, names, m) && PatchedTo(b.parents, job, names, rank, m, i, 0)
    {
      PatchBaseRecord(job, b, samples, i, names, rank, m);
    }
  }

  method PatchDeltaParents(job: Job, b: SpooledArenaBuilder, samples: seq<nat>, rank: seq<nat>, ghost names: seq<Name>,
                           ghost m: seq<Source>)
    requires IsJob(job, names) && IsRank(rank, job) && InJob(job, names, m) && IsMerged(MergeOf(job, names), m) && Fits(job, names)
    requires RankSelect.IsSampled(job.bits, samples) && Patching(b, job, names, rank, m, 0)
    modifies b`parents
    ensures Patching(b, job, names, rank, m, |job.added|)
  {
    hide IsJob, IsRank, InJob, IsMerged, Fits, RankSelect.IsSampled, Patching;
    for j := 0 to |job.added|
      invariant Patching(b, job, names, rank, m, j)
    {
      if job.added[j].live {
        PatchDeltaRecord(job, b, samples, rank, j, names, m);
      } else {
        PatchingDead(b, job, names, rank, m, j);
      }
    }
  }

  lemma PatchingDead(b: SpooledArenaBuilder, job: Job, names: seq<Name>, rank: seq<nat>, m: seq<Source>, j: nat)
    requires IsJob(job, names) && IsRank(rank, job) && InJob(job, names, m)
    requires Patching(b, job, names, rank, m, j) && j < |job.added| && !job.added[j].live
    ensures Patching(b, job, names, rank, m, j + 1)
  {
    hide IsJob, IsRank, InJob, Holds, PatchedTo, TiesAreLoose, Written;
    DeadWrites(b.parents, job, names, rank, j);
    if TiesAreLoose(job, names) {
      PassDead(b.parents, job, names, rank, m, j);
    }
  }

  lemma DeadWrites(parents: seq<Word>, job: Job, names: seq<Name>, rank: seq<nat>, j: nat)
    requires IsJob(job, names) && IsRank(rank, job) && Written(parents, job, names, rank, j)
    requires j < |job.added| && !job.added[j].live
    ensures Written(parents, job, names, rank, j + 1)
  {
    hide IsJob, IsRank, UnpackParent, FormulaTarget, SlotOfDelta;
    forall k: nat | k < |job.order| ensures job.order[k] != j {
      OrderIsLive(job, names, k);
    }
  }

  /** A tied addition with a live parent is never patched where it stands, starting from the last of its tie. */
  lemma {:induction false} TiedHaveNoParent(b: SpooledArenaBuilder, job: Job, names: seq<Name>, rank: seq<nat>, m: seq<Source>, k: nat)
    requires IsJob(job, names) && IsRank(rank, job) && InJob(job, names, m) && Fits(job, names) && IsMerged(MergeOf(job, names), m)
    requires KeepsParents(b, job, names, rank, m) && Written(b.parents, job, names, rank, |job.added|)
    requires k < |job.order| && Ties(MergeOf(job, names), k) != {}
    ensures !HasLiveParent(job, names, job.order[k])
    decreases |job.order| - k
  {
    hide IsJob, IsRank, InJob, Fits, IsMerged, Ties, FormulaTarget, DeltaTarget, HasLiveParent, Hits, SlotOfDelta, UnpackParent;
    FormulaIsTarget(job, names, rank, m, k);
    DeltaHasItsTarget(b, job, names, rank, m, k);
    if i: nat :| Hits(job, names, i, k) {
      HitsInside(job, names, i, k);
      HitsOnce(job, names, i, k);
      OrderIsLive(job, names, i);
      TiedHaveNoParent(b, job, names, rank, m, i);
      FormulaIsTarget(job, names, rank, m, i);
    }
  }

  lemma DeltaHasItsTarget(b: SpooledArenaBuilder, job: Job, names: seq<Name>, rank: seq<nat>, m: seq<Source>, k: nat)
    requires IsJob(job, names) && IsRank(rank, job) && InJob(job, names, m) && IsMerged(MergeOf(job, names), m)
    requires KeepsParents(b, job, names, rank, m) && k < |job.order|
    ensures SlotOfDelta(MergeOf(job, names), k) < |b.parents|
    ensures UnpackParent(b.parents[SlotOfDelta(MergeOf(job, names), k)]) == DeltaTarget(job, names, rank, k)
  {
    hide IsJob, IsRank, DeltaTarget, SlotOfDelta, SlotOfBase, LiveBelow, UnpackParent;
    JobParts(job, names);
    assert k < |MergeOf(job, names).delta|;
  }

  /** And no live addition hangs below a tied one: it would have been given the formula's slot for its parent. */
  lemma TiedAreChildless(b: SpooledArenaBuilder, job: Job, names: seq<Name>, rank: seq<nat>, m: seq<Source>, k: nat, j: nat)
    requires IsJob(job, names) && IsRank(rank, job) && InJob(job, names, m) && Fits(job, names) && IsMerged(MergeOf(job, names), m)
    requires KeepsParents(b, job, names, rank, m) && Written(b.parents, job, names, rank, |job.added|)
    requires k < |job.order| && Ties(MergeOf(job, names), k) != {} && j < |job.added| && job.added[j].live
    ensures job.added[j].parent != AtDelta(job.order[k])
  {
    hide IsJob, InJob, Fits, IsMerged, Ties, Hits, SlotOfDelta, FormulaOfDelta, UnpackParent, KeepsParents, Written;
    if job.added[j].parent == AtDelta(job.order[k]) {
      RankedAt(job, names, rank, j);
      OrderIsLive(job, names, k);
      var x := rank[j];
      FormulaFits(job, names, m, k);
      FormulaFits(job, names, m, x);
      if Ties(MergeOf(job, names), x) != {} {
        TiedHaveNoParent(b, job, names, rank, m, x);
      } else {
        HitsMeans(job, names, x, x);
        DeltaHasItsTarget(b, job, names, rank, m, x);
        WrittenAt(b.parents, job, names, rank, x);
      }
    }
  }

  lemma WrittenAt(parents: seq<Word>, job: Job, names: seq<Name>, rank: seq<nat>, x: nat)
    requires IsJob(job, names) && IsRank(rank, job) && Written(parents, job, names, rank, |job.added|) && Hits(job, names, x, x)
    ensures x < |job.order| && SlotOfDelta(MergeOf(job, names), x) < |parents|
    ensures UnpackParent(parents[SlotOfDelta(MergeOf(job, names), x)]) == FormulaTarget(job, names, rank, x)
  {
    hide IsJob, IsRank, UnpackParent, FormulaTarget, SlotOfDelta, FormulaOfDelta;
    OrderIsLive(job, names, x);
  }

  lemma KeptOnlyIfLoose(b: SpooledArenaBuilder, job: Job, names: seq<Name>, rank: seq<nat>, m: seq<Source>)
    requires IsJob(job, names) && IsRank(rank, job) && InJob(job, names, m) && Fits(job, names) && IsMerged(MergeOf(job, names), m)
    requires KeepsParents(b, job, names, rank, m) && Written(b.parents, job, names, rank, |job.added|)
    ensures TiesAreLoose(job, names)
  {
    hide IsJob, IsRank, InJob, Fits, IsMerged, Ties, KeepsParents, Written, HasLiveParent;
    forall k: nat | k < |job.order| && Ties(MergeOf(job, names), k) != {} ensures Loose(job, names, job.order[k]) {
      OrderIsLive(job, names, k);
      TiedHaveNoParent(b, job, names, rank, m, k);
      forall j | 0 <= j < |job.added| && job.added[j].live ensures job.added[j].parent != AtDelta(job.order[k]) {
        TiedAreChildless(b, job, names, rank, m, k, j);
      }
    }
  }

  /** Every parent edge between live records leads to the slot of the parent. */
  ghost predicate KeepsParents(b: SpooledArenaBuilder, job: Job, names: seq<Name>, rank: seq<nat>, m: seq<Source>)
    requires IsJob(job, names) && IsRank(rank, job) && InJob(job, names, m)
    reads b
  {
    |b.parents| == |m| && forall s :: 0 <= s < |m| ==> UnpackParent(b.parents[s]) == TargetOf(job, names, rank, m[s])
  }

  lemma PatchedAll(b: SpooledArenaBuilder, job: Job, names: seq<Name>, rank: seq<nat>, m: seq<Source>)
    requires IsJob(job, names) && IsRank(rank, job) && InJob(job, names, m)
    requires PatchedTo(b.parents, job, names, rank, m, |names|, |job.added|)
    ensures KeepsParents(b, job, names, rank, m)
  {
    hide IsJob, IsRank, UnpackParent, TargetOf, MergeOf;
    JobParts(job, names);
  }

  // ---- what the output says ------------------------------------------------------------------

  /** Slot `s` carries everything its source carried, an addition's bytes in whole KiB. */
  ghost predicate SlotTells(b: SpooledArenaBuilder, base: BaseColumns, added: seq<DeltaRecord>, order: seq<nat>, names: seq<Name>,
                            source: Source, s: nat)
    reads b
  {
    && s < |b.names| && s < |b.mtimes| && s < |b.parents| && s < |b.sizes| && s < |b.exact|
    && match source
       case FromBase(i) =>
         && i < |names| && i < |base.mtimes| && i < |base.parents| && i < |base.sizes| && i < |base.exact|
         && b.names[s] == names[i] && b.mtimes[s] == base.mtimes[i] && b.sizes[s] == base.sizes[i] && b.exact[s] == base.exact[i]
         && (WordIsDir(b.parents[s]) <==> WordIsDir(base.parents[i]))
       case FromDelta(k) =>
         && k < |order| && order[k] < |added| && added[order[k]].live
         && b.names[s] == added[order[k]].name && b.mtimes[s] == added[order[k]].meta.mtimeSecs
         && IsKibOf(b.sizes[s], added[order[k]].meta.sizeBytes) && b.exact[s] == added[order[k]].meta.sizeExact
         && (WordIsDir(b.parents[s]) <==> added[order[k]].meta.isDir)
  }

  /** Each live base record and each live addition has one slot, and nothing else has any. */
  ghost predicate OneSlotEach(m: seq<Source>, bits: seq<bv8>, added: seq<DeltaRecord>, order: seq<nat>, n: nat) {
    && (forall s, t :: 0 <= s < t < |m| ==> m[s] != m[t])
    && (forall i: nat :: FromBase(i) in m <==> i < n && !Bit(bits, i))
    && (forall k: nat :: FromDelta(k) in m <==> k < |order|)
    && (forall k, l :: 0 <= k < l < |order| ==> order[k] != order[l])
    && forall j: nat :: j in order <==> j < |added| && added[j].live
  }

  /** The parent word at slot `s` leads to the slot of the live record that was the parent, or nowhere. */
  ghost predicate EdgeKept(parents: seq<Word>, base: BaseColumns, bits: seq<bv8>, added: seq<DeltaRecord>, order: seq<nat>, m: seq<Source>, s: nat)
    requires s < |parents| == |m|
  {
    var up := UnpackParent(parents[s]);
    match m[s]
    case FromBase(i) =>
      i < |base.parents| &&
      if UnpackParent(base.parents[i]) < |base.parents| && !Bit(bits, UnpackParent(base.parents[i]))
      then up < |m| && m[up] == FromBase(UnpackParent(base.parents[i])) else up == PARENT_NONE
    case FromDelta(k) =>
      k < |order| && order[k] < |added| &&
      match added[order[k]].parent
      case AtBase(p) => if p < |base.parents| && !Bit(bits, p) then up < |m| && m[up] == FromBase(p) else up == PARENT_NONE
      case AtDelta(q) =>
        if q < |added| && added[q].live then up < |m| && m[up].FromDelta? && m[up].k < |order| && order[m[up].k] == q
        else up == PARENT_NONE
      case Rootless => up == PARENT_NONE
  }

  ghost predicate EdgesKept(parents: seq<Word>, base: BaseColumns, bits: seq<bv8>, added: seq<DeltaRecord>, order: seq<nat>, m: seq<Source>) {
    |parents| == |m| && forall s: nat :: s < |m| ==> EdgeKept(parents, base, bits, added, order, m, s)
  }

  lemma HoldsTells(b: SpooledArenaBuilder, job: Job, names: seq<Name>, m: seq<Source>, s: nat)
    requires IsJob(job, names) && InJob(job, names, m) && Holds(b, job, names, m) && s < |m|
    ensures SlotTells(b, job.base, job.added, job.order, names, m[s], s)
  {
    JobParts(job, names);
    if m[s].FromDelta? {
      OrderIsLive(job, names, m[s].k);
      TheoremKib(job.added[job.order[m[s].k]].meta.sizeBytes);
    }
    hide IsJob, BytesToSizeKib, IsKibOf;
    assert Row(b.names[s], b.mtimes[s], WordIsDir(b.parents[s]), b.sizes[s], b.exact[s]) == RowOf(job, names, m[s]);
  }

  lemma MergedOnce(job: Job, names: seq<Name>, m: seq<Source>)
    requires IsJob(job, names) && IsMerged(MergeOf(job, names), m) && InJob(job, names, m)
    ensures OneSlotEach(m, job.bits, job.added, job.order, |names|)
  {
    var v := MergeOf(job, names);
    JobParts(job, names);
    OrderIs(job, names);
    hide IsJob, SlotOfBase, SlotOfDelta, LiveBelow, Bit;
    forall s, t | 0 <= s < t < |m| ensures m[s] != m[t] {
      assert Placed(v, m[s], s) && Placed(v, m[t], t);
    }
    forall i: nat ensures FromBase(i) in m <==> i < |names| && !Bit(job.bits, i) {
      if FromBase(i) in m {
        var s :| 0 <= s < |m| && m[s] == FromBase(i);
        assert Placed(v, m[s], s);
      }
      if Live(v, i) {
        assert m[SlotOfBase(v, i)] == FromBase(i);
      }
    }
    forall k: nat ensures FromDelta(k) in m <==> k < |job.order| {
      if k < |job.order| {
        assert k < |v.delta| && m[SlotOfDelta(v, k)] == FromDelta(k);
      }
    }
  }

  lemma OrderIs(job: Job, names: seq<Name>)
    requires IsJob(job, names)
    ensures forall j: nat :: j in job.order <==> j < |job.added| && job.added[j].live
    ensures forall k, l :: 0 <= k < l < |job.order| ==> job.order[k] != job.order[l]
  {
    hide Codes, Sorted;
  }

  /** A target is the slot of a live source or none, and slots and sources determine one another. */
  lemma TargetMeans(job: Job, names: seq<Name>, m: seq<Source>, source: Source, slot: nat, up: nat)
    requires IsJob(job, names) && Fits(job, names) && IsMerged(MergeOf(job, names), m) && Placed(MergeOf(job, names), source, slot)
    ensures slot < |m| && slot != PARENT_NONE && (up == slot <==> up < |m| && m[up] == source)
  {
    hide IsJob, IsMerged, Fits, Placed;
    SlotFits(job, names, m, source, slot);
    if up < |m| && m[up] == source {
      SourceAt(MergeOf(job, names), m, source, slot, up);
    }
  }

  lemma BaseTargetMeans(job: Job, names: seq<Name>, m: seq<Source>, p: nat, up: nat)
    requires IsJob(job, names) && Fits(job, names) && IsMerged(MergeOf(job, names), m)
    ensures |names| == |job.base.parents|
    ensures up == TargetInBase(job, names, p) <==>
      if p < |job.base.parents| && !Bit(job.bits, p) then up < |m| && m[up] == FromBase(p) else up == PARENT_NONE
  {
    JobParts(job, names);
    hide IsJob, IsMerged, Fits, SlotOfBase, Bit;
    var v := MergeOf(job, names);
    if Live(v, p) {
      PlacedBase(v, p);
      TargetMeans(job, names, m, FromBase(p), SlotOfBase(v, p), up);
    }
  }

  lemma DeltaTargetMeans(job: Job, names: seq<Name>, rank: seq<nat>, m: seq<Source>, q: nat, up: nat)
    requires IsJob(job, names) && IsRank(rank, job) && Fits(job, names) && IsMerged(MergeOf(job, names), m)
    ensures up == TargetInDelta(job, names, rank, q) <==>
      if q < |job.added| && job.added[q].live then up < |m| && m[up].FromDelta? && m[up].k < |job.order| && job.order[m[up].k] == q
      else up == PARENT_NONE
  {
    var v := MergeOf(job, names);
    JobParts(job, names);
    OrderIs(job, names);
    if q < |job.added| && job.added[q].live {
      RankedAt(job, names, rank, q);
      PlacedDelta(v, rank[q]);
      TargetMeans(job, names, m, FromDelta(rank[q]), SlotOfDelta(v, rank[q]), up);
    }
    hide IsJob, IsMerged, Fits, SlotOfDelta;
  }

  /** The targets by formula and the edges by source say the same. */
  lemma TheoremParentsAreEdges(b: SpooledArenaBuilder, job: Job, names: seq<Name>, rank: seq<nat>, m: seq<Source>)
    requires IsJob(job, names) && IsRank(rank, job) && InJob(job, names, m) && Fits(job, names) && IsMerged(MergeOf(job, names), m)
    ensures KeepsParents(b, job, names, rank, m) <==> EdgesKept(b.parents, job.base, job.bits, job.added, job.order, m)
  {
    hide IsRank, Fits, IsMerged, UnpackParent, TargetInBase, TargetInDelta, Bit;
    JobParts(job, names);
    OrderIs(job, names);
    hide IsJob;
    if |b.parents| == |m| {
      forall s: nat | s < |m|
        ensures EdgeKept(b.parents, job.base, job.bits, job.added, job.order, m, s) <==>
          UnpackParent(b.parents[s]) == TargetOf(job, names, rank, m[s])
      {
        EdgeIsTarget(b.parents, job, names, rank, m, s);
      }
    }
  }

  lemma EdgeIsTarget(parents: seq<Word>, job: Job, names: seq<Name>, rank: seq<nat>, m: seq<Source>, s: nat)
    requires IsJob(job, names) && IsRank(rank, job) && InJob(job, names, m) && Fits(job, names) && IsMerged(MergeOf(job, names), m)
    requires s < |m| == |parents|
    ensures EdgeKept(parents, job.base, job.bits, job.added, job.order, m, s) <==> UnpackParent(parents[s]) == TargetOf(job, names, rank, m[s])
  {
    JobParts(job, names);
    OrderIs(job, names);
    hide IsJob, IsRank, Fits, IsMerged, TargetInBase, TargetInDelta, Bit;
    var up := UnpackParent(parents[s]);
    match m[s] {
      case FromBase(i) =>
        BaseTargetMeans(job, names, m, UnpackParent(job.base.parents[i]), up);
      case FromDelta(k) =>
        OrderIsLive(job, names, k);
        match job.added[job.order[k]].parent {
          case AtBase(p) => BaseTargetMeans(job, names, m, p, up);
          case AtDelta(q) => DeltaTargetMeans(job, names, rank, m, q, up);
          case Rootless =>
        }
    }
  }

  /**
   * compact_to_snapshot up to the finished columns. Whatever the names, every live record
   * stands at its slot with its name, time, kind, size and exactness. Every parent edge is
   * kept as well if and only if none of them touches an addition that ties with a live base record.
   */
  method Compact(base: BaseColumns, bits: seq<bv8>, added: seq<DeltaRecord>, ghost names: seq<Name>)
    returns (b: SpooledArenaBuilder, ghost job: Job, ghost m: seq<Source>, rank: seq<nat>, samples: seq<nat>)
    requires IsBase(base, names) && AddedFit(added, |names|) && |names| + |added| <= PARENT_NONE
    ensures job.base == base && job.bits == bits && job.added == added && IsJob(job, names)
    ensures IsRank(rank, job) && RankSelect.IsSampled(bits, samples) && Fits(job, names)
    ensures IsMerged(MergeOf(job, names), m) && InJob(job, names, m) && Holds(b, job, names, m)
    ensures OneSlotEach(m, bits, added, job.order, |names|) && |b.parents| == |m|
    ensures Sorted(b.names) && forall s: nat :: s < |m| ==> SlotTells(b, base, added, job.order, names, m[s], s)
    ensures EdgesKept(b.parents, base, bits, added, job.order, m) <==> TiesAreLoose(job, names)
    ensures KeepsParents(b, job, names, rank, m) <==> TiesAreLoose(job, names)
    ensures NoTies(MergeOf(job, names)) ==> KeepsParents(b, job, names, rank, m)
  {
    hide IsBase, IsLiveOrder, AddedFit, IsMerged, InJob, Holds, PatchedTo, Written, RankSelect.IsSampled, Fits, TiesAreLoose, KeepsParents;
    var order := SortLive(added);
    var work := Job(base, bits, added, order);
    job := work;
    assert IsJob(job, names);
    hide IsJob;
    samples := RankSelect.BuildSuperblocks(bits);
    OrderParts(order, added);
    rank := Ranks(order, |added|);
    RanksMatch(job, rank);
    JobFits(job, names);
    hide IsRank;
    b := new SpooledArenaBuilder();
    m := MergeStreams(work, b, names);
    NothingPatched(b, job, names, rank, m);
    PatchBaseParents(work, b, samples, names, rank, m);
    NoneWritten(b.parents, job, names, rank, m);
    PatchDeltaParents(work, b, samples, rank, names, m);
    if TiesAreLoose(job, names) {
      PatchedAll(b, job, names, rank, m);
    }
    if KeepsParents(b, job, names, rank, m) {
      KeptOnlyIfLoose(b, job, names, rank, m);
    }
    NoTiesAreLoose(job, names);
    OutputTells(b, job, names, rank, m);
  }

  lemma OutputTells(b: SpooledArenaBuilder, job: Job, names: seq<Name>, rank: seq<nat>, m: seq<Source>)
    requires IsJob(job, names) && IsRank(rank, job) && InJob(job, names, m) && Fits(job, names) && IsMerged(MergeOf(job, names), m)
    requires Holds(b, job, names, m)
    ensures OneSlotEach(m, job.bits, job.added, job.order, |names|) && |b.parents| == |m|
    ensures Sorted(b.names) && forall s: nat :: s < |m| ==> SlotTells(b, job.base, job.added, job.order, names, m[s], s)
    ensures EdgesKept(b.parents, job.base, job.bits, job.added, job.order, m) <==> KeepsParents(b, job, names, rank, m)
  {
    hide *;
    MergedOnce(job, names, m);
    HeldLength(b, job, names, m);
    HeldSorted(b, job, names, m);
    TheoremParentsAreEdges(b, job, names, rank, m);
    forall s: nat | s < |m| ensures SlotTells(b, job.base, job.added, job.order, names, m[s], s) {
      HoldsTells(b, job, names, m, s);
    }
  }

  lemma HeldLength(b: SpooledArenaBuilder, job: Job, names: seq<Name>, m: seq<Source>)
    requires IsJob(job, names) && InJob(job, names, m) && Holds(b, job, names, m)
    ensures |b.parents| == |m|
  {
    hide IsJob, InJob;
  }

  lemma HeldSorted(b: SpooledArenaBuilder, job: Job, names: seq<Name>, m: seq<Source>)
    requires IsJob(job, names) && InJob(job, names, m) && IsMerged(MergeOf(job, names), m) && Holds(b, job, names, m)
    ensures Sorted(b.names)
  {
    var v := MergeOf(job, names);
    JobParts(job, names);
    hide Sorted, IsMerged, Live, SlotOfBase, SlotOfDelta;
    MergeIsSorted(job, names);
    TheoremMergedIsSorted(v, m);
    forall s | 0 <= s < |m| ensures b.names[s] == NamesOf(v, m)[s] {
      assert Row(b.names[s], b.mtimes[s], WordIsDir(b.parents[s]), b.sizes[s], b.exact[s]) == RowOf(job, names, m[s]);
    }
    assert b.names == NamesOf(v, m);
  }

  lemma MergeIsSorted(job: Job, names: seq<Name>)
    requires IsJob(job, names)
    ensures IsMerge(MergeOf(job, names))
  {
  }

  lemma NoTiesAreLoose(job: Job, names: seq<Name>)
    requires IsJob(job, names)
    ensures NoTies(MergeOf(job, names)) ==> TiesAreLoose(job, names)
  {
    hide Ties, Loose;
  }

  lemma OrderParts(order: seq<nat>, added: seq<DeltaRecord>)
    requires IsLiveOrder(order, added)
    ensures (forall k :: 0 <= k < |order| ==> order[k] < |added|) && forall k, l :: 0 <= k < l < |order| ==> order[k] != order[l]
  {
  }

  lemma RanksMatch(job: Job, rank: seq<nat>)
    requires |rank| == |job.added| && forall k :: 0 <= k < |job.order| ==> job.order[k] < |rank| && rank[job.order[k]] == k
    ensures IsRank(rank, job)
  {
  }

  lemma JobFits(job: Job, names: seq<Name>)
    requires IsJob(job, names) && |names| + |job.added| <= PARENT_NONE
    ensures Fits(job, names)
  {
    hide Codes, Sorted;
    Counting.Pigeonhole(job.order, |job.added|);
  }

  // ---- a tie -----------------------------------------------------------------------------

  /**
   * With a tie the formula names another record's slot: the base holds "a" and a live
   * addition "A" hangs below it. The merge puts the addition at 1, the formula says 0, so
   * patching makes "a" its own parent and leaves the addition without one.
   */
  lemma TieMisplacesParent()
    ensures
      var v := Merge([[97]], [0], [[65]]);
      && IsMerge(v)
      && SlotOfBase(v, 0) == 0 && SlotOfDelta(v, 0) == 1 && FormulaOfDelta(v, 0) == 0
  {
    var v := Merge([[97]], [0], [[65]]);
    assert CmpCi([97], [65]) == Equal && CmpCi([65], [97]) == Equal;
    assert CmpCi([97], [97]) == Equal && CmpCi([65], [65]) == Equal;
    assert v.base[..0] == [] && v.delta[..0] == [];
    assert !Bit(v.bits, 0);
  }
}
