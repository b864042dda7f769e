/** The FRN sidecar of a compaction: two ascending streams merged into one (view/compaction.rs, frnmap.rs). */
module CompactFrns {
  import opened Records
  import opened Ascii
  import opened Bits
  import opened CompactOrder
  import opened Compaction
  import opened DeltaState
  import opened Names
  import RankSelect

  /** What `save_streaming` demands of its input. */
  ghost predicate Ascending(entries: seq<FrnEntry>) {
    forall i, j :: 0 <= i < j < |entries| ==> entries[i].frn < entries[j].frn
  }

  /** The base sidecar: ascending, and naming base records. */
  ghost predicate IsSidecar(entries: seq<FrnEntry>, n: nat) {
    Ascending(entries) && forall i :: 0 <= i < |entries| ==> entries[i].index < n
  }

  // ---- the base half ---------------------------------------------------------------------

  /** The live base entries, each at its slot. */
  ghost predicate BaseHalf(out: seq<FrnEntry>, sidecar: seq<FrnEntry>, v: Merge, k: nat)
    requires k <= |sidecar|
  {
    && Ascending(out)
    && (forall e :: e in out ==> exists i :: 0 <= i < k && IsBaseEntry(e, sidecar[i], v))
    && (forall i :: 0 <= i < k && Live(v, sidecar[i].index) ==>
          FrnEntry(sidecar[i].frn, SlotOfBase(v, sidecar[i].index)) in out)
  }

  ghost predicate IsBaseEntry(e: FrnEntry, from: FrnEntry, v: Merge) {
    Live(v, from.index) && e == FrnEntry(from.frn, SlotOfBase(v, from.index))
  }

  lemma BaseHalfStep(out: seq<FrnEntry>, sidecar: seq<FrnEntry>, v: Merge, k: nat, slot: Option<nat>)
    requires k < |sidecar| && Ascending(sidecar) && BaseHalf(out, sidecar, v, k) && sidecar[k].index < |v.base|
    requires slot == if Live(v, sidecar[k].index) then Some(SlotOfBase(v, sidecar[k].index)) else None
    ensures BaseHalf(if slot.Some? then out + [FrnEntry(sidecar[k].frn, slot.value)] else out, sidecar, v, k + 1)
  {
    hide Live, SlotOfBase;
    if slot.Some? {
      var e := FrnEntry(sidecar[k].frn, slot.value);
      forall i | 0 <= i < |out| ensures out[i].frn < e.frn {
        assert out[i] in out;
        var j :| 0 <= j < k && IsBaseEntry(out[i], sidecar[j], v);
      }
      assert IsBaseEntry(e, sidecar[k], v);
    }
    forall e | e in out ensures exists i :: 0 <= i < k + 1 && IsBaseEntry(e, sidecar[i], v) {
      var i :| 0 <= i < k && IsBaseEntry(e, sidecar[i], v);
    }
  }

  /** Filters tombstoned entries out of the sidecar and remaps the rest; the order is kept. */
  method FilterBase(job: Job, samples: seq<nat>, sidecar: seq<FrnEntry>, ghost names: seq<Name>) returns (out: seq<FrnEntry>)
    requires IsJob(job, names) && RankSelect.IsSampled(job.bits, samples) && IsSidecar(sidecar, |names|)
    ensures BaseHalf(out, sidecar, MergeOf(job, names), |sidecar|)
  {
    hide IsJob, RankSelect.IsSampled, BaseHalf, Live, SlotOfBase;
    out := [];
    NoBaseHalf(sidecar, MergeOf(job, names));
    for k := 0 to |sidecar|
      invariant BaseHalf(out, sidecar, MergeOf(job, names), k)
    {
      var slot := FinalIndexOfBase(job, samples, sidecar[k].index, names);
      BaseHalfStep(out, sidecar, MergeOf(job, names), k, slot);
      if slot.Some? {
        out := out + [FrnEntry(sidecar[k].frn, slot.value)];
      }
    }
  }

  lemma NoBaseHalf(sidecar: seq<FrnEntry>, v: Merge)
    ensures BaseHalf([], sidecar, v, 0)
  {
  }

  // ---- the delta half --------------------------------------------------------------------

  /** frns_by_delta: the FRN each addition is known by, if any. */
  method FrnsByDelta(frns: map<Frn, nat>, n: nat) returns (byDelta: seq<Option<Frn>>)
    requires forall f :: f in frns ==> frns[f] < n
    requires forall f, g :: f in frns && g in frns && frns[f] == frns[g] ==> f == g
    ensures |byDelta| == n
    ensures forall f :: f in frns ==> byDelta[frns[f]] == Some(f)
    ensures forall j :: 0 <= j < n && byDelta[j].Some? ==> byDelta[j].value in frns && frns[byDelta[j].value] == j
  {
    byDelta := seq(n, _ => None);
    var keys := frns.Keys;
    while keys != {}
      invariant |byDelta| == n && keys <= frns.Keys
      invariant forall f :: f in frns && f !in keys ==> byDelta[frns[f]] == Some(f)
      invariant forall j :: 0 <= j < n && byDelta[j].Some? ==> byDelta[j].value in frns && frns[byDelta[j].value] == j
      decreases |keys|
    {
      var f :| f in keys;
      byDelta := byDelta[frns[f] := Some(f)];
      keys := keys - {f};
    }
  }

  function InsertEntry(s: seq<FrnEntry>, e: FrnEntry): seq<FrnEntry> {
    if s == [] || e.frn < s[0].frn then [e] + s else [s[0]] + InsertEntry(s[1..], e)
  }

  lemma {:induction false} InsertEntryKeeps(s: seq<FrnEntry>, e: FrnEntry)
    requires Ascending(s) && forall i :: 0 <= i < |s| ==> s[i].frn != e.frn
    ensures Ascending(InsertEntry(s, e)) && forall x :: x in InsertEntry(s, e) <==> x in s || x == e
  {
    if s != [] {
      assert s == [s[0]] + s[1..];
      if !(e.frn < s[0].frn) {
        InsertEntryKeeps(s[1..], e);
        var rest := InsertEntry(s[1..], e);
        forall i | 0 <= i < |rest| ensures s[0].frn < rest[i].frn {
          assert rest[i] in rest;
          if rest[i] != e {
            assert rest[i] in s[1..];
          }
        }
      }
    }
  }

  /** The live additions with a lower number than `j`, each where the formula puts it. */
  ghost predicate DeltaHalf(out: seq<FrnEntry>, added: seq<DeltaRecord>, byDelta: seq<Option<Frn>>, slots: nat -> nat, j: nat)
    requires |byDelta| == |added|
  {
    && Ascending(out)
    && forall e :: e in out <==> IsDeltaEntry(e, added, byDelta, slots, j)
  }

  ghost predicate IsDeltaEntry(e: FrnEntry, added: seq<DeltaRecord>, byDelta: seq<Option<Frn>>, slots: nat -> nat, j: nat)
    requires |byDelta| == |added|
  {
    exists i: nat :: i < j && i < |added| && added[i].live && byDelta[i] == Some(e.frn) && e.index == slots(i)
  }

  /** The slot the formula gives an addition. */
  ghost function FormulaSlots(job: Job, names: seq<Name>, rank: seq<nat>): nat -> nat
    requires IsJob(job, names)
  {
    (j: nat) => if j < |rank| && rank[j] < |job.order| then FormulaOfDelta(MergeOf(job, names), rank[j]) else 0
  }

  lemma DeltaHalfStep(out: seq<FrnEntry>, added: seq<DeltaRecord>, byDelta: seq<Option<Frn>>, slots: nat -> nat, j: nat)
    requires |byDelta| == |added| && j < |added| && DeltaHalf(out, added, byDelta, slots, j)
    requires forall i, k :: 0 <= i < k < |byDelta| && byDelta[i].Some? ==> byDelta[i] != byDelta[k]
    ensures DeltaHalf(if added[j].live && byDelta[j].Some? then InsertEntry(out, FrnEntry(byDelta[j].value, slots(j))) else out,
                      added, byDelta, slots, j + 1)
  {
    if added[j].live && byDelta[j].Some? {
      var e := FrnEntry(byDelta[j].value, slots(j));
      forall i | 0 <= i < |out| ensures out[i].frn != e.frn {
        assert out[i] in out;
      }
      InsertEntryKeeps(out, e);
      forall x ensures IsDeltaEntry(x, added, byDelta, slots, j + 1) <==> IsDeltaEntry(x, added, byDelta, slots, j) || x == e {
        if x == e {
          assert j < j + 1 && byDelta[j] == Some(x.frn);
        }
      }
    } else {
      forall x ensures IsDeltaEntry(x, added, byDelta, slots, j + 1) <==> IsDeltaEntry(x, added, byDelta, slots, j) {
      }
    }
  }

  /** The delta entries, sorted by FRN. */
  method DeltaEntries(job: Job, samples: seq<nat>, rank: seq<nat>, byDelta: seq<Option<Frn>>, ghost names: seq<Name>)
    returns (out: seq<FrnEntry>)
    requires IsJob(job, names) && IsRank(rank, job) && RankSelect.IsSampled(job.bits, samples) && |byDelta| == |job.added|
    requires forall i, k :: 0 <= i < k < |byDelta| && byDelta[i].Some? ==> byDelta[i] != byDelta[k]
    ensures DeltaHalf(out, job.added, byDelta, FormulaSlots(job, names, rank), |job.added|)
  {
    hide IsJob, RankSelect.IsSampled, DeltaHalf, FormulaOfDelta, InsertEntry;
    JobParts(job, names);
    out := [];
    NoDeltaHalf(job.added, byDelta, FormulaSlots(job, names, rank));
    for j := 0 to |job.added|
      invariant DeltaHalf(out, job.added, byDelta, FormulaSlots(job, names, rank), j)
    {
      DeltaHalfStep(out, job.added, byDelta, FormulaSlots(job, names, rank), j);
      if job.added[j].live && byDelta[j].Some? {
        RankedAt(job, names, rank, j);
        var slot := FinalIndexOfDelta(job, samples, rank, j, names, rank[j]);
        out := InsertEntry(out, FrnEntry(byDelta[j].value, slot));
      }
    }
  }

  lemma NoDeltaHalf(added: seq<DeltaRecord>, byDelta: seq<Option<Frn>>, slots: nat -> nat)
    requires |byDelta| == |added|
    ensures DeltaHalf([], added, byDelta, slots, 0)
  {
  }

  // ---- merging ---------------------------------------------------------------------------

  /** Nothing written so far is past what either stream still holds. */
  ghost predicate Behind(out: seq<FrnEntry>, rest: seq<FrnEntry>) {
    forall i, j :: 0 <= i < |out| && 0 <= j < |rest| ==> out[i].frn < rest[j].frn
  }

  ghost predicate Disjoint(a: seq<FrnEntry>, b: seq<FrnEntry>) {
    forall i, j :: 0 <= i < |a| && 0 <= j < |b| ==> a[i].frn != b[j].frn
  }

  /** The merged stream, the base first on equal FRNs. */
  method MergeEntries(a: seq<FrnEntry>, b: seq<FrnEntry>) returns (out: seq<FrnEntry>)
    requires Ascending(a) && Ascending(b) && Disjoint(a, b)
    ensures Ascending(out) && forall e :: e in out <==> e in a || e in b
  {
    out := [];
    var i, j := 0, 0;
    while i < |a| || j < |b|
      invariant i <= |a| && j <= |b|
      invariant Ascending(out) && Behind(out, a[i..]) && Behind(out, b[j..])
      invariant forall e :: e in out <==> e in a[..i] || e in b[..j]
      decreases |a| - i + |b| - j
    {
      if j == |b| || (i < |a| && a[i].frn <= b[j].frn) {
        MergeStep(out, a, i, b, j);
        out := out + [a[i]];
        i := i + 1;
      } else {
        MergeStep(out, b, j, a, i);
        out := out + [b[j]];
        j := j + 1;
      }
    }
    assert a[..i] == a && b[..j] == b;
  }

  lemma MergeStep(out: seq<FrnEntry>, a: seq<FrnEntry>, i: nat, b: seq<FrnEntry>, j: nat)
    requires i < |a| && j <= |b| && Ascending(a) && Ascending(b) && (Disjoint(a, b) || Disjoint(b, a))
    requires Ascending(out) && Behind(out, a[i..]) && Behind(out, b[j..])
    requires j < |b| ==> a[i].frn <= b[j].frn
    ensures Ascending(out + [a[i]]) && Behind(out + [a[i]], a[i + 1..]) && Behind(out + [a[i]], b[j..])
    ensures forall e :: e in a[..i + 1] <==> e in a[..i] || e == a[i]
    ensures forall e :: e in out + [a[i]] <==> e in out || e == a[i]
  {
    var head, tail, other := a[i..], a[i + 1..], b[j..];
    assert head[0] == a[i];
    forall k | 0 <= k < |other| ensures a[i].frn < other[k].frn {
      assert other[k] == b[j + k];
      assert k > 0 ==> b[j].frn < b[j + k].frn;
    }
    forall k | 0 <= k < |tail| ensures a[i].frn < tail[k].frn {
      assert tail[k] == a[i + 1 + k];
    }
    forall x, k | 0 <= x < |out| && 0 <= k < |tail| ensures out[x].frn < tail[k].frn {
      assert tail[k] == head[k + 1];
    }
    assert a[..i + 1] == a[..i] + [a[i]];
  }

  // ---- the sidecar of the output ---------------------------------------------------------

  /** The sidecar holds the base's FRN map; a base without a map has an empty one. */
  ghost predicate IsMapOf(sidecar: seq<FrnEntry>, base: BaseStore) {
    && (forall i :: 0 <= i < |sidecar| ==> Lookup(base, sidecar[i].frn) == Some(sidecar[i].index))
    && (forall f :: Lookup(base, f).Some? ==> FrnEntry(f, Lookup(base, f).value) in sidecar)
  }

  /** The delta whose additions and tombstones the job compacts. */
  ghost predicate IsDeltaOf(s: State, base: BaseStore, job: Job, names: seq<Name>, sidecar: seq<FrnEntry>) {
    && IsStore(base) && Inv(s, base) && base.records == |names|
    && s.added == job.added && IsMapOf(sidecar, base)
    && forall i: nat :: i < |names| ==> (Bit(job.bits, i) <==> i in s.tombs)
  }

  /** An FRN and the output slot of the live record it names. */
  ghost predicate LiveAt(e: FrnEntry, s: State, base: BaseStore, job: Job, names: seq<Name>, rank: seq<nat>)
    requires IsJob(job, names) && IsRank(rank, job)
  {
    if e.frn in s.frns then
      s.frns[e.frn] < |rank| && rank[s.frns[e.frn]] < |job.order| && e.index == SlotOfDelta(MergeOf(job, names), rank[s.frns[e.frn]])
    else
      Lookup(base, e.frn).Some? && Live(MergeOf(job, names), Lookup(base, e.frn).value)
      && e.index == SlotOfBase(MergeOf(job, names), Lookup(base, e.frn).value)
  }

  /** A base FRN that is live in the delta has its base record tombstoned, so the halves share no FRN. */
  lemma HalvesDisjoint(a: seq<FrnEntry>, b: seq<FrnEntry>, s: State, base: BaseStore, job: Job, names: seq<Name>,
                       sidecar: seq<FrnEntry>, byDelta: seq<Option<Frn>>, slots: nat -> nat)
    requires IsJob(job, names) && IsDeltaOf(s, base, job, names, sidecar) && |byDelta| == |job.added|
    requires BaseHalf(a, sidecar, MergeOf(job, names), |sidecar|)
    requires DeltaHalf(b, job.added, byDelta, slots, |job.added|)
    requires forall j :: 0 <= j < |byDelta| && byDelta[j].Some? ==> byDelta[j].value in s.frns
    ensures Disjoint(a, b)
    ensures forall e :: e in a ==> e.frn !in s.frns
  {
    hide IsJob, SlotOfBase, ParentNames, MapIsLive;
    forall e | e in a ensures e.frn !in s.frns {
      var i :| 0 <= i < |sidecar| && IsBaseEntry(e, sidecar[i], MergeOf(job, names));
      assert Lookup(base, e.frn) == Some(sidecar[i].index);
    }
    EntriesKnown(b, job.added, byDelta, slots, s.frns);
    forall i, j | 0 <= i < |a| && 0 <= j < |b| ensures a[i].frn != b[j].frn {
      assert a[i] in a && b[j] in b;
    }
  }

  lemma EntriesKnown(b: seq<FrnEntry>, added: seq<DeltaRecord>, byDelta: seq<Option<Frn>>, slots: nat -> nat, frns: map<Frn, nat>)
    requires |byDelta| == |added| && DeltaHalf(b, added, byDelta, slots, |added|)
    requires forall j :: 0 <= j < |byDelta| && byDelta[j].Some? ==> byDelta[j].value in frns
    ensures forall e :: e in b ==> e.frn in frns
  {
    forall e | e in b ensures e.frn in frns {
      assert IsDeltaEntry(e, added, byDelta, slots, |added|);
    }
  }

  lemma FrnParts(s: State, base: BaseStore)
    requires Inv(s, base)
    ensures forall f :: f in s.frns ==> s.frns[f] < |s.added| && s.added[s.frns[f]].live
    ensures forall f, g :: f in s.frns && g in s.frns && s.frns[f] == s.frns[g] ==> f == g
  {
    hide ParentNames, OnePlace;
    forall f, g | f in s.frns && g in s.frns && s.frns[f] == s.frns[g] ensures f == g {
      assert s.ids[s.frns[f]].frn == f && s.ids[s.frns[g]].frn == g;
    }
  }

  lemma DistinctFrns(byDelta: seq<Option<Frn>>, frns: map<Frn, nat>)
    requires forall j :: 0 <= j < |byDelta| && byDelta[j].Some? ==> byDelta[j].value in frns && frns[byDelta[j].value] == j
    ensures forall i, k :: 0 <= i < k < |byDelta| && byDelta[i].Some? ==> byDelta[i] != byDelta[k]
  {
  }

  /**
   * The sidecar written beside the snapshot: always strictly ascending; it sends each live
   * FRN, and no other, to the slot of its record if and only if nothing ties.
   */
  method MergeFrns(job: Job, samples: seq<nat>, rank: seq<nat>, sidecar: seq<FrnEntry>, addedFrns: map<Frn, nat>,
                   ghost s: State, ghost base: BaseStore, ghost names: seq<Name>)
    returns (out: seq<FrnEntry>)
    requires IsJob(job, names) && IsRank(rank, job) && RankSelect.IsSampled(job.bits, samples)
    requires IsSidecar(sidecar, |names|) && IsDeltaOf(s, base, job, names, sidecar) && addedFrns == s.frns
    ensures Ascending(out)
    ensures NoTies(MergeOf(job, names)) <==> forall e :: e in out <==> LiveAt(e, s, base, job, names, rank)
  {
    hide IsJob, RankSelect.IsSampled, BaseHalf, DeltaHalf, FormulaSlots, Inv, NoTies, IsMapOf, LiveAt;
    FrnParts(s, base);
    var byDelta := FrnsByDelta(addedFrns, |job.added|);
    DistinctFrns(byDelta, addedFrns);
    var deltaHalf := DeltaEntries(job, samples, rank, byDelta, names);
    var baseHalf := FilterBase(job, samples, sidecar, names);
    HalvesDisjoint(baseHalf, deltaHalf, s, base, job, names, sidecar, byDelta, FormulaSlots(job, names, rank));
    HalfParts(baseHalf, deltaHalf, sidecar, MergeOf(job, names), job.added, byDelta, FormulaSlots(job, names, rank));
    out := MergeEntries(baseHalf, deltaHalf);
    if NoTies(MergeOf(job, names)) {
      forall e ensures e in out <==> LiveAt(e, s, base, job, names, rank) {
        EntryIsLive(e, baseHalf, deltaHalf, job, names, rank, sidecar, byDelta, s, base);
      }
    } else {
      ghost var missing := TieMisplacesFrn(baseHalf, deltaHalf, job, names, rank, byDelta, s, base);
      assert missing !in out && LiveAt(missing, s, base, job, names, rank);
    }
  }

  /** The FRN of a tied addition is sent to the formula's slot, which is not the addition's. */
  lemma TieMisplacesFrn(a: seq<FrnEntry>, b: seq<FrnEntry>, job: Job, names: seq<Name>, rank: seq<nat>, byDelta: seq<Option<Frn>>,
                        s: State, base: BaseStore)
    returns (e: FrnEntry)
    requires IsJob(job, names) && IsRank(rank, job) && Inv(s, base) && s.added == job.added && |byDelta| == |job.added|
    requires DeltaHalf(b, job.added, byDelta, FormulaSlots(job, names, rank), |job.added|)
    requires forall j :: 0 <= j < |byDelta| && byDelta[j].Some? ==> byDelta[j].value in s.frns && s.frns[byDelta[j].value] == j
    requires (forall x :: x in a ==> x.frn !in s.frns) && !NoTies(MergeOf(job, names))
    ensures e !in a && e !in b && LiveAt(e, s, base, job, names, rank)
  {
    hide IsJob, FormulaOfDelta, SlotOfDelta, Ties, ParentNames, OnePlace;
    JobParts(job, names);
    var v := MergeOf(job, names);
    var k: nat :| k < |v.delta| && Ties(v, k) != {};
    var j := job.order[k];
    OrderIsLive(job, names, k);
    TheoremDeltaFormula(v, k);
    e := FrnEntry(s.ids[j].frn, SlotOfDelta(v, k));
    assert e in b ==> IsDeltaEntry(e, job.added, byDelta, FormulaSlots(job, names, rank), |job.added|);
  }

  lemma HalfParts(a: seq<FrnEntry>, b: seq<FrnEntry>, sidecar: seq<FrnEntry>, v: Merge, added: seq<DeltaRecord>,
                  byDelta: seq<Option<Frn>>, slots: nat -> nat)
    requires |byDelta| == |added| && BaseHalf(a, sidecar, v, |sidecar|) && DeltaHalf(b, added, byDelta, slots, |added|)
    ensures Ascending(a) && Ascending(b)
  {
  }

  lemma EntryIsLive(e: FrnEntry, a: seq<FrnEntry>, b: seq<FrnEntry>, job: Job, names: seq<Name>, rank: seq<nat>,
                    sidecar: seq<FrnEntry>, byDelta: seq<Option<Frn>>, s: State, base: BaseStore)
    requires IsJob(job, names) && IsRank(rank, job) && IsDeltaOf(s, base, job, names, sidecar) && |byDelta| == |job.added|
    requires BaseHalf(a, sidecar, MergeOf(job, names), |sidecar|)
    requires DeltaHalf(b, job.added, byDelta, FormulaSlots(job, names, rank), |job.added|)
    requires forall f :: f in s.frns ==> s.frns[f] < |byDelta| && byDelta[s.frns[f]] == Some(f)
    requires forall j :: 0 <= j < |byDelta| && byDelta[j].Some? ==> byDelta[j].value in s.frns && s.frns[byDelta[j].value] == j
    requires (forall x :: x in a ==> x.frn !in s.frns) && NoTies(MergeOf(job, names))
    ensures e in a || e in b <==> LiveAt(e, s, base, job, names, rank)
  {
    EntriesKnown(b, job.added, byDelta, FormulaSlots(job, names, rank), s.frns);
    if e.frn in s.frns {
      DeltaEntryIsLive(e, b, job, names, rank, byDelta, s, base);
    } else {
      hide IsJob, IsRank, SlotOfBase, SlotOfDelta, NoTies, FormulaSlots, Inv, Live;
      BaseEntryIsLive(e, a, sidecar, MergeOf(job, names), base);
    }
  }

  lemma BaseEntryIsLive(e: FrnEntry, a: seq<FrnEntry>, sidecar: seq<FrnEntry>, v: Merge, base: BaseStore)
    requires IsMapOf(sidecar, base) && BaseHalf(a, sidecar, v, |sidecar|)
    ensures e in a <==> Lookup(base, e.frn).Some? && Live(v, Lookup(base, e.frn).value) && e.index == SlotOfBase(v, Lookup(base, e.frn).value)
  {
    hide SlotOfBase, Bit, Lookup;
    if e in a {
      var i :| 0 <= i < |sidecar| && IsBaseEntry(e, sidecar[i], v);
    }
    if Lookup(base, e.frn).Some? && Live(v, Lookup(base, e.frn).value) && e.index == SlotOfBase(v, Lookup(base, e.frn).value) {
      var x := FrnEntry(e.frn, Lookup(base, e.frn).value);
      assert x in sidecar;
      var i :| 0 <= i < |sidecar| && sidecar[i] == x;
      assert FrnEntry(sidecar[i].frn, SlotOfBase(v, sidecar[i].index)) in a;
    }
  }

  lemma DeltaEntryIsLive(e: FrnEntry, b: seq<FrnEntry>, job: Job, names: seq<Name>, rank: seq<nat>, byDelta: seq<Option<Frn>>,
                         s: State, base: BaseStore)
    requires IsJob(job, names) && IsRank(rank, job) && Inv(s, base) && s.added == job.added && |byDelta| == |job.added|
    requires DeltaHalf(b, job.added, byDelta, FormulaSlots(job, names, rank), |job.added|)
    requires forall f :: f in s.frns ==> s.frns[f] < |byDelta| && byDelta[s.frns[f]] == Some(f)
    requires forall j :: 0 <= j < |byDelta| && byDelta[j].Some? ==> byDelta[j].value in s.frns && s.frns[byDelta[j].value] == j
    requires e.frn in s.frns && NoTies(MergeOf(job, names))
    ensures e in b <==> LiveAt(e, s, base, job, names, rank)
  {
    hide IsJob, IsRank, Inv, FormulaOfDelta, SlotOfDelta, Ties;
    FrnParts(s, base);
    RankLength(rank, job);
    var j := s.frns[e.frn];
    RankedAt(job, names, rank, j);
    TheoremDeltaFormula(MergeOf(job, names), rank[j]);
    assert FormulaSlots(job, names, rank)(j) == SlotOfDelta(MergeOf(job, names), rank[j]);
    if e in b {
      var i: nat :| i < |job.added| && job.added[i].live && byDelta[i] == Some(e.frn) && e.index == FormulaSlots(job, names, rank)(i);
    }
    if LiveAt(e, s, base, job, names, rank) {
      assert job.added[j].live && byDelta[j] == Some(e.frn) && e.index == FormulaSlots(job, names, rank)(j);
      assert IsDeltaEntry(e, job.added, byDelta, FormulaSlots(job, names, rank), |job.added|);
    }
  }

  lemma RankLength(rank: seq<nat>, job: Job)
    requires IsRank(rank, job)
    ensures |rank| == |job.added|
  {
  }
}
