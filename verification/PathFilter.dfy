/** What a metadata filter lets through, and what that means for an answer (view/ranked.rs). */
module PathFilter {
  import opened Records
  import opened Ascii
  import opened DeltaState
  import opened PathDelta
  import opened PathRank
  import opened PathWorld
  import opened TopK
  import PathSeed

  // ---- filters of one constraint -----------------------------------------------------------

  function OnlyKind(kind: EntryKind): Filter {
    Unfiltered().(kind := Some(kind))
  }

  function OnlyExtensions(wanted: seq<Name>): Filter {
    Unfiltered().(extensions := wanted)
  }

  function OnlyMinSize(bytes: nat): Filter {
    Unfiltered().(minSize := Some(bytes))
  }

  function OnlyMaxSize(bytes: nat): Filter {
    Unfiltered().(maxSize := Some(bytes))
  }

  function OnlyMinTime(time: nat): Filter {
    Unfiltered().(minMtime := Some(time))
  }

  function OnlyMaxTime(time: nat): Filter {
    Unfiltered().(maxMtime := Some(time))
  }

  /** A filter lets a record through exactly when each of its constraints alone does. */
  lemma TheoremFilterIsItsParts(cols: Columns, r: nat, name: Name, f: Filter)
    ensures MatchesFilter(cols, r, name, Unfiltered())
    ensures MatchesFilter(cols, r, name, f) <==>
      && (f.kind.Some? ==> MatchesFilter(cols, r, name, OnlyKind(f.kind.value)))
      && (f.extensions != [] ==> MatchesFilter(cols, r, name, OnlyExtensions(f.extensions)))
      && (f.minSize.Some? ==> MatchesFilter(cols, r, name, OnlyMinSize(f.minSize.value)))
      && (f.maxSize.Some? ==> MatchesFilter(cols, r, name, OnlyMaxSize(f.maxSize.value)))
      && (f.minMtime.Some? ==> MatchesFilter(cols, r, name, OnlyMinTime(f.minMtime.value)))
      && (f.maxMtime.Some? ==> MatchesFilter(cols, r, name, OnlyMaxTime(f.maxMtime.value)))
  {
    hide Extension, AnyExtension;
  }

  /** The two kinds split the records, and directories are those marked so. */
  lemma TheoremKindsSplit(cols: Columns, r: nat, name: Name)
    ensures MatchesFilter(cols, r, name, OnlyKind(Directory)) <==> cols.isDir(r)
    ensures MatchesFilter(cols, r, name, OnlyKind(File)) <==> !MatchesFilter(cols, r, name, OnlyKind(Directory))
  {
  }

  /**
   * Sizes: an inexact size meets no bound. For exact ones a record fails a minimum exactly if
   * it meets the maximum just below, and equal bounds of k KiB leave exactly the records of k KiB.
   */
  lemma TheoremSizeBounds(cols: Columns, r: nat, name: Name, bytes: nat, kib: nat)
    ensures !cols.sizeExact(r) ==>
      !MatchesFilter(cols, r, name, OnlyMinSize(bytes)) && !MatchesFilter(cols, r, name, OnlyMaxSize(bytes))
    ensures cols.sizeExact(r) ==>
      (MatchesFilter(cols, r, name, OnlyMaxSize(bytes)) <==> !MatchesFilter(cols, r, name, OnlyMinSize(bytes + 1)))
    ensures MatchesFilter(cols, r, name, OnlyMinSize(kib * 1024)) && MatchesFilter(cols, r, name, OnlyMaxSize(kib * 1024)) <==>
      cols.sizeExact(r) && cols.sizeKib(r) == kib
  {
  }

  /** A larger record meets every minimum a smaller one meets, and a lower minimum is easier to meet; maxima the other way round. */
  lemma TheoremSizeBoundsClosed(cols: Columns, a: nat, b: nat, name: Name, low: nat, high: nat)
    requires cols.sizeExact(a) && cols.sizeExact(b) && cols.sizeKib(a) <= cols.sizeKib(b) && low <= high
    ensures MatchesFilter(cols, a, name, OnlyMinSize(high)) ==> MatchesFilter(cols, b, name, OnlyMinSize(low))
    ensures MatchesFilter(cols, b, name, OnlyMaxSize(low)) ==> MatchesFilter(cols, a, name, OnlyMaxSize(high))
  {
  }

  lemma TheoremTimeBounds(cols: Columns, r: nat, name: Name, time: nat)
    ensures MatchesFilter(cols, r, name, OnlyMaxTime(time)) <==> !MatchesFilter(cols, r, name, OnlyMinTime(time + 1))
    ensures MatchesFilter(cols, r, name, OnlyMinTime(time)) && MatchesFilter(cols, r, name, OnlyMaxTime(time)) <==> cols.mtime(r) == time
  {
  }

  /** A later record meets every minimum an earlier one meets; maxima the other way round. */
  lemma TheoremTimeBoundsClosed(cols: Columns, a: nat, b: nat, name: Name, low: nat, high: nat)
    requires cols.mtime(a) <= cols.mtime(b) && low <= high
    ensures MatchesFilter(cols, a, name, OnlyMinTime(high)) ==> MatchesFilter(cols, b, name, OnlyMinTime(low))
    ensures MatchesFilter(cols, b, name, OnlyMaxTime(low)) ==> MatchesFilter(cols, a, name, OnlyMaxTime(high))
  {
  }

  // ---- extensions --------------------------------------------------------------------------

  /** `ext` is what follows the last dot of the name. */
  ghost predicate EndsIn(name: Name, ext: Name) {
    DOT !in ext && exists stem: Name :: name == stem + [DOT] + ext
  }

  /** The name ends in one of the wanted extensions, whatever their case. */
  ghost predicate HasExtension(name: Name, wanted: seq<Name>) {
    exists ext: Name, i: nat :: i < |wanted| && EndsIn(name, ext) && LowerAll(ext) == LowerAll(wanted[i])
  }

  lemma {:induction false} ExtensionEnds(name: Name)
    ensures DOT !in Extension(name) && |Extension(name)| <= |name|
    ensures |Extension(name)| != |name| ==> EndsIn(name, Extension(name))
    ensures |Extension(name)| == |name| ==> Extension(name) == name
  {
    if name != [] && name[|name| - 1] != DOT {
      var front, last := name[..|name| - 1], [name[|name| - 1]];
      ExtensionEnds(front);
      assert name == front + last;
      if |Extension(front)| != |front| {
        var stem: Name :| front == stem + [DOT] + Extension(front);
        assert name == stem + [DOT] + (Extension(front) + last);
      }
    } else if name != [] {
      assert name == name[..|name| - 1] + [DOT] + [];
    }
  }

  lemma {:induction false} ExtensionIsUnique(name: Name, stem: Name, ext: Name)
    requires name == stem + [DOT] + ext && DOT !in ext
    ensures Extension(name) == ext
    decreases |ext|
  {
    if ext == [] {
      assert name[|name| - 1] == DOT;
    } else {
      var front := ext[..|ext| - 1];
      assert name[|name| - 1] == ext[|ext| - 1];
      assert name[..|name| - 1] == stem + [DOT] + front;
      ExtensionIsUnique(name[..|name| - 1], stem, front);
      assert ext == front + [ext[|ext| - 1]];
    }
  }

  /** An extension filter lets through exactly the files whose name ends in a dot and a wanted extension. */
  lemma TheoremExtensions(cols: Columns, r: nat, name: Name, wanted: seq<Name>)
    requires wanted != []
    ensures MatchesFilter(cols, r, name, OnlyExtensions(wanted)) <==> !cols.isDir(r) && HasExtension(name, wanted)
  {
    hide Extension;
    ExtensionEnds(name);
    var ext := Extension(name);
    if |ext| != |name| && AnyExtension(ext, wanted) {
      var i :| 0 <= i < |wanted| && CmpCi(ext, wanted[i]) == Equal;
      TiesAreFolds(ext, wanted[i]);
      assert EndsIn(name, ext) && LowerAll(ext) == LowerAll(wanted[i]);
    }
    if HasExtension(name, wanted) {
      var e: Name, i: nat :| i < |wanted| && EndsIn(name, e) && LowerAll(e) == LowerAll(wanted[i]);
      var stem: Name :| name == stem + [DOT] + e;
      ExtensionIsUnique(name, stem, e);
      TiesAreFolds(e, wanted[i]);
    }
  }

  // ---- what an answer reports ----------------------------------------------------------------

  /** What a user asks of a record's metadata. */
  ghost predicate Satisfies(cols: Columns, r: nat, name: Name, f: Filter) {
    && (f.kind.Some? ==> (f.kind.value == Directory <==> cols.isDir(r)))
    && (f.extensions != [] ==> !cols.isDir(r) && HasExtension(name, f.extensions))
    && (f.minSize.Some? || f.maxSize.Some? ==> cols.sizeExact(r))
    && (f.minSize.Some? ==> f.minSize.value <= cols.sizeKib(r) * 1024)
    && (f.maxSize.Some? ==> f.maxSize.value >= cols.sizeKib(r) * 1024)
    && (f.minMtime.Some? ==> f.minMtime.value <= cols.mtime(r))
    && (f.maxMtime.Some? ==> f.maxMtime.value >= cols.mtime(r))
  }

  lemma FilterSatisfied(cols: Columns, r: nat, name: Name, f: Filter)
    ensures MatchesFilter(cols, r, name, f) <==> Satisfies(cols, r, name, f)
  {
    TheoremFilterIsItsParts(cols, r, name, f);
    if f.extensions != [] {
      TheoremExtensions(cols, r, name, f.extensions);
    }
    hide Extension, AnyExtension, HasExtension;
  }

  /** A live record the search should report: every term found, and the filter satisfied. */
  ghost predicate IsWanted(ask: Ask, w: World, added: seq<DeltaRecord>, r: nat)
    requires IsWorld(w) && IsAdded(added, w)
  {
    if r < Size(w) then PathHit(w, ask.terms, r) && Satisfies(ask.cols, r, w.names[r], ask.filter)
    else
      && WalkHit(added, w, ask.terms, r - Size(w))
      && Satisfies(ask.cols, r, added[r - Size(w)].name, ask.filter)
  }

  lemma KeyKeepsRecord(ask: Ask, record: nat, name: Name)
    requires ask.cols.mtime(record) < U32 && ask.cols.sizeKib(record) < U32 && record < U32
    ensures KeyRecord(NamedKey(ask, record, name)) == record
  {
    var size := if ask.cols.sizeExact(record) then ask.cols.sizeKib(record) else 0;
    PackedParts(U32 - 1 - ask.cols.mtime(record), record);
    PackedParts(U32 - 1 - size, record);
    var quality := Missing(ask.terms, PathSeed.MaskOf(ask.terms, name));
    PackedParts(quality * 0x100_0000 + if |name| < NAME_LEN_MAX then |name| else NAME_LEN_MAX, record);
  }

  lemma {:induction false} InKeysOver(ask: Ask, w: World, s: set<nat>, key: Key)
    requires IsAsk(ask, w) && Inside(s, w)
    ensures key in KeysOver(ask, w, s) <==> exists r :: r in s && key == KeyOf(ask, w, r)
    decreases |s|
  {
    hide IsAsk, KeyOf;
    if s != {} {
      var r :| r in s;
      KeysWithout(ask, w, s, r);
      InKeysOver(ask, w, s - {r}, key);
      if key in KeysOver(ask, w, s) && key != KeyOf(ask, w, r) {
        var x :| x in s - {r} && key == KeyOf(ask, w, x);
      }
      if x :| x in s && key == KeyOf(ask, w, x) && x != r {
        assert x in s - {r};
      }
    }
  }

  /** The addition is offered: live, let through and found by the walk. */
  ghost predicate IsOffered(ask: Ask, w: World, added: seq<DeltaRecord>, i: nat)
    requires IsWorld(w) && IsAdded(added, w)
  {
    i < |added| && AddedPasses(ask, Size(w), added, i) && WalkHit(added, w, ask.terms, i)
  }

  ghost function OfferedKey(ask: Ask, w: World, added: seq<DeltaRecord>, i: nat): Key
    requires IsAsk(ask, w) && i < |added|
  {
    NamedKey(ask, Size(w) + i, added[i].name)
  }

  lemma {:induction false} InAddedKeys(ask: Ask, w: World, added: seq<DeltaRecord>, k: nat, key: Key)
    requires IsAsk(ask, w) && IsWorld(w) && IsAdded(added, w) && k <= |added|
    ensures key in AddedKeys(ask, w, added, k) <==>
      exists i: nat :: i < k && IsOffered(ask, w, added, i) && key == OfferedKey(ask, w, added, i)
  {
    hide IsAsk, IsWorld, IsAdded, AddedKey, IsOffered, OfferedKey;
    if k > 0 {
      InAddedKeys(ask, w, added, k - 1, key);
      AddedKeyIs(ask, w, added, k - 1);
      if i: nat :| i < k && IsOffered(ask, w, added, i) && key == OfferedKey(ask, w, added, i) && i != k - 1 {
        assert i < k - 1;
      }
    }
  }

  lemma AddedKeyIs(ask: Ask, w: World, added: seq<DeltaRecord>, i: nat)
    requires IsAsk(ask, w) && IsWorld(w) && IsAdded(added, w) && i < |added|
    ensures AddedKey(ask, w, added, i) == if IsOffered(ask, w, added, i) then multiset{OfferedKey(ask, w, added, i)} else multiset{}
  {
    hide IsWorld, IsAdded, WalkHit, AddedPasses, NamedKey;
  }

  /** Reported records are wanted, and while there is room every wanted record is reported. */
  ghost predicate ReportsWanted(hits: seq<Key>, ask: Ask, w: World, added: seq<DeltaRecord>)
    requires IsWorld(w) && IsAdded(added, w)
  {
    && (forall h :: h in hits ==> IsWanted(ask, w, added, KeyRecord(h)))
    && (|hits| < ask.limit ==> forall r: nat :: IsWanted(ask, w, added, r) ==> IsReported(hits, r))
  }

  predicate IsReported(hits: seq<Key>, r: nat) {
    exists h :: h in hits && KeyRecord(h) == r
  }

  lemma BaseKeyIsWanted(ask: Ask, w: World, added: seq<DeltaRecord>, r: nat)
    requires IsAsk(ask, w) && IsWorld(w) && IsAdded(added, w) && r < Size(w) <= U32
    ensures r in Chosen(ask, w, BaseHits(ask, w)) <==> IsWanted(ask, w, added, r)
    ensures KeyRecord(KeyOf(ask, w, r)) == r
  {
    hide IsWorld, IsAdded, OnPath, NamedKey, MatchesFilter, Satisfies, WalkHit, KeyRecord;
    FilterSatisfied(ask.cols, r, w.names[r], ask.filter);
    AskFits(ask, w);
    KeyKeepsRecord(ask, r, w.names[r]);
  }

  lemma AddedKeyIsWanted(ask: Ask, w: World, added: seq<DeltaRecord>, i: nat)
    requires IsAsk(ask, w) && IsWorld(w) && IsAdded(added, w) && i < |added| && Size(w) + |added| <= U32
    ensures IsOffered(ask, w, added, i) <==> IsWanted(ask, w, added, Size(w) + i)
    ensures KeyRecord(OfferedKey(ask, w, added, i)) == Size(w) + i
  {
    hide IsWorld, IsAdded, MaskAbove, NamedKey, MatchesFilter, Satisfies, PathHit, KeyRecord;
    FilterSatisfied(ask.cols, Size(w) + i, added[i].name, ask.filter);
    AskFits(ask, w);
    KeyKeepsRecord(ask, Size(w) + i, added[i].name);
  }

  lemma KeyIsWanted(ask: Ask, w: World, added: seq<DeltaRecord>, key: Key)
    requires IsAsk(ask, w) && IsWorld(w) && IsAdded(added, w) && Size(w) + |added| <= U32
    requires key in ChosenKeys(ask, w, BaseHits(ask, w)) + AddedKeys(ask, w, added, |added|)
    ensures IsWanted(ask, w, added, KeyRecord(key))
  {
    hide IsAsk, IsWorld, IsAdded, IsWanted, IsOffered, OfferedKey, KeyOf, KeysOver, AddedKeys, Chosen, KeyRecord;
    var chosen := Chosen(ask, w, BaseHits(ask, w));
    if key in KeysOver(ask, w, chosen) {
      InKeysOver(ask, w, chosen, key);
      var r :| r in chosen && key == KeyOf(ask, w, r);
      BaseKeyIsWanted(ask, w, added, r);
    } else {
      InAddedKeys(ask, w, added, |added|, key);
      var i: nat :| i < |added| && IsOffered(ask, w, added, i) && key == OfferedKey(ask, w, added, i);
      AddedKeyIsWanted(ask, w, added, i);
    }
  }

  lemma WantedHasKey(ask: Ask, w: World, added: seq<DeltaRecord>, r: nat) returns (key: Key)
    requires IsAsk(ask, w) && IsWorld(w) && IsAdded(added, w) && Size(w) + |added| <= U32 && IsWanted(ask, w, added, r)
    ensures key in ChosenKeys(ask, w, BaseHits(ask, w)) + AddedKeys(ask, w, added, |added|) && KeyRecord(key) == r
  {
    hide *;
    WantedInside(ask, w, added, r);
    if r < Size(w) {
      BaseKeyIsWanted(ask, w, added, r);
      key := KeyOf(ask, w, r);
      ChosenHasKey(ask, w, r);
    } else {
      var i := r - Size(w);
      AddedKeyIsWanted(ask, w, added, i);
      key := OfferedKey(ask, w, added, i);
      InAddedKeys(ask, w, added, |added|, key);
    }
    InSum(ChosenKeys(ask, w, BaseHits(ask, w)), AddedKeys(ask, w, added, |added|), key);
  }

  lemma ChosenHasKey(ask: Ask, w: World, r: nat)
    requires IsAsk(ask, w) && IsWorld(w) && r < Size(w) && r in Chosen(ask, w, BaseHits(ask, w))
    ensures KeyOf(ask, w, r) in ChosenKeys(ask, w, BaseHits(ask, w))
  {
    hide IsAsk, IsWorld, KeyOf, KeysOver, Chosen;
    InKeysOver(ask, w, Chosen(ask, w, BaseHits(ask, w)), KeyOf(ask, w, r));
  }

  lemma InSum(a: multiset<Key>, b: multiset<Key>, key: Key)
    ensures key in a + b <==> key in a || key in b
  {
  }

  lemma WantedInside(ask: Ask, w: World, added: seq<DeltaRecord>, r: nat)
    requires IsWorld(w) && IsAdded(added, w) && IsWanted(ask, w, added, r)
    ensures r < Size(w) + |added|
  {
    hide Satisfies, MaskAbove;
  }

  lemma RoomForAll(all: multiset<Key>, limit: nat, kept: multiset<Key>)
    requires IsBest(all, limit, kept)
    ensures kept <= all && (|kept| < limit ==> kept == all)
  {
    SubmultisetSize(kept, all);
  }

  /** What the best keys of a path search say about its records. */
  lemma TheoremAnswerRespectsFilter(hits: seq<Key>, ask: Ask, w: World, added: seq<DeltaRecord>)
    requires IsAsk(ask, w) && IsWorld(w) && IsAdded(added, w) && Size(w) + |added| <= U32
    requires IsBest(ChosenKeys(ask, w, BaseHits(ask, w)) + AddedKeys(ask, w, added, |added|), ask.limit, multiset(hits))
    ensures ReportsWanted(hits, ask, w, added)
  {
    hide IsAsk, IsWorld, IsAdded, IsWanted, IsBest, ChosenKeys, AddedKeys, KeyRecord;
    var all := ChosenKeys(ask, w, BaseHits(ask, w)) + AddedKeys(ask, w, added, |added|);
    RoomForAll(all, ask.limit, multiset(hits));
    forall h | h in hits ensures IsWanted(ask, w, added, KeyRecord(h)) {
      assert h in multiset(hits);
      KeyIsWanted(ask, w, added, h);
    }
    if |hits| < ask.limit {
      forall r: nat | IsWanted(ask, w, added, r) ensures IsReported(hits, r) {
        var key := WantedHasKey(ask, w, added, r);
        assert key in multiset(hits);
      }
    }
  }
}
