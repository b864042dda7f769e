/** Path terms over the additions of a delta (view/path_search.rs). */
module PathDelta {
  import opened Records
  import opened Ascii
  import opened Cancel
  import opened DeltaState
  import opened Intervals
  import opened PathRank
  import opened PathSeed
  import opened PathTerms
  import opened PathWorld
  import opened Query
  import opened TopK
  import opened TreeOrder

  const MAX_HOPS: nat := 512

  /** The additions as a reachable delta leaves them: parents come first, base parents exist. */
  ghost predicate IsAdded(added: seq<DeltaRecord>, w: World) {
    forall i :: 0 <= i < |added| ==>
      (added[i].parent.AtDelta? ==> added[i].parent.index < i) && (added[i].parent.AtBase? ==> added[i].parent.index < Size(w))
  }

  /** Any delta the event machine reaches is of this kind. */
  lemma ReachableIsAdded(s: State, base: BaseStore, w: World)
    requires IsStore(base) && DeltaState.Inv(s, base) && base.records == Size(w)
    ensures IsAdded(s.added, w)
  {
    forall i | 0 <= i < |s.added|
      ensures s.added[i].parent.AtDelta? ==> s.added[i].parent.index < i
      ensures s.added[i].parent.AtBase? ==> s.added[i].parent.index < Size(w)
    {
      assert ParentNames(s, base, i);
    }
  }

  // ---- the reference definition --------------------------------------------------------

  /** The addition stands and can hold others. */
  predicate Holds(added: seq<DeltaRecord>, i: nat) {
    i < |added| && added[i].live && added[i].meta.isDir
  }

  /** The term occurs above: in a live directory among the added ancestors, or on the path of the base record they end at. */
  ghost predicate TermAbove(added: seq<DeltaRecord>, w: World, term: Name, parent: ParentRef, bound: nat)
    requires IsWorld(w) && IsAdded(added, w) && bound <= |added|
    requires parent.AtDelta? ==> parent.index < bound
    requires parent.AtBase? ==> parent.index < Size(w)
    decreases bound
  {
    match parent
    case Rootless => false
    case AtBase(p) => OnPath(w, term, p)
    case AtDelta(i) => Holds(added, i) && (Contains(added[i].name, term) || TermAbove(added, w, term, added[i].parent, i))
  }

  /** Following parent references up from `parent` meets these live directories and stops before `last`. */
  ghost predicate Climbs(added: seq<DeltaRecord>, parent: ParentRef, chain: seq<nat>, last: ParentRef) {
    && (forall k: nat :: k < |chain| ==> chain[k] < |added| && added[chain[k]].live && added[chain[k]].meta.isDir)
    && (forall k: nat, m: nat :: k < |chain| && m < |chain| && m == k + 1 ==> added[chain[k]].parent == AtDelta(chain[m]))
    && (if chain == [] then last == parent
        else parent == AtDelta(chain[0]) && chain[|chain| - 1] < |added| && last == added[chain[|chain| - 1]].parent)
  }

  /** The climb ends in a directory with the term in its name, or before a base record with the term on its path. */
  ghost predicate Meets(added: seq<DeltaRecord>, w: World, term: Name, chain: seq<nat>, last: ParentRef)
    requires IsWorld(w)
  {
    || (chain != [] && chain[|chain| - 1] < |added| && Contains(added[chain[|chain| - 1]].name, term))
    || (last.AtBase? && last.index < Size(w) && OnPath(w, term, last.index))
  }

  /** A term occurs above exactly when some climb through live directories meets it. */
  lemma {:induction false} TheoremTermAbove(added: seq<DeltaRecord>, w: World, term: Name, parent: ParentRef, bound: nat)
    requires IsWorld(w) && IsAdded(added, w) && bound <= |added|
    requires parent.AtDelta? ==> parent.index < bound
    requires parent.AtBase? ==> parent.index < Size(w)
    ensures TermAbove(added, w, term, parent, bound) <==>
      exists chain, last :: Climbs(added, parent, chain, last) && Meets(added, w, term, chain, last)
    decreases bound
  {
    hide Contains, IsWorld, OnPath, Climbs, Meets;
    if parent.AtDelta? {
      var i := parent.index;
      TheoremTermAbove(added, w, term, added[i].parent, i);
      if Holds(added, i) {
        FirstStep(added, w, term, i);
        forall chain, last { LaterSteps(added, w, term, i, chain, last); }
      }
      forall chain, last | Climbs(added, parent, chain, last) && Meets(added, w, term, chain, last)
        ensures TermAbove(added, w, term, parent, bound)
      {
        ClimbStarts(added, w, term, i, chain, last);
      }
    } else {
      forall chain, last { NoStep(added, w, term, parent, chain, last); }
      NoStep(added, w, term, parent, [], parent);
    }
  }

  lemma NoStep(added: seq<DeltaRecord>, w: World, term: Name, parent: ParentRef, chain: seq<nat>, last: ParentRef)
    requires IsWorld(w) && !parent.AtDelta?
    ensures Climbs(added, parent, chain, last) <==> chain == [] && last == parent
    ensures Meets(added, w, term, [], last) <==> last.AtBase? && last.index < Size(w) && OnPath(w, term, last.index)
  {
  }

  lemma FirstStep(added: seq<DeltaRecord>, w: World, term: Name, i: nat)
    requires IsWorld(w) && Holds(added, i)
    ensures Climbs(added, AtDelta(i), [i], added[i].parent)
    ensures Contains(added[i].name, term) ==> Meets(added, w, term, [i], added[i].parent)
  {
  }

  lemma LaterSteps(added: seq<DeltaRecord>, w: World, term: Name, i: nat, chain: seq<nat>, last: ParentRef)
    requires IsWorld(w) && Holds(added, i)
    ensures Climbs(added, AtDelta(i), [i] + chain, last) <==> Climbs(added, added[i].parent, chain, last)
    ensures Meets(added, w, term, chain, last) ==> Meets(added, w, term, [i] + chain, last)
  {
    hide Contains, OnPath, IsWorld;
    var longer := [i] + chain;
    assert longer[1..] == chain;
    forall k: nat | k < |chain| ensures longer[k + 1] == chain[k] {}
  }

  /** A climb from an addition starts there; it meets the term there or further up. */
  lemma ClimbStarts(added: seq<DeltaRecord>, w: World, term: Name, i: nat, chain: seq<nat>, last: ParentRef)
    requires IsWorld(w) && Climbs(added, AtDelta(i), chain, last) && Meets(added, w, term, chain, last)
    ensures chain != [] && Holds(added, i)
    ensures Contains(added[i].name, term) || (Climbs(added, added[i].parent, chain[1..], last) && Meets(added, w, term, chain[1..], last))
  {
    hide Contains, OnPath, IsWorld;
    assert chain == [i] + chain[1..];
    LaterSteps(added, w, term, i, chain[1..], last);
  }

  /** A live addition on whose path every term occurs. */
  ghost predicate AddedHit(added: seq<DeltaRecord>, w: World, terms: seq<Name>, i: nat)
    requires IsWorld(w) && IsAdded(added, w)
  {
    i < |added| && added[i].live &&
    forall t :: 0 <= t < |terms| ==> Contains(added[i].name, terms[t]) || TermAbove(added, w, terms[t], added[i].parent, i)
  }

  /** References followed until the walk stops. */
  ghost function Hops(added: seq<DeltaRecord>, w: World, parent: ParentRef, bound: nat): nat
    requires IsAdded(added, w) && bound <= |added|
    requires parent.AtDelta? ==> parent.index < bound
    decreases bound
  {
    match parent
    case Rootless => 0
    case AtBase(_) => 1
    case AtDelta(i) => 1 + if Holds(added, i) then Hops(added, w, added[i].parent, i) else 0
  }

  // ---- the bounded walk ----------------------------------------------------------------

  ghost function BaseMask(w: World, terms: seq<Name>, p: nat): (m: Mask)
    requires IsWorld(w) && p < Size(w)
    ensures forall t: nat :: t in m <==> t < |terms| && OnPath(w, terms[t], p)
  {
    set t | t in FullMask(terms) && OnPath(w, terms[t], p)
  }

  /** What the walk collects within `hops` references. */
  ghost function MaskAbove(added: seq<DeltaRecord>, w: World, terms: seq<Name>, parent: ParentRef, hops: nat): Mask
    requires IsWorld(w) && IsAdded(added, w)
    requires parent.AtBase? ==> parent.index < Size(w)
    decreases hops
  {
    if hops == 0 then {}
    else
      match parent
      case Rootless => {}
      case AtBase(p) => BaseMask(w, terms, p)
      case AtDelta(i) =>
        if Holds(added, i) then MaskOf(terms, added[i].name) + MaskAbove(added, w, terms, added[i].parent, hops - 1) else {}
  }

  /** The bounded walk finds only terms above, and all of them within its bound. */
  lemma {:induction false} MaskAboveIsPath(added: seq<DeltaRecord>, w: World, terms: seq<Name>, parent: ParentRef, bound: nat, hops: nat, t: nat)
    requires IsWorld(w) && IsAdded(added, w) && bound <= |added| && t < |terms|
    requires parent.AtDelta? ==> parent.index < bound
    requires parent.AtBase? ==> parent.index < Size(w)
    ensures t in MaskAbove(added, w, terms, parent, hops) ==> TermAbove(added, w, terms[t], parent, bound)
    ensures Hops(added, w, parent, bound) <= hops ==>
      (t in MaskAbove(added, w, terms, parent, hops) <==> TermAbove(added, w, terms[t], parent, bound))
    decreases bound
  {
    hide Contains, IsWorld, OnPath;
    if hops > 0 && parent.AtDelta? && Holds(added, parent.index) {
      MaskAboveIsPath(added, w, terms, added[parent.index].parent, parent.index, hops - 1, t);
    }
  }

  /** The walk as the search makes it. */
  ghost predicate WalkHit(added: seq<DeltaRecord>, w: World, terms: seq<Name>, i: nat)
    requires IsWorld(w) && IsAdded(added, w)
  {
    i < |added| && added[i].live &&
    MaskOf(terms, added[i].name) + MaskAbove(added, w, terms, added[i].parent, MAX_HOPS) == FullMask(terms)
  }

  /** Every hit the walk reports is one; below 512 references it reports them all. */
  lemma TheoremAddedHits(added: seq<DeltaRecord>, w: World, terms: seq<Name>, i: nat)
    requires IsWorld(w) && IsAdded(added, w) && i < |added|
    ensures WalkHit(added, w, terms, i) ==> AddedHit(added, w, terms, i)
    ensures Hops(added, w, added[i].parent, i) <= MAX_HOPS ==>
      (WalkHit(added, w, terms, i) <==> AddedHit(added, w, terms, i))
  {
    hide Contains, IsWorld, MaskAbove, TermAbove, Hops;
    var r := added[i];
    var all := MaskOf(terms, r.name) + MaskAbove(added, w, terms, r.parent, MAX_HOPS);
    if WalkHit(added, w, terms, i) {
      forall t: nat | t < |terms| ensures Contains(r.name, terms[t]) || TermAbove(added, w, terms[t], r.parent, i) {
        assert t in FullMask(terms) && t in all;
        MaskAboveIsPath(added, w, terms, r.parent, i, MAX_HOPS, t);
      }
    }
    if Hops(added, w, r.parent, i) <= MAX_HOPS && AddedHit(added, w, terms, i) {
      forall t: nat | t < |terms| ensures t in all {
        MaskAboveIsPath(added, w, terms, r.parent, i, MAX_HOPS, t);
      }
      AboveInFull(added, w, terms, r.parent, MAX_HOPS);
      assert all == FullMask(terms);
    }
  }

  lemma {:induction false} AboveInFull(added: seq<DeltaRecord>, w: World, terms: seq<Name>, parent: ParentRef, hops: nat)
    requires IsWorld(w) && IsAdded(added, w)
    requires parent.AtBase? ==> parent.index < Size(w)
    ensures MaskAbove(added, w, terms, parent, hops) <= FullMask(terms)
    decreases hops
  {
    hide Contains, IsWorld, OnPath;
    if hops > 0 && parent.AtDelta? && Holds(added, parent.index) {
      AboveInFull(added, w, terms, added[parent.index].parent, hops - 1);
    }
  }

  // ---- keys of the additions -----------------------------------------------------------

  predicate AddedPasses(ask: Ask, base: nat, added: seq<DeltaRecord>, i: nat)
    requires i < |added|
  {
    added[i].live && MatchesFilter(ask.cols, base + i, added[i].name, ask.filter)
  }

  /** The keys of the first `k` additions that pass and match. */
  ghost function AddedKeys(ask: Ask, w: World, added: seq<DeltaRecord>, k: nat): multiset<Key>
    requires IsAsk(ask, w) && IsAdded(added, w) && k <= |added|
  {
    if k == 0 then multiset{} else AddedKeys(ask, w, added, k - 1) + AddedKey(ask, w, added, k - 1)
  }

  ghost function AddedKey(ask: Ask, w: World, added: seq<DeltaRecord>, i: nat): multiset<Key>
    requires IsAsk(ask, w) && IsAdded(added, w) && i < |added|
  {
    if AddedPasses(ask, Size(w), added, i) && WalkHit(added, w, ask.terms, i)
    then multiset{NamedKey(ask, Size(w) + i, added[i].name)} else multiset{}
  }

  /** The heap holds the best of `all` and the keys of the first `k` additions. */
  ghost predicate Offered(ask: Ask, w: World, added: seq<DeltaRecord>, k: nat, all: multiset<Key>, heap: BinaryHeap)
    requires IsAsk(ask, w) && IsAdded(added, w) && k <= |added|
    reads heap
  {
    IsBest(all + AddedKeys(ask, w, added, k), ask.limit, heap.keys)
  }

  lemma OfferedStep(ask: Ask, w: World, added: seq<DeltaRecord>, i: nat, all: multiset<Key>)
    requires IsAsk(ask, w) && IsAdded(added, w) && i < |added|
    ensures all + AddedKeys(ask, w, added, i + 1) == all + AddedKeys(ask, w, added, i) + AddedKey(ask, w, added, i)
    ensures AddedKey(ask, w, added, i) == multiset{} ==>
      all + AddedKeys(ask, w, added, i + 1) == all + AddedKeys(ask, w, added, i)
  {
    hide IsAsk, IsAdded, AddedKey;
  }

  // ---- the program ---------------------------------------------------------------------

  /** The term sets of a completed build: one coalesced run list per term. */
  ghost predicate AreTermSets(sets: seq<seq<Span>>, w: World, terms: seq<Name>)
    requires IsWorld(w)
  {
    |sets| == |terms| && forall t :: 0 <= t < |terms| ==> Coalesced(sets[t]) && Denotes(sets[t], w, terms[t])
  }

  /** Which term sets contain the position of base record `p`. */
  method MaskAtBase(ar: Arena, sets: seq<seq<Span>>, p: nat, ghost w: World, ghost terms: seq<Name>) returns (mask: Mask)
    requires IsArena(ar, w) && AreTermSets(sets, w, terms) && p < Size(w)
    ensures mask == BaseMask(w, terms, p)
  {
    hide IsArena, IsWorld, IsIndex, Covers, OnPath, Denotes;
    ArenaParts(ar, w);
    var position := ar.l.positions[p];
    mask := {};
    for t := 0 to |sets|
      invariant forall k: nat :: k in mask <==> k < t && OnPath(w, terms[k], p)
    {
      var termSet := new IntervalSet.Of(sets[t]);
      assert termSet.Runs() == sets[t];
      var found := termSet.Contains(position);
      DenotesPath(sets[t], w, terms[t], p);
      if found {
        mask := mask + {t};
      }
    }
    assert mask == BaseMask(w, terms, p);
  }

  lemma DenotesPath(runs: seq<Span>, w: World, term: Name, p: nat)
    requires IsWorld(w) && Denotes(runs, w, term) && p < Size(w)
    ensures p < |w.l.positions| && (Covers(runs, w.l.positions[p]) <==> OnPath(w, term, p))
  {
    TheoremSpansDenotePaths(w, term, p);
    hide OnPath, Covers, CoveredBy;
  }

  /** What has been collected, and what the rest of the walk will add. */
  ghost predicate Collected(added: seq<DeltaRecord>, w: World, terms: seq<Name>, start: ParentRef, inherited: Mask, parent: ParentRef, left: nat)
    requires IsWorld(w) && IsAdded(added, w)
    requires (start.AtBase? ==> start.index < Size(w)) && (parent.AtBase? ==> parent.index < Size(w))
  {
    MaskAbove(added, w, terms, start, MAX_HOPS) == inherited + MaskAbove(added, w, terms, parent, left)
  }

  lemma CollectedStep(added: seq<DeltaRecord>, w: World, terms: seq<Name>, start: ParentRef, inherited: Mask, parent: ParentRef, left: nat)
    requires IsWorld(w) && IsAdded(added, w)
    requires (start.AtBase? ==> start.index < Size(w)) && (parent.AtBase? ==> parent.index < Size(w))
    requires Collected(added, w, terms, start, inherited, parent, left)
    ensures left == 0 || parent.Rootless? || (parent.AtDelta? && !Holds(added, parent.index)) ==>
      MaskAbove(added, w, terms, start, MAX_HOPS) == inherited
    ensures left > 0 && parent.AtBase? ==>
      MaskAbove(added, w, terms, start, MAX_HOPS) == inherited + BaseMask(w, terms, parent.index)
    ensures left > 0 && parent.AtDelta? && Holds(added, parent.index) ==>
      var next := added[parent.index];
      (next.parent.AtBase? ==> next.parent.index < Size(w)) &&
      Collected(added, w, terms, start, inherited + MaskOf(terms, next.name), next.parent, left - 1)
  {
    hide IsWorld, MaskOf, BaseMask, MaskAbove;
    assert inherited + {} == inherited;
    if left > 0 {
      AboveStep(added, w, terms, parent, left);
      if parent.AtDelta? && Holds(added, parent.index) {
        Regroup(inherited, MaskOf(terms, added[parent.index].name), MaskAbove(added, w, terms, added[parent.index].parent, left - 1));
      }
    } else {
      NoHopsLeft(added, w, terms, parent);
    }
  }

  method WalkAbove(ar: Arena, added: seq<DeltaRecord>, terms: seq<Name>, sets: seq<seq<Span>>, start: ParentRef, ghost w: World)
    returns (inherited: Mask)
    requires IsArena(ar, w) && IsAdded(added, w) && AreTermSets(sets, w, terms)
    requires start.AtBase? ==> start.index < Size(w)
    ensures inherited == MaskAbove(added, w, terms, start, MAX_HOPS)
  {
    hide IsArena, IsWorld, IsIndex, MaskOf, AreTermSets, MaskAbove, IsAdded, BaseMask, Collected, Permutation;
    ArenaParts(ar, w);
    StartsCollecting(added, w, terms, start);
    inherited := {};
    var parent := start;
    for hop := 0 to MAX_HOPS
      invariant parent.AtBase? ==> parent.index < Size(w)
      invariant Collected(added, w, terms, start, inherited, parent, MAX_HOPS - hop)
    {
      CollectedStep(added, w, terms, start, inherited, parent, MAX_HOPS - hop);
      match parent {
        case AtBase(p) =>
          var mask := MaskAtBase(ar, sets, p, w, terms);
          inherited := inherited + mask;
          return;
        case AtDelta(i) =>
          if i >= |added| || !added[i].live || !added[i].meta.isDir {
            return;
          }
          inherited := inherited + MaskOf(terms, added[i].name);
          parent := added[i].parent;
        case Rootless =>
          return;
      }
    }
    CollectedStep(added, w, terms, start, inherited, parent, 0);
  }

  lemma StartsCollecting(added: seq<DeltaRecord>, w: World, terms: seq<Name>, start: ParentRef)
    requires IsWorld(w) && IsAdded(added, w) && (start.AtBase? ==> start.index < Size(w))
    ensures Collected(added, w, terms, start, {}, start, MAX_HOPS)
  {
    hide IsWorld, MaskAbove;
  }

  lemma Regroup(a: Mask, b: Mask, c: Mask)
    ensures a + (b + c) == a + b + c
  {
  }

  lemma NoHopsLeft(added: seq<DeltaRecord>, w: World, terms: seq<Name>, parent: ParentRef)
    requires IsWorld(w) && IsAdded(added, w) && (parent.AtBase? ==> parent.index < Size(w))
    ensures MaskAbove(added, w, terms, parent, 0) == {}
  {
  }

  lemma AboveStep(added: seq<DeltaRecord>, w: World, terms: seq<Name>, parent: ParentRef, hops: nat)
    requires IsWorld(w) && IsAdded(added, w) && (parent.AtBase? ==> parent.index < Size(w)) && hops > 0
    ensures MaskAbove(added, w, terms, parent, hops) == match parent
      case Rootless => {}
      case AtBase(p) => BaseMask(w, terms, p)
      case AtDelta(i) =>
        if Holds(added, i) then MaskOf(terms, added[i].name) + MaskAbove(added, w, terms, added[i].parent, hops - 1) else {}
    ensures parent.AtDelta? && Holds(added, parent.index) && added[parent.index].parent.AtBase? ==>
      added[parent.index].parent.index < Size(w)
  {
    hide MaskOf, IsWorld, BaseMask;
  }

  /** The key as the search computes it: an order on metadata leaves out quality and length. */
  function AdditionKey(ask: Ask, record: nat, name: Name, own: Mask): Key
    requires ask.cols.mtime(record) < U32 && ask.cols.sizeKib(record) < U32
  {
    if NeedsName(ask) then SortKey(ask.order, ask.cols, record, Missing(ask.terms, own), |name|)
    else SortKey(ask.order, ask.cols, record, 0, 0)
  }

  lemma AdditionKeyIsNamed(ask: Ask, record: nat, name: Name)
    requires ask.cols.mtime(record) < U32 && ask.cols.sizeKib(record) < U32
    ensures AdditionKey(ask, record, name, MaskOf(ask.terms, name)) == NamedKey(ask, record, name)
  {
    hide MaskOf, Missing, RelevanceKey;
  }

  method WalkHits(ar: Arena, terms: seq<Name>, added: seq<DeltaRecord>, sets: seq<seq<Span>>, i: nat, ghost w: World)
    returns (own: Mask, hit: bool)
    requires IsArena(ar, w) && IsAdded(added, w) && AreTermSets(sets, w, terms) && i < |added| && added[i].live
    ensures IsWorld(w) && own == MaskOf(terms, added[i].name) && (hit <==> WalkHit(added, w, terms, i))
  {
    hide IsArena, IsWorld, IsIndex, IsAdded, MaskOf, MaskAbove, AreTermSets, FullMask, Permutation;
    ArenaParts(ar, w);
    AddedAt(added, w, i);
    own := MaskOf(terms, added[i].name);
    var inherited := WalkAbove(ar, added, terms, sets, added[i].parent, w);
    hit := own + inherited == FullMask(terms);
  }

  /** The key of a live addition, if it passes and matches. */
  method KeyOfAddition(ar: Arena, ask: Ask, added: seq<DeltaRecord>, sets: seq<seq<Span>>, i: nat, ghost w: World)
    returns (key: Option<Key>)
    requires IsArena(ar, w) && IsAsk(ask, w) && IsAdded(added, w) && AreTermSets(sets, w, ask.terms) && i < |added| && added[i].live
    ensures AddedKey(ask, w, added, i) == if key.Some? then multiset{key.value} else multiset{}
  {
    hide IsArena, IsAsk, IsWorld, IsIndex, IsAdded, MatchesFilter, MaskOf, AreTermSets, AdditionKey, NamedKey, WalkHit, Permutation;
    ArenaParts(ar, w);
    AskFits(ask, w);
    var record, combined := added[i], ar.ix.nb.n + i;
    if !MatchesFilter(ask.cols, combined, record.name, ask.filter) {
      return None;
    }
    var own, hit := WalkHits(ar, ask.terms, added, sets, i, w);
    if !hit {
      return None;
    }
    AdditionKeyIsNamed(ask, combined, record.name);
    return Some(AdditionKey(ask, combined, record.name, own));
  }

  /** One live addition offered to the heap. */
  method OfferAddition(ar: Arena, ask: Ask, added: seq<DeltaRecord>, sets: seq<seq<Span>>, i: nat, heap: BinaryHeap,
                       ghost w: World, ghost all: multiset<Key>)
    requires IsArena(ar, w) && IsAsk(ask, w) && IsAdded(added, w) && AreTermSets(sets, w, ask.terms) && i < |added| && added[i].live
    requires Offered(ask, w, added, i, all, heap)
    modifies heap
    ensures Offered(ask, w, added, i + 1, all, heap)
  {
    hide IsArena, IsAsk, IsAdded, IsBest, AreTermSets, AddedKeys, AddedKey;
    OfferedStep(ask, w, added, i, all);
    var key := KeyOfAddition(ar, ask, added, sets, i, w);
    if key.Some? {
      RetainHit(heap, key.value, ask.limit, all + AddedKeys(ask, w, added, i));
    }
  }

  lemma AddedAt(added: seq<DeltaRecord>, w: World, i: nat)
    requires IsAdded(added, w) && i < |added|
    ensures added[i].parent.AtBase? ==> added[i].parent.index < Size(w)
  {
  }

  lemma AskFits(ask: Ask, w: World)
    requires IsAsk(ask, w)
    ensures forall r: nat :: ask.cols.mtime(r) < U32 && ask.cols.sizeKib(r) < U32
  {
  }

  lemma DeadOffers(ask: Ask, w: World, added: seq<DeltaRecord>, i: nat)
    requires IsAsk(ask, w) && IsAdded(added, w) && i < |added| && !added[i].live
    ensures AddedKey(ask, w, added, i) == multiset{}
  {
  }

  lemma OfferedStart(ask: Ask, w: World, added: seq<DeltaRecord>, all: multiset<Key>, heap: BinaryHeap)
    requires IsAsk(ask, w) && IsAdded(added, w) && IsBest(all, ask.limit, heap.keys)
    ensures Offered(ask, w, added, 0, all, heap)
  {
    hide IsAsk, IsAdded, IsBest;
    assert all + multiset{} == all;
  }

  method OfferAdditions(ar: Arena, ask: Ask, added: seq<DeltaRecord>, sets: seq<seq<Span>>, heap: BinaryHeap, cancel: Cancellation?,
                        ghost w: World, ghost all: multiset<Key>)
    returns (completed: bool)
    requires IsArena(ar, w) && IsAsk(ask, w) && IsAdded(added, w) && (added == [] || AreTermSets(sets, w, ask.terms))
    requires IsBest(all, ask.limit, heap.keys)
    modifies Flag(cancel), heap
    ensures !completed ==> Superseded(cancel)
    ensures completed ==> Offered(ask, w, added, |added|, all, heap)
  {
    hide IsArena, IsAsk, IsWorld, IsIndex, IsAdded, AreTermSets, Offered, Permutation, IsBest, CHECK_INTERVAL, WRAP;
    ArenaParts(ar, w);
    OfferedStart(ask, w, added, all, heap);
    var checked := 0;
    for i := 0 to |added|
      invariant Offered(ask, w, added, i, all, heap)
    {
      if added[i].live {
        var stop;
        stop, checked := PollPeriodically(cancel, checked);
        if stop {
          return false;
        }
        OfferAddition(ar, ask, added, sets, i, heap, w, all);
      } else {
        SkipDead(ask, w, added, i, all, heap);
      }
    }
    completed := true;
  }

  lemma SkipDead(ask: Ask, w: World, added: seq<DeltaRecord>, i: nat, all: multiset<Key>, heap: BinaryHeap)
    requires IsAsk(ask, w) && IsAdded(added, w) && i < |added| && !added[i].live && Offered(ask, w, added, i, all, heap)
    ensures Offered(ask, w, added, i + 1, all, heap)
  {
    hide IsAsk, IsAdded, IsBest, AddedKeys;
    DeadOffers(ask, w, added, i);
    OfferedStep(ask, w, added, i, all);
  }
}
