/** The whole path-term search (view/path_search.rs). */
module PathSearch {
  import opened Records
  import opened Ascii
  import opened Cancel
  import opened DeltaState
  import opened Intervals
  import opened PathDelta
  import opened PathEnumerate
  import opened PathFilter
  import opened PathRank
  import opened PathSeed
  import opened PathTerms
  import opened PathWorld
  import opened Query
  import opened TopK
  import opened TreeOrder
  import PathDense
  import PathShort
  import Sorting
  import Trigram

  const MAX_TERMS: nat := 16

  // ---- the answer ----------------------------------------------------------------------

  /** Every key the search may report: base hits and additions that pass the filter. */
  ghost function AnswerKeys(ask: Ask, w: World, added: seq<DeltaRecord>): multiset<Key>
    requires IsAsk(ask, w) && IsWorld(w) && IsAdded(added, w)
  {
    ChosenKeys(ask, w, BaseHits(ask, w)) + AddedKeys(ask, w, added, |added|)
  }

  /** The best `limit` of them, best first. */
  ghost predicate IsAnswer(hits: seq<Key>, ask: Ask, w: World, added: seq<DeltaRecord>)
    requires IsAsk(ask, w) && IsWorld(w) && IsAdded(added, w)
  {
    && (forall i, j :: 0 <= i < j < |hits| ==> hits[i] <= hits[j])
    && IsBest(AnswerKeys(ask, w, added), ask.limit, multiset(hits))
  }

  /** And, record numbers fitting their 32 bits, exactly records the user asked for. */
  ghost predicate IsGoodAnswer(hits: seq<Key>, ask: Ask, w: World, added: seq<DeltaRecord>)
    requires IsAsk(ask, w) && IsWorld(w) && IsAdded(added, w)
  {
    IsAnswer(hits, ask, w, added) && (Size(w) + |added| <= U32 ==> ReportsWanted(hits, ask, w, added))
  }

  lemma AnswerIsGood(hits: seq<Key>, ask: Ask, w: World, added: seq<DeltaRecord>)
    requires IsAsk(ask, w) && IsWorld(w) && IsAdded(added, w) && IsAnswer(hits, ask, w, added)
    ensures IsGoodAnswer(hits, ask, w, added)
  {
    hide IsAsk, IsWorld, IsAdded, ReportsWanted, IsBest;
    if Size(w) + |added| <= U32 {
      TheoremAnswerRespectsFilter(hits, ask, w, added);
    }
  }

  // ---- a term nobody introduces --------------------------------------------------------

  /** No live addition's own name contains the term. */
  ghost predicate NoAddition(added: seq<DeltaRecord>, term: Name) {
    forall i :: 0 <= i < |added| && added[i].live ==> !Contains(added[i].name, term)
  }

  method AnyAddition(added: seq<DeltaRecord>, term: Name) returns (found: bool)
    ensures found <==> !NoAddition(added, term)
  {
    hide Contains;
    for i := 0 to |added|
      invariant forall k :: 0 <= k < i && added[k].live ==> !Contains(added[k].name, term)
    {
      if added[i].live {
        var contains := ContainsCi(added[i].name, term);
        if contains {
          return true;
        }
      }
    }
    return false;
  }

  lemma {:induction false} TermMissing(added: seq<DeltaRecord>, w: World, terms: seq<Name>, t: nat, parent: ParentRef, hops: nat)
    requires IsWorld(w) && IsAdded(added, w) && t < |terms| && NoAddition(added, terms[t])
    requires forall p: nat :: p < Size(w) ==> !OnPath(w, terms[t], p)
    requires parent.AtBase? ==> parent.index < Size(w)
    ensures t !in MaskAbove(added, w, terms, parent, hops)
    decreases hops
  {
    hide Contains, IsWorld, OnPath;
    if hops > 0 && parent.AtDelta? && Holds(added, parent.index) {
      TermMissing(added, w, terms, t, added[parent.index].parent, hops - 1);
    }
  }

  lemma {:induction false} NoAddedKeys(ask: Ask, w: World, added: seq<DeltaRecord>, t: nat, k: nat)
    requires IsAsk(ask, w) && IsWorld(w) && IsAdded(added, w) && t < |ask.terms| && k <= |added|
    requires NoAddition(added, ask.terms[t]) && forall p: nat :: p < Size(w) ==> !OnPath(w, ask.terms[t], p)
    ensures AddedKeys(ask, w, added, k) == multiset{}
  {
    hide Contains, IsWorld, IsAsk, OnPath, MaskAbove;
    if k > 0 {
      NoAddedKeys(ask, w, added, t, k - 1);
      var i := k - 1;
      AddedAt(added, w, i);
      TermMissing(added, w, ask.terms, t, added[i].parent, MAX_HOPS);
      if added[i].live {
        assert t !in MaskOf(ask.terms, added[i].name) + MaskAbove(added, w, ask.terms, added[i].parent, MAX_HOPS);
        assert t in FullMask(ask.terms);
        assert !WalkHit(added, w, ask.terms, i);
      }
      hide AddedKey;
    }
  }

  /** A term that neither the base nor a live addition introduces leaves no answer. */
  lemma NothingToFind(ask: Ask, w: World, added: seq<DeltaRecord>, t: nat, runs: seq<Span>)
    requires IsAsk(ask, w) && IsWorld(w) && IsAdded(added, w) && t < |ask.terms|
    requires Denotes(runs, w, ask.terms[t]) && runs == [] && NoAddition(added, ask.terms[t])
    ensures IsAnswer([], ask, w, added)
  {
    hide Contains, IsForest, OnPath, AddedKeys;
    forall p: nat | p < Size(w) ensures !OnPath(w, ask.terms[t], p) {
      DenotesPath(runs, w, ask.terms[t], p);
    }
    NoAddedKeys(ask, w, added, t, |added|);
    assert BaseHits(ask, w) == {} by {
      forall r: nat | r < Size(w) ensures !PathHit(w, ask.terms, r) {
        assert !OnPath(w, ask.terms[t], r);
      }
    }
    NoneChosen(ask, w);
  }

  // ---- ordering the terms --------------------------------------------------------------

  /** All term numbers, each once, cheapest first. */
  ghost predicate IsOrder(order: seq<nat>, costs: seq<nat>) {
    && |order| == |costs|
    && (forall i :: 0 <= i < |order| ==> order[i] < |costs|)
    && (forall t: nat :: t < |costs| ==> t in order)
    && forall i, j :: 0 <= i < j < |order| ==> costs[order[i]] <= costs[order[j]]
  }

  method Largest(costs: seq<nat>) returns (m: nat)
    ensures forall i :: 0 <= i < |costs| ==> costs[i] <= m
  {
    m := 0;
    for i := 0 to |costs|
      invariant forall k :: 0 <= k < i ==> costs[k] <= m
    {
      if m < costs[i] {
        m := costs[i];
      }
    }
  }

  function Slack(costs: seq<nat>, m: nat): nat -> nat {
    (t: nat) => if t < |costs| && costs[t] <= m then m - costs[t] else 0
  }

  function Numbers(n: nat): (s: seq<nat>)
    ensures |s| == n && forall i :: 0 <= i < n ==> s[i] == i
  {
    seq(n, i requires i >= 0 => i)
  }

  /** sort_by_key on the costs. */
  method OrderByCost(costs: seq<nat>) returns (order: seq<nat>)
    ensures IsOrder(order, costs)
  {
    var m := Largest(costs);
    var all := Numbers(|costs|);
    order := Sorting.SortByScore(all, Slack(costs, m));
    forall i | 0 <= i < |order| ensures order[i] < |costs| {
      assert order[i] in order;
      var k :| 0 <= k < |all| && all[k] == order[i];
    }
    forall t: nat | t < |costs| ensures t in order {
      assert all[t] in all;
    }
    forall i, j | 0 <= i < j < |order| ensures costs[order[i]] <= costs[order[j]] {
      assert Slack(costs, m)(order[i]) >= Slack(costs, m)(order[j]);
    }
  }

  /** The estimated scan cost of each term: its candidate blocks, or every block. None means cancelled. */
  method TermCosts(ar: Arena, terms: seq<Name>, cancel: Cancellation?, ghost w: World) returns (costs: Option<seq<nat>>)
    requires IsArena(ar, w)
    modifies Flag(cancel)
    ensures costs.None? ==> Superseded(cancel)
    ensures costs.Some? ==> |costs.value| == |terms|
  {
    hide IsArena, IsWorld, IsIndex, Permutation, Trigram.Marks, Trigram.Possible;
    ArenaParts(ar, w);
    IndexParts(ar.ix, w.names);
    var found: seq<nat> := [];
    for t := 0 to |terms|
      invariant |found| == t
    {
      var superseded := Poll(cancel);
      if superseded {
        return None;
      }
      var filtered, blocks := Trigram.CandidateBlocks(terms[t], ar.ix.matrix, ar.ix.nb.n, w.names);
      found := found + [if filtered then |blocks| else Trigram.NumBlocks(ar.ix.nb.n)];
    }
    costs := Some(found);
  }

  // ---- building the term sets ----------------------------------------------------------

  /** One term's set, by whichever builder the program picks. None means cancelled. */
  method BuildTerm(ar: Arena, ask: Ask, t: nat, useFilter: bool, threads: nat, checkedBefore: nat, cancel: Cancellation?, ghost w: World)
    returns (runs: Option<seq<Span>>, checked: nat)
    requires IsArena(ar, w) && IsWorld(w) && ask.tombs == w.tombs && t < |ask.terms|
    modifies Flag(cancel)
    ensures runs.None? ==> Superseded(cancel)
    ensures runs.Some? ==> Coalesced(runs.value) && Denotes(runs.value, w, ask.terms[t])
  {
    hide IsArena, IsWorld, Denotes, Coalesced;
    checked := checkedBefore;
    var termSet := new IntervalSet();
    var completed;
    if |ask.terms| == 1 && |ask.terms[t]| < 3 {
      completed := PathShort.BuildShortSingleTermSet(ar, ask.tombs, ask.terms[t], termSet, threads, cancel, w);
    } else {
      completed, checked := BuildTermIntervalSet(ar, ask.tombs, ask.terms[t], useFilter, termSet, checked, cancel, w);
    }
    if !completed {
      return None, checked;
    }
    assert termSet.runs[..termSet.coalescedLen] == termSet.runs;
    runs := Some(termSet.runs);
  }

  datatype Built =
    | Stopped
    | Nothing
    | Seeded(final: seq<Span>)
    | AllSets(sets: seq<seq<Span>>)

  /** Which terms have their set, and that it is right. */
  ghost predicate SetsFor(sets: map<nat, seq<Span>>, w: World, terms: seq<Name>)
    requires IsWorld(w)
  {
    forall t :: t in sets ==> t < |terms| && Coalesced(sets[t]) && Denotes(sets[t], w, terms[t])
  }

  lemma SeedIsFinal(output: seq<Span>, seed: seq<Span>, ask: Ask, w: World, t: nat)
    requires IsWorld(w) && t < |ask.terms| && Denotes(seed, w, ask.terms[t]) && Coalesced(output)
    requires AllVerified(output, seed, w, ask.terms)
    ensures FinalRuns(output, ask, w)
  {
    hide Coalesced, Covers, OnPath, Linked, Nested;
    forall r: nat | r < Size(w) && r !in w.tombs
      ensures w.l.positions[r] in CoveredSet(output, Size(w)) <==> PathHit(w, ask.terms, r)
    {
      DenotesPath(seed, w, ask.terms[t], r);
      assert w.l.records[w.l.positions[r]] == r;
      if PathHit(w, ask.terms, r) {
        assert OnPath(w, ask.terms[t], r);
      }
    }
    forall q: nat | Covers(output, q) ensures q < Size(w) {
      assert HitAt(w, ask.terms, q);
    }
  }

  /** The seed of a planned search: its hits if the verifier finishes. None means it must be abandoned. */
  method TrySeed(ar: Arena, ask: Ask, t: nat, seed: seq<Span>, cancel: Cancellation?, ghost w: World)
    returns (r: SeedResult, final: seq<Span>)
    requires IsArena(ar, w) && IsWorld(w) && ask.tombs == w.tombs && t < |ask.terms|
    requires Coalesced(seed) && Denotes(seed, w, ask.terms[t])
    modifies Flag(cancel)
    ensures r.SeedCancelled? ==> Superseded(cancel)
    ensures r.SeedVerified? ==> FinalRuns(final, ask, w)
  {
    hide IsArena, IsWorld, Coalesced, FinalRuns, AllVerified, TermAt, Covers;
    var output := new IntervalSet();
    forall q: nat | Covers(seed, q) ensures q < Size(w) {
      CoverageInside(w, ask.terms[t], q);
    }
    hide Denotes;
    r := VerifyPathSeed(ar, ask.tombs, ask.terms, seed, output, VERIFY_STEPS, cancel, w);
    final := output.runs;
    if r.SeedVerified? {
      assert output.runs[..output.coalescedLen] == output.runs;
      SeedIsFinal(final, seed, ask, w, t);
    }
  }

  lemma SetsGrow(sets: map<nat, seq<Span>>, w: World, terms: seq<Name>, t: nat, runs: seq<Span>)
    requires IsWorld(w) && SetsFor(sets, w, terms)
    requires t < |terms| && Coalesced(runs) && Denotes(runs, w, terms[t])
    ensures SetsFor(sets[t := runs], w, terms)
  {
    hide IsWorld, Coalesced, Denotes;
  }

  lemma OrderMembers(order: seq<nat>, costs: seq<nat>)
    requires IsOrder(order, costs)
    ensures |order| == |costs| && forall i :: 0 <= i < |order| ==> order[i] < |costs|
    ensures forall t: nat :: t < |costs| ==> t in order
  {
  }

  /** The sets in term order. */
  ghost predicate Gathers(list: seq<seq<Span>>, sets: map<nat, seq<Span>>, n: nat) {
    |list| == n && forall t: nat :: t < n ==> t in sets && list[t] == sets[t]
  }

  lemma GatheredSets(list: seq<seq<Span>>, sets: map<nat, seq<Span>>, w: World, terms: seq<Name>)
    requires IsWorld(w) && SetsFor(sets, w, terms) && Gathers(list, sets, |terms|)
    ensures AreTermSets(list, w, terms)
  {
    hide IsWorld, Coalesced, Denotes;
  }

  /** Why a build ended, and what it leaves. */
  ghost predicate BuiltOk(r: Built, ask: Ask, w: World, added: seq<DeltaRecord>)
    requires IsAsk(ask, w) && IsWorld(w) && IsAdded(added, w)
  {
    match r
    case Stopped => true
    case Nothing => IsAnswer([], ask, w, added)
    case Seeded(final) => added == [] && FinalRuns(final, ask, w)
    case AllSets(sets) => AreTermSets(sets, w, ask.terms)
  }

  datatype Step = Go | Leave(result: Built)

  /** One round of the build loop. */
  method BuildOne(ar: Arena, ask: Ask, added: seq<DeltaRecord>, t: nat, tryFirst: bool, useFilter: bool, threads: nat,
                  checkedBefore: nat, cancel: Cancellation?, ghost w: World)
    returns (r: Step, runs: seq<Span>, checked: nat)
    requires IsArena(ar, w) && IsWorld(w) && IsAsk(ask, w) && IsAdded(added, w) && t < |ask.terms|
    requires tryFirst ==> added == []
    modifies Flag(cancel)
    ensures r.Leave? && r.result.Stopped? ==> Superseded(cancel)
    ensures r.Leave? ==> BuiltOk(r.result, ask, w, added)
    ensures r.Go? ==> Coalesced(runs) && Denotes(runs, w, ask.terms[t])
  {
    hide IsArena, IsWorld, IsAdded, IsAsk, Denotes, Coalesced, FinalRuns, NoAddition, IsAnswer, AreTermSets;
    AskParts(ask, w);
    var built;
    built, checked := BuildTerm(ar, ask, t, useFilter, threads, checkedBefore, cancel, w);
    if built.None? {
      return Leave(Stopped), [], checked;
    }
    runs := built.value;
    if runs == [] {
      var introduced := AnyAddition(added, ask.terms[t]);
      if !introduced {
        NothingToFind(ask, w, added, t, runs);
        return Leave(Nothing), runs, checked;
      }
    }
    if tryFirst {
      var seeded, final := TrySeed(ar, ask, t, runs, cancel, w);
      match seeded {
        case SeedVerified => return Leave(Seeded(final)), runs, checked;
        case SeedCancelled => return Leave(Stopped), runs, checked;
        case SeedAbandoned =>
      }
    }
    r := Go;
  }

  /** Builds the term sets in planned order; the first may settle the search by itself. */
  method BuildSets(ar: Arena, ask: Ask, added: seq<DeltaRecord>, order: seq<nat>, canPlan: bool, useFilter: bool, threads: nat,
                   cancel: Cancellation?, ghost w: World, ghost costs: seq<nat>)
    returns (r: Built)
    requires IsArena(ar, w) && IsWorld(w) && IsAsk(ask, w) && IsAdded(added, w)
    requires IsOrder(order, costs) && |costs| == |ask.terms| && (canPlan ==> added == [])
    modifies Flag(cancel)
    ensures r.Stopped? ==> Superseded(cancel)
    ensures BuiltOk(r, ask, w, added)
  {
    hide IsArena, IsWorld, IsAsk, IsAdded, IsOrder, Denotes, Coalesced, SetsFor, BuiltOk, AreTermSets;
    OrderMembers(order, costs);
    var sets: map<nat, seq<Span>> := map[];
    NoSets(w, ask.terms);
    var checked := 0;
    for i := 0 to |order|
      invariant SetsFor(sets, w, ask.terms)
      invariant forall k :: 0 <= k < i ==> order[k] in sets
    {
      var step, runs;
      step, runs, checked := BuildOne(ar, ask, added, order[i], canPlan && i == 0, useFilter, threads, checked, cancel, w);
      if step.Leave? {
        return step.result;
      }
      SetsGrow(sets, w, ask.terms, order[i], runs);
      sets := sets[order[i] := runs];
    }
    var list := Gather(sets, |ask.terms|, order);
    GatheredSets(list, sets, w, ask.terms);
    r := AllSets(list);
    AllSetsOk(list, ask, w, added);
  }

  lemma NoSets(w: World, terms: seq<Name>)
    requires IsWorld(w)
    ensures SetsFor(map[], w, terms)
  {
  }

  lemma AllSetsOk(list: seq<seq<Span>>, ask: Ask, w: World, added: seq<DeltaRecord>)
    requires IsAsk(ask, w) && IsWorld(w) && IsAdded(added, w) && AreTermSets(list, w, ask.terms)
    ensures BuiltOk(AllSets(list), ask, w, added)
  {
  }

  method Gather(sets: map<nat, seq<Span>>, n: nat, ghost order: seq<nat>) returns (list: seq<seq<Span>>)
    requires (forall t: nat :: t < n ==> t in order) && forall k :: 0 <= k < |order| ==> order[k] in sets
    ensures Gathers(list, sets, n)
  {
    list := [];
    for t := 0 to n
      invariant Gathers(list, sets, t)
    {
      assert t in order;
      ghost var k :| 0 <= k < |order| && order[k] == t;
      list := list + [sets[t]];
    }
  }

  // ---- intersecting the term sets ------------------------------------------------------

  /** Positions covered by the first `k` sets in the given order. */
  ghost predicate Folded(runs: seq<Span>, sets: seq<seq<Span>>, order: seq<nat>, k: nat)
    requires k <= |order| && forall i :: 0 <= i < |order| ==> order[i] < |sets|
  {
    forall q: nat :: Covers(runs, q) <==> InFirst(sets, order, k, q)
  }

  ghost predicate InFirst(sets: seq<seq<Span>>, order: seq<nat>, k: nat, q: nat)
    requires k <= |order| && forall i :: 0 <= i < |order| ==> order[i] < |sets|
  {
    forall i :: 0 <= i < k ==> Covers(sets[order[i]], q)
  }

  lemma FoldStep(runs: seq<Span>, next: seq<Span>, sets: seq<seq<Span>>, order: seq<nat>, k: nat)
    requires k < |order| && forall i :: 0 <= i < |order| ==> order[i] < |sets|
    requires Folded(runs, sets, order, k)
    requires forall q: nat :: Covers(next, q) <==> Covers(sets[order[k]], q) && Covers(runs, q)
    ensures Folded(next, sets, order, k + 1)
  {
    hide Covers;
  }

  lemma FoldEmpty(sets: seq<seq<Span>>, order: seq<nat>, k: nat)
    requires k <= |order| && forall i :: 0 <= i < |order| ==> order[i] < |sets|
    requires Folded([], sets, order, k)
    ensures Folded([], sets, order, |order|)
  {
    forall q: nat ensures !InFirst(sets, order, |order|, q) {
      assert !Covers([], q) && !InFirst(sets, order, k, q);
      var i :| 0 <= i < k && !Covers(sets[order[i]], q);
    }
  }

  /** The intersection of all term sets, smallest first, stopping early when it is empty. */
  method FoldSets(sets: seq<seq<Span>>, order: seq<nat>) returns (final: seq<Span>)
    requires order != [] && forall i :: 0 <= i < |order| ==> order[i] < |sets|
    requires forall t :: 0 <= t < |sets| ==> Coalesced(sets[t])
    ensures Coalesced(final) && Folded(final, sets, order, |order|)
  {
    hide Coalesced, Covers, Folded;
    final := sets[order[0]];
    FoldOne(sets, order);
    var k := 1;
    while k < |order| && final != []
      invariant 1 <= k <= |order| && Coalesced(final) && Folded(final, sets, order, k)
    {
      var current := new IntervalSet.Of(final);
      var term := new IntervalSet.Of(sets[order[k]]);
      var out := new IntervalSet();
      assert term.runs[..term.coalescedLen] == term.runs && current.runs[..current.coalescedLen] == current.runs;
      term.IntersectInto(current, out);
      FoldStep(final, out.runs, sets, order, k);
      assert out.runs[..out.coalescedLen] == out.runs;
      final := out.runs;
      k := k + 1;
    }
    if final == [] {
      FoldEmpty(sets, order, k);
    }
  }

  lemma FoldOne(sets: seq<seq<Span>>, order: seq<nat>)
    requires order != [] && forall i :: 0 <= i < |order| ==> order[i] < |sets|
    ensures Folded(sets[order[0]], sets, order, 1)
  {
    hide Covers;
  }

  /** The size a term set is ordered by: positions, then runs. */
  function SizeCost(runs: seq<Span>): nat {
    LenPositions(runs) * 0x1_0000_0000 + |runs|
  }

  lemma FoldIsFinal(final: seq<Span>, sets: seq<seq<Span>>, order: seq<nat>, ask: Ask, w: World)
    requires IsWorld(w) && ask.terms != [] && AreTermSets(sets, w, ask.terms) && Coalesced(final)
    requires (forall i :: 0 <= i < |order| ==> order[i] < |sets|) && forall t: nat :: t < |sets| ==> t in order
    requires Folded(final, sets, order, |order|)
    ensures FinalRuns(final, ask, w)
  {
    hide Coalesced, Covers, OnPath, Linked, Nested, CoveredBy;
    forall q: nat ensures Covers(final, q) <==> forall t: nat :: t < |ask.terms| ==> Covers(sets[t], q) {
      if Covers(final, q) {
        forall t: nat | t < |ask.terms| ensures Covers(sets[t], q) {
          assert t in order;
          var i :| 0 <= i < |order| && order[i] == t;
        }
      }
    }
    forall q: nat | Covers(final, q) ensures q < Size(w) {
      assert Covers(sets[0], q);
      CoverageInside(w, ask.terms[0], q);
    }
    forall r: nat | r < Size(w) && r !in w.tombs
      ensures w.l.positions[r] in CoveredSet(final, Size(w)) <==> PathHit(w, ask.terms, r)
    {
      FoldAt(final, sets, ask, w, r);
    }
  }

  lemma FoldAt(final: seq<Span>, sets: seq<seq<Span>>, ask: Ask, w: World, r: nat)
    requires IsWorld(w) && AreTermSets(sets, w, ask.terms) && r < Size(w) && r !in w.tombs
    requires forall q: nat :: Covers(final, q) <==> forall t: nat :: t < |ask.terms| ==> Covers(sets[t], q)
    ensures w.l.positions[r] in CoveredSet(final, Size(w)) <==> PathHit(w, ask.terms, r)
  {
    hide Coalesced, Covers, OnPath, Denotes;
    assert w.l.positions[r] < Size(w);
    hide IsWorld;
    forall t: nat | t < |ask.terms| ensures Covers(sets[t], w.l.positions[r]) <==> OnPath(w, ask.terms[t], r) {
      DenotesPath(sets[t], w, ask.terms[t], r);
    }
  }

  method FinalSet(sets: seq<seq<Span>>, ghost ask: Ask, ghost w: World) returns (final: seq<Span>)
    requires IsWorld(w) && ask.terms != [] && AreTermSets(sets, w, ask.terms)
    ensures FinalRuns(final, ask, w)
  {
    hide IsWorld, Coalesced, FinalRuns, Folded, IsOrder, SizeCost, Denotes;
    var costs: seq<nat> := [];
    for t := 0 to |sets|
      invariant |costs| == t
    {
      costs := costs + [SizeCost(sets[t])];
    }
    var order := OrderByCost(costs);
    OrderMembers(order, costs);
    final := FoldSets(sets, order);
    FoldIsFinal(final, sets, order, ask, w);
  }

  // ---- the search ----------------------------------------------------------------------

  /** From a final set to the answer: enumerate, offer the additions, drain. */
  method Finish(ar: Arena, ask: Ask, added: seq<DeltaRecord>, final: seq<Span>, sets: seq<seq<Span>>, threads: nat,
                cancel: Cancellation?, ghost w: World)
    returns (hits: seq<Key>)
    requires IsArena(ar, w) && IsWorld(w) && IsAsk(ask, w) && IsAdded(added, w)
    requires FinalRuns(final, ask, w) && (added == [] || AreTermSets(sets, w, ask.terms))
    modifies Flag(cancel)
    ensures IsAnswer(hits, ask, w, added) || (Superseded(cancel) && hits == [])
  {
    hide IsArena, IsWorld, IsAsk, IsAdded, FinalRuns, AreTermSets, IsBest, AddedKeys, ChosenKeys, BaseHits;
    var completed, heap := PathDense.Enumerate(ar, ask, final, threads, cancel, w);
    if !completed {
      return [];
    }
    completed := OfferAdditions(ar, ask, added, sets, heap, cancel, w, ChosenKeys(ask, w, BaseHits(ask, w)));
    if !completed {
      return [];
    }
    hits := DrainHeap(heap);
  }

  /**
   * search_path_terms_with_scratch: the best `limit` records on whose path every term
   * occurs, best first, whichever builder, verifier and enumeration the planner picks. Each
   * satisfies the filter, and while there is room none that does is missing.
   */
  method SearchPathTerms(ar: Arena, ask: Ask, added: seq<DeltaRecord>, useFilter: bool, threads: nat, cancel: Cancellation?, ghost w: World)
    returns (hits: seq<Key>)
    requires IsArena(ar, w) && IsAsk(ask, w) && IsAdded(added, w)
    modifies Flag(cancel)
    ensures ask.terms == [] || |ask.terms| > MAX_TERMS || ask.limit == 0 ==> hits == []
    ensures old(Superseded(cancel)) ==> hits == []
    ensures 0 < |ask.terms| <= MAX_TERMS && ask.limit > 0 ==>
      IsWorld(w) && (IsGoodAnswer(hits, ask, w, added) || (Superseded(cancel) && hits == []))
  {
    hide IsArena, IsWorld, IsAsk, IsAdded, IsAnswer, ReportsWanted, IsIndex, FinalRuns, AreTermSets, IsOrder, Permutation;
    if ask.terms == [] || |ask.terms| > MAX_TERMS || ask.limit == 0 {
      return [];
    }
    ArenaParts(ar, w);
    var superseded := Poll(cancel);
    if superseded {
      return [];
    }
    forall keys: seq<Key> | IsAnswer(keys, ask, w, added) ensures IsGoodAnswer(keys, ask, w, added) {
      AnswerIsGood(keys, ask, w, added);
    }
    var canPlan := useFilter && |ask.terms| > 1 && added == [];
    var costs: seq<nat> := Zeros(|ask.terms|);
    if canPlan {
      var planned := TermCosts(ar, ask.terms, cancel, w);
      if planned.None? {
        return [];
      }
      costs := planned.value;
    }
    var order := OrderByCost(costs);
    var built := BuildSets(ar, ask, added, order, canPlan, useFilter, threads, cancel, w, costs);
    match built {
      case Stopped => return [];
      case Nothing => return [];
      case Seeded(final) =>
        hits := Finish(ar, ask, added, final, [], threads, cancel, w);
      case AllSets(sets) =>
        var final := FinalSet(sets, ask, w);
        hits := Finish(ar, ask, added, final, sets, threads, cancel, w);
    }
  }

  function Zeros(n: nat): (s: seq<nat>)
    ensures |s| == n
  {
    seq(n, _ => 0)
  }
}
