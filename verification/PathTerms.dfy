/** The interval set of one path term (view/path_search.rs). */
module PathTerms {
  import opened Records
  import opened Ascii
  import opened Bits
  import opened Cancel
  import opened Intervals
  import opened Names
  import opened PathWorld
  import opened Query
  import opened TopK
  import opened TreeOrder
  import Trigram

  /** The columns of a base arena. */
  datatype Arena = Arena(ix: Index, parents: seq<Word>, l: Layout)

  ghost predicate IsArena(ar: Arena, w: World) {
    IsWorld(w) && IsIndex(ar.ix, w.names) && ar.parents == w.parents && ar.l == w.l
  }

  lemma ArenaParts(ar: Arena, w: World)
    requires IsArena(ar, w)
    ensures IsWorld(w) && IsIndex(ar.ix, w.names) && ar.parents == w.parents && ar.l == w.l
    ensures ar.ix.nb.n == Size(w) == |w.parents| && Permutation(Size(w), w.l)
  {
    hide Trigram.Marks;
  }

  /** The positions of `runs` are those the term is inherited at. */
  ghost predicate Denotes(runs: seq<Span>, w: World, term: Name)
    requires IsWorld(w)
  {
    forall p: nat :: Covers(runs, p) <==> TermAt(w, term, p)
  }

  /** As above, once the records below `upto` have been scanned. */
  ghost predicate DenotesUpTo(runs: seq<Span>, w: World, term: Name, upto: nat)
    requires IsWorld(w)
  {
    forall p: nat :: Covers(runs, p) <==> CoveredBy(w, term, upto, p)
  }

  // ---- build_term_interval_set ---------------------------------------------------------

  /** The queued spans of a set being built, the records below `upto` scanned. */
  ghost predicate Pushing(set': IntervalSet, w: World, term: Name, upto: nat)
    requires IsWorld(w)
    reads set'
  {
    set'.Valid() && set'.coalescedLen == 0 && DenotesUpTo(set'.runs, w, term, upto)
  }

  /** Pushes what one live matching record contributes. */
  method PushRecord(ar: Arena, record: nat, term: Name, set': IntervalSet, ghost w: World)
    requires IsArena(ar, w) && record < Size(w) && Owns(w, term, record)
    requires Pushing(set', w, term, record)
    modifies set'
    ensures Pushing(set', w, term, record + 1)
  {
    ArenaParts(ar, w);
    hide IsArena, IsWorld, CoveredBy, Owns, Covers;
    ghost var was := set'.runs;
    if WordIsDir(ar.parents[record]) {
      set'.PushSpan(ar.l.positions[record], ar.l.ends[record]);
    } else {
      set'.PushPoint(ar.l.positions[record]);
    }
    forall p: nat ensures Covers(set'.runs, p) <==> CoveredBy(w, term, record + 1, p) {
      CoveredStep(w, term, record, p);
    }
  }

  lemma NothingPushed(w: World, term: Name, set': IntervalSet, j: nat, k: nat)
    requires IsWorld(w) && j <= k <= Size(w) && Pushing(set', w, term, j)
    requires forall i :: j <= i < k ==> !Owns(w, term, i)
    ensures Pushing(set', w, term, k)
    decreases k - j
  {
    hide IsWorld, Covers, Owns, SpanOf;
    forall p: nat ensures CoveredBy(w, term, k, p) <==> CoveredBy(w, term, j, p) {
    }
  }

  method PushMatched(ar: Arena, tombs: set<nat>, record: nat, matched: bool, term: Name, set': IntervalSet, ghost w: World)
    requires IsArena(ar, w) && tombs == w.tombs && record < Size(w) && matched == Contains(w.names[record], term)
    requires Pushing(set', w, term, record)
    modifies set'
    ensures Pushing(set', w, term, record + 1)
  {
    ArenaParts(ar, w);
    hide Pushing, IsArena, IsWorld, Contains;
    if record !in tombs && matched {
      PushRecord(ar, record, term, set', w);
    } else {
      NothingPushed(w, term, set', record, record + 1);
    }
  }

  /** The scan callback over one walk. */
  method PushVisits(visits: seq<Visit>, ar: Arena, tombs: set<nat>, term: Name, set': IntervalSet, checkedBefore: nat,
                    cancel: Cancellation?, ghost w: World, ghost start: nat, ghost stop: nat)
    returns (checked: nat, cancelled: bool)
    requires IsArena(ar, w) && tombs == w.tombs
    requires start <= stop <= Size(w) && IsWalk(w.names, start, stop, visits)
    requires Pushing(set', w, term, start)
    modifies Flag(cancel), set'
    ensures cancelled ==> Superseded(cancel)
    ensures old(Superseded(cancel)) ==> Superseded(cancel)
    ensures set'.Valid() && (!cancelled ==> Pushing(set', w, term, stop))
  {
    ArenaParts(ar, w);
    PushingValid(set', w, term, start);
    hide IsArena, IsWorld, IsIndex, Permutation, Contains, Pushing, InBucket, CHECK_INTERVAL, WRAP;
    checked, cancelled := checkedBefore, false;
    var matched := false;
    for k := 0 to |visits|
      invariant Pushing(set', w, term, start + k)
      invariant k > 0 ==> matched == Contains(w.names[start + k - 1], term)
      invariant old(Superseded(cancel)) ==> Superseded(cancel)
    {
      var stop';
      stop', checked := PollPeriodically(cancel, checked);
      if stop' {
        PushingValid(set', w, term, start + k);
        return checked, true;
      }
      var v := visits[k];
      if !v.repeated {
        matched := ContainsCi(v.name, term);
      }
      PushMatched(ar, tombs, v.idx, matched, term, set', w);
    }
    PushingValid(set', w, term, stop);
  }

  lemma PushingValid(set': IntervalSet, w: World, term: Name, upto: nat)
    requires IsWorld(w) && Pushing(set', w, term, upto)
    ensures set'.Valid() && DenotesUpTo(set'.runs, w, term, upto)
  {
  }

  /** A candidate block of the trigram filter. */
  method PushBlock(ar: Arena, tombs: set<nat>, term: Name, set': IntervalSet, block: nat, checkedBefore: nat,
                   cancel: Cancellation?, ghost w: World)
    returns (checked: nat, cancelled: bool)
    requires IsArena(ar, w) && tombs == w.tombs
    requires block < Trigram.NumBlocks(Size(w)) && BlockStart(block, Size(w)) <= Size(w)
    requires Pushing(set', w, term, BlockStart(block, Size(w)))
    modifies Flag(cancel), set'
    ensures cancelled ==> Superseded(cancel)
    ensures old(Superseded(cancel)) ==> Superseded(cancel)
    ensures BlockStart(block + 1, Size(w)) <= Size(w)
    ensures set'.Valid() && (!cancelled ==> Pushing(set', w, term, BlockStart(block + 1, Size(w))))
  {
    ArenaParts(ar, w);
    IndexParts(ar.ix, w.names);
    BlockRange(block, Size(w));
    hide IsArena, IsWorld, IsIndex, Codes, IsWalk, Pushing, BlockStart, Trigram.NumBlocks, Coalesced;
    var start := block * Trigram.TRIGRAM_BLOCK;
    var visits := WalkRange(ar.ix.nb, start, start + Trigram.TRIGRAM_BLOCK, w.names);
    ghost var end := if start + Trigram.TRIGRAM_BLOCK < ar.ix.nb.n then start + Trigram.TRIGRAM_BLOCK else ar.ix.nb.n;
    checked, cancelled := PushVisits(visits, ar, tombs, term, set', checkedBefore, cancel, w, start, end);
  }

  function TermTest(term: Name): Name -> bool {
    name => Contains(name, term)
  }

  /** No record between two candidate blocks owns the term. */
  lemma BlockSkipped(w: World, term: Name, set': IntervalSet, blocks: seq<nat>, i: nat)
    requires IsWorld(w) && CoversHits(w.names, TermTest(term), blocks) && i < |blocks|
    requires BlockStart(blocks[i] + 1, Size(w)) <= Size(w) && Pushing(set', w, term, BlockStart(blocks[i] + 1, Size(w)))
    ensures Reached(blocks, i + 1, Size(w)) <= Size(w) && Pushing(set', w, term, Reached(blocks, i + 1, Size(w)))
  {
    hide CoversHits, BlockStart, Hits, IsWorld, Pushing, Contains;
    SkipToNext(w.names, TermTest(term), blocks, i);
    BlockDone(w.names, TermTest(term), blocks, i);
    SkippedRange(w, term, set', BlockStart(blocks[i] + 1, Size(w)), Reached(blocks, i + 1, Size(w)));
  }

  lemma SkippedRange(w: World, term: Name, set': IntervalSet, j: nat, k: nat)
    requires IsWorld(w) && j <= k <= Size(w) && Pushing(set', w, term, j)
    requires Hits(w.names, TermTest(term), j, k) == []
    ensures Pushing(set', w, term, k)
  {
    TheoremHits(w.names, TermTest(term), j, k);
    hide IsWorld, Pushing, Contains, Hits;
    forall i | j <= i < k ensures !Owns(w, term, i) {
      assert i !in Hits(w.names, TermTest(term), j, k);
      assert !TermTest(term)(w.names[i]);
    }
    NothingPushed(w, term, set', j, k);
  }

  lemma FirstBlock(w: World, term: Name, set': IntervalSet, blocks: seq<nat>)
    requires IsWorld(w) && CoversHits(w.names, TermTest(term), blocks) && Pushing(set', w, term, 0)
    ensures Reached(blocks, 0, Size(w)) <= Size(w) && Pushing(set', w, term, Reached(blocks, 0, Size(w)))
  {
    hide CoversHits, BlockStart, Hits, IsWorld, Pushing, Contains;
    SkipToFirst(w.names, TermTest(term), blocks);
    SkippedRange(w, term, set', 0, Reached(blocks, 0, Size(w)));
  }

  lemma StartsEmpty(set': IntervalSet, w: World, term: Name)
    requires IsWorld(w) && set'.Valid() && set'.runs == []
    ensures Pushing(set', w, term, 0)
  {
  }

  method PushBlocks(ar: Arena, tombs: set<nat>, term: Name, set': IntervalSet, blocks: seq<nat>, checkedBefore: nat,
                    cancel: Cancellation?, ghost w: World)
    returns (checked: nat, cancelled: bool)
    requires IsArena(ar, w) && tombs == w.tombs && CoversHits(w.names, TermTest(term), blocks)
    requires Pushing(set', w, term, 0)
    modifies Flag(cancel), set'
    ensures cancelled ==> Superseded(cancel)
    ensures set'.Valid() && (!cancelled ==> Pushing(set', w, term, Size(w)))
  {
    ArenaParts(ar, w);
    FirstBlock(w, term, set', blocks);
    BlocksInRange(w.names, TermTest(term), blocks);
    hide IsArena, IsWorld, IsIndex, CoversHits, Pushing, BlockStart, Trigram.NumBlocks, Permutation;
    checked, cancelled := checkedBefore, false;
    for i := 0 to |blocks|
      invariant Reached(blocks, i, Size(w)) <= Size(w) && Pushing(set', w, term, Reached(blocks, i, Size(w)))
    {
      checked, cancelled := PushBlock(ar, tombs, term, set', blocks[i], checked, cancel, w);
      var superseded := Poll(cancel);
      if superseded {
        return checked, true;
      }
      BlockSkipped(w, term, set', blocks, i);
    }
    PushingValid(set', w, term, Size(w));
    cancelled := false;
  }

  /** build_term_interval_set: false means cancelled, and the set must be discarded. */
  method BuildTermIntervalSet(ar: Arena, tombs: set<nat>, term: Name, useFilter: bool, set': IntervalSet, checkedBefore: nat,
                              cancel: Cancellation?, ghost w: World)
    returns (completed: bool, checked: nat)
    requires IsArena(ar, w) && tombs == w.tombs && set'.Valid() && set'.runs == []
    modifies Flag(cancel), set'
    ensures set'.Valid()
    ensures !completed ==> Superseded(cancel)
    ensures completed ==> set'.coalescedLen == |set'.runs| && Denotes(set'.runs, w, term)
  {
    ArenaParts(ar, w);
    IndexParts(ar.ix, w.names);
    StartsEmpty(set', w, term);
    hide IsArena, IsWorld, IsIndex, Codes, IsWalk, CoversHits, Pushing, Trigram.Marks, Trigram.Possible, Contains, Coalesced;
    var filtered, blocks := false, [];
    if useFilter {
      filtered, blocks := Trigram.CandidateBlocks(term, ar.ix.matrix, ar.ix.nb.n, w.names);
    }
    var cancelled;
    if filtered {
      NeedleCovers(w.names, term, TermTest(term), blocks);
      checked, cancelled := PushBlocks(ar, tombs, term, set', blocks, checkedBefore, cancel, w);
    } else {
      var visits := WalkAll(ar.ix.nb, w.names);
      checked, cancelled := PushVisits(visits, ar, tombs, term, set', checkedBefore, cancel, w, 0, Size(w));
    }
    var superseded := Poll(cancel);
    if cancelled || superseded {
      return false, checked;
    }
    PushingValid(set', w, term, Size(w));
    ghost var queued := set'.runs;
    set'.Coalesce();
    UpToAll(queued, set'.runs, w, term);
    completed := true;
  }

  lemma UpToAll(queued: seq<Span>, runs: seq<Span>, w: World, term: Name)
    requires IsWorld(w) && DenotesUpTo(queued, w, term, Size(w))
    requires forall p: nat :: Covers(runs, p) <==> Covers(queued, p)
    ensures Denotes(runs, w, term)
  {
    hide Covers, IsWorld, CoveredBy;
  }
}
