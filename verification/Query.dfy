/** Scans over the names of an index: filtered, full, parallel and ranked (query.rs, query/parallel.rs). */
module Query {
  import opened Records
  import opened Ascii
  import opened Cancel
  import opened Names
  import opened TopK
  import Literals
  import Trigram

  // ---- the index ---------------------------------------------------------------------

  /** The columns a name scan reads. */
  datatype Index = Index(nb: NameBlob, matrix: seq<bv8>)

  ghost predicate IsIndex(ix: Index, names: seq<Name>) {
    && Codes(ix.nb, names)
    && (ix.matrix != [] ==> Trigram.Marks(ix.matrix, Trigram.RowBytes(Trigram.NumBlocks(ix.nb.n)), names))
  }

  lemma IndexParts(ix: Index, names: seq<Name>)
    requires IsIndex(ix, names)
    ensures Codes(ix.nb, names) && ix.nb.n == |names|
    ensures ix.matrix != [] ==> Trigram.Marks(ix.matrix, Trigram.RowBytes(Trigram.NumBlocks(ix.nb.n)), names)
  {
    hide Trigram.Marks;
  }

  // ---- what a scan denotes -----------------------------------------------------------

  /** The records in `lo .. hi` whose names pass `test`, in order. */
  function Hits(names: seq<Name>, test: Name -> bool, lo: nat, hi: nat): seq<nat>
    requires lo <= hi <= |names|
    decreases hi - lo
  {
    if lo == hi then []
    else Hits(names, test, lo, hi - 1) + if test(names[hi - 1]) then [hi - 1] else []
  }

  function Take<T>(s: seq<T>, cap: nat): seq<T> {
    if |s| <= cap then s else s[..cap]
  }

  function AllHits(names: seq<Name>, test: Name -> bool): seq<nat> {
    Hits(names, test, 0, |names|)
  }

  lemma {:induction false} HitsSplit(names: seq<Name>, test: Name -> bool, lo: nat, mid: nat, hi: nat)
    requires lo <= mid <= hi <= |names|
    ensures Hits(names, test, lo, hi) == Hits(names, test, lo, mid) + Hits(names, test, mid, hi)
    decreases hi - mid
  {
    if mid < hi {
      HitsSplit(names, test, lo, mid, hi - 1);
    }
  }

  lemma {:induction false} NoHits(names: seq<Name>, test: Name -> bool, lo: nat, hi: nat)
    requires lo <= hi <= |names| && forall i :: lo <= i < hi ==> !test(names[i])
    ensures Hits(names, test, lo, hi) == []
    decreases hi - lo
  {
    if lo < hi {
      NoHits(names, test, lo, hi - 1);
    }
  }

  /** Hits are exactly the passing records, ascending. */
  lemma {:induction false} TheoremHits(names: seq<Name>, test: Name -> bool, lo: nat, hi: nat)
    requires lo <= hi <= |names|
    ensures forall i: nat :: i in Hits(names, test, lo, hi) <==> lo <= i < hi && test(names[i])
    ensures forall a, b :: 0 <= a < b < |Hits(names, test, lo, hi)| ==>
      Hits(names, test, lo, hi)[a] < Hits(names, test, lo, hi)[b]
    decreases hi - lo
  {
    if lo < hi {
      TheoremHits(names, test, lo, hi - 1);
      var before := Hits(names, test, lo, hi - 1);
      forall a | 0 <= a < |before| ensures before[a] < hi - 1 {
        assert before[a] in before;
      }
    }
  }

  lemma HitsStep(names: seq<Name>, test: Name -> bool, k: nat)
    requires k < |names|
    ensures Hits(names, test, 0, k + 1) == Hits(names, test, 0, k) + if test(names[k]) then [k] else []
  {
  }

  lemma CapReached(names: seq<Name>, test: Name -> bool, cap: nat, k: nat)
    requires k <= |names| && |Hits(names, test, 0, k)| == cap
    ensures Take(AllHits(names, test), cap) == Hits(names, test, 0, k)
  {
    HitsSplit(names, test, 0, k, |names|);
  }

  // ---- the scan callback -------------------------------------------------------------

  /**
   * Runs the callback over one walk: the last match result is reused across repeated names,
   * and the scan stops at the `cap`-th hit or when a poll sees the query superseded.
   */
  method CollectVisits(visits: seq<Visit>, test: Name -> bool, cap: nat, before: seq<nat>, checkedBefore: nat,
                       cancel: Cancellation?, ghost names: seq<Name>, ghost start: nat, ghost stop: nat)
    returns (results: seq<nat>, checked: nat, stopped: bool, cancelled: bool)
    requires start <= stop <= |names| && IsWalk(names, start, stop, visits)
    requires before == Hits(names, test, 0, start) && |before| < cap
    modifies Flag(cancel)
    ensures cancelled ==> stopped && Superseded(cancel)
    ensures old(Superseded(cancel)) ==> Superseded(cancel)
    ensures !stopped ==> results == Hits(names, test, 0, stop) && |results| < cap
    ensures stopped && !cancelled ==> results == Take(AllHits(names, test), cap)
  {
    hide InBucket, CHECK_INTERVAL, WRAP, Hits, AllHits, Take;
    results, checked, stopped, cancelled := before, checkedBefore, false, false;
    var matched := false;
    for k := 0 to |visits|
      invariant results == Hits(names, test, 0, start + k) && |results| < cap
      invariant k > 0 ==> matched == test(names[start + k - 1])
      invariant old(Superseded(cancel)) ==> Superseded(cancel)
    {
      var stop';
      stop', checked := PollPeriodically(cancel, checked);
      if stop' {
        return results, checked, true, true;
      }
      var v := visits[k];
      if !v.repeated {
        matched := test(v.name);
      }
      HitsStep(names, test, start + k);
      if matched {
        results := results + [v.idx];
        if |results| >= cap {
          CapReached(names, test, cap, start + k + 1);
          return results, checked, true, false;
        }
      }
    }
  }

  /** A whole scan that never breaks off early. */
  method ScanAll(ix: Index, test: Name -> bool, cap: nat, cancel: Cancellation?, ghost names: seq<Name>)
    returns (results: seq<nat>, cancelled: bool)
    requires IsIndex(ix, names) && cap > 0
    modifies Flag(cancel)
    ensures cancelled ==> Superseded(cancel)
    ensures !cancelled ==> results == Take(AllHits(names, test), cap)
  {
    IndexParts(ix, names);
    hide IsIndex, Codes, IsWalk;
    var visits := WalkAll(ix.nb, names);
    var checked, stopped;
    results, checked, stopped, cancelled := CollectVisits(visits, test, cap, [], 0, cancel, names, 0, |names|);
  }

  /** The blocks of `output` hold every hit. */
  ghost predicate CoversHits(names: seq<Name>, test: Name -> bool, output: seq<nat>) {
    && (forall i, j :: 0 <= i < j < |output| ==> output[i] < output[j])
    && (forall b :: b in output ==> b < Trigram.NumBlocks(|names|))
    && (forall i: nat :: i < |names| && test(names[i]) ==> i / Trigram.TRIGRAM_BLOCK in output)
  }

  function BlockStart(block: nat, n: nat): nat {
    if block * Trigram.TRIGRAM_BLOCK < n then block * Trigram.TRIGRAM_BLOCK else n
  }

  /** Where the scan stands before the `i`-th candidate block. */
  function Reached(output: seq<nat>, i: nat, n: nat): nat {
    if i < |output| then BlockStart(output[i], n) else n
  }

  lemma BlockOf(i: nat, block: nat, n: nat)
    requires i < n && i / Trigram.TRIGRAM_BLOCK == block
    ensures BlockStart(block, n) <= i < BlockStart(block + 1, n)
  {
  }

  lemma BlockRange(block: nat, n: nat)
    requires block < Trigram.NumBlocks(n)
    ensures BlockStart(block, n) == block * Trigram.TRIGRAM_BLOCK < n
    ensures BlockStart(block + 1, n) ==
      if BlockStart(block, n) + Trigram.TRIGRAM_BLOCK < n then BlockStart(block, n) + Trigram.TRIGRAM_BLOCK else n
  {
  }

  lemma BlocksInOrder(a: nat, b: nat, n: nat)
    requires a <= b
    ensures BlockStart(a, n) <= BlockStart(b, n)
  {
  }

  /** Skipping from the end of one candidate block to the start of the next loses no hit. */
  lemma SkipToNext(names: seq<Name>, test: Name -> bool, output: seq<nat>, i: nat)
    requires CoversHits(names, test, output) && i < |output|
    ensures BlockStart(output[i] + 1, |names|) <= Reached(output, i + 1, |names|)
    ensures Hits(names, test, BlockStart(output[i] + 1, |names|), Reached(output, i + 1, |names|)) == []
  {
    hide BlockStart;
    var n := |names|;
    assert i + 1 < |output| ==> output[i] + 1 <= output[i + 1];
    if i + 1 < |output| {
      StartBounded(output[i + 1], n);
      BlocksInOrder(output[i] + 1, output[i + 1], n);
    } else {
      StartBounded(output[i] + 1, n);
    }
    forall k: nat | BlockStart(output[i] + 1, n) <= k < Reached(output, i + 1, n) ensures !test(names[k]) {
      if k < n && test(names[k]) {
        var b := k / Trigram.TRIGRAM_BLOCK;
        var j :| 0 <= j < |output| && output[j] == b;
        BlockOf(k, b, n);
        if j <= i {
          BlocksInOrder(b + 1, output[i] + 1, n);
        } else {
          BlocksInOrder(output[i + 1], b, n);
        }
      }
    }
    StartBounded(output[i] + 1, n);
    NoHits(names, test, BlockStart(output[i] + 1, n), Reached(output, i + 1, n));
  }

  lemma StartBounded(b: nat, n: nat)
    ensures BlockStart(b, n) <= n
  {
  }

  lemma SkipToFirst(names: seq<Name>, test: Name -> bool, output: seq<nat>)
    requires CoversHits(names, test, output)
    ensures Reached(output, 0, |names|) <= |names| && Hits(names, test, 0, Reached(output, 0, |names|)) == []
  {
    var n := |names|;
    forall k: nat | k < Reached(output, 0, n) ensures k < n && !test(names[k]) {
      StartBounded(if output == [] then 0 else output[0], n);
      if test(names[k]) {
        var b := k / Trigram.TRIGRAM_BLOCK;
        var j :| 0 <= j < |output| && output[j] == b;
        BlockOf(k, b, n);
        BlocksInOrder(output[0], b, n);
      }
    }
    NoHits(names, test, 0, Reached(output, 0, n));
  }

  lemma BlockDone(names: seq<Name>, test: Name -> bool, output: seq<nat>, i: nat)
    requires CoversHits(names, test, output) && i < |output|
    ensures BlockStart(output[i] + 1, |names|) <= Reached(output, i + 1, |names|) <= |names|
    ensures Hits(names, test, 0, BlockStart(output[i] + 1, |names|)) == Hits(names, test, 0, Reached(output, i + 1, |names|))
  {
    hide BlockStart, CoversHits, Hits;
    SkipToNext(names, test, output, i);
    if i + 1 < |output| {
      StartBounded(output[i + 1], |names|);
    }
    HitsSplit(names, test, 0, BlockStart(output[i] + 1, |names|), Reached(output, i + 1, |names|));
  }

  /** One candidate block; the last one may be partial. */
  method ScanBlock(ix: Index, test: Name -> bool, cap: nat, block: nat, before: seq<nat>, checkedBefore: nat,
                   cancel: Cancellation?, ghost names: seq<Name>)
    returns (results: seq<nat>, checked: nat, stopped: bool, cancelled: bool)
    requires IsIndex(ix, names) && block < Trigram.NumBlocks(|names|) && BlockStart(block, |names|) <= |names|
    requires before == Hits(names, test, 0, BlockStart(block, |names|)) && |before| < cap
    modifies Flag(cancel)
    ensures cancelled ==> stopped && Superseded(cancel)
    ensures old(Superseded(cancel)) ==> Superseded(cancel)
    ensures BlockStart(block + 1, |names|) <= |names|
    ensures !stopped ==> results == Hits(names, test, 0, BlockStart(block + 1, |names|)) && |results| < cap
    ensures stopped && !cancelled ==> results == Take(AllHits(names, test), cap)
  {
    hide IsIndex, Codes, IsWalk, Hits, BlockStart, Trigram.NumBlocks;
    IndexParts(ix, names);
    BlockRange(block, |names|);
    var start := block * Trigram.TRIGRAM_BLOCK;
    var end := if start + Trigram.TRIGRAM_BLOCK < ix.nb.n then start + Trigram.TRIGRAM_BLOCK else ix.nb.n;
    var visits := WalkRange(ix.nb, start, end, names);
    results, checked, stopped, cancelled := CollectVisits(visits, test, cap, before, checkedBefore, cancel, names, start, end);
  }

  /** Scans the candidate blocks only. */
  method ScanBlocks(ix: Index, test: Name -> bool, cap: nat, blocks: seq<nat>, cancel: Cancellation?, ghost names: seq<Name>)
    returns (results: seq<nat>, cancelled: bool)
    requires IsIndex(ix, names) && cap > 0 && CoversHits(names, test, blocks)
    modifies Flag(cancel)
    ensures cancelled ==> Superseded(cancel)
    ensures !cancelled ==> results == Take(AllHits(names, test), cap)
  {
    hide IsIndex, CoversHits, Hits, BlockStart, Trigram.NumBlocks;
    SkipToFirst(names, test, blocks);
    BlocksInRange(names, test, blocks);
    var checked, stopped := 0, false;
    results, cancelled := [], false;
    for i := 0 to |blocks|
      invariant Reached(blocks, i, |names|) <= |names| && !cancelled
      invariant results == Hits(names, test, 0, Reached(blocks, i, |names|)) && |results| < cap
    {
      BlockDone(names, test, blocks, i);
      results, checked, stopped, cancelled := ScanBlock(ix, test, cap, blocks[i], results, checked, cancel, names);
      if stopped {
        return;
      }
    }
  }

  lemma BlocksInRange(names: seq<Name>, test: Name -> bool, blocks: seq<nat>)
    requires CoversHits(names, test, blocks)
    ensures forall i :: 0 <= i < |blocks| ==> blocks[i] < Trigram.NumBlocks(|names|)
  {
    forall i | 0 <= i < |blocks| ensures blocks[i] < Trigram.NumBlocks(|names|) {
      assert blocks[i] in blocks;
    }
  }

  // ---- queries -----------------------------------------------------------------------

  /** A compiled query: the match engine's verdict on each name is `test`. */
  datatype Query =
    | Prefix(prefix: Name)
    | Substring(needle: Name)
    | Regex(pattern: Option<Literals.Hir>)

  /** The engine decides what the query means; a pattern that does not compile matches nothing. */
  ghost predicate Decides(query: Query, test: Name -> bool) {
    match query
    case Prefix(prefix) => forall name: Name :: test(name) <==> StartsWithCi(name, prefix)
    case Substring(needle) => forall name: Name :: test(name) <==> Contains(name, LowerAll(needle))
    case Regex(None) => forall name: Name :: !test(name)
    case Regex(Some(h)) => Literals.Parsed(h) && forall name: Name :: test(name) <==> Literals.IsMatch(h, name)
  }

  lemma NeedleCovers(names: seq<Name>, needle: Name, test: Name -> bool, output: seq<nat>)
    requires forall name: Name :: test(name) <==> Contains(name, needle)
    requires forall b: nat :: b in output <==> b < Trigram.NumBlocks(|names|) && Trigram.Possible(names, needle, b)
    requires forall i, j :: 0 <= i < j < |output| ==> output[i] < output[j]
    ensures CoversHits(names, test, output)
  {
    hide Trigram.Possible, Contains;
    forall i: nat | i < |names| && test(names[i]) ensures i / Trigram.TRIGRAM_BLOCK in output {
      Trigram.ContainingIsPossible(names, needle, i);
      BlockExists(i, |names|);
    }
  }

  lemma BlockExists(i: nat, n: nat)
    requires i < n
    ensures i / Trigram.TRIGRAM_BLOCK < Trigram.NumBlocks(n)
  {
  }

  lemma ClausesCover(names: seq<Name>, h: Literals.Hir, clauses: seq<Trigram.Clause>, test: Name -> bool, output: seq<nat>)
    requires forall name: Name :: test(name) <==> Literals.IsMatch(h, name)
    requires Literals.Sound(h, clauses)
    requires forall b: nat :: b in output <==>
      b < Trigram.NumBlocks(|names|) && Trigram.AllPossible(names, clauses, |clauses|, b)
    requires forall i, j :: 0 <= i < j < |output| ==> output[i] < output[j]
    ensures CoversHits(names, test, output)
  {
    hide Trigram.Possible, Contains, Literals.IsMatch, Literals.Sound;
    forall i: nat | i < |names| && test(names[i]) ensures i / Trigram.TRIGRAM_BLOCK in output {
      var block := i / Trigram.TRIGRAM_BLOCK;
      BlockExists(i, |names|);
      Literals.TheoremLiteralsAreRequired(h, clauses, names[i]);
      forall c | 0 <= c < |clauses| ensures Trigram.ClausePossible(names, clauses[c], |clauses[c]|, block) {
        assert Literals.Holds(clauses[c], names[i]);
        var k :| 0 <= k < |clauses[c]| && Contains(names[i], clauses[c][k]);
        Trigram.ContainingIsPossible(names, clauses[c][k], i);
      }
      assert Trigram.AllPossible(names, clauses, |clauses|, block);
    }
  }

  /** scan_substring_impl with a sink that collects at most `cap` records. */
  method ScanSubstring(ix: Index, needle: Name, test: Name -> bool, cap: nat, cancel: Cancellation?, ghost names: seq<Name>)
    returns (results: seq<nat>, cancelled: bool)
    requires IsIndex(ix, names) && cap > 0 && Decides(Substring(needle), test)
    modifies Flag(cancel)
    ensures cancelled ==> Superseded(cancel)
    ensures !cancelled ==> results == Take(AllHits(names, test), cap)
  {
    IndexParts(ix, names);
    hide IsIndex, Codes, Trigram.Marks, CoversHits;
    var needleLower := LowerAll(needle);
    var filtered, blocks := Trigram.CandidateBlocks(needleLower, ix.matrix, ix.nb.n, names);
    if !filtered {
      results, cancelled := ScanAll(ix, test, cap, cancel, names);
    } else {
      NeedleCovers(names, needleLower, test, blocks);
      results, cancelled := ScanBlocks(ix, test, cap, blocks, cancel, names);
    }
  }

  /** The required literals of a pattern, and the blocks they leave. */
  method RegexBlocks(ix: Index, h: Literals.Hir, ghost test: Name -> bool, ghost names: seq<Name>)
    returns (filtered: bool, blocks: seq<nat>)
    requires IsIndex(ix, names) && Decides(Regex(Some(h)), test)
    ensures filtered ==> CoversHits(names, test, blocks)
  {
    IndexParts(ix, names);
    hide IsIndex, Codes, Trigram.Marks, CoversHits, Literals.IsMatch, Literals.Sound;
    var clauses := Literals.Analyze(h);
    if clauses.None? {
      return false, [];
    }
    filtered, blocks := Trigram.CandidateBlocksForClauses(clauses.value, ix.matrix, ix.nb.n, names);
    if filtered {
      ClausesCover(names, h, clauses.value, test, blocks);
    }
  }

  /** scan_regex_impl: a pattern that does not compile reports nothing. */
  method ScanRegex(ix: Index, pattern: Option<Literals.Hir>, test: Name -> bool, cap: nat, cancel: Cancellation?,
                   ghost names: seq<Name>)
    returns (results: seq<nat>, cancelled: bool)
    requires IsIndex(ix, names) && cap > 0 && Decides(Regex(pattern), test)
    modifies Flag(cancel)
    ensures cancelled ==> Superseded(cancel)
    ensures !cancelled ==> results == Take(AllHits(names, test), cap)
  {
    if pattern.None? {
      NoHits(names, test, 0, |names|);
      return [], false;
    }
    hide IsIndex, CoversHits, Literals.IsMatch;
    var filtered, blocks := RegexBlocks(ix, pattern.value, test, names);
    if filtered {
      results, cancelled := ScanBlocks(ix, test, cap, blocks, cancel, names);
    } else {
      results, cancelled := ScanAll(ix, test, cap, cancel, names);
    }
  }

  lemma {:induction false} RangeHits(names: seq<Name>, prefix: Name, test: Name -> bool, range: (nat, nat), hi: nat)
    requires InRange(names, prefix, range) && Decides(Prefix(prefix), test) && hi <= |names|
    ensures Hits(names, test, 0, hi) ==
      if hi <= range.0 then [] else seq((if hi < range.1 then hi else range.1) - range.0, i requires i >= 0 => range.0 + i)
  {
    hide StartsWithCi;
    if hi > 0 {
      RangeHits(names, prefix, test, range, hi - 1);
    }
  }

  /** The first `cap` passing records, or all of them, ascending. */
  ghost predicate AreFirst(results: seq<nat>, names: seq<Name>, test: Name -> bool, cap: nat) {
    && |results| <= cap
    && (forall k :: 0 <= k < |results| ==> results[k] < |names| && test(names[results[k]]))
    && (forall a, b :: 0 <= a < b < |results| ==> results[a] < results[b])
    && forall r: nat :: r < |names| && test(names[r]) && r !in results ==> |results| == cap && AllBefore(results, r)
  }

  predicate AllBefore(results: seq<nat>, r: nat) {
    forall k :: 0 <= k < |results| ==> results[k] < r
  }

  lemma TheoremTakenAreFirst(names: seq<Name>, test: Name -> bool, cap: nat)
    ensures AreFirst(Take(AllHits(names, test), cap), names, test, cap)
  {
    TheoremHits(names, test, 0, |names|);
    TakeIsPrefix(AllHits(names, test), cap);
    FirstOf(AllHits(names, test), Take(AllHits(names, test), cap), names, test, cap);
  }

  lemma TakeIsPrefix(all: seq<nat>, cap: nat)
    ensures var some := Take(all, cap);
            && |some| <= cap && |some| <= |all| && (|some| < |all| ==> |some| == cap)
            && forall k :: 0 <= k < |some| ==> some[k] == all[k]
  {
  }

  lemma FirstOf(all: seq<nat>, some: seq<nat>, names: seq<Name>, test: Name -> bool, cap: nat)
    requires forall i: nat :: i in all <==> i < |names| && test(names[i])
    requires forall a, b :: 0 <= a < b < |all| ==> all[a] < all[b]
    requires |some| <= cap && |some| <= |all| && (|some| < |all| ==> |some| == cap)
    requires forall k :: 0 <= k < |some| ==> some[k] == all[k]
    ensures AreFirst(some, names, test, cap)
  {
    forall k | 0 <= k < |some| ensures some[k] < |names| && test(names[some[k]]) {
      assert all[k] in all;
    }
    forall r: nat | r < |names| && test(names[r]) && r !in some ensures |some| == cap && AllBefore(some, r) {
      assert forall k :: 0 <= k < |some| ==> all[k] == some[k] != r;
      var j :| 0 <= j < |all| && all[j] == r;
      assert j >= |some|;
    }
  }

  /** How many records a query may return: a scan checks its limit only after the first hit. */
  function Cap(query: Query, limit: nat): nat {
    if query.Prefix? || limit > 0 then limit else 1
  }

  /** search_base: the first `limit` hits, whichever way the index finds them. */
  method SearchBase(ix: Index, query: Query, test: Name -> bool, limit: nat, cancel: Cancellation?, ghost names: seq<Name>)
    returns (results: seq<nat>)
    requires IsIndex(ix, names) && Sorted(names) && Decides(query, test)
    modifies Flag(cancel)
    ensures results == Take(AllHits(names, test), Cap(query, limit)) || (Superseded(cancel) && results == [])
    ensures limit > 0 ==> AreFirst(results, names, test, limit) || (Superseded(cancel) && results == [])
    ensures limit == 0 ==> AreFirst(results, names, test, if query.Prefix? then 0 else 1) || (Superseded(cancel) && results == [])
  {
    TheoremTakenAreFirst(names, test, Cap(query, limit));
    hide IsIndex, Sorted, Decides, Hits, AreFirst;
    var cancelled;
    match query {
      case Prefix(prefix) =>
        PrefixParts(ix, names);
        var range := PrefixRange(ix.nb, prefix, names);
        var all := seq(range.1 - range.0, i requires 0 <= i < range.1 - range.0 => range.0 + i);
        PrefixHits(names, prefix, test, range);
        results := Take(all, limit);
      case Substring(needle) =>
        results, cancelled := ScanSubstring(ix, needle, test, Cap(query, limit), cancel, names);
        if cancelled {
          results := [];
        }
      case Regex(pattern) =>
        results, cancelled := ScanRegex(ix, pattern, test, Cap(query, limit), cancel, names);
        if cancelled {
          results := [];
        }
    }
  }

  lemma PrefixParts(ix: Index, names: seq<Name>)
    requires IsIndex(ix, names)
    ensures Codes(ix.nb, names)
  {
  }

  lemma PrefixHits(names: seq<Name>, prefix: Name, test: Name -> bool, range: (nat, nat))
    requires InRange(names, prefix, range) && Decides(Prefix(prefix), test)
    ensures range.0 <= range.1
    ensures AllHits(names, test) == seq(range.1 - range.0, i requires 0 <= i < range.1 - range.0 => range.0 + i)
  {
    RangeHits(names, prefix, test, range, |names|);
  }
}
