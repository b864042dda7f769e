/** Recursive sizes and size exactness over depth-first spans (dfs.rs, arena.rs, arena/spooled.rs). */
module Aggregates {
  import opened Records
  import opened Bits
  import opened TreeOrder
  import RankSelect

  const U32_LIMIT: nat := 0x1_0000_0000
  const U64_LIMIT: nat := 0x1_0000_0000_0000_0000

  // ---- sums over sets of records -----------------------------------------------------

  /** Everything at or below `a` in the spanning forest. */
  ghost function Descendants(parents: seq<Word>, l: Layout, a: nat): set<nat>
    requires IsForest(parents, l) && |parents| < PARENT_NONE
  {
    set r: nat | r < |parents| && Reaches(parents, l, r, a)
  }

  ghost function Total(values: seq<nat>, s: set<nat>): nat
    requires forall r :: r in s ==> r < |values|
  {
    if s == {} then 0
    else var r :| r in s; values[r] + Total(values, s - {r})
  }

  lemma {:induction false} TotalWithout(values: seq<nat>, s: set<nat>, r: nat)
    requires r in s && forall x :: x in s ==> x < |values|
    ensures Total(values, s) == values[r] + Total(values, s - {r})
  {
    var x :| x in s && Total(values, s) == values[x] + Total(values, s - {x});
    if x != r {
      TotalWithout(values, s - {x}, r);
      TotalWithout(values, s - {r}, x);
      assert s - {x} - {r} == s - {r} - {x};
    }
  }

  /** Sum of `values` over the records at the first `k` positions. */
  ghost function Prefix(records: seq<nat>, values: seq<nat>, k: nat): nat
    requires k <= |records| && forall i :: 0 <= i < |records| ==> records[i] < |values|
  {
    if k == 0 then 0 else Prefix(records, values, k - 1) + values[records[k - 1]]
  }

  ghost function AtPositions(l: Layout, lo: nat, hi: nat): set<nat>
    requires lo <= hi <= |l.records|
  {
    set k | lo <= k < hi :: l.records[k]
  }

  lemma {:induction false} PrefixIsTotal(n: nat, l: Layout, values: seq<nat>, lo: nat, hi: nat)
    requires Permutation(n, l) && |values| == n && lo <= hi <= n
    ensures Prefix(l.records, values, hi) == Prefix(l.records, values, lo) + Total(values, AtPositions(l, lo, hi))
  {
    if lo < hi {
      PrefixIsTotal(n, l, values, lo, hi - 1);
      var last := l.records[hi - 1];
      PositionsStep(n, l, lo, hi);
      TotalWithout(values, AtPositions(l, lo, hi), last);
      hide AtPositions, Permutation;
    }
  }

  lemma PositionsStep(n: nat, l: Layout, lo: nat, hi: nat)
    requires Permutation(n, l) && lo < hi <= n
    ensures l.records[hi - 1] in AtPositions(l, lo, hi) && l.records[hi - 1] !in AtPositions(l, lo, hi - 1)
    ensures AtPositions(l, lo, hi) == AtPositions(l, lo, hi - 1) + {l.records[hi - 1]}
    ensures AtPositions(l, lo, hi) - {l.records[hi - 1]} == AtPositions(l, lo, hi - 1)
  {
    assert forall k :: 0 <= k < n ==> l.positions[l.records[k]] == k;
  }

  lemma SpanIsDescendants(parents: seq<Word>, l: Layout, a: nat)
    requires IsForest(parents, l) && |parents| < PARENT_NONE && a < |parents|
    ensures Descendants(parents, l, a) == AtPositions(l, l.positions[a], l.ends[a])
  {
    hide Reaches, Linked;
    forall r: nat | r < |parents|
      ensures Reaches(parents, l, r, a) <==> r in AtPositions(l, l.positions[a], l.ends[a])
    {
      TheoremSpanIsReachability(parents, l, r, a);
      assert l.records[l.positions[r]] == r;
    }
    hide Permutation;
  }

  // ---- recursive sizes ---------------------------------------------------------------

  /** A u64 running sum of u32 values: below 2^31 records it cannot wrap. */
  method PrefixSumsU64(records: seq<nat>, values: seq<nat>) returns (prefix: seq<nat>)
    requires forall i :: 0 <= i < |records| ==> records[i] < |values|
    requires forall r :: 0 <= r < |values| ==> values[r] < U32_LIMIT
    requires |records| < PARENT_NONE
    ensures |prefix| == |records| + 1
    ensures forall k :: 0 <= k < |prefix| ==> prefix[k] == Prefix(records, values, k) < U64_LIMIT
  {
    prefix := [0];
    var running := 0;
    for k := 0 to |records|
      invariant |prefix| == k + 1 && running == Prefix(records, values, k) <= k * (U32_LIMIT - 1)
      invariant forall j :: 0 <= j < |prefix| ==> prefix[j] == Prefix(records, values, j) < U64_LIMIT
    {
      assert (k + 1) * (U32_LIMIT - 1) == k * (U32_LIMIT - 1) + (U32_LIMIT - 1) < U64_LIMIT;
      running := running + values[records[k]];
      prefix := prefix + [running];
    }
  }

  /** recursive_size_kib: one subtraction, saturating at the width a sort key holds. */
  function RecursiveSizeKib(l: Layout, prefix: seq<nat>, sizes: seq<nat>, idx: nat): nat
    requires idx < |sizes|
    requires prefix != [] && l.positions != [] ==>
      && idx < |l.positions| && idx < |l.ends| && l.ends[idx] < |prefix| && l.positions[idx] < |prefix|
      && prefix[l.positions[idx]] <= prefix[l.ends[idx]]
  {
    if prefix == [] then sizes[idx]
    else
      var total := if l.positions == [] then 0 else prefix[l.ends[idx]] - prefix[l.positions[idx]];
      if total < U32_LIMIT then total else U32_LIMIT - 1
  }

  /** A directory's recursive size is the sum over everything that reaches it by tree parents. */
  lemma TheoremRecursiveSize(parents: seq<Word>, l: Layout, prefix: seq<nat>, sizes: seq<nat>, a: nat)
    requires IsForest(parents, l) && a < |parents| == |sizes| < PARENT_NONE && |prefix| == |parents| + 1
    requires forall k :: 0 <= k < |prefix| ==> prefix[k] == Prefix(l.records, sizes, k)
    ensures prefix[l.positions[a]] <= prefix[l.ends[a]]
    ensures RecursiveSizeKib(l, prefix, sizes, a) ==
      var total := Total(sizes, Descendants(parents, l, a)); if total < U32_LIMIT then total else U32_LIMIT - 1
  {
    PrefixIsTotal(|parents|, l, sizes, l.positions[a], l.ends[a]);
    SpanIsDescendants(parents, l, a);
  }

  /** Spans of descendants are counted by their width. */
  lemma {:induction false} WidthIsCount(n: nat, l: Layout, lo: nat, hi: nat)
    requires Permutation(n, l) && lo <= hi <= n
    ensures |AtPositions(l, lo, hi)| == hi - lo
  {
    if lo < hi {
      WidthIsCount(n, l, lo, hi - 1);
      PositionsStep(n, l, lo, hi);
    }
  }

  lemma TheoremSubtreeLen(parents: seq<Word>, l: Layout, a: nat)
    requires IsForest(parents, l) && a < |parents| < PARENT_NONE
    ensures l.ends[a] - l.positions[a] == |Descendants(parents, l, a)|
  {
    SpanIsDescendants(parents, l, a);
    WidthIsCount(|parents|, l, l.positions[a], l.ends[a]);
  }

  // ---- size exactness ----------------------------------------------------------------

  ghost predicate UnknownFile(parents: seq<Word>, raw: seq<bool>, r: nat)
    requires |raw| == |parents|
  {
    r < |parents| && !WordIsDir(parents[r]) && !raw[r]
  }

  /** A directory is exact if and only if no file below it has an unknown size. */
  ghost predicate Exact(parents: seq<Word>, l: Layout, raw: seq<bool>, r: nat)
    requires IsForest(parents, l) && r < |parents| == |raw| && |parents| < PARENT_NONE
  {
    if WordIsDir(parents[r]) then forall f :: f in Descendants(parents, l, r) ==> !UnknownFile(parents, raw, f)
    else raw[r]
  }

  lemma ClearSpan(parents: seq<Word>, l: Layout, raw: seq<bool>, unknown: seq<bv8>, a: nat)
    requires IsForest(parents, l) && a < |parents| == |raw| && |parents| < PARENT_NONE
    requires forall k: nat :: k < |parents| ==> (Bit(unknown, k) <==> UnknownFile(parents, raw, l.records[k]))
    ensures (RankSelect.Ones(unknown, l.positions[a]) == RankSelect.Ones(unknown, l.ends[a])) <==>
      forall f :: f in Descendants(parents, l, a) ==> !UnknownFile(parents, raw, f)
  {
    SpanIsDescendants(parents, l, a);
    RankSelect.EqualRanks(unknown, l.positions[a], l.ends[a]);
    hide Reaches, Bit, UnknownFile, RankSelect.Ones, Linked;
    if forall f :: f in Descendants(parents, l, a) ==> !UnknownFile(parents, raw, f) {
      forall k: nat | l.positions[a] <= k < l.ends[a] ensures !Bit(unknown, k) {
        assert l.records[k] in AtPositions(l, l.positions[a], l.ends[a]);
      }
    }
  }

  /** derive_size_exact_bits, and its spool-backed twin over the same columns. */
  method DeriveSizeExactBits(parents: seq<Word>, l: Layout, raw: seq<bool>) returns (result: seq<bv8>)
    requires IsForest(parents, l) && |raw| == |parents| < PARENT_NONE
    ensures |result| == BytesFor(|parents|)
    ensures forall r: nat :: r < |parents| ==> (Bit(result, r) <==> Exact(parents, l, raw, r))
  {
    hide Linked, Nested, Bit, Reaches;
    var n := |parents|;
    var unknown := new bv8[BytesFor(n)](_ => 0);
    assert forall k: nat :: !Bit(unknown[..], k) by { AllClear(unknown[..]); }
    for record := 0 to n
      invariant forall k: nat :: k < n ==> (Bit(unknown[..], k) <==>
        l.records[k] < record && UnknownFile(parents, raw, l.records[k]))
    {
      if !WordIsDir(parents[record]) && !raw[record] {
        SetBit(unknown, l.positions[record]);
      }
    }
    ghost var marks := unknown[..];
    var samples := RankSelect.BuildSuperblocks(unknown[..]);
    var bits := new bv8[BytesFor(n)](_ => 0);
    assert forall k: nat :: !Bit(bits[..], k) by { AllClear(bits[..]); }
    for record := 0 to n
      invariant unknown[..] == marks
      invariant forall r: nat :: Bit(bits[..], r) ==> r < record
      invariant forall r: nat :: r < record ==> (Bit(bits[..], r) <==> Exact(parents, l, raw, r))
    {
      var exact;
      if WordIsDir(parents[record]) {
        var start := RankSelect.Rank1(unknown[..], samples, l.positions[record]);
        var end := RankSelect.Rank1(unknown[..], samples, l.ends[record]);
        ClearSpan(parents, l, raw, marks, record);
        exact := start == end;
      } else {
        exact := raw[record];
      }
      if exact {
        SetBit(bits, record);
      }
    }
    result := bits[..];
  }

  lemma AllClear(bytes: seq<bv8>)
    requires forall i :: 0 <= i < |bytes| ==> bytes[i] == 0
    ensures forall k: nat :: !Bit(bytes, k)
  {
  }
}
