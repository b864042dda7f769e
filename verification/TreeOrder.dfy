/**
 Depth-first tree order over an untrusted parent column (dfs.rs, arena.rs).

 `IsLayout` says what the three columns of a layout mean; it is what every reader of the
 columns relies on. The parent column is arbitrary: cycles, self-parents and dangling
 indices are all allowed. `Theorem*` lemmas are the facts the rest of the index uses.
 */
module TreeOrder {
  import opened Records

  datatype Layout = Layout(positions: seq<nat>, records: seq<nat>, ends: seq<nat>)

  /** The raw parent edges the traversal can follow: in range and not a self loop. */
  predicate HasEdge(parents: seq<Word>, child: nat, parent: nat) {
    child < |parents| && parent < |parents| && parent != child && UnpackParent(parents[child]) == parent
  }

  /** Records with no usable parent edge are the traversal's roots. */
  predicate IsRoot(parents: seq<Word>, r: nat) {
    r < |parents| && !HasEdge(parents, r, UnpackParent(parents[r]))
  }

  function Parent(parents: seq<Word>, r: nat): nat
    requires r < |parents|
  {
    UnpackParent(parents[r])
  }

  /** Inverse columns: every record has exactly one position. */
  ghost predicate Permutation(n: nat, l: Layout) {
    && |l.positions| == |l.records| == |l.ends| == n
    && (forall r :: 0 <= r < n ==> l.positions[r] < n && l.records[l.positions[r]] == r)
    && (forall k :: 0 <= k < n ==> l.records[k] < n && l.positions[l.records[k]] == k)
  }

  ghost predicate InSpan(l: Layout, a: nat, r: nat)
    requires a < |l.positions| && a < |l.ends| && r < |l.positions|
  {
    l.positions[a] <= l.positions[r] < l.ends[a]
  }

  /** `r`'s parent edge survives in the spanning forest: `r` lies inside its parent's span. */
  ghost predicate Retained(parents: seq<Word>, l: Layout, r: nat)
    requires |l.positions| == |l.ends| == |parents|
  {
    r < |parents| && HasEdge(parents, r, Parent(parents, r)) && InSpan(l, Parent(parents, r), r)
  }

  /** Order in which the two passes enter records that start a tree. */
  predicate HeadBefore(parents: seq<Word>, x: nat, y: nat) {
    (IsRoot(parents, x) && !IsRoot(parents, y)) || (IsRoot(parents, x) == IsRoot(parents, y) && x < y)
  }

  /** Spans are nested or disjoint. */
  ghost predicate Nested(n: nat, l: Layout)
    requires |l.positions| == |l.ends| == n
  {
    && (forall r :: 0 <= r < n ==> l.positions[r] < l.ends[r] <= n)
    && (forall a, b :: 0 <= a < n && 0 <= b < n && InSpan(l, a, b) ==> l.ends[b] <= l.ends[a])
  }

  /** Every record in a span, other than the first, is there because its parent is. */
  ghost predicate Linked(parents: seq<Word>, l: Layout)
    requires |l.positions| == |l.ends| == |parents|
  {
    forall a, r :: 0 <= a < |parents| && 0 <= r < |parents| && InSpan(l, a, r) && r != a
      ==> Retained(parents, l, r) && l.positions[a] <= l.positions[Parent(parents, r)]
  }

  /** Siblings, and the records that start a tree, appear in a fixed order. */
  ghost predicate Ordered(parents: seq<Word>, l: Layout)
    requires |l.positions| == |l.ends| == |parents|
  {
    && (forall x: nat, y: nat | Retained(parents, l, x) && Retained(parents, l, y) ::
          Parent(parents, x) == Parent(parents, y) && x < y ==> l.positions[x] < l.positions[y])
    && (forall x: nat, y: nat | x < |parents| && y < |parents| && HeadBefore(parents, x, y) ::
          !Retained(parents, l, x) && !Retained(parents, l, y) ==> l.positions[x] < l.positions[y])
  }

  /** Exactly which edges survive in the spanning forest. */
  ghost predicate KeepsSurvivors(parents: seq<Word>, l: Layout)
    requires |l.positions| == |l.ends| == |parents|
  {
    forall r :: 0 <= r < |parents| && !IsRoot(parents, r) ==> (Retained(parents, l, r) <==> Survives(parents, r))
  }

  /** What readers of the columns rely on: positions name records, and spans form a forest. */
  ghost predicate IsForest(parents: seq<Word>, l: Layout) {
    && Permutation(|parents|, l)
    && Nested(|parents|, l)
    && Linked(parents, l)
  }

  ghost predicate IsLayout(parents: seq<Word>, l: Layout) {
    && IsForest(parents, l)
    && Ordered(parents, l)
    && KeepsSurvivors(parents, l)
  }

  /** `a` is reached from `r` by following `hops` raw parent edges. */
  ghost predicate Climbs(parents: seq<Word>, r: nat, a: nat, hops: nat)
    decreases hops
  {
    r < |parents| &&
    if hops == 0 then a == r
    else HasEdge(parents, r, Parent(parents, r)) && Climbs(parents, Parent(parents, r), a, hops - 1)
  }

  ghost predicate Rooted(parents: seq<Word>, r: nat) {
    exists a: nat, hops: nat :: Climbs(parents, r, a, hops) && IsRoot(parents, a)
  }

  /** The parent chain of `r` ends at a root, or meets a smaller record index. */
  ghost predicate Survives(parents: seq<Word>, r: nat) {
    Rooted(parents, r) || exists a: nat, hops: nat :: hops > 0 && a < r && Climbs(parents, r, a, hops)
  }

  // ---- canonical parents ------------------------------------------------------------

  /** canonical_tree_parent: the parent edge kept by the spanning forest, from the spans alone. */
  function TreeParent(parents: seq<Word>, l: Layout, r: nat): nat
    requires r < |parents|
    requires |l.positions| == |l.ends| == |parents| || l.positions == [] || l.ends == []
  {
    var parent := UnpackParent(parents[r]);
    if parent == PARENT_NONE || parent >= |parents| || parent == r then PARENT_NONE
    else if l.positions == [] || l.ends == [] then parent
    else if l.positions[parent] <= l.positions[r] < l.ends[parent] then parent
    else PARENT_NONE
  }

  lemma TreeParentIsRetained(parents: seq<Word>, l: Layout, r: nat)
    requires IsForest(parents, l) && r < |parents| < PARENT_NONE
    ensures TreeParent(parents, l, r) != PARENT_NONE <==> Retained(parents, l, r)
    ensures Retained(parents, l, r) ==> TreeParent(parents, l, r) == Parent(parents, r)
    ensures Retained(parents, l, r) ==> l.positions[Parent(parents, r)] < l.positions[r]
  {
    if Retained(parents, l, r) {
      assert l.records[l.positions[r]] == r;
    }
  }

  /** `a` is `r` or an ancestor of `r` in the spanning forest. */
  ghost predicate Reaches(parents: seq<Word>, l: Layout, r: nat, a: nat)
    requires IsForest(parents, l) && r < |parents| < PARENT_NONE
    decreases l.positions[r]
  {
    TreeParentIsRetained(parents, l, r);
    r == a || (TreeParent(parents, l, r) != PARENT_NONE && Reaches(parents, l, TreeParent(parents, l, r), a))
  }

  /** Spans decide ancestry: the interval test agrees with the ancestor walk it replaces. */
  lemma {:induction false} TheoremSpanIsReachability(parents: seq<Word>, l: Layout, r: nat, a: nat)
    requires IsForest(parents, l) && r < |parents| < PARENT_NONE && a < |parents|
    ensures InSpan(l, a, r) <==> Reaches(parents, l, r, a)
    decreases l.positions[r]
  {
    TreeParentIsRetained(parents, l, r);
    if r != a && Retained(parents, l, r) {
      var p := Parent(parents, r);
      TheoremSpanIsReachability(parents, l, p, a);
      if InSpan(l, a, p) {
        assert l.ends[p] <= l.ends[a];
      }
    }
  }

  /** A tree edge is lost only where the raw parent chain never ends and never meets a smaller index. */
  lemma TheoremLostEdges(parents: seq<Word>, l: Layout, r: nat)
    requires IsLayout(parents, l) && r < |parents| < PARENT_NONE
    ensures TreeParent(parents, l, r) == PARENT_NONE <==> IsRoot(parents, r) || !Survives(parents, r)
  {
    TreeParentIsRetained(parents, l, r);
  }

  /** Record 0 hangs off the cycle 1, 2. */
  function TailOnCycle(): seq<Word> {
    [1, 2, 1]
  }

  lemma {:induction false} TailClimbs(a: nat, hops: nat, r: nat)
    requires r < 3 && Climbs(TailOnCycle(), r, a, hops)
    ensures a < 3 && (hops > 0 ==> a != 0) && (r > 0 ==> a != 0) && !IsRoot(TailOnCycle(), a)
    decreases hops
  {
    if hops > 0 {
      TailClimbs(a, hops - 1, Parent(TailOnCycle(), r));
    }
  }

  /** A record that is on no cycle can lose its edge: every layout enters 0 on its own, before 1 is placed. */
  lemma TailOffCycleIsCut(l: Layout)
    requires IsLayout(TailOnCycle(), l)
    ensures TreeParent(TailOnCycle(), l, 0) == PARENT_NONE
    ensures forall hops: nat :: hops > 0 ==> !Climbs(TailOnCycle(), 0, 0, hops)
  {
    var parents := TailOnCycle();
    forall a: nat, hops: nat | Climbs(parents, 0, a, hops) ensures !IsRoot(parents, a) && (hops > 0 ==> a != 0) {
      TailClimbs(a, hops, 0);
    }
    TheoremLostEdges(parents, l, 0);
  }

  // ---- the layout is determined by the parent column --------------------------------

  /** In a preorder, whatever lies between a parent and its child is below that parent. */
  lemma SpanBetween(parents: seq<Word>, l: Layout, x: nat, y: nat)
    requires Permutation(|parents|, l) && Linked(parents, l) && x < |parents| && y < |parents|
    requires Retained(parents, l, y)
    requires l.positions[Parent(parents, y)] < l.positions[x] < l.positions[y]
    ensures Retained(parents, l, x) && l.positions[Parent(parents, y)] <= l.positions[Parent(parents, x)]
  {
    assert InSpan(l, Parent(parents, y), x);
  }

  lemma SameEdges(parents: seq<Word>, l: Layout, m: Layout, r: nat)
    requires |l.positions| == |l.ends| == |m.positions| == |m.ends| == |parents| && r < |parents|
    requires KeepsSurvivors(parents, l) && KeepsSurvivors(parents, m)
    ensures Retained(parents, l, r) == Retained(parents, m, r)
  {
  }

  /** Two layouts that agree up to `k`: the parent of `m`'s next record is no deeper than that of `l`'s. */
  lemma NextFollows(parents: seq<Word>, l: Layout, m: Layout, k: nat)
    requires Permutation(|parents|, l) && Permutation(|parents|, m) && k < |parents|
    requires Linked(parents, l) && KeepsSurvivors(parents, l) && KeepsSurvivors(parents, m)
    requires forall i :: 0 <= i < k ==> l.records[i] == m.records[i]
    requires l.records[k] != m.records[k]
    ensures l.positions[m.records[k]] > k
    ensures Retained(parents, l, m.records[k]) == Retained(parents, m, m.records[k])
    ensures Retained(parents, m, m.records[k]) ==>
      && Retained(parents, l, l.records[k])
      && m.positions[Parent(parents, m.records[k])] <= l.positions[Parent(parents, l.records[k])] < k
      && l.records[m.positions[Parent(parents, m.records[k])]] == Parent(parents, m.records[k])
  {
    var x, y := l.records[k], m.records[k];
    var i := l.positions[y];
    assert l.records[i] == y;
    SameEdges(parents, l, m, y);
    if Retained(parents, m, y) {
      var v := Parent(parents, y);
      ParentEarlier(parents, m, y);
      assert l.positions[v] == m.positions[v] by { assert l.records[m.positions[v]] == v; }
      SpanBetween(parents, l, x, y);
      ParentEarlier(parents, l, x);
    }
  }

  lemma NextAgrees(parents: seq<Word>, l: Layout, m: Layout, k: nat)
    requires IsLayout(parents, l) && IsLayout(parents, m) && k < |parents|
    requires forall i :: 0 <= i < k ==> l.records[i] == m.records[i]
    ensures l.records[k] == m.records[k]
  {
    if l.records[k] != m.records[k] {
      NextFollows(parents, l, m, k);
      NextFollows(parents, m, l, k);
      OrderClash(parents, l, m, l.records[k], m.records[k]);
    }
  }

  lemma OrderClash(parents: seq<Word>, l: Layout, m: Layout, x: nat, y: nat)
    requires |l.positions| == |l.ends| == |m.positions| == |m.ends| == |parents|
    requires Ordered(parents, l) && Ordered(parents, m) && x < |parents| && y < |parents| && x != y
    requires Retained(parents, l, x) == Retained(parents, m, x) == Retained(parents, l, y) == Retained(parents, m, y)
    requires Retained(parents, l, x) ==> Parent(parents, x) == Parent(parents, y)
    requires l.positions[x] < l.positions[y]
    ensures m.positions[x] < m.positions[y]
  {
    if !Retained(parents, l, x) {
      assert HeadBefore(parents, x, y) || HeadBefore(parents, y, x);
    }
  }

  lemma {:induction false} PrefixAgrees(parents: seq<Word>, l: Layout, m: Layout, k: nat)
    requires IsLayout(parents, l) && IsLayout(parents, m) && k <= |parents|
    ensures k <= |l.records| && k <= |m.records|
    ensures forall i :: 0 <= i < k ==> l.records[i] == m.records[i]
  {
    hide KeepsSurvivors, Linked, Nested, Ordered;
    if k > 0 {
      PrefixAgrees(parents, l, m, k - 1);
      NextAgrees(parents, l, m, k - 1);
    }
  }

  lemma ParentEarlier(parents: seq<Word>, l: Layout, r: nat)
    requires Permutation(|parents|, l) && Retained(parents, l, r)
    ensures l.positions[Parent(parents, r)] < l.positions[r]
  {
    assert l.records[l.positions[r]] == r;
  }

  lemma EndsAgree(parents: seq<Word>, l: Layout, m: Layout, r: nat)
    requires Permutation(|parents|, l) && |m.ends| == |parents| && l.positions == m.positions
    requires Nested(|parents|, m) && Nested(|parents|, l) && Linked(parents, l)
    requires KeepsSurvivors(parents, l) && KeepsSurvivors(parents, m) && r < |parents|
    ensures l.ends[r] <= m.ends[r]
  {
    if m.ends[r] < l.ends[r] {
      // the record at m.ends[r] is in r's span in l only
      var x := l.records[m.ends[r]];
      assert InSpan(l, r, x);
      ParentEarlier(parents, l, x);
      SameEdges(parents, l, m, x);
      assert InSpan(m, r, Parent(parents, x));
    }
  }

  /** The layout is a function of the parent column, so any two builders of it agree. */
  lemma TheoremLayoutUnique(parents: seq<Word>, l: Layout, m: Layout)
    requires IsLayout(parents, l) && IsLayout(parents, m)
    ensures l == m
  {
    PrefixAgrees(parents, l, m, |parents|);
    forall r | 0 <= r < |parents| ensures l.positions[r] == m.positions[r] {
      assert l.records[l.positions[r]] == r == m.records[m.positions[r]];
    }
    assert l.positions == m.positions;
    forall r | 0 <= r < |parents| ensures l.ends[r] == m.ends[r] {
      EndsAgree(parents, l, m, r);
      EndsAgree(parents, m, l, r);
    }
  }
}
