/** What a path-term query denotes, over a base index and its tombstones. */
module PathWorld {
  import opened Records
  import opened Ascii
  import opened TreeOrder

  /** Names, raw parents, their depth-first layout, and the tombstoned records. */
  datatype World = World(names: seq<Name>, parents: seq<Word>, l: Layout, tombs: set<nat>)

  ghost predicate IsWorld(w: World) {
    |w.names| == |w.parents| < PARENT_NONE && IsForest(w.parents, w.l)
  }

  function Size(w: World): nat {
    |w.names|
  }

  predicate IsDir(w: World, r: nat) {
    r < |w.parents| && WordIsDir(w.parents[r])
  }

  /** A live record whose own name contains the term. */
  predicate Owns(w: World, term: Name, a: nat) {
    a < Size(w) && a !in w.tombs && Contains(w.names[a], term)
  }

  // ---- the reference definition: walking up the tree -----------------------------------

  /** The term occurs in the name of a live directory among `r` and its ancestors by `tree_parent`. */
  ghost predicate DirOnPath(w: World, term: Name, r: nat)
    requires IsWorld(w) && r < Size(w)
    decreases w.l.positions[r]
  {
    TreeParentIsRetained(w.parents, w.l, r);
    || (IsDir(w, r) && Owns(w, term, r))
    || (TreeParent(w.parents, w.l, r) != PARENT_NONE && DirOnPath(w, term, TreeParent(w.parents, w.l, r)))
  }

  /** The term occurs in the record's own name or in that of a live directory above it. */
  ghost predicate OnPath(w: World, term: Name, r: nat)
    requires IsWorld(w) && r < Size(w)
  {
    Owns(w, term, r) || DirOnPath(w, term, r)
  }

  /** A live base record on whose path every term occurs. */
  ghost predicate PathHit(w: World, terms: seq<Name>, r: nat)
    requires IsWorld(w)
  {
    r < Size(w) && r !in w.tombs && forall t :: 0 <= t < |terms| ==> OnPath(w, terms[t], r)
  }

  // ---- the same by intervals -----------------------------------------------------------

  /** The positions a matching record contributes: a directory's whole span, a file's own position. */
  ghost predicate SpanOf(w: World, a: nat, p: nat)
    requires IsWorld(w) && a < Size(w)
  {
    if IsDir(w, a) then w.l.positions[a] <= p < w.l.ends[a] else p == w.l.positions[a]
  }

  /** Some matching record below index `upto` contributes position `p`. */
  ghost predicate CoveredBy(w: World, term: Name, upto: nat, p: nat)
    requires IsWorld(w)
  {
    exists a: nat | a < upto && a < Size(w) :: Owns(w, term, a) && SpanOf(w, a, p)
  }

  ghost predicate TermAt(w: World, term: Name, p: nat)
    requires IsWorld(w)
  {
    CoveredBy(w, term, Size(w), p)
  }

  lemma {:induction false} DirReached(w: World, term: Name, r: nat)
    requires IsWorld(w) && r < Size(w)
    ensures DirOnPath(w, term, r) <==>
      exists a: nat | a < Size(w) :: IsDir(w, a) && Owns(w, term, a) && Reaches(w.parents, w.l, r, a)
    decreases w.l.positions[r]
  {
    hide Linked, Nested;
    TreeParentIsRetained(w.parents, w.l, r);
    var p := TreeParent(w.parents, w.l, r);
    if p != PARENT_NONE {
      DirReached(w, term, p);
    }
    if a: nat :| a < Size(w) && IsDir(w, a) && Owns(w, term, a) && Reaches(w.parents, w.l, r, a) {
      assert a == r || (p != PARENT_NONE && Reaches(w.parents, w.l, p, a));
    }
    if DirOnPath(w, term, r) && !(IsDir(w, r) && Owns(w, term, r)) {
      var a: nat :| a < Size(w) && IsDir(w, a) && Owns(w, term, a) && Reaches(w.parents, w.l, p, a);
      assert Reaches(w.parents, w.l, r, a);
    }
  }

  /** Interval coverage is exactly the walk up the tree. */
  lemma TheoremSpansDenotePaths(w: World, term: Name, r: nat)
    requires IsWorld(w) && r < Size(w)
    ensures w.l.positions[r] < Size(w) && w.l.records[w.l.positions[r]] == r
    ensures TermAt(w, term, w.l.positions[r]) <==> OnPath(w, term, r)
  {
    var p := w.l.positions[r];
    DirReached(w, term, r);
    forall a: nat | a < Size(w) ensures SpanOf(w, a, p) <==> (if IsDir(w, a) then Reaches(w.parents, w.l, r, a) else a == r) {
      TheoremSpanIsReachability(w.parents, w.l, r, a);
      assert w.l.records[w.l.positions[a]] == a;
    }
    hide SpanOf, Reaches, IsForest, DirOnPath;
    if Owns(w, term, r) && !IsDir(w, r) {
      assert SpanOf(w, r, p);
    }
    if a: nat :| a < Size(w) && IsDir(w, a) && Owns(w, term, a) && Reaches(w.parents, w.l, r, a) {
      assert SpanOf(w, a, p);
    }
    if Owns(w, term, r) && IsDir(w, r) {
      assert Reaches(w.parents, w.l, r, r) by { SelfReached(w, r); }
      assert SpanOf(w, r, p);
    }
  }

  lemma SelfReached(w: World, r: nat)
    requires IsWorld(w) && r < Size(w)
    ensures Reaches(w.parents, w.l, r, r)
  {
  }

  /** Coverage never leaves the index. */
  lemma CoverageInside(w: World, term: Name, p: nat)
    requires IsWorld(w) && TermAt(w, term, p)
    ensures p < Size(w)
  {
  }

  lemma CoveredStep(w: World, term: Name, k: nat, p: nat)
    requires IsWorld(w) && k < Size(w)
    ensures CoveredBy(w, term, k + 1, p) <==> CoveredBy(w, term, k, p) || (Owns(w, term, k) && SpanOf(w, k, p))
  {
  }
}
