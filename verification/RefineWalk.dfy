/** The ancestor walk that re-checks a cached path hit, and when it agrees with the search (view.rs). */
module RefineWalk {
  import opened Records
  import opened Ascii
  import opened DeltaState
  import opened PathDelta
  import opened PathNames
  import opened PathSeed
  import opened PathWorld
  import opened TopK
  import opened TreeOrder
  import R = RefinementCache

  const MAX_TERMS: nat := 16
  const WALK_HOPS: nat := 512

  // ---- the walk --------------------------------------------------------------------------

  /** The leaf name of a record in the combined space. */
  function NameAt(w: World, added: seq<DeltaRecord>, r: nat): Name {
    if r < Size(w) then w.names[r] else if r - Size(w) < |added| then added[r - Size(w)].name else []
  }

  /** The record above, if the walk finds one. */
  function NextUp(w: World, added: seq<DeltaRecord>, r: nat): Option<nat>
    requires IsWorld(w)
  {
    if r < Size(w) then
      var p := TreeParent(w.parents, w.l, r);
      if p == PARENT_NONE || p >= Size(w) then None else Some(p)
    else if r - Size(w) >= |added| then None
    else
      match added[r - Size(w)].parent
      case AtBase(p) => Some(p)
      case AtDelta(j) => Some(Size(w) + j)
      case Rootless => None
  }

  /** `(1u16 << n) - 1`. Sixteen terms shift the one back to bit 0, which leaves no bit expected. */
  function Expected(terms: seq<Name>): Mask {
    if |terms| == 16 then {} else FullMask(terms)
  }

  ghost predicate WalkFrom(w: World, added: seq<DeltaRecord>, terms: seq<Name>, r: nat, matched: Mask, hops: nat)
    requires IsWorld(w)
    decreases hops
  {
    hops > 0 &&
    var now := matched + MaskOf(terms, NameAt(w, added, r));
    (now == Expected(terms) ||
     (NextUp(w, added, r).Some? && WalkFrom(w, added, terms, NextUp(w, added, r).value, now, hops - 1)))
  }

  /** matches_path_terms_lower. */
  ghost predicate WalkMatches(w: World, added: seq<DeltaRecord>, terms: seq<Name>, r: nat)
    requires IsWorld(w)
  {
    0 < |terms| <= MAX_TERMS && WalkFrom(w, added, terms, r, {}, WALK_HOPS)
  }

  method MatchesPathTermsLower(w: World, added: seq<DeltaRecord>, terms: seq<Name>, record: nat) returns (matches: bool)
    requires IsWorld(w)
    ensures matches == WalkMatches(w, added, terms, record)
  {
    hide IsWorld, MaskOf, NameAt, NextUp, Expected;
    if |terms| == 0 || |terms| > MAX_TERMS {
      return false;
    }
    var expected := Expected(terms);
    var matched: Mask, current := {}, record;
    for hop := 0 to WALK_HOPS
      invariant WalkMatches(w, added, terms, record) <==> WalkFrom(w, added, terms, current, matched, WALK_HOPS - hop)
    {
      matched := matched + MaskOf(terms, NameAt(w, added, current));
      if matched == expected {
        return true;
      }
      var next := NextUp(w, added, current);
      if next.None? {
        return false;
      }
      current := next.value;
    }
    return false;
  }

  // ---- what the walk collects ------------------------------------------------------------

  /** The terms in any name among the first `hops` records upward. */
  ghost function Upward(w: World, added: seq<DeltaRecord>, terms: seq<Name>, r: nat, hops: nat): Mask
    requires IsWorld(w)
    decreases hops
  {
    if hops == 0 then {}
    else
      MaskOf(terms, NameAt(w, added, r)) +
      if NextUp(w, added, r).None? then {} else Upward(w, added, terms, NextUp(w, added, r).value, hops - 1)
  }

  lemma {:induction false} UpwardInFull(w: World, added: seq<DeltaRecord>, terms: seq<Name>, r: nat, hops: nat)
    requires IsWorld(w)
    ensures Upward(w, added, terms, r, hops) <= FullMask(terms)
    decreases hops
  {
    hide IsWorld, NextUp, NameAt, Contains;
    if hops > 0 && NextUp(w, added, r).Some? {
      UpwardInFull(w, added, terms, NextUp(w, added, r).value, hops - 1);
    }
  }

  /** Below sixteen terms, stopping early changes nothing: the walk asks whether all terms occur upward. */
  lemma {:induction false} WalkCollects(w: World, added: seq<DeltaRecord>, terms: seq<Name>, r: nat, matched: Mask, hops: nat)
    requires IsWorld(w) && |terms| < MAX_TERMS && matched <= FullMask(terms)
    ensures WalkFrom(w, added, terms, r, matched, hops) <==> hops > 0 && matched + Upward(w, added, terms, r, hops) == FullMask(terms)
    decreases hops
  {
    hide IsWorld, NextUp, NameAt, MaskOf, FullMask;
    if hops > 0 {
      UpwardInFull(w, added, terms, r, hops);
      var own := MaskOf(terms, NameAt(w, added, r));
      OwnInFull(terms, NameAt(w, added, r));
      if NextUp(w, added, r).Some? {
        var next := NextUp(w, added, r).value;
        UpwardInFull(w, added, terms, next, hops - 1);
        WalkCollects(w, added, terms, next, matched + own, hops - 1);
        assert matched + own + Upward(w, added, terms, next, hops - 1) == matched + Upward(w, added, terms, r, hops);
      } else {
        assert matched + own == matched + Upward(w, added, terms, r, hops);
      }
      if matched + own == FullMask(terms) {
        assert matched + Upward(w, added, terms, r, hops) == FullMask(terms);
      }
    }
  }

  lemma OwnInFull(terms: seq<Name>, name: Name)
    ensures MaskOf(terms, name) <= FullMask(terms)
  {
    hide Contains;
  }

  /** The names of the first `hops` records upward: tombstoned, files or directories. */
  ghost function Walked(w: World, added: seq<DeltaRecord>, r: nat, hops: nat): set<Name>
    requires IsWorld(w)
    decreases hops
  {
    if hops == 0 then {}
    else
      {NameAt(w, added, r)} +
      if NextUp(w, added, r).None? then {} else Walked(w, added, NextUp(w, added, r).value, hops - 1)
  }

  lemma {:induction false} UpwardIsFound(w: World, added: seq<DeltaRecord>, terms: seq<Name>, r: nat, hops: nat, t: nat)
    requires IsWorld(w) && t < |terms|
    ensures t in Upward(w, added, terms, r, hops) <==> Found(terms[t], Walked(w, added, r, hops))
    decreases hops
  {
    hide IsWorld, NextUp, NameAt, Contains, Found;
    FoundInParts(terms[t], {}, {});
    if hops > 0 {
      var name := NameAt(w, added, r);
      FoundInOne(terms[t], name);
      if NextUp(w, added, r).Some? {
        var next := NextUp(w, added, r).value;
        UpwardIsFound(w, added, terms, next, hops - 1, t);
        FoundInParts(terms[t], {name}, Walked(w, added, next, hops - 1));
      } else {
        FoundInParts(terms[t], {name}, {});
      }
    }
  }

  lemma FullByTerms(terms: seq<Name>, m: Mask)
    requires m <= FullMask(terms)
    ensures m == FullMask(terms) <==> forall t: nat :: t < |terms| ==> t in m
  {
    if forall t: nat :: t < |terms| ==> t in m {
      assert FullMask(terms) <= m;
    }
  }

  /** Below sixteen terms the walk accepts a record exactly if all terms are found among the names it meets. */
  lemma WalkIsFound(w: World, added: seq<DeltaRecord>, terms: seq<Name>, r: nat)
    requires IsWorld(w) && 0 < |terms| < MAX_TERMS
    ensures WalkMatches(w, added, terms, r) <==> AllFound(terms, Walked(w, added, r, WALK_HOPS))
  {
    hide IsWorld, Upward, WalkFrom, Found, Walked;
    WalkCollects(w, added, terms, r, {}, WALK_HOPS);
    var all := Upward(w, added, terms, r, WALK_HOPS);
    assert {} + all == all;
    UpwardInFull(w, added, terms, r, WALK_HOPS);
    FullByTerms(terms, all);
    forall t: nat | t < |terms| ensures t in all <==> Found(terms[t], Walked(w, added, r, WALK_HOPS)) {
      UpwardIsFound(w, added, terms, r, WALK_HOPS, t);
    }
  }

  // ---- what a search reports -------------------------------------------------------------

  /** What a path search reports, over the combined record space. */
  ghost predicate Reports(w: World, added: seq<DeltaRecord>, terms: seq<Name>, r: nat)
    requires IsWorld(w) && IsAdded(added, w)
  {
    if r < Size(w) then PathHit(w, terms, r) else WalkHit(added, w, terms, r - Size(w))
  }

  predicate LiveAt(w: World, added: seq<DeltaRecord>, r: nat) {
    if r < Size(w) then r !in w.tombs else r - Size(w) < |added| && added[r - Size(w)].live
  }

  /** The names a search counts for a record. */
  ghost function Searched(w: World, added: seq<DeltaRecord>, r: nat): set<Name>
    requires IsWorld(w) && IsAdded(added, w) && r < Size(w) + |added|
  {
    if r < Size(w) then Counted(w, r) else CountedAdded(added, w, r - Size(w))
  }

  lemma ReportsIsFound(w: World, added: seq<DeltaRecord>, terms: seq<Name>, r: nat)
    requires IsWorld(w) && IsAdded(added, w) && r < Size(w) + |added|
    ensures Reports(w, added, terms, r) <==> LiveAt(w, added, r) && AllFound(terms, Searched(w, added, r))
  {
    hide IsWorld, IsAdded, PathHit, WalkHit, AllFound, Counted, CountedAdded;
    if r < Size(w) {
      HitIsFound(w, terms, r);
    } else {
      WalkHitIsFound(added, w, terms, r - Size(w));
    }
  }

  // ---- exactly when walk and search agree ------------------------------------------------

  /**
   * Each name the walk meets within 512 records occurs in a name the search counts, and each
   * counted name in one the walk meets.
   */
  ghost predicate Agree(w: World, added: seq<DeltaRecord>, r: nat)
    requires IsWorld(w) && IsAdded(added, w) && r < Size(w) + |added|
  {
    SameAnswers(Walked(w, added, r, WALK_HOPS), Searched(w, added, r))
  }

  ghost predicate SameVerdict(w: World, added: seq<DeltaRecord>, terms: seq<Name>, r: nat)
    requires IsWorld(w) && IsAdded(added, w)
  {
    WalkMatches(w, added, terms, r) <==> Reports(w, added, terms, r)
  }

  /** Walk and search give one live record the same verdict on all lists of one to fifteen terms if and only if their names agree. */
  lemma TheoremWalkAgrees(w: World, added: seq<DeltaRecord>, r: nat)
    requires IsWorld(w) && IsAdded(added, w) && LiveAt(w, added, r) && r < Size(w) + |added|
    ensures Agree(w, added, r) <==> forall terms: seq<Name> :: 0 < |terms| < MAX_TERMS ==> SameVerdict(w, added, terms, r)
  {
    hide IsWorld, IsAdded, LiveAt, WalkMatches, Reports, Walked, Searched, SameAnswers, AllFound;
    var met, counted := Walked(w, added, r, WALK_HOPS), Searched(w, added, r);
    TheoremSameAnswers(met, counted, MAX_TERMS - 1);
    forall terms: seq<Name> | 0 < |terms| < MAX_TERMS ensures AnswerAlike(terms, met, counted) <==> SameVerdict(w, added, terms, r) {
      WalkIsFound(w, added, terms, r);
      ReportsIsFound(w, added, terms, r);
    }
  }

  // ---- clean chains ----------------------------------------------------------------------

  /** Every base ancestor is a live directory. */
  ghost predicate CleanAbove(w: World, r: nat)
    requires IsWorld(w) && r < Size(w)
    decreases w.l.positions[r]
  {
    ParentBelow(w, r);
    var p := Above(w, r);
    p == PARENT_NONE || (p !in w.tombs && IsDir(w, p) && CleanAbove(w, p))
  }

  ghost function Height(w: World, r: nat): nat
    requires IsWorld(w) && r < Size(w)
    decreases w.l.positions[r]
  {
    ParentBelow(w, r);
    if Above(w, r) == PARENT_NONE then 1 else 1 + Height(w, Above(w, r))
  }

  /** Every ancestor of an addition, added or not, is a live directory. */
  ghost predicate CleanAdded(w: World, added: seq<DeltaRecord>, parent: ParentRef, bound: nat)
    requires IsWorld(w) && IsAdded(added, w) && bound <= |added|
    requires (parent.AtDelta? ==> parent.index < bound) && (parent.AtBase? ==> parent.index < Size(w))
    decreases bound
  {
    match parent
    case Rootless => true
    case AtBase(p) => p !in w.tombs && IsDir(w, p) && CleanAbove(w, p)
    case AtDelta(i) => Holds(added, i) && CleanAdded(w, added, added[i].parent, i)
  }

  ghost function HeightAdded(w: World, added: seq<DeltaRecord>, parent: ParentRef, bound: nat): nat
    requires IsWorld(w) && IsAdded(added, w) && bound <= |added|
    requires (parent.AtDelta? ==> parent.index < bound) && (parent.AtBase? ==> parent.index < Size(w))
    decreases bound
  {
    match parent
    case Rootless => 0
    case AtBase(p) => Height(w, p)
    case AtDelta(i) => 1 + HeightAdded(w, added, added[i].parent, i)
  }

  /** On a clean chain the walk meets exactly the counted names. */
  lemma {:induction false} CleanBase(w: World, added: seq<DeltaRecord>, r: nat, hops: nat)
    requires IsWorld(w) && r < Size(w) && r !in w.tombs && CleanAbove(w, r) && Height(w, r) <= hops
    ensures Walked(w, added, r, hops) == Counted(w, r)
    decreases hops
  {
    hide Linked, Nested;
    ParentBelow(w, r);
    TreeParentIsRetained(w.parents, w.l, r);
    var p := Above(w, r);
    if p != PARENT_NONE {
      assert NextUp(w, added, r) == Some(p);
      CleanBase(w, added, p, hops - 1);
      assert Counted(w, p) == DirNames(w, p);
    } else {
      assert NextUp(w, added, r) == None;
    }
  }

  lemma {:induction false} CleanAbout(w: World, added: seq<DeltaRecord>, i: nat, hops: nat)
    requires IsWorld(w) && IsAdded(added, w) && i < |added| && CleanAdded(w, added, added[i].parent, i)
    requires 1 + HeightAdded(w, added, added[i].parent, i) <= hops
    ensures added[i].parent.AtBase? ==> added[i].parent.index < Size(w)
    ensures Walked(w, added, Size(w) + i, hops) == {added[i].name} + CountedAbove(added, w, added[i].parent, hops - 1)
    ensures forall more :: more >= hops - 1 ==>
      CountedAbove(added, w, added[i].parent, more) == CountedAbove(added, w, added[i].parent, hops - 1)
    decreases hops
  {
    hide IsWorld, CleanAbove, Height, Counted;
    match added[i].parent {
      case Rootless =>
      case AtBase(p) =>
        HeightPositive(w, p);
        CleanBase(w, added, p, hops - 1);
      case AtDelta(j) =>
        CleanAbout(w, added, j, hops - 1);
    }
  }

  lemma HeightPositive(w: World, r: nat)
    requires IsWorld(w) && r < Size(w)
    ensures Height(w, r) >= 1
  {
  }

  /** Every live record's chain is clean and short. */
  ghost predicate CleanView(w: World, added: seq<DeltaRecord>)
    requires IsWorld(w) && IsAdded(added, w)
  {
    && (forall r: nat :: r < Size(w) && r !in w.tombs ==> CleanAbove(w, r) && Height(w, r) <= WALK_HOPS)
    && (forall i: nat :: i < |added| && added[i].live ==> CleanAt(w, added, i))
  }

  ghost predicate CleanAt(w: World, added: seq<DeltaRecord>, i: nat)
    requires IsWorld(w) && IsAdded(added, w) && i < |added|
  {
    AddedInside(added, w, i);
    CleanAdded(w, added, added[i].parent, i) && 1 + HeightAdded(w, added, added[i].parent, i) <= WALK_HOPS
  }

  lemma SameSet(names: set<Name>)
    ensures SameAnswers(names, names)
  {
    forall n | n in names ensures Found(LowerAll(n), names) {
      FoundItself(n, names);
    }
  }

  lemma CleanAgrees(w: World, added: seq<DeltaRecord>, r: nat)
    requires IsWorld(w) && IsAdded(added, w) && CleanView(w, added) && LiveAt(w, added, r) && r < Size(w) + |added|
    ensures Agree(w, added, r)
  {
    hide IsWorld, IsAdded, CleanAbove, Height, CleanAdded, HeightAdded, Walked, Counted, CountedAbove, SameAnswers;
    SameSet(Searched(w, added, r));
    if r < Size(w) {
      CleanBase(w, added, r, WALK_HOPS);
    } else {
      var i := r - Size(w);
      assert CleanAt(w, added, i);
      AddedInside(added, w, i);
      CleanAbout(w, added, i, WALK_HOPS);
    }
  }

  // ---- real views ------------------------------------------------------------------------

  /** A view over a base index and a delta. */
  ghost predicate IsViewOf(v: R.View, w: World, added: seq<DeltaRecord>)
    requires IsWorld(w) && IsAdded(added, w)
  {
    && |v.names| == |v.live| == Size(w) + |added|
    && (forall r: nat :: r < |v.names| ==> v.names[r] == NameAt(w, added, r) && v.live[r] == LiveAt(w, added, r))
    && (forall terms, r: nat :: r < |v.names| ==> v.onPath(terms, r) == Reports(w, added, terms, r))
    && (forall terms, r: nat :: r < |v.names| ==> v.walk(terms, r) == WalkMatches(w, added, terms, r))
  }

  /** On every view, path hits only shrink when terms are extended or added. */
  lemma TheoremViewsNarrow(v: R.View, w: World, added: seq<DeltaRecord>)
    requires IsWorld(w) && IsAdded(added, w) && IsViewOf(v, w, added)
    ensures R.PathFaithful(v)
  {
    hide IsWorld, IsAdded, Reports, WalkMatches, LiveAt, NameAt, Searched, Found;
    forall older: seq<Name>, newer: seq<Name>, r: nat |
      R.Narrows(older, newer) && r < |v.names| && v.live[r] && v.onPath(newer, r)
      ensures v.onPath(older, r)
    {
      ReportsIsFound(w, added, newer, r);
      ReportsIsFound(w, added, older, r);
      forall t | 0 <= t < |older| ensures Found(older[t], Searched(w, added, r)) {
        assert Found(newer[t], Searched(w, added, r));
        FoundShorter(older[t], newer[t], Searched(w, added, r));
      }
    }
  }

  /** The same for the views of any delta the event machine can reach. */
  lemma TheoremReachableViewsNarrow(v: R.View, w: World, s: State, base: BaseStore)
    requires IsWorld(w) && IsStore(base) && DeltaState.Inv(s, base) && base.records == Size(w)
    ensures IsAdded(s.added, w) && (IsViewOf(v, w, s.added) ==> R.PathFaithful(v))
  {
    hide IsWorld, IsViewOf;
    ReachableIsAdded(s, base, w);
    hide IsAdded, DeltaState.Inv;
    if IsViewOf(v, w, s.added) {
      TheoremViewsNarrow(v, w, s.added);
    }
  }

  /** The re-check agrees with the search on a view if and only if the names agree for each of its live records. */
  lemma TheoremViewAgrees(v: R.View, w: World, added: seq<DeltaRecord>)
    requires IsWorld(w) && IsAdded(added, w) && IsViewOf(v, w, added)
    ensures R.WalkAgrees(v) <==> forall r: nat :: r < |v.names| && v.live[r] ==> Agree(w, added, r)
  {
    hide IsWorld, IsAdded, Reports, WalkMatches, LiveAt, NameAt, Agree;
    forall r: nat | r < |v.names| && v.live[r]
      ensures Agree(w, added, r) <==> forall terms: seq<Name> :: 0 < |terms| < MAX_TERMS ==> (v.walk(terms, r) <==> v.onPath(terms, r))
    {
      TheoremWalkAgrees(w, added, r);
      forall terms: seq<Name> ensures SameVerdict(w, added, terms, r) <==> (v.walk(terms, r) <==> v.onPath(terms, r)) {
      }
    }
  }

  /** Views of live directories less than 512 deep can be refined in memory. */
  lemma TheoremCleanViewsAgree(v: R.View, w: World, added: seq<DeltaRecord>)
    requires IsWorld(w) && IsAdded(added, w) && IsViewOf(v, w, added) && CleanView(w, added)
    ensures R.WalkAgrees(v)
  {
    hide IsWorld, IsAdded, Reports, WalkMatches, NameAt, LiveAt, Agree, CleanView;
    TheoremViewAgrees(v, w, added);
    forall r: nat | r < |v.names| && v.live[r] ensures Agree(w, added, r) {
      CleanAgrees(w, added, r);
    }
  }

  // ---- exactly when refined replies are fresh --------------------------------------------

  function PathQuery(terms: seq<Name>): R.Query {
    R.Query(R.PathTerms, terms)
  }

  /** A path query and one it was refined to, below sixteen terms. */
  predicate IsPair(older: seq<Name>, newer: seq<Name>) {
    R.IsRefinement(older, newer) && |newer| < MAX_TERMS
  }

  lemma LowerTwice(name: Name)
    ensures LowerAll(LowerAll(name)) == LowerAll(name)
  {
  }

  /** What search and re-check say about lowercase terms. */
  lemma LowerQuery(v: R.View, w: World, added: seq<DeltaRecord>, terms: seq<Name>, r: nat)
    requires IsWorld(w) && IsAdded(added, w) && IsViewOf(v, w, added) && r < |v.names| && v.live[r]
    requires 0 < |terms| < MAX_TERMS && R.Lowered(terms) == terms
    ensures R.Matches(v, PathQuery(terms), r) <==> AllFound(terms, Searched(w, added, r))
    ensures R.MatchesRefined(v, PathQuery(terms), R.Lowered(terms), r) <==> AllFound(terms, Walked(w, added, r, WALK_HOPS))
  {
    hide IsWorld, IsAdded, AllFound, Searched, Walked, LiveAt, NameAt, Reports, WalkMatches;
    ReportsIsFound(w, added, terms, r);
    WalkIsFound(w, added, terms, r);
  }

  lemma OwnNameCounts(w: World, added: seq<DeltaRecord>, r: nat)
    requires IsWorld(w) && IsAdded(added, w) && r < Size(w) + |added| && LiveAt(w, added, r)
    ensures NameAt(w, added, r) in Searched(w, added, r) && NameAt(w, added, r) in Walked(w, added, r, WALK_HOPS)
  {
    hide IsWorld, IsAdded, DirNames, CountedAbove, NextUp;
  }

  /** A name the walk meets and the search does not count: adding it as a term keeps a hit that is none. */
  lemma WalkedTooMuch(v: R.View, w: World, added: seq<DeltaRecord>, r: nat)
    requires IsWorld(w) && IsAdded(added, w) && IsViewOf(v, w, added) && r < |v.names| && v.live[r]
    requires !Within(Walked(w, added, r, WALK_HOPS), Searched(w, added, r))
    ensures exists older, newer :: IsPair(older, newer) && !R.RecheckAgrees(v, PathQuery(older), PathQuery(newer))
  {
    hide IsWorld, IsAdded, Found, Searched, Walked, LiveAt, NameAt, Reports, WalkMatches, R.Matches, R.MatchesRefined;
    var met, counted := Walked(w, added, r, WALK_HOPS), Searched(w, added, r);
    var n :| n in met && !Found(LowerAll(n), counted);
    var own := LowerAll(NameAt(w, added, r));
    var older, newer := [own], [own, LowerAll(n)];
    OwnNameCounts(w, added, r);
    FoundItself(NameAt(w, added, r), met);
    FoundItself(NameAt(w, added, r), counted);
    FoundItself(n, met);
    LowerTwice(NameAt(w, added, r));
    LowerTwice(n);
    assert R.Lowered(older) == older && R.Lowered(newer) == newer;
    LowerQuery(v, w, added, older, r);
    LowerQuery(v, w, added, newer, r);
    assert !Found(newer[1], counted);
    assert R.Rechecked(v, PathQuery(older), PathQuery(newer), r);
    assert StartsWithCi(own, own);
    assert IsPair(older, newer);
  }

  /** A name the search counts and the walk does not meet: asked for again, the hit is lost. */
  lemma WalkedTooLittle(v: R.View, w: World, added: seq<DeltaRecord>, r: nat)
    requires IsWorld(w) && IsAdded(added, w) && IsViewOf(v, w, added) && r < |v.names| && v.live[r]
    requires !Within(Searched(w, added, r), Walked(w, added, r, WALK_HOPS))
    ensures exists older, newer :: IsPair(older, newer) && !R.RecheckAgrees(v, PathQuery(older), PathQuery(newer))
  {
    hide IsWorld, IsAdded, Found, Searched, Walked, LiveAt, NameAt, Reports, WalkMatches, R.Matches, R.MatchesRefined;
    var met, counted := Walked(w, added, r, WALK_HOPS), Searched(w, added, r);
    var n :| n in counted && !Found(LowerAll(n), met);
    var terms := [LowerAll(n)];
    FoundItself(n, counted);
    LowerTwice(n);
    assert R.Lowered(terms) == terms;
    LowerQuery(v, w, added, terms, r);
    assert !Found(terms[0], met);
    assert !R.Rechecked(v, PathQuery(terms), PathQuery(terms), r);
    assert StartsWithCi(terms[0], terms[0]);
    assert IsPair(terms, terms);
  }

  /**
   * Filtering cached path hits gives the fresh matches for every refinement of fewer than
   * sixteen terms if and only if the names agree for each live record of the view.
   */
  lemma TheoremRefinedRepliesAreFresh(v: R.View, w: World, added: seq<DeltaRecord>)
    requires IsWorld(w) && IsAdded(added, w) && IsViewOf(v, w, added)
    ensures (forall r: nat :: r < |v.names| && v.live[r] ==> Agree(w, added, r)) <==>
      forall older, newer :: IsPair(older, newer) ==> R.RecheckAgrees(v, PathQuery(older), PathQuery(newer))
  {
    hide IsWorld, IsAdded, IsViewOf, Searched, Walked, Within, R.RecheckAgrees, R.PathFaithful, R.WalkAgrees, R.IsRefinement;
    TheoremViewsNarrow(v, w, added);
    TheoremViewAgrees(v, w, added);
    ViewLength(v, w, added);
    if forall r: nat :: r < |v.names| && v.live[r] ==> Agree(w, added, r) {
      forall older, newer | IsPair(older, newer) ensures R.RecheckAgrees(v, PathQuery(older), PathQuery(newer)) {
        R.TrustedRechecks(v, PathQuery(older), PathQuery(newer));
      }
    } else {
      var r: nat :| r < |v.names| && v.live[r] && !Agree(w, added, r);
      if !Within(Walked(w, added, r, WALK_HOPS), Searched(w, added, r)) {
        WalkedTooMuch(v, w, added, r);
      } else {
        WalkedTooLittle(v, w, added, r);
      }
    }
  }

  lemma ViewLength(v: R.View, w: World, added: seq<DeltaRecord>)
    requires IsWorld(w) && IsAdded(added, w) && IsViewOf(v, w, added)
    ensures |v.names| == |v.live| == Size(w) + |added|
  {
  }

  // ---- where they differ -----------------------------------------------------------------

  /** With exactly sixteen terms the walk accepts the records whose own name holds none of them, and no others. */
  lemma TheoremSixteenTerms(w: World, added: seq<DeltaRecord>, terms: seq<Name>, r: nat)
    requires IsWorld(w) && |terms| == 16
    ensures WalkMatches(w, added, terms, r) <==> MaskOf(terms, NameAt(w, added, r)) == {}
  {
    hide IsWorld, NextUp, MaskOf, NameAt;
    var own := MaskOf(terms, NameAt(w, added, r));
    assert {} + own == own;
    if own != {} {
      NeverEmptyAgain(w, added, terms, r, {}, WALK_HOPS);
    }
  }

  /** So a record whose name holds all sixteen, which a search reports, is dropped. */
  lemma SixteenTermsFail(w: World, added: seq<DeltaRecord>, terms: seq<Name>, r: nat)
    requires IsWorld(w) && |terms| == 16 && r < Size(w) && r !in w.tombs
    requires forall t :: 0 <= t < 16 ==> Contains(w.names[r], terms[t])
    ensures PathHit(w, terms, r) && !WalkMatches(w, added, terms, r)
  {
    hide Contains, IsWorld, DirOnPath, NextUp;
    TheoremSixteenTerms(w, added, terms, r);
    assert 0 in MaskOf(terms, w.names[r]);
  }

  lemma {:induction false} NeverEmptyAgain(w: World, added: seq<DeltaRecord>, terms: seq<Name>, r: nat, matched: Mask, hops: nat)
    requires IsWorld(w) && |terms| == 16 && matched + MaskOf(terms, NameAt(w, added, r)) != {}
    ensures !WalkFrom(w, added, terms, r, matched, hops)
    decreases hops
  {
    hide Contains, IsWorld, NextUp, NameAt, MaskOf;
    if hops > 0 && NextUp(w, added, r).Some? {
      var now := matched + MaskOf(terms, NameAt(w, added, r));
      var x :| x in now;
      var next := NextUp(w, added, r).value;
      assert x in now + MaskOf(terms, NameAt(w, added, next));
      NeverEmptyAgain(w, added, terms, next, now, hops - 1);
    }
  }

  // ---- a renamed directory ---------------------------------------------------------------

  /** A volume: the directory "a", in it the directory "d", and in that the file "f". */
  function SmallStore(): BaseStore {
    BaseStore(3, Some(map[1 := 0, 2 := 1, 3 := 2]), [Meta(true, 0, 0, true), Meta(true, 0, 0, true), Meta(false, 0, 0, true)])
  }

  function SmallParents(): seq<Word> {
    [PackParent(PARENT_NONE, true), PackParent(0, true), PackParent(1, false)]
  }

  function SmallLayout(): Layout {
    Layout([0, 1, 2], [0, 1, 2], [3, 3, 3])
  }

  function SmallWorld(tombs: set<nat>): World {
    World([[97], [100], [102]], SmallParents(), SmallLayout(), tombs)
  }

  /** The journal reports that "d" is now called "e". */
  function AfterRename(): State {
    Apply(Start(), SmallStore(), Renamed(2, 1, [101])).0
  }

  lemma SmallEdges()
    ensures var parents := SmallParents();
            |parents| == 3 && Parent(parents, 0) == PARENT_NONE && Parent(parents, 1) == 0 && Parent(parents, 2) == 1
  {
  }

  lemma SmallIsForest()
    ensures IsForest(SmallParents(), SmallLayout())
  {
    hide *;
    SmallEdges();
    SmallIsPermutation();
    SmallIsNested();
    SmallIsLinked();
    ForestOf(SmallParents(), SmallLayout());
  }

  lemma ForestOf(parents: seq<Word>, l: Layout)
    requires |parents| == 3 && Permutation(3, l) && Nested(3, l) && Linked(parents, l)
    ensures IsForest(parents, l)
  {
    hide Permutation, Nested, Linked;
  }

  lemma SmallIsPermutation()
    ensures Permutation(3, SmallLayout())
  {
  }

  lemma SmallIsNested()
    ensures |SmallLayout().positions| == |SmallLayout().ends| == 3 && Nested(3, SmallLayout())
  {
  }

  lemma SmallIsLinked()
    ensures |SmallParents()| == |SmallLayout().positions| == |SmallLayout().ends| && Linked(SmallParents(), SmallLayout())
  {
    SmallEdges();
    hide SmallParents;
    var parents, l := SmallParents(), SmallLayout();
    assert Retained(parents, l, 1) && Retained(parents, l, 2);
    hide Retained;
    forall a, r | 0 <= a < |parents| && 0 <= r < |parents| && InSpan(l, a, r) && r != a
      ensures Retained(parents, l, r) && l.positions[a] <= l.positions[Parent(parents, r)]
    {
      assert r == 1 || r == 2;
    }
  }

  lemma SmallIsWorld(tombs: set<nat>)
    ensures IsWorld(SmallWorld(tombs))
    ensures Above(SmallWorld(tombs), 2) == 1 && Above(SmallWorld(tombs), 1) == 0 && Above(SmallWorld(tombs), 0) == PARENT_NONE
  {
    SmallIsForest();
    hide IsForest;
    SmallEdges();
    hide SmallParents;
  }

  lemma SmallIsStore()
    ensures IsStore(SmallStore())
  {
  }

  lemma RenameTombstones()
    ensures AfterRename().tombs == {1}
    ensures AfterRename().added == [DeltaRecord([101], AtBase(0), Meta(true, 0, 0, true), true)]
    ensures DeltaState.Inv(AfterRename(), SmallStore())
  {
    SmallIsStore();
    StartsInv(SmallStore());
    TheoremApplyKeepsInv(Start(), SmallStore(), Renamed(2, 1, [101]));
  }

  lemma OneLetter(a: Byte, b: Byte)
    ensures Contains([a], [b]) <==> Lower(a) == b
  {
    var hay, needle := [a], [b];
    if Lower(a) == b {
      assert MatchesAt(hay, needle, 0);
    }
    if Contains(hay, needle) {
      var i :| 0 <= i <= |hay| && MatchesAt(hay, needle, i);
      assert Lower(hay[i + 0]) == needle[0];
    }
  }

  /** After the rename no live record has "d" among its counted names. */
  lemma NothingCountsD(r: nat)
    requires r < 4 && r != 1
    requires IsWorld(SmallWorld({1})) && IsAdded(AfterRename().added, SmallWorld({1}))
    ensures !Found([100], Searched(SmallWorld({1}), AfterRename().added, r))
  {
    var w, added := SmallWorld({1}), AfterRename().added;
    SmallIsWorld({1});
    RenameTombstones();
    forall n | n in Searched(w, added, r) ensures n == [97] || n == [101] || n == [102] {
      CountedInSmall(w);
    }
    OneLetter(97, 100);
    OneLetter(101, 100);
    OneLetter(102, 100);
    hide Contains;
  }

  lemma CountedInSmall(w: World)
    requires w == SmallWorld({1}) && IsWorld(w)
    ensures forall n :: n in Counted(w, 0) ==> n == [97]
    ensures forall n :: n in Counted(w, 2) ==> n == [97] || n == [102]
  {
    SmallIsWorld({1});
    assert DirNames(w, 0) == {[97]};
    assert DirNames(w, 1) == {[97]};
    assert DirNames(w, 2) == {[97]};
  }

  /** But the walk from the file meets it. */
  lemma FileMeetsD()
    requires IsWorld(SmallWorld({1}))
    ensures var met := Walked(SmallWorld({1}), AfterRename().added, 2, WALK_HOPS);
            Found([102], met) && Found([100], met)
  {
    var w, added := SmallWorld({1}), AfterRename().added;
    SmallIsWorld({1});
    assert NextUp(w, added, 2) == Some(1);
    assert [100] in Walked(w, added, 1, WALK_HOPS - 1);
    OneLetter(102, 102);
    OneLetter(100, 100);
  }

  /**
   * One rename is enough. The file still hangs below the tombstoned "d", which the re-check
   * counts and the search does not: typing "f" and then "f d" keeps the file, asking for
   * "f d" afresh finds nothing.
   */
  lemma RenamedDirectoryStaysInRefinedReplies(v: R.View, order: Order, hits: seq<R.Hit>, out: seq<R.Hit>)
    requires IsWorld(SmallWorld(AfterRename().tombs)) && IsAdded(AfterRename().added, SmallWorld(AfterRename().tombs))
    requires IsViewOf(v, SmallWorld(AfterRename().tombs), AfterRename().added)
    requires R.AreHits(hits, v) && R.PlacedOf(hits, 0) == R.AllIn(v, 0, PathQuery([[102]]), order)
    requires R.IsFiltered(out, hits, v, PathQuery([[102], [100]]), order)
    ensures IsPair([[102]], [[102], [100]])
    ensures R.AllIn(v, 0, PathQuery([[102], [100]]), order) == {}
    ensures exists h :: h in out && h.record == 2
  {
    RenameTombstones();
    LetterLowered();
    hide SmallWorld, AfterRename, IsViewOf, R.AreHits, R.PlacedOf, R.AllIn, R.IsFiltered, R.Lowered;
    FreshFindsNothing(v, order);
    RefinedKeepsFile(v, order, hits, out);
  }

  lemma FreshFindsNothing(v: R.View, order: Order)
    requires IsWorld(SmallWorld({1})) && IsAdded(AfterRename().added, SmallWorld({1}))
    requires IsViewOf(v, SmallWorld({1}), AfterRename().added)
    ensures R.AllIn(v, 0, PathQuery([[102], [100]]), order) == {}
  {
    var w, added := SmallWorld({1}), AfterRename().added;
    var fd: seq<Name> := [[102], [100]];
    hide IsWorld, IsAdded, Found, Searched, Walked, NameAt, Reports, WalkMatches, SmallWorld, AfterRename, LiveAt;
    hide R.RankBits, R.MatchesRefined, R.Matches, R.Lowered;
    SmallSizes();
    LetterLowered();
    forall r: nat | r < |v.names| ensures !R.Matches(v, PathQuery(fd), r) {
      R.MatchIsLive(v, PathQuery(fd), r);
      if v.live[r] {
        LowerQuery(v, w, added, fd, r);
        NothingCountsD(r);
        assert !Found(fd[1], Searched(w, added, r));
      }
    }
  }

  lemma RefinedKeepsFile(v: R.View, order: Order, hits: seq<R.Hit>, out: seq<R.Hit>)
    requires IsWorld(SmallWorld({1})) && IsAdded(AfterRename().added, SmallWorld({1}))
    requires IsViewOf(v, SmallWorld({1}), AfterRename().added)
    requires R.AreHits(hits, v) && R.PlacedOf(hits, 0) == R.AllIn(v, 0, PathQuery([[102]]), order)
    requires R.IsFiltered(out, hits, v, PathQuery([[102], [100]]), order)
    ensures exists h :: h in out && h.record == 2
  {
    var w, added := SmallWorld({1}), AfterRename().added;
    var f, fd: seq<Name> := [[102]], [[102], [100]];
    hide IsWorld, IsAdded, Found, Searched, Walked, NameAt, Reports, WalkMatches, SmallWorld, AfterRename, LiveAt;
    hide R.IsFiltered, R.AreHits, R.AllIn, R.RankBits, R.MatchesRefined, R.Matches, R.Lowered;
    SmallSizes();
    LetterLowered();
    FileMeetsD();
    FoundF(w, added);
    ViewLength(v, w, added);
    LowerQuery(v, w, added, f, 2);
    LowerQuery(v, w, added, fd, 2);
    R.FilterFinds(R.VolumeCandidates(0, hits), 0, PathQuery(f), PathQuery(fd), order, v, out, 2);
  }

  lemma SmallSizes()
    ensures Size(SmallWorld({1})) == 3 && LiveAt(SmallWorld({1}), AfterRename().added, 2) && !LiveAt(SmallWorld({1}), AfterRename().added, 1)
    ensures |AfterRename().added| == 1
  {
    RenameTombstones();
  }

  lemma LetterLowered()
    ensures R.Lowered([[102]]) == [[102]] && R.Lowered([[102], [100]]) == [[102], [100]]
  {
    var f, d: Name := [102], [100];
    assert LowerAll(f) == f && LowerAll(d) == d;
  }

  lemma FoundF(w: World, added: seq<DeltaRecord>)
    requires w == SmallWorld({1}) && IsWorld(w) && IsAdded(added, w)
    ensures Found([102], Searched(w, added, 2))
  {
    OneLetter(102, 102);
    assert w.names[2] in Searched(w, added, 2);
  }
}
