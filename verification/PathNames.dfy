/** Which names a path search counts, and when two ways of counting give the same answers (view/path_search.rs, view.rs). */
module PathNames {
  import opened Records
  import opened Ascii
  import opened DeltaState
  import opened PathDelta
  import opened PathRank
  import opened PathSeed
  import opened PathWorld
  import opened TopK
  import opened TreeOrder

  // ---- answers of a set of names -----------------------------------------------------------

  ghost predicate Found(term: Name, names: set<Name>) {
    exists n :: n in names && Contains(n, term)
  }

  ghost predicate AllFound(terms: seq<Name>, names: set<Name>) {
    forall t :: 0 <= t < |terms| ==> Found(terms[t], names)
  }

  /** Every name of `a` occurs, folded, inside a name of `b`. */
  ghost predicate Within(a: set<Name>, b: set<Name>) {
    forall n :: n in a ==> Found(LowerAll(n), b)
  }

  ghost predicate SameAnswers(a: set<Name>, b: set<Name>) {
    Within(a, b) && Within(b, a)
  }

  /** Occurring in a name that itself occurs, folded, in another. */
  lemma ContainsThrough(inner: Name, outer: Name, term: Name)
    requires Contains(inner, term) && Contains(outer, LowerAll(inner))
    ensures Contains(outer, term)
  {
    var i :| 0 <= i <= |inner| && MatchesAt(inner, term, i);
    var j :| 0 <= j <= |outer| && MatchesAt(outer, LowerAll(inner), j);
    forall k | 0 <= k < |term| ensures Lower(outer[j + i + k]) == term[k] {
      assert Lower(outer[j + (i + k)]) == LowerAll(inner)[i + k] == Lower(inner[i + k]);
    }
    assert MatchesAt(outer, term, j + i);
  }

  lemma ContainsItself(name: Name)
    ensures Contains(name, LowerAll(name))
  {
    assert MatchesAt(name, LowerAll(name), 0);
  }

  lemma FoundThrough(term: Name, a: set<Name>, b: set<Name>)
    requires Within(a, b) && Found(term, a)
    ensures Found(term, b)
  {
    hide Contains;
    var n :| n in a && Contains(n, term);
    assert Found(LowerAll(n), b);
    var m :| m in b && Contains(m, LowerAll(n));
    ContainsThrough(n, m, term);
  }

  lemma FoundItself(name: Name, names: set<Name>)
    requires name in names
    ensures Found(LowerAll(name), names)
  {
    ContainsItself(name);
  }

  /** The two sets answer a list of terms alike. */
  ghost predicate AnswerAlike(terms: seq<Name>, a: set<Name>, b: set<Name>) {
    AllFound(terms, a) <==> AllFound(terms, b)
  }

  /**
   * Two sets of names answer all lists of up to `most` terms alike if and only if each name
   * of either occurs inside a name of the other. One term is enough to tell them apart.
   */
  lemma TheoremSameAnswers(a: set<Name>, b: set<Name>, most: nat)
    requires most > 0
    ensures SameAnswers(a, b) <==> forall terms: seq<Name> :: 0 < |terms| <= most ==> AnswerAlike(terms, a, b)
  {
    hide Found;
    if SameAnswers(a, b) {
      forall terms: seq<Name> ensures AnswerAlike(terms, a, b) {
        forall t | 0 <= t < |terms| ensures Found(terms[t], a) <==> Found(terms[t], b) {
          if Found(terms[t], a) {
            FoundThrough(terms[t], a, b);
          }
          if Found(terms[t], b) {
            FoundThrough(terms[t], b, a);
          }
        }
      }
    } else if !Within(a, b) {
      TellsApart(a, b);
    } else {
      TellsApart(b, a);
    }
  }

  /** The name that occurs in no name of `b` is itself the term that tells the sets apart. */
  lemma TellsApart(a: set<Name>, b: set<Name>)
    requires !Within(a, b)
    ensures exists term :: AllFound([term], a) && !AllFound([term], b)
  {
    hide Found;
    var n :| n in a && !Found(LowerAll(n), b);
    FoundItself(n, a);
    assert !Found([LowerAll(n)][0], b);
    assert AllFound([LowerAll(n)], a) && !AllFound([LowerAll(n)], b);
  }

  /** A term that is a prefix of another is found wherever the other is. */
  lemma FoundShorter(broad: Name, narrow: Name, names: set<Name>)
    requires |broad| <= |narrow| && narrow[..|broad|] == broad && Found(narrow, names)
    ensures Found(broad, names)
  {
    hide Contains;
    var n :| n in names && Contains(n, narrow);
    assert forall k :: 0 <= k < |broad| ==> broad[k] == narrow[..|broad|][k] == narrow[k];
    ContainsNarrows(n, broad, narrow);
  }

  // ---- the names a search counts -------------------------------------------------------------

  /** The names of the live directories among `r` and its ancestors. */
  ghost function DirNames(w: World, r: nat): set<Name>
    requires IsWorld(w) && r < Size(w)
    decreases w.l.positions[r]
  {
    TreeParentIsRetained(w.parents, w.l, r);
    (if IsDir(w, r) && r !in w.tombs then {w.names[r]} else {}) +
    (if TreeParent(w.parents, w.l, r) == PARENT_NONE then {} else DirNames(w, TreeParent(w.parents, w.l, r)))
  }

  /** The names counted for a base record. */
  ghost function Counted(w: World, r: nat): set<Name>
    requires IsWorld(w) && r < Size(w)
  {
    (if r !in w.tombs then {w.names[r]} else {}) + DirNames(w, r)
  }

  lemma FoundInParts(term: Name, a: set<Name>, b: set<Name>)
    ensures Found(term, a + b) <==> Found(term, a) || Found(term, b)
    ensures !Found(term, {})
  {
    hide Contains;
  }

  lemma FoundInOne(term: Name, name: Name)
    ensures Found(term, {name}) <==> Contains(name, term)
  {
    hide Contains;
  }

  lemma {:induction false} DirIsFound(w: World, term: Name, r: nat)
    requires IsWorld(w) && r < Size(w)
    ensures DirOnPath(w, term, r) <==> Found(term, DirNames(w, r))
    decreases w.l.positions[r]
  {
    hide Contains, Found, Linked, Nested;
    TreeParentIsRetained(w.parents, w.l, r);
    var own := if IsDir(w, r) && r !in w.tombs then {w.names[r]} else {};
    FoundInOne(term, w.names[r]);
    if TreeParent(w.parents, w.l, r) != PARENT_NONE {
      var p := TreeParent(w.parents, w.l, r);
      DirIsFound(w, term, p);
      FoundInParts(term, own, DirNames(w, p));
    } else {
      FoundInParts(term, own, {});
      assert own + {} == own;
    }
  }

  /** A term is on a record's path exactly if it is found among the counted names. */
  lemma PathIsFound(w: World, term: Name, r: nat)
    requires IsWorld(w) && r < Size(w)
    ensures OnPath(w, term, r) <==> Found(term, Counted(w, r))
  {
    hide Contains, Found, IsWorld, DirOnPath, DirNames;
    DirIsFound(w, term, r);
    FoundInOne(term, w.names[r]);
    FoundInParts(term, if r !in w.tombs then {w.names[r]} else {}, DirNames(w, r));
  }

  lemma HitIsFound(w: World, terms: seq<Name>, r: nat)
    requires IsWorld(w) && r < Size(w)
    ensures PathHit(w, terms, r) <==> r !in w.tombs && AllFound(terms, Counted(w, r))
  {
    hide Found, IsWorld, OnPath, Counted;
    forall t | 0 <= t < |terms| ensures OnPath(w, terms[t], r) <==> Found(terms[t], Counted(w, r)) {
      PathIsFound(w, terms[t], r);
    }
  }

  /** The names counted above an addition within `hops` references. */
  ghost function CountedAbove(added: seq<DeltaRecord>, w: World, parent: ParentRef, hops: nat): set<Name>
    requires IsWorld(w) && IsAdded(added, w)
    requires parent.AtBase? ==> parent.index < Size(w)
    decreases hops
  {
    if hops == 0 then {}
    else
      match parent
      case Rootless => {}
      case AtBase(p) => Counted(w, p)
      case AtDelta(i) =>
        if Holds(added, i) then {added[i].name} + CountedAbove(added, w, added[i].parent, hops - 1) else {}
  }

  /** The names counted for an addition by the walk of 512 references. */
  ghost function CountedAdded(added: seq<DeltaRecord>, w: World, i: nat): set<Name>
    requires IsWorld(w) && IsAdded(added, w) && i < |added|
  {
    AddedAt(added, w, i);
    {added[i].name} + CountedAbove(added, w, added[i].parent, MAX_HOPS)
  }

  /** The names counted above an addition, however far. */
  ghost function NamesAbove(added: seq<DeltaRecord>, w: World, parent: ParentRef, bound: nat): set<Name>
    requires IsWorld(w) && IsAdded(added, w) && bound <= |added|
    requires parent.AtDelta? ==> parent.index < bound
    requires parent.AtBase? ==> parent.index < Size(w)
    decreases bound
  {
    match parent
    case Rootless => {}
    case AtBase(p) => Counted(w, p)
    case AtDelta(i) => if Holds(added, i) then {added[i].name} + NamesAbove(added, w, added[i].parent, i) else {}
  }

  ghost function NamesOf(added: seq<DeltaRecord>, w: World, i: nat): set<Name>
    requires IsWorld(w) && IsAdded(added, w) && i < |added|
  {
    {added[i].name} + NamesAbove(added, w, added[i].parent, i)
  }

  lemma {:induction false} MaskIsFound(added: seq<DeltaRecord>, w: World, terms: seq<Name>, parent: ParentRef, hops: nat, t: nat)
    requires IsWorld(w) && IsAdded(added, w) && t < |terms|
    requires parent.AtBase? ==> parent.index < Size(w)
    ensures t in MaskAbove(added, w, terms, parent, hops) <==> Found(terms[t], CountedAbove(added, w, parent, hops))
    decreases hops
  {
    hide Contains, Found, IsWorld, OnPath, Counted;
    FoundInParts(terms[t], {}, {});
    if hops > 0 {
      match parent {
        case Rootless =>
        case AtBase(p) =>
          PathIsFound(w, terms[t], p);
        case AtDelta(i) =>
          if Holds(added, i) {
            MaskIsFound(added, w, terms, added[i].parent, hops - 1, t);
            FoundInOne(terms[t], added[i].name);
            FoundInParts(terms[t], {added[i].name}, CountedAbove(added, w, added[i].parent, hops - 1));
          }
      }
    }
  }

  lemma {:induction false} AboveIsFound(added: seq<DeltaRecord>, w: World, term: Name, parent: ParentRef, bound: nat)
    requires IsWorld(w) && IsAdded(added, w) && bound <= |added|
    requires parent.AtDelta? ==> parent.index < bound
    requires parent.AtBase? ==> parent.index < Size(w)
    ensures TermAbove(added, w, term, parent, bound) <==> Found(term, NamesAbove(added, w, parent, bound))
    decreases bound
  {
    hide Contains, Found, IsWorld, OnPath, Counted;
    FoundInParts(term, {}, {});
    match parent {
      case Rootless =>
      case AtBase(p) =>
        PathIsFound(w, term, p);
      case AtDelta(i) =>
        if Holds(added, i) {
          AboveIsFound(added, w, term, added[i].parent, i);
          FoundInOne(term, added[i].name);
          FoundInParts(term, {added[i].name}, NamesAbove(added, w, added[i].parent, i));
        }
    }
  }

  /** The walk of a search accepts a live addition exactly if it finds all terms among the names it counts. */
  lemma WalkHitIsFound(added: seq<DeltaRecord>, w: World, terms: seq<Name>, i: nat)
    requires IsWorld(w) && IsAdded(added, w) && i < |added|
    ensures WalkHit(added, w, terms, i) <==> added[i].live && AllFound(terms, CountedAdded(added, w, i))
  {
    hide Contains, Found, IsWorld, IsAdded, MaskAbove, CountedAbove;
    AddedAt(added, w, i);
    var above, names := MaskAbove(added, w, terms, added[i].parent, MAX_HOPS), CountedAbove(added, w, added[i].parent, MAX_HOPS);
    var all := MaskOf(terms, added[i].name) + above;
    AboveInFull(added, w, terms, added[i].parent, MAX_HOPS);
    forall t: nat | t < |terms| ensures t in all <==> Found(terms[t], CountedAdded(added, w, i)) {
      MaskIsFound(added, w, terms, added[i].parent, MAX_HOPS, t);
      FoundInOne(terms[t], added[i].name);
      FoundInParts(terms[t], {added[i].name}, names);
    }
    if forall t: nat :: t < |terms| ==> t in all {
      assert FullMask(terms) <= all;
    } else {
      var t: nat :| t < |terms| && t !in all;
      assert t in FullMask(terms);
    }
  }

  lemma AddedHitIsFound(added: seq<DeltaRecord>, w: World, terms: seq<Name>, i: nat)
    requires IsWorld(w) && IsAdded(added, w) && i < |added|
    ensures AddedHit(added, w, terms, i) <==> added[i].live && AllFound(terms, NamesOf(added, w, i))
  {
    hide Contains, Found, IsWorld, TermAbove, NamesAbove;
    forall t | 0 <= t < |terms|
      ensures Contains(added[i].name, terms[t]) || TermAbove(added, w, terms[t], added[i].parent, i) <==>
        Found(terms[t], NamesOf(added, w, i))
    {
      AboveIsFound(added, w, terms[t], added[i].parent, i);
      FoundInOne(terms[t], added[i].name);
      FoundInParts(terms[t], {added[i].name}, NamesAbove(added, w, added[i].parent, i));
    }
  }

  // ---- what the bound of 512 references costs --------------------------------------------------

  lemma {:induction false} BoundedIsBelow(added: seq<DeltaRecord>, w: World, parent: ParentRef, bound: nat, hops: nat)
    requires IsWorld(w) && IsAdded(added, w) && bound <= |added|
    requires parent.AtDelta? ==> parent.index < bound
    requires parent.AtBase? ==> parent.index < Size(w)
    ensures CountedAbove(added, w, parent, hops) <= NamesAbove(added, w, parent, bound)
    decreases hops
  {
    hide IsWorld, Counted;
    if hops > 0 && parent.AtDelta? && Holds(added, parent.index) {
      BoundedIsBelow(added, w, added[parent.index].parent, parent.index, hops - 1);
    }
  }

  /**
   * The bounded walk reports a live addition for exactly the term lists that occur on its
   * path if and only if every name past the bound occurs in a name within it.
   */
  lemma TheoremBoundedWalkExact(added: seq<DeltaRecord>, w: World, i: nat, most: nat)
    requires IsWorld(w) && IsAdded(added, w) && i < |added| && added[i].live && most > 0
    ensures Within(NamesOf(added, w, i), CountedAdded(added, w, i)) <==>
      forall terms: seq<Name> :: 0 < |terms| <= most ==> (WalkHit(added, w, terms, i) <==> AddedHit(added, w, terms, i))
  {
    hide IsWorld, IsAdded, Found, WalkHit, AddedHit, CountedAbove, NamesAbove;
    var all, near := NamesOf(added, w, i), CountedAdded(added, w, i);
    AddedInside(added, w, i);
    BoundedIsBelow(added, w, added[i].parent, i, MAX_HOPS);
    forall n | n in near ensures Found(LowerAll(n), all) {
      FoundItself(n, all);
    }
    TheoremSameAnswers(all, near, most);
    forall terms: seq<Name>
      ensures WalkHit(added, w, terms, i) <==> AllFound(terms, near)
      ensures AddedHit(added, w, terms, i) <==> AllFound(terms, all)
      ensures AnswerAlike(terms, all, near) <==> (WalkHit(added, w, terms, i) <==> AddedHit(added, w, terms, i))
    {
      WalkHitIsFound(added, w, terms, i);
      AddedHitIsFound(added, w, terms, i);
    }
  }

  /** A chain of added directories: "b", and in it `n - 1` times "a" inside "a". */
  function DeepChain(n: nat): seq<DeltaRecord> {
    seq(n, i requires 0 <= i < n => DeltaRecord([if i == 0 then 98 else 97], if i == 0 then Rootless else AtDelta(i - 1), Meta(true, 0, 0, true), true))
  }

  lemma {:induction false} DeepChainNames(w: World, n: nat, i: nat, hops: nat)
    requires IsWorld(w) && i < n
    ensures IsAdded(DeepChain(n), w)
    ensures forall x :: x in CountedAbove(DeepChain(n), w, AtDelta(i), hops) && hops <= i ==> x == [97]
    ensures [98] in NamesAbove(DeepChain(n), w, AtDelta(i), i + 1)
    decreases i
  {
    hide IsWorld, Counted;
    if i > 0 {
      DeepChainNames(w, n, i - 1, if hops > 0 then hops - 1 else 0);
    }
  }

  /** The search does not see past 512 references: the directory at the top of 513 others is missed from the last of them. */
  lemma DeepChainIsCut(w: World)
    requires IsWorld(w)
    ensures var added := DeepChain(514);
            IsAdded(added, w) && AddedHit(added, w, [[98]], 513) && !WalkHit(added, w, [[98]], 513)
  {
    hide IsWorld, IsAdded, AddedHit, WalkHit, Contains, CountedAbove, NamesAbove;
    var added := DeepChain(514);
    DeepChainNames(w, 514, 512, MAX_HOPS);
    AddedHitIsFound(added, w, [[98]], 513);
    WalkHitIsFound(added, w, [[98]], 513);
    BContains();
    assert Found([98], NamesOf(added, w, 513));
    assert !Found([[98]][0], CountedAdded(added, w, 513));
  }

  lemma BContains()
    ensures Contains([98], [98]) && !Contains([97], [98])
  {
    var a: Name, b: Name := [97], [98];
    assert MatchesAt(b, b, 0);
    assert Lower(a[0 + 0]) != b[0];
  }

  lemma AddedInside(added: seq<DeltaRecord>, w: World, i: nat)
    requires IsAdded(added, w) && i < |added|
    ensures (added[i].parent.AtDelta? ==> added[i].parent.index < i) && (added[i].parent.AtBase? ==> added[i].parent.index < Size(w))
  {
  }

  /** The keys of the first `k` additions that pass and on whose path every term occurs. */
  ghost function PathKeys(ask: Ask, w: World, added: seq<DeltaRecord>, k: nat): multiset<Key>
    requires IsAsk(ask, w) && IsAdded(added, w) && k <= |added|
  {
    if k == 0 then multiset{} else PathKeys(ask, w, added, k - 1) + PathKey(ask, w, added, k - 1)
  }

  ghost function PathKey(ask: Ask, w: World, added: seq<DeltaRecord>, i: nat): multiset<Key>
    requires IsAsk(ask, w) && IsAdded(added, w) && i < |added|
  {
    if AddedPasses(ask, Size(w), added, i) && AddedHit(added, w, ask.terms, i)
    then multiset{NamedKey(ask, Size(w) + i, added[i].name)} else multiset{}
  }

  /** Every live addition's chain ends within 512 references. */
  ghost predicate ShortChains(added: seq<DeltaRecord>, w: World)
    requires IsAdded(added, w)
  {
    forall i :: 0 <= i < |added| && added[i].live ==> Hops(added, w, added[i].parent, i) <= MAX_HOPS
  }

  /** Then the additions a search offers are exactly those on whose path every term occurs. */
  lemma {:induction false} TheoremAddedKeysByPath(ask: Ask, w: World, added: seq<DeltaRecord>, k: nat)
    requires IsAsk(ask, w) && IsAdded(added, w) && k <= |added| && ShortChains(added, w)
    ensures AddedKeys(ask, w, added, k) == PathKeys(ask, w, added, k)
  {
    hide IsAsk, IsAdded, ShortChains, AddedKey, PathKey;
    if k > 0 {
      TheoremAddedKeysByPath(ask, w, added, k - 1);
      KeyByPath(ask, w, added, k - 1);
    }
  }

  lemma KeyByPath(ask: Ask, w: World, added: seq<DeltaRecord>, i: nat)
    requires IsAsk(ask, w) && IsAdded(added, w) && i < |added| && ShortChains(added, w)
    ensures AddedKey(ask, w, added, i) == PathKey(ask, w, added, i)
  {
    hide IsWorld, IsAdded, WalkHit, AddedHit, NamedKey, Hops, MatchesFilter;
    TheoremAddedHits(added, w, ask.terms, i);
  }
}
