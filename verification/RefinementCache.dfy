/** The per-connection refinement cache (scry-daemon search.rs). */
module RefinementCache {
  import opened Records
  import opened Ascii
  import opened Cancel
  import opened TopSet
  import opened TopK
  import Counting

  const CACHE_CAP: nat := 20_000
  const MAX_TERMS: nat := 16

  // ---- queries ---------------------------------------------------------------------------

  datatype Kind = Prefix | Substring | PathTerms | Other

  /** One request; `Other` stands for the kinds that are never cached. */
  datatype Query = Query(kind: Kind, terms: seq<Name>)

  predicate WellFormed(q: Query) {
    q.kind == Prefix || q.kind == Substring ==> |q.terms| == 1
  }

  function Lowered(terms: seq<Name>): (r: seq<Name>)
    ensures |r| == |terms| && forall t :: 0 <= t < |terms| ==> r[t] == LowerAll(terms[t])
  {
    seq(|terms|, t requires 0 <= t < |terms| => LowerAll(terms[t]))
  }

  /** is_refinement: every old term is a prefix of the new term in its place. */
  predicate IsRefinement(older: seq<Name>, newer: seq<Name>) {
    && older != [] && |newer| >= |older|
    && forall t :: 0 <= t < |older| ==> StartsWithCi(newer[t], older[t])
  }

  // ---- views -----------------------------------------------------------------------------

  /**
   * One published view of a volume: names and liveness over the combined record space, the
   * records on whose path all (lowercase) terms occur, what the walk of a cached hit says,
   * what a query of another kind matches, and the rank column of each order that ranks on metadata.
   */
  datatype View = View(generation: nat, names: seq<Name>, live: seq<bool>, onPath: (seq<Name>, nat) -> bool,
                       walk: (seq<Name>, nat) -> bool, other: (seq<Name>, nat) -> bool, column: (Order, nat) -> nat)

  ghost predicate IsView(v: View) {
    |v.names| == |v.live|
  }

  predicate Matches(v: View, q: Query, r: nat)
    requires r < |v.names| == |v.live| && WellFormed(q)
  {
    v.live[r] &&
    match q.kind
    case Prefix => StartsWithCi(v.names[r], q.terms[0])
    case Substring => Contains(v.names[r], LowerAll(q.terms[0]))
    case PathTerms => 0 < |q.terms| <= MAX_TERMS && v.onPath(Lowered(q.terms), r)
    case Other => v.other(q.terms, r)
  }

  /**
   * What path terms need of a view: adding letters or terms only narrows the match, and,
   * below sixteen terms, the walk that re-checks a cached hit agrees with the search.
   * `RefineWalk` says when views do, and why sixteen terms are excluded.
   */
  ghost predicate PathFaithful(v: View)
    requires IsView(v)
  {
    forall older: seq<Name>, newer: seq<Name>, r: nat ::
      Narrows(older, newer) && |newer| <= MAX_TERMS && r < |v.names| && v.live[r] && v.onPath(newer, r) ==> v.onPath(older, r)
  }

  ghost predicate WalkAgrees(v: View)
    requires IsView(v)
  {
    forall terms: seq<Name>, r: nat ::
      0 < |terms| < MAX_TERMS && r < |v.names| && v.live[r] ==> (v.walk(terms, r) <==> v.onPath(terms, r))
  }

  /** Lowercase term lists, the older a refinement base of the newer. */
  ghost predicate Narrows(older: seq<Name>, newer: seq<Name>) {
    && older != [] && |newer| >= |older|
    && forall t :: 0 <= t < |older| ==> |older[t]| <= |newer[t]| && newer[t][..|older[t]|] == older[t]
  }

  // ---- ranks -----------------------------------------------------------------------------

  /** match_quality, for a scan: by comparison and prefix test, or by the terms the name lacks. */
  function MatchQuality(q: Query, name: Name): nat
    requires WellFormed(q)
  {
    match q.kind
    case Prefix => PatternQuality(q.terms[0], name)
    case Substring => PatternQuality(q.terms[0], name)
    case PathTerms => Lacking(Lowered(q.terms), name)
    case Other => 2
  }

  function PatternQuality(pattern: Name, name: Name): nat {
    if CmpCi(name, pattern) == Equal then 0 else if StartsWithCi(name, pattern) then 1 else 2
  }

  function Lacking(terms: seq<Name>, name: Name): nat {
    if terms == [] then 0
    else Lacking(terms[..|terms| - 1], name) + if Contains(name, terms[|terms| - 1]) then 0 else 1
  }

  function EqFold(a: Name, b: Name): bool {
    LowerAll(a) == LowerAll(b)
  }

  /** hit_quality, for a cached hit: by folded slices. */
  function HitQuality(q: Query, termsLower: seq<Name>, name: Name): nat
    requires WellFormed(q)
  {
    match q.kind
    case Prefix => SliceQuality(q.terms[0], name)
    case Substring => SliceQuality(q.terms[0], name)
    case PathTerms => Lacking(termsLower, name)
    case Other => 2
  }

  function SliceQuality(pattern: Name, name: Name): nat {
    if EqFold(name, pattern) then 0
    else if |name| >= |pattern| && EqFold(name[..|pattern|], pattern) then 1
    else 2
  }

  /** The two classifications agree, so a re-ranked cached hit sorts where a scanned one would. */
  lemma TheoremQualitiesAgree(q: Query, name: Name)
    requires WellFormed(q)
    ensures HitQuality(q, Lowered(q.terms), name) == MatchQuality(q, name)
  {
    if q.kind == Prefix || q.kind == Substring {
      TiesAreFolds(name, q.terms[0]);
      SliceStarts(name, q.terms[0]);
    }
  }

  lemma SliceStarts(name: Name, pattern: Name)
    ensures StartsWithCi(name, pattern) <==> |name| >= |pattern| && EqFold(name[..|pattern|], pattern)
  {
    if |name| >= |pattern| {
      var cut := name[..|pattern|];
      assert forall k :: 0 <= k < |pattern| ==> LowerAll(cut)[k] == Lower(name[k]) && LowerAll(pattern)[k] == Lower(pattern[k]);
    }
  }

  function RelevanceBits(quality: nat, nameLen: nat): nat {
    quality * 0x100_0000 + if nameLen < 0xFF_FFFF then nameLen else 0xFF_FFFF
  }

  /** The comparable half of a hit's key. */
  function RankBits(v: View, q: Query, order: Order, r: nat): nat
    requires r < |v.names| && WellFormed(q)
  {
    if order == Relevance then RelevanceBits(MatchQuality(q, v.names[r]), |v.names[r]|) else v.column(order, r)
  }

  datatype Hit = Hit(record: nat, rank: nat)

  /** Every match of one volume. */
  ghost function AllIn(v: View, volume: nat, q: Query, order: Order): (s: set<Placed>)
    requires IsView(v) && WellFormed(q)
  {
    set r | 0 <= r < |v.names| && Matches(v, q, r) :: Placed(RankBits(v, q, order, r), volume, r)
  }

  /** The matches among the records below `n`. */
  ghost function AllBelow(v: View, volume: nat, q: Query, order: Order, n: nat): (s: set<Placed>)
    requires IsView(v) && WellFormed(q) && n <= |v.names|
  {
    set r | 0 <= r < n && Matches(v, q, r) :: Placed(RankBits(v, q, order, r), volume, r)
  }

  /** Every match of every volume. */
  ghost function AllMatches(views: seq<View>, q: Query, order: Order): (s: set<Placed>)
    requires WellFormed(q) && forall i :: 0 <= i < |views| ==> IsView(views[i])
  {
    if views == [] then {}
    else AllMatches(views[..|views| - 1], q, order) + AllIn(views[|views| - 1], |views| - 1, q, order)
  }

  /** What a fresh scan of all volumes answers. */
  ghost predicate IsFresh(answer: seq<Placed>, views: seq<View>, q: Query, order: Order, limit: nat)
    requires WellFormed(q) && forall i :: 0 <= i < |views| ==> IsView(views[i])
  {
    Lists(answer, Elements(answer)) && IsTop(AllMatches(views, q, order), limit, Elements(answer))
  }

  /** There is only one such answer, so two ways of computing it agree. */
  lemma FreshIsUnique(a: seq<Placed>, b: seq<Placed>, views: seq<View>, q: Query, order: Order, limit: nat)
    requires WellFormed(q) && forall i :: 0 <= i < |views| ==> IsView(views[i])
    requires IsFresh(a, views, q, order, limit) && IsFresh(b, views, q, order, limit)
    ensures a == b
  {
    TheoremTopIsUnique(AllMatches(views, q, order), limit, Elements(a), Elements(b));
    ListsAreUnique(a, b, Elements(a));
  }

  // ---- narrowing -------------------------------------------------------------------------

  /** A refinement is a list whose lowercase terms begin with the older ones. */
  lemma LoweredNarrows(older: seq<Name>, newer: seq<Name>)
    ensures IsRefinement(older, newer) <==> Narrows(Lowered(older), Lowered(newer))
  {
    if |newer| >= |older| {
      forall t | 0 <= t < |older|
        ensures StartsWithCi(newer[t], older[t]) <==>
          |Lowered(older)[t]| <= |Lowered(newer)[t]| && Lowered(newer)[t][..|Lowered(older)[t]|] == Lowered(older)[t]
      {
        FoldedStarts(newer[t], older[t]);
      }
    }
  }

  lemma FoldedStarts(hay: Name, needle: Name)
    ensures StartsWithCi(hay, needle) <==> |needle| <= |hay| && LowerAll(hay)[..|needle|] == LowerAll(needle)
  {
    if |needle| <= |hay| {
      assert forall k :: 0 <= k < |needle| ==> LowerAll(hay)[..|needle|][k] == Lower(hay[k]) && LowerAll(needle)[k] == Lower(needle[k]);
    }
  }

  /** A refinement matches a subset of what the broader query matched. */
  lemma TheoremRefinementNarrows(v: View, older: Query, newer: Query, r: nat)
    requires IsView(v) && WellFormed(older) && WellFormed(newer) && older.kind == newer.kind != Other
    requires IsRefinement(older.terms, newer.terms) && r < |v.names| && Matches(v, newer, r)
    requires newer.kind == PathTerms ==> PathFaithful(v)
    ensures Matches(v, older, r)
  {
    hide Contains;
    LoweredNarrows(older.terms, newer.terms);
    match newer.kind {
      case Prefix =>
        assert StartsWithCi(newer.terms[0], older.terms[0]);
      case Substring =>
        var broad, narrow := LowerAll(older.terms[0]), LowerAll(newer.terms[0]);
        assert Lowered(newer.terms)[0][..|Lowered(older.terms)[0]|] == Lowered(older.terms)[0];
        assert forall k :: 0 <= k < |broad| ==> broad[k] == narrow[..|broad|][k] == narrow[k];
        ContainsNarrows(v.names[r], broad, narrow);
      case PathTerms =>
    }
  }

  /** The view and query for which cached path hits can be trusted. */
  ghost predicate Trusted(v: View, q: Query)
    requires IsView(v)
  {
    q.kind == PathTerms ==> PathFaithful(v) && WalkAgrees(v) && |q.terms| != MAX_TERMS
  }

  /** matches_refined: re-checks a cached hit without the index. */
  predicate MatchesRefined(v: View, q: Query, termsLower: seq<Name>, r: nat)
    requires r < |v.names| && WellFormed(q) && |termsLower| == |q.terms|
  {
    match q.kind
    case Prefix => |v.names[r]| >= |termsLower[0]| && EqFold(v.names[r][..|termsLower[0]|], termsLower[0])
    case Substring => Contains(v.names[r], termsLower[0])
    case PathTerms => 0 < |termsLower| <= MAX_TERMS && v.walk(termsLower, r)
    case Other => false
  }

  lemma RefinedIsMatch(v: View, q: Query, r: nat)
    requires IsView(v) && r < |v.names| && v.live[r] && WellFormed(q) && q.kind != Other && Trusted(v, q)
    ensures MatchesRefined(v, q, Lowered(q.terms), r) <==> Matches(v, q, r)
  {
    hide Contains;
    if q.kind == Prefix {
      LoweredStarts(v.names[r], q.terms[0]);
    }
  }

  lemma LoweredStarts(name: Name, pattern: Name)
    ensures StartsWithCi(name, pattern) <==> |name| >= |LowerAll(pattern)| && EqFold(name[..|LowerAll(pattern)|], LowerAll(pattern))
  {
    SliceStarts(name, LowerAll(pattern));
    assert forall k :: 0 <= k < |pattern| ==> Lower(LowerAll(pattern)[k]) == Lower(pattern[k]);
  }

  // ---- the cache -------------------------------------------------------------------------

  datatype VolumeCandidates = VolumeCandidates(generation: nat, hits: seq<Hit>)

  ghost function PlacedOf(hits: seq<Hit>, volume: nat): (s: set<Placed>)
  {
    set h | h in hits :: Placed(h.rank, volume, h.record)
  }

  /** Hits of one volume: in range, live, each record once. */
  ghost predicate AreHits(hits: seq<Hit>, v: View)
    requires IsView(v)
  {
    && (forall k :: 0 <= k < |hits| ==> hits[k].record < |v.names| && v.live[hits[k].record])
    && forall k, l :: 0 <= k < l < |hits| ==> hits[k].record != hits[l].record
  }

  /** A cached entry is the complete match set of its query, at its generation, and below the cap. */
  ghost predicate EntryOk(c: VolumeCandidates, volume: nat, q: Query, order: Order, gen: nat -> View)
    requires WellFormed(q)
  {
    var v := gen(c.generation);
    && IsView(v) && v.generation == c.generation && AreHits(c.hits, v) && |c.hits| < CACHE_CAP
    && (Trusted(v, q) ==> PlacedOf(c.hits, volume) == AllIn(v, volume, q, order))
  }

  ghost predicate EntriesOk(entries: seq<Option<VolumeCandidates>>, q: Query, order: Order, gen: nat -> View)
    requires WellFormed(q)
  {
    forall i :: 0 <= i < |entries| && entries[i].Some? ==> EntryOk(entries[i].value, i, q, order, gen)
  }

  class RefinementCache {
    var kind: Option<Kind>
    var order: Order
    var terms: seq<Name>
    var perVolume: seq<Option<VolumeCandidates>>
    var lastReused: nat
    var lastScanned: nat

    /** Whatever is cached is complete for the query and order it was collected under. */
    ghost predicate Valid(gen: nat -> View)
      reads this
    {
      && (kind.Some? ==> kind.value != Other && WellFormed(Query(kind.value, terms)))
      && (kind.Some? ==> EntriesOk(perVolume, Query(kind.value, terms), order, gen))
      && (kind.None? ==> forall i :: 0 <= i < |perVolume| ==> perVolume[i].None?)
    }

    constructor (ghost gen: nat -> View)
      ensures Valid(gen) && kind == None
    {
      kind, order, terms, perVolume, lastReused, lastScanned := None, Relevance, [], [], 0, 0;
    }
  }

  // ---- scanning one volume ---------------------------------------------------------------

  lemma CollectStep(v: View, volume: nat, q: Query, order: Order, r: nat)
    requires IsView(v) && WellFormed(q) && r < |v.names|
    ensures AllBelow(v, volume, q, order, r + 1) == AllBelow(v, volume, q, order, r) +
      (if Matches(v, q, r) then {Placed(RankBits(v, q, order, r), volume, r)} else {})
  {
    hide Matches, RankBits;
  }

  lemma CollectEnds(v: View, volume: nat, q: Query, order: Order)
    requires IsView(v) && WellFormed(q)
    ensures AllBelow(v, volume, q, order, 0) == {} && AllBelow(v, volume, q, order, |v.names|) == AllIn(v, volume, q, order)
  {
    hide Matches, RankBits;
  }

  lemma ElementsGrow(found: seq<Placed>, x: Placed)
    ensures Elements(found + [x]) == Elements(found) + {x} && Elements([]) == {}
  {
  }

  function HitsOf(top: seq<Placed>): (hits: seq<Hit>)
    ensures |hits| == |top| && forall k :: 0 <= k < |top| ==> hits[k] == Hit(top[k].record, top[k].rank)
  {
    seq(|top|, k requires 0 <= k < |top| => Hit(top[k].record, top[k].rank))
  }

  /**
   * The search of one view, as a loop over its matches. `ViewSearch.SearchView` proves the same
   * about the hits of the program's own searches. A superseded one may return anything less.
   */
  method SearchHits(v: View, volume: nat, q: Query, order: Order, limit: nat, cancel: Cancellation?) returns (hits: seq<Hit>)
    requires IsView(v) && WellFormed(q)
    modifies Flag(cancel)
    ensures old(Superseded(cancel)) ==> Superseded(cancel)
    ensures AreHits(hits, v)
    ensures !Superseded(cancel) ==> IsTop(AllIn(v, volume, q, order), limit, PlacedOf(hits, volume))
  {
    hide Matches, RankBits, AllIn, AllBelow, Elements, PlacedOf, AreHits, IsTop, Lists;
    var found: seq<Placed> := [];
    CollectEnds(v, volume, q, order);
    ElementsGrow([], Placed(0, 0, 0));
    for r := 0 to |v.names|
      invariant Elements(found) == AllBelow(v, volume, q, order, r)
      invariant old(Superseded(cancel)) ==> Superseded(cancel)
    {
      CollectStep(v, volume, q, order, r);
      if Matches(v, q, r) {
        ElementsGrow(found, Placed(RankBits(v, q, order, r), volume, r));
        found := found + [Placed(RankBits(v, q, order, r), volume, r)];
      }
    }
    var superseded := Poll(cancel);
    if superseded {
      NoHits(v);
      return [];
    }
    var top := RankSortTruncate(found, limit);
    hits := HitsOf(top);
    TopHits(top, hits, v, volume, q, order, limit);
  }

  lemma NoHits(v: View)
    requires IsView(v)
    ensures AreHits([], v)
  {
  }

  lemma TopHits(top: seq<Placed>, hits: seq<Hit>, v: View, volume: nat, q: Query, order: Order, limit: nat)
    requires IsView(v) && WellFormed(q) && Lists(top, Elements(top)) && IsTop(AllIn(v, volume, q, order), limit, Elements(top))
    requires hits == HitsOf(top)
    ensures AreHits(hits, v) && PlacedOf(hits, volume) == Elements(top)
  {
    hide RankBits;
    forall k | 0 <= k < |top| ensures top[k] in AllIn(v, volume, q, order) {
      assert top[k] in Elements(top);
    }
    forall k, l | 0 <= k < l < |hits| ensures hits[k].record != hits[l].record {
      assert Before(top[k], top[l]);
    }
    forall x | x in Elements(top) ensures x in PlacedOf(hits, volume) {
      var k :| 0 <= k < |top| && top[k] == x;
      assert hits[k] in hits;
    }
    forall x | x in PlacedOf(hits, volume) ensures x in Elements(top) {
      var h :| h in hits && x == Placed(h.rank, volume, h.record);
      var k :| 0 <= k < |hits| && hits[k] == h;
      assert top[k] == x;
    }
  }

  lemma {:induction false} PlacedSize(hits: seq<Hit>, v: View, volume: nat)
    requires IsView(v) && AreHits(hits, v)
    ensures |PlacedOf(hits, volume)| == |hits|
  {
    if hits == [] {
      assert PlacedOf(hits, volume) == {};
    } else {
      var front, h := hits[..|hits| - 1], hits[|hits| - 1];
      assert hits == front + [h];
      PlacedSize(front, v, volume);
      assert PlacedOf(hits, volume) == PlacedOf(front, volume) + {Placed(h.rank, volume, h.record)};
    }
  }

  // ---- filtering a cached set ------------------------------------------------------------

  /** The rank a kept hit goes on with: recomputed from its name under relevance, else as it was. */
  function Reranked(v: View, q: Query, order: Order, termsLower: seq<Name>, h: Hit): Hit
    requires h.record < |v.names| && WellFormed(q)
  {
    if order == Relevance then Hit(h.record, RelevanceBits(HitQuality(q, termsLower, v.names[h.record]), |v.names[h.record]|)) else h
  }

  /** The re-checked and re-ranked hits. */
  ghost predicate IsFiltered(out: seq<Hit>, hits: seq<Hit>, v: View, q: Query, order: Order)
    requires IsView(v) && WellFormed(q) && AreHits(hits, v)
  {
    && AreHits(out, v)
    && (forall x :: x in out <==> exists k :: 0 <= k < |hits| && FilteredTo(hits[k], x, v, q, order))
  }

  ghost predicate FilteredTo(h: Hit, x: Hit, v: View, q: Query, order: Order)
    requires IsView(v) && WellFormed(q)
  {
    h.record < |v.names| && MatchesRefined(v, q, Lowered(q.terms), h.record) && x == Reranked(v, q, order, Lowered(q.terms), h)
  }

  method FilterCached(hits: seq<Hit>, v: View, q: Query, order: Order) returns (out: seq<Hit>)
    requires IsView(v) && WellFormed(q) && AreHits(hits, v)
    ensures IsFiltered(out, hits, v, q, order) && |out| <= |hits|
  {
    hide MatchesRefined, HitQuality, RelevanceBits;
    var termsLower := Lowered(q.terms);
    out := [];
    for k := 0 to |hits|
      invariant AreHits(out, v) && |out| <= k
      invariant forall x :: x in out ==> exists l :: 0 <= l < k && FilteredTo(hits[l], x, v, q, order)
      invariant forall l :: 0 <= l < k && MatchesRefined(v, q, termsLower, hits[l].record) ==>
        Reranked(v, q, order, termsLower, hits[l]) in out
    {
      var h := hits[k];
      if MatchesRefined(v, q, termsLower, h.record) {
        var x := Reranked(v, q, order, termsLower, h);
        FilterStep(out, hits, k, v, q, order, x);
        out := out + [x];
      }
    }
  }

  lemma FilterStep(out: seq<Hit>, hits: seq<Hit>, k: nat, v: View, q: Query, order: Order, x: Hit)
    requires IsView(v) && WellFormed(q) && AreHits(hits, v) && AreHits(out, v) && k < |hits|
    requires forall y :: y in out ==> exists l :: 0 <= l < k && FilteredTo(hits[l], y, v, q, order)
    requires FilteredTo(hits[k], x, v, q, order)
    ensures AreHits(out + [x], v)
    ensures forall y :: y in out + [x] ==> exists l :: 0 <= l < k + 1 && FilteredTo(hits[l], y, v, q, order)
  {
    hide MatchesRefined, HitQuality, RelevanceBits;
    forall m | 0 <= m < |out| ensures out[m].record != x.record {
      assert out[m] in out;
      var l :| 0 <= l < k && FilteredTo(hits[l], out[m], v, q, order);
      assert hits[l].record != hits[k].record;
    }
    forall y | y in out + [x] ensures exists l :: 0 <= l < k + 1 && FilteredTo(hits[l], y, v, q, order) {
      if y in out {
        var l :| 0 <= l < k && FilteredTo(hits[l], y, v, q, order);
      }
    }
  }

  lemma CachedRank(c: VolumeCandidates, volume: nat, older: Query, order: Order, v: View, h: Hit)
    requires IsView(v) && WellFormed(older) && h in c.hits && PlacedOf(c.hits, volume) == AllIn(v, volume, older, order)
    ensures h.record < |v.names| && Matches(v, older, h.record) && h.rank == RankBits(v, older, order, h.record)
  {
    hide Matches, RankBits;
    assert Placed(h.rank, volume, h.record) in PlacedOf(c.hits, volume);
  }

  /** The re-check of the older query's matches leaves exactly the matches of the newer one. */
  ghost predicate RecheckAgrees(v: View, older: Query, q: Query)
    requires IsView(v) && WellFormed(older) && WellFormed(q)
  {
    forall r: nat :: r < |v.names| ==> (Rechecked(v, older, q, r) <==> Matches(v, q, r))
  }

  ghost predicate Rechecked(v: View, older: Query, q: Query, r: nat)
    requires IsView(v) && WellFormed(older) && WellFormed(q) && r < |v.names|
  {
    Matches(v, older, r) && MatchesRefined(v, q, Lowered(q.terms), r)
  }

  /** A complete cached set, filtered, is the complete set of the refined query if and only if the re-check agrees. */
  lemma TheoremFilterIsScan(c: VolumeCandidates, volume: nat, older: Query, q: Query, order: Order, v: View, out: seq<Hit>)
    requires IsView(v) && WellFormed(older) && WellFormed(q) && older.kind == q.kind
    requires AreHits(c.hits, v) && PlacedOf(c.hits, volume) == AllIn(v, volume, older, order)
    requires IsFiltered(out, c.hits, v, q, order)
    ensures PlacedOf(out, volume) == AllIn(v, volume, q, order) <==> RecheckAgrees(v, older, q)
  {
    hide Rechecked, Matches, RankBits, IsFiltered;
    forall p ensures p in PlacedOf(out, volume) <==>
      p.record < |v.names| && Rechecked(v, older, q, p.record) && p == Placed(RankBits(v, q, order, p.record), volume, p.record)
    {
      if p in PlacedOf(out, volume) {
        FilterKeeps(c, volume, older, q, order, v, out, p);
      }
      if p.record < |v.names| && Rechecked(v, older, q, p.record) && p == Placed(RankBits(v, q, order, p.record), volume, p.record) {
        FilterFinds(c, volume, older, q, order, v, out, p.record);
      }
    }
    if PlacedOf(out, volume) == AllIn(v, volume, q, order) {
      forall r: nat | r < |v.names| ensures Rechecked(v, older, q, r) <==> Matches(v, q, r) {
        var p := Placed(RankBits(v, q, order, r), volume, r);
        assert p in PlacedOf(out, volume) <==> p in AllIn(v, volume, q, order);
      }
    }
  }

  /** Where the re-check can be trusted, it agrees. */
  lemma TrustedRechecks(v: View, older: Query, q: Query)
    requires IsView(v) && WellFormed(older) && WellFormed(q) && older.kind == q.kind != Other
    requires IsRefinement(older.terms, q.terms) && Trusted(v, q) && (q.kind == PathTerms ==> |q.terms| <= MAX_TERMS)
    ensures RecheckAgrees(v, older, q)
  {
    hide Matches, MatchesRefined, Trusted, IsRefinement;
    forall r: nat | r < |v.names| ensures Rechecked(v, older, q, r) <==> Matches(v, q, r) {
      MatchIsLive(v, older, r);
      MatchIsLive(v, q, r);
      if v.live[r] {
        RefinedIsMatch(v, q, r);
      }
      if Matches(v, q, r) {
        TrustedNarrows(v, older, q, r);
      }
    }
  }

  lemma MatchIsLive(v: View, q: Query, r: nat)
    requires IsView(v) && WellFormed(q) && r < |v.names|
    ensures Matches(v, q, r) ==> v.live[r]
  {
  }

  lemma TrustedNarrows(v: View, older: Query, q: Query, r: nat)
    requires IsView(v) && WellFormed(older) && WellFormed(q) && older.kind == q.kind != Other
    requires IsRefinement(older.terms, q.terms) && Trusted(v, q) && r < |v.names| && Matches(v, q, r)
    ensures Matches(v, older, r)
  {
    hide Matches, PathFaithful, WalkAgrees;
    TheoremRefinementNarrows(v, older, q, r);
  }

  lemma NothingPastMax(c: VolumeCandidates, volume: nat, q: Query, order: Order, v: View, out: seq<Hit>)
    requires IsView(v) && WellFormed(q) && q.kind == PathTerms && |q.terms| > MAX_TERMS
    requires AreHits(c.hits, v) && IsFiltered(out, c.hits, v, q, order)
    ensures PlacedOf(out, volume) == AllIn(v, volume, q, order)
  {
    forall x ensures x !in out {
      assert forall k :: 0 <= k < |c.hits| ==> !FilteredTo(c.hits[k], x, v, q, order);
    }
  }

  lemma FilterKeeps(c: VolumeCandidates, volume: nat, older: Query, q: Query, order: Order, v: View, out: seq<Hit>, p: Placed)
    requires IsView(v) && WellFormed(older) && WellFormed(q) && older.kind == q.kind
    requires AreHits(c.hits, v) && PlacedOf(c.hits, volume) == AllIn(v, volume, older, order)
    requires IsFiltered(out, c.hits, v, q, order) && p in PlacedOf(out, volume)
    ensures p.record < |v.names| && Rechecked(v, older, q, p.record)
    ensures p == Placed(RankBits(v, q, order, p.record), volume, p.record)
  {
    hide MatchesRefined, Matches, MatchQuality, HitQuality, RelevanceBits;
    var x :| x in out && p == Placed(x.rank, volume, x.record);
    var k :| 0 <= k < |c.hits| && FilteredTo(c.hits[k], x, v, q, order);
    var r := c.hits[k].record;
    CachedRank(c, volume, older, order, v, c.hits[k]);
    TheoremQualitiesAgree(q, v.names[r]);
    assert x.rank == RankBits(v, q, order, r);
  }

  lemma FilterFinds(c: VolumeCandidates, volume: nat, older: Query, q: Query, order: Order, v: View, out: seq<Hit>, r: nat)
    requires IsView(v) && WellFormed(older) && WellFormed(q) && older.kind == q.kind
    requires AreHits(c.hits, v) && PlacedOf(c.hits, volume) == AllIn(v, volume, older, order)
    requires IsFiltered(out, c.hits, v, q, order) && r < |v.names| && Rechecked(v, older, q, r)
    ensures Placed(RankBits(v, q, order, r), volume, r) in PlacedOf(out, volume)
  {
    hide MatchesRefined, Matches, MatchQuality, HitQuality, RelevanceBits;
    var place := Placed(RankBits(v, older, order, r), volume, r);
    assert place in PlacedOf(c.hits, volume);
    var h :| h in c.hits && place == Placed(h.rank, volume, h.record);
    var k :| 0 <= k < |c.hits| && c.hits[k] == h;
    TheoremQualitiesAgree(q, v.names[r]);
    var x := Reranked(v, q, order, Lowered(q.terms), h);
    assert FilteredTo(c.hits[k], x, v, q, order);
    assert x in out;
  }

  // ---- one volume ------------------------------------------------------------------------

  /** A volume's hits are the best `scanLimit` of its matches. */
  ghost predicate VolumeOk(hits: seq<Hit>, v: View, volume: nat, q: Query, order: Order, scanLimit: nat)
    requires IsView(v) && WellFormed(q)
  {
    AreHits(hits, v) && (Trusted(v, q) ==> IsTop(AllIn(v, volume, q, order), scanLimit, PlacedOf(hits, volume)))
  }

  /** A volume answered from its cache entry when the generation still fits, else scanned. */
  method SearchVolume(v: View, volume: nat, q: Query, order: Order, scanLimit: nat, reusable: Option<VolumeCandidates>,
                      cancel: Cancellation?, ghost older: Query, ghost gen: nat -> View)
    returns (hits: seq<Hit>, reused: bool)
    requires IsView(v) && WellFormed(q) && q.kind != Other && gen(v.generation) == v
    requires reusable.Some? ==> WellFormed(older) && older.kind == q.kind && IsRefinement(older.terms, q.terms)
    requires reusable.Some? ==> EntryOk(reusable.value, volume, older, order, gen) && scanLimit == CACHE_CAP
    modifies Flag(cancel)
    ensures old(Superseded(cancel)) ==> Superseded(cancel)
    ensures AreHits(hits, v)
    ensures !Superseded(cancel) ==> VolumeOk(hits, v, volume, q, order, scanLimit)
    ensures reused <==> reusable.Some? && reusable.value.generation == v.generation
  {
    hide AreHits, AllIn, PlacedOf, IsTop, IsFiltered, Trusted;
    reused := reusable.Some? && reusable.value.generation == v.generation;
    if reused {
      hits := FilterCached(reusable.value.hits, v, q, order);
      FilteredAreHits(hits, reusable.value.hits, v, q, order);
      if Trusted(v, q) {
        ReuseIsScan(reusable.value, volume, older, q, order, gen, hits);
      }
    } else {
      hits := SearchHits(v, volume, q, order, scanLimit, cancel);
    }
  }

  /** A reused entry gives every match, and fewer of them than the cap. */
  lemma ReuseIsScan(c: VolumeCandidates, volume: nat, older: Query, q: Query, order: Order, gen: nat -> View, out: seq<Hit>)
    requires WellFormed(older) && WellFormed(q) && older.kind == q.kind != Other && IsRefinement(older.terms, q.terms)
    requires EntryOk(c, volume, older, order, gen) && IsFiltered(out, c.hits, gen(c.generation), q, order) && |out| <= |c.hits|
    requires Trusted(gen(c.generation), q)
    ensures IsTop(AllIn(gen(c.generation), volume, q, order), CACHE_CAP, PlacedOf(out, volume))
  {
    hide AllIn, PlacedOf, AreHits, MatchesRefined, Matches, PathFaithful, WalkAgrees, IsRefinement;
    var v := gen(c.generation);
    if q.kind == PathTerms && |q.terms| > MAX_TERMS {
      NothingPastMax(c, volume, q, order, v, out);
    } else {
      FewerTerms(older, q);
      TrustedRechecks(v, older, q);
      TheoremFilterIsScan(c, volume, older, q, order, v, out);
    }
    FilteredAreHits(out, c.hits, v, q, order);
    PlacedSize(out, v, volume);
  }

  lemma FewerTerms(older: Query, q: Query)
    requires IsRefinement(older.terms, q.terms)
    ensures |older.terms| <= |q.terms|
  {
  }

  lemma FilteredAreHits(out: seq<Hit>, hits: seq<Hit>, v: View, q: Query, order: Order)
    requires IsView(v) && WellFormed(q) && AreHits(hits, v) && IsFiltered(out, hits, v, q, order)
    ensures AreHits(out, v)
  {
  }

  function PlacedList(hits: seq<Hit>, volume: nat): (list: seq<Placed>)
    ensures |list| == |hits| && forall k :: 0 <= k < |hits| ==> list[k] == Placed(hits[k].rank, volume, hits[k].record)
  {
    seq(|hits|, k requires 0 <= k < |hits| => Placed(hits[k].rank, volume, hits[k].record))
  }

  lemma MergedElements(merged: seq<Placed>, hits: seq<Hit>, volume: nat)
    ensures Elements(merged + PlacedList(hits, volume)) == Elements(merged) + PlacedOf(hits, volume)
  {
    forall x | x in PlacedOf(hits, volume) ensures x in PlacedList(hits, volume) {
      var h :| h in hits && x == Placed(h.rank, volume, h.record);
      var k :| 0 <= k < |hits| && hits[k] == h;
      assert PlacedList(hits, volume)[k] == x;
    }
    forall x | x in PlacedList(hits, volume) ensures x in PlacedOf(hits, volume) {
      var k :| 0 <= k < |hits| && PlacedList(hits, volume)[k] == x;
      assert hits[k] in hits;
    }
  }

  lemma VolumeSuffices(hits: seq<Hit>, v: View, volume: nat, q: Query, order: Order, scanLimit: nat, limit: nat)
    requires IsView(v) && WellFormed(q) && VolumeOk(hits, v, volume, q, order, scanLimit) && Trusted(v, q) && limit <= scanLimit
    ensures Suffices(PlacedOf(hits, volume), AllIn(v, volume, q, order), limit)
  {
    hide AllIn, PlacedOf, Trusted, AreHits, IsTop;
    TopSuffices(AllIn(v, volume, q, order), limit, scanLimit, PlacedOf(hits, volume));
  }

  /** Fewer hits than the scan could have kept are all there are. */
  lemma ShortIsComplete(hits: seq<Hit>, v: View, volume: nat, q: Query, order: Order, gen: nat -> View)
    requires IsView(v) && WellFormed(q) && VolumeOk(hits, v, volume, q, order, CACHE_CAP) && |hits| < CACHE_CAP
    requires gen(v.generation) == v
    ensures EntryOk(VolumeCandidates(v.generation, hits), volume, q, order, gen)
  {
    hide AllIn, PlacedOf, Trusted, AreHits;
    PlacedSize(hits, v, volume);
    if Trusted(v, q) {
      Smaller(PlacedOf(hits, volume), AllIn(v, volume, q, order));
    }
  }

  // ---- one request -----------------------------------------------------------------------

  /** The views presented on this connection: a generation names one view for good. */
  ghost predicate AreViews(views: seq<View>, gen: nat -> View) {
    forall i :: 0 <= i < |views| ==> IsView(views[i]) && gen(views[i].generation) == views[i]
  }

  ghost predicate AllTrusted(views: seq<View>, q: Query)
    requires forall i :: 0 <= i < |views| ==> IsView(views[i])
  {
    forall i :: 0 <= i < |views| ==> Trusted(views[i], q)
  }

  /** The best `cap` matches of each volume, put together. */
  ghost predicate IsCapped(some: set<Placed>, views: seq<View>, q: Query, order: Order, cap: nat)
    requires WellFormed(q) && forall k :: 0 <= k < |views| ==> IsView(views[k])
  {
    some <= AllMatches(views, q, order) && forall i: nat :: i < |views| ==> CappedIn(some, views, i, q, order, cap)
  }

  ghost predicate CappedIn(some: set<Placed>, views: seq<View>, i: nat, q: Query, order: Order, cap: nat)
    requires WellFormed(q) && i < |views| && forall k :: 0 <= k < |views| ==> IsView(views[k])
  {
    var all := AllIn(views[i], i, q, order);
    IsTop(all, cap, some * all)
  }

  /** A reply: the first `limit` of what each volume contributes when it is scanned to `cap`. */
  ghost predicate IsReply(answer: seq<Placed>, views: seq<View>, q: Query, order: Order, limit: nat, cap: nat)
    requires WellFormed(q) && forall k :: 0 <= k < |views| ==> IsView(views[k])
  {
    Lists(answer, Elements(answer)) && exists some :: IsCapped(some, views, q, order, cap) && IsTop(some, limit, Elements(answer))
  }

  /** What has been gathered from the first volumes. */
  ghost predicate Gathered(merged: seq<Placed>, views: seq<View>, i: nat, q: Query, order: Order, limit: nat, cap: nat)
    requires WellFormed(q) && i <= |views| && forall k :: 0 <= k < |views| ==> IsView(views[k])
  {
    AllTrusted(views, q) ==>
      && IsCapped(Elements(merged), views[..i], q, order, cap)
      && (limit <= cap ==> Suffices(Elements(merged), AllMatches(views[..i], q, order), limit))
  }

  lemma GatherStep(merged: seq<Placed>, hits: seq<Hit>, views: seq<View>, i: nat, q: Query, order: Order, limit: nat, cap: nat)
    requires WellFormed(q) && i < |views| && forall k :: 0 <= k < |views| ==> IsView(views[k])
    requires Gathered(merged, views, i, q, order, limit, cap) && VolumeOk(hits, views[i], i, q, order, cap)
    ensures Gathered(merged + PlacedList(hits, i), views, i + 1, q, order, limit, cap)
  {
    hide AllIn, PlacedOf, Elements, Suffices, Trusted, IsCapped, IsTop, AreHits;
    if AllTrusted(views, q) {
      assert views[..i + 1][..i] == views[..i];
      MergedElements(merged, hits, i);
      CappedStep(Elements(merged), PlacedOf(hits, i), views[..i + 1], q, order, cap);
      if limit <= cap {
        VolumeSuffices(hits, views[i], i, q, order, cap, limit);
        PartsSuffice(Elements(merged), AllMatches(views[..i], q, order), PlacedOf(hits, i), AllIn(views[i], i, q, order), limit);
      }
    }
  }

  /** Matches carry the number of their volume. */
  lemma {:induction false} MatchesOfVolumes(views: seq<View>, q: Query, order: Order)
    requires WellFormed(q) && forall k :: 0 <= k < |views| ==> IsView(views[k])
    ensures forall x :: x in AllMatches(views, q, order) ==> x.volume < |views|
    ensures forall i: nat, x: Placed :: i < |views| && x in AllIn(views[i], i, q, order) ==> x in AllMatches(views, q, order)
    ensures forall i: nat, x: Placed :: i < |views| && x.volume == i && x in AllMatches(views, q, order) ==> x in AllIn(views[i], i, q, order)
  {
    hide Matches, RankBits;
    if views != [] {
      var n := |views| - 1;
      MatchesOfVolumes(views[..n], q, order);
      forall i: nat, x: Placed | i < n && (x in AllIn(views[i], i, q, order) || x.volume == i)
        ensures x in AllIn(views[i], i, q, order) <==> x in AllIn(views[..n][i], i, q, order)
      {
      }
    }
  }

  lemma CappedStep(some: set<Placed>, part: set<Placed>, views: seq<View>, q: Query, order: Order, cap: nat)
    requires WellFormed(q) && views != [] && forall k :: 0 <= k < |views| ==> IsView(views[k])
    requires IsCapped(some, views[..|views| - 1], q, order, cap)
    requires IsTop(AllIn(views[|views| - 1], |views| - 1, q, order), cap, part)
    ensures IsCapped(some + part, views, q, order, cap)
  {
    hide AllIn, IsTop;
    var n := |views| - 1;
    MatchesOfVolumes(views[..n], q, order);
    MatchesOfVolumes(views, q, order);
    assert AllMatches(views, q, order) == AllMatches(views[..n], q, order) + AllIn(views[n], n, q, order);
    TopIsPart(AllIn(views[n], n, q, order), cap, part);
    forall i: nat | i < |views| ensures CappedIn(some + part, views, i, q, order, cap) {
      var all := AllIn(views[i], i, q, order);
      InVolume(views[i], i, q, order);
      InVolume(views[n], n, q, order);
      if i < n {
        assert CappedIn(some, views[..n], i, q, order, cap);
        MeetOther(some, part, all);
      } else {
        MeetOther(part, some, all);
        assert part + some == some + part && part * all == part;
      }
    }
  }

  lemma InVolume(v: View, volume: nat, q: Query, order: Order)
    requires IsView(v) && WellFormed(q)
    ensures forall x :: x in AllIn(v, volume, q, order) ==> x.volume == volume
  {
    hide Matches, RankBits;
  }

  lemma TopIsPart(all: set<Placed>, cap: nat, part: set<Placed>)
    requires IsTop(all, cap, part)
    ensures part <= all
  {
  }

  lemma MeetOther(some: set<Placed>, other: set<Placed>, all: set<Placed>)
    requires other !! all
    ensures (some + other) * all == some * all
  {
  }

  lemma GatherStarts(views: seq<View>, q: Query, order: Order, limit: nat, cap: nat)
    requires WellFormed(q) && forall k :: 0 <= k < |views| ==> IsView(views[k])
    ensures Gathered([], views, 0, q, order, limit, cap)
  {
  }

  lemma GatherDone(merged: seq<Placed>, top: seq<Placed>, views: seq<View>, q: Query, order: Order, limit: nat, cap: nat)
    requires WellFormed(q) && forall k :: 0 <= k < |views| ==> IsView(views[k])
    requires Gathered(merged, views, |views|, q, order, limit, cap)
    requires IsTop(Elements(merged), limit, Elements(top)) && Lists(top, Elements(top))
    ensures AllTrusted(views, q) ==> IsReply(top, views, q, order, limit, cap) && (limit <= cap ==> IsFresh(top, views, q, order, limit))
  {
    hide AllMatches, Suffices, IsTop, Lists, IsCapped;
    assert views[..|views|] == views;
    if AllTrusted(views, q) && limit <= cap {
      TheoremTopOfPart(Elements(merged), AllMatches(views, q, order), limit, Elements(top));
    }
  }

  /** A reply is the fresh one if and only if the fresh one takes no more than `cap` hits from any volume. */
  lemma TheoremCappedReply(answer: seq<Placed>, views: seq<View>, q: Query, order: Order, limit: nat, cap: nat, top: set<Placed>)
    requires WellFormed(q) && forall k :: 0 <= k < |views| ==> IsView(views[k])
    requires IsReply(answer, views, q, order, limit, cap) && IsTop(AllMatches(views, q, order), limit, top)
    ensures Elements(answer) == top <==> forall i: nat :: i < |views| ==> |top * AllIn(views[i], i, q, order)| <= cap
  {
    hide AllIn, AllMatches, Elements, Lists;
    var all := AllMatches(views, q, order);
    var some :| IsCapped(some, views, q, order, cap) && IsTop(some, limit, Elements(answer));
    MatchesOfVolumes(views, q, order);
    if Elements(answer) == top {
      forall i: nat | i < |views| ensures |top * AllIn(views[i], i, q, order)| <= cap {
        assert CappedIn(some, views, i, q, order, cap);
        Counting.Subset(top * AllIn(views[i], i, q, order), some * AllIn(views[i], i, q, order));
      }
    }
    if forall i: nat :: i < |views| ==> |top * AllIn(views[i], i, q, order)| <= cap {
      forall x | x in top ensures x in some {
        assert CappedIn(some, views, x.volume, q, order, cap);
        WithinCap(all, limit, top, AllIn(views[x.volume], x.volume, q, order), cap, some, x);
      }
      TopOfBetween(all, some, limit, top);
      TheoremTopIsUnique(some, limit, Elements(answer), top);
    }
  }

  /** A volume of 20,001 files, all called "a". */
  function CrowdedView(): View {
    View(1, seq(CACHE_CAP + 1, _ => [97]), seq(CACHE_CAP + 1, _ => true), (_, _) => false, (_, _) => false, (_, _) => false, (_, _) => 0)
  }

  lemma {:induction false} CrowdedMatches(order: Order, n: nat)
    requires n <= CACHE_CAP + 1
    ensures |AllBelow(CrowdedView(), 0, Query(Prefix, [[97]]), order, n)| == n
  {
    hide CrowdedView, RankBits;
    var v, q := CrowdedView(), Query(Prefix, [[97]]);
    CrowdedParts();
    CollectEnds(v, 0, q, order);
    if n > 0 {
      CrowdedMatches(order, n - 1);
      CollectStep(v, 0, q, order, n - 1);
    }
  }

  lemma CrowdedParts()
    ensures IsView(CrowdedView()) && |CrowdedView().names| == CACHE_CAP + 1
    ensures forall r: nat :: r <= CACHE_CAP ==> Matches(CrowdedView(), Query(Prefix, [[97]]), r)
  {
  }

  /** Asked for all of it, a connection that scans to 20,000 leaves one file out. */
  lemma LargeReplyIsCut(answer: seq<Placed>, order: Order)
    requires IsView(CrowdedView()) && IsReply(answer, [CrowdedView()], Query(Prefix, [[97]]), order, CACHE_CAP + 1, CACHE_CAP)
    ensures !IsFresh(answer, [CrowdedView()], Query(Prefix, [[97]]), order, CACHE_CAP + 1)
  {
    hide CrowdedView, AllIn, AllBelow, Elements, Lists;
    var v, q := CrowdedView(), Query(Prefix, [[97]]);
    CrowdedParts();
    CrowdedMatches(order, CACHE_CAP + 1);
    CollectEnds(v, 0, q, order);
    var all, none: seq<View> := AllIn(v, 0, q, order), [];
    assert [v][..0] == none;
    assert AllMatches([v], q, order) == all;
    var some :| IsCapped(some, [v], q, order, CACHE_CAP) && IsTop(some, CACHE_CAP + 1, Elements(answer));
    assert CappedIn(some, [v], 0, q, order, CACHE_CAP);
    assert some * all == some;
  }

  /** A request answered by scanning every volume. */
  method SearchIndexes(views: seq<View>, q: Query, order: Order, limit: nat, cancel: Cancellation, ghost gen: nat -> View)
    returns (answer: seq<Placed>)
    requires WellFormed(q) && AreViews(views, gen)
    modifies cancel
    ensures cancel.superseded || limit == 0 ||
      (AllTrusted(views, q) ==> IsReply(answer, views, q, order, limit, limit) && IsFresh(answer, views, q, order, limit))
    ensures old(cancel.superseded) || limit == 0 ==> answer == []
    ensures old(cancel.superseded) ==> cancel.superseded
  {
    hide IsView, AllIn, PlacedOf, Elements, Gathered, VolumeOk, IsTop, AreHits, IsFresh, IsReply, AllTrusted, Lists;
    var superseded := Poll(cancel);
    if limit == 0 || superseded {
      return [];
    }
    var merged: seq<Placed> := [];
    GatherStarts(views, q, order, limit, limit);
    for i := 0 to |views|
      invariant cancel.superseded || Gathered(merged, views, i, q, order, limit, limit)
    {
      superseded := Poll(cancel);
      if superseded {
        return [];
      }
      var hits := SearchHits(views[i], i, q, order, limit, cancel);
      if !SupersededGhost(cancel) {
        ScannedOk(hits, views[i], i, q, order, limit);
        GatherStep(merged, hits, views, i, q, order, limit, limit);
      }
      merged := merged + PlacedList(hits, i);
    }
    superseded := Poll(cancel);
    if superseded {
      return [];
    }
    answer := RankSortTruncate(merged, limit);
    GatherDone(merged, answer, views, q, order, limit, limit);
  }

  ghost function SupersededGhost(cancel: Cancellation): bool
    reads cancel
  {
    cancel.superseded
  }

  lemma ScannedOk(hits: seq<Hit>, v: View, volume: nat, q: Query, order: Order, limit: nat)
    requires IsView(v) && WellFormed(q) && AreHits(hits, v)
    requires IsTop(AllIn(v, volume, q, order), limit, PlacedOf(hits, volume))
    ensures VolumeOk(hits, v, volume, q, order, limit)
  {
    hide AllIn, PlacedOf, IsTop, AreHits, Trusted;
  }

  /** The entries collected from the first volumes of a request. */
  ghost predicate Collected(next: seq<Option<VolumeCandidates>>, i: nat, q: Query, order: Order, gen: nat -> View)
    requires WellFormed(q)
  {
    |next| == i && EntriesOk(next, q, order, gen)
  }

  lemma CollectEntry(next: seq<Option<VolumeCandidates>>, i: nat, entry: Option<VolumeCandidates>, q: Query, order: Order, gen: nat -> View)
    requires WellFormed(q) && Collected(next, i, q, order, gen) && (entry.Some? ==> EntryOk(entry.value, i, q, order, gen))
    ensures Collected(next + [entry], i + 1, q, order, gen)
  {
    hide EntryOk;
  }

  /** Whether the cache was filled by a broader query of the same kind under the same order. */
  function Refines(kind: Option<Kind>, cachedOrder: Order, cachedTerms: seq<Name>, q: Query, order: Order): bool {
    kind == Some(q.kind) && cachedOrder == order && IsRefinement(cachedTerms, q.terms)
  }

  /** How far each volume is scanned: beyond the limit once the connection has served a refinable query. */
  function ScanLimit(kind: Option<Kind>, q: Query, limit: nat): nat {
    if q.kind == Other || kind.None? then limit else CACHE_CAP
  }

  /** The reply of a scan to `cap`; up to that limit it is the fresh one. */
  ghost predicate IsReplyUpTo(answer: seq<Placed>, views: seq<View>, q: Query, order: Order, limit: nat, cap: nat)
    requires WellFormed(q) && forall k :: 0 <= k < |views| ==> IsView(views[k])
  {
    IsReply(answer, views, q, order, limit, cap) && (limit <= cap ==> IsFresh(answer, views, q, order, limit))
  }

  /**
   * search_indexes_with_cache_with_spans. The answer of a request that was not superseded is
   * that of a fresh scan, and whatever is left in the cache is complete.
   */
  method SearchWithCache(cache: RefinementCache, views: seq<View>, q: Query, order: Order, limit: nat, cancel: Cancellation,
                         ghost gen: nat -> View)
    returns (answer: seq<Placed>)
    requires cache.Valid(gen) && WellFormed(q) && AreViews(views, gen)
    modifies cancel, cache
    ensures cache.Valid(gen)
    ensures limit == 0 ==> answer == []
    ensures cancel.superseded || limit == 0 ||
      (AllTrusted(views, q) ==> IsReplyUpTo(answer, views, q, order, limit, ScanLimit(old(cache.kind), q, limit)))
    ensures cancel.superseded || limit == 0 || (old(cache.kind).Some? && q.kind != Other && limit > CACHE_CAP) ||
      (AllTrusted(views, q) ==> IsFresh(answer, views, q, order, limit))
    ensures old(cancel.superseded) ==> answer == [] && cache.perVolume == old(cache.perVolume) && cache.kind == old(cache.kind)
    ensures !cancel.superseded && limit > 0 ==> cache.lastReused + cache.lastScanned == |views|
    ensures !cancel.superseded && limit > 0 ==>
      cache.lastReused == FromMemory(old(cache.kind), old(cache.order), old(cache.terms), old(cache.perVolume), views, q, order)
    ensures !cancel.superseded && limit > 0 && q.kind != Other ==>
      && cache.kind == Some(q.kind) && cache.order == order && cache.terms == q.terms
      && AllRemembered(cache.perVolume, views, |views|, q, order, if old(cache.kind).Some? then CACHE_CAP else limit)
  {
    hide IsView, AllIn, PlacedOf, Elements, Gathered, VolumeOk, IsTop, AreHits, IsFresh, IsReply, AllTrusted, Lists, EntryOk, Collected, IsRefinement,
      AllRemembered, Remembers, Usable, Current, FromMemory;
    answer := [];
    cache.lastReused, cache.lastScanned := 0, 0;
    var superseded := Poll(cancel);
    if limit == 0 || superseded {
      return;
    }
    if q.kind == Other {
      NotFromMemory(cache.kind, cache.order, cache.terms, cache.perVolume, views, q, order);
      cache.lastScanned := |views|;
      answer := SearchIndexes(views, q, order, limit, cancel, gen);
      return;
    }
    ghost var older := Query(q.kind, cache.terms);
    var cached := Prepare(cache, views, q, order, gen);
    var scanLimit := if cache.kind.Some? then CACHE_CAP else limit;
    var merged, next, reused, scanned;
    superseded, merged, next, reused, scanned := CollectVolumes(views, q, order, limit, scanLimit, cached, cancel, older, gen);
    cache.lastReused, cache.lastScanned := reused, scanned;
    if superseded {
      return;
    }
    StoreCollected(next, |views|, q, order, gen);
    cache.kind := Some(q.kind);
    cache.order := order;
    cache.terms := q.terms;
    cache.perVolume := next;
    answer := RankSortTruncate(merged, limit);
    if !SupersededGhost(cancel) {
      GatherDone(merged, answer, views, q, order, limit, scanLimit);
    }
  }

  /** Drops the entries of anything but a broader query over as many volumes. */
  method Prepare(cache: RefinementCache, views: seq<View>, q: Query, order: Order, ghost gen: nat -> View)
    returns (cached: seq<Option<VolumeCandidates>>)
    requires cache.Valid(gen) && WellFormed(q) && q.kind != Other
    modifies cache`perVolume
    ensures cache.Valid(gen) && cached == cache.perVolume && |cached| == |views|
    ensures Usable(cached, Query(q.kind, cache.terms), q, order, gen)
    ensures (exists i :: 0 <= i < |cached| && cached[i].Some?) ==> cache.kind.Some?
    ensures Current(cached, views, |views|) == FromMemory(cache.kind, cache.order, cache.terms, old(cache.perVolume), views, q, order)
  {
    hide EntryOk, IsRefinement, Current;
    var refine := Refines(cache.kind, cache.order, cache.terms, q, order);
    if !refine || |cache.perVolume| != |views| {
      cache.perVolume := seq(|views|, _ => None);
      NoneCurrent(cache.perVolume, views, |views|);
    }
    cached := cache.perVolume;
    CachedEntries(cached, Query(q.kind, cache.terms), q, order, gen, refine);
  }

  ghost predicate Usable(cached: seq<Option<VolumeCandidates>>, older: Query, q: Query, order: Order, gen: nat -> View) {
    (exists i :: 0 <= i < |cached| && cached[i].Some?) ==>
      WellFormed(older) && older.kind == q.kind && IsRefinement(older.terms, q.terms) && EntriesOk(cached, older, order, gen)
  }

  lemma UsableEntry(cached: seq<Option<VolumeCandidates>>, i: nat, older: Query, q: Query, order: Order, gen: nat -> View)
    requires Usable(cached, older, q, order, gen) && i < |cached| && cached[i].Some?
    ensures WellFormed(older) && older.kind == q.kind && IsRefinement(older.terms, q.terms) && EntryOk(cached[i].value, i, older, order, gen)
  {
    hide EntryOk, IsRefinement;
  }

  /** The hits of all volumes, the entries to cache for them, and how many volumes were answered from `cached`. */
  method CollectVolumes(views: seq<View>, q: Query, order: Order, limit: nat, scanLimit: nat, cached: seq<Option<VolumeCandidates>>,
                        cancel: Cancellation, ghost older: Query, ghost gen: nat -> View)
    returns (superseded: bool, merged: seq<Placed>, next: seq<Option<VolumeCandidates>>, reused: nat, scanned: nat)
    requires WellFormed(q) && q.kind != Other && AreViews(views, gen) && |cached| == |views|
    requires Usable(cached, older, q, order, gen) && ((exists i :: 0 <= i < |cached| && cached[i].Some?) ==> scanLimit == CACHE_CAP)
    modifies cancel
    ensures old(cancel.superseded) ==> cancel.superseded
    ensures superseded ==> cancel.superseded
    ensures superseded || cancel.superseded || Gathered(merged, views, |views|, q, order, limit, scanLimit)
    ensures superseded || (Collected(next, |views|, q, order, gen) && AllRemembered(next, views, |views|, q, order, scanLimit))
    ensures superseded || (reused == Current(cached, views, |views|) && reused + scanned == |views|)
  {
    hide IsView, Gathered, VolumeOk, EntryOk, Collected, AllRemembered, Remembers, Usable, IsRefinement;
    superseded, merged, next, reused, scanned := false, [], [], 0, 0;
    GatherStarts(views, q, order, limit, scanLimit);
    NothingCollected(q, order, gen);
    NothingRemembered(views, q, order, scanLimit);
    for i := 0 to |views|
      invariant !cancel.superseded ==> Gathered(merged, views, i, q, order, limit, scanLimit)
      invariant old(cancel.superseded) ==> cancel.superseded
      invariant Collected(next, i, q, order, gen) && AllRemembered(next, views, i, q, order, scanLimit)
      invariant reused + scanned == i && reused == Current(cached, views, i)
    {
      superseded := Poll(cancel);
      if superseded {
        return;
      }
      if cached[i].Some? {
        UsableEntry(cached, i, older, q, order, gen);
      }
      var hits, entry, fromCache;
      superseded, hits, entry, fromCache := CollectVolume(views[i], i, q, order, scanLimit, cached[i], cancel, older, gen);
      if fromCache {
        reused := reused + 1;
      } else {
        scanned := scanned + 1;
      }
      if superseded {
        return;
      }
      GatherStep(merged, hits, views, i, q, order, limit, scanLimit);
      merged := merged + PlacedList(hits, i);
      CollectEntry(next, i, entry, q, order, gen);
      OneMoreRemembered(next, entry, views, i, q, order, scanLimit);
      next := next + [entry];
    }
  }

  /** One volume's hits, and the entry to cache for it: only a set scanned to the cap and short of it is complete. */
  method CollectVolume(v: View, volume: nat, q: Query, order: Order, scanLimit: nat, reusable: Option<VolumeCandidates>,
                       cancel: Cancellation, ghost older: Query, ghost gen: nat -> View)
    returns (superseded: bool, hits: seq<Hit>, entry: Option<VolumeCandidates>, reused: bool)
    requires IsView(v) && WellFormed(q) && q.kind != Other && gen(v.generation) == v
    requires reusable.Some? ==> WellFormed(older) && older.kind == q.kind && IsRefinement(older.terms, q.terms)
    requires reusable.Some? ==> EntryOk(reusable.value, volume, older, order, gen) && scanLimit == CACHE_CAP
    modifies cancel
    ensures old(cancel.superseded) ==> cancel.superseded
    ensures superseded ==> cancel.superseded
    ensures !superseded ==> VolumeOk(hits, v, volume, q, order, scanLimit)
    ensures !superseded && entry.Some? ==> EntryOk(entry.value, volume, q, order, gen)
    ensures !superseded ==> Remembers(entry, v, volume, q, order, scanLimit)
    ensures reused <==> reusable.Some? && reusable.value.generation == v.generation
  {
    hide IsView, VolumeOk, EntryOk, IsRefinement, Remembers;
    hits, reused := SearchVolume(v, volume, q, order, scanLimit, reusable, cancel, older, gen);
    entry := None;
    superseded := Poll(cancel);
    if !superseded && scanLimit == CACHE_CAP && |hits| < CACHE_CAP {
      ShortIsComplete(hits, v, volume, q, order, gen);
      entry := Some(VolumeCandidates(v.generation, hits));
    }
    if !superseded {
      ShortIsRemembered(hits, v, volume, q, order, scanLimit, entry);
    }
  }

  /** Once the cache is in use, a volume is remembered exactly if it has fewer matches than the cap. */
  ghost predicate Remembers(entry: Option<VolumeCandidates>, v: View, volume: nat, q: Query, order: Order, scanLimit: nat)
    requires IsView(v) && WellFormed(q)
  {
    && (entry.Some? ==> entry.value.generation == v.generation && scanLimit == CACHE_CAP)
    && (Trusted(v, q) && scanLimit == CACHE_CAP ==> (entry.Some? <==> |AllIn(v, volume, q, order)| < CACHE_CAP))
  }

  lemma ShortIsRemembered(hits: seq<Hit>, v: View, volume: nat, q: Query, order: Order, scanLimit: nat, entry: Option<VolumeCandidates>)
    requires IsView(v) && WellFormed(q) && VolumeOk(hits, v, volume, q, order, scanLimit)
    requires entry.Some? <==> scanLimit == CACHE_CAP && |hits| < CACHE_CAP
    requires entry.Some? ==> entry.value.generation == v.generation
    ensures Remembers(entry, v, volume, q, order, scanLimit)
  {
    hide AllIn, PlacedOf, Trusted, AreHits;
    PlacedSize(hits, v, volume);
  }

  /** Of the first `n` volumes, how many still are at the generation they are remembered at. */
  ghost function Current(entries: seq<Option<VolumeCandidates>>, views: seq<View>, n: nat): nat
    requires n <= |entries| && n <= |views|
  {
    if n == 0 then 0
    else Current(entries, views, n - 1) + (if IsCurrent(entries[n - 1], views[n - 1]) then 1 else 0)
  }

  predicate IsCurrent(entry: Option<VolumeCandidates>, v: View) {
    entry.Some? && entry.value.generation == v.generation
  }

  /** The volumes answered without a scan: for a refinement of the last request, those that have not changed. */
  ghost function FromMemory(kind: Option<Kind>, cachedOrder: Order, cachedTerms: seq<Name>, entries: seq<Option<VolumeCandidates>>,
                            views: seq<View>, q: Query, order: Order): nat
  {
    if q.kind != Other && kind == Some(q.kind) && cachedOrder == order && IsRefinement(cachedTerms, q.terms) && |entries| == |views|
    then Current(entries, views, |views|)
    else 0
  }

  /**
   * After an answered request on a warm cache, a refinement of it over unchanged volumes,
   * each with fewer matches than the cap, scans none of them.
   */
  lemma {:induction false} TheoremRefinementScansNothing(entries: seq<Option<VolumeCandidates>>, views: seq<View>, older: Query, q: Query, order: Order)
    requires WellFormed(older) && forall i :: 0 <= i < |views| ==> IsView(views[i])
    requires AllRemembered(entries, views, |views|, older, order, CACHE_CAP) && AllTrusted(views, older)
    requires forall i: nat :: i < |views| ==> |AllIn(views[i], i, older, order)| < CACHE_CAP
    requires q.kind == older.kind != Other && IsRefinement(older.terms, q.terms)
    ensures FromMemory(Some(older.kind), order, older.terms, entries, views, q, order) == |views|
  {
    hide IsView, AllIn, Trusted, IsRefinement;
    AllCurrent(entries, views, |views|);
  }

  lemma {:induction false} AllCurrent(entries: seq<Option<VolumeCandidates>>, views: seq<View>, n: nat)
    requires n <= |entries| && n <= |views| && forall i :: 0 <= i < n ==> IsCurrent(entries[i], views[i])
    ensures Current(entries, views, n) == n
  {
    if n > 0 {
      AllCurrent(entries, views, n - 1);
    }
  }

  lemma NotFromMemory(kind: Option<Kind>, cachedOrder: Order, cachedTerms: seq<Name>, entries: seq<Option<VolumeCandidates>>,
                      views: seq<View>, q: Query, order: Order)
    requires q.kind == Other
    ensures FromMemory(kind, cachedOrder, cachedTerms, entries, views, q, order) == 0
  {
  }

  lemma {:induction false} NoneCurrent(entries: seq<Option<VolumeCandidates>>, views: seq<View>, n: nat)
    requires n <= |entries| && n <= |views| && forall i :: 0 <= i < n ==> entries[i].None?
    ensures Current(entries, views, n) == 0
  {
    if n > 0 {
      NoneCurrent(entries, views, n - 1);
    }
  }

  /** Every volume of the request is remembered, or not, as it should be. */
  ghost predicate AllRemembered(entries: seq<Option<VolumeCandidates>>, views: seq<View>, n: nat, q: Query, order: Order, scanLimit: nat)
    requires WellFormed(q) && n <= |views| && forall k :: 0 <= k < |views| ==> IsView(views[k])
  {
    |entries| == n && forall i: nat :: i < n ==> Remembers(entries[i], views[i], i, q, order, scanLimit)
  }

  lemma OneMoreRemembered(entries: seq<Option<VolumeCandidates>>, entry: Option<VolumeCandidates>, views: seq<View>, n: nat,
                          q: Query, order: Order, scanLimit: nat)
    requires WellFormed(q) && n < |views| && forall k :: 0 <= k < |views| ==> IsView(views[k])
    requires AllRemembered(entries, views, n, q, order, scanLimit) && Remembers(entry, views[n], n, q, order, scanLimit)
    ensures AllRemembered(entries + [entry], views, n + 1, q, order, scanLimit)
  {
    hide Remembers, IsView;
  }

  lemma CachedEntries(cached: seq<Option<VolumeCandidates>>, older: Query, q: Query, order: Order, gen: nat -> View, refine: bool)
    requires refine ==> WellFormed(older) && older.kind == q.kind && IsRefinement(older.terms, q.terms) && EntriesOk(cached, older, order, gen)
    requires !refine ==> forall i :: 0 <= i < |cached| ==> cached[i].None?
    ensures Usable(cached, older, q, order, gen)
  {
  }

  lemma NothingRemembered(views: seq<View>, q: Query, order: Order, scanLimit: nat)
    requires WellFormed(q) && forall k :: 0 <= k < |views| ==> IsView(views[k])
    ensures AllRemembered([], views, 0, q, order, scanLimit)
  {
  }

  lemma NothingCollected(q: Query, order: Order, gen: nat -> View)
    requires WellFormed(q)
    ensures Collected([], 0, q, order, gen)
  {
  }

  lemma StoreCollected(next: seq<Option<VolumeCandidates>>, i: nat, q: Query, order: Order, gen: nat -> View)
    requires WellFormed(q) && Collected(next, i, q, order, gen)
    ensures q == Query(q.kind, q.terms) && EntriesOk(next, q, order, gen)
  {
  }

  // ---- a connection ----------------------------------------------------------------------

  /** One request of a connection, with the views it will load. */
  datatype Request = Request(views: seq<View>, q: Query, order: Order, limit: nat)

  datatype Reply = Reply(answer: seq<Placed>, superseded: bool)

  /**
   * A reply that was not superseded is what every volume contributes to its scan limit, and
   * the fresh reply, the only one, wherever the cache can hold the limit.
   */
  ghost predicate ReplyOk(reply: Reply, r: Request, gen: nat -> View)
    requires WellFormed(r.q) && AreViews(r.views, gen)
  {
    reply.superseded || r.limit == 0 ||
    (AllTrusted(r.views, r.q) ==>
       && (|| IsReply(reply.answer, r.views, r.q, r.order, r.limit, r.limit)
           || IsReply(reply.answer, r.views, r.q, r.order, r.limit, CACHE_CAP))
       && (r.limit <= CACHE_CAP ==> IsTheFreshReply(reply.answer, r)))
  }

  ghost predicate IsTheFreshReply(answer: seq<Placed>, r: Request)
    requires WellFormed(r.q) && forall k :: 0 <= k < |r.views| ==> IsView(r.views[k])
  {
    forall other :: IsFresh(other, r.views, r.q, r.order, r.limit) <==> other == answer
  }

  lemma OnlyFreshReply(answer: seq<Placed>, r: Request)
    requires WellFormed(r.q) && forall k :: 0 <= k < |r.views| ==> IsView(r.views[k])
    requires IsFresh(answer, r.views, r.q, r.order, r.limit)
    ensures IsTheFreshReply(answer, r)
  {
    hide IsFresh;
    forall other | IsFresh(other, r.views, r.q, r.order, r.limit) ensures other == answer {
      FreshIsUnique(other, answer, r.views, r.q, r.order, r.limit);
    }
  }

  lemma RequestAnswered(answer: seq<Placed>, superseded: bool, r: Request, kind: Option<Kind>, gen: nat -> View)
    requires WellFormed(r.q) && AreViews(r.views, gen)
    requires superseded || r.limit == 0 ||
      (AllTrusted(r.views, r.q) ==> IsReplyUpTo(answer, r.views, r.q, r.order, r.limit, ScanLimit(kind, r.q, r.limit)))
    ensures ReplyOk(Reply(answer, superseded), r, gen)
  {
    hide IsFresh, IsReply, AllTrusted, IsTheFreshReply;
    if !superseded && r.limit > 0 && AllTrusted(r.views, r.q) && r.limit <= CACHE_CAP {
      OnlyFreshReply(answer, r);
    }
  }

  /** Transparency: over any sequence of requests and view swaps, every reply that was not superseded is a fresh scan's. */
  method Connection(requests: seq<Request>, ghost gen: nat -> View) returns (replies: seq<Reply>)
    requires forall k :: 0 <= k < |requests| ==> WellFormed(requests[k].q) && AreViews(requests[k].views, gen)
    ensures |replies| == |requests| && forall k :: 0 <= k < |requests| ==> ReplyOk(replies[k], requests[k], gen)
  {
    hide IsFresh, AllTrusted, EntriesOk, ReplyOk, IsReplyUpTo;
    var cache := new RefinementCache(gen);
    replies := [];
    for k := 0 to |requests|
      invariant cache.Valid(gen) && fresh(cache)
      invariant |replies| == k && forall j :: 0 <= j < k ==> ReplyOk(replies[j], requests[j], gen)
    {
      var cancel := new Cancellation();
      var r := requests[k];
      ghost var kind := cache.kind;
      var answer := SearchWithCache(cache, r.views, r.q, r.order, r.limit, cancel, gen);
      RequestAnswered(answer, cancel.superseded, r, kind, gen);
      replies := replies + [Reply(answer, cancel.superseded)];
    }
  }
}
