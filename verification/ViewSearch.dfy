/** One view searched: base hits and additions, ranked together (view.rs, view/ranked.rs). */
module ViewSearch {
  import opened Records
  import opened Ascii
  import opened Cancel
  import opened DeltaState
  import opened Names
  import opened PathDelta
  import opened PathRank
  import opened PathSeed
  import opened PathWorld
  import opened TopK
  import opened TopSet
  import PathSearch
  import PathTerms
  import Q = Query
  import R = RefinementCache
  import Ranked
  import opened RefineWalk

  // ---- the keys of a view ------------------------------------------------------------------

  function Packed(rank: nat, record: nat): Key {
    rank * U32 + record
  }

  /** The keys of the matches among the records below `n`. */
  ghost function ViewKeys(v: R.View, q: R.Query, order: Order, n: nat): multiset<Key>
    requires R.IsView(v) && R.WellFormed(q) && n <= |v.names|
  {
    if n == 0 then multiset{} else ViewKeys(v, q, order, n - 1) + ViewKey(v, q, order, n - 1)
  }

  ghost function ViewKey(v: R.View, q: R.Query, order: Order, r: nat): multiset<Key>
    requires R.IsView(v) && R.WellFormed(q) && r < |v.names|
  {
    if R.Matches(v, q, r) then multiset{Packed(R.RankBits(v, q, order, r), r)} else multiset{}
  }

  ghost predicate IsViewKey(v: R.View, q: R.Query, order: Order, n: nat, key: Key)
    requires R.IsView(v) && R.WellFormed(q) && n <= |v.names|
  {
    var r := KeyRecord(key);
    r < n && R.Matches(v, q, r) && key == Packed(R.RankBits(v, q, order, r), r)
  }

  /** Every match has one key of its own. */
  lemma {:induction false} ViewKeysAre(v: R.View, q: R.Query, order: Order, n: nat, key: Key)
    requires R.IsView(v) && R.WellFormed(q) && n <= |v.names| <= U32
    ensures ViewKeys(v, q, order, n)[key] == if IsViewKey(v, q, order, n, key) then 1 else 0
  {
    hide IsViewKey, ViewKey;
    if n > 0 {
      ViewKeysAre(v, q, order, n - 1, key);
      ViewKeyIs(v, q, order, n - 1, key);
    } else {
      NoViewKey(v, q, order, key);
    }
  }

  lemma NoViewKey(v: R.View, q: R.Query, order: Order, key: Key)
    requires R.IsView(v) && R.WellFormed(q)
    ensures !IsViewKey(v, q, order, 0, key)
  {
  }

  lemma ViewKeyIs(v: R.View, q: R.Query, order: Order, r: nat, key: Key)
    requires R.IsView(v) && R.WellFormed(q) && r < |v.names| <= U32
    ensures IsViewKey(v, q, order, r, key) ==> ViewKey(v, q, order, r)[key] == 0
    ensures ViewKey(v, q, order, r)[key] == if IsViewKey(v, q, order, r + 1, key) && !IsViewKey(v, q, order, r, key) then 1 else 0
    ensures IsViewKey(v, q, order, r, key) ==> IsViewKey(v, q, order, r + 1, key)
  {
    hide R.Matches, R.RankBits, KeyRecord, Packed;
    KeyNames(R.RankBits(v, q, order, r), r);
  }

  lemma KeyNames(rank: nat, r: nat)
    requires r < U32
    ensures KeyRecord(Packed(rank, r)) == r && KeyRankBits(Packed(rank, r)) == rank
  {
    PackedParts(rank, r);
  }

  lemma {:induction false} ViewKeysSize(v: R.View, volume: nat, q: R.Query, order: Order, n: nat)
    requires R.IsView(v) && R.WellFormed(q) && n <= |v.names|
    ensures |ViewKeys(v, q, order, n)| == |R.AllBelow(v, volume, q, order, n)|
  {
    hide *;
    if n > 0 {
      var r := n - 1;
      ViewKeysSize(v, volume, q, order, r);
      ViewKeysStep(v, q, order, r);
      SizeOfSum(ViewKeys(v, q, order, r), ViewKey(v, q, order, r));
      R.CollectStep(v, volume, q, order, r);
      OneViewKey(v, q, order, r);
      RecordsBelow(v, volume, q, order, r);
      OneMore(R.AllBelow(v, volume, q, order, r), Placed(R.RankBits(v, q, order, r), volume, r));
    } else {
      R.CollectEnds(v, volume, q, order);
      NoViewKeysYet(v, q, order);
    }
  }

  lemma NoViewKeysYet(v: R.View, q: R.Query, order: Order)
    requires R.IsView(v) && R.WellFormed(q)
    ensures ViewKeys(v, q, order, 0) == multiset{}
  {
  }

  lemma OneViewKey(v: R.View, q: R.Query, order: Order, r: nat)
    requires R.IsView(v) && R.WellFormed(q) && r < |v.names|
    ensures |ViewKey(v, q, order, r)| == if R.Matches(v, q, r) then 1 else 0
  {
    hide R.Matches;
  }

  lemma RecordsBelow(v: R.View, volume: nat, q: R.Query, order: Order, n: nat)
    requires R.IsView(v) && R.WellFormed(q) && n <= |v.names|
    ensures forall x :: x in R.AllBelow(v, volume, q, order, n) ==> x.record < n
  {
    hide R.Matches, R.RankBits;
  }

  lemma OneMore(all: set<Placed>, x: Placed)
    ensures x !in all ==> |all + {x}| == |all| + 1
    ensures all + {} == all
  {
  }

  lemma SizeOfSum(a: multiset<Key>, b: multiset<Key>)
    ensures |a + b| == |a| + |b|
  {
  }

  function HitsOf(keys: seq<Key>): (hits: seq<R.Hit>)
    ensures |hits| == |keys| && forall k :: 0 <= k < |keys| ==> hits[k] == R.Hit(KeyRecord(keys[k]), KeyRankBits(keys[k]))
  {
    seq(|keys|, k requires 0 <= k < |keys| => R.Hit(KeyRecord(keys[k]), KeyRankBits(keys[k])))
  }

  /** Keys taken from those of a view. */
  ghost predicate AreKeys(keys: seq<Key>, v: R.View, q: R.Query, order: Order)
    requires R.IsView(v) && R.WellFormed(q)
  {
    multiset(keys) <= ViewKeys(v, q, order, |v.names|)
  }

  lemma KeysAreDistinct(keys: seq<Key>, v: R.View, q: R.Query, order: Order)
    requires R.IsView(v) && R.WellFormed(q) && |v.names| <= U32 && AreKeys(keys, v, q, order)
    ensures forall k :: 0 <= k < |keys| ==> IsViewKey(v, q, order, |v.names|, keys[k])
    ensures forall k, l :: 0 <= k < l < |keys| ==> KeyRecord(keys[k]) != KeyRecord(keys[l])
  {
    hide IsViewKey, ViewKeys;
    forall k | 0 <= k < |keys| ensures IsViewKey(v, q, order, |v.names|, keys[k]) {
      assert keys[k] in multiset(keys);
      ViewKeysAre(v, q, order, |v.names|, keys[k]);
    }
    forall k, l | 0 <= k < l < |keys| ensures KeyRecord(keys[k]) != KeyRecord(keys[l]) {
      ViewKeysAre(v, q, order, |v.names|, keys[k]);
      if keys[k] == keys[l] {
        Twice(keys, k, l);
      } else {
        OneKeyEach(v, q, order, keys[k], keys[l]);
      }
    }
  }

  lemma OneKeyEach(v: R.View, q: R.Query, order: Order, a: Key, b: Key)
    requires R.IsView(v) && R.WellFormed(q) && IsViewKey(v, q, order, |v.names|, a) && IsViewKey(v, q, order, |v.names|, b)
    ensures KeyRecord(a) == KeyRecord(b) ==> a == b
  {
    hide R.Matches, R.RankBits, KeyRecord, Packed;
  }

  lemma Twice(keys: seq<Key>, k: nat, l: nat)
    requires k < l < |keys| && keys[k] == keys[l]
    ensures multiset(keys)[keys[k]] >= 2
  {
    var a, b, c := keys[..k], keys[k + 1..l], keys[l + 1..];
    assert keys == a + [keys[k]] + b + [keys[l]] + c;
  }

  lemma HitsAreHits(keys: seq<Key>, v: R.View, q: R.Query, order: Order)
    requires R.IsView(v) && R.WellFormed(q) && |v.names| <= U32 && AreKeys(keys, v, q, order)
    ensures R.AreHits(HitsOf(keys), v)
  {
    hide R.RankBits, ViewKeys, KeyRankBits, Packed;
    KeysAreDistinct(keys, v, q, order);
    forall k | 0 <= k < |keys| ensures v.live[KeyRecord(keys[k])] {
      R.MatchIsLive(v, q, KeyRecord(keys[k]));
    }
  }

  lemma InAllIn(v: R.View, volume: nat, q: R.Query, order: Order, key: Key)
    requires R.IsView(v) && R.WellFormed(q) && |v.names| <= U32 && IsViewKey(v, q, order, |v.names|, key)
    ensures Placed(KeyRankBits(key), volume, KeyRecord(key)) in R.AllIn(v, volume, q, order)
  {
    hide R.Matches, R.RankBits;
    KeyNames(R.RankBits(v, q, order, KeyRecord(key)), KeyRecord(key));
  }

  lemma KeyOfPlaced(v: R.View, volume: nat, q: R.Query, order: Order, x: Placed)
    requires R.IsView(v) && R.WellFormed(q) && |v.names| <= U32 && x in R.AllIn(v, volume, q, order)
    ensures IsViewKey(v, q, order, |v.names|, Packed(x.rank, x.record)) && x.volume == volume && x.record < U32
  {
    hide R.Matches, R.RankBits;
    KeyNames(x.rank, x.record);
  }

  /** The best keys of a view are the best of its matches. */
  lemma TheoremBestIsTop(keys: seq<Key>, v: R.View, volume: nat, q: R.Query, order: Order, limit: nat)
    requires R.IsView(v) && R.WellFormed(q) && |v.names| <= U32
    requires IsBest(ViewKeys(v, q, order, |v.names|), limit, multiset(keys))
    ensures R.AreHits(HitsOf(keys), v)
    ensures IsTop(R.AllIn(v, volume, q, order), limit, R.PlacedOf(HitsOf(keys), volume))
  {
    hide ViewKeys, IsViewKey, R.AllIn, R.AllBelow, R.PlacedOf, R.AreHits, KeyRecord, KeyRankBits, Before;
    var all, top := R.AllIn(v, volume, q, order), R.PlacedOf(HitsOf(keys), volume);
    HitsAreHits(keys, v, q, order);
    R.PlacedSize(HitsOf(keys), v, volume);
    ViewKeysSize(v, volume, q, order, |v.names|);
    R.CollectEnds(v, volume, q, order);
    KeysAreDistinct(keys, v, q, order);
    forall x | x in top ensures x in all && Packed(x.rank, x.record) in multiset(keys) {
      var k := PlacedFrom(keys, volume, x);
      InAllIn(v, volume, q, order, keys[k]);
      KeySplits(keys[k]);
    }
    forall x, y | x in top && y in all - top ensures Before(x, y) {
      KeyOfPlaced(v, volume, q, order, x);
      KeyOfPlaced(v, volume, q, order, y);
      var key := Packed(y.rank, y.record);
      ViewKeysAre(v, q, order, |v.names|, key);
      if key in multiset(keys) {
        PlacedTo(keys, volume, y);
      }
      assert key in ViewKeys(v, q, order, |v.names|) - multiset(keys);
      SmallerKeyFirst(x, y);
    }
  }

  lemma KeySplits(key: Key)
    ensures Packed(KeyRankBits(key), KeyRecord(key)) == key
  {
  }

  lemma PlacedFrom(keys: seq<Key>, volume: nat, x: Placed) returns (k: nat)
    requires x in R.PlacedOf(HitsOf(keys), volume)
    ensures k < |keys| && x == Placed(KeyRankBits(keys[k]), volume, KeyRecord(keys[k]))
  {
    hide KeyRankBits, KeyRecord;
    var h :| h in HitsOf(keys) && x == Placed(h.rank, volume, h.record);
    k :| 0 <= k < |keys| && HitsOf(keys)[k] == h;
  }

  lemma PlacedTo(keys: seq<Key>, volume: nat, y: Placed)
    requires Packed(y.rank, y.record) in multiset(keys) && y.record < U32 && y.volume == volume
    ensures y in R.PlacedOf(HitsOf(keys), volume)
  {
    KeyNames(y.rank, y.record);
    hide KeyRankBits, KeyRecord, Packed;
    var k :| 0 <= k < |keys| && keys[k] == Packed(y.rank, y.record);
    assert HitsOf(keys)[k] in HitsOf(keys);
  }

  lemma SmallerKeyFirst(x: Placed, y: Placed)
    requires x.volume == y.volume && x.record < U32 && y.record < U32 && x != y
    requires Packed(x.rank, x.record) <= Packed(y.rank, y.record)
    ensures Before(x, y)
  {
    PackedOrder(x.rank, x.record, y.rank, y.record);
    PackedOrder(y.rank, y.record, x.rank, x.record);
  }

  // ---- names -------------------------------------------------------------------------------

  /** match_quality. */
  function NameQuality(query: Q.Query, name: Name): nat {
    match query
    case Prefix(pattern) => R.PatternQuality(pattern, name)
    case Substring(pattern) => R.PatternQuality(pattern, name)
    case Regex(_) => 2
  }

  /** sort_key on columns that fit. */
  function NameKey(order: Order, cols: Columns, record: nat, quality: nat, nameLen: nat): Key {
    if cols.mtime(record) < U32 && cols.sizeKib(record) < U32 then SortKey(order, cols, record, quality, nameLen) else 0
  }

  function NameRanking(query: Q.Query, tombs: set<nat>, cols: Columns, order: Order): Ranked.Ranking {
    Ranked.Ranking(r => r !in tombs, order == Relevance, name => NameQuality(query, name),
                   (r, quality, nameLen) => NameKey(order, cols, r, quality, nameLen))
  }

  /** The keys of the first `k` additions that match by name. */
  ghost function AddedNameKeys(query: Q.Query, test: Name -> bool, cols: Columns, order: Order, base: nat, added: seq<DeltaRecord>, k: nat): multiset<Key>
    requires k <= |added|
  {
    if k == 0 then multiset{}
    else AddedNameKeys(query, test, cols, order, base, added, k - 1) + AddedNameKey(query, test, cols, order, base, added, k - 1)
  }

  ghost function AddedNameKey(query: Q.Query, test: Name -> bool, cols: Columns, order: Order, base: nat, added: seq<DeltaRecord>, i: nat): multiset<Key>
    requires i < |added|
  {
    if added[i].live && test(added[i].name)
    then multiset{NameKey(order, cols, base + i, NameQuality(query, added[i].name), |added[i].name|)} else multiset{}
  }

  /** What a search by name offers: the live base hits and the matching additions. */
  ghost function NameKeys(names: seq<Name>, query: Q.Query, test: Name -> bool, tombs: set<nat>, cols: Columns, order: Order, added: seq<DeltaRecord>): multiset<Key> {
    Ranked.AllKeys(names, test, NameRanking(query, tombs, cols, order))
    + AddedNameKeys(query, test, cols, order, |names|, added, |added|)
  }

  /** The prefix arm: every hit of the range, its name decoded only for relevance. */
  method RankPrefix(ix: Q.Index, query: Q.Query, test: Name -> bool, rk: Ranked.Ranking, limit: nat, cancel: Cancellation?, ghost names: seq<Name>)
    returns (heap: BinaryHeap)
    requires Q.IsIndex(ix, names) && Sorted(names) && Q.Decides(query, test) && query.Prefix?
    modifies Flag(cancel)
    ensures fresh(heap)
    ensures IsBest(Ranked.AllKeys(names, test, rk), limit, heap.keys) || (Superseded(cancel) && heap.keys == multiset{})
  {
    hide Q.IsIndex, Sorted, Q.Decides, IsBest, Codes, Q.AreFirst, Q.Take, Q.Cap, Q.Hits, Ranked.KeysOf, Ranked.AllKeys;
    Q.IndexParts(ix, names);
    var hits := Q.SearchBase(ix, query, test, ix.nb.n, cancel, names);
    heap := new BinaryHeap();
    NothingBest(limit);
    AllTaken(names, test, query, ix.nb.n);
    Ranked.HitsInRange(names, test, 0, |names|);
    assert hits == Q.AllHits(names, test) || (Superseded(cancel) && hits == []);
    KeysOfAll(names, test, rk);
    assert hits[..0] == [];
    for k := 0 to |hits|
      invariant IsBest(Ranked.KeysOf(names, rk, hits[..k]), limit, heap.keys)
      invariant hits == Q.AllHits(names, test) || (Superseded(cancel) && hits == [])
    {
      ghost var seen := Ranked.KeysOf(names, rk, hits[..k]);
      KeysOfStep(names, rk, hits, k);
      if rk.live(hits[k]) {
        var key := rk.key(hits[k], 0, 0);
        if rk.needsName {
          var name := NameInto(ix.nb, hits[k], names);
          key := rk.key(hits[k], rk.quality(name), |name|);
        }
        RetainHit(heap, key, limit, seen);
      }
    }
    assert hits[..|hits|] == hits;
    OnlyNothing(limit, heap.keys);
  }

  lemma KeysOfAll(names: seq<Name>, test: Name -> bool, rk: Ranked.Ranking)
    ensures forall i :: 0 <= i < |Q.AllHits(names, test)| ==> Q.AllHits(names, test)[i] < |names|
    ensures Ranked.AllKeys(names, test, rk) == Ranked.KeysOf(names, rk, Q.AllHits(names, test))
    ensures Ranked.KeysOf(names, rk, []) == multiset{}
  {
    Ranked.HitsInRange(names, test, 0, |names|);
  }

  lemma OnlyNothing(limit: nat, kept: multiset<Key>)
    ensures IsBest(multiset{}, limit, kept) ==> kept == multiset{}
  {
  }

  lemma NothingBest(limit: nat)
    ensures IsBest(multiset{}, limit, multiset{})
  {
  }

  lemma AllTaken(names: seq<Name>, test: Name -> bool, query: Q.Query, n: nat)
    requires n == |names| && query.Prefix?
    ensures Q.Take(Q.AllHits(names, test), Q.Cap(query, n)) == Q.AllHits(names, test)
  {
    HitsFew(names, test, n);
  }

  lemma {:induction false} HitsFew(names: seq<Name>, test: Name -> bool, hi: nat)
    requires hi <= |names|
    ensures |Q.Hits(names, test, 0, hi)| <= hi
  {
    if hi > 0 {
      HitsFew(names, test, hi - 1);
    }
  }

  lemma KeysOfStep(names: seq<Name>, rk: Ranked.Ranking, hits: seq<nat>, k: nat)
    requires k < |hits| && forall i :: 0 <= i < |hits| ==> hits[i] < |names|
    ensures Ranked.KeysOf(names, rk, hits[..k + 1]) == Ranked.KeysOf(names, rk, hits[..k]) +
      if rk.live(hits[k]) then multiset{Ranked.KeyFor(rk, hits[k], names[hits[k]])} else multiset{}
    ensures !rk.live(hits[k]) ==> Ranked.KeysOf(names, rk, hits[..k + 1]) == Ranked.KeysOf(names, rk, hits[..k])
  {
    assert hits[..k + 1][..k] == hits[..k];
  }

  /** Every live addition whose name matches is offered. */
  method OfferNames(query: Q.Query, test: Name -> bool, cols: Columns, order: Order, base: nat, added: seq<DeltaRecord>,
                    limit: nat, heap: BinaryHeap, ghost all: multiset<Key>)
    requires IsBest(all, limit, heap.keys)
    modifies heap
    ensures IsBest(all + AddedNameKeys(query, test, cols, order, base, added, |added|), limit, heap.keys)
  {
    hide IsBest, NameKey, NameQuality;
    assert all + multiset{} == all;
    for i := 0 to |added|
      invariant IsBest(all + AddedNameKeys(query, test, cols, order, base, added, i), limit, heap.keys)
    {
      ghost var seen := AddedNameKeys(query, test, cols, order, base, added, i);
      Grouped(all + seen, seen, seen);
      Grouped(all, seen, AddedNameKey(query, test, cols, order, base, added, i));
      if added[i].live && test(added[i].name) {
        var key := NameKey(order, cols, base + i, NameQuality(query, added[i].name), |added[i].name|);
        RetainHit(heap, key, limit, all + seen);
      }
    }
  }

  lemma Grouped(a: multiset<Key>, b: multiset<Key>, c: multiset<Key>)
    ensures a + (b + c) == a + b + c
    ensures a + multiset{} == a
  {
  }

  /** search_ranked_cancellable_with_spans, best first. A superseded search may lack the base hits. */
  method SearchNames(ix: Q.Index, query: Q.Query, test: Name -> bool, tombs: set<nat>, cols: Columns, order: Order,
                     added: seq<DeltaRecord>, limit: nat, threads: nat, cancel: Cancellation?, ghost names: seq<Name>)
    returns (keys: seq<Key>)
    requires Q.IsIndex(ix, names) && Sorted(names) && Q.Decides(query, test)
    modifies Flag(cancel)
    ensures forall i, j :: 0 <= i < j < |keys| ==> keys[i] <= keys[j]
    ensures multiset(keys) <= NameKeys(names, query, test, tombs, cols, order, added)
    ensures old(Superseded(cancel)) ==> keys == []
    ensures IsBest(NameKeys(names, query, test, tombs, cols, order, added), limit, multiset(keys)) || Superseded(cancel)
  {
    hide Q.IsIndex, Sorted, Q.Decides, IsBest, AddedNameKeys, Ranked.AllKeys;
    ghost var all := NameKeys(names, query, test, tombs, cols, order, added);
    if limit == 0 {
      NoneBest(all);
      return [];
    }
    var superseded := Poll(cancel);
    if superseded {
      return [];
    }
    Q.IndexParts(ix, names);
    IndexSize(ix, names);
    var rk := NameRanking(query, tombs, cols, order);
    var heap;
    if query.Prefix? {
      heap := RankPrefix(ix, query, test, rk, limit, cancel, names);
    } else {
      heap := Ranked.SearchRankedStreaming(ix, query, test, rk, limit, threads, cancel, names);
    }
    ghost var offered := if IsBest(Ranked.AllKeys(names, test, rk), limit, heap.keys) then Ranked.AllKeys(names, test, rk) else multiset{};
    NothingBest(limit);
    OfferNames(query, test, cols, order, ix.nb.n, added, limit, heap, offered);
    BestIsPart(offered + AddedNameKeys(query, test, cols, order, |names|, added, |added|), limit, heap.keys);
    keys := DrainHeap(heap);
  }

  lemma IndexSize(ix: Q.Index, names: seq<Name>)
    requires Q.IsIndex(ix, names)
    ensures ix.nb.n == |names|
  {
    Q.IndexParts(ix, names);
  }

  lemma NoneBest(all: multiset<Key>)
    ensures IsBest(all, 0, multiset{})
  {
  }

  lemma BestIsPart(all: multiset<Key>, limit: nat, kept: multiset<Key>)
    requires IsBest(all, limit, kept)
    ensures kept <= all
  {
  }

  // ---- a view's matches by name ---------------------------------------------------------------

  /** Later times, and larger sizes, an inexact one counting as nothing, rank lower. */
  ghost predicate RanksBy(v: R.View, cols: Columns) {
    forall r: nat :: v.column(Recent, r) == U32 - 1 - cols.mtime(r) && v.column(Largest, r) == U32 - 1 - KnownSize(cols, r)
  }

  function KnownSize(cols: Columns, r: nat): nat {
    if cols.sizeExact(r) then cols.sizeKib(r) else 0
  }

  lemma TheoremColumnsRank(v: R.View, cols: Columns, a: nat, b: nat)
    requires RanksBy(v, cols) && ColumnsFit(cols)
    ensures v.column(Recent, a) < v.column(Recent, b) <==> cols.mtime(a) > cols.mtime(b)
    ensures v.column(Largest, a) < v.column(Largest, b) <==> KnownSize(cols, a) > KnownSize(cols, b)
  {
  }

  /** The query as the daemon keeps it and as the engine runs it. */
  ghost predicate SameQuery(q: R.Query, query: Q.Query, test: Name -> bool, v: R.View) {
    && R.WellFormed(q) && Q.Decides(query, test)
    && match q.kind
       case Prefix => query == Q.Prefix(q.terms[0])
       case Substring => query == Q.Substring(q.terms[0])
       case PathTerms => false
       case Other => query.Regex? && forall r: nat :: r < |v.names| ==> (v.other(q.terms, r) <==> test(v.names[r]))
  }

  lemma SameMatches(q: R.Query, query: Q.Query, test: Name -> bool, v: R.View, r: nat)
    requires R.IsView(v) && SameQuery(q, query, test, v) && r < |v.names|
    ensures R.Matches(v, q, r) <==> v.live[r] && test(v.names[r])
    ensures R.MatchQuality(q, v.names[r]) == NameQuality(query, v.names[r])
  {
    hide Contains, R.PatternQuality;
  }

  /** The key of a record, whatever the order, is its rank in the view and its number. */
  lemma NameKeyIsPacked(v: R.View, q: R.Query, cols: Columns, order: Order, r: nat, quality: nat)
    requires R.IsView(v) && R.WellFormed(q) && r < |v.names| <= U32 && RanksBy(v, cols) && ColumnsFit(cols)
    requires quality == R.MatchQuality(q, v.names[r])
    ensures NameKey(order, cols, r, quality, |v.names[r]|) == Packed(R.RankBits(v, q, order, r), r)
    ensures order != Relevance ==> NameKey(order, cols, r, 0, 0) == Packed(R.RankBits(v, q, order, r), r)
  {
    hide R.MatchQuality;
    if order != Relevance {
      var key := NameKey(order, cols, r, 0, 0);
      assert key == NameKey(order, cols, r, quality, |v.names[r]|);
      MetadataKey(order, cols, r);
      KeySplits(key);
      assert KeyRankBits(key) == v.column(order, r);
    }
  }

  lemma MetadataKey(order: Order, cols: Columns, r: nat)
    requires order != Relevance && r < U32 && ColumnsFit(cols)
    ensures KeyRecord(NameKey(order, cols, r, 0, 0)) == r
    ensures KeyRankBits(NameKey(order, cols, r, 0, 0)) == U32 - 1 - if order == Recent then cols.mtime(r) else KnownSize(cols, r)
  {
    if order == Recent {
      PackedParts(U32 - 1 - cols.mtime(r), r);
    } else {
      var size := if cols.sizeExact(r) then cols.sizeKib(r) else 0;
      PackedParts(U32 - 1 - size, r);
    }
  }

  lemma {:induction false} BaseKeysAreViewKeys(v: R.View, w: World, added: seq<DeltaRecord>, q: R.Query, query: Q.Query, test: Name -> bool,
                                               cols: Columns, order: Order, n: nat)
    requires IsWorld(w) && IsAdded(added, w) && IsViewOf(v, w, added) && SameQuery(q, query, test, v)
    requires n <= Size(w) && |v.names| <= U32 && RanksBy(v, cols) && ColumnsFit(cols)
    ensures R.IsView(v) && n <= |v.names|
    ensures Ranked.RangeKeys(w.names, test, NameRanking(query, w.tombs, cols, order), 0, n) == ViewKeys(v, q, order, n)
  {
    hide *;
    ViewFits(v, w, added);
    KindFits(q, query, test, v);
    var rk := NameRanking(query, w.tombs, cols, order);
    if n == 0 {
      Ranked.NoKeysAtEnd(w.names, test, rk, 0);
      NoViewKeysYet(v, q, order);
    } else {
      var r := n - 1;
      BaseKeysAreViewKeys(v, w, added, q, query, test, cols, order, r);
      Ranked.RangeKeysStep(w.names, test, rk, 0, r);
      BaseIsViewKey(v, w, added, q, query, test, cols, order, r);
      ViewKeysStep(v, q, order, r);
    }
  }

  lemma BaseIsViewKey(v: R.View, w: World, added: seq<DeltaRecord>, q: R.Query, query: Q.Query, test: Name -> bool,
                      cols: Columns, order: Order, r: nat)
    requires IsWorld(w) && IsAdded(added, w) && IsViewOf(v, w, added) && SameQuery(q, query, test, v)
    requires r < |w.names| && |v.names| <= U32 && RanksBy(v, cols) && ColumnsFit(cols)
    ensures R.IsView(v) && R.WellFormed(q) && r < |v.names|
    ensures var rk := NameRanking(query, w.tombs, cols, order);
            ViewKey(v, q, order, r) == if test(w.names[r]) && rk.live(r) then multiset{Ranked.KeyFor(rk, r, w.names[r])} else multiset{}
  {
    hide IsWorld, IsAdded, RanksBy, SameQuery, NameKey, NameQuality, R.RankBits, R.Matches, Packed, ColumnsFit;
    ViewFits(v, w, added);
    KindFits(q, query, test, v);
    SameMatches(q, query, test, v, r);
    NameKeyIsPacked(v, q, cols, order, r, NameQuality(query, v.names[r]));
  }

  lemma ViewFits(v: R.View, w: World, added: seq<DeltaRecord>)
    requires IsWorld(w) && IsAdded(added, w) && IsViewOf(v, w, added)
    ensures R.IsView(v) && |v.names| == |w.names| + |added| && Size(w) == |w.names|
  {
    ViewLength(v, w, added);
  }

  lemma KindFits(q: R.Query, query: Q.Query, test: Name -> bool, v: R.View)
    requires SameQuery(q, query, test, v)
    ensures R.WellFormed(q) && Q.Decides(query, test)
  {
  }

  lemma {:induction false} NameKeysAreViewKeys(v: R.View, w: World, added: seq<DeltaRecord>, q: R.Query, query: Q.Query, test: Name -> bool,
                                               cols: Columns, order: Order, k: nat)
    requires IsWorld(w) && IsAdded(added, w) && IsViewOf(v, w, added) && SameQuery(q, query, test, v)
    requires k <= |added| && |v.names| <= U32 && RanksBy(v, cols) && ColumnsFit(cols)
    ensures R.IsView(v) && R.WellFormed(q) && Size(w) + k <= |v.names|
    ensures Ranked.AllKeys(w.names, test, NameRanking(query, w.tombs, cols, order))
            + AddedNameKeys(query, test, cols, order, Size(w), added, k) == ViewKeys(v, q, order, Size(w) + k)
  {
    hide *;
    ViewFits(v, w, added);
    KindFits(q, query, test, v);
    var base := Ranked.AllKeys(w.names, test, NameRanking(query, w.tombs, cols, order));
    if k == 0 {
      BaseKeysAreViewKeys(v, w, added, q, query, test, cols, order, Size(w));
      NoAddedNames(query, test, cols, order, Size(w), added);
      AllKeysAreRange(w.names, test, NameRanking(query, w.tombs, cols, order));
      Grouped(base, base, base);
    } else {
      var i := k - 1;
      NameKeysAreViewKeys(v, w, added, q, query, test, cols, order, i);
      AddedNameIsViewKey(v, w, added, q, query, test, cols, order, i);
      ViewKeysStep(v, q, order, Size(w) + i);
      AddedNamesStep(query, test, cols, order, Size(w), added, i);
      Grouped(base, AddedNameKeys(query, test, cols, order, Size(w), added, i), AddedNameKey(query, test, cols, order, Size(w), added, i));
    }
  }

  lemma AllKeysAreRange(names: seq<Name>, test: Name -> bool, rk: Ranked.Ranking)
    ensures Ranked.AllKeys(names, test, rk) == Ranked.RangeKeys(names, test, rk, 0, |names|)
  {
  }

  lemma NoAddedNames(query: Q.Query, test: Name -> bool, cols: Columns, order: Order, base: nat, added: seq<DeltaRecord>)
    ensures AddedNameKeys(query, test, cols, order, base, added, 0) == multiset{}
  {
  }

  lemma AddedNamesStep(query: Q.Query, test: Name -> bool, cols: Columns, order: Order, base: nat, added: seq<DeltaRecord>, i: nat)
    requires i < |added|
    ensures AddedNameKeys(query, test, cols, order, base, added, i + 1) ==
      AddedNameKeys(query, test, cols, order, base, added, i) + AddedNameKey(query, test, cols, order, base, added, i)
  {
    hide AddedNameKey;
  }

  lemma ViewKeysStep(v: R.View, q: R.Query, order: Order, r: nat)
    requires R.IsView(v) && R.WellFormed(q) && r < |v.names|
    ensures ViewKeys(v, q, order, r + 1) == ViewKeys(v, q, order, r) + ViewKey(v, q, order, r)
  {
    hide ViewKey;
  }

  lemma AddedNameIsViewKey(v: R.View, w: World, added: seq<DeltaRecord>, q: R.Query, query: Q.Query, test: Name -> bool,
                           cols: Columns, order: Order, i: nat)
    requires IsWorld(w) && IsAdded(added, w) && IsViewOf(v, w, added) && SameQuery(q, query, test, v)
    requires i < |added| && |v.names| <= U32 && RanksBy(v, cols) && ColumnsFit(cols)
    ensures R.IsView(v) && R.WellFormed(q) && Size(w) + i < |v.names|
    ensures AddedNameKey(query, test, cols, order, Size(w), added, i) == ViewKey(v, q, order, Size(w) + i)
  {
    hide IsWorld, IsAdded, RanksBy, SameQuery, NameKey, NameQuality, R.RankBits, R.Matches, Packed, ColumnsFit;
    var r := Size(w) + i;
    ViewLength(v, w, added);
    KindFits(q, query, test, v);
    SameMatches(q, query, test, v, r);
    NameKeyIsPacked(v, q, cols, order, r, NameQuality(query, v.names[r]));
  }

  // ---- a view's matches by path ---------------------------------------------------------------

  /** search_path_terms for the daemon's query: folded terms and no filter. */
  function AskFor(q: R.Query, tombs: set<nat>, cols: Columns, order: Order, limit: nat): Ask {
    Ask(R.Lowered(q.terms), tombs, cols, Unfiltered(), order, limit)
  }

  /** The terms a name lacks, counted one by one and by its mask. */
  lemma {:induction false} LackingIsMissing(terms: seq<Name>, name: Name)
    ensures R.Lacking(terms, name) == Missing(terms, MaskOf(terms, name))
  {
    hide Contains;
    MaskFits(terms, name);
    if terms != [] {
      var n := |terms| - 1;
      var front := terms[..n];
      LackingIsMissing(front, name);
      MaskFits(front, name);
      var m, less := MaskOf(terms, name), MaskOf(front, name);
      if Contains(name, terms[n]) {
        assert m == less + {n};
      } else {
        assert m == less;
      }
    } else {
      assert MaskOf(terms, name) == {};
    }
  }

  lemma PathKeyIsPacked(v: R.View, q: R.Query, tombs: set<nat>, cols: Columns, order: Order, limit: nat, r: nat)
    requires R.IsView(v) && R.WellFormed(q) && q.kind == R.PathTerms && r < |v.names| <= U32 && RanksBy(v, cols) && ColumnsFit(cols)
    ensures NamedKey(AskFor(q, tombs, cols, order, limit), r, v.names[r]) == Packed(R.RankBits(v, q, order, r), r)
  {
    hide R.Lacking, Missing, MaskOf, R.RankBits, Packed;
    var terms := R.Lowered(q.terms);
    LackingIsMissing(terms, v.names[r]);
    NameKeyIsPacked(v, q, cols, order, r, R.MatchQuality(q, v.names[r]));
  }

  /** The base hits below `k`. */
  ghost function HitsBelow(ask: Ask, w: World, k: nat): (s: set<nat>)
    requires IsWorld(w) && k <= Size(w)
    ensures Inside(s, w)
  {
    set r | 0 <= r < k && PathHit(w, ask.terms, r)
  }

  lemma HitsBelowStep(ask: Ask, w: World, k: nat)
    requires IsAsk(ask, w) && k < Size(w) && ask.filter == Unfiltered()
    ensures HitsBelow(ask, w, 0) == {} && HitsBelow(ask, w, Size(w)) == BaseHits(ask, w)
    ensures ChosenKeys(ask, w, HitsBelow(ask, w, k + 1)) ==
      ChosenKeys(ask, w, HitsBelow(ask, w, k)) + if PathHit(w, ask.terms, k) then multiset{KeyOf(ask, w, k)} else multiset{}
  {
    hide KeyOf, ChosenKeys, OnPath, IsWorld;
    if PathHit(w, ask.terms, k) {
      assert HitsBelow(ask, w, k + 1) == HitsBelow(ask, w, k) + {k};
      ChosenStep(ask, w, HitsBelow(ask, w, k), k);
    } else {
      assert HitsBelow(ask, w, k + 1) == HitsBelow(ask, w, k);
    }
  }

  lemma {:induction false} ChosenAreViewKeys(v: R.View, w: World, added: seq<DeltaRecord>, q: R.Query, cols: Columns, order: Order, limit: nat, k: nat)
    requires IsWorld(w) && IsAdded(added, w) && IsViewOf(v, w, added) && q.kind == R.PathTerms && 0 < |q.terms| <= MAX_TERMS
    requires k <= Size(w) && |v.names| <= U32 && RanksBy(v, cols) && ColumnsFit(cols)
    ensures R.IsView(v) && R.WellFormed(q) && k <= |v.names| && IsAsk(AskFor(q, w.tombs, cols, order, limit), w)
    ensures ChosenKeys(AskFor(q, w.tombs, cols, order, limit), w, HitsBelow(AskFor(q, w.tombs, cols, order, limit), w, k)) == ViewKeys(v, q, order, k)
  {
    hide *;
    ViewFits(v, w, added);
    PathFits(q);
    AskFitsWorld(q, w, cols, order, limit);
    var ask := AskFor(q, w.tombs, cols, order, limit);
    if k == 0 {
      NoHitsBelow(ask, w);
      NoneChosen(ask, w);
      NoViewKeysYet(v, q, order);
    } else {
      var r := k - 1;
      ChosenAreViewKeys(v, w, added, q, cols, order, limit, r);
      AskIsUnfiltered(q, w.tombs, cols, order, limit);
      HitsBelowStep(ask, w, r);
      HitIsViewKey(v, w, added, q, cols, order, limit, r);
      ViewKeysStep(v, q, order, r);
    }
  }

  lemma NoHitsBelow(ask: Ask, w: World)
    requires IsWorld(w)
    ensures HitsBelow(ask, w, 0) == {}
  {
  }

  lemma AskIsUnfiltered(q: R.Query, tombs: set<nat>, cols: Columns, order: Order, limit: nat)
    ensures AskFor(q, tombs, cols, order, limit).filter == Unfiltered()
  {
  }

  lemma HitIsViewKey(v: R.View, w: World, added: seq<DeltaRecord>, q: R.Query, cols: Columns, order: Order, limit: nat, r: nat)
    requires IsWorld(w) && IsAdded(added, w) && IsViewOf(v, w, added) && q.kind == R.PathTerms && 0 < |q.terms| <= MAX_TERMS
    requires r < Size(w) && |v.names| <= U32 && RanksBy(v, cols) && ColumnsFit(cols)
    ensures R.IsView(v) && R.WellFormed(q) && r < |v.names| && IsAsk(AskFor(q, w.tombs, cols, order, limit), w)
    ensures var ask := AskFor(q, w.tombs, cols, order, limit);
            ViewKey(v, q, order, r) == if PathHit(w, ask.terms, r) then multiset{KeyOf(ask, w, r)} else multiset{}
  {
    hide IsWorld, IsAdded, RanksBy, KeyOf, NamedKey, R.RankBits, Packed, ColumnsFit, PathHit, WalkHit;
    ViewLength(v, w, added);
    AskFitsWorld(q, w, cols, order, limit);
    var ask := AskFor(q, w.tombs, cols, order, limit);
    PathKeyIsPacked(v, q, w.tombs, cols, order, limit, r);
    KeyOfNamed(ask, w, r);
    HitIsLive(w, ask.terms, r);
  }

  lemma HitIsLive(w: World, terms: seq<Name>, r: nat)
    requires IsWorld(w)
    ensures PathHit(w, terms, r) ==> r !in w.tombs
  {
  }

  lemma KeyOfNamed(ask: Ask, w: World, r: nat)
    requires IsAsk(ask, w) && r < Size(w)
    ensures ask.cols.mtime(r) < U32 && ask.cols.sizeKib(r) < U32 && KeyOf(ask, w, r) == NamedKey(ask, r, w.names[r])
  {
  }

  lemma AskFitsWorld(q: R.Query, w: World, cols: Columns, order: Order, limit: nat)
    requires IsWorld(w) && ColumnsFit(cols)
    ensures IsAsk(AskFor(q, w.tombs, cols, order, limit), w)
  {
  }

  lemma {:induction false} AnswerAreViewKeys(v: R.View, w: World, added: seq<DeltaRecord>, q: R.Query, cols: Columns, order: Order, limit: nat, k: nat)
    requires IsWorld(w) && IsAdded(added, w) && IsViewOf(v, w, added) && q.kind == R.PathTerms && 0 < |q.terms| <= MAX_TERMS
    requires k <= |added| && |v.names| <= U32 && RanksBy(v, cols) && ColumnsFit(cols)
    ensures R.IsView(v) && R.WellFormed(q) && Size(w) + k <= |v.names| && IsAsk(AskFor(q, w.tombs, cols, order, limit), w)
    ensures var ask := AskFor(q, w.tombs, cols, order, limit);
            ChosenKeys(ask, w, BaseHits(ask, w)) + AddedKeys(ask, w, added, k) == ViewKeys(v, q, order, Size(w) + k)
  {
    hide *;
    ViewFits(v, w, added);
    PathFits(q);
    AskFitsWorld(q, w, cols, order, limit);
    var ask := AskFor(q, w.tombs, cols, order, limit);
    var base := ChosenKeys(ask, w, BaseHits(ask, w));
    if k == 0 {
      ChosenAreViewKeys(v, w, added, q, cols, order, limit, Size(w));
      AllBelow(ask, w);
      NoAddedPaths(ask, w, added);
      Grouped(base, base, base);
    } else {
      var i := k - 1;
      AnswerAreViewKeys(v, w, added, q, cols, order, limit, i);
      AddedKeyIsViewKey(v, w, added, q, cols, order, limit, i);
      ViewKeysStep(v, q, order, Size(w) + i);
      AddedPathsStep(ask, w, added, i);
      Grouped(base, AddedKeys(ask, w, added, i), AddedKey(ask, w, added, i));
    }
  }

  lemma PathFits(q: R.Query)
    requires q.kind == R.PathTerms
    ensures R.WellFormed(q)
  {
  }

  lemma AllBelow(ask: Ask, w: World)
    requires IsWorld(w)
    ensures HitsBelow(ask, w, Size(w)) == BaseHits(ask, w)
  {
    hide PathHit;
  }

  lemma NoAddedPaths(ask: Ask, w: World, added: seq<DeltaRecord>)
    requires IsAsk(ask, w) && IsAdded(added, w)
    ensures AddedKeys(ask, w, added, 0) == multiset{}
  {
  }

  lemma AddedPathsStep(ask: Ask, w: World, added: seq<DeltaRecord>, i: nat)
    requires IsAsk(ask, w) && IsAdded(added, w) && i < |added|
    ensures AddedKeys(ask, w, added, i + 1) == AddedKeys(ask, w, added, i) + AddedKey(ask, w, added, i)
  {
    hide AddedKey, IsAsk, IsAdded;
  }

  lemma AddedKeyIsViewKey(v: R.View, w: World, added: seq<DeltaRecord>, q: R.Query, cols: Columns, order: Order, limit: nat, i: nat)
    requires IsWorld(w) && IsAdded(added, w) && IsViewOf(v, w, added) && q.kind == R.PathTerms && 0 < |q.terms| <= MAX_TERMS
    requires i < |added| && |v.names| <= U32 && RanksBy(v, cols) && ColumnsFit(cols)
    ensures R.IsView(v) && R.WellFormed(q) && Size(w) + i < |v.names| && IsAsk(AskFor(q, w.tombs, cols, order, limit), w)
    ensures AddedKey(AskFor(q, w.tombs, cols, order, limit), w, added, i) == ViewKey(v, q, order, Size(w) + i)
  {
    hide IsWorld, IsAdded, RanksBy, NamedKey, R.RankBits, Packed, ColumnsFit, WalkHit;
    ViewLength(v, w, added);
    AskFitsWorld(q, w, cols, order, limit);
    PathKeyIsPacked(v, q, w.tombs, cols, order, limit, Size(w) + i);
    WalkHitIsLive(added, w, R.Lowered(q.terms), i);
  }

  lemma WalkHitIsLive(added: seq<DeltaRecord>, w: World, terms: seq<Name>, i: nat)
    requires IsWorld(w) && IsAdded(added, w)
    ensures WalkHit(added, w, terms, i) ==> i < |added| && added[i].live
  {
  }

  // ---- the order of the hits -------------------------------------------------------------------

  function Shown(nameLen: nat): nat {
    if nameLen < NAME_LEN_MAX then nameLen else NAME_LEN_MAX
  }

  /** Newer first; larger first; a better class of match first, then a shorter name. The record number decides the rest. */
  predicate ComesFirst(v: R.View, q: R.Query, cols: Columns, order: Order, a: nat, b: nat)
    requires R.WellFormed(q) && a < |v.names| && b < |v.names|
  {
    match order
    case Recent => cols.mtime(a) > cols.mtime(b) || (cols.mtime(a) == cols.mtime(b) && a < b)
    case Largest => KnownSize(cols, a) > KnownSize(cols, b) || (KnownSize(cols, a) == KnownSize(cols, b) && a < b)
    case Relevance =>
      var x, y := R.MatchQuality(q, v.names[a]), R.MatchQuality(q, v.names[b]);
      var m, n := Shown(|v.names[a]|), Shown(|v.names[b]|);
      x < y || (x == y && (m < n || (m == n && a < b)))
  }

  lemma RankIsOrder(v: R.View, volume: nat, q: R.Query, cols: Columns, order: Order, a: nat, b: nat)
    requires R.WellFormed(q) && a < |v.names| && b < |v.names| && RanksBy(v, cols) && ColumnsFit(cols)
    ensures Before(Placed(R.RankBits(v, q, order, a), volume, a), Placed(R.RankBits(v, q, order, b), volume, b))
      <==> ComesFirst(v, q, cols, order, a, b)
  {
    hide R.MatchQuality;
  }

  /** The hits come in the user's order, and a match that is left out comes after all of them. */
  ghost predicate InUserOrder(hits: seq<R.Hit>, v: R.View, q: R.Query, cols: Columns, order: Order)
    requires R.IsView(v) && R.WellFormed(q) && R.AreHits(hits, v)
  {
    forall i, j :: 0 <= i < j < |hits| ==> ComesFirst(v, q, cols, order, hits[i].record, hits[j].record)
  }

  ghost predicate LeavesOutLater(hits: seq<R.Hit>, v: R.View, q: R.Query, cols: Columns, order: Order, limit: nat)
    requires R.IsView(v) && R.WellFormed(q) && R.AreHits(hits, v)
  {
    && |hits| <= limit
    && (forall k :: 0 <= k < |hits| ==> R.Matches(v, q, hits[k].record))
    && forall r: nat :: r < |v.names| && R.Matches(v, q, r) && !Lists(hits, r) ==>
         |hits| == limit && forall k :: 0 <= k < |hits| ==> ComesFirst(v, q, cols, order, hits[k].record, r)
  }

  predicate Lists(hits: seq<R.Hit>, r: nat) {
    exists k :: 0 <= k < |hits| && hits[k].record == r
  }

  lemma KeysInOrder(keys: seq<Key>, v: R.View, q: R.Query, cols: Columns, order: Order)
    requires R.IsView(v) && R.WellFormed(q) && |v.names| <= U32 && AreKeys(keys, v, q, order) && RanksBy(v, cols) && ColumnsFit(cols)
    requires forall i, j :: 0 <= i < j < |keys| ==> keys[i] <= keys[j]
    ensures R.AreHits(HitsOf(keys), v) && InUserOrder(HitsOf(keys), v, q, cols, order)
  {
    hide R.RankBits, ViewKeys, KeyRankBits, KeyRecord, Packed, ComesFirst, RanksBy, Before, R.AreHits, ColumnsFit;
    HitsAreHits(keys, v, q, order);
    KeysAreDistinct(keys, v, q, order);
    forall i, j | 0 <= i < j < |keys| ensures ComesFirst(v, q, cols, order, KeyRecord(keys[i]), KeyRecord(keys[j])) {
      var a, b := KeyRecord(keys[i]), KeyRecord(keys[j]);
      RankIsOrder(v, 0, q, cols, order, a, b);
      SmallerKeyFirst(Placed(R.RankBits(v, q, order, a), 0, a), Placed(R.RankBits(v, q, order, b), 0, b));
    }
  }

  lemma TopLeavesOutLater(hits: seq<R.Hit>, v: R.View, volume: nat, q: R.Query, cols: Columns, order: Order, limit: nat)
    requires R.IsView(v) && R.WellFormed(q) && R.AreHits(hits, v) && RanksBy(v, cols) && ColumnsFit(cols)
    requires IsTop(R.AllIn(v, volume, q, order), limit, R.PlacedOf(hits, volume))
    ensures LeavesOutLater(hits, v, q, cols, order, limit)
  {
    hide R.RankBits, R.Matches, ComesFirst, RanksBy, Before, R.AreHits, ColumnsFit;
    var all, top := R.AllIn(v, volume, q, order), R.PlacedOf(hits, volume);
    R.PlacedSize(hits, v, volume);
    forall k | 0 <= k < |hits| ensures HitPlaced(hits[k], volume) in top && HitPlaced(hits[k], volume) in all {
      assert hits[k] in hits;
    }
    forall r: nat | r < |v.names| && R.Matches(v, q, r) && !Lists(hits, r)
      ensures |hits| == limit && forall k :: 0 <= k < |hits| ==> ComesFirst(v, q, cols, order, hits[k].record, r)
    {
      var x := Placed(R.RankBits(v, q, order, r), volume, r);
      assert x in all && x !in top;
      TopIsFull(all, limit, top, x);
      forall k | 0 <= k < |hits| ensures ComesFirst(v, q, cols, order, hits[k].record, r) {
        assert Before(HitPlaced(hits[k], volume), x);
        RankIsOrder(v, volume, q, cols, order, hits[k].record, r);
      }
    }
  }

  function HitPlaced(h: R.Hit, volume: nat): Placed {
    Placed(h.rank, volume, h.record)
  }

  lemma TopIsFull(all: set<Placed>, limit: nat, top: set<Placed>, x: Placed)
    requires IsTop(all, limit, top) && x in all && x !in top
    ensures |top| == limit
  {
    if |all| < limit {
      Smaller(top, all);
    }
  }

  // ---- the search of a view ---------------------------------------------------------------------

  /**
   * search_hits_cancellable_with_spans. Whatever the kind, order, limit and plan, the hits
   * are live matches of the view, each once and in the user's order, and unless superseded
   * the first of them.
   */
  method SearchView(ar: PathTerms.Arena, added: seq<DeltaRecord>, tombs: set<nat>, cols: Columns, q: R.Query, query: Q.Query,
                    test: Name -> bool, order: Order, limit: nat, useFilter: bool, threads: nat, cancel: Cancellation?,
                    ghost w: World, ghost v: R.View, ghost volume: nat)
    returns (hits: seq<R.Hit>)
    requires PathTerms.IsArena(ar, w) && tombs == w.tombs && IsAdded(added, w) && Sorted(w.names) && ColumnsFit(cols)
    requires IsWorld(w) && IsViewOf(v, w, added) && RanksBy(v, cols) && |v.names| <= U32
    requires R.WellFormed(q) && (q.kind == R.PathTerms || SameQuery(q, query, test, v))
    modifies Flag(cancel)
    ensures R.IsView(v) && R.AreHits(hits, v)
    ensures InUserOrder(hits, v, q, cols, order)
    ensures Superseded(cancel) || IsTop(R.AllIn(v, volume, q, order), limit, R.PlacedOf(hits, volume))
    ensures Superseded(cancel) || LeavesOutLater(hits, v, q, cols, order, limit)
    ensures old(Superseded(cancel)) ==> hits == []
  {
    hide *;
    PathTerms.ArenaParts(ar, w);
    ViewFits(v, w, added);
    var keys;
    if q.kind == R.PathTerms {
      keys := SearchPaths(ar, added, tombs, cols, q, order, limit, useFilter, threads, cancel, w, v);
    } else {
      KindFits(q, query, test, v);
      keys := SearchNames(ar.ix, query, test, tombs, cols, order, added, limit, threads, cancel, w.names);
      NamesAreView(v, w, added, q, query, test, cols, order);
      KeysFrom(keys, v, q, order);
    }
    HitsAreHits(keys, v, q, order);
    if IsBest(ViewKeys(v, q, order, |v.names|), limit, multiset(keys)) {
      TheoremBestIsTop(keys, v, volume, q, order, limit);
      TopLeavesOutLater(HitsOf(keys), v, volume, q, cols, order, limit);
    }
    KeysInOrder(keys, v, q, cols, order);
    hits := HitsOf(keys);
  }

  lemma NamesAreView(v: R.View, w: World, added: seq<DeltaRecord>, q: R.Query, query: Q.Query, test: Name -> bool, cols: Columns, order: Order)
    requires IsWorld(w) && IsAdded(added, w) && IsViewOf(v, w, added) && SameQuery(q, query, test, v)
    requires |v.names| <= U32 && RanksBy(v, cols) && ColumnsFit(cols)
    ensures R.IsView(v) && R.WellFormed(q)
    ensures NameKeys(w.names, query, test, w.tombs, cols, order, added) == ViewKeys(v, q, order, |v.names|)
  {
    hide *;
    ViewFits(v, w, added);
    NameKeysAreViewKeys(v, w, added, q, query, test, cols, order, |added|);
    NameKeysAre(w.names, query, test, w.tombs, cols, order, added);
  }

  lemma NameKeysAre(names: seq<Name>, query: Q.Query, test: Name -> bool, tombs: set<nat>, cols: Columns, order: Order, added: seq<DeltaRecord>)
    ensures NameKeys(names, query, test, tombs, cols, order, added) ==
      Ranked.AllKeys(names, test, NameRanking(query, tombs, cols, order)) + AddedNameKeys(query, test, cols, order, |names|, added, |added|)
  {
    hide Ranked.AllKeys, AddedNameKeys, NameRanking;
  }

  /** The path arm: more than sixteen terms, or none, match nothing. */
  method SearchPaths(ar: PathTerms.Arena, added: seq<DeltaRecord>, tombs: set<nat>, cols: Columns, q: R.Query, order: Order, limit: nat,
                     useFilter: bool, threads: nat, cancel: Cancellation?, ghost w: World, ghost v: R.View)
    returns (keys: seq<Key>)
    requires PathTerms.IsArena(ar, w) && tombs == w.tombs && IsAdded(added, w) && ColumnsFit(cols)
    requires IsWorld(w) && IsViewOf(v, w, added) && RanksBy(v, cols) && |v.names| <= U32 && q.kind == R.PathTerms
    modifies Flag(cancel)
    ensures R.IsView(v) && R.WellFormed(q) && AreKeys(keys, v, q, order)
    ensures forall i, j :: 0 <= i < j < |keys| ==> keys[i] <= keys[j]
    ensures old(Superseded(cancel)) ==> keys == []
    ensures Superseded(cancel) || IsBest(ViewKeys(v, q, order, |v.names|), limit, multiset(keys))
  {
    ViewLength(v, w, added);
    PathFits(q);
    AskFitsWorld(q, w, cols, order, limit);
    hide IsWorld, IsAdded, IsViewOf, RanksBy, ColumnsFit, PathTerms.IsArena, IsAsk, ViewKeys, IsBest;
    var ask := AskFor(q, tombs, cols, order, limit);
    keys := PathSearch.SearchPathTerms(ar, ask, added, useFilter, threads, cancel, w);
    if 0 < |q.terms| <= MAX_TERMS && limit > 0 {
      AnswerIsBest(keys, v, w, added, q, cols, order, limit);
    } else {
      NothingAsked(v, q, order, limit);
    }
  }

  lemma AnswerIsBest(keys: seq<Key>, v: R.View, w: World, added: seq<DeltaRecord>, q: R.Query, cols: Columns, order: Order, limit: nat)
    requires IsWorld(w) && IsAdded(added, w) && IsViewOf(v, w, added) && q.kind == R.PathTerms && 0 < |q.terms| <= MAX_TERMS
    requires |v.names| <= U32 && RanksBy(v, cols) && ColumnsFit(cols)
    ensures R.IsView(v) && R.WellFormed(q) && IsAsk(AskFor(q, w.tombs, cols, order, limit), w)
    ensures PathSearch.IsAnswer(keys, AskFor(q, w.tombs, cols, order, limit), w, added) ==>
      (forall i, j :: 0 <= i < j < |keys| ==> keys[i] <= keys[j]) &&
      IsBest(ViewKeys(v, q, order, |v.names|), limit, multiset(keys)) && AreKeys(keys, v, q, order)
    ensures keys == [] ==> AreKeys(keys, v, q, order)
  {
    hide *;
    ViewFits(v, w, added);
    PathFits(q);
    AskFitsWorld(q, w, cols, order, limit);
    AnswerAreViewKeys(v, w, added, q, cols, order, limit, |added|);
    AnswerParts(keys, AskFor(q, w.tombs, cols, order, limit), w, added, ViewKeys(v, q, order, |v.names|));
    AskLimit(q, w.tombs, cols, order, limit);
    KeysFrom(keys, v, q, order);
  }

  lemma AnswerParts(keys: seq<Key>, ask: Ask, w: World, added: seq<DeltaRecord>, all: multiset<Key>)
    requires IsAsk(ask, w) && IsWorld(w) && IsAdded(added, w)
    requires ChosenKeys(ask, w, BaseHits(ask, w)) + AddedKeys(ask, w, added, |added|) == all
    ensures PathSearch.IsAnswer(keys, ask, w, added) ==> IsBest(all, ask.limit, multiset(keys)) && multiset(keys) <= all
    ensures PathSearch.IsAnswer(keys, ask, w, added) ==> forall i, j :: 0 <= i < j < |keys| ==> keys[i] <= keys[j]
    ensures keys == [] ==> multiset(keys) <= all
  {
    hide IsAsk, IsAdded, ChosenKeys, AddedKeys;
  }

  lemma AskLimit(q: R.Query, tombs: set<nat>, cols: Columns, order: Order, limit: nat)
    ensures AskFor(q, tombs, cols, order, limit).limit == limit
  {
  }

  lemma KeysFrom(keys: seq<Key>, v: R.View, q: R.Query, order: Order)
    requires R.IsView(v) && R.WellFormed(q)
    ensures multiset(keys) <= ViewKeys(v, q, order, |v.names|) ==> AreKeys(keys, v, q, order)
  {
  }

  /** No terms, too many, or no room: nothing to report. */
  lemma NothingAsked(v: R.View, q: R.Query, order: Order, limit: nat)
    requires R.IsView(v) && R.WellFormed(q) && q.kind == R.PathTerms && (q.terms == [] || |q.terms| > MAX_TERMS || limit == 0)
    ensures IsBest(ViewKeys(v, q, order, |v.names|), limit, multiset{}) && AreKeys([], v, q, order)
  {
    if q.terms == [] || |q.terms| > MAX_TERMS {
      NoViewKeys(v, q, order, |v.names|);
    }
    NothingBest(limit);
    NoneBest(ViewKeys(v, q, order, |v.names|));
  }

  lemma {:induction false} NoViewKeys(v: R.View, q: R.Query, order: Order, n: nat)
    requires R.IsView(v) && R.WellFormed(q) && q.kind == R.PathTerms && (q.terms == [] || |q.terms| > MAX_TERMS) && n <= |v.names|
    ensures ViewKeys(v, q, order, n) == multiset{}
  {
    hide R.RankBits;
    if n > 0 {
      NoViewKeys(v, q, order, n - 1);
    }
  }
}
