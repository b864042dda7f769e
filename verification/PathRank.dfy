/** Metadata filters and the sort keys of path hits (view/ranked.rs). */
module PathRank {
  import opened Records
  import opened Ascii
  import opened PathSeed
  import opened PathWorld
  import opened TopK
  import Counting

  // ---- filters -------------------------------------------------------------------------

  datatype EntryKind = File | Directory

  datatype Filter = Filter(kind: Option<EntryKind>, extensions: seq<Name>, minSize: Option<nat>, maxSize: Option<nat>,
                           minMtime: Option<nat>, maxMtime: Option<nat>)

  function Unfiltered(): Filter {
    Filter(None, [], None, None, None, None)
  }

  /** Metadata of records in the combined space: base records first, then additions. Sizes are in KiB. */
  datatype Columns = Columns(isDir: nat -> bool, mtime: nat -> nat, sizeKib: nat -> nat, sizeExact: nat -> bool)

  ghost predicate ColumnsFit(cols: Columns) {
    forall r: nat :: cols.mtime(r) < U32 && cols.sizeKib(r) < U32
  }

  const DOT: Byte := 46

  /** What follows the last dot; the whole name when there is none. */
  function Extension(name: Name): Name {
    if name == [] || name[|name| - 1] == DOT then [] else Extension(name[..|name| - 1]) + [name[|name| - 1]]
  }

  predicate AnyExtension(extension: Name, wanted: seq<Name>) {
    exists i :: 0 <= i < |wanted| && CmpCi(extension, wanted[i]) == Equal
  }

  /** record_matches_filter. */
  predicate MatchesFilter(cols: Columns, record: nat, name: Name, f: Filter) {
    && !(f.kind == Some(File) && cols.isDir(record))
    && !(f.kind == Some(Directory) && !cols.isDir(record))
    && (f.extensions != [] ==> !cols.isDir(record) && |Extension(name)| != |name| && AnyExtension(Extension(name), f.extensions))
    && (f.minSize.Some? || f.maxSize.Some? ==> cols.sizeExact(record))
    && (f.minSize.Some? ==> cols.sizeKib(record) * 1024 >= f.minSize.value)
    && (f.maxSize.Some? ==> cols.sizeKib(record) * 1024 <= f.maxSize.value)
    && (f.minMtime.Some? ==> cols.mtime(record) >= f.minMtime.value)
    && (f.maxMtime.Some? ==> cols.mtime(record) <= f.maxMtime.value)
  }

  // ---- keys ----------------------------------------------------------------------------

  function SortKey(order: Order, cols: Columns, record: nat, quality: nat, nameLen: nat): Key
    requires cols.mtime(record) < U32 && cols.sizeKib(record) < U32
  {
    match order
    case Relevance => RelevanceKey(quality, nameLen, record)
    case Recent => RecentKey(cols.mtime(record), record)
    case Largest => LargestKey(if cols.sizeExact(record) then cols.sizeKib(record) else 0, record)
  }

  /** What a search asks for. */
  datatype Ask = Ask(terms: seq<Name>, tombs: set<nat>, cols: Columns, filter: Filter, order: Order, limit: nat)

  /** Names are decoded only for orders that rank on them, or to filter by extension. */
  predicate NeedsName(ask: Ask) {
    ask.order == Relevance || ask.filter.extensions != []
  }

  lemma MaskFits(terms: seq<Name>, name: Name)
    ensures |MaskOf(terms, name)| <= |terms|
  {
    hide Contains;
    Counting.Subset(MaskOf(terms, name), FullMask(terms));
  }

  /** How many terms the name itself leaves to its ancestors. */
  function Missing(terms: seq<Name>, mask: Mask): nat {
    if |mask| <= |terms| then |terms| - |mask| else 0
  }

  /** The key of a record under its own name. */
  function NamedKey(ask: Ask, record: nat, name: Name): Key
    requires ask.cols.mtime(record) < U32 && ask.cols.sizeKib(record) < U32
  {
    SortKey(ask.order, ask.cols, record, Missing(ask.terms, MaskOf(ask.terms, name)), |name|)
  }

  ghost predicate IsAsk(ask: Ask, w: World) {
    IsWorld(w) && ask.tombs == w.tombs && ColumnsFit(ask.cols)
  }

  ghost function KeyOf(ask: Ask, w: World, r: nat): Key
    requires IsAsk(ask, w) && r < Size(w)
  {
    NamedKey(ask, r, w.names[r])
  }

  ghost predicate Inside(s: set<nat>, w: World) {
    forall r :: r in s ==> r < Size(w)
  }

  ghost function KeysOver(ask: Ask, w: World, s: set<nat>): multiset<Key>
    requires IsAsk(ask, w) && Inside(s, w)
  {
    if s == {} then multiset{}
    else var r :| r in s; multiset{KeyOf(ask, w, r)} + KeysOver(ask, w, s - {r})
  }

  lemma {:induction false} KeysWithout(ask: Ask, w: World, s: set<nat>, r: nat)
    requires IsAsk(ask, w) && Inside(s, w) && r in s
    ensures KeysOver(ask, w, s) == multiset{KeyOf(ask, w, r)} + KeysOver(ask, w, s - {r})
  {
    hide IsAsk, KeyOf;
    var x :| x in s && KeysOver(ask, w, s) == multiset{KeyOf(ask, w, x)} + KeysOver(ask, w, s - {x});
    if x != r {
      KeysWithout(ask, w, s - {x}, r);
      KeysWithout(ask, w, s - {r}, x);
      assert s - {x} - {r} == s - {r} - {x};
    }
  }

  /** Live, and let through by the filter. */
  predicate Passes(ask: Ask, r: nat, name: Name) {
    r !in ask.tombs && MatchesFilter(ask.cols, r, name, ask.filter)
  }

  /** The records of `s` that pass. */
  ghost function Chosen(ask: Ask, w: World, s: set<nat>): (c: set<nat>)
    requires Inside(s, w)
    ensures Inside(c, w)
  {
    set r | r in s && Passes(ask, r, w.names[r])
  }

  ghost function ChosenKeys(ask: Ask, w: World, s: set<nat>): multiset<Key>
    requires IsAsk(ask, w) && Inside(s, w)
  {
    KeysOver(ask, w, Chosen(ask, w, s))
  }

  lemma ChosenStep(ask: Ask, w: World, s: set<nat>, r: nat)
    requires IsAsk(ask, w) && Inside(s, w) && r < Size(w) && r !in s
    ensures Inside(s + {r}, w)
    ensures ChosenKeys(ask, w, s + {r}) == ChosenKeys(ask, w, s) +
      if Passes(ask, r, w.names[r]) then multiset{KeyOf(ask, w, r)} else multiset{}
  {
    hide IsAsk, KeyOf, Passes, KeysOver;
    var more := Chosen(ask, w, s + {r});
    if Passes(ask, r, w.names[r]) {
      assert more - {r} == Chosen(ask, w, s);
      KeysWithout(ask, w, more, r);
    } else {
      assert more == Chosen(ask, w, s);
    }
  }

  lemma NoneChosen(ask: Ask, w: World)
    requires IsAsk(ask, w)
    ensures ChosenKeys(ask, w, {}) == multiset{}
  {
  }

  /** Disjoint parts of the index contribute separately. */
  lemma {:induction false} ChosenParts(ask: Ask, w: World, s: set<nat>, t: set<nat>)
    requires IsAsk(ask, w) && Inside(s, w) && Inside(t, w) && s !! t
    ensures Inside(s + t, w) && ChosenKeys(ask, w, s + t) == ChosenKeys(ask, w, s) + ChosenKeys(ask, w, t)
    decreases |t|
  {
    hide IsAsk, KeyOf, Passes, ChosenKeys;
    if t == {} {
      assert s + t == s;
      NoneChosen(ask, w);
    } else {
      var r :| r in t;
      var rest := t - {r};
      ChosenParts(ask, w, s, rest);
      ChosenStep(ask, w, s + rest, r);
      ChosenStep(ask, w, rest, r);
      assert s + rest + {r} == s + t && rest + {r} == t;
    }
  }

  // ---- the answer ----------------------------------------------------------------------

  /** The base records a search should report. */
  ghost function BaseHits(ask: Ask, w: World): (s: set<nat>)
    requires IsWorld(w)
    ensures Inside(s, w)
  {
    set r | 0 <= r < Size(w) && PathHit(w, ask.terms, r)
  }

  /** A position set usable for enumeration: exact on the positions of live records. */
  ghost predicate IsFinal(positions: set<nat>, ask: Ask, w: World)
    requires IsWorld(w)
  {
    && (forall q :: q in positions ==> q < Size(w))
    && forall r: nat :: r < Size(w) && r !in w.tombs ==> (w.l.positions[r] in positions <==> PathHit(w, ask.terms, r))
  }

  ghost function RecordsAt(positions: set<nat>, w: World): (s: set<nat>)
    requires IsWorld(w)
    ensures Inside(s, w)
  {
    set r | 0 <= r < Size(w) && w.l.positions[r] in positions
  }

  /** Enumerating a final set gives the keys of the hits that pass. */
  lemma FinalKeys(positions: set<nat>, ask: Ask, w: World)
    requires IsAsk(ask, w) && IsFinal(positions, ask, w)
    ensures ChosenKeys(ask, w, RecordsAt(positions, w)) == ChosenKeys(ask, w, BaseHits(ask, w))
  {
    hide PathHit, MatchesFilter;
    assert Chosen(ask, w, RecordsAt(positions, w)) == Chosen(ask, w, BaseHits(ask, w)) by {
      forall r | 0 <= r < Size(w) && Passes(ask, r, w.names[r])
        ensures r in RecordsAt(positions, w) <==> r in BaseHits(ask, w)
      {
      }
    }
  }
}
