/** Owned construction from records in any order (arena/builder.rs). */
module ArenaBuild {
  import opened Records
  import opened Ascii
  import opened Bits
  import opened TreeOrder
  import Compaction
  import Aggregates
  import Counting
  import Dfs
  import Names
  import Sorting

  const U32_MAX: nat := 0xFFFF_FFFF

  /** What the caller pushed for one record; parents are insertion indices. */
  datatype Staged = Staged(name: Name, parent: nat, mtime: nat, isDir: bool, sizeBytes: nat, exact: bool, frn: Option<nat>)

  /** The columns of an arena apart from the encoded names. */
  datatype Columns = Columns(names: seq<Name>, parents: seq<Word>, mtimes: seq<nat>, sizes: seq<nat>, exactBits: seq<bv8>,
                             layout: Layout, sizePrefix: seq<nat>)

  // ---- staging ---------------------------------------------------------------------------

  function NameStart(ends: seq<nat>, i: nat): nat
    requires i < |ends|
  {
    if i == 0 then 0 else ends[i - 1]
  }

  /** The ends cut the blob into names. */
  ghost predicate Cuts(blob: Name, ends: seq<nat>) {
    && (forall i: nat :: i < |ends| ==> NameStart(ends, i) <= ends[i] <= |blob|)
    && |blob| == if ends == [] then 0 else ends[|ends| - 1]
  }

  function NameAt(blob: Name, ends: seq<nat>, i: nat): Name
    requires Cuts(blob, ends) && i < |ends|
  {
    blob[NameStart(ends, i)..ends[i]]
  }

  lemma CutsStep(blob: Name, ends: seq<nat>, name: Name)
    requires Cuts(blob, ends)
    ensures Cuts(blob + name, ends + [|blob + name|])
    ensures forall i: nat :: i < |ends| ==> NameAt(blob + name, ends + [|blob + name|], i) == NameAt(blob, ends, i)
    ensures NameAt(blob + name, ends + [|blob + name|], |ends|) == name
  {
    var next := ends + [|blob + name|];
    forall i: nat | i < |next| ensures NameStart(next, i) <= next[i] <= |blob + name| {
      if i < |ends| {
        assert NameStart(next, i) == NameStart(ends, i) && next[i] == ends[i];
      }
    }
    forall i: nat | i < |ends| ensures NameAt(blob + name, next, i) == NameAt(blob, ends, i) {
      assert NameStart(next, i) == NameStart(ends, i) && next[i] == ends[i];
    }
  }

  // ---- the sort order --------------------------------------------------------------------

  /** By name, ties by insertion index. */
  predicate Comes(names: seq<Name>, a: nat, b: nat)
    requires a < |names| && b < |names|
  {
    Below(names[a], names[b]) || (CmpCi(names[a], names[b]) == Equal && a <= b)
  }

  /** The same as an order on all indices. */
  function ByName(names: seq<Name>): (nat, nat) -> bool {
    (a: nat, b: nat) => if a < |names| && b < |names| then Comes(names, a, b) else a <= b
  }

  lemma ComesTotal(names: seq<Name>, a: nat, b: nat)
    requires a < |names| && b < |names|
    ensures Comes(names, a, b) || Comes(names, b, a)
    ensures Comes(names, a, b) && Comes(names, b, a) ==> a == b
  {
    CmpFlips(names[a], names[b]);
  }

  lemma ComesTransitive(names: seq<Name>, a: nat, b: nat, c: nat)
    requires a < |names| && b < |names| && c < |names| && Comes(names, a, b) && Comes(names, b, c)
    ensures Comes(names, a, c)
  {
    LeqTransitive(names[a], names[b], names[c]);
    TiesAreFolds(names[a], names[b]);
    TiesAreFolds(names[b], names[c]);
    TiesAreFolds(names[a], names[c]);
  }

  lemma ByNameIsOrder(names: seq<Name>)
    ensures Sorting.TotalOrder<nat>(ByName(names))
  {
    hide Comes;
    var leq := ByName(names);
    forall a: nat, b: nat ensures (leq(a, b) || leq(b, a)) && (leq(a, b) && leq(b, a) ==> a == b) {
      if a < |names| && b < |names| {
        ComesTotal(names, a, b);
      }
    }
    forall a: nat, b: nat, c: nat | leq(a, b) && leq(b, c) ensures leq(a, c) {
      if a < |names| && b < |names| && c < |names| {
        ComesTransitive(names, a, b, c);
      }
    }
  }

  /** A permutation of the indices, in name order, equal names in insertion order. */
  ghost predicate IsOrder(names: seq<Name>, order: seq<nat>) {
    && |order| == |names|
    && (forall s :: 0 <= s < |order| ==> order[s] < |names|)
    && (forall r: nat :: r < |names| ==> r in order)
    && forall s, t :: 0 <= s < t < |order| ==> order[s] != order[t] && Precedes(names, order[s], order[t])
  }

  ghost predicate Precedes(names: seq<Name>, a: nat, b: nat) {
    && a < |names| && b < |names| && !Below(names[b], names[a])
    && (CmpCi(names[a], names[b]) == Equal ==> a <= b)
  }

  lemma ComesIsPrecedes(names: seq<Name>, a: nat, b: nat)
    requires a < |names| && b < |names|
    ensures Precedes(names, a, b) <==> Comes(names, a, b)
  {
    CmpFlips(names[a], names[b]);
  }

  method SortByName(names: seq<Name>) returns (order: seq<nat>)
    ensures IsOrder(names, order)
  {
    hide Sorting.Increasing, Sorting.TotalOrder, IsOrder;
    var indices: seq<nat> := seq(|names|, i requires 0 <= i < |names| => i as nat);
    ByNameIsOrder(names);
    order := Sorting.SortDedup<nat>(indices, ByName(names));
    DistinctIsOrder(names, indices, order);
  }

  lemma DistinctIsOrder(names: seq<Name>, indices: seq<nat>, order: seq<nat>)
    requires |indices| == |names| && forall i: nat :: i < |indices| ==> indices[i] == i
    requires Sorting.Increasing<nat>(order, ByName(names)) && |order| <= |indices| && forall y :: y in order <==> y in indices
    ensures IsOrder(names, order)
  {
    hide Comes, Precedes;
    var n := |names|;
    forall r: nat | r < n ensures r in order {
      assert indices[r] == r;
    }
    forall s | 0 <= s < |order| ensures order[s] < n {
      assert order[s] in order;
    }
    Counting.SeqSize(order);
    Counting.Subset(Counting.Below(n), Counting.Elements(order));
    var leq := ByName(names);
    forall s, t | 0 <= s < t < |order| ensures order[s] != order[t] && Precedes(names, order[s], order[t]) {
      assert leq(order[s], order[t]);
      ComesIsPrecedes(names, order[s], order[t]);
    }
  }

  lemma OrderSorts(names: seq<Name>, order: seq<nat>, sorted: seq<Name>)
    requires IsOrder(names, order) && |sorted| == |order|
    requires forall s :: 0 <= s < |order| ==> sorted[s] == names[order[s]]
    ensures Names.Sorted(sorted)
  {
    forall i, j | 0 <= i <= j < |sorted| ensures Leq(sorted[i], sorted[j]) {
      if i < j {
        assert Precedes(names, order[i], order[j]);
        CmpFlips(sorted[i], sorted[j]);
      } else {
        CmpFlips(sorted[i], sorted[i]);
      }
    }
  }

  /** Only one permutation is sorted this way, so the unstable sort and the heap behind it cannot matter. */
  lemma {:induction false} TheoremOrderIsUnique(names: seq<Name>, a: seq<nat>, b: seq<nat>, k: nat)
    requires IsOrder(names, a) && IsOrder(names, b) && k <= |names|
    ensures a[..k] == b[..k]
  {
    if k > 0 {
      var s := k - 1;
      TheoremOrderIsUnique(names, a, b, s);
      if a[s] != b[s] {
        assert a[s] in b && b[s] in a;
        var i :| 0 <= i < |b| && b[i] == a[s];
        var j :| 0 <= j < |a| && a[j] == b[s];
        NotEarlier(names, a, b, s, j);
        NotEarlier(names, b, a, s, i);
        assert Precedes(names, a[s], a[j]) && Precedes(names, b[s], b[i]);
        CmpFlips(names[a[s]], names[b[s]]);
      }
      assert a[..k] == a[..s] + [a[s]] && b[..k] == b[..s] + [b[s]];
    }
  }

  lemma NotEarlier(names: seq<Name>, a: seq<nat>, b: seq<nat>, s: nat, j: nat)
    requires IsOrder(names, a) && IsOrder(names, b) && s < |a| && a[..s] == b[..s] && j < |a| && a[j] == b[s]
    ensures j >= s
  {
    SamePrefix(a, b, s);
  }

  lemma SamePrefix(a: seq<nat>, b: seq<nat>, s: nat)
    requires s <= |a| && s <= |b| && a[..s] == b[..s]
    ensures forall j :: 0 <= j < s ==> a[j] == b[j]
  {
    forall j | 0 <= j < s ensures a[j] == b[j] {
      assert a[..s][j] == b[..s][j];
    }
  }

  // ---- remapping -------------------------------------------------------------------------

  /** `rank` undoes `order`. */
  ghost predicate Inverse(order: seq<nat>, rank: seq<nat>) {
    && |rank| == |order|
    && (forall s :: 0 <= s < |order| ==> order[s] < |rank| && rank[order[s]] == s)
    && forall r :: 0 <= r < |rank| ==> rank[r] < |order| && order[rank[r]] == r
  }

  method Invert(order: seq<nat>, ghost names: seq<Name>) returns (result: seq<nat>)
    requires IsOrder(names, order)
    ensures Inverse(order, result)
  {
    var rank := new nat[|order|](_ => 0);
    for j := 0 to |order|
      invariant forall s :: 0 <= s < j ==> rank[order[s]] == s
    {
      rank[order[j]] := j;
    }
    result := rank[..];
    forall r | 0 <= r < |result| ensures result[r] < |order| && order[result[r]] == r {
      assert r in order;
    }
  }

  /** The parent word of an arena record, from what was staged for it. */
  function ParentWord(row: Staged, rank: seq<nat>): Word
    requires row.parent != PARENT_NONE ==> row.parent < |rank| && rank[row.parent] <= PARENT_NONE
  {
    PackParent(if row.parent == PARENT_NONE then PARENT_NONE else rank[row.parent], row.isDir)
  }

  /** set_parent was only ever given insertion indices. */
  ghost predicate ParentsInRange(rows: seq<Staged>) {
    forall i :: 0 <= i < |rows| ==> rows[i].parent == PARENT_NONE || rows[i].parent < |rows|
  }

  ghost predicate Buildable(rows: seq<Staged>) {
    |rows| < PARENT_NONE && ParentsInRange(rows)
  }

  function StagedNames(rows: seq<Staged>): (names: seq<Name>)
    ensures |names| == |rows| && forall i :: 0 <= i < |rows| ==> names[i] == rows[i].name
  {
    seq(|rows|, i requires 0 <= i < |rows| => rows[i].name)
  }

  /** Slot `s` of the arena holds staged row `order[s]`, its parent renamed. */
  ghost predicate Placed(rows: seq<Staged>, order: seq<nat>, rank: seq<nat>, c: Columns)
    requires Buildable(rows)
  {
    && |order| == |rank| == |rows| == |c.names| == |c.parents| == |c.mtimes| == |c.sizes|
    && forall s :: 0 <= s < |rows| ==> order[s] < |rows| && SlotHolds(rows, rank, c, s, order[s])
  }

  ghost predicate SlotHolds(rows: seq<Staged>, rank: seq<nat>, c: Columns, s: nat, r: nat)
    requires Buildable(rows) && r < |rows| == |rank| && s < |c.names| && s < |c.parents| && s < |c.mtimes| && s < |c.sizes|
  {
    && (rows[r].parent != PARENT_NONE ==> rank[rows[r].parent] <= PARENT_NONE)
    && c.names[s] == rows[r].name
    && c.parents[s] == ParentWord(rows[r], rank)
    && c.mtimes[s] == rows[r].mtime
    && c.sizes[s] == Compaction.BytesToSizeKib(rows[r].sizeBytes)
  }

  function Appended(c: Columns, row: Staged, rank: seq<nat>): Columns
    requires row.parent != PARENT_NONE ==> row.parent < |rank| && rank[row.parent] <= PARENT_NONE
  {
    c.(names := c.names + [row.name], parents := c.parents + [ParentWord(row, rank)], mtimes := c.mtimes + [row.mtime],
       sizes := c.sizes + [Compaction.BytesToSizeKib(row.sizeBytes)])
  }

  /** The first `s` slots are placed. */
  ghost predicate Filled(rows: seq<Staged>, order: seq<nat>, rank: seq<nat>, c: Columns, s: nat)
    requires Buildable(rows)
  {
    && |order| == |rank| == |rows| && s == |c.names| == |c.parents| == |c.mtimes| == |c.sizes| <= |rows|
    && forall t :: 0 <= t < s ==> order[t] < |rows| && SlotHolds(rows, rank, c, t, order[t])
  }

  lemma FilledStep(rows: seq<Staged>, order: seq<nat>, rank: seq<nat>, c: Columns, s: nat)
    requires Buildable(rows) && Filled(rows, order, rank, c, s) && Inverse(order, rank) && s < |order|
    ensures order[s] < |rows|
    ensures rows[order[s]].parent != PARENT_NONE ==>
              rows[order[s]].parent < |rank| && rank[rows[order[s]].parent] <= PARENT_NONE
    ensures Filled(rows, order, rank, Appended(c, rows[order[s]], rank), s + 1)
  {
    var d := Appended(c, rows[order[s]], rank);
    hide Compaction.BytesToSizeKib, PackParent;
    forall t | 0 <= t < s ensures SlotHolds(rows, rank, d, t, order[t]) {
      assert SlotHolds(rows, rank, c, t, order[t]);
    }
  }

  /** The tree columns say what their readers rely on. */
  ghost predicate IsArena(c: Columns, raw: seq<bool>) {
    && |c.parents| < PARENT_NONE && |c.sizes| == |c.parents| == |raw|
    && Names.Sorted(c.names) && IsLayout(c.parents, c.layout)
    && (forall r: nat :: r < |c.parents| ==> (Bit(c.exactBits, r) <==> Aggregates.Exact(c.parents, c.layout, raw, r)))
    && |c.sizePrefix| == |c.parents| + 1
    && forall k :: 0 <= k < |c.sizePrefix| ==> c.sizePrefix[k] == Aggregates.Prefix(c.layout.records, c.sizes, k)
  }

  /**
   * What a slot says about its staged record: name, time, kind, size in whole KiB, and the
   * slot of the record that was its parent.
   */
  ghost predicate Tells(rows: seq<Staged>, order: seq<nat>, c: Columns, s: nat)
    requires s < |order| && order[s] < |rows| && |c.names| == |c.parents| == |c.mtimes| == |c.sizes| == |order|
  {
    var row := rows[order[s]];
    && c.names[s] == row.name && c.mtimes[s] == row.mtime
    && (WordIsDir(c.parents[s]) <==> row.isDir)
    && Compaction.IsKibOf(c.sizes[s], row.sizeBytes)
    && (row.parent == PARENT_NONE ==> UnpackParent(c.parents[s]) == PARENT_NONE)
    && (row.parent != PARENT_NONE ==> UnpackParent(c.parents[s]) < |order| && order[UnpackParent(c.parents[s])] == row.parent)
  }

  /** A staged file is exact as it was staged, a directory if no staged file at or below it is inexact. */
  ghost predicate ExactAsStaged(rows: seq<Staged>, order: seq<nat>, c: Columns, s: nat)
    requires s < |order| == |c.parents| < PARENT_NONE && IsForest(c.parents, c.layout)
    requires forall k :: 0 <= k < |order| ==> order[k] < |rows|
  {
    Bit(c.exactBits, s) <==>
      if rows[order[s]].isDir
      then forall f: nat :: f < |order| && f in Aggregates.Descendants(c.parents, c.layout, s) ==>
             rows[order[f]].isDir || rows[order[f]].exact
      else rows[order[s]].exact
  }

  /** The arena tells of every staged record what was staged. */
  ghost predicate IsBuiltFrom(rows: seq<Staged>, order: seq<nat>, c: Columns) {
    && |c.names| == |c.parents| == |c.mtimes| == |c.sizes| == |order| < PARENT_NONE && IsForest(c.parents, c.layout)
    && (forall s :: 0 <= s < |order| ==> order[s] < |rows|)
    && (forall s: nat :: s < |order| ==> Tells(rows, order, c, s))
    && (forall s: nat :: s < |order| ==> ExactAsStaged(rows, order, c, s))
  }

  lemma SlotTells(rows: seq<Staged>, order: seq<nat>, rank: seq<nat>, c: Columns, s: nat)
    requires Buildable(rows) && Inverse(order, rank) && Placed(rows, order, rank, c) && s < |rows|
    ensures Tells(rows, order, c, s)
  {
    var row := rows[order[s]];
    assert SlotHolds(rows, rank, c, s, order[s]);
    Compaction.TheoremKib(row.sizeBytes);
    hide Compaction.BytesToSizeKib, Compaction.IsKibOf;
    Compaction.PackUnpack(PARENT_NONE, row.isDir);
    if row.parent != PARENT_NONE {
      Compaction.PackUnpack(rank[row.parent], row.isDir);
    }
  }

  lemma DescendantsInside(parents: seq<Word>, l: Layout, a: nat)
    requires IsForest(parents, l) && |parents| < PARENT_NONE
    ensures forall f :: f in Aggregates.Descendants(parents, l, a) ==> f < |parents|
  {
    hide IsForest;
  }

  lemma SlotExact(rows: seq<Staged>, order: seq<nat>, c: Columns, raw: seq<bool>, s: nat)
    requires IsArena(c, raw) && |c.names| == |c.parents| == |c.mtimes| == |c.sizes| == |order| && s < |order|
    requires IsForest(c.parents, c.layout)
    requires forall k: nat :: k < |order| ==> order[k] < |rows| && raw[k] == rows[order[k]].exact && Tells(rows, order, c, k)
    ensures ExactAsStaged(rows, order, c, s)
  {
    hide IsForest, IsLayout, Bit, Aggregates.Descendants, Names.Sorted, Compaction.IsKibOf, UnpackParent, WordIsDir;
    DescendantsInside(c.parents, c.layout, s);
    assert Tells(rows, order, c, s);
    forall f: nat | f < |order| ensures WordIsDir(c.parents[f]) <==> rows[order[f]].isDir {
      assert Tells(rows, order, c, f);
    }
  }

  lemma BuiltFrom(rows: seq<Staged>, order: seq<nat>, rank: seq<nat>, c: Columns, raw: seq<bool>)
    requires Buildable(rows) && Inverse(order, rank) && Placed(rows, order, rank, c) && IsArena(c, raw)
    requires forall s :: 0 <= s < |order| ==> order[s] < |rows| && raw[s] == rows[order[s]].exact
    ensures IsBuiltFrom(rows, order, c)
  {
    hide Bit, SlotHolds, Tells, ExactAsStaged, Names.Sorted;
    LayoutParts(c.parents, c.layout);
    hide IsLayout, IsForest;
    forall s: nat | s < |order| ensures Tells(rows, order, c, s) {
      SlotTells(rows, order, rank, c, s);
    }
    forall s: nat | s < |order| ensures ExactAsStaged(rows, order, c, s) {
      SlotExact(rows, order, c, raw, s);
    }
  }

  // ---- the tree survives the sort ----------------------------------------------------------

  /** The raw parent column in insertion order. */
  function StagedParents(rows: seq<Staged>): (parents: seq<Word>)
    requires Buildable(rows)
    ensures |parents| == |rows| && forall i :: 0 <= i < |rows| ==> parents[i] == PackParent(rows[i].parent, rows[i].isDir)
  {
    seq(|rows|, i requires 0 <= i < |rows| => PackParent(rows[i].parent, rows[i].isDir))
  }

  /** Sorting renames the parent graph and changes nothing else about it. */
  lemma {:induction false} TheoremBuildKeepsAncestry(rows: seq<Staged>, order: seq<nat>, rank: seq<nat>, c: Columns, s: nat, a: nat, hops: nat)
    requires Buildable(rows) && Inverse(order, rank) && Placed(rows, order, rank, c) && s < |rows| && a < |rows|
    ensures Climbs(c.parents, s, a, hops) <==> Climbs(StagedParents(rows), order[s], order[a], hops)
    decreases hops
  {
    EdgeRenamed(rows, order, rank, c, s);
    if hops > 0 && HasEdge(c.parents, s, Parent(c.parents, s)) {
      TheoremBuildKeepsAncestry(rows, order, rank, c, Parent(c.parents, s), a, hops - 1);
    }
  }

  lemma EdgeRenamed(rows: seq<Staged>, order: seq<nat>, rank: seq<nat>, c: Columns, s: nat)
    requires Buildable(rows) && Inverse(order, rank) && Placed(rows, order, rank, c) && s < |rows|
    ensures var staged, r := StagedParents(rows), order[s];
            && (HasEdge(c.parents, s, Parent(c.parents, s)) <==> HasEdge(staged, r, Parent(staged, r)))
            && (HasEdge(c.parents, s, Parent(c.parents, s)) ==> order[Parent(c.parents, s)] == Parent(staged, r))
  {
    var r := order[s];
    assert SlotHolds(rows, rank, c, s, r);
    Compaction.PackUnpack(rows[r].parent, rows[r].isDir);
    if rows[r].parent != PARENT_NONE {
      Compaction.PackUnpack(rank[rows[r].parent], rows[r].isDir);
      assert order[rank[rows[r].parent]] == rows[r].parent;
    }
  }

  // ---- the builder -------------------------------------------------------------------------

  /** One entry for each record with a file reference number, in slot order. */
  function FrnEntries(rows: seq<Staged>, order: seq<nat>, upto: nat): seq<FrnEntry>
    requires upto <= |order| && forall s :: 0 <= s < |order| ==> order[s] < |rows|
  {
    if upto == 0 then []
    else
      FrnEntries(rows, order, upto - 1)
      + match rows[order[upto - 1]].frn case None => [] case Some(frn) => [FrnEntry(frn, upto - 1)]
  }

  lemma {:induction false} TheoremFrnEntries(rows: seq<Staged>, order: seq<nat>, upto: nat, e: FrnEntry)
    requires upto <= |order| && forall s :: 0 <= s < |order| ==> order[s] < |rows|
    ensures e in FrnEntries(rows, order, upto) <==> e.index < upto && rows[order[e.index]].frn == Some(e.frn)
  {
    if upto > 0 {
      TheoremFrnEntries(rows, order, upto - 1, e);
    }
  }

  class ArenaBuilder {
    var stagingNames: Name
    var nameEnds: seq<nat>
    var parents: seq<nat>
    var mtimes: seq<nat>
    var dirs: seq<bool>
    var sizes: seq<nat>
    var sizeExact: seq<bool>
    var frns: seq<Option<nat>>

    ghost predicate Valid()
      reads this
    {
      Cuts(stagingNames, nameEnds)
      && |nameEnds| == |parents| == |mtimes| == |dirs| == |sizes| == |sizeExact| == |frns|
    }

    /** What has been pushed, in order. */
    ghost function Rows(): (rows: seq<Staged>)
      requires Valid()
      reads this
      ensures |rows| == |nameEnds|
    {
      seq(|nameEnds|, i requires 0 <= i < |nameEnds| && Valid() reads this =>
        Staged(NameAt(stagingNames, nameEnds, i), parents[i], mtimes[i], dirs[i], sizes[i], sizeExact[i], frns[i]))
    }

    constructor ()
      ensures Valid() && Rows() == []
    {
      stagingNames, nameEnds, parents, mtimes, dirs, sizes, sizeExact, frns := [], [], [], [], [], [], [], [];
    }

    /** push_bytes_with_metadata_exact; offsets are 32 bits wide. */
    method Push(name: Name, mtimeSecs: nat, isDir: bool, frn: Option<nat>, sizeBytes: nat, exact: bool) returns (idx: nat)
      requires Valid() && |stagingNames| + |name| <= U32_MAX && |nameEnds| <= U32_MAX
      modifies this
      ensures Valid() && idx == |old(Rows())|
      ensures Rows() == old(Rows()) + [Staged(name, PARENT_NONE, mtimeSecs, isDir, sizeBytes, exact, frn)]
    {
      hide NameAt, Cuts, NameStart;
      CutsStep(stagingNames, nameEnds, name);
      idx := |nameEnds|;
      stagingNames := stagingNames + name;
      nameEnds := nameEnds + [|stagingNames|];
      parents := parents + [PARENT_NONE];
      mtimes := mtimes + [mtimeSecs];
      dirs := dirs + [isDir];
      frns := frns + [frn];
      sizes := sizes + [sizeBytes];
      sizeExact := sizeExact + [exact];
    }

    method SetParent(idx: nat, parent: nat)
      requires Valid() && idx < |parents|
      modifies this`parents
      ensures Valid() && Rows() == old(Rows())[idx := old(Rows())[idx].(parent := parent)]
    {
      parents := parents[idx := parent];
    }

    method SortedNames() returns (names: seq<Name>, order: seq<nat>)
      requires Valid()
      ensures names == StagedNames(Rows()) && IsOrder(names, order)
    {
      names := [];
      for i := 0 to |nameEnds|
        invariant |names| == i && forall k :: 0 <= k < i ==> names[k] == NameAt(stagingNames, nameEnds, k)
      {
        names := names + [NameAt(stagingNames, nameEnds, i)];
      }
      assert names == StagedNames(Rows());
      order := SortByName(names);
    }

    /** Appends staged record `r` to the columns. */
    method Place(c: Columns, r: nat, rank: seq<nat>) returns (d: Columns)
      requires Valid() && r < |parents| && (parents[r] != PARENT_NONE ==> parents[r] < |rank| && rank[parents[r]] <= PARENT_NONE)
      ensures d == Appended(c, Rows()[r], rank)
    {
      var newParent := if parents[r] == PARENT_NONE then PARENT_NONE else rank[parents[r]];
      d := c.(names := c.names + [NameAt(stagingNames, nameEnds, r)], parents := c.parents + [PackParent(newParent, dirs[r])],
              mtimes := c.mtimes + [mtimes[r]], sizes := c.sizes + [Compaction.BytesToSizeKib(sizes[r])]);
    }

    /** The columns in slot order, the tree columns still empty. */
    method Permute(order: seq<nat>, rank: seq<nat>) returns (c: Columns, raw: seq<bool>)
      requires Valid() && Buildable(Rows()) && |order| == |Rows()| && Inverse(order, rank)
      ensures Placed(Rows(), order, rank, c)
      ensures |raw| == |order| && forall s :: 0 <= s < |order| ==> order[s] < |Rows()| && raw[s] == Rows()[order[s]].exact
    {
      c := Columns([], [], [], [], [], Layout([], [], []), []);
      raw := [];
      for s := 0 to |order|
        invariant Filled(Rows(), order, rank, c, s)
        invariant |raw| == s && forall t :: 0 <= t < s ==> order[t] < |Rows()| && raw[t] == Rows()[order[t]].exact
      {
        FilledStep(Rows(), order, rank, c, s);
        hide Appended, Inverse, Buildable, Filled;
        c := Place(c, order[s], rank);
        raw := raw + [sizeExact[order[s]]];
      }
    }

    method CollectFrns(order: seq<nat>) returns (entries: seq<FrnEntry>)
      requires Valid() && forall s :: 0 <= s < |order| ==> order[s] < |Rows()|
      ensures entries == FrnEntries(Rows(), order, |order|)
    {
      entries := [];
      for s := 0 to |order|
        invariant entries == FrnEntries(Rows(), order, s)
      {
        assert Rows()[order[s]].frn == frns[order[s]];
        if frns[order[s]].Some? {
          entries := entries + [FrnEntry(frns[order[s]].value, s)];
        }
      }
    }

    /** Sorts by name, renames the parents and derives the tree columns. */
    method Build() returns (c: Columns, frnEntries: seq<FrnEntry>, ghost order: seq<nat>, ghost rank: seq<nat>, ghost raw: seq<bool>)
      requires Valid() && Buildable(Rows())
      ensures IsOrder(StagedNames(Rows()), order) && Inverse(order, rank) && Placed(Rows(), order, rank, c)
      ensures |raw| == |order| && forall s :: 0 <= s < |order| ==> raw[s] == Rows()[order[s]].exact
      ensures IsArena(c, raw) && IsBuiltFrom(Rows(), order, c)
      ensures frnEntries == FrnEntries(Rows(), order, |order|)
      ensures exists o :: IsOrder(StagedNames(Rows()), o) && IsBuiltFrom(Rows(), o, c) && frnEntries == FrnEntries(Rows(), o, |o|)
    {
      hide *;
      var names, sorted := SortedNames();
      var inverse := Invert(sorted, names);
      var exact;
      c, exact := Permute(sorted, inverse);
      order, rank, raw := sorted, inverse, exact;
      PlacedParts(Rows(), sorted, inverse, c);
      frnEntries := CollectFrns(sorted);
      var derived := DeriveTree(c, exact);
      StillPlaced(Rows(), sorted, inverse, c, derived);
      BuiltFrom(Rows(), sorted, inverse, derived, exact);
      c := derived;
    }
  }

  /** Tree order, exactness bits and size sums over the renamed parents. */
  method DeriveTree(c: Columns, raw: seq<bool>) returns (d: Columns)
    requires |c.parents| == |c.sizes| == |raw| < PARENT_NONE && Names.Sorted(c.names)
    requires forall r :: 0 <= r < |c.sizes| ==> c.sizes[r] < Aggregates.U32_LIMIT
    ensures d == c.(exactBits := d.exactBits, layout := d.layout, sizePrefix := d.sizePrefix)
    ensures IsArena(d, raw)
  {
    hide IsLayout, Bit;
    var layout := Dfs.Build(c.parents);
    LayoutParts(c.parents, layout);
    var bits := Aggregates.DeriveSizeExactBits(c.parents, layout, raw);
    var prefix := Aggregates.PrefixSumsU64(layout.records, c.sizes);
    d := c.(exactBits := bits, layout := layout, sizePrefix := prefix);
  }

  lemma LayoutParts(parents: seq<Word>, l: Layout)
    requires IsLayout(parents, l)
    ensures IsForest(parents, l) && |l.records| == |parents|
    ensures forall k :: 0 <= k < |l.records| ==> l.records[k] < |parents|
  {
  }

  lemma PlacedParts(rows: seq<Staged>, order: seq<nat>, rank: seq<nat>, c: Columns)
    requires Buildable(rows) && IsOrder(StagedNames(rows), order) && Placed(rows, order, rank, c)
    ensures |c.parents| == |c.sizes| == |rows| == |order| < PARENT_NONE && Names.Sorted(c.names)
    ensures forall s :: 0 <= s < |c.sizes| ==> c.sizes[s] < Aggregates.U32_LIMIT
    ensures forall s :: 0 <= s < |order| ==> order[s] < |rows|
  {
    forall s | 0 <= s < |order| ensures c.names[s] == StagedNames(rows)[order[s]] && c.sizes[s] < Aggregates.U32_LIMIT {
      assert SlotHolds(rows, rank, c, s, order[s]);
    }
    OrderSorts(StagedNames(rows), order, c.names);
  }

  lemma StillPlaced(rows: seq<Staged>, order: seq<nat>, rank: seq<nat>, c: Columns, d: Columns)
    requires Buildable(rows) && Placed(rows, order, rank, c)
    requires d == c.(exactBits := d.exactBits, layout := d.layout, sizePrefix := d.sizePrefix)
    ensures Placed(rows, order, rank, d)
  {
    forall s | 0 <= s < |rows| ensures SlotHolds(rows, rank, d, s, order[s]) {
      assert SlotHolds(rows, rank, c, s, order[s]);
    }
  }
}
