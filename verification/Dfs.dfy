/** Building the depth-first columns from a parent column (dfs.rs). */
module Dfs {
  import opened Records
  import opened Bits
  import Counting
  import opened TreeOrder
  import opened TreeBuild

  // ---- compressed sparse rows of children -------------------------------------------

  /** Row `p` of `children` is `starts[p] .. starts[p + 1]`. */
  datatype ChildTable = ChildTable(starts: seq<nat>, children: seq<nat>)

  ghost predicate HasRow(table: ChildTable, p: nat, row: seq<nat>) {
    && p + 1 < |table.starts| && table.starts[p] <= table.starts[p + 1] <= |table.children|
    && table.children[table.starts[p]..table.starts[p + 1]] == row
  }

  ghost predicate IsTable(parents: seq<Word>, table: ChildTable) {
    forall p: nat :: p < |parents| ==> HasRow(table, p, Kids(parents, p, |parents|))
  }

  ghost function Degree(parents: seq<Word>, p: nat, upto: nat): nat
    requires upto <= |parents|
  {
    |Kids(parents, p, upto)|
  }

  /** How many children the records before `p` have. */
  ghost function KidsBefore(parents: seq<Word>, p: nat): nat
    requires p <= |parents|
  {
    if p == 0 then 0 else KidsBefore(parents, p - 1) + Degree(parents, p - 1, |parents|)
  }

  lemma {:induction false} KidsBeforeMonotone(parents: seq<Word>, p: nat, q: nat)
    requires p <= q <= |parents|
    ensures KidsBefore(parents, p) <= KidsBefore(parents, q)
    ensures p < q ==> KidsBefore(parents, p) + Degree(parents, p, |parents|) <= KidsBefore(parents, q)
  {
    hide Degree;
    if p < q {
      KidsBeforeMonotone(parents, p, q - 1);
    }
  }

  lemma KidsGrow(parents: seq<Word>, p: nat, child: nat)
    requires child < |parents|
    ensures HasEdge(parents, child, p) ==> Kids(parents, p, child + 1) == Kids(parents, p, child) + [child]
    ensures !HasEdge(parents, child, p) ==> Kids(parents, p, child + 1) == Kids(parents, p, child)
  {
    hide HasEdge;
  }

  lemma NoDegree(parents: seq<Word>)
    ensures forall p: nat :: Degree(parents, p, 0) == 0
  {
  }

  lemma DegreeGrow(parents: seq<Word>, child: nat, next: nat)
    requires child < |parents| && next == child + 1
    ensures forall p: nat ::
      Degree(parents, p, next) == Degree(parents, p, child) + if HasEdge(parents, child, p) then 1 else 0
  {
    hide HasEdge, Kids;
    forall p: nat
      ensures Degree(parents, p, next) == Degree(parents, p, child) + if HasEdge(parents, child, p) then 1 else 0
    {
      KidsGrow(parents, p, child);
    }
  }

  lemma EdgeOf(parents: seq<Word>, child: nat)
    requires child < |parents|
    ensures forall p: nat :: HasEdge(parents, child, p) <==>
      p == UnpackParent(parents[child]) && p < |parents| && p != child
  {
  }

  lemma {:induction false} DegreeGrows(parents: seq<Word>, p: nat, m: nat, n: nat)
    requires m <= n <= |parents|
    ensures Degree(parents, p, m) <= Degree(parents, p, n)
  {
    hide HasEdge;
    if m < n {
      DegreeGrows(parents, p, m, n - 1);
      KidsGrow(parents, p, n - 1);
    }
  }

  /** Row `p` holds the children found among the first `upto` records. */
  ghost predicate RowFilled(parents: seq<Word>, children: seq<nat>, p: nat, upto: nat)
    requires upto <= |parents| && p < |parents|
  {
    && KidsBefore(parents, p) + Degree(parents, p, upto) <= |children|
    && children[KidsBefore(parents, p)..KidsBefore(parents, p) + Degree(parents, p, upto)] == Kids(parents, p, upto)
  }

  lemma SliceKept(s: seq<nat>, at: nat, v: nat, lo: nat, hi: nat)
    requires at < |s| && lo <= hi <= |s| && (at < lo || hi <= at)
    ensures s[at := v][lo..hi] == s[lo..hi]
  {
  }

  lemma SliceGrown(s: seq<nat>, v: nat, lo: nat, hi: nat)
    requires lo <= hi < |s|
    ensures s[hi := v][lo..hi + 1] == s[lo..hi] + [v]
  {
  }

  lemma FillOwnRow(parents: seq<Word>, children: seq<nat>, child: nat, p: nat)
    requires child < |parents| && p < |parents| && HasEdge(parents, child, p)
    requires RowFilled(parents, children, p, child)
    requires KidsBefore(parents, p) + Degree(parents, p, child) < |children|
    ensures RowFilled(parents, children[KidsBefore(parents, p) + Degree(parents, p, child) := child], p, child + 1)
  {
    hide Kids, HasEdge, KidsBefore;
    KidsGrow(parents, p, child);
    var lo, hi := KidsBefore(parents, p), KidsBefore(parents, p) + Degree(parents, p, child);
    SliceGrown(children, child, lo, hi);
    assert Degree(parents, p, child + 1) == hi + 1 - lo;
  }

  lemma FillOtherRow(parents: seq<Word>, children: seq<nat>, child: nat, parent: nat, p: nat)
    requires child < |parents| && p < |parents| && parent < |parents| && p != parent
    requires HasEdge(parents, child, parent) && !HasEdge(parents, child, p)
    requires RowFilled(parents, children, p, child)
    requires KidsBefore(parents, parent) + Degree(parents, parent, child) < |children|
    ensures RowFilled(parents, children[KidsBefore(parents, parent) + Degree(parents, parent, child) := child], p, child + 1)
  {
    hide Kids, HasEdge, KidsBefore;
    var at, next := KidsBefore(parents, parent) + Degree(parents, parent, child), child + 1;
    KidsGrow(parents, p, child);
    DegreeGrow(parents, child, next);
    DegreeGrows(parents, p, child, |parents|);
    DegreeGrows(parents, parent, next, |parents|);
    KidsBeforeMonotone(parents, if p < parent then p else parent, if p < parent then parent else p);
    hide Degree;
    SliceKept(children, at, child, KidsBefore(parents, p), KidsBefore(parents, p) + Degree(parents, p, child));
  }

  ghost predicate RowsFilled(parents: seq<Word>, children: seq<nat>, upto: nat)
    requires upto <= |parents|
  {
    |children| == KidsBefore(parents, |parents|)
    && forall p: nat :: p < |parents| ==> RowFilled(parents, children, p, upto)
  }

  lemma FillRows(parents: seq<Word>, children: seq<nat>, child: nat, parent: nat)
    requires child < |parents| && parent < |parents| && HasEdge(parents, child, parent)
    requires RowsFilled(parents, children, child)
    ensures KidsBefore(parents, parent) + Degree(parents, parent, child) < |children|
    ensures RowsFilled(parents, children[KidsBefore(parents, parent) + Degree(parents, parent, child) := child], child + 1)
  {
    hide HasEdge, Kids, KidsBefore, RowFilled;
    DegreeGrow(parents, child, child + 1);
    EdgeOf(parents, child);
    DegreeGrows(parents, parent, child + 1, |parents|);
    KidsBeforeMonotone(parents, parent, |parents|);
    hide Degree;
    var filled := children[KidsBefore(parents, parent) + Degree(parents, parent, child) := child];
    var next := child + 1;
    forall p: nat | p < |parents| ensures RowFilled(parents, filled, p, next) {
      if p == parent {
        FillOwnRow(parents, children, child, p);
      } else {
        FillOtherRow(parents, children, child, parent, p);
      }
    }
  }

  lemma SameRows(parents: seq<Word>, children: seq<nat>, child: nat)
    requires child < |parents| && RowsFilled(parents, children, child)
    requires forall p: nat :: !HasEdge(parents, child, p)
    ensures RowsFilled(parents, children, child + 1)
  {
    hide HasEdge, KidsBefore, RowFilled;
    var next := child + 1;
    forall p: nat | p < |parents| ensures RowFilled(parents, children, p, next) {
      SameRow(parents, children, child, p);
    }
  }

  lemma SameRow(parents: seq<Word>, children: seq<nat>, child: nat, p: nat)
    requires child < |parents| && p < |parents| && !HasEdge(parents, child, p)
    requires RowFilled(parents, children, p, child)
    ensures RowFilled(parents, children, p, child + 1)
  {
    KidsGrow(parents, p, child);
    hide Kids;
  }

  lemma EmptyRows(parents: seq<Word>, children: seq<nat>)
    requires |children| == KidsBefore(parents, |parents|)
    ensures RowsFilled(parents, children, 0)
  {
    forall p: nat | p < |parents| ensures RowFilled(parents, children, p, 0) {
      KidsBeforeMonotone(parents, p, |parents|);
    }
  }

  method BuildTable(parents: seq<Word>) returns (table: ChildTable)
    ensures IsTable(parents, table)
  {
    hide HasEdge, Kids, RowFilled, Degree, HasRow, KidsBefore, RowsFilled;
    var n := |parents|;
    NoDegree(parents);
    var starts := new nat[n + 1](_ => 0);
    for child := 0 to n
      invariant starts[0] == 0
      invariant forall p :: 0 <= p < n ==> starts[p + 1] == Degree(parents, p, child)
    {
      var parent := UnpackParent(parents[child]);
      EdgeOf(parents, child);
      DegreeGrow(parents, child, child + 1);
      // a self-parent or a dangling index has no row to be counted into
      if parent < n && parent != child {
        starts[parent + 1] := starts[parent + 1] + 1;
      }
    }
    NoneBefore(parents);
    for index := 1 to n + 1
      invariant forall p :: 0 <= p < index ==> starts[p] == KidsBefore(parents, p)
      invariant forall p :: index <= p <= n ==> starts[p] == Degree(parents, p - 1, n)
    {
      OneMoreBefore(parents, index);
      starts[index] := starts[index] + starts[index - 1];
    }
    var children := FillTable(parents, starts);
    table := ChildTable(starts[..], children);
    TableDone(parents, table);
  }

  lemma NoneBefore(parents: seq<Word>)
    ensures KidsBefore(parents, 0) == 0
  {
  }

  lemma OneMoreBefore(parents: seq<Word>, p: nat)
    requires 0 < p <= |parents|
    ensures KidsBefore(parents, p) == KidsBefore(parents, p - 1) + Degree(parents, p - 1, |parents|)
  {
  }

  lemma TableDone(parents: seq<Word>, table: ChildTable)
    requires |table.starts| == |parents| + 1 && RowsFilled(parents, table.children, |parents|)
    requires forall p :: 0 <= p <= |parents| ==> table.starts[p] == KidsBefore(parents, p)
    ensures IsTable(parents, table)
  {
    hide Kids, RowFilled, KidsBefore;
    forall p: nat | p < |parents| ensures HasRow(table, p, Kids(parents, p, |parents|)) {
      OneMoreBefore(parents, p + 1);
      KidsBeforeMonotone(parents, p + 1, |parents|);
      RowDone(parents, table.children, p);
    }
  }

  lemma RowDone(parents: seq<Word>, children: seq<nat>, p: nat)
    requires p < |parents| && RowFilled(parents, children, p, |parents|)
    ensures KidsBefore(parents, p + 1) <= |children|
    ensures children[KidsBefore(parents, p)..KidsBefore(parents, p + 1)] == Kids(parents, p, |parents|)
  {
  }

  /** `cursor` walks each row as it fills; `starts` survives intact. */
  method FillTable(parents: seq<Word>, starts: array<nat>) returns (filled: seq<nat>)
    requires starts.Length == |parents| + 1
    requires forall p :: 0 <= p <= |parents| ==> starts[p] == KidsBefore(parents, p)
    ensures RowsFilled(parents, filled, |parents|)
  {
    hide HasEdge, Kids, RowsFilled, KidsBefore, Degree;
    var n := |parents|;
    var children := new nat[starts[n]](_ => 0);
    var cursor := new nat[n + 1](i requires 0 <= i <= n reads starts => starts[i]);
    EmptyRows(parents, children[..]);
    NoDegree(parents);
    for child := 0 to n
      invariant forall p :: 0 <= p < n ==> cursor[p] == KidsBefore(parents, p) + Degree(parents, p, child)
      invariant RowsFilled(parents, children[..], child)
    {
      var parent := UnpackParent(parents[child]);
      EdgeOf(parents, child);
      DegreeGrow(parents, child, child + 1);
      if parent < n && parent != child {
        FillRows(parents, children[..], child, parent);
        children[cursor[parent]] := child;
        cursor[parent] := cursor[parent] + 1;
      } else {
        SameRows(parents, children[..], child);
      }
    }
    filled := children[..];
  }

  // ---- the traversal ----------------------------------------------------------------

  /** The columns while they are being filled. */
  class DfsLayout {
    const positions: array<nat>
    var records: seq<nat>
    const ends: array<nat>

    constructor (n: nat)
      ensures fresh(positions) && fresh(ends) && positions != ends
      ensures records == [] && positions.Length == ends.Length == n
    {
      positions := new nat[n](_ => 0);
      records := [];
      ends := new nat[n](_ => 0);
    }

    /** The columns are `l`, and the bitmap marks exactly the records placed so far. */
    ghost predicate Holds(n: nat, l: Layout, visited: array<bv8>)
      reads this, positions, ends, visited
    {
      && positions != ends && (visited as object) != positions && (visited as object) != ends
      && positions.Length == ends.Length == n && visited.Length == BytesFor(n)
      && l == Layout(positions[..], records, ends[..])
      && forall r: nat :: r < n ==> (Bit(visited[..], r) <==> Seen(l, r))
    }

    method IsVisited(visited: array<bv8>, record: nat, ghost n: nat, ghost l: Layout) returns (b: bool)
      requires Holds(n, l, visited) && record < n
      ensures b <==> Seen(l, record)
    {
      b := Bit(visited[..], record);
    }

    /** Marks `record` visited and gives it the next position. */
    method Place(record: nat, visited: array<bv8>, ghost n: nat, ghost l: Layout)
      requires Holds(n, l, visited) && record < n && Sized(n, l) && !Seen(l, record)
      modifies this`records, positions, visited
      ensures Holds(n, Add(l, record), visited)
    {
      AddSeen(n, l, record);
      hide Seen, Bit;
      SetBit(visited, record);
      positions[record] := |records|;
      records := records + [record];
      assert positions[..] == old(positions[..])[record := old(|records|)];
    }

    /** Closes the span of the record on top of the stack. */
    method CloseSpan(record: nat, visited: array<bv8>, ghost n: nat, ghost l: Layout, ghost path: seq<nat>)
      requires Holds(n, l, visited) && path != [] && path[|path| - 1] == record < n
      modifies ends
      ensures Holds(n, Close(l, path), visited)
    {
      ends[record] := |records|;
      assert ends[..] == old(ends[..])[record := |records|];
    }
  }

  /** A stack entry: a record and the index of the next of its children to descend into. */
  datatype Frame = Frame(record: nat, next: nat)

  ghost predicate StackIs(stack: seq<Frame>, s: State) {
    && |stack| == |s.path| == |s.nexts|
    && forall j :: 0 <= j < |stack| ==> stack[j] == Frame(s.path[j], s.nexts[j])
  }

  /** Columns never hold more records than there are. */
  lemma AtMostAll(n: nat, l: Layout)
    requires Sized(n, l)
    ensures |l.records| <= n
  {
    Counting.Pigeonhole(l.records, n);
  }

  /** What the loop reads off its invariant. */
  lemma TopFacts(parents: seq<Word>, s: State)
    requires Going(parents, s)
    ensures Sized(|parents|, s.l) && |s.l.records| <= |parents| && |s.nexts| == |s.path|
    ensures |s.l.positions| == |s.l.ends| == |parents|
    ensures s.path != [] ==>
      && s.path[|s.path| - 1] < |parents|
      && s.nexts[|s.path| - 1] <= |Kids(parents, s.path[|s.path| - 1], |parents|)|
  {
    hide SpansNest, SpansLinked, HeadsApart, SiblingsOrdered, LaterKidsLarger, HeadsExact, HasEdge, Kids;
    AtMostAll(|parents|, s.l);
  }

  /** Looks through the children of the record on top of the stack for one to descend into. */
  method Descend(parents: seq<Word>, children: seq<nat>, visited: array<bv8>, layout: DfsLayout,
                 frames: seq<Frame>, ghost s: State, ghost start: nat)
    returns (stack: seq<Frame>, descended: bool, ghost t: State)
    requires Going(parents, s) && Below(parents, s, start) && StackIs(frames, s) && frames != []
    requires layout.Holds(|parents|, s.l, visited)
    requires children == Kids(parents, frames[|frames| - 1].record, |parents|)
    modifies layout`records, layout.positions, visited
    ensures Going(parents, t) && Below(parents, t, start) && StackIs(stack, t) && t.heads == s.heads
    ensures layout.Holds(|parents|, t.l, visited)
    ensures descended ==> |t.l.records| == |s.l.records| + 1
    ensures descended ==> forall r: nat :: Seen(s.l, r) ==> Seen(t.l, r)
    ensures !descended ==> t.l == s.l && |stack| == |frames|
    ensures !descended ==> stack[|stack| - 1].record == frames[|frames| - 1].record
    ensures !descended ==> stack[|stack| - 1].next == |children|
  {
    hide Going, Below, Seen, Kids, HasEdge, Sized, layout.Holds;
    var n := |parents|;
    stack, t, descended := frames, s, false;
    var top := |stack| - 1;
    var record := stack[top].record;
    TopFacts(parents, t);
    while stack[top].next < |children|
      invariant Going(parents, t) && Below(parents, t, start) && StackIs(stack, t)
      invariant |stack| == top + 1 && stack[top].record == record && stack[top].next <= |children|
      invariant t.l == s.l && t.heads == s.heads && layout.Holds(n, t.l, visited)
    {
      TopFacts(parents, t);
      var next := stack[top].next;
      var child := children[next];
      assert AtChild(parents, t, child);
      ChildIsEdge(parents, t, child);
      stack := stack[top := Frame(record, next + 1)];
      // a cycle re-enters a record already placed; it keeps the position it was first given
      var seen := layout.IsVisited(visited, child, n, t.l);
      if seen {
        AdvanceKeeps(parents, t, child);
        AdvanceBelow(parents, t, start);
        t := Advance(t);
        continue;
      }
      AddSeen(n, t.l, child);
      PushKeeps(parents, t, start, child);
      layout.Place(child, visited, n, t.l);
      t := Push(t, child);
      stack := stack + [Frame(child, 0)];
      return stack, true, t;
    }
  }

  method Walk(start: nat, parents: seq<Word>, table: ChildTable, visited: array<bv8>, layout: DfsLayout, ghost s: State)
    returns (ghost t: State)
    requires IsTable(parents, table) && start < |parents|
    requires Going(parents, s) && s.path == [] && layout.Holds(|parents|, s.l, visited)
    requires forall h :: h in s.heads ==> !HeadBefore(parents, start, h)
    requires IsRoot(parents, start) || forall c: nat :: c < start || IsRoot(parents, c) ==> Seen(s.l, c)
    modifies layout`records, layout.positions, layout.ends, visited
    ensures Going(parents, t) && t.path == [] && layout.Holds(|parents|, t.l, visited)
    ensures t.heads <= s.heads + {start} && Seen(t.l, start)
    ensures forall r: nat :: Seen(s.l, r) ==> Seen(t.l, r)
  {
    hide Going, Below, Seen, Kids, HeadBefore, HasEdge, Sized, layout.Holds;
    t := s;
    var n := |parents|;
    var skip := layout.IsVisited(visited, start, n, s.l);
    if skip {
      return;
    }
    TopFacts(parents, s);
    AddSeen(n, s.l, start);
    EnterKeeps(parents, s, start);
    layout.Place(start, visited, n, t.l);
    t := Enter(s, start);
    var stack := [Frame(start, 0)];

    while stack != []
      invariant Going(parents, t) && Below(parents, t, start) && StackIs(stack, t)
      invariant layout.Holds(n, t.l, visited) && t.heads == s.heads + {start}
      invariant forall r: nat :: Seen(s.l, r) || r == start ==> Seen(t.l, r)
      decreases n - |t.l.records|, |stack|
    {
      TopFacts(parents, t);
      var record := stack[|stack| - 1].record;
      assert HasRow(table, record, Kids(parents, record, n));
      var children := table.children[table.starts[record]..table.starts[record + 1]];
      var descended;
      stack, descended, t := Descend(parents, children, visited, layout, stack, t, start);
      TopFacts(parents, t);
      if !descended {
        FinishKeeps(parents, t, start);
        FinishSeen(parents, t);
        layout.CloseSpan(record, visited, n, t.l, t.path);
        t := Finish(t);
        stack := stack[..|stack| - 1];
      }
    }
  }

  lemma AdvanceBelow(parents: seq<Word>, s: State, head: nat)
    requires |s.nexts| == |s.path| && s.path != [] && Below(parents, s, head)
    ensures Below(parents, Advance(s), head)
  {
  }

  lemma FinishSeen(parents: seq<Word>, s: State)
    requires Going(parents, s) && s.path != [] && s.path[|s.path| - 1] < |parents|
    ensures forall r: nat :: Seen(Finish(s).l, r) == Seen(s.l, r)
  {
    hide SpansNest, SpansLinked, HeadsApart, SiblingsOrdered, LaterKidsLarger, HeadsExact, ChildrenSeen;
  }

  /** No record has been entered. */
  lemma StartGoing(parents: seq<Word>, l: Layout)
    requires |l.positions| == |l.ends| == |parents| && l.records == []
    ensures Going(parents, State(l, [], [], {}))
  {
  }

  lemma AllSeen(parents: seq<Word>, s: State)
    requires Going(parents, s) && s.path == []
    requires forall r: nat :: r < |parents| ==> Seen(s.l, r)
    ensures IsLayout(parents, s.l)
  {
    hide SpansNest, SpansLinked, HeadsApart, SiblingsOrdered, LaterKidsLarger, HeadsExact, ChildrenSeen, IsLayout, HasEdge;
    AtMostAll(|parents|, s.l);
    forall i | 0 <= i < |s.l.positions|
      ensures s.l.positions[i] < |s.l.records| && s.l.records[s.l.positions[i]] == i
    {
      assert Seen(s.l, i);
    }
    Counting.Pigeonhole(s.l.positions, |s.l.records|);
    DoneIsLayout(parents, s);
  }

  /** Roots are entered in record order, then whatever is left as the start of its own tree. */
  method Build(parents: seq<Word>) returns (columns: Layout)
    requires |parents| < PARENT_NONE
    ensures IsLayout(parents, columns)
  {
    hide Going, Seen, IsTable, HasEdge, IsLayout, Permutation;
    var n := |parents|;
    var table := BuildTable(parents);
    var layout := new DfsLayout(n);
    var visited := new bv8[BytesFor(n)](_ => 0);
    ghost var s := State(Layout(layout.positions[..], [], layout.ends[..]), [], [], {});
    StartGoing(parents, s.l);
    assert layout.Holds(n, s.l, visited) by { NothingSeen(n, s.l, visited[..]); }
    hide layout.Holds;

    for start := 0 to n
      invariant Going(parents, s) && s.path == [] && layout.Holds(n, s.l, visited)
      invariant forall h :: h in s.heads ==> IsRoot(parents, h) && h < start
      invariant forall r: nat :: r < start && IsRoot(parents, r) ==> Seen(s.l, r)
    {
      var parent := UnpackParent(parents[start]);
      var isRoot := parent == PARENT_NONE || parent >= n || parent == start;
      assert isRoot == IsRoot(parents, start) by { EdgeOf(parents, start); }
      if !isRoot {
        continue;
      }
      s := Walk(start, parents, table, visited, layout, s);
    }
    // anything still unvisited sits on a cycle or hangs off one
    for start := 0 to n
      invariant Going(parents, s) && s.path == [] && layout.Holds(n, s.l, visited)
      invariant forall h :: h in s.heads ==> IsRoot(parents, h) || h < start
      invariant forall r: nat :: r < start || IsRoot(parents, r) ==> Seen(s.l, r)
    {
      var seen := layout.IsVisited(visited, start, n, s.l);
      if !seen {
        s := Walk(start, parents, table, visited, layout, s);
      }
    }
    AllSeen(parents, s);
    columns := Layout(layout.positions[..], layout.records, layout.ends[..]);
    assert columns == s.l by { HoldsColumns(layout, n, s.l, visited); }
  }

  lemma NothingSeen(n: nat, l: Layout, visited: seq<bv8>)
    requires l.records == [] && forall i :: 0 <= i < |visited| ==> visited[i] == 0
    ensures forall r: nat :: r < n ==> (Bit(visited, r) <==> Seen(l, r))
  {
  }

  lemma HoldsColumns(layout: DfsLayout, n: nat, l: Layout, visited: array<bv8>)
    requires layout.Holds(n, l, visited)
    ensures l == Layout(layout.positions[..], layout.records, layout.ends[..])
  {
  }
}
