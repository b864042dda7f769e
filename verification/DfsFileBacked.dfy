/**
 The spool-backed twin of the traversal, used by compaction (dfs/file_backed.rs).

 A spool is an array here. The twin keeps the cursor of the top frame in a local variable and
 writes it back only when it descends; `TheoremLayoutUnique` makes its columns equal to `Dfs.Build`'s.
 */
module DfsFileBacked {
  import opened Records
  import opened Bits
  import opened TreeOrder
  import opened TreeBuild
  import opened Dfs

  /** `frames` is the stack of `s`, except that the cursor of the top frame may be out of date. */
  ghost predicate StackBelowTopIs(frames: seq<Frame>, s: State) {
    && frames != [] && |frames| == |s.path| == |s.nexts|
    && frames[|frames| - 1].record == s.path[|frames| - 1]
    && forall j :: 0 <= j < |frames| - 1 ==> frames[j] == Frame(s.path[j], s.nexts[j])
  }

  lemma RowOf(parents: seq<Word>, table: ChildTable, p: nat)
    requires IsTable(parents, table) && p < |parents|
    ensures p + 1 < |table.starts| && table.starts[p] <= table.starts[p + 1] <= |table.children|
    ensures table.starts[p + 1] - table.starts[p] == |Kids(parents, p, |parents|)|
    ensures forall i :: 0 <= i < |Kids(parents, p, |parents|)| ==>
      table.children[table.starts[p] + i] == Kids(parents, p, |parents|)[i]
  {
    assert HasRow(table, p, Kids(parents, p, |parents|));
  }

  method DescendFileBacked(parents: seq<Word>, table: ChildTable, visited: array<bv8>, layout: DfsLayout,
                           frames: seq<Frame>, ghost s: State, ghost start: nat)
    returns (stack: seq<Frame>, descended: bool, ghost t: State)
    requires IsTable(parents, table) && frames != [] && frames[|frames| - 1].record < |parents|
    requires Going(parents, s) && Below(parents, s, start) && StackIs(frames, s)
    requires layout.Holds(|parents|, s.l, visited)
    modifies layout`records, layout.positions, visited
    ensures Going(parents, t) && Below(parents, t, start) && t.heads == s.heads
    ensures layout.Holds(|parents|, t.l, visited)
    ensures descended ==> StackIs(stack, t) && |t.l.records| == |s.l.records| + 1
    ensures descended ==> forall r: nat :: Seen(s.l, r) ==> Seen(t.l, r)
    ensures !descended ==> stack == frames && StackBelowTopIs(stack, t) && t.l == s.l
    ensures !descended ==> t.nexts[|t.path| - 1] == |Kids(parents, t.path[|t.path| - 1], |parents|)|
  {
    hide Going, Below, Seen, Kids, HasEdge, Sized, layout.Holds, IsTable, HasRow;
    var n := |parents|;
    stack, t, descended := frames, s, false;
    var top := |stack| - 1;
    var record := stack[top].record;
    var nextChild := stack[top].next;
    ghost var kids := Kids(parents, record, n);
    RowOf(parents, table, record);
    var rowStart, rowEnd := table.starts[record], table.starts[record + 1];
    TopFacts(parents, t);
    while nextChild < rowEnd - rowStart
      invariant Going(parents, t) && Below(parents, t, start) && StackBelowTopIs(stack, t)
      invariant stack == frames && t.nexts[top] == nextChild <= |kids|
      invariant t.l == s.l && t.heads == s.heads && layout.Holds(n, t.l, visited)
    {
      TopFacts(parents, t);
      var child := table.children[rowStart + nextChild];
      assert AtChild(parents, t, child);
      ChildIsEdge(parents, t, child);
      nextChild := nextChild + 1;
      var seen := layout.IsVisited(visited, child, n, t.l);
      if seen {
        AdvanceKeeps(parents, t, child);
        AdvanceBelow(parents, t, start);
        t := Advance(t);
        continue;
      }
      AddSeen(n, t.l, child);
      PushKeeps(parents, t, start, child);
      layout.Place(child, visited, n, t.l);
      t := Push(t, child);
      stack := stack[top := Frame(record, nextChild)];
      stack := stack + [Frame(child, 0)];
      return stack, true, t;
    }
  }

  method WalkFileBacked(start: nat, parents: seq<Word>, table: ChildTable, visited: array<bv8>, layout: DfsLayout,
                        ghost s: State)
    returns (ghost t: State)
    requires IsTable(parents, table) && start < |parents|
    requires Going(parents, s) && s.path == [] && layout.Holds(|parents|, s.l, visited)
    requires forall h :: h in s.heads ==> !HeadBefore(parents, start, h)
    requires IsRoot(parents, start) || forall c: nat :: c < start || IsRoot(parents, c) ==> Seen(s.l, c)
    modifies layout`records, layout.positions, layout.ends, visited
    ensures Going(parents, t) && t.path == [] && layout.Holds(|parents|, t.l, visited)
    ensures t.heads <= s.heads + {start} && Seen(t.l, start)
    ensures forall r: nat :: Seen(s.l, r) ==> Seen(t.l, r)
  {
    hide Going, Below, Seen, Kids, HeadBefore, HasEdge, Sized, layout.Holds, IsTable;
    t := s;
    var n := |parents|;
    var skip := layout.IsVisited(visited, start, n, s.l);
    if skip {
      return;
    }
    TopFacts(parents, s);
    AddSeen(n, s.l, start);
    EnterKeeps(parents, s, start);
    layout.Place(start, visited, n, t.l);
    t := Enter(s, start);
    var stack := [Frame(start, 0)];

    while stack != []
      invariant Going(parents, t) && Below(parents, t, start) && StackIs(stack, t)
      invariant layout.Holds(n, t.l, visited) && t.heads == s.heads + {start}
      invariant forall r: nat :: Seen(s.l, r) || r == start ==> Seen(t.l, r)
      decreases n - |t.l.records|, |stack|
    {
      TopFacts(parents, t);
      var record := stack[|stack| - 1].record;
      var descended;
      stack, descended, t := DescendFileBacked(parents, table, visited, layout, stack, t, start);
      TopFacts(parents, t);
      if !descended {
        FinishKeeps(parents, t, start);
        FinishSeen(parents, t);
        layout.CloseSpan(record, visited, n, t.l, t.path);
        t := Finish(t);
        stack := stack[..|stack| - 1];
      }
    }
  }

  method BuildFileBacked(parents: seq<Word>) returns (columns: Layout)
    requires |parents| < PARENT_NONE
    ensures IsLayout(parents, columns)
    ensures forall built: Layout :: IsLayout(parents, built) ==> columns == built
  {
    hide Going, Seen, IsTable, HasEdge, IsLayout, Permutation;
    var n := |parents|;
    var table := BuildTable(parents);
    var layout := new DfsLayout(n);
    var visited := new bv8[BytesFor(n)](_ => 0);
    ghost var s := State(Layout(layout.positions[..], [], layout.ends[..]), [], [], {});
    StartGoing(parents, s.l);
    assert layout.Holds(n, s.l, visited) by { NothingSeen(n, s.l, visited[..]); }
    hide layout.Holds;

    for start := 0 to n
      invariant Going(parents, s) && s.path == [] && layout.Holds(n, s.l, visited)
      invariant forall h :: h in s.heads ==> IsRoot(parents, h) && h < start
      invariant forall r: nat :: r < start && IsRoot(parents, r) ==> Seen(s.l, r)
    {
      var parent := UnpackParent(parents[start]);
      var isRoot := parent == PARENT_NONE || parent >= n || parent == start;
      assert isRoot == IsRoot(parents, start) by { EdgeOf(parents, start); }
      if !isRoot {
        continue;
      }
      s := WalkFileBacked(start, parents, table, visited, layout, s);
    }
    for start := 0 to n
      invariant Going(parents, s) && s.path == [] && layout.Holds(n, s.l, visited)
      invariant forall h :: h in s.heads ==> IsRoot(parents, h) || h < start
      invariant forall r: nat :: r < start || IsRoot(parents, r) ==> Seen(s.l, r)
    {
      var seen := layout.IsVisited(visited, start, n, s.l);
      if !seen {
        s := WalkFileBacked(start, parents, table, visited, layout, s);
      }
    }
    AllSeen(parents, s);
    columns := Layout(layout.positions[..], layout.records, layout.ends[..]);
    assert columns == s.l by { HoldsColumns(layout, n, s.l, visited); }
    OnlyLayout(parents, columns);
  }

  lemma OnlyLayout(parents: seq<Word>, l: Layout)
    requires IsLayout(parents, l)
    ensures forall built: Layout :: IsLayout(parents, built) ==> l == built
  {
    hide IsLayout;
    forall built: Layout | IsLayout(parents, built) ensures l == built {
      TheoremLayoutUnique(parents, l, built);
    }
  }
}
