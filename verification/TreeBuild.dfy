/**
 The traversal that assigns depth-first positions (dfs.rs, dfs/file_backed.rs).

 `Going` is the invariant of the traversal, on a snapshot of its columns and its stack;
 each lemma `*Keeps` shows that one step of the loop keeps it.
 */
module TreeBuild {
  import opened Records
  import opened TreeOrder

  /** Columns filled so far, the stacked records with the next child each will look at,
      and the records that were entered as the start of a tree. */
  datatype State = State(l: Layout, path: seq<nat>, nexts: seq<nat>, heads: set<nat>)

  /** Children of `p` among the first `upto` records, ascending. */
  ghost function Kids(parents: seq<Word>, p: nat, upto: nat): (kids: seq<nat>)
    requires upto <= |parents|
    ensures forall i :: 0 <= i < |kids| ==> kids[i] < upto && HasEdge(parents, kids[i], p)
    ensures forall i, j :: 0 <= i < j < |kids| ==> kids[i] < kids[j]
    ensures forall c: nat :: c < upto && HasEdge(parents, c, p) ==> c in kids
  {
    if upto == 0 then []
    else if HasEdge(parents, upto - 1, p) then Kids(parents, p, upto - 1) + [upto - 1]
    else Kids(parents, p, upto - 1)
  }

  ghost predicate Seen(l: Layout, r: nat) {
    r < |l.positions| && l.positions[r] < |l.records| && l.records[l.positions[r]] == r
  }

  /** Where `r`'s span ends, counting everything entered so far for a record still on the stack. */
  ghost function End(l: Layout, path: seq<nat>, r: nat): nat
    requires r < |l.ends|
  {
    if r in path then |l.records| else l.ends[r]
  }

  ghost predicate Sized(n: nat, l: Layout) {
    && |l.positions| == |l.ends| == n
    && (forall k :: 0 <= k < |l.records| ==> l.records[k] < n && l.positions[l.records[k]] == k)
  }

  ghost predicate PathDescends(l: Layout, path: seq<nat>) {
    && (forall j :: 0 <= j < |path| ==> Seen(l, path[j]))
    && (forall i, j :: 0 <= i < j < |path| ==> l.positions[path[i]] < l.positions[path[j]])
  }

  ghost predicate Within(l: Layout, path: seq<nat>, a: nat, r: nat)
    requires |l.positions| == |l.ends|
  {
    Seen(l, a) && Seen(l, r) && l.positions[a] <= l.positions[r] < End(l, path, a)
  }

  ghost predicate SpansNest(l: Layout, path: seq<nat>)
    requires |l.positions| == |l.ends|
  {
    && (forall r: nat :: Seen(l, r) ==> l.positions[r] < End(l, path, r) <= |l.records|)
    && (forall a: nat, b: nat :: Within(l, path, a, b) ==> End(l, path, b) <= End(l, path, a))
    && (forall a: nat, b: nat :: Within(l, path, a, b) && b in path ==> a in path)
  }

  /** `r` was entered from its parent. */
  ghost predicate Kept(parents: seq<Word>, l: Layout, path: seq<nat>, r: nat)
    requires |l.positions| == |l.ends|
  {
    r < |parents| && HasEdge(parents, r, Parent(parents, r)) && Within(l, path, Parent(parents, r), r)
  }

  ghost predicate SpansLinked(parents: seq<Word>, l: Layout, path: seq<nat>)
    requires |l.positions| == |l.ends| == |parents|
  {
    forall a: nat, r: nat :: Within(l, path, a, r) && r != a
      ==> Kept(parents, l, path, r) && l.positions[a] <= l.positions[Parent(parents, r)]
  }

  ghost predicate HeadsApart(parents: seq<Word>, l: Layout, path: seq<nat>, heads: set<nat>)
    requires |l.positions| == |l.ends| == |parents|
  {
    && (forall h :: h in heads ==> Seen(l, h))
    && (forall r: nat :: Seen(l, r) && r !in heads ==> Kept(parents, l, path, r))
    && (forall h: nat, p: nat :: h in heads && HasEdge(parents, h, p) && Seen(l, p) ==> l.positions[h] < l.positions[p])
    && (forall x, y :: x in heads && y in heads && HeadBefore(parents, x, y) ==> l.positions[x] < l.positions[y])
  }

  /** Every child that has been looked at has been entered. */
  ghost predicate ChildrenSeen(parents: seq<Word>, s: State)
    requires |s.nexts| == |s.path|
  {
    && (forall c: nat, p: nat :: HasEdge(parents, c, p) && Seen(s.l, p) && p !in s.path ==> Seen(s.l, c))
    && (forall j :: 0 <= j < |s.path| ==> s.nexts[j] <= |Kids(parents, s.path[j], |parents|)|)
    && (forall j, i :: 0 <= j < |s.path| && 0 <= i < s.nexts[j]
          ==> Seen(s.l, Kids(parents, s.path[j], |parents|)[i]))
  }

  ghost predicate SiblingsOrdered(parents: seq<Word>, l: Layout, heads: set<nat>)
    requires |l.positions| == |parents|
  {
    forall x: nat, y: nat :: Seen(l, x) && Seen(l, y) && x !in heads && y !in heads && x < y
      ==> Parent(parents, x) == Parent(parents, y) ==> l.positions[x] < l.positions[y]
  }

  /** A child of `p` not yet looked at is larger than every child already entered from `p`. */
  ghost predicate KidsAhead(parents: seq<Word>, l: Layout, heads: set<nat>, p: nat, next: nat) {
    forall c: nat, i: nat :: c < |parents| && Seen(l, c) && c !in heads && Parent(parents, c) == p
      && next <= i < |Kids(parents, p, |parents|)|
      ==> c < Kids(parents, p, |parents|)[i]
  }

  ghost predicate LaterKidsLarger(parents: seq<Word>, s: State)
    requires |s.nexts| == |s.path|
  {
    forall j :: 0 <= j < |s.path| ==> KidsAhead(parents, s.l, s.heads, s.path[j], s.nexts[j])
  }

  /** Records that are not heads survive; heads that are not roots do not. */
  ghost predicate HeadsExact(parents: seq<Word>, l: Layout, heads: set<nat>)
    requires |l.positions| == |parents|
  {
    && (forall r: nat :: Seen(l, r) && r !in heads ==> Survives(parents, r))
    && (forall h :: h in heads && !IsRoot(parents, h) ==> !Survives(parents, h))
  }

  ghost predicate Going(parents: seq<Word>, s: State) {
    && |s.nexts| == |s.path|
    && Sized(|parents|, s.l)
    && PathDescends(s.l, s.path)
    && SpansNest(s.l, s.path)
    && SpansLinked(parents, s.l, s.path)
    && HeadsApart(parents, s.l, s.path, s.heads)
    && ChildrenSeen(parents, s)
    && SiblingsOrdered(parents, s.l, s.heads)
    && LaterKidsLarger(parents, s)
    && HeadsExact(parents, s.l, s.heads)
  }

  ghost predicate HangsBelow(parents: seq<Word>, r: nat, head: nat) {
    exists hops: nat :: Climbs(parents, r, head, hops)
  }

  /** Everything on the stack hangs below `head`, and entering more records keeps it so. */
  ghost predicate Below(parents: seq<Word>, s: State, head: nat) {
    && (forall j :: 0 <= j < |s.path| ==> HangsBelow(parents, s.path[j], head))
    && (IsRoot(parents, head) || forall c: nat :: c < |parents| && !Seen(s.l, c) ==> head < c)
  }

  // ---- the four steps of the loop ---------------------------------------------------

  ghost function Add(l: Layout, c: nat): Layout
    requires c < |l.positions|
  {
    l.(positions := l.positions[c := |l.records|], records := l.records + [c])
  }

  ghost function Advance(s: State): State
    requires s.path != [] && |s.nexts| == |s.path|
  {
    var top := |s.nexts| - 1;
    s.(nexts := s.nexts[top := s.nexts[top] + 1])
  }

  ghost function Enter(s: State, start: nat): State
    requires start < |s.l.positions|
  {
    State(Add(s.l, start), [start], [0], s.heads + {start})
  }

  ghost function Push(s: State, c: nat): State
    requires s.path != [] && |s.nexts| == |s.path| && c < |s.l.positions|
  {
    State(Add(s.l, c), s.path + [c], Advance(s).nexts + [0], s.heads)
  }

  ghost function Close(l: Layout, path: seq<nat>): Layout
    requires path != [] && path[|path| - 1] < |l.ends|
  {
    l.(ends := l.ends[path[|path| - 1] := |l.records|])
  }

  ghost function Finish(s: State): State
    requires s.path != [] && |s.nexts| == |s.path| && s.path[|s.path| - 1] < |s.l.ends|
  {
    var top := |s.path| - 1;
    State(Close(s.l, s.path), s.path[..top], s.nexts[..top], s.heads)
  }

  ghost predicate AtChild(parents: seq<Word>, s: State, c: nat) {
    && s.path != [] && |s.nexts| == |s.path|
    && s.nexts[|s.path| - 1] < |Kids(parents, s.path[|s.path| - 1], |parents|)|
    && c == Kids(parents, s.path[|s.path| - 1], |parents|)[s.nexts[|s.path| - 1]]
  }

  // Advance: looking past a child that has already been entered.

  lemma AdvanceKeeps(parents: seq<Word>, s: State, c: nat)
    requires Going(parents, s) && AtChild(parents, s, c) && Seen(s.l, c)
    ensures Going(parents, Advance(s))
  {
    hide HeadsExact, SpansNest, SpansLinked, HeadsApart, SiblingsOrdered, PathDescends, LaterKidsLarger, HasEdge, Kids;
    AdvanceChildren(parents, s, c);
    AdvanceLater(parents, s, c);
  }

  lemma AdvanceChildren(parents: seq<Word>, s: State, c: nat)
    requires AtChild(parents, s, c) && ChildrenSeen(parents, s) && Seen(s.l, c)
    ensures ChildrenSeen(parents, Advance(s))
  {
    hide HasEdge, Seen, Kids;
    var t, top := Advance(s), |s.path| - 1;
    forall j, i | 0 <= j < |t.path| && 0 <= i < t.nexts[j]
      ensures Seen(t.l, Kids(parents, t.path[j], |parents|)[i])
    {
      assert j == top || t.nexts[j] == s.nexts[j];
    }
  }

  lemma AdvanceLater(parents: seq<Word>, s: State, c: nat)
    requires |s.nexts| == |s.path| && LaterKidsLarger(parents, s) && AtChild(parents, s, c)
    ensures LaterKidsLarger(parents, Advance(s))
  {
    hide Seen, Parent, Kids, HasEdge;
    var top := |s.path| - 1;
    assert KidsAhead(parents, s.l, s.heads, s.path[top], s.nexts[top] + 1);
    hide KidsAhead;
  }

  // Adding a record at the end of the columns.

  lemma AddSeen(n: nat, l: Layout, c: nat)
    requires Sized(n, l) && c < n && !Seen(l, c)
    ensures Sized(n, Add(l, c))
    ensures forall r: nat :: Seen(Add(l, c), r) <==> r == c || Seen(l, r)
    ensures forall r: nat :: Seen(l, r) ==> Add(l, c).positions[r] == l.positions[r] < |l.records|
  {
  }

  lemma AddWithin(n: nat, l: Layout, path: seq<nat>, c: nat)
    requires Sized(n, l) && c < n && !Seen(l, c) && PathDescends(l, path) && SpansNest(l, path)
    ensures forall a: nat, r: nat :: Within(Add(l, c), path + [c], a, r) <==>
      Within(l, path, a, r) || (r == c && (a == c || a in path))
  {
    hide SpansNest;
    AddSeen(n, l, c);
    assert forall r: nat :: Seen(l, r) ==> End(l, path, r) <= |l.records| by { SeenEnd(l, path); }
    assert forall r :: r in path + [c] <==> r in path || r == c;
    assert forall r :: r in path ==> Seen(l, r);
  }

  lemma SeenEnd(l: Layout, path: seq<nat>)
    requires |l.positions| == |l.ends| && SpansNest(l, path)
    ensures forall r: nat :: Seen(l, r) ==> l.positions[r] < End(l, path, r) <= |l.records|
  {
  }

  lemma AddPath(n: nat, l: Layout, path: seq<nat>, c: nat)
    requires Sized(n, l) && c < n && !Seen(l, c) && PathDescends(l, path) && SpansNest(l, path)
    ensures PathDescends(Add(l, c), path + [c]) && SpansNest(Add(l, c), path + [c])
  {
    AddSeen(n, l, c);
    AddWithin(n, l, path, c);
    assert forall r :: r in path + [c] <==> r in path || r == c;
  }

  lemma AddLinked(parents: seq<Word>, l: Layout, path: seq<nat>, c: nat)
    requires Sized(|parents|, l) && c < |parents| && !Seen(l, c) && PathDescends(l, path) && SpansNest(l, path)
    requires SpansLinked(parents, l, path)
    requires path != [] ==> HasEdge(parents, c, path[|path| - 1])
    ensures SpansLinked(parents, Add(l, c), path + [c])
    ensures forall r: nat :: Kept(parents, l, path, r) ==> Kept(parents, Add(l, c), path + [c], r)
    ensures path != [] ==> Kept(parents, Add(l, c), path + [c], c)
  {
    hide HasEdge;
    AddSeen(|parents|, l, c);
    AddWithin(|parents|, l, path, c);
    if path != [] {
      assert Parent(parents, c) == path[|path| - 1] by { EdgeIsParent(parents, c, path[|path| - 1]); }
    }
    hide Within;
  }

  lemma EdgeIsParent(parents: seq<Word>, c: nat, p: nat)
    requires HasEdge(parents, c, p)
    ensures Parent(parents, c) == p && c != p
  {
  }

  lemma PushHeads(parents: seq<Word>, l: Layout, path: seq<nat>, heads: set<nat>, c: nat)
    requires Sized(|parents|, l) && c < |parents| && !Seen(l, c) && PathDescends(l, path) && SpansNest(l, path)
    requires SpansLinked(parents, l, path) && HeadsApart(parents, l, path, heads)
    requires path != [] && HasEdge(parents, c, path[|path| - 1])
    ensures HeadsApart(parents, Add(l, c), path + [c], heads)
  {
    AddSeen(|parents|, l, c);
    AddLinked(parents, l, path, c);
    hide Kept, HasEdge, HeadBefore;
  }

  lemma EnterHeads(parents: seq<Word>, l: Layout, heads: set<nat>, c: nat)
    requires Sized(|parents|, l) && c < |parents| && !Seen(l, c) && SpansNest(l, [])
    requires SpansLinked(parents, l, []) && HeadsApart(parents, l, [], heads)
    requires forall p: nat :: HasEdge(parents, c, p) && Seen(l, p) ==> Seen(l, c)
    requires forall h :: h in heads ==> !HeadBefore(parents, c, h)
    ensures HeadsApart(parents, Add(l, c), [c], heads + {c})
  {
    hide HasEdge, HeadBefore;
    AddSeen(|parents|, l, c);
    AddLinked(parents, l, [], c);
    assert [] + [c] == [c];
    NotBeforeItself(parents, c);
    hide Kept, SpansLinked, SpansNest, Sized, Seen;
    var m := Add(l, c);
    forall h: nat, p: nat | h in heads + {c} && HasEdge(parents, h, p) && Seen(m, p)
      ensures m.positions[h] < m.positions[p]
    {
      assert h in heads && Seen(l, h);
    }
    forall x, y | x in heads + {c} && y in heads + {c} && HeadBefore(parents, x, y)
      ensures m.positions[x] < m.positions[y]
    {
      assert x in heads && Seen(l, x);
      assert y == c || Seen(l, y);
    }
  }

  lemma NotBeforeItself(parents: seq<Word>, c: nat)
    ensures !HasEdge(parents, c, c) && !HeadBefore(parents, c, c)
  {
  }

  lemma PushChildren(parents: seq<Word>, s: State, c: nat)
    requires Sized(|parents|, s.l) && c < |parents| && !Seen(s.l, c)
    requires AtChild(parents, s, c) && ChildrenSeen(parents, s)
    ensures ChildrenSeen(parents, Push(s, c))
  {
    hide HasEdge, Seen, Kids;
    AddSeen(|parents|, s.l, c);
    var t, top := Push(s, c), |s.path| - 1;
    hide Sized;
    assert forall r: nat :: r in t.path <==> r in s.path || r == c;
    forall j, i | 0 <= j < |t.path| && 0 <= i < t.nexts[j]
      ensures Seen(t.l, Kids(parents, t.path[j], |parents|)[i])
    {
      assert j < |s.path| && (j == top || t.nexts[j] == s.nexts[j]);
    }
  }

  lemma EnterChildren(parents: seq<Word>, s: State, c: nat)
    requires Sized(|parents|, s.l) && c < |parents| && !Seen(s.l, c)
    requires s.nexts == s.path == [] && ChildrenSeen(parents, s)
    ensures ChildrenSeen(parents, Enter(s, c))
  {
    AddSeen(|parents|, s.l, c);
    hide HasEdge, Seen, Kids;
  }

  lemma NoKidsYet(parents: seq<Word>, l: Layout, path: seq<nat>, heads: set<nat>, c: nat)
    requires |l.positions| == |l.ends| == |parents| && HeadsApart(parents, l, path, heads) && !Seen(l, c)
    ensures forall x: nat :: x < |parents| && Seen(l, x) && x !in heads ==> Parent(parents, x) != c
  {
  }

  lemma PushSiblings(parents: seq<Word>, s: State, c: nat)
    requires Sized(|parents|, s.l) && c < |parents| && !Seen(s.l, c)
    requires AtChild(parents, s, c) && SiblingsOrdered(parents, s.l, s.heads) && LaterKidsLarger(parents, s)
    ensures SiblingsOrdered(parents, Add(s.l, c), s.heads)
  {
    hide Kids, HasEdge;
    AddSeen(|parents|, s.l, c);
    ChildIsEdge(parents, s, c);
    EdgeIsParent(parents, c, s.path[|s.path| - 1]);
    assert KidsAhead(parents, s.l, s.heads, s.path[|s.path| - 1], s.nexts[|s.path| - 1]);
  }

  lemma AddAhead(parents: seq<Word>, l: Layout, heads: set<nat>, p: nat, next: nat, c: nat)
    requires Sized(|parents|, l) && c < |parents| && !Seen(l, c)
    requires KidsAhead(parents, l, heads, p, next)
    requires Parent(parents, c) == p ==>
      next < |Kids(parents, p, |parents|)| && c == Kids(parents, p, |parents|)[next]
    ensures KidsAhead(parents, Add(l, c), heads, p, if Parent(parents, c) == p then next + 1 else next)
  {
    AddSeen(|parents|, l, c);
    hide Seen, Sized, Kids, HasEdge, Parent;
  }

  lemma AheadOfNew(parents: seq<Word>, l: Layout, path: seq<nat>, heads: set<nat>, c: nat, next: nat)
    requires Sized(|parents|, l) && c < |parents| && !Seen(l, c) && HeadsApart(parents, l, path, heads)
    requires c in heads || Parent(parents, c) != c
    ensures KidsAhead(parents, Add(l, c), heads, c, next)
  {
    AddSeen(|parents|, l, c);
    NoKidsYet(parents, l, path, heads, c);
  }

  lemma PushLater(parents: seq<Word>, s: State, c: nat)
    requires Sized(|parents|, s.l) && c < |parents| && !Seen(s.l, c) && PathDescends(s.l, s.path)
    requires HeadsApart(parents, s.l, s.path, s.heads) && AtChild(parents, s, c) && LaterKidsLarger(parents, s)
    ensures LaterKidsLarger(parents, Push(s, c))
  {
    hide HasEdge, Kids, KidsAhead, HeadsApart;
    var t, top := Push(s, c), |s.path| - 1;
    TopIsLast(s.l, s.path);
    ChildIsEdge(parents, s, c);
    EdgeIsParent(parents, c, s.path[top]);
    AheadOfNew(parents, s.l, s.path, s.heads, c, 0);
    forall j | 0 <= j < |s.path| ensures KidsAhead(parents, t.l, t.heads, t.path[j], t.nexts[j]) {
      assert j == top || s.path[j] in s.path[..top];
      AddAhead(parents, s.l, s.heads, s.path[j], s.nexts[j], c);
    }
    hide Seen, Parent, Sized, PathDescends, AtChild;
  }

  lemma EnterSiblings(parents: seq<Word>, s: State, c: nat)
    requires Sized(|parents|, s.l) && c < |parents| && !Seen(s.l, c) && s.path == []
    requires HeadsApart(parents, s.l, s.path, s.heads) && SiblingsOrdered(parents, s.l, s.heads)
    ensures SiblingsOrdered(parents, Add(s.l, c), s.heads + {c})
    ensures LaterKidsLarger(parents, Enter(s, c))
  {
    AddSeen(|parents|, s.l, c);
    NoKidsYet(parents, s.l, s.path, s.heads, c);
    hide HasEdge, Seen, HeadsApart, Kids;
    assert KidsAhead(parents, Add(s.l, c), s.heads + {c}, c, 0);
    hide KidsAhead;
  }

  lemma PushKeeps(parents: seq<Word>, s: State, head: nat, c: nat)
    requires Going(parents, s) && Below(parents, s, head)
    requires AtChild(parents, s, c) && !Seen(s.l, c)
    ensures Going(parents, Push(s, c)) && Below(parents, Push(s, c), head)
  {
    hide Sized, PathDescends, SpansNest, SpansLinked, HeadsApart, ChildrenSeen, SiblingsOrdered, LaterKidsLarger;
    hide Seen, Survives, HasEdge, Kids;
    var n := |parents|;
    ChildIsEdge(parents, s, c);
    AddSeen(n, s.l, c);
    AddPath(n, s.l, s.path, c);
    AddLinked(parents, s.l, s.path, c);
    PushHeads(parents, s.l, s.path, s.heads, c);
    PushChildren(parents, s, c);
    PushSiblings(parents, s, c);
    PushLater(parents, s, c);
    PushBelow(parents, s, head, c);
  }

  lemma ChildIsEdge(parents: seq<Word>, s: State, c: nat)
    requires AtChild(parents, s, c)
    ensures HasEdge(parents, c, s.path[|s.path| - 1]) && c < |parents|
  {
  }

  lemma PushBelow(parents: seq<Word>, s: State, head: nat, c: nat)
    requires Sized(|parents|, s.l) && Below(parents, s, head) && AtChild(parents, s, c) && !Seen(s.l, c)
    ensures Below(parents, Push(s, c), head) && Survives(parents, c)
  {
    AddSeen(|parents|, s.l, c);
    var t, top := Push(s, c), |s.path| - 1;
    EdgeIsParent(parents, c, s.path[top]);
    assert HangsBelow(parents, s.path[top], head);
    var hops: nat :| Climbs(parents, s.path[top], head, hops);
    assert Climbs(parents, c, head, hops + 1);
    assert HangsBelow(parents, c, head);
    assert IsRoot(parents, head) || head < c;
    hide HangsBelow, Seen, Climbs;
    forall j | 0 <= j < |t.path| ensures HangsBelow(parents, t.path[j], head) {
      assert t.path[j] == if j == |s.path| then c else s.path[j];
    }
  }

  lemma EnterKeeps(parents: seq<Word>, s: State, start: nat)
    requires Going(parents, s) && s.path == [] && start < |parents| && !Seen(s.l, start)
    requires forall h :: h in s.heads ==> !HeadBefore(parents, start, h)
    requires IsRoot(parents, start) || forall c: nat :: c < start || IsRoot(parents, c) ==> Seen(s.l, c)
    ensures Going(parents, Enter(s, start)) && Below(parents, Enter(s, start), start)
  {
    hide PathDescends, SpansNest, SpansLinked, HeadsApart, ChildrenSeen, SiblingsOrdered, LaterKidsLarger;
    hide Seen, Survives, HasEdge, Kids, HeadBefore;
    var t := Enter(s, start);
    hide Sized;
    AddSeen(|parents|, s.l, start);
    AddPath(|parents|, s.l, s.path, start);
    AddLinked(parents, s.l, s.path, start);
    ClosedAtRest(parents, s);
    EnterHeads(parents, s.l, s.heads, start);
    EnterChildren(parents, s, start);
    EnterSiblings(parents, s, start);
    if !IsRoot(parents, start) {
      UnseenDoesNotSurvive(parents, s, start);
    }
    assert s.path + [start] == t.path == [start];
    assert Climbs(parents, start, start, 0);
  }

  lemma ClosedAtRest(parents: seq<Word>, s: State)
    requires s.nexts == s.path == [] && ChildrenSeen(parents, s)
    ensures forall c: nat, p: nat :: HasEdge(parents, c, p) && Seen(s.l, p) ==> Seen(s.l, c)
  {
  }

  /** Between walks everything below an entered record is entered, so what is above an unentered one is not. */
  lemma {:induction false} UnseenAbove(parents: seq<Word>, s: State, r: nat, a: nat, hops: nat)
    requires s.nexts == s.path == [] && ChildrenSeen(parents, s)
    requires !Seen(s.l, r) && Climbs(parents, r, a, hops)
    ensures !Seen(s.l, a)
    decreases hops
  {
    if hops > 0 {
      UnseenAbove(parents, s, Parent(parents, r), a, hops - 1);
    }
  }

  lemma UnseenDoesNotSurvive(parents: seq<Word>, s: State, start: nat)
    requires s.nexts == s.path == [] && ChildrenSeen(parents, s) && start < |parents| && !Seen(s.l, start)
    requires forall c: nat :: c < start || IsRoot(parents, c) ==> Seen(s.l, c)
    ensures !Survives(parents, start)
  {
    forall a: nat, hops: nat | Climbs(parents, start, a, hops) ensures !IsRoot(parents, a) && start <= a {
      UnseenAbove(parents, s, start, a, hops);
    }
  }

  // Finish: all children of the record on top have been looked at.

  lemma FinishWithin(n: nat, l: Layout, path: seq<nat>)
    requires Sized(n, l) && path != [] && PathDescends(l, path)
    ensures Sized(n, Close(l, path)) && PathDescends(Close(l, path), path[..|path| - 1])
    ensures forall r: nat :: Seen(Close(l, path), r) == Seen(l, r)
    ensures forall r: nat :: r < n ==> End(Close(l, path), path[..|path| - 1], r) == End(l, path, r)
    ensures forall a: nat, r: nat :: Within(Close(l, path), path[..|path| - 1], a, r) == Within(l, path, a, r)
  {
    var top := |path| - 1;
    assert forall j :: 0 <= j < top ==> path[j] != path[top];
    assert forall r: nat :: r in path[..top] <==> r in path && r != path[top];
  }

  lemma FinishKeeps(parents: seq<Word>, s: State, head: nat)
    requires Going(parents, s) && Below(parents, s, head) && s.path != []
    requires s.nexts[|s.path| - 1] == |Kids(parents, s.path[|s.path| - 1], |parents|)|
    ensures Going(parents, Finish(s)) && Below(parents, Finish(s), head)
  {
    hide PathDescends, SpansNest, SpansLinked, HeadsApart, ChildrenSeen, LaterKidsLarger;
    hide Survives, HasEdge, Kids, Parent, HangsBelow;
    TopIsLast(s.l, s.path);
    var t := Finish(s);
    FinishWithin(|parents|, s.l, s.path);
    FinishSpans(parents, s);
    FinishChildren(parents, s);
    FinishLater(parents, s);
    FinishHeads(parents, s);
    assert forall j :: 0 <= j < |t.path| ==> t.path[j] == s.path[j];
    hide Seen;
  }

  lemma TopIsLast(l: Layout, path: seq<nat>)
    requires PathDescends(l, path) && path != []
    ensures Seen(l, path[|path| - 1])
    ensures forall r: nat :: r in path ==> Seen(l, r) && l.positions[r] <= l.positions[path[|path| - 1]]
    ensures forall r: nat :: r in path[..|path| - 1] <==> r in path && r != path[|path| - 1]
  {
    var top := |path| - 1;
    assert forall j :: 0 <= j < top ==> path[j] != path[top];
  }

  lemma FinishNest(l: Layout, path: seq<nat>, n: nat)
    requires Sized(n, l) && path != [] && PathDescends(l, path) && SpansNest(l, path)
    ensures SpansNest(Close(l, path), path[..|path| - 1])
  {
    var m, rest, top := Close(l, path), path[..|path| - 1], path[|path| - 1];
    TopIsLast(l, path);
    FinishWithin(n, l, path);
    forall a: nat, r: nat | Within(l, path, a, r) && r in rest ensures a in rest {
      assert r == l.records[l.positions[r]] && top == l.records[l.positions[top]];
    }
    hide Sized, PathDescends, Seen, Close;
    forall a: nat, r: nat | Within(m, rest, a, r) ensures End(m, rest, r) <= End(m, rest, a) {
      assert Within(l, path, a, r);
    }
  }

  lemma FinishSpans(parents: seq<Word>, s: State)
    requires |s.nexts| == |s.path| && s.path != [] && Sized(|parents|, s.l) && PathDescends(s.l, s.path)
    requires SpansNest(s.l, s.path) && SpansLinked(parents, s.l, s.path)
    ensures SpansNest(Finish(s).l, Finish(s).path) && SpansLinked(parents, Finish(s).l, Finish(s).path)
    ensures forall r: nat :: Kept(parents, s.l, s.path, r) ==> Kept(parents, Finish(s).l, Finish(s).path, r)
  {
    hide HasEdge, End, SpansNest, Parent;
    TopIsLast(s.l, s.path);
    FinishNest(s.l, s.path, |parents|);
    FinishWithin(|parents|, s.l, s.path);
    var t := Finish(s);
    forall a: nat, r: nat | Within(t.l, t.path, a, r) && r != a
      ensures Kept(parents, t.l, t.path, r) && t.l.positions[a] <= t.l.positions[Parent(parents, r)]
    {
      assert Within(s.l, s.path, a, r);
    }
  }

  lemma FinishHeads(parents: seq<Word>, s: State)
    requires Sized(|parents|, s.l) && s.path != [] && PathDescends(s.l, s.path) && |s.nexts| == |s.path|
    requires SpansNest(s.l, s.path) && SpansLinked(parents, s.l, s.path)
    requires HeadsApart(parents, s.l, s.path, s.heads)
    ensures HeadsApart(parents, Finish(s).l, Finish(s).path, s.heads)
  {
    FinishSpans(parents, s);
    FinishWithin(|parents|, s.l, s.path);
    hide SpansNest, SpansLinked, Kept, HasEdge, HeadBefore, Seen;
  }

  lemma FinishChildren(parents: seq<Word>, s: State)
    requires s.path != [] && |s.nexts| == |s.path| && Sized(|parents|, s.l) && PathDescends(s.l, s.path)
    requires ChildrenSeen(parents, s)
    requires s.nexts[|s.path| - 1] == |Kids(parents, s.path[|s.path| - 1], |parents|)|
    ensures ChildrenSeen(parents, Finish(s))
  {
    var t, top := Finish(s), |s.path| - 1;
    TopIsLast(s.l, s.path);
    KidsSeen(parents, s);
    FinishWithin(|parents|, s.l, s.path);
    hide Seen, Sized, PathDescends, HasEdge, Kids;
    assert forall j :: 0 <= j < top ==> t.path[j] == s.path[j] && t.nexts[j] == s.nexts[j];
  }

  lemma FinishLater(parents: seq<Word>, s: State)
    requires s.path != [] && |s.nexts| == |s.path| && Sized(|parents|, s.l) && PathDescends(s.l, s.path)
    requires LaterKidsLarger(parents, s)
    ensures LaterKidsLarger(parents, Finish(s))
  {
    var t, top := Finish(s), |s.path| - 1;
    FinishWithin(|parents|, s.l, s.path);
    hide Seen, Sized, PathDescends, HasEdge, Kids;
    forall j | 0 <= j < top ensures KidsAhead(parents, t.l, t.heads, t.path[j], t.nexts[j]) {
      assert KidsAhead(parents, s.l, s.heads, s.path[j], s.nexts[j]);
    }
  }

  lemma KidsSeen(parents: seq<Word>, s: State)
    requires s.path != [] && |s.nexts| == |s.path| && ChildrenSeen(parents, s)
    requires s.nexts[|s.path| - 1] == |Kids(parents, s.path[|s.path| - 1], |parents|)|
    ensures forall c: nat :: HasEdge(parents, c, s.path[|s.path| - 1]) ==> Seen(s.l, c)
  {
    hide Seen;
    forall c: nat | HasEdge(parents, c, s.path[|s.path| - 1]) ensures Seen(s.l, c) {
      assert c in Kids(parents, s.path[|s.path| - 1], |parents|);
    }
  }

  // ---- the finished traversal -------------------------------------------------------

  /** When every record has been entered, the traversal's spans are the layout's. */
  lemma DoneSpans(parents: seq<Word>, l: Layout)
    requires Sized(|parents|, l) && |l.records| == |parents|
    requires forall r: nat :: r < |parents| ==> Seen(l, r)
    ensures forall a: nat, r: nat :: a < |parents| && r < |parents| ==> (Within(l, [], a, r) <==> InSpan(l, a, r))
    ensures forall r: nat :: r < |parents| ==> (Kept(parents, l, [], r) <==> Retained(parents, l, r))
  {
  }

  lemma DoneNested(parents: seq<Word>, l: Layout)
    requires Sized(|parents|, l) && |l.records| == |parents| && SpansNest(l, [])
    requires forall r: nat :: r < |parents| ==> Seen(l, r)
    ensures Nested(|parents|, l)
  {
    DoneSpans(parents, l);
    forall a: nat, b: nat | a < |parents| && b < |parents| && InSpan(l, a, b) ensures l.ends[b] <= l.ends[a] {
      assert Within(l, [], a, b);
    }
  }

  lemma DoneForest(parents: seq<Word>, l: Layout)
    requires Sized(|parents|, l) && |l.records| == |parents|
    requires forall r: nat :: r < |parents| ==> Seen(l, r)
    requires SpansNest(l, []) && SpansLinked(parents, l, [])
    ensures IsForest(parents, l)
  {
    DoneSpans(parents, l);
    hide Kept, Retained, HasEdge;
    DoneNested(parents, l);
    assert Linked(parents, l) by { hide SpansNest, Seen; }
  }

  lemma DoneHeads(parents: seq<Word>, s: State)
    requires Sized(|parents|, s.l) && |s.l.records| == |parents|
    requires forall r: nat :: r < |parents| ==> Seen(s.l, r)
    requires HeadsApart(parents, s.l, [], s.heads)
    ensures forall r: nat :: r < |parents| ==> (r in s.heads <==> !Retained(parents, s.l, r))
    ensures forall r: nat :: Retained(parents, s.l, r) ==> r < |parents|
  {
    DoneSpans(parents, s.l);
  }

  lemma DoneIsLayout(parents: seq<Word>, s: State)
    requires Going(parents, s) && s.path == [] && |s.l.records| == |parents|
    requires forall r: nat :: r < |parents| ==> Seen(s.l, r)
    ensures IsLayout(parents, s.l)
  {
    hide IsForest, SpansNest, SpansLinked, Survives, Retained, ChildrenSeen, LaterKidsLarger, HeadBefore, HasEdge;
    DoneForest(parents, s.l);
    DoneHeads(parents, s);
    hide Seen, Sized;
  }
}
