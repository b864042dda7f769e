/** Ranked hits of several volumes, and the best of them (scry-daemon search.rs). */
module TopSet {
  import opened Counting
  import Sorting

  /** A hit in one volume; volumes and records break ties of the rank. */
  datatype Placed = Placed(rank: nat, volume: nat, record: nat)

  predicate Before(a: Placed, b: Placed) {
    a.rank < b.rank || (a.rank == b.rank && (a.volume < b.volume || (a.volume == b.volume && a.record < b.record)))
  }

  function Leq(): (Placed, Placed) -> bool {
    (a, b) => a == b || Before(a, b)
  }

  lemma PlacedOrder()
    ensures Sorting.TotalOrder(Leq())
  {
  }

  /** The first `limit` of a set, or all of it. */
  ghost predicate IsTop(all: set<Placed>, limit: nat, top: set<Placed>) {
    && top <= all
    && |top| == (if |all| < limit then |all| else limit)
    && forall x, y :: x in top && y in all - top ==> Before(x, y)
  }

  /** The elements of a set in order. */
  ghost predicate Lists(list: seq<Placed>, s: set<Placed>) {
    && (forall x :: x in list <==> x in s)
    && forall i, j :: 0 <= i < j < |list| ==> Before(list[i], list[j])
  }

  /** What being listed in order, and being best, come to on ranks, volumes and records. */
  lemma TheoremOrderOfHits(all: set<Placed>, limit: nat, list: seq<Placed>)
    requires Lists(list, Elements(list)) && IsTop(all, limit, Elements(list))
    ensures forall i, j :: 0 <= i < j < |list| ==>
      && list[i].rank <= list[j].rank
      && (list[i].rank == list[j].rank ==> list[i].volume <= list[j].volume)
      && (list[i].rank == list[j].rank && list[i].volume == list[j].volume ==> list[i].record < list[j].record)
    ensures forall x, y :: x in list && y in all && y !in list ==>
      && x.rank <= y.rank
      && (x.rank == y.rank ==> x.volume <= y.volume)
      && (x.rank == y.rank && x.volume == y.volume ==> x.record < y.record)
  {
    forall x, y | x in list && y in all && y !in list ensures Before(x, y) {
      assert x in Elements(list) && y in all - Elements(list);
    }
  }

  lemma TheoremTopIsUnique(all: set<Placed>, limit: nat, a: set<Placed>, b: set<Placed>)
    requires IsTop(all, limit, a) && IsTop(all, limit, b)
    ensures a == b
  {
    if a <= b {
      Smaller(a, b);
    } else if b <= a {
      Smaller(b, a);
    } else {
      var x :| x in a && x !in b;
      var y :| y in b && y !in a;
      InFront(all, limit, a, x, y);
      InFront(all, limit, b, y, x);
    }
  }

  lemma Smaller(a: set<Placed>, b: set<Placed>)
    requires a <= b && |a| == |b|
    ensures a == b
  {
    assert b == a + (b - a);
  }

  lemma InFront(all: set<Placed>, limit: nat, top: set<Placed>, x: Placed, y: Placed)
    requires IsTop(all, limit, top) && x in top && y in all && y !in top
    ensures Before(x, y)
  {
  }

  lemma {:induction false} ListsAreUnique(a: seq<Placed>, b: seq<Placed>, s: set<Placed>)
    requires Lists(a, s) && Lists(b, s)
    ensures a == b
    decreases |a|
  {
    ListSize(a, s);
    ListSize(b, s);
    if a != [] {
      FirstAgrees(a, b, s);
      ListTail(a, s);
      ListTail(b, s);
      ListsAreUnique(a[1..], b[1..], s - {a[0]});
      assert a == [a[0]] + a[1..] && b == [b[0]] + b[1..];
    }
  }

  lemma FirstAgrees(a: seq<Placed>, b: seq<Placed>, s: set<Placed>)
    requires Lists(a, s) && Lists(b, s) && a != [] && b != []
    ensures a[0] == b[0]
  {
    assert a[0] in s && b[0] in s;
    var i :| 0 <= i < |b| && b[i] == a[0];
    var j :| 0 <= j < |a| && a[j] == b[0];
  }

  lemma ListTail(a: seq<Placed>, s: set<Placed>)
    requires Lists(a, s) && a != []
    ensures Lists(a[1..], s - {a[0]})
  {
    forall x ensures x in a[1..] <==> x in s - {a[0]} {
      if x in s - {a[0]} {
        var i :| 0 <= i < |a| && a[i] == x;
        assert a[1..][i - 1] == x;
      }
      if x in a[1..] {
        var i :| 0 <= i < |a[1..]| && a[1..][i] == x;
        assert a[i + 1] == x;
      }
    }
  }

  /** The size of a set is the length of its list. */
  lemma {:induction false} ListSize(list: seq<Placed>, s: set<Placed>)
    requires Lists(list, s)
    ensures |s| == |list|
    decreases |list|
  {
    if list == [] {
      assert s == {};
    } else {
      ListTail(list, s);
      ListSize(list[1..], s - {list[0]});
      assert list[0] in s;
    }
  }

  // ---- sorting and truncating ------------------------------------------------------------

  ghost function Elements(list: seq<Placed>): set<Placed> {
    set x | x in list
  }

  lemma PrefixIsTop(list: seq<Placed>, s: set<Placed>, limit: nat, top: seq<Placed>)
    requires Lists(list, s) && top == if |list| <= limit then list else list[..limit]
    ensures IsTop(s, limit, Elements(top)) && Lists(top, Elements(top))
  {
    ListSize(list, s);
    ListSize(top, Elements(top));
    forall x | x in Elements(top) ensures x in s {
      var i :| 0 <= i < |top| && top[i] == x;
      assert list[i] == x;
    }
    forall x, y | x in Elements(top) && y in s - Elements(top) ensures Before(x, y) {
      var i :| 0 <= i < |top| && top[i] == x;
      var j :| 0 <= j < |list| && list[j] == y;
      assert forall k :: 0 <= k < |top| ==> top[k] in Elements(top) && top[k] == list[k];
    }
  }

  /** rank_sort_truncate_hits. */
  method RankSortTruncate(hits: seq<Placed>, limit: nat) returns (top: seq<Placed>)
    ensures IsTop(Elements(hits), limit, Elements(top)) && Lists(top, Elements(top))
  {
    PlacedOrder();
    var sorted := hits;
    if |hits| > 1 {
      sorted := Sorting.SortDedup(hits, Leq());
      forall i, j | 0 <= i < j < |sorted| ensures Before(sorted[i], sorted[j]) {
        assert Leq()(sorted[i], sorted[j]);
      }
    }
    top := if |sorted| <= limit then sorted else sorted[..limit];
    PrefixIsTop(sorted, Elements(hits), limit, top);
  }

  // ---- parts ------------------------------------------------------------------------------

  /** The elements of `part` that come before `x`. */
  ghost function AheadOf(part: set<Placed>, x: Placed): set<Placed> {
    set y | y in part && Before(y, x)
  }

  /** What `part` leaves out of `all` comes after `limit` elements it keeps. */
  ghost predicate Suffices(part: set<Placed>, all: set<Placed>, limit: nat) {
    part <= all && forall x :: x in all - part ==> |AheadOf(part, x)| >= limit
  }

  lemma TopSuffices(all: set<Placed>, limit: nat, wider: nat, part: set<Placed>)
    requires IsTop(all, wider, part) && limit <= wider
    ensures Suffices(part, all, limit)
  {
    if |all| < wider {
      Smaller(part, all);
    } else {
      forall x | x in all - part ensures |AheadOf(part, x)| >= limit {
        assert AheadOf(part, x) == part;
      }
    }
  }

  lemma PartsSuffice(p: set<Placed>, a: set<Placed>, q: set<Placed>, b: set<Placed>, limit: nat)
    requires Suffices(p, a, limit) && Suffices(q, b, limit)
    ensures Suffices(p + q, a + b, limit)
  {
    forall x | x in a + b - (p + q) ensures |AheadOf(p + q, x)| >= limit {
      Subset(AheadOf(p, x), AheadOf(p + q, x));
      Subset(AheadOf(q, x), AheadOf(p + q, x));
    }
  }

  /** The best of a sufficient part is the best of the whole. */
  lemma TheoremTopOfPart(part: set<Placed>, all: set<Placed>, limit: nat, top: set<Placed>)
    requires Suffices(part, all, limit) && IsTop(part, limit, top)
    ensures IsTop(all, limit, top)
  {
    assert part == all - (all - part);
    if all - part != {} {
      var x :| x in all - part;
      Subset(AheadOf(part, x), part);
      Subset(part, all);
      forall x, y | x in top && y in all - top ensures Before(x, y) {
        if y !in part {
          LeftOutIsAfter(part, all, limit, top, x, y);
        }
      }
    }
  }

  lemma LeftOutIsAfter(part: set<Placed>, all: set<Placed>, limit: nat, top: set<Placed>, x: Placed, y: Placed)
    requires Suffices(part, all, limit) && IsTop(part, limit, top) && x in top && y in all - part
    ensures Before(x, y)
  {
    var ahead := AheadOf(part, y);
    if x !in ahead {
      if ahead <= top - {x} {
        Subset(ahead, top - {x});
      } else {
        var z :| z in ahead && z !in top - {x};
        InFront(part, limit, top, x, z);
      }
    }
  }

  // ---- capped parts -------------------------------------------------------------------------

  /** An element of the best of the whole is among the best of its part, if the best take no more of the part than that. */
  lemma WithinCap(all: set<Placed>, limit: nat, top: set<Placed>, part: set<Placed>, cap: nat, some: set<Placed>, x: Placed)
    requires IsTop(all, limit, top) && IsTop(part, cap, some * part) && part <= all && |top * part| <= cap
    requires x in top && x in part
    ensures x in some
  {
    var kept := some * part;
    if x !in some {
      if |part| < cap {
        Smaller(kept, part);
      } else {
        forall y | y in kept ensures y in top {
          assert Before(y, x);
          if y !in top {
            InFront(all, limit, top, x, y);
          }
        }
        Subset(kept + {x}, top * part);
      }
    }
  }

  /** The best of the whole, where a part holds it, is the best of that part. */
  lemma TopOfBetween(all: set<Placed>, some: set<Placed>, limit: nat, top: set<Placed>)
    requires IsTop(all, limit, top) && top <= some <= all
    ensures IsTop(some, limit, top)
  {
    Subset(top, some);
    Subset(some, all);
    if |all| < limit {
      Smaller(top, all);
    }
  }
}
