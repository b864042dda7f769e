/** Sorted, coalesced sets of half-open position ranges (intervals.rs). */
module Intervals {

  datatype Span = Span(start: nat, end: nat)

  /** The positions a list of spans denotes. */
  ghost predicate Covers(runs: seq<Span>, p: nat) {
    exists i :: 0 <= i < |runs| && runs[i].start <= p < runs[i].end
  }

  /** Non-empty runs, sorted, with a gap between neighbours. */
  ghost predicate Coalesced(runs: seq<Span>) {
    && (forall i :: 0 <= i < |runs| ==> runs[i].start < runs[i].end)
    && (forall i, j :: 0 <= i < j < |runs| ==> runs[i].end < runs[j].start)
  }

  lemma CoversAppend(a: seq<Span>, b: seq<Span>, p: nat)
    ensures Covers(a + b, p) <==> Covers(a, p) || Covers(b, p)
  {
    if i :| 0 <= i < |a| && a[i].start <= p < a[i].end {
      assert (a + b)[i] == a[i];
    }
    if i :| 0 <= i < |b| && b[i].start <= p < b[i].end {
      assert (a + b)[|a| + i] == b[i];
    }
    if i :| 0 <= i < |a + b| && (a + b)[i].start <= p < (a + b)[i].end && !Covers(a, p) {
      assert b[i - |a|] == (a + b)[i];
    }
  }

  // ---- sorting by (start, end) -------------------------------------------------------

  predicate SpanLeq(a: Span, b: Span) {
    a.start < b.start || (a.start == b.start && a.end <= b.end)
  }

  ghost predicate SortedSpans(s: seq<Span>) {
    forall i, j :: 0 <= i < j < |s| ==> SpanLeq(s[i], s[j])
  }

  function Insert(s: seq<Span>, x: Span): (r: seq<Span>) {
    if s == [] || SpanLeq(x, s[0]) then [x] + s else [s[0]] + Insert(s[1..], x)
  }

  lemma {:induction false} InsertKeeps(s: seq<Span>, x: Span)
    ensures multiset(Insert(s, x)) == multiset(s) + multiset{x} && |Insert(s, x)| == |s| + 1
  {
    hide SpanLeq;
    if s != [] {
      assert s == [s[0]] + s[1..];
      InsertKeeps(s[1..], x);
    }
  }

  lemma {:induction false} InsertSorted(s: seq<Span>, x: Span)
    requires SortedSpans(s)
    ensures SortedSpans(Insert(s, x))
  {
    if s != [] && !SpanLeq(x, s[0]) {
      var rest := Insert(s[1..], x);
      InsertSorted(s[1..], x);
      InsertKeeps(s[1..], x);
      forall i | 0 <= i < |rest| ensures SpanLeq(s[0], rest[i]) {
        assert rest[i] in multiset(rest);
        assert rest[i] == x || rest[i] in s[1..];
      }
    }
  }

  /** sort_unstable on pairs. */
  function SortSpans(s: seq<Span>): (r: seq<Span>) {
    if s == [] then [] else Insert(SortSpans(s[..|s| - 1]), s[|s| - 1])
  }

  lemma {:induction false} SortKeeps(s: seq<Span>)
    ensures |SortSpans(s)| == |s| && multiset(SortSpans(s)) == multiset(s) && SortedSpans(SortSpans(s))
  {
    if s != [] {
      var last := |s| - 1;
      assert s == s[..last] + [s[last]];
      SortKeeps(s[..last]);
      InsertKeeps(SortSpans(s[..last]), s[last]);
      InsertSorted(SortSpans(s[..last]), s[last]);
    }
  }

  lemma SameSpansCover(a: seq<Span>, b: seq<Span>, p: nat)
    requires multiset(a) == multiset(b)
    ensures Covers(a, p) ==> Covers(b, p)
  {
    if i :| 0 <= i < |a| && a[i].start <= p < a[i].end {
      assert a[i] in multiset(b);
      var j :| 0 <= j < |b| && b[j] == a[i];
    }
  }

  // ---- the set -----------------------------------------------------------------------

  /** Coalesced runs occupy the prefix of `runs`; newly queued spans share the tail. */
  class IntervalSet {
    var runs: seq<Span>
    var coalescedLen: nat

    ghost predicate Valid()
      reads this
    {
      && coalescedLen <= |runs| && Coalesced(runs[..coalescedLen])
      && forall i :: 0 <= i < |runs| ==> runs[i].start < runs[i].end
    }

    constructor ()
      ensures Valid() && runs == [] && coalescedLen == 0
    {
      runs, coalescedLen := [], 0;
    }

    /** A set over runs that are already coalesced. */
    constructor Of(coalesced: seq<Span>)
      requires Coalesced(coalesced)
      ensures Valid() && runs == coalesced && coalescedLen == |coalesced|
    {
      runs, coalescedLen := coalesced, |coalesced|;
      new;
      assert runs[..coalescedLen] == runs;
    }

    function Runs(): seq<Span>
      requires coalescedLen <= |runs|
      reads this
    {
      runs[..coalescedLen]
    }

    method Clear()
      modifies this
      ensures Valid() && runs == [] && coalescedLen == 0
    {
      runs, coalescedLen := [], 0;
    }

    /** An empty span is silently ignored. */
    method PushSpan(start: nat, end: nat)
      requires Valid()
      modifies this
      ensures Valid() && Runs() == old(Runs())
      ensures forall p: nat :: Covers(runs, p) <==> Covers(old(runs), p) || start <= p < end
      ensures start >= end ==> runs == old(runs)
    {
      if start < end {
        forall p: nat ensures Covers(runs + [Span(start, end)], p) <==> Covers(runs, p) || start <= p < end {
          CoversAppend(runs, [Span(start, end)], p);
          if start <= p < end {
            assert [Span(start, end)][0].start <= p;
          }
        }
        runs := runs + [Span(start, end)];
      }
    }

    method PushPoint(position: nat)
      requires Valid()
      modifies this
      ensures Valid() && Runs() == old(Runs())
      ensures forall p: nat :: Covers(runs, p) <==> Covers(old(runs), p) || p == position
    {
      PushSpan(position, position + 1);
    }

    /** Points pushed in ascending order are coalesced as they come. */
    method PushOrderedPoint(position: nat)
      requires Valid() && coalescedLen == |runs|
      requires forall i :: 0 <= i < |runs| ==> runs[i].end <= position
      modifies this
      ensures Valid() && coalescedLen == |runs|
      ensures forall p: nat :: Covers(runs, p) <==> Covers(old(runs), p) || p == position
      ensures forall i :: 0 <= i < |runs| ==> runs[i].end <= position + 1
    {
      assert runs[..coalescedLen] == runs;
      ghost var was := runs;
      if runs != [] && runs[|runs| - 1].end == position {
        var last := |runs| - 1;
        runs := runs[last := Span(runs[last].start, position + 1)];
        forall p: nat ensures Covers(runs, p) <==> Covers(was, p) || p == position {
          if i :| 0 <= i < |was| && was[i].start <= p < was[i].end {
            assert runs[i].start <= p < runs[i].end;
          }
          if p == position {
            assert runs[last].start <= p < runs[last].end;
          }
        }
        assert runs[..coalescedLen] == runs;
        return;
      }
      forall p: nat ensures Covers(runs + [Span(position, position + 1)], p) <==> Covers(runs, p) || p == position {
        CoversAppend(runs, [Span(position, position + 1)], p);
        if p == position {
          assert [Span(position, position + 1)][0].start <= p;
        }
      }
      runs := runs + [Span(position, position + 1)];
      coalescedLen := |runs|;
      assert runs[..coalescedLen] == runs;
    }

    /** Sorts and merges every queued span into the minimal run list, in place. */
    method Coalesce()
      requires Valid()
      modifies this
      ensures Valid() && coalescedLen == |runs|
      ensures forall p: nat :: Covers(runs, p) <==> Covers(old(runs), p)
    {
      if coalescedLen == |runs| {
        return;
      }
      SortedCovers(runs);
      runs := SortSpans(runs);
      hide SortSpans, Covers, Coalesced;
      MergeSorted();
      coalescedLen := |runs|;
      assert runs[..coalescedLen] == runs;
      CoalescedNonEmpty(runs);
    }

    /** The merge loop: `write` trails `read` over the same storage. */
    method MergeSorted()
      requires runs != [] && forall i :: 0 <= i < |runs| ==> runs[i].start < runs[i].end
      requires forall i, j :: 0 <= i < j < |runs| ==> runs[i].start <= runs[j].start
      modifies this`runs
      ensures Coalesced(runs)
      ensures forall p: nat :: Covers(runs, p) <==> Covers(old(runs), p)
    {
      hide Covers, Coalesced, Merged;
      ghost var sorted := runs;
      var write := 0;
      ghost var done := [sorted[0]];
      OneCoalesced(sorted[0]);
      assert sorted[..1] == done;
      for read := 1 to |runs|
        invariant write < read <= |runs| == |sorted|
        invariant forall k :: read <= k < |runs| ==> runs[k] == sorted[k]
        invariant |done| == write + 1 && forall k :: 0 <= k <= write ==> runs[k] == done[k]
        invariant Coalesced(done) && done[write].start <= sorted[read - 1].start
        invariant forall p: nat :: Covers(done, p) <==> Covers(sorted[..read], p)
      {
        var span, last := runs[read], runs[write];
        MergeStep(done, sorted[..read], span);
        assert sorted[..read + 1] == sorted[..read] + [span];
        MergedLast(done, span);
        done := Merged(done, span);
        if span.start <= last.end {
          runs := runs[write := Span(last.start, if last.end < span.end then span.end else last.end)];
        } else {
          write := write + 1;
          runs := runs[write := span];
        }
      }
      assert sorted[..|runs|] == sorted;
      runs := runs[..write + 1];
      assert runs == done;
    }

    /** Binary search over the coalesced runs. */
    method Contains(position: nat) returns (found: bool)
      requires Valid()
      ensures found <==> Covers(Runs(), position)
    {
      var all := Runs();
      var lo, hi := 0, |all|;
      while lo < hi
        invariant lo <= hi <= |all|
        invariant forall i :: 0 <= i < lo ==> all[i].end <= position
        invariant forall i :: hi <= i < |all| ==> position < all[i].start
      {
        var mid := lo + (hi - lo) / 2;
        if position < all[mid].start {
          hi := mid;
        } else if position >= all[mid].end {
          lo := mid + 1;
        } else {
          return true;
        }
      }
      return false;
    }

    /** A two-pointer merge over runs; `out` is cleared first and comes out coalesced. */
    method IntersectInto(other: IntervalSet, out: IntervalSet)
      requires Valid() && other.Valid() && out != this && out != other
      modifies out
      ensures out.Valid() && out.coalescedLen == |out.runs|
      ensures forall p: nat :: Covers(out.runs, p) <==> Covers(Runs(), p) && Covers(other.Runs(), p)
    {
      out.Clear();
      var i, j := 0, 0;
      var a, b := Runs(), other.Runs();
      Untouched(a, b);
      hide Covers, Coalesced, Behind;
      while i < |a| && j < |b|
        invariant i <= |a| && j <= |b| && out.coalescedLen == 0
        invariant Meets(a, i, b, j, out.runs)
        decreases |a| - i + |b| - j
      {
        var x, y := a[i], b[j];
        var start := if x.start < y.start then y.start else x.start;
        var end := if x.end < y.end then x.end else y.end;
        MeetStep(a, i, b, j, out.runs);
        if start < end {
          out.runs := out.runs + [Span(start, end)];
        }
        if x.end < y.end {
          i := i + 1;
        } else {
          j := j + 1;
        }
      }
      AllMet(a, i, b, j, out.runs);
      out.coalescedLen := |out.runs|;
      assert out.runs[..out.coalescedLen] == out.runs;
    }
  }

  /** Loop invariant of the two-pointer merge: `done` is what the passed runs have in common. */
  ghost predicate Meets(a: seq<Span>, i: nat, b: seq<Span>, j: nat, done: seq<Span>)
    requires i <= |a| && j <= |b|
  {
    && Coalesced(a) && Coalesced(b) && Coalesced(done)
    && (i < |a| && j < |b| ==> Behind(done, a[i], b[j]))
    && forall p: nat :: Covers(a, p) && Covers(b, p) <==> Covers(done, p) || (Covers(a[i..], p) && Covers(b[j..], p))
  }

  lemma Untouched(a: seq<Span>, b: seq<Span>)
    requires Coalesced(a) && Coalesced(b)
    ensures Meets(a, 0, b, 0, [])
  {
    assert a[0..] == a && b[0..] == b;
  }

  lemma AllMet(a: seq<Span>, i: nat, b: seq<Span>, j: nat, done: seq<Span>)
    requires i <= |a| && j <= |b| && Meets(a, i, b, j, done) && (i == |a| || j == |b|)
    ensures Coalesced(done) && forall p: nat :: Covers(done, p) <==> Covers(a, p) && Covers(b, p)
    ensures forall k :: 0 <= k < |done| ==> done[k].start < done[k].end
  {
  }

  lemma MeetStep(a: seq<Span>, i: nat, b: seq<Span>, j: nat, done: seq<Span>)
    requires i < |a| && j < |b| && Meets(a, i, b, j, done)
    ensures var x, y := a[i], b[j];
      var both := Span(if x.start < y.start then y.start else x.start, if x.end < y.end then x.end else y.end);
      var next := if both.start < both.end then done + [both] else done;
      if x.end < y.end then Meets(a, i + 1, b, j, next) else Meets(a, i, b, j + 1, next)
  {
    var x, y := a[i], b[j];
    var both := Span(if x.start < y.start then y.start else x.start, if x.end < y.end then x.end else y.end);
    var next := if both.start < both.end then done + [both] else done;
    forall p: nat ensures Covers(next, p) <==> Covers(done, p) || both.start <= p < both.end {
      CoversAppend(done, [both], p);
      CoversOne(both, p);
    }
    forall p: nat
      ensures Covers(a[i..], p) && Covers(b[j..], p) <==> (both.start <= p < both.end ||
        if x.end < y.end then Covers(a[i + 1..], p) && Covers(b[j..], p) else Covers(a[i..], p) && Covers(b[j + 1..], p))
    {
      if x.end < y.end {
        IntersectStep(a, i, b, j, p);
      } else {
        IntersectStep(b, j, a, i, p);
      }
    }
    MeetOrder(a, i, b, j, done);
    hide Covers, Behind, Coalesced;
  }

  lemma MeetOrder(a: seq<Span>, i: nat, b: seq<Span>, j: nat, done: seq<Span>)
    requires i < |a| && j < |b| && Coalesced(a) && Coalesced(b) && Coalesced(done) && Behind(done, a[i], b[j])
    ensures var x, y := a[i], b[j];
      var both := Span(if x.start < y.start then y.start else x.start, if x.end < y.end then x.end else y.end);
      var next := if both.start < both.end then done + [both] else done;
      Coalesced(next) &&
      (x.end < y.end && i + 1 < |a| ==> Behind(next, a[i + 1], b[j])) &&
      (x.end >= y.end && j + 1 < |b| ==> Behind(next, a[i], b[j + 1]))
  {
  }

  /** Every run pushed so far ends before anything the two heads can still produce. */
  ghost predicate Behind(done: seq<Span>, x: Span, y: Span) {
    forall k :: 0 <= k < |done| ==> done[k].end < x.start || done[k].end < y.start
  }

  /** `done` with the next span in start order merged in. */
  ghost function Merged(done: seq<Span>, span: Span): seq<Span>
    requires done != []
  {
    var last := done[|done| - 1];
    if span.start <= last.end then
      done[|done| - 1 := Span(last.start, if last.end < span.end then span.end else last.end)]
    else done + [span]
  }

  lemma MergeStep(done: seq<Span>, seen: seq<Span>, span: Span)
    requires done != [] && Coalesced(done) && span.start < span.end
    requires done[|done| - 1].start <= span.start
    requires forall p: nat :: Covers(done, p) <==> Covers(seen, p)
    ensures Coalesced(Merged(done, span))
    ensures forall p: nat :: Covers(Merged(done, span), p) <==> Covers(seen + [span], p)
  {
    forall p: nat ensures Covers(Merged(done, span), p) <==> Covers(seen + [span], p) {
      CoversAppend(seen, [span], p);
      CoversAppend(done, [span], p);
      var last := |done| - 1;
      var next := Merged(done, span)[last];
      assert done == done[..last] + [done[last]];
      CoversAppend(done[..last], [done[last]], p);
      CoversOne(span, p);
      CoversOne(done[last], p);
      if span.start <= done[last].end {
        assert Merged(done, span) == done[..last] + [next];
        CoversAppend(done[..last], [next], p);
        CoversOne(next, p);
      }
    }
  }

  lemma CoversOne(span: Span, p: nat)
    ensures Covers([span], p) <==> span.start <= p < span.end
  {
    assert [span][0] == span;
  }

  lemma SortedCovers(queued: seq<Span>)
    ensures |SortSpans(queued)| == |queued| && SortedSpans(SortSpans(queued))
    ensures forall p: nat :: Covers(SortSpans(queued), p) <==> Covers(queued, p)
    ensures (forall i :: 0 <= i < |queued| ==> queued[i].start < queued[i].end) ==>
      forall i :: 0 <= i < |queued| ==> SortSpans(queued)[i].start < SortSpans(queued)[i].end
    ensures forall i, j :: 0 <= i < j < |queued| ==> SortSpans(queued)[i].start <= SortSpans(queued)[j].start
  {
    var sorted := SortSpans(queued);
    SortKeeps(queued);
    forall p: nat ensures Covers(sorted, p) <==> Covers(queued, p) {
      SameSpansCover(sorted, queued, p);
      SameSpansCover(queued, sorted, p);
    }
    forall i | 0 <= i < |sorted| ensures sorted[i] in queued {
      assert sorted[i] in multiset(sorted);
    }
  }

  lemma OneCoalesced(span: Span)
    requires span.start < span.end
    ensures Coalesced([span])
  {
  }

  lemma CoalescedNonEmpty(runs: seq<Span>)
    requires Coalesced(runs)
    ensures forall i :: 0 <= i < |runs| ==> runs[i].start < runs[i].end
  {
  }

  lemma MergedLast(done: seq<Span>, span: Span)
    requires done != [] && done[|done| - 1].start <= span.start
    ensures var last := done[|done| - 1];
      if span.start <= last.end then
        Merged(done, span) == done[|done| - 1 := Span(last.start, if last.end < span.end then span.end else last.end)]
      else Merged(done, span) == done + [span]
    ensures var next := Merged(done, span); next != [] && next[|next| - 1].start <= span.start
  {
  }

  lemma CoversTail(runs: seq<Span>, i: nat, p: nat)
    requires i < |runs|
    ensures Covers(runs[i..], p) <==> runs[i].start <= p < runs[i].end || Covers(runs[i + 1..], p)
  {
    assert runs[i..] == [runs[i]] + runs[i + 1..];
    CoversAppend([runs[i]], runs[i + 1..], p);
    CoversOne(runs[i], p);
  }

  lemma CoversLater(runs: seq<Span>, i: nat, p: nat)
    requires Coalesced(runs) && i < |runs| && p <= runs[i].end
    ensures !Covers(runs[i + 1..], p)
  {
  }

  /** The head that ends first can only meet the other head. */
  lemma IntersectStep(a: seq<Span>, i: nat, b: seq<Span>, j: nat, p: nat)
    requires Coalesced(a) && Coalesced(b) && i < |a| && j < |b| && a[i].end <= b[j].end
    ensures Covers(a[i..], p) && Covers(b[j..], p) <==>
      (a[i].start <= p < a[i].end && b[j].start <= p < b[j].end) || (Covers(a[i + 1..], p) && Covers(b[j..], p))
  {
    CoversTail(a, i, p);
    CoversTail(b, j, p);
    if p < a[i].end {
      CoversLater(b, j, p);
    }
  }
}
