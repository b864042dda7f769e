/** Exact extension counts with spilled sorted runs (scry-bench extension_counts.rs). */
module ExtensionCounts {
  import opened Records
  import opened Ascii
  import opened Sorting

  const U64: nat := 0x1_0000_0000_0000_0000
  const MAX_KEY: nat := 65_536

  // ---- keys ------------------------------------------------------------------------------

  function ByteLeq(): (Byte, Byte) -> bool {
    (a, b) => a <= b
  }

  /** `<` on byte vectors. */
  predicate Less(a: Name, b: Name) {
    a != b && LexLeq(a, b, ByteLeq())
  }

  lemma LessTotal(a: Name, b: Name)
    ensures a == b || Less(a, b) || Less(b, a)
    ensures !(Less(a, b) && Less(b, a)) && !Less(a, a)
  {
    LexTotal(a, b, ByteLeq());
  }

  lemma LessTransitive(a: Name, b: Name, c: Name)
    requires Less(a, b) && Less(b, c)
    ensures Less(a, c)
  {
    LexTransitive(a, b, c, ByteLeq());
    LexTotal(a, b, ByteLeq());
  }

  // ---- runs ------------------------------------------------------------------------------

  /** A record of a run file, or a slot of the in-memory map. */
  datatype Entry = Entry(key: Name, count: nat)

  function Times(key: Name, n: nat): multiset<Name> {
    var none: multiset<Name> := multiset{};
    none[key := n]
  }

  /** The occurrences a run stands for. */
  ghost function Bag(run: seq<Entry>): multiset<Name> {
    if run == [] then multiset{} else Bag(run[..|run| - 1]) + Times(run[|run| - 1].key, run[|run| - 1].count)
  }

  ghost predicate IsRun(run: seq<Entry>) {
    && (forall i :: 0 <= i < |run| ==> run[i].count > 0)
    && forall i, j :: 0 <= i < j < |run| ==> Less(run[i].key, run[j].key)
  }

  ghost predicate AllBelow(run: seq<Entry>, key: Name) {
    forall i :: 0 <= i < |run| ==> Less(run[i].key, key)
  }

  ghost predicate AllShort(run: seq<Entry>) {
    forall i :: 0 <= i < |run| ==> |run[i].key| <= MAX_KEY
  }

  ghost predicate HasLong(bag: multiset<Name>) {
    exists key :: key in bag && |key| > MAX_KEY
  }

  lemma BagStep(run: seq<Entry>, i: nat)
    requires i < |run|
    ensures Bag(run[..i + 1]) == Bag(run[..i]) + Times(run[i].key, run[i].count)
  {
    assert run[..i + 1][..i] == run[..i];
  }

  lemma BagAppend(run: seq<Entry>, e: Entry)
    ensures Bag(run + [e]) == Bag(run) + Times(e.key, e.count)
  {
    assert (run + [e])[..|run|] == run;
  }

  lemma SumAssoc(a: multiset<Name>, b: multiset<Name>, c: multiset<Name>)
    ensures a + b + c == a + (b + c)
  {
  }

  lemma Snoc(a: seq<Entry>, b: seq<Entry>)
    requires b != []
    ensures b[..|b| - 1] + [b[|b| - 1]] == b && a + b[..|b| - 1] + [b[|b| - 1]] == a + b
  {
  }

  lemma BagNone(a: seq<Entry>)
    ensures Bag(a) + Bag([]) == Bag(a) && a + [] == a
  {
  }

  lemma {:induction false} BagConcat(a: seq<Entry>, b: seq<Entry>)
    ensures Bag(a + b) == Bag(a) + Bag(b)
  {
    hide *;
    if b == [] {
      BagNone(a);
    } else {
      var front, last := b[..|b| - 1], b[|b| - 1];
      BagConcat(a, front);
      BagAppend(a + front, last);
      BagAppend(front, last);
      SumAssoc(Bag(a), Bag(front), Times(last.key, last.count));
      Snoc(a, b);
    }
  }

  lemma KeyAbove(run: seq<Entry>, key: Name)
    requires AllBelow(run, key)
    requires forall k :: k in Bag(run) ==> HasKey(run, k)
    ensures key !in Bag(run)
  {
  }

  /** A key occurs in a run's bag exactly as often as its entry says. */
  lemma {:induction false} BagCounts(run: seq<Entry>)
    requires IsRun(run)
    ensures Counted(run)
  {
    hide Bag, Counted, IsRun, AllBelow;
    if run == [] {
      NoneCounted();
    } else {
      var n := |run| - 1;
      RunFront(run);
      BagCounts(run[..n]);
      CountedStep(run[..n], run[n]);
      assert run == run[..n] + [run[n]];
    }
  }

  lemma NoneCounted()
    ensures Counted([])
  {
  }

  lemma RunFront(run: seq<Entry>)
    requires IsRun(run) && run != []
    ensures IsRun(run[..|run| - 1]) && AllBelow(run[..|run| - 1], run[|run| - 1].key) && run[|run| - 1].count > 0
  {
    hide Less;
  }

  ghost predicate Counted(run: seq<Entry>) {
    && (forall i :: 0 <= i < |run| ==> Bag(run)[run[i].key] == run[i].count)
    && forall key :: key in Bag(run) ==> HasKey(run, key)
  }

  lemma CountedStep(front: seq<Entry>, last: Entry)
    requires Counted(front) && AllBelow(front, last.key)
    ensures Counted(front + [last])
  {
    hide Less, Bag;
    var run := front + [last];
    BagAppend(front, last);
    forall key | HasKey(front, key) || key == last.key ensures HasKey(run, key) {
      HasKeyStep(front, last, key);
    }
    KeyAbove(front, last.key);
    forall i | 0 <= i < |run| ensures Bag(run)[run[i].key] == run[i].count {
      if i < |front| {
        assert run[i] == front[i];
        LessSelf(last.key);
      }
    }
  }

  lemma HasKeyStep(front: seq<Entry>, last: Entry, key: Name)
    requires HasKey(front, key) || key == last.key
    ensures HasKey(front + [last], key)
  {
    var run := front + [last];
    if key == last.key {
      assert run[|front|].key == key;
    } else {
      var i :| 0 <= i < |front| && front[i].key == key;
      assert run[i].key == key;
    }
  }

  lemma ShortRun(run: seq<Entry>)
    requires IsRun(run)
    ensures AllShort(run) <==> !HasLong(Bag(run))
  {
    BagCounts(run);
    forall i | 0 <= i < |run| ensures run[i].key in Bag(run) {
    }
  }

  lemma CountBelowSize(bag: multiset<Name>, key: Name)
    ensures bag[key] <= |bag|
  {
    assert |bag[key := 0]| == |bag| - bag[key];
  }

  // ---- the in-memory map -------------------------------------------------------------------

  /** One more occurrence of `key` in an ordered map. */
  function Increment(counts: seq<Entry>, key: Name): seq<Entry> {
    if counts == [] then [Entry(key, 1)]
    else if counts[0].key == key then [Entry(key, counts[0].count + 1)] + counts[1..]
    else if Less(key, counts[0].key) then [Entry(key, 1)] + counts
    else [counts[0]] + Increment(counts[1..], key)
  }

  predicate HasKey(counts: seq<Entry>, key: Name) {
    exists i :: 0 <= i < |counts| && counts[i].key == key
  }

  /** The conservative estimate: the length of every key and 256 bytes. */
  function Estimate(counts: seq<Entry>): nat {
    if counts == [] then 0 else |counts[0].key| + 256 + Estimate(counts[1..])
  }

  lemma BagHead(run: seq<Entry>)
    requires run != []
    ensures Bag(run) == Times(run[0].key, run[0].count) + Bag(run[1..])
  {
    var head := [run[0]];
    assert run == head + run[1..];
    BagConcat(head, run[1..]);
    BagAppend([], run[0]);
    assert [] + head == head;
  }

  lemma TailIsRun(run: seq<Entry>)
    requires IsRun(run) && run != []
    ensures IsRun(run[1..])
    ensures forall i :: 0 <= i < |run[1..]| ==> Less(run[0].key, run[1..][i].key)
  {
  }

  lemma ConsIsRun(e: Entry, run: seq<Entry>)
    requires IsRun(run) && e.count > 0 && forall i :: 0 <= i < |run| ==> Less(e.key, run[i].key)
    ensures IsRun([e] + run)
  {
  }

  lemma FirstIsLeast(run: seq<Entry>, key: Name)
    requires IsRun(run) && run != [] && Less(key, run[0].key)
    ensures forall i :: 0 <= i < |run| ==> Less(key, run[i].key)
  {
    forall i | 0 <= i < |run| ensures Less(key, run[i].key) {
      if i > 0 {
        LessTransitive(key, run[0].key, run[i].key);
      }
    }
  }

  lemma {:induction false} IncrementKeys(counts: seq<Entry>, key: Name, bound: Name)
    requires Less(bound, key) && forall i :: 0 <= i < |counts| ==> Less(bound, counts[i].key)
    ensures forall i :: 0 <= i < |Increment(counts, key)| ==> Less(bound, Increment(counts, key)[i].key)
  {
    if counts != [] && counts[0].key != key && !Less(key, counts[0].key) {
      IncrementKeys(counts[1..], key, bound);
    }
  }

  lemma TimesMore(key: Name, n: nat)
    ensures Times(key, n + 1) == Times(key, n) + multiset{key}
  {
  }

  lemma SwapLast(a: multiset<Name>, b: multiset<Name>, c: multiset<Name>)
    ensures a + b + c == a + c + b
  {
  }

  lemma IncrementHere(counts: seq<Entry>, key: Name)
    requires IsRun(counts) && counts != [] && counts[0].key == key
    ensures IsRun(Increment(counts, key)) && Increment(counts, key) != []
    ensures Bag(Increment(counts, key)) == Bag(counts) + multiset{key}
  {
    var next, tail := Increment(counts, key), counts[1..];
    var head := next[0];
    assert next[1..] == tail;
    TailIsRun(counts);
    ConsIsRun(head, tail);
    hide *;
    BagHead(next);
    BagHead(counts);
    TimesMore(key, counts[0].count);
    SwapLast(Times(key, counts[0].count), multiset{key}, Bag(tail));
  }

  lemma IncrementFront(counts: seq<Entry>, key: Name)
    requires IsRun(counts) && (counts != [] ==> Less(key, counts[0].key))
    ensures var next := [Entry(key, 1)] + counts;
            IsRun(next) && Bag(next) == Bag(counts) + multiset{key}
  {
    hide Less;
    var next := [Entry(key, 1)] + counts;
    if counts != [] {
      FirstIsLeast(counts, key);
    }
    ConsIsRun(Entry(key, 1), counts);
    assert next[1..] == counts;
    BagHead(next);
    hide Bag;
    assert Times(key, 1) == multiset{key};
  }

  lemma IncrementLater(counts: seq<Entry>, key: Name)
    requires IsRun(counts) && counts != [] && Less(counts[0].key, key)
    requires IsRun(Increment(counts[1..], key)) && Bag(Increment(counts[1..], key)) == Bag(counts[1..]) + multiset{key}
    ensures var next := [counts[0]] + Increment(counts[1..], key);
            IsRun(next) && Bag(next) == Bag(counts) + multiset{key}
  {
    hide Less, Bag, Increment;
    var next := [counts[0]] + Increment(counts[1..], key);
    assert next[1..] == Increment(counts[1..], key);
    TailIsRun(counts);
    IncrementKeys(counts[1..], key, counts[0].key);
    ConsIsRun(counts[0], next[1..]);
    hide *;
    BagHead(counts);
    BagHead(next);
    SumAssoc(Times(counts[0].key, counts[0].count), Bag(counts[1..]), multiset{key});
  }

  lemma {:induction false} IncrementKeeps(counts: seq<Entry>, key: Name)
    requires IsRun(counts)
    ensures IsRun(Increment(counts, key)) && Increment(counts, key) != []
    ensures Bag(Increment(counts, key)) == Bag(counts) + multiset{key}
  {
    hide Less, IsRun, Bag;
    if counts == [] || Less(key, counts[0].key) {
      IncrementFront(counts, key);
      assert counts == [] ==> [Entry(key, 1)] + counts == [Entry(key, 1)];
      LessSelf(key);
    } else if counts[0].key == key {
      IncrementHere(counts, key);
    } else {
      TailIsRun(counts);
      LessTotal(key, counts[0].key);
      IncrementKeeps(counts[1..], key);
      IncrementLater(counts, key);
    }
  }

  lemma LessSelf(key: Name)
    ensures !Less(key, key)
  {
  }

  /** The estimate grows with every new key and with nothing else. */
  lemma {:induction false} IncrementEstimate(counts: seq<Entry>, key: Name)
    requires IsRun(counts)
    ensures Estimate(Increment(counts, key)) == Estimate(counts) + (if HasKey(counts, key) then 0 else |key| + 256)
  {
    hide Less, HasKey;
    var next := Increment(counts, key);
    if counts == [] {
      assert next[1..] == [];
      NoKey(key);
    } else {
      HeadKey(counts);
      TailIsRun(counts);
      if counts[0].key == key {
        assert next[1..] == counts[1..];
      } else if Less(key, counts[0].key) {
        assert next[1..] == counts;
        FirstIsLeast(counts, key);
        Absent(counts, key);
      } else {
        assert next[1..] == Increment(counts[1..], key);
        IncrementEstimate(counts[1..], key);
        TailHasKey(counts, key);
      }
    }
  }

  lemma NoKey(key: Name)
    ensures !HasKey([], key)
  {
  }

  lemma HeadKey(counts: seq<Entry>)
    requires counts != []
    ensures HasKey(counts, counts[0].key)
  {
  }

  lemma Absent(counts: seq<Entry>, key: Name)
    requires forall i :: 0 <= i < |counts| ==> Less(key, counts[i].key)
    ensures !HasKey(counts, key)
  {
  }

  lemma TailHasKey(counts: seq<Entry>, key: Name)
    requires counts != [] && counts[0].key != key
    ensures HasKey(counts, key) == HasKey(counts[1..], key)
  {
    if HasKey(counts, key) {
      var i :| 0 <= i < |counts| && counts[i].key == key;
      assert counts[1..][i - 1].key == key;
    }
    if HasKey(counts[1..], key) {
      var i :| 0 <= i < |counts[1..]| && counts[1..][i].key == key;
      assert counts[i + 1].key == key;
    }
  }

  // ---- merging -----------------------------------------------------------------------------

  datatype Next = End | Item(entry: Entry) | Invalid

  /** read_entry: rejects a key longer than any name. */
  function ReadEntry(run: seq<Entry>, pos: nat): Next {
    if pos >= |run| then End
    else if |run[pos].key| > MAX_KEY then Invalid
    else Item(run[pos])
  }

  ghost predicate At(run: seq<Entry>, pos: nat, next: Next) {
    pos <= |run| && next == ReadEntry(run, pos) && AllShort(run[..pos])
  }

  /** What a merge has written when it stands at `i` and `j`. */
  ghost predicate Merging(a: seq<Entry>, b: seq<Entry>, i: nat, j: nat, out: seq<Entry>) {
    && i <= |a| && j <= |b| && IsRun(out)
    && Bag(out) == Bag(a[..i]) + Bag(b[..j])
    && (i < |a| ==> AllBelow(out, a[i].key))
    && (j < |b| ==> AllBelow(out, b[j].key))
  }

  lemma AppendRun(out: seq<Entry>, e: Entry, bound: Name)
    requires IsRun(out) && AllBelow(out, e.key) && e.count > 0
    ensures IsRun(out + [e]) && Bag(out + [e]) == Bag(out) + Times(e.key, e.count)
    ensures Less(e.key, bound) ==> AllBelow(out + [e], bound)
  {
    BagAppend(out, e);
    if Less(e.key, bound) {
      forall i | 0 <= i < |out| ensures Less(out[i].key, bound) {
        LessTransitive(out[i].key, e.key, bound);
      }
    }
  }

  lemma BagTakeBoth(a: seq<Entry>, b: seq<Entry>, i: nat, j: nat, out: seq<Entry>, e: Entry)
    requires i < |a| && j < |b| && e == Entry(a[i].key, a[i].count + b[j].count) && a[i].key == b[j].key
    requires Bag(out) == Bag(a[..i]) + Bag(b[..j])
    ensures Bag(out + [e]) == Bag(a[..i + 1]) + Bag(b[..j + 1])
  {
    hide Bag;
    BagStep(a, i);
    BagStep(b, j);
    BagAppend(out, e);
    TimesSum(e.key, a[i].count, b[j].count);
    Regroup(Bag(a[..i]), Bag(b[..j]), Times(a[i].key, a[i].count), Times(b[j].key, b[j].count));
  }

  lemma TimesSum(key: Name, m: nat, n: nat)
    ensures Times(key, m + n) == Times(key, m) + Times(key, n)
  {
  }

  lemma Regroup(a: multiset<Name>, b: multiset<Name>, c: multiset<Name>, d: multiset<Name>)
    ensures a + b + (c + d) == a + c + (b + d)
  {
  }

  lemma TakeBoth(a: seq<Entry>, b: seq<Entry>, i: nat, j: nat, out: seq<Entry>)
    requires IsRun(a) && IsRun(b) && Merging(a, b, i, j, out)
    requires i < |a| && j < |b| && a[i].key == b[j].key
    ensures Merging(a, b, i + 1, j + 1, out + [Entry(a[i].key, a[i].count + b[j].count)])
  {
    hide Less;
    var e := Entry(a[i].key, a[i].count + b[j].count);
    BagTakeBoth(a, b, i, j, out, e);
    hide Bag;
    AppendRun(out, e, if i + 1 < |a| then a[i + 1].key else []);
    AppendRun(out, e, if j + 1 < |b| then b[j + 1].key else []);
  }

  lemma TakeLeft(a: seq<Entry>, b: seq<Entry>, i: nat, j: nat, out: seq<Entry>)
    requires IsRun(a) && IsRun(b) && Merging(a, b, i, j, out)
    requires i < |a| && (j < |b| ==> Less(a[i].key, b[j].key))
    ensures Merging(a, b, i + 1, j, out + [a[i]])
  {
    hide Less;
    AppendRun(out, a[i], if i + 1 < |a| then a[i + 1].key else []);
    AppendRun(out, a[i], if j < |b| then b[j].key else []);
    BagStep(a, i);
  }

  lemma MergingFlips(a: seq<Entry>, b: seq<Entry>, i: nat, j: nat, out: seq<Entry>)
    requires Merging(a, b, i, j, out)
    ensures Merging(b, a, j, i, out)
  {
  }

  lemma ShortStep(run: seq<Entry>, pos: nat)
    requires pos < |run| && AllShort(run[..pos]) && |run[pos].key| <= MAX_KEY
    ensures AllShort(run[..pos + 1])
  {
  }

  ghost predicate CountFits(bag: multiset<Name>) {
    forall key :: bag[key] < U64
  }

  /** As a file can hold it. */
  ghost predicate Narrow(run: seq<Entry>) {
    forall i :: 0 <= i < |run| ==> run[i].count < U64
  }

  lemma NarrowCounts(run: seq<Entry>)
    requires IsRun(run) && Narrow(run)
    ensures CountFits(Bag(run))
  {
    BagCounts(run);
    hide Bag, IsRun;
    forall key ensures Bag(run)[key] < U64 {
      if key in Bag(run) {
        assert HasKey(run, key);
      }
    }
  }

  /** merge: fails exactly on a key too long to be read back, or on a count beyond 64 bits. */
  method Merge(a: seq<Entry>, b: seq<Entry>) returns (merged: Option<seq<Entry>>)
    requires IsRun(a) && IsRun(b)
    ensures merged.Some? ==> IsRun(merged.value) && Bag(merged.value) == Bag(a) + Bag(b) && AllShort(a) && AllShort(b)
    ensures merged.None? && CountFits(Bag(a) + Bag(b)) ==> !AllShort(a) || !AllShort(b)
    ensures merged.Some? && Narrow(a) && Narrow(b) ==> Narrow(merged.value) && CountFits(Bag(a) + Bag(b))
  {
    hide Less, IsRun, AllBelow, Bag, AllShort, CountFits;
    var out: seq<Entry> := [];
    var i, j := 0, 0;
    var left, right := ReadEntry(a, 0), ReadEntry(b, 0);
    MergeStart(a, b);
    while left != End || right != End
      invariant At(a, i, left) && At(b, j, right)
      invariant Merging(a, b, i, j, out)
      invariant Narrow(a) && Narrow(b) ==> Narrow(out)
      decreases |a| - i + |b| - j
    {
      if left.Invalid? || right.Invalid? {
        LongKey(a, i);
        LongKey(b, j);
        return None;
      }
      if left.Item? && right.Item? && left.entry.key == right.entry.key {
        if left.entry.count + right.entry.count >= U64 {
          SumOverflows(a, b, i, j);
          return None;
        }
        TakeBoth(a, b, i, j, out);
        ShortStep(a, i);
        ShortStep(b, j);
        out := out + [Entry(left.entry.key, left.entry.count + right.entry.count)];
        i, j := i + 1, j + 1;
        left, right := ReadEntry(a, i), ReadEntry(b, j);
      } else if left.Item? && (right.End? || Less(left.entry.key, right.entry.key)) {
        TakeLeft(a, b, i, j, out);
        ShortStep(a, i);
        out := out + [left.entry];
        i := i + 1;
        left := ReadEntry(a, i);
      } else {
        TakeRight(a, b, i, j, out);
        ShortStep(b, j);
        out := out + [right.entry];
        j := j + 1;
        right := ReadEntry(b, j);
      }
    }
    assert a[..i] == a && b[..j] == b;
    if Narrow(out) {
      NarrowCounts(out);
    }
    return Some(out);
  }

  lemma MergeStart(a: seq<Entry>, b: seq<Entry>)
    ensures Merging(a, b, 0, 0, []) && At(a, 0, ReadEntry(a, 0)) && At(b, 0, ReadEntry(b, 0))
  {
  }

  lemma LongKey(run: seq<Entry>, pos: nat)
    ensures ReadEntry(run, pos).Invalid? ==> !AllShort(run)
  {
  }

  lemma SumOverflows(a: seq<Entry>, b: seq<Entry>, i: nat, j: nat)
    requires IsRun(a) && IsRun(b) && i < |a| && j < |b| && a[i].key == b[j].key && a[i].count + b[j].count >= U64
    ensures !CountFits(Bag(a) + Bag(b))
  {
    BagCounts(a);
    BagCounts(b);
    assert (Bag(a) + Bag(b))[a[i].key] == a[i].count + b[j].count;
  }

  lemma TakeRight(a: seq<Entry>, b: seq<Entry>, i: nat, j: nat, out: seq<Entry>)
    requires IsRun(a) && IsRun(b) && Merging(a, b, i, j, out)
    requires j < |b| && (i < |a| ==> a[i].key != b[j].key && !Less(a[i].key, b[j].key))
    ensures Merging(a, b, i, j + 1, out + [b[j]])
  {
    MergingFlips(a, b, i, j, out);
    if i < |a| {
      LessTotal(a[i].key, b[j].key);
    }
    hide Merging;
    TakeLeft(b, a, j, i, out);
    MergingFlips(b, a, j + 1, i, out + [b[j]]);
  }

  // ---- the levels of runs --------------------------------------------------------------------

  function Pow2(n: nat): nat {
    if n == 0 then 1 else 2 * Pow2(n - 1)
  }

  lemma {:induction false} Pow2Adds(a: nat, b: nat)
    ensures Pow2(a + b) == Pow2(a) * Pow2(b)
  {
    if b > 0 {
      Pow2Adds(a, b - 1);
    }
  }

  lemma Doubled(n: nat, power: nat)
    requires Pow2(n) == power
    ensures Pow2(2 * n) == power * power
  {
    Pow2Adds(n, n);
  }

  lemma PowerOf64(n: nat)
    requires n == 64
    ensures Pow2(n) == U64
  {
    var one := n / 64;
    assert Pow2(one) == 2;
    hide Pow2;
    Doubled(one, 2);
    Doubled(2 * one, 4);
    Doubled(4 * one, 16);
    Doubled(8 * one, 256);
    Doubled(16 * one, 0x1_0000);
    Doubled(32 * one, 0x1_0000_0000);
  }

  ghost function LevelBag(level: Option<seq<Entry>>): multiset<Name> {
    match level
    case None => multiset{}
    case Some(run) => Bag(run)
  }

  ghost function LevelsBag(levels: seq<Option<seq<Entry>>>): multiset<Name> {
    if levels == [] then multiset{} else LevelsBag(levels[..|levels| - 1]) + LevelBag(levels[|levels| - 1])
  }

  /** A run at level `i` holds at least 2^i occurrences. */
  ghost predicate IsLevel(level: Option<seq<Entry>>, i: nat) {
    level.Some? ==> IsRun(level.value) && |Bag(level.value)| >= Pow2(i)
  }

  ghost predicate AreLevels(levels: seq<Option<seq<Entry>>>) {
    forall i :: 0 <= i < |levels| ==> IsLevel(levels[i], i)
  }

  lemma LevelsSnoc(levels: seq<Option<seq<Entry>>>, level: Option<seq<Entry>>)
    ensures LevelsBag(levels + [level]) == LevelsBag(levels) + LevelBag(level)
  {
    assert (levels + [level])[..|levels|] == levels;
  }

  lemma SplitLast(a: seq<Option<seq<Entry>>>, b: seq<Option<seq<Entry>>>)
    requires b != []
    ensures b[..|b| - 1] + [b[|b| - 1]] == b && a + b[..|b| - 1] + [b[|b| - 1]] == a + b
  {
  }

  lemma NoLevels(a: seq<Option<seq<Entry>>>)
    ensures LevelsBag(a) + LevelsBag([]) == LevelsBag(a) && a + [] == a
  {
  }

  lemma {:induction false} LevelsConcat(a: seq<Option<seq<Entry>>>, b: seq<Option<seq<Entry>>>)
    ensures LevelsBag(a + b) == LevelsBag(a) + LevelsBag(b)
  {
    hide *;
    if b == [] {
      NoLevels(a);
    } else {
      var front, last := b[..|b| - 1], b[|b| - 1];
      LevelsConcat(a, front);
      LevelsSnoc(a + front, last);
      LevelsSnoc(front, last);
      SumAssoc(LevelsBag(a), LevelsBag(front), LevelBag(last));
      SplitLast(a, b);
    }
  }

  lemma Around(levels: seq<Option<seq<Entry>>>, i: nat, level: Option<seq<Entry>>)
    requires i < |levels|
    ensures levels[i := level] == levels[..i] + [level] + levels[i + 1..]
  {
  }

  /** The level that is replaced gives up its occurrences and the others keep theirs. */
  lemma SetLevel(levels: seq<Option<seq<Entry>>>, i: nat, level: Option<seq<Entry>>)
    requires i < |levels|
    ensures LevelsBag(levels[i := level]) + LevelBag(levels[i]) == LevelsBag(levels) + LevelBag(level)
  {
    hide *;
    var front, rest := levels[..i], levels[i + 1..];
    Around(levels, i, level);
    Around(levels, i, levels[i]);
    SameLevel(levels, i);
    LevelsSnoc(front, level);
    LevelsSnoc(front, levels[i]);
    LevelsConcat(front + [level], rest);
    LevelsConcat(front + [levels[i]], rest);
    Exchange(LevelsBag(front), LevelBag(level), LevelBag(levels[i]), LevelsBag(rest));
  }

  lemma SameLevel(levels: seq<Option<seq<Entry>>>, i: nat)
    requires i < |levels|
    ensures levels[i := levels[i]] == levels
  {
  }

  lemma Exchange(a: multiset<Name>, b: multiset<Name>, c: multiset<Name>, d: multiset<Name>)
    ensures a + b + d + c == a + c + d + b
  {
  }

  // ---- the counter ---------------------------------------------------------------------------

  class ExtensionCounter {
    var counts: seq<Entry>
    var estimatedBytes: nat
    var levels: seq<Option<seq<Entry>>>
    const budget: nat

    ghost predicate Valid()
      reads this
    {
      IsRun(counts) && estimatedBytes == Estimate(counts) && AreLevels(levels)
    }

    /** Every extension added so far. */
    ghost function Contents(): multiset<Name>
      reads this
    {
      Bag(counts) + LevelsBag(levels)
    }

    constructor (budget: nat)
      ensures Valid() && Contents() == multiset{} && counts == [] && this.budget == budget
    {
      counts, estimatedBytes, levels := [], 0, [];
      this.budget := budget;
    }

    /** On success the run is on one level more; nothing else is lost or gained. */
    method InsertRun(run: seq<Entry>) returns (ok: bool)
      requires AreLevels(levels) && IsRun(run) && run != []
      requires |LevelsBag(levels) + Bag(run)| < U64
      modifies this`levels
      ensures ok ==> AreLevels(levels) && LevelsBag(levels) == old(LevelsBag(levels)) + Bag(run)
      ensures !ok ==> HasLong(old(LevelsBag(levels)) + Bag(run))
    {
      hide *;
      var path, level := run, 0;
      InsertStart(levels, run);
      ghost var all := LevelsBag(levels) + Bag(run);
      while true
        invariant Inserting(levels, level, path, all)
        invariant all == old(LevelsBag(levels)) + Bag(run) && |all| < U64
        decreases |levels| - level
      {
        InsertDepth(levels, level, path, all);
        if level == |levels| {
          InsertGrows(levels, level, path, all);
          levels := levels + [None];
        }
        var previous := levels[level];
        if previous == None {
          InsertEnds(levels, level, path, all);
          levels := levels[level := Some(path)];
          return true;
        }
        InsertTakes(levels, level, path, all);
        var merged := Merge(previous.value, path);
        if merged == None {
          InsertFails(levels, level, path, all);
          return false;
        }
        InsertCarries(levels, level, path, all, merged.value);
        levels := levels[level := None];
        path := merged.value;
        level := level + 1;
      }
    }

    method Flush() returns (ok: bool)
      requires Valid() && |Contents()| < U64
      modifies this
      ensures ok ==> Valid() && counts == [] && Contents() == old(Contents())
      ensures !ok ==> HasLong(old(Contents()))
    {
      if counts == [] {
        return true;
      }
      var run := counts;
      counts, estimatedBytes := [], 0;
      Commute(Bag(run), LevelsBag(levels));
      ok := InsertRun(run);
      NothingCounted(LevelsBag(levels));
    }

    /** Counts the extension in lower case, and spills the map once it is estimated to be too large. */
    method Add(extension: Name) returns (ok: bool)
      requires Valid() && |Contents()| + 1 < U64
      modifies this
      ensures ok ==> Valid() && Contents() == old(Contents()) + multiset{LowerAll(extension)}
      ensures ok ==> counts == [] || Estimate(counts) < budget
      ensures !ok ==> HasLong(old(Contents()) + multiset{LowerAll(extension)})
    {
      hide Bag, LevelsBag, IsRun, AreLevels, HasLong, Estimate, Increment, HasKey;
      var key := LowerAll(extension);
      if !HasKey(counts, key) {
        estimatedBytes := estimatedBytes + |key| + 256;
      }
      IncrementKeeps(counts, key);
      IncrementEstimate(counts, key);
      SwapLast(Bag(counts), multiset{key}, LevelsBag(levels));
      counts := Increment(counts, key);
      ok := true;
      if estimatedBytes >= budget {
        ok := Flush();
      }
    }

    /** Merges what is left into one run, from the lowest level up. */
    method MergeLevels() returns (final: Option<seq<Entry>>, ok: bool)
      requires AreLevels(levels) && |LevelsBag(levels)| < U64
      modifies this`levels
      ensures ok ==> (final.Some? ==> IsRun(final.value)) && LevelBag(final) == old(LevelsBag(levels))
      ensures !ok ==> HasLong(old(LevelsBag(levels)))
      ensures levels == []
    {
      hide *;
      var runs := levels;
      levels := [];
      final := None;
      MergingStart(runs);
      for level := 0 to |runs|
        invariant levels == [] && MergedTo(runs, level, final)
      {
        MergedStep(runs, level, final);
        if runs[level] == None {
          continue;
        }
        if final == None {
          final := runs[level];
        } else {
          var merged := Merge(final.value, runs[level].value);
          if merged == None {
            MergedFails(runs, level, final.value);
            return None, false;
          }
          MergedJoin(runs, level, final.value, merged.value);
          final := merged;
        }
      }
      MergedAll(runs, final);
      return final, true;
    }

    /** The number of distinct extensions and the sum of the ten largest counts. */
    method Finish() returns (r: Option<(nat, nat)>)
      requires Valid() && |Contents()| < U64
      modifies this
      ensures r.None? <==> HasLong(old(Contents()))
      ensures r.Some? ==> IsReport(old(Contents()), r.value)
    {
      hide Bag, LevelsBag, IsRun, AreLevels, HasLong, IsReport, Estimate;
      var ok := Flush();
      if !ok {
        return None;
      }
      NothingCounted(LevelsBag(levels));
      var final: Option<seq<Entry>>;
      final, ok := MergeLevels();
      if !ok {
        return None;
      }
      if final == None {
        NothingToReport(LevelBag(final));
        return Some((0, 0));
      }
      r := Report(final.value);
    }
  }

  ghost predicate MergedTo(runs: seq<Option<seq<Entry>>>, level: nat, final: Option<seq<Entry>>) {
    && AreLevels(runs) && level <= |runs| && |LevelsBag(runs)| < U64
    && (final.Some? ==> IsRun(final.value)) && LevelBag(final) == LevelsBag(runs[..level])
  }

  lemma Commute(a: multiset<Name>, b: multiset<Name>)
    ensures a + b == b + a
  {
  }

  lemma NothingCounted(b: multiset<Name>)
    ensures Bag([]) + b == b
  {
  }

  /** A run on its way to `level`. */
  ghost predicate Inserting(levels: seq<Option<seq<Entry>>>, level: nat, path: seq<Entry>, all: multiset<Name>) {
    && AreLevels(levels) && level <= |levels| && IsRun(path) && |Bag(path)| >= Pow2(level)
    && LevelsBag(levels) + Bag(path) == all
  }

  lemma InsertStart(levels: seq<Option<seq<Entry>>>, run: seq<Entry>)
    requires AreLevels(levels) && IsRun(run) && run != []
    ensures Inserting(levels, 0, run, LevelsBag(levels) + Bag(run))
  {
    BagCounts(run);
    assert run[0].key in Bag(run);
  }

  /** `level < 64` cannot fail. */
  lemma InsertDepth(levels: seq<Option<seq<Entry>>>, level: nat, path: seq<Entry>, all: multiset<Name>)
    requires Inserting(levels, level, path, all) && |all| < U64
    ensures level < 64 && level <= |levels|
  {
    DeepIsLarge(level);
    Larger(LevelsBag(levels), Bag(path));
  }

  lemma Larger(a: multiset<Name>, b: multiset<Name>)
    ensures |a + b| == |a| + |b|
  {
  }

  lemma DeepIsLarge(level: nat)
    ensures level >= 64 ==> Pow2(level) >= U64
  {
    if level >= 64 {
      PowerOf64(64);
      Pow2Adds(64, level - 64);
      Positive(level - 64);
    }
  }

  lemma {:induction false} Positive(n: nat)
    ensures Pow2(n) >= 1
  {
    if n > 0 {
      Positive(n - 1);
    }
  }

  lemma InsertGrows(levels: seq<Option<seq<Entry>>>, level: nat, path: seq<Entry>, all: multiset<Name>)
    requires Inserting(levels, level, path, all) && level == |levels|
    ensures Inserting(levels + [None], level, path, all)
  {
    LevelsSnoc(levels, None);
  }

  lemma InsertEnds(levels: seq<Option<seq<Entry>>>, level: nat, path: seq<Entry>, all: multiset<Name>)
    requires Inserting(levels, level, path, all) && level < |levels| && levels[level] == None
    ensures AreLevels(levels[level := Some(path)]) && LevelsBag(levels[level := Some(path)]) == all
  {
    hide IsRun, Bag, Pow2;
    SetLevel(levels, level, Some(path));
    assert LevelBag(None) == multiset{};
  }

  lemma InsertTakes(levels: seq<Option<seq<Entry>>>, level: nat, path: seq<Entry>, all: multiset<Name>)
    requires Inserting(levels, level, path, all) && level < |levels| && levels[level] != None
    ensures IsRun(levels[level].value) && IsRun(path)
  {
  }

  lemma InsertFails(levels: seq<Option<seq<Entry>>>, level: nat, path: seq<Entry>, all: multiset<Name>)
    requires Inserting(levels, level, path, all) && level < |levels| && levels[level] != None && |all| < U64
    requires CountFits(Bag(levels[level].value) + Bag(path)) ==> !AllShort(levels[level].value) || !AllShort(path)
    ensures HasLong(all)
  {
    var previous := levels[level].value;
    InsertTakes(levels, level, path, all);
    ShortRun(previous);
    ShortRun(path);
    hide *;
    WithoutLevel(levels, level, previous, Bag(path));
    FitsBelow(LevelsBag(levels[level := None]), Bag(previous) + Bag(path));
    LongBelow(LevelsBag(levels[level := None]), Bag(previous), Bag(path));
  }

  lemma FitsBelow(rest: multiset<Name>, part: multiset<Name>)
    requires |rest + part| < U64
    ensures CountFits(part)
  {
    forall key ensures part[key] < U64 {
      CountBelowSize(part, key);
    }
  }

  lemma LongBelow(rest: multiset<Name>, a: multiset<Name>, b: multiset<Name>)
    requires HasLong(a) || HasLong(b)
    ensures HasLong(rest + (a + b))
  {
    var key :| (key in a || key in b) && |key| > MAX_KEY;
    assert key in rest + (a + b);
  }

  lemma WithoutLevel(levels: seq<Option<seq<Entry>>>, level: nat, previous: seq<Entry>, path: multiset<Name>)
    requires level < |levels| && levels[level] == Some(previous)
    ensures LevelsBag(levels) + path == LevelsBag(levels[level := None]) + (Bag(previous) + path)
  {
    hide Bag, LevelsBag;
    SetLevel(levels, level, None);
    SumAssoc(LevelsBag(levels[level := None]), Bag(previous), path);
    assert LevelsBag(levels) + multiset{} == LevelsBag(levels);
  }

  lemma InsertCarries(levels: seq<Option<seq<Entry>>>, level: nat, path: seq<Entry>, all: multiset<Name>, merged: seq<Entry>)
    requires Inserting(levels, level, path, all) && level < |levels| && levels[level] != None
    requires IsRun(merged) && Bag(merged) == Bag(levels[level].value) + Bag(path)
    ensures Inserting(levels[level := None], level + 1, merged, all)
  {
    var previous := levels[level].value;
    ClearLevel(levels, level);
    hide IsRun, Bag, LevelsBag, AreLevels;
    WithoutLevel(levels, level, previous, Bag(path));
    Larger(Bag(previous), Bag(path));
  }

  lemma ClearLevel(levels: seq<Option<seq<Entry>>>, level: nat)
    requires AreLevels(levels) && level < |levels|
    ensures AreLevels(levels[level := None]) && IsLevel(levels[level], level)
  {
    hide IsRun, Bag, Pow2;
  }

  // ---- the ten largest counts -----------------------------------------------------------------

  function Sum(s: seq<nat>): nat {
    if s == [] then 0 else s[0] + Sum(s[1..])
  }

  ghost predicate Ascending(s: seq<nat>) {
    forall i, j :: 0 <= i < j < |s| ==> s[i] <= s[j]
  }

  /** How often each distinct key occurs. */
  ghost function Multiplicities(bag: multiset<Name>): multiset<nat>
    decreases |bag|
  {
    if bag == multiset{} then multiset{}
    else
      var key :| key in bag;
      CountBelowSize(bag, key);
      multiset{bag[key]} + Multiplicities(bag[key := 0])
  }

  const NONE_YET: seq<nat> := [0, 0, 0, 0, 0, 0, 0, 0, 0, 0]

  function Zeros(): multiset<nat> {
    multiset(NONE_YET)
  }

  /** Ten values, none smaller than any left out; zeros fill in when there are fewer than ten. */
  ghost predicate IsTopTen(all: multiset<nat>, top: seq<nat>) {
    && |top| == 10 && multiset(top) <= all + Zeros()
    && forall x, y :: x in top && y in all + Zeros() - multiset(top) ==> y <= x
  }

  ghost predicate IsReport(bag: multiset<Name>, report: (nat, nat)) {
    && report.0 == |Keys(bag)|
    && exists top :: IsTopTen(Multiplicities(bag), top) && report.1 == Sum(top)
  }

  ghost function Keys(bag: multiset<Name>): set<Name> {
    set key | key in bag
  }

  lemma Cleared(bag: multiset<Name>, key: Name, other: Name)
    requires key in bag && other in bag && key != other
    ensures var less := bag[other := 0];
            key in less && less[key] == bag[key] && |less| < |bag| && less[key := 0] == bag[key := 0][other := 0]
  {
    CountBelowSize(bag, other);
  }

  lemma AddSwap(a: nat, b: nat, c: multiset<nat>)
    ensures multiset{a} + (multiset{b} + c) == multiset{b} + (multiset{a} + c)
  {
  }

  lemma {:induction false} MultiplicitiesWithout(bag: multiset<Name>, key: Name)
    requires key in bag
    ensures Multiplicities(bag) == multiset{bag[key]} + Multiplicities(bag[key := 0])
    decreases |bag|
  {
    var first :| first in bag && Multiplicities(bag) == multiset{bag[first]} + Multiplicities(bag[first := 0]);
    hide Multiplicities;
    if first != key {
      Cleared(bag, key, first);
      Cleared(bag, first, key);
      MultiplicitiesWithout(bag[first := 0], key);
      MultiplicitiesWithout(bag[key := 0], first);
      AddSwap(bag[key], bag[first], Multiplicities(bag[key := 0][first := 0]));
    }
  }

  /** The counts of a run's entries. */
  ghost function CountsOf(run: seq<Entry>): multiset<nat> {
    if run == [] then multiset{} else CountsOf(run[..|run| - 1]) + multiset{run[|run| - 1].count}
  }

  lemma {:induction false} CountsAreMultiplicities(run: seq<Entry>)
    requires IsRun(run)
    ensures Multiplicities(Bag(run)) == CountsOf(run) && |Keys(Bag(run))| == |run|
  {
    hide IsRun, AllBelow, Less;
    if run != [] {
      var front, last := run[..|run| - 1], run[|run| - 1];
      RunFront(run);
      CountsAreMultiplicities(front);
      BagCounts(front);
      KeyAbove(front, last.key);
      OneMoreKey(Bag(front), last.key, last.count);
    } else {
      assert Keys(multiset{}) == {};
    }
  }

  lemma WithoutKey(bag: multiset<Name>, key: Name, count: nat)
    requires key !in bag
    ensures var all := bag + Times(key, count);
            all[key] == count && all[key := 0] == bag && forall k :: k in all <==> k in bag || (k == key && count > 0)
  {
  }

  lemma OneMoreKey(bag: multiset<Name>, key: Name, count: nat)
    requires key !in bag && count > 0
    ensures Multiplicities(bag + Times(key, count)) == Multiplicities(bag) + multiset{count}
    ensures |Keys(bag + Times(key, count))| == |Keys(bag)| + 1
  {
    hide *;
    WithoutKey(bag, key, count);
    MultiplicitiesWithout(bag + Times(key, count), key);
    KeysGrow(bag, bag + Times(key, count), key);
  }

  lemma KeysGrow(bag: multiset<Name>, all: multiset<Name>, key: Name)
    requires key !in bag && forall k :: k in all <==> k in bag || k == key
    ensures |Keys(all)| == |Keys(bag)| + 1
  {
    assert Keys(all) == Keys(bag) + {key};
  }

  lemma CountsStep(run: seq<Entry>, pos: nat)
    requires pos < |run|
    ensures CountsOf(run[..pos + 1]) == CountsOf(run[..pos]) + multiset{run[pos].count}
  {
    assert run[..pos + 1][..pos] == run[..pos];
  }

  /** Sorting after the smallest value has been replaced. */
  function InsertAscending(s: seq<nat>, x: nat): seq<nat> {
    if s == [] || x <= s[0] then [x] + s else [s[0]] + InsertAscending(s[1..], x)
  }

  lemma {:induction false} InsertAscendingKeeps(s: seq<nat>, x: nat)
    requires Ascending(s)
    ensures Ascending(InsertAscending(s, x)) && |InsertAscending(s, x)| == |s| + 1
    ensures multiset(InsertAscending(s, x)) == multiset(s) + multiset{x}
  {
    if s != [] && x > s[0] {
      var rest := InsertAscending(s[1..], x);
      InsertAscendingKeeps(s[1..], x);
      hide InsertAscending;
      Cons(s[0], s[1..], rest, x);
      assert s == [s[0]] + s[1..];
    } else if s != [] {
      FrontAscends(x, s);
    }
  }

  lemma FrontAscends(x: nat, s: seq<nat>)
    requires Ascending(s) && s != [] && x <= s[0]
    ensures Ascending([x] + s)
  {
  }

  lemma Cons(head: nat, tail: seq<nat>, rest: seq<nat>, x: nat)
    requires Ascending([head] + tail) && Ascending(rest) && multiset(rest) == multiset(tail) + multiset{x} && head < x
    ensures Ascending([head] + rest) && multiset([head] + rest) == multiset([head] + tail) + multiset{x}
  {
    var s := [head] + tail;
    forall i | 0 <= i < |rest| ensures head <= rest[i] {
      assert rest[i] in multiset(rest);
      if rest[i] in multiset(tail) {
        var j :| 0 <= j < |tail| && tail[j] == rest[i];
        assert s[j + 1] == rest[i] && s[0] == head;
      }
    }
  }

  ghost predicate TopSoFar(all: multiset<nat>, top: seq<nat>) {
    IsTopTen(all, top) && Ascending(top)
  }

  lemma TopSkips(all: multiset<nat>, top: seq<nat>, count: nat)
    requires TopSoFar(all, top) && count <= top[0]
    ensures TopSoFar(all + multiset{count}, top)
  {
    var kept := multiset(top);
    var rest := all + Zeros() - kept;
    hide Zeros;
    assert all + multiset{count} + Zeros() - kept == rest + multiset{count};
    forall x | x in top ensures count <= x {
      LeastFirst(top, x);
    }
  }

  lemma LeastFirst(top: seq<nat>, x: nat)
    requires Ascending(top) && x in top
    ensures top[0] <= x
  {
  }

  lemma TopTakes(all: multiset<nat>, top: seq<nat>, count: nat)
    requires TopSoFar(all, top) && count > top[0]
    ensures TopSoFar(all + multiset{count}, InsertAscending(top[1..], count))
  {
    hide Zeros, InsertAscending, Ascending;
    var least, next := top[0], InsertAscending(top[1..], count);
    HeadBag(top);
    InsertAscendingKeeps(top[1..], count);
    TopExchange(all + Zeros(), multiset(top[1..]), least, count);
    SwapCounts(all, count, Zeros());
    TopStays(all + Zeros() - multiset(top), top, next, count);
  }

  lemma HeadBag(top: seq<nat>)
    requires top != [] && Ascending(top)
    ensures multiset(top) == multiset{top[0]} + multiset(top[1..]) && Ascending(top[1..])
  {
    assert top == [top[0]] + top[1..];
  }

  lemma TopStays(rest: multiset<nat>, top: seq<nat>, next: seq<nat>, count: nat)
    requires top != [] && Ascending(top) && count > top[0] && multiset(next) == multiset(top[1..]) + multiset{count}
    requires forall x, y :: x in top && y in rest ==> y <= x
    ensures forall x, y :: x in next && y in rest + multiset{top[0]} ==> y <= x
  {
    forall x, y | x in next && y in rest + multiset{top[0]} ensures y <= x {
      assert x in multiset(next);
      if x in top[1..] {
        LeastFirst(top, x);
      }
      assert top[0] in top;
    }
  }

  lemma SwapCounts(a: multiset<nat>, count: nat, c: multiset<nat>)
    ensures a + multiset{count} + c == a + c + multiset{count}
  {
  }

  lemma TopExchange(padded: multiset<nat>, tail: multiset<nat>, least: nat, count: nat)
    requires multiset{least} + tail <= padded
    ensures tail + multiset{count} <= padded + multiset{count}
    ensures padded + multiset{count} - (tail + multiset{count}) == padded - (multiset{least} + tail) + multiset{least}
  {
  }

  lemma TopStart()
    ensures TopSoFar(multiset{}, NONE_YET)
  {
    hide Ascending, Zeros;
    ZerosAscend();
    OnlyZeros(NONE_YET);
  }

  lemma ZerosAscend()
    ensures |NONE_YET| == 10 && Ascending(NONE_YET) && multiset(NONE_YET) == Zeros()
  {
  }

  lemma OnlyZeros(zeros: seq<nat>)
    requires |zeros| == 10 && multiset(zeros) == Zeros()
    ensures IsTopTen(multiset{}, zeros)
  {
    hide Zeros;
    NothingLeft(Zeros());
  }

  lemma NothingLeft(kept: multiset<nat>)
    ensures multiset{} + kept == kept && kept - kept == multiset{}
  {
  }

  /** The last pass: counts the entries and keeps the ten largest counts. */
  method Report(run: seq<Entry>) returns (r: Option<(nat, nat)>)
    requires IsRun(run)
    ensures r.None? <==> HasLong(Bag(run))
    ensures r.Some? ==> IsReport(Bag(run), r.value)
  {
    hide *;
    var distinct := 0;
    var top := NONE_YET;
    ReportStart(run);
    var next := ReadEntry(run, 0);
    while next != End
      invariant distinct <= |run| && At(run, distinct, next)
      invariant TopSoFar(CountsOf(run[..distinct]), top)
      decreases |run| - distinct
    {
      ReportStep(run, distinct, next, top);
      if next == Invalid {
        return None;
      }
      if next.entry.count > top[0] {
        top := InsertAscending(top[1..], next.entry.count);
      }
      distinct := distinct + 1;
      next := ReadEntry(run, distinct);
    }
    ReportEnd(run, distinct, top);
    return Some((distinct, Sum(top)));
  }

  lemma ReportStart(run: seq<Entry>)
    ensures At(run, 0, ReadEntry(run, 0)) && TopSoFar(CountsOf(run[..0]), NONE_YET)
  {
    TopStart();
  }

  lemma ReportStep(run: seq<Entry>, pos: nat, next: Next, top: seq<nat>)
    requires IsRun(run) && At(run, pos, next) && TopSoFar(CountsOf(run[..pos]), top) && next != End
    ensures |top| == 10 && pos < |run|
    ensures next == Invalid ==> HasLong(Bag(run))
    ensures next != Invalid ==> next == Item(run[pos]) && At(run, pos + 1, ReadEntry(run, pos + 1))
    ensures var count := run[pos].count;
            TopSoFar(CountsOf(run[..pos + 1]), if count > top[0] then InsertAscending(top[1..], count) else top)
  {
    CountsStep(run, pos);
    var count, before := run[pos].count, CountsOf(run[..pos]);
    LongKey(run, pos);
    ShortRun(run);
    if next != Invalid {
      ShortStep(run, pos);
    }
    hide *;
    TopLength(before, top);
    if count > top[0] {
      TopTakes(before, top, count);
    } else {
      TopSkips(before, top, count);
    }
  }

  lemma TopLength(all: multiset<nat>, top: seq<nat>)
    requires TopSoFar(all, top)
    ensures |top| == 10
  {
  }

  lemma ReportEnd(run: seq<Entry>, distinct: nat, top: seq<nat>)
    requires IsRun(run) && At(run, distinct, End) && TopSoFar(CountsOf(run[..distinct]), top)
    ensures !HasLong(Bag(run)) && IsReport(Bag(run), (distinct, Sum(top)))
  {
    assert run[..distinct] == run;
    CountsAreMultiplicities(run);
    ShortRun(run);
  }

  lemma NothingToReport(bag: multiset<Name>)
    requires bag == multiset{}
    ensures IsReport(bag, (0, 0)) && !HasLong(bag)
  {
    hide Multiplicities, IsTopTen, Sum, Keys, TopSoFar;
    EmptyBag();
    TopStart();
    TopPart(multiset{}, NONE_YET);
    SumOfZeros();
  }

  lemma SumOfZeros()
    ensures Sum(NONE_YET) == 0
  {
  }

  lemma EmptyBag()
    ensures Keys(multiset{}) == {} && Multiplicities(multiset{}) == multiset{}
  {
  }

  lemma TopPart(all: multiset<nat>, top: seq<nat>)
    requires TopSoFar(all, top)
    ensures IsTopTen(all, top)
  {
  }

  // ---- merging the levels -----------------------------------------------------------------------

  lemma MergingStart(runs: seq<Option<seq<Entry>>>)
    requires AreLevels(runs) && |LevelsBag(runs)| < U64
    ensures MergedTo(runs, 0, None)
  {
  }

  lemma LevelsStep(runs: seq<Option<seq<Entry>>>, level: nat)
    requires level < |runs|
    ensures LevelsBag(runs[..level + 1]) == LevelsBag(runs[..level]) + LevelBag(runs[level])
  {
    assert runs[..level + 1] == runs[..level] + [runs[level]];
    LevelsSnoc(runs[..level], runs[level]);
  }

  lemma MergedStep(runs: seq<Option<seq<Entry>>>, level: nat, final: Option<seq<Entry>>)
    requires MergedTo(runs, level, final) && level < |runs|
    ensures (runs[level].Some? ==> IsRun(runs[level].value)) && (final.Some? ==> IsRun(final.value))
    ensures runs[level] == None ==> MergedTo(runs, level + 1, final)
    ensures final == None ==> MergedTo(runs, level + 1, runs[level])
  {
    assert IsLevel(runs[level], level);
    hide Bag, LevelsBag, IsRun, Pow2;
    LevelsStep(runs, level);
  }

  lemma MergedJoin(runs: seq<Option<seq<Entry>>>, level: nat, final: seq<Entry>, merged: seq<Entry>)
    requires MergedTo(runs, level, Some(final)) && level < |runs| && runs[level].Some?
    requires IsRun(merged) && Bag(merged) == Bag(final) + Bag(runs[level].value)
    ensures MergedTo(runs, level + 1, Some(merged))
  {
    hide Bag, LevelsBag, IsRun, Pow2, AreLevels;
    LevelsStep(runs, level);
  }

  lemma MergedFails(runs: seq<Option<seq<Entry>>>, level: nat, final: seq<Entry>)
    requires MergedTo(runs, level, Some(final)) && level < |runs| && runs[level].Some?
    requires CountFits(Bag(final) + Bag(runs[level].value)) ==> !AllShort(final) || !AllShort(runs[level].value)
    ensures HasLong(LevelsBag(runs))
  {
    var run := runs[level].value;
    ClearLevel(runs, level);
    ShortRun(final);
    ShortRun(run);
    var rest, pair := LevelsBag(runs[level + 1..]), Bag(final) + Bag(run);
    assert LevelBag(Some(run)) == Bag(run) && LevelBag(Some(final)) == Bag(final);
    SplitAfter(runs, level);
    hide *;
    Commute(pair, rest);
    FitsBelow(rest, pair);
    LongBelow(rest, Bag(final), Bag(run));
  }

  lemma SplitAfter(runs: seq<Option<seq<Entry>>>, level: nat)
    requires level < |runs|
    ensures LevelsBag(runs) == LevelsBag(runs[..level]) + LevelBag(runs[level]) + LevelsBag(runs[level + 1..])
  {
    hide *;
    LevelsStep(runs, level);
    Rejoin(runs, level);
    LevelsConcat(runs[..level + 1], runs[level + 1..]);
  }

  lemma Rejoin(runs: seq<Option<seq<Entry>>>, level: nat)
    requires level < |runs|
    ensures runs[..level + 1] + runs[level + 1..] == runs
  {
  }

  lemma MergedAll(runs: seq<Option<seq<Entry>>>, final: Option<seq<Entry>>)
    requires MergedTo(runs, |runs|, final)
    ensures (final.Some? ==> IsRun(final.value)) && LevelBag(final) == LevelsBag(runs)
  {
    assert runs[..|runs|] == runs;
  }

  // ---- a whole count -------------------------------------------------------------------------------

  function Lowered(extensions: seq<Name>): (keys: seq<Name>)
    ensures |keys| == |extensions| && forall i :: 0 <= i < |keys| ==> keys[i] == LowerAll(extensions[i])
  {
    seq(|extensions|, i requires 0 <= i < |extensions| => LowerAll(extensions[i]))
  }

  lemma LoweredStep(extensions: seq<Name>, i: nat)
    requires i < |extensions|
    ensures multiset(Lowered(extensions[..i + 1])) == multiset(Lowered(extensions[..i])) + multiset{LowerAll(extensions[i])}
    ensures |multiset(Lowered(extensions[..i]))| == i
  {
    assert Lowered(extensions[..i + 1]) == Lowered(extensions[..i]) + [LowerAll(extensions[i])];
  }

  ghost predicate AnyLong(extensions: seq<Name>) {
    exists i :: 0 <= i < |extensions| && |extensions[i]| > MAX_KEY
  }

  lemma LongAmong(extensions: seq<Name>)
    ensures HasLong(multiset(Lowered(extensions))) <==> AnyLong(extensions)
  {
    var keys := Lowered(extensions);
    if HasLong(multiset(keys)) {
      var key :| key in multiset(keys) && |key| > MAX_KEY;
      var i :| 0 <= i < |keys| && keys[i] == key;
      assert |extensions[i]| > MAX_KEY;
    }
    if i :| 0 <= i < |extensions| && |extensions[i]| > MAX_KEY {
      assert keys[i] in multiset(keys);
    }
  }

  lemma LongPrefix(extensions: seq<Name>, i: nat)
    requires i <= |extensions| && AnyLong(extensions[..i])
    ensures AnyLong(extensions)
  {
    var k :| 0 <= k < i && |extensions[..i][k]| > MAX_KEY;
    assert |extensions[k]| > MAX_KEY;
  }

  /** Whatever the budget, the report is that of the plain tally; it fails exactly on an overlong extension. */
  method CountExtensions(extensions: seq<Name>, budget: nat) returns (r: Option<(nat, nat)>)
    requires |extensions| < U64
    ensures r.None? <==> AnyLong(extensions)
    ensures r.Some? ==> IsReport(multiset(Lowered(extensions)), r.value)
  {
    hide *;
    var counter := new ExtensionCounter(budget);
    NoneAdded(extensions);
    for i := 0 to |extensions|
      invariant fresh(counter) && counter.Valid() && counter.Contents() == multiset(Lowered(extensions[..i]))
    {
      LoweredStep(extensions, i);
      var ok := counter.Add(extensions[i]);
      if !ok {
        LongAmong(extensions[..i + 1]);
        LongPrefix(extensions, i + 1);
        return None;
      }
    }
    AllAdded(extensions);
    LongAmong(extensions);
    r := counter.Finish();
  }

  lemma NoneAdded(extensions: seq<Name>)
    ensures multiset(Lowered(extensions[..0])) == multiset{}
  {
  }

  lemma AllAdded(extensions: seq<Name>)
    ensures extensions[..|extensions|] == extensions && |multiset(Lowered(extensions))| == |extensions|
  {
  }
}
