/** Where compaction puts each record: the merge, and the formulas that recompute its slots (view/compaction.rs). */
module CompactOrder {
  import opened Records
  import opened Ascii
  import opened Bits
  import opened Names
  import opened RankSelect

  /** Sorted base names with their tombstone bits, and the sorted names of the live additions. */
  datatype Merge = Merge(base: seq<Name>, bits: seq<bv8>, delta: seq<Name>)

  ghost predicate IsMerge(v: Merge) {
    Sorted(v.base) && Sorted(v.delta)
  }

  predicate Live(v: Merge, i: nat) {
    i < |v.base| && !Bit(v.bits, i)
  }

  lemma {:induction false} OnesAtMost(bits: seq<bv8>, i: nat)
    ensures Ones(bits, i) <= i
  {
    if i > 0 {
      OnesAtMost(bits, i - 1);
    }
  }

  /** How many live base records have a smaller index. */
  ghost function LiveBelow(v: Merge, i: nat): nat {
    OnesAtMost(v.bits, i);
    i - Ones(v.bits, i)
  }

  lemma LiveStep(v: Merge, i: nat)
    requires i < |v.base|
    ensures LiveBelow(v, i + 1) == LiveBelow(v, i) + if Live(v, i) then 1 else 0
    ensures LiveBelow(v, 0) == 0
  {
  }

  lemma {:induction false} LiveGrows(v: Merge, lo: nat, hi: nat)
    requires lo <= hi <= |v.base|
    ensures LiveBelow(v, lo) <= LiveBelow(v, hi)
    ensures (forall i :: lo <= i < hi ==> !Live(v, i)) ==> LiveBelow(v, lo) == LiveBelow(v, hi)
    ensures lo < hi && Live(v, lo) ==> LiveBelow(v, lo) < LiveBelow(v, hi)
    decreases hi - lo
  {
    hide LiveBelow, Live;
    if lo < hi {
      LiveGrows(v, lo, hi - 1);
      LiveStep(v, hi - 1);
    }
  }

  ghost function LiveIn(v: Merge, lo: nat, hi: nat): (s: set<nat>)
    ensures forall i: nat :: i in s <==> lo <= i < hi && Live(v, i)
  {
    set i | lo <= i < hi && Live(v, i)
  }

  /** The live records in a range, counted. */
  lemma {:induction false} LiveCount(v: Merge, lo: nat, hi: nat)
    requires lo <= hi <= |v.base|
    ensures |LiveIn(v, lo, hi)| == LiveBelow(v, hi) - LiveBelow(v, lo)
    decreases hi - lo
  {
    hide LiveBelow, Live;
    if lo < hi {
      LiveCount(v, lo, hi - 1);
      LiveStep(v, hi - 1);
      if Live(v, hi - 1) {
        assert LiveIn(v, lo, hi) == LiveIn(v, lo, hi - 1) + {hi - 1};
      } else {
        assert LiveIn(v, lo, hi) == LiveIn(v, lo, hi - 1);
      }
    } else {
      assert LiveIn(v, lo, hi) == {};
    }
  }

  // ---- bounds in a sorted list -----------------------------------------------------------

  /** The first name not below the target. */
  ghost function LowerBound(names: seq<Name>, target: Name): (b: nat)
    ensures b <= |names|
  {
    if names == [] then 0
    else if Below(names[|names| - 1], target) then |names|
    else LowerBound(names[..|names| - 1], target)
  }

  /** The first name above the target. */
  ghost function UpperBound(names: seq<Name>, target: Name): (b: nat)
    ensures b <= |names|
  {
    if names == [] then 0
    else if Leq(names[|names| - 1], target) then |names|
    else UpperBound(names[..|names| - 1], target)
  }

  lemma {:induction false} LowerExact(names: seq<Name>, target: Name)
    requires Sorted(names)
    ensures forall i :: 0 <= i < |names| ==> (i < LowerBound(names, target) <==> Below(names[i], target))
    decreases |names|
  {
    hide CmpCi;
    if names != [] {
      var last := |names| - 1;
      if Below(names[last], target) {
        forall i | 0 <= i < |names| ensures Below(names[i], target) {
          LeqTransitive(names[i], names[last], target);
        }
      } else {
        LowerExact(names[..last], target);
      }
    }
  }

  lemma {:induction false} UpperExact(names: seq<Name>, target: Name)
    requires Sorted(names)
    ensures forall i :: 0 <= i < |names| ==> (i < UpperBound(names, target) <==> Leq(names[i], target))
    ensures LowerBound(names, target) <= UpperBound(names, target)
    decreases |names|
  {
    hide CmpCi;
    if names != [] {
      var last := |names| - 1;
      if Leq(names[last], target) {
        forall i | 0 <= i < |names| ensures Leq(names[i], target) {
          LeqTransitive(names[i], names[last], target);
        }
      } else {
        UpperExact(names[..last], target);
      }
    }
  }

  /** A boundary is determined by what it separates. */
  lemma LowerIs(names: seq<Name>, target: Name, b: nat)
    requires Sorted(names) && b <= |names|
    requires forall i :: 0 <= i < |names| ==> (i < b <==> Below(names[i], target))
    ensures LowerBound(names, target) == b
  {
    hide CmpCi;
    LowerExact(names, target);
    var l := LowerBound(names, target);
    assert l < |names| ==> !Below(names[l], target);
    assert b < |names| ==> !Below(names[b], target);
  }

  // ---- slots and formulas ----------------------------------------------------------------

  /** final_index_of_base. */
  ghost function SlotOfBase(v: Merge, i: nat): nat
    requires i < |v.base|
  {
    LiveBelow(v, i) + LowerBound(v.delta, v.base[i])
  }

  /** final_index_of_delta, for the addition of rank `k`: it counts only strictly smaller base names. */
  ghost function FormulaOfDelta(v: Merge, k: nat): nat
    requires k < |v.delta|
  {
    LiveBelow(v, LowerBound(v.base, v.delta[k])) + k
  }

  /** The live base records whose names tie with an addition's. */
  ghost function Ties(v: Merge, k: nat): set<nat>
    requires k < |v.delta|
  {
    set i | 0 <= i < |v.base| && Live(v, i) && CmpCi(v.base[i], v.delta[k]) == Equal
  }

  /** Where the merge, which takes the base first, really puts it. */
  ghost function SlotOfDelta(v: Merge, k: nat): nat
    requires k < |v.delta|
  {
    LiveBelow(v, UpperBound(v.base, v.delta[k])) + k
  }

  /** The exact gap between formula and slot: the ties. */
  lemma TheoremDeltaFormula(v: Merge, k: nat)
    requires IsMerge(v) && k < |v.delta|
    ensures SlotOfDelta(v, k) == FormulaOfDelta(v, k) + |Ties(v, k)|
    ensures SlotOfDelta(v, k) == FormulaOfDelta(v, k) <==> Ties(v, k) == {}
  {
    hide CmpCi, LiveBelow, Bit;
    var target := v.delta[k];
    var lo, hi := LowerBound(v.base, target), UpperBound(v.base, target);
    LowerExact(v.base, target);
    UpperExact(v.base, target);
    forall i | 0 <= i < |v.base| ensures lo <= i < hi <==> CmpCi(v.base[i], target) == Equal {
    }
    assert Ties(v, k) == LiveIn(v, lo, hi);
    LiveCount(v, lo, hi);
  }

  /** The formula of one addition can meet the slot of another only inside a tie, and then of an earlier one. */
  lemma FormulaMeetsSlot(v: Merge, i: nat, k: nat)
    requires IsMerge(v) && i < |v.delta| && k < |v.delta| && FormulaOfDelta(v, i) == SlotOfDelta(v, k)
    ensures Ties(v, i) == Ties(v, k) && i == k + |Ties(v, k)|
  {
    var x, y := v.delta[i], v.delta[k];
    LowerExact(v.base, x);
    UpperExact(v.base, y);
    CmpFlips(x, y);
    if Below(x, y) {
      assert i < k by { EarlierIsSmaller(v, k, i); }
      LowerBeforeUpper(v.base, x, y);
      LiveGrows(v, LowerBound(v.base, x), UpperBound(v.base, y));
    } else if Below(y, x) {
      assert k < i by { EarlierIsSmaller(v, i, k); }
      UpperBeforeLower(v.base, y, x);
      LiveGrows(v, UpperBound(v.base, y), LowerBound(v.base, x));
    } else {
      EqualNamesTie(v, i, k);
      TheoremDeltaFormula(v, i);
    }
  }

  lemma EarlierIsSmaller(v: Merge, i: nat, k: nat)
    requires IsMerge(v) && i < |v.delta| && k < |v.delta| && Below(v.delta[k], v.delta[i])
    ensures k < i
  {
    hide CmpCi;
    CmpFlips(v.delta[k], v.delta[i]);
    assert i <= k ==> Leq(v.delta[i], v.delta[k]);
  }

  lemma LowerBeforeUpper(names: seq<Name>, x: Name, y: Name)
    requires Sorted(names) && Below(x, y)
    ensures LowerBound(names, x) <= UpperBound(names, y)
  {
    hide CmpCi, LowerBound, UpperBound;
    LowerExact(names, x);
    UpperExact(names, y);
    var b := UpperBound(names, y);
    if b < LowerBound(names, x) {
      LeqTransitive(names[b], x, y);
    }
  }

  lemma UpperBeforeLower(names: seq<Name>, y: Name, x: Name)
    requires Sorted(names) && Below(y, x)
    ensures UpperBound(names, y) <= LowerBound(names, x)
  {
    hide CmpCi, LowerBound, UpperBound;
    LowerExact(names, x);
    UpperExact(names, y);
    var b := LowerBound(names, x);
    if b < UpperBound(names, y) {
      LeqTransitive(names[b], y, x);
    }
  }

  /** Names that differ at most in case have the same bounds and ties. */
  lemma EqualNamesTie(v: Merge, i: nat, k: nat)
    requires IsMerge(v) && i < |v.delta| && k < |v.delta| && CmpCi(v.delta[i], v.delta[k]) == Equal
    ensures Ties(v, i) == Ties(v, k) && SlotOfDelta(v, i) - i == SlotOfDelta(v, k) - k
  {
    hide CmpCi, LowerBound, UpperBound, LiveBelow, Bit;
    var x, y := v.delta[i], v.delta[k];
    CmpFlips(x, y);
    forall name: Name ensures Leq(name, x) <==> Leq(name, y) {
      LeqEqual(name, x, y);
    }
    forall name: Name ensures CmpCi(name, x) == Equal <==> CmpCi(name, y) == Equal {
      TiesAreFolds(name, x);
      TiesAreFolds(name, y);
      TiesAreFolds(x, y);
    }
    UpperExact(v.base, x);
    UpperExact(v.base, y);
    var p, q := UpperBound(v.base, x), UpperBound(v.base, y);
    assert p < |v.base| ==> !Leq(v.base[p], x);
    assert q < |v.base| ==> !Leq(v.base[q], y);
    assert p == q;
  }

  lemma LeqEqual(name: Name, x: Name, y: Name)
    requires CmpCi(x, y) == Equal
    ensures Leq(name, x) <==> Leq(name, y)
  {
    hide CmpCi;
    CmpFlips(x, y);
    if Leq(name, x) {
      LeqTransitive(name, x, y);
    }
    if Leq(name, y) {
      LeqTransitive(name, y, x);
    }
  }

  // ---- the merge -------------------------------------------------------------------------

  datatype Source = FromBase(i: nat) | FromDelta(k: nat)

  /** The slot of a source. */
  ghost predicate Placed(v: Merge, source: Source, slot: nat) {
    match source
    case FromBase(i) => Live(v, i) && SlotOfBase(v, i) == slot
    case FromDelta(k) => k < |v.delta| && SlotOfDelta(v, k) == slot
  }

  /** Every source stands at its slot, and nothing else does. */
  ghost predicate IsMerged(v: Merge, m: seq<Source>) {
    && |m| == LiveBelow(v, |v.base|) + |v.delta|
    && (forall s :: 0 <= s < |m| ==> Placed(v, m[s], s))
    && (forall i: nat :: Live(v, i) ==> SlotOfBase(v, i) < |m| && m[SlotOfBase(v, i)] == FromBase(i))
    && (forall k: nat :: k < |v.delta| ==> SlotOfDelta(v, k) < |m| && m[SlotOfDelta(v, k)] == FromDelta(k))
  }

  /** The merge has consumed the base below `b` and the first `d` additions. */
  ghost predicate Merging(v: Merge, m: seq<Source>, b: nat, d: nat) {
    && b <= |v.base| && d <= |v.delta|
    && |m| == LiveBelow(v, b) + d
    && (forall s :: 0 <= s < |m| ==> Placed(v, m[s], s))
    && (forall i: nat :: i < b && Live(v, i) ==> SlotOfBase(v, i) < |m| && m[SlotOfBase(v, i)] == FromBase(i))
    && (forall k: nat :: k < d ==> SlotOfDelta(v, k) < |m| && m[SlotOfDelta(v, k)] == FromDelta(k))
  }

  /** What was taken lies before what comes next. */
  ghost predicate Split(v: Merge, b: nat, d: nat) {
    && b <= |v.base| && d <= |v.delta|
    && (b < |v.base| ==> forall k :: 0 <= k < d ==> Below(v.delta[k], v.base[b]))
    && (d < |v.delta| ==> forall i: nat :: i < b && Live(v, i) ==> Leq(v.base[i], v.delta[d]))
  }

  lemma MergeStarts(v: Merge)
    ensures Merging(v, [], 0, 0) && Split(v, 0, 0)
  {
    hide LowerBound, UpperBound;
  }

  lemma SkipTombstone(v: Merge, m: seq<Source>, b: nat, d: nat)
    requires IsMerge(v) && Merging(v, m, b, d) && Split(v, b, d) && b < |v.base| && !Live(v, b)
    ensures Merging(v, m, b + 1, d) && Split(v, b + 1, d)
  {
    hide LiveBelow, CmpCi, Bit, LowerBound, UpperBound;
    LiveStep(v, b);
    BelowNext(v, b, d);
  }

  /** Additions below one base name are below the next. */
  lemma BelowNext(v: Merge, b: nat, d: nat)
    requires IsMerge(v) && b < |v.base| && d <= |v.delta|
    requires forall k :: 0 <= k < d ==> Below(v.delta[k], v.base[b])
    ensures b + 1 < |v.base| ==> forall k :: 0 <= k < d ==> Below(v.delta[k], v.base[b + 1])
  {
    hide CmpCi;
    if b + 1 < |v.base| {
      forall k | 0 <= k < d ensures Below(v.delta[k], v.base[b + 1]) {
        LeqTransitive(v.delta[k], v.base[b], v.base[b + 1]);
      }
    }
  }

  lemma BaseSlotIs(v: Merge, b: nat, d: nat)
    requires IsMerge(v) && Split(v, b, d) && b < |v.base|
    requires d < |v.delta| ==> Leq(v.base[b], v.delta[d])
    ensures SlotOfBase(v, b) == LiveBelow(v, b) + d
  {
    hide CmpCi, LiveBelow;
    forall k | 0 <= k < |v.delta| ensures k < d <==> Below(v.delta[k], v.base[b]) {
      if k >= d {
        LeqTransitive(v.base[b], v.delta[d], v.delta[k]);
        CmpFlips(v.base[b], v.delta[k]);
      }
    }
    LowerIs(v.delta, v.base[b], d);
  }

  lemma TakeBase(v: Merge, m: seq<Source>, b: nat, d: nat)
    requires IsMerge(v) && Merging(v, m, b, d) && Split(v, b, d) && Live(v, b)
    requires d < |v.delta| ==> Leq(v.base[b], v.delta[d])
    ensures Merging(v, m + [FromBase(b)], b + 1, d) && Split(v, b + 1, d)
  {
    hide LiveBelow, CmpCi, Bit, LowerBound, UpperBound, SlotOfBase, SlotOfDelta;
    BaseSlotIs(v, b, d);
    LiveStep(v, b);
    BelowNext(v, b, d);
  }

  lemma DeltaSlotIs(v: Merge, b: nat, d: nat)
    requires IsMerge(v) && Split(v, b, d) && d < |v.delta|
    requires b < |v.base| ==> CmpCi(v.base[b], v.delta[d]) == Greater
    ensures SlotOfDelta(v, d) == LiveBelow(v, b) + d
  {
    hide CmpCi, LiveBelow, Bit;
    var u := UpperBound(v.base, v.delta[d]);
    UpperExact(v.base, v.delta[d]);
    assert u <= b;
    LiveGrows(v, u, b);
  }

  lemma TakeDelta(v: Merge, m: seq<Source>, b: nat, d: nat)
    requires IsMerge(v) && Merging(v, m, b, d) && Split(v, b, d) && d < |v.delta|
    requires b < |v.base| ==> CmpCi(v.base[b], v.delta[d]) == Greater
    ensures Merging(v, m + [FromDelta(d)], b, d + 1) && Split(v, b, d + 1)
  {
    hide LiveBelow, CmpCi, Bit, LowerBound, UpperBound, SlotOfBase, SlotOfDelta;
    DeltaSlotIs(v, b, d);
    DeltaNext(v, b, d);
  }

  lemma DeltaNext(v: Merge, b: nat, d: nat)
    requires IsMerge(v) && Split(v, b, d) && d < |v.delta|
    requires b < |v.base| ==> CmpCi(v.base[b], v.delta[d]) == Greater
    ensures Split(v, b, d + 1)
  {
    hide CmpCi, Bit;
    if b < |v.base| {
      CmpFlips(v.base[b], v.delta[d]);
      CmpFlips(v.delta[d], v.base[b]);
    }
    if d + 1 < |v.delta| {
      forall i: nat | i < b && Live(v, i) ensures Leq(v.base[i], v.delta[d + 1]) {
        LeqTransitive(v.base[i], v.delta[d], v.delta[d + 1]);
      }
    }
  }

  lemma MergeDone(v: Merge, m: seq<Source>)
    requires Merging(v, m, |v.base|, |v.delta|)
    ensures IsMerged(v, m)
  {
    hide LiveBelow, CmpCi, Bit, LowerBound, UpperBound, SlotOfBase, SlotOfDelta;
  }

  // ---- the merged names ------------------------------------------------------------------

  function NameOf(v: Merge, source: Source): Name {
    match source
    case FromBase(i) => if i < |v.base| then v.base[i] else []
    case FromDelta(k) => if k < |v.delta| then v.delta[k] else []
  }

  ghost function NamesOf(v: Merge, m: seq<Source>): (names: seq<Name>)
    ensures |names| == |m| && forall s :: 0 <= s < |m| ==> names[s] == NameOf(v, m[s])
  {
    seq(|m|, s requires 0 <= s < |m| => NameOf(v, m[s]))
  }

  /** Base records keep their order, additions keep theirs, and names never cross. */
  lemma SlotsFollowNames(v: Merge, i: nat, k: nat)
    requires IsMerge(v) && Live(v, i) && k < |v.delta|
    ensures SlotOfBase(v, i) < SlotOfDelta(v, k) <==> Leq(v.base[i], v.delta[k])
  {
    hide CmpCi, LiveBelow, Bit;
    LowerExact(v.delta, v.base[i]);
    UpperExact(v.base, v.delta[k]);
    CmpFlips(v.base[i], v.delta[k]);
    CmpFlips(v.delta[k], v.base[i]);
    var u := UpperBound(v.base, v.delta[k]);
    if Leq(v.base[i], v.delta[k]) {
      LiveGrows(v, i, u);
    } else {
      LiveGrows(v, u, i);
    }
  }

  lemma BaseKeepsOrder(v: Merge, i: nat, j: nat)
    requires IsMerge(v) && Live(v, i) && Live(v, j) && i < j
    ensures SlotOfBase(v, i) < SlotOfBase(v, j)
  {
    hide CmpCi, LiveBelow, Bit;
    LiveGrows(v, i, j);
    LowerExact(v.delta, v.base[i]);
    LowerExact(v.delta, v.base[j]);
    var l := LowerBound(v.delta, v.base[j]);
    if l < LowerBound(v.delta, v.base[i]) {
      LeqTransitive(v.delta[l], v.base[i], v.base[j]);
    }
  }

  lemma DeltaKeepsOrder(v: Merge, k: nat, l: nat)
    requires IsMerge(v) && k < l < |v.delta|
    ensures SlotOfDelta(v, k) < SlotOfDelta(v, l)
  {
    hide CmpCi, LiveBelow, Bit;
    UpperExact(v.base, v.delta[k]);
    UpperExact(v.base, v.delta[l]);
    var a, b := UpperBound(v.base, v.delta[k]), UpperBound(v.base, v.delta[l]);
    if b < a {
      LeqTransitive(v.base[b], v.delta[k], v.delta[l]);
    }
    LiveGrows(v, a, b);
  }

  /** The output is sorted by name. */
  lemma TheoremMergedIsSorted(v: Merge, m: seq<Source>)
    requires IsMerge(v) && IsMerged(v, m)
    ensures Sorted(NamesOf(v, m))
  {
    hide CmpCi, LiveBelow, Bit, SlotOfBase, SlotOfDelta;
    forall s, t | 0 <= s < t < |m| ensures Leq(NameOf(v, m[s]), NameOf(v, m[t])) {
      assert Placed(v, m[s], s) && Placed(v, m[t], t);
      InOrder(v, m[s], m[t], s, t);
    }
    forall s | 0 <= s < |m| ensures Leq(NameOf(v, m[s]), NameOf(v, m[s])) {
      SelfLeq(NameOf(v, m[s]));
    }
  }

  lemma SelfLeq(a: Name)
    ensures Leq(a, a)
  {
    CmpFlips(a, a);
  }

  lemma InOrder(v: Merge, x: Source, y: Source, s: nat, t: nat)
    requires IsMerge(v) && Placed(v, x, s) && Placed(v, y, t) && s < t
    ensures Leq(NameOf(v, x), NameOf(v, y))
  {
    hide CmpCi, LiveBelow, Bit, SlotOfBase, SlotOfDelta;
    match (x, y) {
      case (FromBase(i), FromBase(j)) =>
        if j < i {
          BaseKeepsOrder(v, j, i);
        }
      case (FromDelta(k), FromDelta(l)) =>
        if l < k {
          DeltaKeepsOrder(v, l, k);
        }
      case (FromBase(i), FromDelta(k)) =>
        SlotsFollowNames(v, i, k);
      case (FromDelta(k), FromBase(i)) =>
        SlotsFollowNames(v, i, k);
        CmpFlips(v.base[i], v.delta[k]);
        CmpFlips(v.delta[k], v.base[i]);
    }
  }
}
