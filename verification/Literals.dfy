/** Literals every match of a regex must contain (literals.rs). */
module Literals {
  import opened Records
  import opened Ascii
  import opened Sorting

  const MAX_CLAUSES: nat := 16
  const MAX_ALTERNATIVES: nat := 32

  /** A disjunction of lowercase literals; a list of clauses is their conjunction. */
  type Clause = seq<Name>

  /** The shape of a parsed pattern. A class lists the strings it matches; an assertion matches the empty string. */
  datatype Hir =
    | Empty
    | Literal(bytes: Name)
    | Class(members: set<Name>)
    | Look
    | Repetition(min: nat, max: Option<nat>, sub: Hir)
    | Capture(inner: Hir)
    | Concat(parts: seq<Hir>)
    | Alternation(branches: seq<Hir>)

  /** The parser never builds an alternation without branches. */
  ghost predicate Parsed(h: Hir)
    decreases h
  {
    match h
    case Repetition(_, _, sub) => Parsed(sub)
    case Capture(inner) => Parsed(inner)
    case Concat(parts) => forall i :: 0 <= i < |parts| ==> Parsed(parts[i])
    case Alternation(branches) => branches != [] && forall i :: 0 <= i < |branches| ==> Parsed(branches[i])
    case _ => true
  }

  // ---- matching ----------------------------------------------------------------------

  /** `h` matches the whole of `s`, literals ignoring ASCII case. */
  ghost predicate Matches(h: Hir, s: Name)
    decreases h, 0, 0
  {
    match h
    case Empty => s == []
    case Literal(bytes) => LowerAll(s) == LowerAll(bytes)
    case Class(members) => s in members
    case Look => s == []
    case Repetition(min, max, sub) =>
      exists count: nat | Within(count, min, max) :: MatchesTimes(sub, s, count)
    case Capture(inner) => Matches(inner, s)
    case Concat(parts) => MatchesAll(parts, s)
    case Alternation(branches) => exists i :: 0 <= i < |branches| && Matches(branches[i], s)
  }

  predicate Within(count: nat, min: nat, max: Option<nat>) {
    min <= count && (max.Some? ==> count <= max.value)
  }

  ghost predicate MatchesTimes(sub: Hir, s: Name, count: nat)
    decreases sub, 1, count
  {
    if count == 0 then s == []
    else exists k :: 0 <= k <= |s| && Matches(sub, s[..k]) && MatchesTimes(sub, s[k..], count - 1)
  }

  ghost predicate MatchesAll(parts: seq<Hir>, s: Name)
    decreases parts, 0, 0
  {
    if parts == [] then s == []
    else exists k :: 0 <= k <= |s| && Matches(parts[0], s[..k]) && MatchesAll(parts[1..], s[k..])
  }

  /** One turn of a repetition fewer. */
  function Fewer(min: nat, max: Option<nat>, sub: Hir): Hir
    requires max != Some(0)
  {
    Repetition(if min == 0 then 0 else min - 1, if max.None? then None else Some(max.value - 1), sub)
  }

  /** A repetition matches the empty name if it may have no turn, or one turn and then the rest of them. */
  lemma TheoremRepetitionUnrolls(min: nat, max: Option<nat>, sub: Hir, s: Name)
    ensures Matches(Repetition(min, max, sub), s) <==>
      || (min == 0 && s == [])
      || (max != Some(0) && exists k :: 0 <= k <= |s| && Matches(sub, s[..k]) && Matches(Fewer(min, max, sub), s[k..]))
  {
    if Matches(Repetition(min, max, sub), s) {
      var count: nat :| Within(count, min, max) && MatchesTimes(sub, s, count);
      if count > 0 {
        var k :| 0 <= k <= |s| && Matches(sub, s[..k]) && MatchesTimes(sub, s[k..], count - 1);
        var one := Fewer(min, max, sub);
        assert Within(count - 1, one.min, one.max);
      }
    }
    if min == 0 && s == [] {
      assert Within(0, min, max) && MatchesTimes(sub, s, 0);
    }
    if max != Some(0) {
      forall k | 0 <= k <= |s| && Matches(sub, s[..k]) && Matches(Fewer(min, max, sub), s[k..])
        ensures Matches(Repetition(min, max, sub), s)
      {
        var one := Fewer(min, max, sub);
        var count: nat :| Within(count, one.min, one.max) && MatchesTimes(sub, s[k..], count);
        assert Within(count + 1, min, max) && MatchesTimes(sub, s, count + 1);
      }
    }
  }

  /** An unanchored search: some stretch of the name matches. */
  ghost predicate IsMatch(h: Hir, name: Name) {
    exists i, j :: 0 <= i <= j <= |name| && Matches(h, name[i..j])
  }

  // ---- what a proof promises ---------------------------------------------------------

  ghost predicate Holds(clause: Clause, s: Name) {
    exists i :: 0 <= i < |clause| && Contains(s, clause[i])
  }

  ghost predicate Required(clauses: seq<Clause>, s: Name) {
    forall c :: 0 <= c < |clauses| ==> Holds(clauses[c], s)
  }

  ghost predicate Sound(h: Hir, clauses: seq<Clause>) {
    forall s: Name :: Matches(h, s) ==> Required(clauses, s)
  }

  ghost predicate GoodLiteral(literal: Name) {
    |literal| >= 3 && forall k :: 0 <= k < |literal| ==> literal[k] < 128 && Lower(literal[k]) == literal[k]
  }

  ghost predicate GoodClause(clause: Clause) {
    0 < |clause| <= MAX_ALTERNATIVES && forall i :: 0 <= i < |clause| ==> GoodLiteral(clause[i])
  }

  /** At most 16 clauses, none empty, each of at most 32 lowercase ASCII literals of three bytes or more. */
  ghost predicate Bounded(clauses: seq<Clause>) {
    0 < |clauses| <= MAX_CLAUSES && forall c :: 0 <= c < |clauses| ==> GoodClause(clauses[c])
  }

  lemma ContainsWider(s: Name, i: nat, j: nat, literal: Name)
    requires i <= j <= |s| && Contains(s[i..j], literal)
    ensures Contains(s, literal)
  {
    var at :| 0 <= at <= j - i && MatchesAt(s[i..j], literal, at);
    forall k | 0 <= k < |literal| ensures Lower(s[i + at + k]) == literal[k] {
      assert s[i..j][at + k] == s[i + at + k];
    }
    assert MatchesAt(s, literal, i + at);
  }

  lemma RequiredWider(s: Name, i: nat, j: nat, clauses: seq<Clause>)
    requires i <= j <= |s| && Required(clauses, s[i..j])
    ensures Required(clauses, s)
  {
    forall c | 0 <= c < |clauses| ensures Holds(clauses[c], s) {
      assert Holds(clauses[c], s[i..j]);
      var k :| 0 <= k < |clauses[c]| && Contains(s[i..j], clauses[c][k]);
      ContainsWider(s, i, j, clauses[c][k]);
    }
  }

  /** Every part of a concatenation matches some stretch of the whole. */
  lemma {:induction false} PartMatches(parts: seq<Hir>, s: Name, p: nat) returns (i: nat, j: nat)
    requires p < |parts| && MatchesAll(parts, s)
    ensures i <= j <= |s| && Matches(parts[p], s[i..j])
  {
    hide Matches, MatchesAll;
    var k := FirstPart(parts, s);
    if p == 0 {
      assert s[0..k] == s[..k];
      return 0, k;
    }
    var a, b := PartMatches(parts[1..], s[k..], p - 1);
    StretchOfRest(s, k, a, b);
    return k + a, k + b;
  }

  lemma FirstPart(parts: seq<Hir>, s: Name) returns (k: nat)
    requires parts != [] && MatchesAll(parts, s)
    ensures k <= |s| && Matches(parts[0], s[..k]) && MatchesAll(parts[1..], s[k..])
  {
    k :| k <= |s| && Matches(parts[0], s[..k]) && MatchesAll(parts[1..], s[k..]);
  }

  lemma StretchOfRest(s: Name, k: nat, a: nat, b: nat)
    requires k <= |s| && a <= b <= |s| - k
    ensures s[k..][a..b] == s[k + a..k + b]
  {
  }

  lemma FirstRepeat(sub: Hir, s: Name, count: nat) returns (j: nat)
    requires count > 0 && MatchesTimes(sub, s, count)
    ensures j <= |s| && Matches(sub, s[0..j])
  {
    var k :| 0 <= k <= |s| && Matches(sub, s[..k]) && MatchesTimes(sub, s[k..], count - 1);
    assert s[0..k] == s[..k];
    return k;
  }

  lemma RepetitionSound(h: Hir, clauses: seq<Clause>)
    requires h.Repetition? && h.min > 0 && Sound(h.sub, clauses)
    ensures Sound(h, clauses)
  {
    forall s: Name | Matches(h, s) ensures Required(clauses, s) {
      var count: nat :| Within(count, h.min, h.max) && MatchesTimes(h.sub, s, count);
      var j := FirstRepeat(h.sub, s, count);
      RequiredWider(s, 0, j, clauses);
    }
  }

  lemma ConcatSound(h: Hir, p: nat, clauses: seq<Clause>)
    requires h.Concat? && p < |h.parts| && Sound(h.parts[p], clauses)
    ensures Sound(h, clauses)
  {
    forall s: Name | Matches(h, s) ensures Required(clauses, s) {
      var i, j := PartMatches(h.parts, s, p);
      RequiredWider(s, i, j, clauses);
    }
  }

  /** The same or more literals: a weaker clause. */
  ghost predicate Weaker(clause: Clause, base: Clause) {
    forall i :: 0 <= i < |base| ==> base[i] in clause
  }

  lemma WeakerHolds(clause: Clause, base: Clause, s: Name)
    requires Weaker(clause, base) && Holds(base, s)
    ensures Holds(clause, s)
  {
    var i :| 0 <= i < |base| && Contains(s, base[i]);
    var j :| 0 <= j < |clause| && clause[j] == base[i];
  }

  ghost predicate ImpliedBy(clause: Clause, base: seq<Clause>) {
    exists b :: 0 <= b < |base| && Weaker(clause, base[b])
  }

  /** Each clause of `clauses` is implied by one of `base`. */
  ghost predicate Follows(clauses: seq<Clause>, base: seq<Clause>) {
    forall c :: 0 <= c < |clauses| ==> ImpliedBy(clauses[c], base)
  }

  lemma FollowsSound(h: Hir, clauses: seq<Clause>, base: seq<Clause>)
    requires Follows(clauses, base) && Sound(h, base)
    ensures Sound(h, clauses)
  {
    forall s: Name | Matches(h, s) ensures Required(clauses, s) {
      forall c | 0 <= c < |clauses| ensures Holds(clauses[c], s) {
        var b :| 0 <= b < |base| && Weaker(clauses[c], base[b]);
        WeakerHolds(clauses[c], base[b], s);
      }
    }
  }

  // ---- normalization -----------------------------------------------------------------

  function ByteLeq(): (Byte, Byte) -> bool {
    (a, b) => a <= b
  }

  function NameLeq(): (Name, Name) -> bool {
    (a, b) => LexLeq(a, b, ByteLeq())
  }

  function ClauseLeq(): (Clause, Clause) -> bool {
    (a, b) => LexLeq(a, b, NameLeq())
  }

  lemma Orders()
    ensures TotalOrder(NameLeq()) && TotalOrder(ClauseLeq())
  {
    assert TotalOrder(ByteLeq());
    LexOrder(ByteLeq(), NameLeq());
    LexOrder(NameLeq(), ClauseLeq());
  }

  ghost predicate SameLiterals(a: Clause, b: Clause) {
    forall x :: x in a <==> x in b
  }

  method NormalizeClause(clause: Clause) returns (r: Clause)
    ensures r == Distinct(clause, NameLeq())
    ensures SameLiterals(r, clause) && Increasing(r, NameLeq()) && |r| <= |clause|
  {
    Orders();
    r := SortDedup(clause, NameLeq());
  }

  function MinLen(clause: Clause): nat
    requires clause != []
  {
    if |clause| == 1 || |clause[0]| < MinLen(clause[1..]) then |clause[0]| else MinLen(clause[1..])
  }

  /** clause_score: longer and fewer literals first. */
  function ClauseScore(clause: Clause): nat {
    if clause == [] then 0 else MinLen(clause) * 64 / |clause|
  }

  function Score(): Clause -> nat {
    clause => ClauseScore(clause)
  }

  ghost predicate Kept(x: Clause, kept: seq<Clause>) {
    x in kept || (|kept| == MAX_CLAUSES && forall k :: 0 <= k < |kept| ==> ClauseScore(kept[k]) >= ClauseScore(x))
  }

  ghost predicate AllKept(clauses: seq<Clause>, kept: seq<Clause>) {
    forall c :: 0 <= c < |clauses| ==> Distinct(clauses[c], NameLeq()) in kept
  }

  ghost predicate AllAtMost(clauses: seq<Clause>, width: nat) {
    forall c :: 0 <= c < |clauses| ==> |clauses[c]| <= width
  }

  ghost predicate AllGood(clauses: seq<Clause>) {
    forall c :: 0 <= c < |clauses| ==> GoodClause(clauses[c])
  }

  lemma SameIsGood(r: Clause, clause: Clause)
    requires SameLiterals(r, clause) && |r| <= |clause| && GoodClause(clause)
    ensures GoodClause(r) && Weaker(r, clause)
  {
    assert clause[0] in clause;
    forall i | 0 <= i < |r| ensures GoodLiteral(r[i]) {
      assert r[i] in clause;
      var k :| 0 <= k < |clause| && clause[k] == r[i];
    }
  }

  /** Normalizes each clause, then keeps the 16 best when there are more. */
  method NormalizeClauses(clauses: seq<Clause>, ghost width: nat) returns (r: Option<seq<Clause>>)
    requires AllGood(clauses) && AllAtMost(clauses, width)
    ensures r.None? <==> clauses == []
    ensures r.Some? ==> Bounded(r.value) && Follows(r.value, clauses) && AllAtMost(r.value, width)
    ensures r.Some? ==> forall c :: 0 <= c < |clauses| ==> Kept(Distinct(clauses[c], NameLeq()), r.value)
    ensures r.Some? && |clauses| <= MAX_CLAUSES ==> AllKept(clauses, r.value)
  {
    if clauses == [] {
      return None;
    }
    Orders();
    var each := NormalizeEach(clauses, width);
    assert each[0] in each;
    var sorted := SortDedup(each, ClauseLeq());
    assert each[0] in sorted;
    var kept := sorted;
    if |sorted| > MAX_CLAUSES {
      var best := SortByScore(sorted, Score());
      kept := best[..MAX_CLAUSES];
      forall c | 0 <= c < |clauses| ensures Kept(each[c], kept) {
        assert each[c] in each && each[c] in sorted && each[c] in best;
        var j :| 0 <= j < |best| && best[j] == each[c];
        if j >= MAX_CLAUSES {
          forall k | 0 <= k < |kept| ensures ClauseScore(kept[k]) >= ClauseScore(each[c]) {
            assert Score()(best[k]) >= Score()(best[j]);
          }
        } else {
          assert kept[j] == each[c];
        }
      }
    } else {
      forall c | 0 <= c < |clauses| ensures Kept(each[c], kept) {
        assert each[c] in each;
      }
    }
    KeptFollow(clauses, each, kept, width);
    return Some(kept);
  }

  method NormalizeEach(clauses: seq<Clause>, ghost width: nat) returns (each: seq<Clause>)
    requires AllGood(clauses) && AllAtMost(clauses, width)
    ensures |each| == |clauses|
    ensures forall c :: 0 <= c < |each| ==> IsNormal(each[c], clauses[c], width)
  {
    each := [];
    for c := 0 to |clauses|
      invariant |each| == c && forall k :: 0 <= k < c ==> IsNormal(each[k], clauses[k], width)
    {
      var normal := NormalizeClause(clauses[c]);
      SameIsGood(normal, clauses[c]);
      each := each + [normal];
    }
  }

  ghost predicate IsNormal(x: Clause, clause: Clause, width: nat) {
    x == Distinct(clause, NameLeq()) && GoodClause(x) && Weaker(x, clause) && |x| <= width
  }

  lemma KeptFollow(clauses: seq<Clause>, each: seq<Clause>, kept: seq<Clause>, width: nat)
    requires |each| == |clauses| && forall c :: 0 <= c < |each| ==> IsNormal(each[c], clauses[c], width)
    requires forall x :: x in kept ==> x in each
    ensures Follows(kept, clauses) && AllGood(kept) && AllAtMost(kept, width)
  {
    hide IsNormal, Weaker, GoodClause;
    forall c | 0 <= c < |kept|
      ensures GoodClause(kept[c]) && |kept[c]| <= width
      ensures ImpliedBy(kept[c], clauses)
    {
      assert kept[c] in each;
      var b :| 0 <= b < |each| && each[b] == kept[c];
      assert IsNormal(each[b], clauses[b], width);
      NormalGives(each[b], clauses[b], width);
    }
  }

  lemma NormalGives(x: Clause, clause: Clause, width: nat)
    requires IsNormal(x, clause, width)
    ensures GoodClause(x) && Weaker(x, clause) && |x| <= width
  {
  }

  // ---- alternations ------------------------------------------------------------------

  /** `clause` is implied by some clause of each of the first `k` branches. */
  ghost predicate CoversBranches(clause: Clause, constraints: seq<seq<Clause>>, k: nat) {
    forall i :: 0 <= i < k && i < |constraints| ==> ImpliedBy(clause, constraints[i])
  }

  lemma AlternationSound(h: Hir, constraints: seq<seq<Clause>>, clauses: seq<Clause>)
    requires h.Alternation? && |constraints| == |h.branches|
    requires forall i :: 0 <= i < |constraints| ==> Sound(h.branches[i], constraints[i])
    requires forall c :: 0 <= c < |clauses| ==> CoversBranches(clauses[c], constraints, |constraints|)
    ensures Sound(h, clauses)
  {
    forall s: Name | Matches(h, s) ensures Required(clauses, s) {
      var i :| 0 <= i < |h.branches| && Matches(h.branches[i], s);
      assert Required(constraints[i], s);
      forall c | 0 <= c < |clauses| ensures Holds(clauses[c], s) {
        assert CoversBranches(clauses[c], constraints, |constraints|);
        assert ImpliedBy(clauses[c], constraints[i]);
        var b :| 0 <= b < |constraints[i]| && Weaker(clauses[c], constraints[i][b]);
        WeakerHolds(clauses[c], constraints[i][b], s);
      }
    }
  }

  function Sum(widths: seq<nat>): nat {
    if widths == [] then 0 else Sum(widths[..|widths| - 1]) + widths[|widths| - 1]
  }

  function Product(sizes: seq<seq<Clause>>): nat {
    if sizes == [] then 1 else Product(sizes[..|sizes| - 1]) * |sizes[|sizes| - 1]|
  }

  ghost predicate AllGoodLiterals(clause: Clause) {
    forall i :: 0 <= i < |clause| ==> GoodLiteral(clause[i])
  }

  /** A clause standing for one choice in each of the first `k` branches. */
  ghost predicate Accumulated(x: Clause, constraints: seq<seq<Clause>>, k: nat, width: nat) {
    && CoversBranches(x, constraints, k)
    && AllGoodLiterals(x)
    && |x| <= MAX_ALTERNATIVES
    && |x| <= width
    && (k > 0 ==> x != [])
  }

  ghost predicate AllAccumulated(product: seq<Clause>, constraints: seq<seq<Clause>>, k: nat, width: nat) {
    forall x :: 0 <= x < |product| ==> Accumulated(product[x], constraints, k, width)
  }

  /** A name that satisfies the product satisfies one of the first `k` branches. */
  ghost predicate Complete(product: seq<Clause>, constraints: seq<seq<Clause>>, k: nat) {
    forall s: Name :: Required(product, s) ==> exists i :: 0 <= i < k && i < |constraints| && Required(constraints[i], s)
  }

  ghost predicate Constraints(constraints: seq<seq<Clause>>, widths: seq<nat>) {
    && |widths| == |constraints|
    && (forall i :: 0 <= i < |constraints| ==> Constraint(constraints[i], widths[i]))
  }

  ghost predicate Constraint(clauses: seq<Clause>, width: nat) {
    Bounded(clauses) && AllAtMost(clauses, width)
  }

  /** `x` has the literals of `a` and of `b`. */
  ghost predicate IsUnion(x: Clause, a: Clause, b: Clause) {
    forall y :: y in x <==> y in a || y in b
  }

  method Combine(a: Clause, b: Clause) returns (x: Clause)
    requires AllGoodLiterals(a) && AllGoodLiterals(b)
    ensures IsUnion(x, a, b) && AllGoodLiterals(x) && |x| <= |a| + |b|
  {
    x := NormalizeClause(a + b);
    forall i | 0 <= i < |x| ensures GoodLiteral(x[i]) {
      assert x[i] in a + b;
      var k :| 0 <= k < |a + b| && (a + b)[k] == x[i];
      assert (a + b)[k] == if k < |a| then a[k] else b[k - |a|];
    }
    assert forall y :: y in a + b <==> y in a || y in b;
  }

  lemma CombineAccumulates(x: Clause, a: Clause, constraints: seq<seq<Clause>>, k: nat, c: nat, width: nat, more: nat)
    requires k < |constraints| && c < |constraints[k]| && Constraint(constraints[k], more)
    requires Accumulated(a, constraints, k, width) && IsUnion(x, a, constraints[k][c])
    requires AllGoodLiterals(x) && |x| <= |a| + |constraints[k][c]| && |x| <= MAX_ALTERNATIVES
    ensures Accumulated(x, constraints, k + 1, width + more)
  {
    hide GoodLiteral;
    assert GoodClause(constraints[k][c]);
    assert constraints[k][c][0] in x;
    assert Weaker(x, constraints[k][c]);
    forall i | 0 <= i < k + 1 ensures ImpliedBy(x, constraints[i]) {
      if i < k {
        assert ImpliedBy(a, constraints[i]);
        var b :| 0 <= b < |constraints[i]| && Weaker(a, constraints[i][b]);
        assert Weaker(x, constraints[i][b]);
      }
    }
  }

  /** Every pairing of a product clause with a clause of the branch occurs in `next`. */
  ghost predicate Paired(next: seq<Clause>, product: seq<Clause>, clauses: seq<Clause>) {
    forall p :: 0 <= p < |product| ==> HasRow(next, product[p], clauses)
  }

  ghost predicate HasRow(next: seq<Clause>, a: Clause, clauses: seq<Clause>) {
    forall c :: 0 <= c < |clauses| ==> HasUnion(next, a, clauses[c])
  }

  ghost predicate HasUnion(next: seq<Clause>, a: Clause, b: Clause) {
    exists n :: 0 <= n < |next| && IsUnion(next[n], a, b)
  }

  lemma PairedIsComplete(next: seq<Clause>, product: seq<Clause>, constraints: seq<seq<Clause>>, k: nat)
    requires k < |constraints| && Complete(product, constraints, k) && Paired(next, product, constraints[k])
    ensures Complete(next, constraints, k + 1)
  {
    forall s: Name | Required(next, s) ensures exists i :: 0 <= i < k + 1 && i < |constraints| && Required(constraints[i], s) {
      if !Required(product, s) && !Required(constraints[k], s) {
        var p :| 0 <= p < |product| && !Holds(product[p], s);
        var c :| 0 <= c < |constraints[k]| && !Holds(constraints[k][c], s);
        assert HasRow(next, product[p], constraints[k]);
        var n :| 0 <= n < |next| && IsUnion(next[n], product[p], constraints[k][c]);
        UnionSplits(next[n], product[p], constraints[k][c], s);
      }
      if Required(product, s) {
        var i :| 0 <= i < k && i < |constraints| && Required(constraints[i], s);
      }
    }
  }

  lemma UnionSplits(x: Clause, a: Clause, b: Clause, s: Name)
    requires IsUnion(x, a, b) && Holds(x, s)
    ensures Holds(a, s) || Holds(b, s)
  {
    var i :| 0 <= i < |x| && Contains(s, x[i]);
    assert x[i] in x;
    if x[i] in a {
      var j :| 0 <= j < |a| && a[j] == x[i];
    } else {
      var j :| 0 <= j < |b| && b[j] == x[i];
    }
  }

  /** Multiplies the product by one more branch; None when it grows past a bound. */
  method Extend(product: seq<Clause>, constraints: seq<seq<Clause>>, k: nat, ghost width: nat, ghost more: nat)
    returns (r: Option<seq<Clause>>)
    requires k < |constraints| && Constraint(constraints[k], more)
    requires AllAccumulated(product, constraints, k, width)
    ensures r.Some? ==> |r.value| == |product| * |constraints[k]| <= MAX_CLAUSES
    ensures r.Some? ==> AllAccumulated(r.value, constraints, k + 1, width + more)
    ensures r.Some? ==> Paired(r.value, product, constraints[k])
    ensures r.None? ==> width + more > MAX_ALTERNATIVES || |product| * |constraints[k]| > MAX_CLAUSES
  {
    hide Accumulated, IsUnion;
    var clauses := constraints[k];
    var next: seq<Clause> := [];
    for p := 0 to |product|
      invariant |next| == p * |clauses| && |next| <= MAX_CLAUSES
      invariant AllAccumulated(next, constraints, k + 1, width + more)
      invariant Paired(next, product[..p], clauses)
    {
      for c := 0 to |clauses|
        invariant |next| == p * |clauses| + c && |next| <= MAX_CLAUSES
        invariant AllAccumulated(next, constraints, k + 1, width + more)
        invariant Paired(next, product[..p], clauses)
        invariant HasRow(next, product[p], clauses[..c])
      {
        AccumulatedIsGood(product[p], constraints, k, width);
        assert GoodClause(clauses[c]) && AllGoodLiterals(clauses[c]) && |clauses[c]| <= more;
        var combined := Combine(product[p], clauses[c]);
        if |combined| > MAX_ALTERNATIVES {
          return None;
        }
        CombineAccumulates(combined, product[p], constraints, k, c, width, more);
        PairedGrows(next, combined, product, clauses, p, c);
        next := next + [combined];
        if |next| > MAX_CLAUSES {
          SizesGrow(p, c, |product|, |clauses|);
          return None;
        }
      }
      assert clauses[..|clauses|] == clauses;
      assert product[..p + 1] == product[..p] + [product[p]];
      assert (p + 1) * |clauses| == p * |clauses| + |clauses|;
    }
    assert product[..|product|] == product;
    return Some(next);
  }

  lemma AccumulatedIsGood(x: Clause, constraints: seq<seq<Clause>>, k: nat, width: nat)
    requires Accumulated(x, constraints, k, width)
    ensures AllGoodLiterals(x) && |x| <= width
  {
  }

  lemma SizesGrow(p: nat, c: nat, n: nat, m: nat)
    requires p < n && c < m
    ensures p * m + c + 1 <= n * m
  {
    assert p * m + m == (p + 1) * m <= n * m;
  }

  lemma PairedGrows(next: seq<Clause>, x: Clause, product: seq<Clause>, clauses: seq<Clause>, p: nat, c: nat)
    requires p < |product| && c < |clauses| && IsUnion(x, product[p], clauses[c])
    requires Paired(next, product[..p], clauses) && HasRow(next, product[p], clauses[..c])
    ensures Paired(next + [x], product[..p], clauses)
    ensures HasRow(next + [x], product[p], clauses[..c + 1])
  {
    hide IsUnion;
    var grown := next + [x];
    assert grown[|next|] == x;
    forall a, b | HasUnion(next, a, b) ensures HasUnion(grown, a, b) {
      var n :| 0 <= n < |next| && IsUnion(next[n], a, b);
      assert grown[n] == next[n];
    }
    forall d | 0 <= d < c + 1 ensures HasUnion(grown, product[p], clauses[d]) {
      if d < c {
        assert clauses[d] == clauses[..c][d];
      }
    }
  }

  // ---- the analysis ------------------------------------------------------------------

  /** Multiplying out is possible within both bounds. */
  ghost predicate Fits(constraints: seq<seq<Clause>>, widths: seq<nat>) {
    Sum(widths) <= MAX_ALTERNATIVES && forall k :: 0 <= k <= |constraints| ==> Product(constraints[..k]) <= MAX_CLAUSES
  }

  /**
   * The clauses of an alternation: one for every choice of a clause in each branch, or
   * None when some bound is exceeded. The product loses nothing: a name that satisfies it
   * satisfies the proof of some branch.
   */
  method Distribute(constraints: seq<seq<Clause>>, ghost widths: seq<nat>) returns (r: Option<seq<Clause>>)
    requires constraints != [] && Constraints(constraints, widths)
    ensures r.Some? ==> AllAccumulated(r.value, constraints, |constraints|, Sum(widths))
    ensures r.Some? ==> 0 < |r.value| <= MAX_CLAUSES && Complete(r.value, constraints, |constraints|)
    ensures Fits(constraints, widths) ==> r.Some?
  {
    hide Accumulated, Complete, Constraint, Paired;
    var product: seq<Clause> := [[]];
    StartsProduct(constraints);
    assert constraints[..0] == [] && widths[..0] == [];
    for k := 0 to |constraints|
      invariant AllAccumulated(product, constraints, k, Sum(widths[..k]))
      invariant 0 < |product| == Product(constraints[..k]) <= MAX_CLAUSES
      invariant Complete(product, constraints, k)
    {
      assert constraints[..k + 1][..k] == constraints[..k] && widths[..k + 1][..k] == widths[..k];
      assert Product(constraints[..k + 1]) == |product| * |constraints[k]|;
      SumGrows(widths, k + 1);
      ConstraintIsNonempty(constraints, widths, k);
      var next := Extend(product, constraints, k, Sum(widths[..k]), widths[k]);
      if next.None? {
        return None;
      }
      PairedIsComplete(next.value, product, constraints, k);
      ProductIsPositive(|product|, |constraints[k]|);
      product := next.value;
    }
    assert constraints[..|constraints|] == constraints && widths[..|widths|] == widths;
    return Some(product);
  }

  lemma StartsProduct(constraints: seq<seq<Clause>>)
    ensures AllAccumulated([[]], constraints, 0, 0) && Complete([[]], constraints, 0)
  {
    forall s: Name ensures !Required([[]], s) {
      assert !Holds([[]][0], s);
    }
  }

  lemma ConstraintIsNonempty(constraints: seq<seq<Clause>>, widths: seq<nat>, k: nat)
    requires k < |constraints| && Constraints(constraints, widths)
    ensures Constraint(constraints[k], widths[k]) && constraints[k] != []
  {
  }

  lemma {:induction false} SumGrows(widths: seq<nat>, k: nat)
    requires k <= |widths|
    ensures Sum(widths[..k]) <= Sum(widths)
    decreases |widths|
  {
    if k < |widths| {
      var w := |widths| - 1;
      assert widths[..w][..k] == widths[..k];
      SumGrows(widths[..w], k);
    } else {
      assert widths[..k] == widths;
    }
  }

  lemma ProductIsPositive(a: nat, b: nat)
    requires a > 0 && b > 0
    ensures a * b > 0
  {
  }

  /** The last clause of the best score, as `max_by_key` picks it. */
  method Best(clauses: seq<Clause>) returns (b: nat)
    requires clauses != []
    ensures b < |clauses| && forall c :: 0 <= c < |clauses| ==> ClauseScore(clauses[c]) <= ClauseScore(clauses[b])
    ensures forall c :: b < c < |clauses| ==> ClauseScore(clauses[c]) < ClauseScore(clauses[b])
  {
    b := 0;
    for k := 1 to |clauses|
      invariant b < k && forall c :: 0 <= c < k ==> ClauseScore(clauses[c]) <= ClauseScore(clauses[b])
      invariant forall c :: b < c < k ==> ClauseScore(clauses[c]) < ClauseScore(clauses[b])
    {
      if ClauseScore(clauses[k]) >= ClauseScore(clauses[b]) {
        b := k;
      }
    }
  }

  /** One clause of the best clauses of the branches. */
  method AlternationFallback(constraints: seq<seq<Clause>>, ghost widths: seq<nat>) returns (r: Option<seq<Clause>>)
    requires constraints != [] && Constraints(constraints, widths)
    ensures r.Some? ==> Bounded(r.value) && AllAtMost(r.value, Sum(widths))
    ensures r.Some? ==> |r.value| == 1 && CoversBranches(r.value[0], constraints, |constraints|)
    ensures Sum(widths) <= MAX_ALTERNATIVES ==> r.Some?
  {
    hide GoodLiteral, Constraint;
    var clause: Clause := [];
    assert widths[..0] == [];
    for k := 0 to |constraints|
      invariant CoversBranches(clause, constraints, k) && AllGoodLiterals(clause)
      invariant |clause| <= Sum(widths[..k]) && (k > 0 ==> clause != [])
    {
      assert widths[..k + 1][..k] == widths[..k];
      ConstraintIsNonempty(constraints, widths, k);
      var b := Best(constraints[k]);
      FallbackGrows(clause, constraints, k, b, widths[k]);
      clause := clause + constraints[k][b];
    }
    assert widths[..|widths|] == widths;
    var normal := NormalizeClause(clause);
    SameCovers(normal, clause, constraints);
    assert clause[0] in normal;
    return if |normal| <= MAX_ALTERNATIVES then Some([normal]) else None;
  }

  lemma FallbackGrows(clause: Clause, constraints: seq<seq<Clause>>, k: nat, b: nat, width: nat)
    requires k < |constraints| && b < |constraints[k]| && Constraint(constraints[k], width)
    requires CoversBranches(clause, constraints, k) && AllGoodLiterals(clause)
    ensures CoversBranches(clause + constraints[k][b], constraints, k + 1)
    ensures AllGoodLiterals(clause + constraints[k][b])
    ensures 0 < |constraints[k][b]| <= width
  {
    hide GoodLiteral;
    var grown := clause + constraints[k][b];
    assert GoodClause(constraints[k][b]);
    forall i | 0 <= i < k + 1 ensures ImpliedBy(grown, constraints[i]) {
      if i < k {
        var c :| 0 <= c < |constraints[i]| && Weaker(clause, constraints[i][c]);
        assert Weaker(grown, constraints[i][c]);
      } else {
        assert Weaker(grown, constraints[k][b]);
      }
    }
  }

  lemma SameCovers(x: Clause, clause: Clause, constraints: seq<seq<Clause>>)
    requires SameLiterals(x, clause) && AllGoodLiterals(clause) && CoversBranches(clause, constraints, |constraints|)
    ensures AllGoodLiterals(x) && CoversBranches(x, constraints, |constraints|)
  {
    forall i | 0 <= i < |x| ensures GoodLiteral(x[i]) {
      assert x[i] in clause;
      var k :| 0 <= k < |clause| && clause[k] == x[i];
    }
    forall i | 0 <= i < |constraints| ensures ImpliedBy(x, constraints[i]) {
      var b :| 0 <= b < |constraints[i]| && Weaker(clause, constraints[i][b]);
      assert Weaker(x, constraints[i][b]);
    }
  }

  /** The clauses of an alternation, from those of its branches. */
  method CombineBranches(constraints: seq<seq<Clause>>, ghost widths: seq<nat>) returns (r: Option<seq<Clause>>)
    requires constraints != [] && Constraints(constraints, widths)
    ensures r.Some? ==> Bounded(r.value) && AllAtMost(r.value, Sum(widths))
    ensures r.Some? ==> forall c :: 0 <= c < |r.value| ==> CoversBranches(r.value[c], constraints, |constraints|)
    ensures Sum(widths) <= MAX_ALTERNATIVES ==> r.Some?
    ensures Fits(constraints, widths) ==> Complete(r.value, constraints, |constraints|)
  {
    hide Fits, Constraints, Accumulated, Complete, GoodClause;
    var product := Distribute(constraints, widths);
    if product.None? {
      r := AlternationFallback(constraints, widths);
      return;
    }
    AccumulatedAreGood(product.value, constraints, Sum(widths));
    r := NormalizeClauses(product.value, Sum(widths));
    NormalizedKeepsBoth(r.value, product.value, constraints);
  }

  lemma AccumulatedAreGood(product: seq<Clause>, constraints: seq<seq<Clause>>, width: nat)
    requires constraints != [] && AllAccumulated(product, constraints, |constraints|, width)
    ensures AllGood(product) && AllAtMost(product, width)
    ensures forall c :: 0 <= c < |product| ==> CoversBranches(product[c], constraints, |constraints|)
  {
  }

  lemma NormalizedKeepsBoth(kept: seq<Clause>, product: seq<Clause>, constraints: seq<seq<Clause>>)
    requires Follows(kept, product) && AllKept(product, kept)
    requires Complete(product, constraints, |constraints|)
    requires forall c :: 0 <= c < |product| ==> CoversBranches(product[c], constraints, |constraints|)
    ensures forall c :: 0 <= c < |kept| ==> CoversBranches(kept[c], constraints, |constraints|)
    ensures Complete(kept, constraints, |constraints|)
  {
    forall c, i | 0 <= c < |kept| && 0 <= i < |constraints| ensures ImpliedBy(kept[c], constraints[i]) {
      assert ImpliedBy(kept[c], product);
      var p :| 0 <= p < |product| && Weaker(kept[c], product[p]);
      assert CoversBranches(product[p], constraints, |constraints|);
      assert ImpliedBy(product[p], constraints[i]);
      var b :| 0 <= b < |constraints[i]| && Weaker(product[p], constraints[i][b]);
      WeakerChains(kept[c], product[p], constraints[i][b]);
    }
    forall s: Name | Required(kept, s) ensures Required(product, s) {
      KeptRequires(kept, product, s);
    }
  }

  lemma WeakerChains(a: Clause, b: Clause, c: Clause)
    requires Weaker(a, b) && Weaker(b, c)
    ensures Weaker(a, c)
  {
    forall i | 0 <= i < |c| ensures c[i] in a {
      assert c[i] in b;
      var k :| 0 <= k < |b| && b[k] == c[i];
    }
  }

  lemma KeptRequires(kept: seq<Clause>, product: seq<Clause>, s: Name)
    requires AllKept(product, kept) && Required(kept, s)
    ensures Required(product, s)
  {
    Orders();
    forall c | 0 <= c < |product| ensures Holds(product[c], s) {
      var x := Distinct(product[c], NameLeq());
      assert x in kept;
      var k :| 0 <= k < |kept| && kept[k] == x;
      assert Holds(kept[k], s);
      DistinctKeeps(product[c], NameLeq());
      forall i | 0 <= i < |x| ensures x[i] in product[c] {
        assert x[i] in x;
      }
      WeakerHolds(product[c], x, s);
    }
  }

  // ---- the recursion -----------------------------------------------------------------

  /** The most literals a clause for `h` can hold. */
  ghost function Width(h: Hir): nat
    decreases h, 0
  {
    match h
    case Literal(_) => 1
    case Repetition(_, _, sub) => Width(sub)
    case Capture(inner) => Width(inner)
    case Concat(parts) => WidestOf(parts)
    case Alternation(branches) => Sum(Widths(branches))
    case _ => 0
  }

  ghost function WidestOf(parts: seq<Hir>): nat
    decreases parts, 0
  {
    if parts == [] then 0
    else
      var rest := WidestOf(parts[..|parts| - 1]);
      var last := Width(parts[|parts| - 1]);
      if rest < last then last else rest
  }

  ghost function Widths(branches: seq<Hir>): seq<nat>
    decreases branches, 0
  {
    if branches == [] then [] else Widths(branches[..|branches| - 1]) + [Width(branches[|branches| - 1])]
  }

  lemma {:induction false} WidestBounds(parts: seq<Hir>, p: nat)
    requires p < |parts|
    ensures Width(parts[p]) <= WidestOf(parts)
    decreases |parts|
  {
    if p < |parts| - 1 {
      WidestBounds(parts[..|parts| - 1], p);
    }
  }

  lemma {:induction false} WidthsAt(branches: seq<Hir>)
    ensures |Widths(branches)| == |branches|
    ensures forall i :: 0 <= i < |branches| ==> Widths(branches)[i] == Width(branches[i])
    decreases |branches|
  {
    if branches != [] {
      WidthsAt(branches[..|branches| - 1]);
    }
  }

  /** Some literal of three ASCII bytes or more is on every path through `h`. */
  ghost predicate Provable(h: Hir)
    decreases h
  {
    match h
    case Literal(bytes) => |bytes| >= 3 && forall i :: 0 <= i < |bytes| ==> bytes[i] < 128
    case Repetition(min, _, sub) => min > 0 && Provable(sub)
    case Capture(inner) => Provable(inner)
    case Concat(parts) => exists i :: 0 <= i < |parts| && Provable(parts[i])
    case Alternation(branches) => forall i :: 0 <= i < |branches| ==> Provable(branches[i])
    case _ => false
  }

  /**
   * What the proof found for `h` is worth: it holds of every match and stays within the
   * bounds, and it is found whenever one exists and no alternation is too wide.
   */
  ghost predicate Proof(h: Hir, r: Option<seq<Clause>>) {
    && (r.Some? ==> Provable(h) && Sound(h, r.value) && Constraint(r.value, Width(h)))
    && (r.None? ==> !Provable(h) || Width(h) > MAX_ALTERNATIVES)
  }

  lemma LiteralSound(h: Hir)
    requires h.Literal? && Provable(h)
    ensures Proof(h, Some([[LowerAll(h.bytes)]]))
  {
    var literal := LowerAll(h.bytes);
    forall s: Name | Matches(h, s) ensures Required([[literal]], s) {
      forall k | 0 <= k < |literal| ensures Lower(s[k]) == literal[k] {
        assert LowerAll(s)[k] == LowerAll(h.bytes)[k];
      }
      assert |LowerAll(s)| == |literal|;
      assert MatchesAt(s, literal, 0);
      assert Contains(s, [literal][0]);
      assert Holds([literal], s);
    }
    assert GoodLiteral([literal][0]);
    assert GoodClause([[literal]][0]);
  }

  method LiteralClause(bytes: Name) returns (r: Option<seq<Clause>>)
    ensures Proof(Literal(bytes), r)
  {
    if |bytes| < 3 || exists i :: 0 <= i < |bytes| && bytes[i] >= 128 {
      return None;
    }
    LiteralSound(Literal(bytes));
    return Some([[LowerAll(bytes)]]);
  }

  method Analyze(h: Hir) returns (r: Option<seq<Clause>>)
    requires Parsed(h)
    ensures Proof(h, r)
    decreases h, 1
  {
    hide Constraint, Sound;
    match h {
      case Literal(bytes) =>
        r := LiteralClause(bytes);
      case Capture(inner) =>
        r := Analyze(inner);
        CaptureProof(h, r);
      case Repetition(min, max, sub) =>
        if min > 0 {
          r := Analyze(sub);
          RepetitionProof(h, r);
        } else {
          r := None;
        }
      case Concat(parts) =>
        r := AnalyzeConcat(parts);
      case Alternation(branches) =>
        r := AnalyzeAlternation(branches);
      case _ =>
        r := None;
    }
  }

  lemma CaptureProof(h: Hir, r: Option<seq<Clause>>)
    requires h.Capture? && Proof(h.inner, r)
    ensures Proof(h, r)
  {
  }

  lemma RepetitionProof(h: Hir, r: Option<seq<Clause>>)
    requires h.Repetition? && h.min > 0 && Proof(h.sub, r)
    ensures Proof(h, r)
  {
    hide Constraint;
    if r.Some? {
      RepetitionSound(h, r.value);
    }
  }

  /** The clauses of all parts that have a proof. */
  method AnalyzeConcat(parts: seq<Hir>) returns (r: Option<seq<Clause>>)
    requires forall i :: 0 <= i < |parts| ==> Parsed(parts[i])
    ensures Proof(Concat(parts), r)
    decreases parts, 0
  {
    hide Parsed, Proof, Sound, GoodClause, Provable, Width, WidestOf;
    var clauses: seq<Clause> := [];
    SoundEmpty(Concat(parts));
    for p := 0 to |parts|
      invariant AllGood(clauses) && AllAtMost(clauses, WidestOf(parts)) && Sound(Concat(parts), clauses)
      invariant clauses == [] ==> NoneProvable(parts, p)
      invariant clauses != [] ==> Provable(Concat(parts))
    {
      var found := Analyze(parts[p]);
      ConcatProof(parts, p, found, clauses);
      if found.Some? {
        clauses := clauses + found.value;
      }
    }
    r := NormalizeClauses(clauses, WidestOf(parts));
    ConcatDone(parts, clauses, r);
  }

  ghost predicate NoneProvable(parts: seq<Hir>, p: nat) {
    forall i :: 0 <= i < p && i < |parts| ==> !Provable(parts[i]) || Width(parts[i]) > MAX_ALTERNATIVES
  }

  lemma ConcatProof(parts: seq<Hir>, p: nat, found: Option<seq<Clause>>, clauses: seq<Clause>)
    requires p < |parts| && Proof(parts[p], found)
    requires AllGood(clauses) && AllAtMost(clauses, WidestOf(parts)) && Sound(Concat(parts), clauses)
    ensures found.None? && NoneProvable(parts, p) ==> NoneProvable(parts, p + 1)
    ensures found.Some? ==> found.value != [] && Provable(Concat(parts))
    ensures found.Some? ==> AllGood(clauses + found.value) && AllAtMost(clauses + found.value, WidestOf(parts))
    ensures found.Some? ==> Sound(Concat(parts), clauses + found.value)
  {
    hide Sound, GoodClause, Provable, Width, WidestOf;
    if found.Some? {
      WidestBounds(parts, p);
      ConcatProvable(parts, p);
      ConcatSound(Concat(parts), p, found.value);
      SoundAppends(Concat(parts), clauses, found.value);
    }
  }

  lemma ConcatProvable(parts: seq<Hir>, p: nat)
    requires p < |parts| && Provable(parts[p])
    ensures Provable(Concat(parts))
  {
  }

  lemma SoundEmpty(h: Hir)
    ensures Sound(h, [])
  {
  }

  lemma SoundAppends(h: Hir, a: seq<Clause>, b: seq<Clause>)
    requires Sound(h, a) && Sound(h, b)
    ensures Sound(h, a + b)
  {
    forall s: Name | Matches(h, s) ensures Required(a + b, s) {
      assert Required(a, s) && Required(b, s);
    }
  }

  lemma ConcatDone(parts: seq<Hir>, clauses: seq<Clause>, r: Option<seq<Clause>>)
    requires Sound(Concat(parts), clauses)
    requires clauses == [] ==> NoneProvable(parts, |parts|)
    requires clauses != [] ==> Provable(Concat(parts))
    requires r.None? <==> clauses == []
    requires r.Some? ==> Bounded(r.value) && Follows(r.value, clauses) && AllAtMost(r.value, WidestOf(parts))
    ensures Proof(Concat(parts), r)
  {
    hide Sound, Bounded;
    if r.Some? {
      FollowsSound(Concat(parts), r.value, clauses);
    } else if Provable(Concat(parts)) {
      var i :| 0 <= i < |parts| && Provable(parts[i]);
      WidestBounds(parts, i);
    }
  }

  /** analyze_alternation: no proof unless every branch has one. */
  method AnalyzeAlternation(branches: seq<Hir>) returns (r: Option<seq<Clause>>)
    requires branches != [] && forall i :: 0 <= i < |branches| ==> Parsed(branches[i])
    ensures Proof(Alternation(branches), r)
    decreases branches, 0
  {
    hide Parsed, Proof, Sound, Constraint, Width, Widths;
    var constraints: seq<seq<Clause>> := [];
    for k := 0 to |branches|
      invariant |constraints| == k && forall i :: 0 <= i < k ==> Proof(branches[i], Some(constraints[i]))
    {
      var found := Analyze(branches[k]);
      if found.None? {
        NoBranchProof(branches, k);
        return None;
      }
      constraints := constraints + [found.value];
    }
    BranchesConstrain(branches, constraints);
    r := CombineBranches(constraints, Widths(branches));
    AlternationDone(branches, constraints, r);
  }

  lemma {:induction false} SumBounds(widths: seq<nat>, k: nat)
    requires k < |widths|
    ensures widths[k] <= Sum(widths)
    decreases |widths|
  {
    if k < |widths| - 1 {
      SumBounds(widths[..|widths| - 1], k);
    }
  }

  lemma NoBranchProof(branches: seq<Hir>, k: nat)
    requires k < |branches| && Proof(branches[k], None)
    ensures Proof(Alternation(branches), None)
  {
    WidthsAt(branches);
    SumBounds(Widths(branches), k);
  }

  lemma BranchesConstrain(branches: seq<Hir>, constraints: seq<seq<Clause>>)
    requires |constraints| == |branches|
    requires forall i :: 0 <= i < |branches| ==> Proof(branches[i], Some(constraints[i]))
    ensures Constraints(constraints, Widths(branches))
    ensures Provable(Alternation(branches))
    ensures forall i :: 0 <= i < |branches| ==> Sound(branches[i], constraints[i])
  {
    hide Constraint, Sound;
    WidthsAt(branches);
    forall i | 0 <= i < |branches| ensures Constraint(constraints[i], Widths(branches)[i]) && Provable(branches[i]) {
      assert Proof(branches[i], Some(constraints[i]));
    }
  }

  lemma AlternationDone(branches: seq<Hir>, constraints: seq<seq<Clause>>, r: Option<seq<Clause>>)
    requires |constraints| == |branches| && Provable(Alternation(branches))
    requires forall i :: 0 <= i < |branches| ==> Sound(branches[i], constraints[i])
    requires r.Some? ==> Bounded(r.value) && AllAtMost(r.value, Sum(Widths(branches)))
    requires r.Some? ==> forall c :: 0 <= c < |r.value| ==> CoversBranches(r.value[c], constraints, |constraints|)
    requires Sum(Widths(branches)) <= MAX_ALTERNATIVES ==> r.Some?
    ensures Proof(Alternation(branches), r)
  {
    hide Sound, Bounded, CoversBranches;
    if r.Some? {
      AlternationSound(Alternation(branches), constraints, r.value);
    }
  }

  /** Every name with a match contains, ignoring ASCII case, a literal of each clause. */
  lemma TheoremLiteralsAreRequired(h: Hir, clauses: seq<Clause>, name: Name)
    requires Sound(h, clauses) && IsMatch(h, name)
    ensures Required(clauses, name)
  {
    var i, j :| 0 <= i <= j <= |name| && Matches(h, name[i..j]);
    RequiredWider(name, i, j, clauses);
  }
}
