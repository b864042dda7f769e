/** Insertion sorts standing for the standard library's `sort_unstable`, `sort_by_key` and `dedup`. */
module Sorting {

  ghost predicate TotalOrder<T(!new)>(leq: (T, T) -> bool) {
    && (forall a, b :: leq(a, b) || leq(b, a))
    && (forall a, b :: leq(a, b) && leq(b, a) ==> a == b)
    && (forall a, b, c :: leq(a, b) && leq(b, c) ==> leq(a, c))
  }

  ghost predicate Increasing<T(!new)>(s: seq<T>, leq: (T, T) -> bool) {
    forall i, j :: 0 <= i < j < |s| ==> leq(s[i], s[j]) && s[i] != s[j]
  }

  /** Inserts `x` into a list without duplicates, unless it is there. */
  function InsertNew<T(==)>(s: seq<T>, x: T, leq: (T, T) -> bool): seq<T> {
    if s == [] then [x]
    else if s[0] == x then s
    else if leq(x, s[0]) then [x] + s
    else [s[0]] + InsertNew(s[1..], x, leq)
  }

  lemma {:induction false} InsertNewKeeps<T(!new)>(s: seq<T>, x: T, leq: (T, T) -> bool)
    requires TotalOrder(leq) && Increasing(s, leq)
    ensures forall y :: y in InsertNew(s, x, leq) <==> y in s || y == x
    ensures Increasing(InsertNew(s, x, leq), leq)
    ensures |InsertNew(s, x, leq)| <= |s| + 1
  {
    if s != [] {
      assert s == [s[0]] + s[1..];
      InsertNewKeeps(s[1..], x, leq);
      var rest := InsertNew(s[1..], x, leq);
      if s[0] != x && !leq(x, s[0]) {
        forall i | 0 <= i < |rest| ensures leq(s[0], rest[i]) && s[0] != rest[i] {
          assert rest[i] in rest;
          assert rest[i] == x || rest[i] in s[1..];
        }
      }
    }
  }

  /** The distinct values of `s`, in order. */
  function Distinct<T(==)>(s: seq<T>, leq: (T, T) -> bool): seq<T> {
    if s == [] then [] else InsertNew(Distinct(s[..|s| - 1], leq), s[|s| - 1], leq)
  }

  lemma {:induction false} DistinctKeeps<T(!new)>(s: seq<T>, leq: (T, T) -> bool)
    requires TotalOrder(leq)
    ensures Increasing(Distinct(s, leq), leq)
    ensures forall y :: y in Distinct(s, leq) <==> y in s
    ensures |Distinct(s, leq)| <= |s|
  {
    if s != [] {
      var n := |s| - 1;
      DistinctKeeps(s[..n], leq);
      InsertNewKeeps(Distinct(s[..n], leq), s[n], leq);
      assert s == s[..n] + [s[n]];
    }
  }

  /** Sort, then drop equal neighbours. */
  method SortDedup<T(==, !new)>(s: seq<T>, leq: (T, T) -> bool) returns (r: seq<T>)
    requires TotalOrder(leq)
    ensures r == Distinct(s, leq)
    ensures Increasing(r, leq) && |r| <= |s| && forall y :: y in r <==> y in s
  {
    r := [];
    for i := 0 to |s|
      invariant r == Distinct(s[..i], leq)
    {
      assert s[..i + 1][..i] == s[..i];
      r := InsertNew(r, s[i], leq);
    }
    assert s[..|s|] == s;
    DistinctKeeps(s, leq);
  }

  // ---- stable sort by a descending score ---------------------------------------------

  function InsertByScore<T>(s: seq<T>, x: T, score: T -> nat): seq<T> {
    if s == [] then [x]
    else if score(s[0]) >= score(x) then [s[0]] + InsertByScore(s[1..], x, score)
    else [x] + s
  }

  ghost predicate Descending<T(!new)>(s: seq<T>, score: T -> nat) {
    forall i, j :: 0 <= i < j < |s| ==> score(s[i]) >= score(s[j])
  }

  lemma {:induction false} InsertByScoreKeeps<T(!new)>(s: seq<T>, x: T, score: T -> nat)
    requires Descending(s, score)
    ensures |InsertByScore(s, x, score)| == |s| + 1
    ensures forall y :: y in InsertByScore(s, x, score) <==> y in s || y == x
    ensures Descending(InsertByScore(s, x, score), score)
  {
    if s != [] {
      assert s == [s[0]] + s[1..];
      InsertByScoreKeeps(s[1..], x, score);
      var rest := InsertByScore(s[1..], x, score);
      forall i | 0 <= i < |rest| && score(s[0]) >= score(x) ensures score(s[0]) >= score(rest[i]) {
        assert rest[i] in rest;
        assert rest[i] == x || rest[i] in s[1..];
      }
    }
  }

  /** sort_by_key on the reversed score: best first. */
  method SortByScore<T(!new)>(s: seq<T>, score: T -> nat) returns (r: seq<T>)
    ensures |r| == |s| && Descending(r, score) && forall y :: y in r <==> y in s
  {
    r := [];
    for i := 0 to |s|
      invariant |r| == i && Descending(r, score) && forall y :: y in r <==> y in s[..i]
    {
      InsertByScoreKeeps(r, s[i], score);
      r := InsertByScore(r, s[i], score);
    }
    assert s[..|s|] == s;
  }

  // ---- lexicographic orders ----------------------------------------------------------

  predicate LexLeq<T(==)>(a: seq<T>, b: seq<T>, leq: (T, T) -> bool) {
    a == [] || (b != [] && (if a[0] == b[0] then LexLeq(a[1..], b[1..], leq) else leq(a[0], b[0])))
  }

  lemma {:induction false} LexTotal<T(!new)>(a: seq<T>, b: seq<T>, leq: (T, T) -> bool)
    requires TotalOrder(leq)
    ensures LexLeq(a, b, leq) || LexLeq(b, a, leq)
    ensures LexLeq(a, b, leq) && LexLeq(b, a, leq) ==> a == b
  {
    if a != [] && b != [] {
      assert a == [a[0]] + a[1..] && b == [b[0]] + b[1..];
      LexTotal(a[1..], b[1..], leq);
    }
  }

  lemma {:induction false} LexTransitive<T(!new)>(a: seq<T>, b: seq<T>, c: seq<T>, leq: (T, T) -> bool)
    requires TotalOrder(leq) && LexLeq(a, b, leq) && LexLeq(b, c, leq)
    ensures LexLeq(a, c, leq)
  {
    if a != [] && b != [] && c != [] && a[0] == b[0] == c[0] {
      LexTransitive(a[1..], b[1..], c[1..], leq);
    }
  }

  lemma LexOrder<T(!new)>(leq: (T, T) -> bool, lex: (seq<T>, seq<T>) -> bool)
    requires TotalOrder(leq) && forall a, b :: lex(a, b) == LexLeq(a, b, leq)
    ensures TotalOrder(lex)
  {
    forall a, b ensures (lex(a, b) || lex(b, a)) && (lex(a, b) && lex(b, a) ==> a == b) {
      LexTotal(a, b, leq);
    }
    forall a, b, c | lex(a, b) && lex(b, c) ensures lex(a, c) {
      LexTransitive(a, b, c, leq);
    }
  }
}
