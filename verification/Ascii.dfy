/** ASCII-case-insensitive byte comparisons (ascii.rs). */
module Ascii {

  type Byte = b: nat | b < 256
  type Name = seq<Byte>

  datatype Ordering = Less | Equal | Greater

  predicate IsUpper(b: Byte) {
    65 <= b <= 90
  }

  function Lower(b: Byte): Byte {
    if IsUpper(b) then b + 32 else b
  }

  function Upper(b: Byte): Byte {
    if 97 <= b <= 122 then b - 32 else b
  }

  function LowerAll(s: Name): (r: Name)
    ensures |r| == |s| && forall i :: 0 <= i < |s| ==> r[i] == Lower(s[i])
  {
    seq(|s|, i requires 0 <= i < |s| => Lower(s[i]))
  }

  // ---- the order of names ------------------------------------------------------------

  /** cmp_ci: the first differing folded byte decides, then the length. */
  function CmpCi(a: Name, b: Name): Ordering {
    if a == [] || b == [] then
      if |a| < |b| then Less else if |a| > |b| then Greater else Equal
    else if Lower(a[0]) < Lower(b[0]) then Less
    else if Lower(a[0]) > Lower(b[0]) then Greater
    else CmpCi(a[1..], b[1..])
  }

  predicate Leq(a: Name, b: Name) {
    CmpCi(a, b) != Greater
  }

  predicate Below(a: Name, b: Name) {
    CmpCi(a, b) == Less
  }

  lemma {:induction false} CmpFlips(a: Name, b: Name)
    ensures CmpCi(a, b) == Less <==> CmpCi(b, a) == Greater
    ensures CmpCi(a, b) == Equal <==> CmpCi(b, a) == Equal
  {
    if a != [] && b != [] {
      CmpFlips(a[1..], b[1..]);
    }
  }

  lemma {:induction false} LeqTransitive(a: Name, b: Name, c: Name)
    requires Leq(a, b) && Leq(b, c)
    ensures Leq(a, c)
    ensures Below(a, b) || Below(b, c) ==> Below(a, c)
  {
    if a != [] && b != [] && c != [] && Lower(a[0]) == Lower(b[0]) == Lower(c[0]) {
      LeqTransitive(a[1..], b[1..], c[1..]);
    }
  }

  /** Names tie exactly when they differ only in ASCII case. */
  lemma {:induction false} TiesAreFolds(a: Name, b: Name)
    ensures CmpCi(a, b) == Equal <==> LowerAll(a) == LowerAll(b)
  {
    if a != [] && b != [] {
      TiesAreFolds(a[1..], b[1..]);
      if LowerAll(a) == LowerAll(b) {
        assert Lower(a[0]) == LowerAll(a)[0] == LowerAll(b)[0] == Lower(b[0]);
        assert LowerAll(a[1..]) == LowerAll(a)[1..] && LowerAll(b[1..]) == LowerAll(b)[1..];
      } else if Lower(a[0]) == Lower(b[0]) {
        assert LowerAll(a) == [Lower(a[0])] + LowerAll(a[1..]);
        assert LowerAll(b) == [Lower(b[0])] + LowerAll(b[1..]);
      }
    } else {
      assert |LowerAll(a)| == |a| && |LowerAll(b)| == |b|;
    }
  }

  lemma FoldIsCase(a: Byte, b: Byte)
    ensures Lower(a) == Lower(b) <==> SameLetter(a, b)
    ensures SameLetter(Lower(a), a) && !(65 <= Lower(a) <= 90)
  {
  }

  /** The same byte, or the two cases of one ASCII letter. */
  predicate SameLetter(a: Byte, b: Byte) {
    a == b || (65 <= a <= 90 && b == a + 32) || (65 <= b <= 90 && a == b + 32)
  }

  /** Names tie exactly when they have the same letters, whatever the case. */
  lemma {:induction false} TheoremTiesAreLetters(a: Name, b: Name)
    ensures CmpCi(a, b) == Equal <==> |a| == |b| && forall i :: 0 <= i < |a| ==> SameLetter(a[i], b[i])
  {
    if a != [] && b != [] {
      FoldIsCase(a[0], b[0]);
      TheoremTiesAreLetters(a[1..], b[1..]);
      if |a| == |b| && forall i :: 0 <= i < |a| ==> SameLetter(a[i], b[i]) {
        assert forall i :: 0 <= i < |a| - 1 ==> a[1..][i] == a[i + 1] && b[1..][i] == b[i + 1];
      } else if CmpCi(a, b) == Equal {
        forall i | 0 <= i < |a| ensures SameLetter(a[i], b[i]) {
          assert i > 0 ==> a[i] == a[1..][i - 1] && b[i] == b[1..][i - 1];
        }
      }
    }
  }

  /** Equal up to `k` ignoring case; there the first ends or has the smaller folded byte. */
  ghost predicate DiffersAt(a: Name, b: Name, k: nat) {
    && k <= |a| && k < |b| && LowerAll(a[..k]) == LowerAll(b[..k])
    && (k == |a| || Lower(a[k]) < Lower(b[k]))
  }

  /** The order is the lexicographic one on lowercase forms. */
  lemma {:induction false} TheoremOrderIsLexicographic(a: Name, b: Name)
    ensures Below(a, b) <==> exists k: nat :: DiffersAt(a, b, k)
  {
    if a == [] && b != [] {
      assert DiffersAt(a, b, 0);
    } else if a != [] && b != [] {
      TheoremOrderIsLexicographic(a[1..], b[1..]);
      forall k: nat | DiffersAt(a, b, k) ensures Lower(a[0]) <= Lower(b[0]) {
        assert k == 0 || LowerAll(a[..k])[0] == LowerAll(b[..k])[0];
      }
      if Lower(a[0]) < Lower(b[0]) {
        assert DiffersAt(a, b, 0);
      } else if Lower(a[0]) == Lower(b[0]) {
        if k: nat :| DiffersAt(a[1..], b[1..], k) {
          DiffersLater(a, b, k);
        }
        if k: nat :| DiffersAt(a, b, k) {
          DiffersLater(a, b, k - 1);
        }
      }
    }
  }

  lemma DiffersLater(a: Name, b: Name, k: nat)
    requires a != [] && b != [] && Lower(a[0]) == Lower(b[0])
    ensures DiffersAt(a[1..], b[1..], k) <==> DiffersAt(a, b, k + 1)
  {
    if k < |a| && k < |b| {
      var x, y := a[..k + 1], b[..k + 1];
      assert x[1..] == a[1..][..k] && y[1..] == b[1..][..k];
      assert LowerAll(x) == [Lower(a[0])] + LowerAll(x[1..]) && LowerAll(y) == [Lower(b[0])] + LowerAll(y[1..]);
    }
  }

  // ---- prefixes and substrings ---------------------------------------------------------

  predicate StartsWithCi(hay: Name, needle: Name) {
    |hay| >= |needle| && forall k :: 0 <= k < |needle| ==> Lower(hay[k]) == Lower(needle[k])
  }

  /** `needle`, already lowercase, matches the folded haystack at `i`. */
  predicate MatchesAt(hay: Name, needle: Name, i: nat) {
    i + |needle| <= |hay| && forall k :: 0 <= k < |needle| ==> Lower(hay[i + k]) == needle[k]
  }

  /** What "contains, ignoring ASCII case" means for a lowercase needle. */
  predicate Contains(hay: Name, needle: Name) {
    exists i | 0 <= i <= |hay| :: MatchesAt(hay, needle, i)
  }

  /** contains_ci: jumps between the places where the first byte can match. */
  method ContainsCi(hay: Name, needle: Name) returns (found: bool)
    ensures found <==> Contains(hay, needle)
  {
    if needle == [] {
      assert MatchesAt(hay, needle, 0);
      return true;
    }
    var first := needle[0];
    if |hay| < |needle| || IsUpper(first) {
      return false;
    }
    var lastStart := |hay| - |needle|;
    var upper := Upper(first);
    var from := 0;
    while from <= lastStart
      invariant from <= lastStart + 1
      invariant forall i :: 0 <= i < from ==> !MatchesAt(hay, needle, i)
    {
      var i := from;
      while i <= lastStart && hay[i] != first && hay[i] != upper
        invariant from <= i <= lastStart + 1
        invariant forall k :: 0 <= k < i ==> !MatchesAt(hay, needle, k)
      {
        i := i + 1;
      }
      if i > lastStart {
        return false;
      }
      if forall k :: 1 <= k < |needle| ==> Lower(hay[i + k]) == needle[k] {
        assert Lower(hay[i]) == first;
        assert MatchesAt(hay, needle, i);
        return true;
      }
      from := i + 1;
    }
    return false;
  }

  /** A longer needle that starts with a shorter one occurs only where the shorter one does. */
  lemma ContainsNarrows(hay: Name, broad: Name, narrow: Name)
    requires |broad| <= |narrow| && forall k :: 0 <= k < |broad| ==> broad[k] == narrow[k]
    requires Contains(hay, narrow)
    ensures Contains(hay, broad)
  {
    var i :| 0 <= i <= |hay| && MatchesAt(hay, narrow, i);
    assert forall k :: 0 <= k < |broad| ==> Lower(hay[i + k]) == narrow[k];
    assert MatchesAt(hay, broad, i);
  }
}
