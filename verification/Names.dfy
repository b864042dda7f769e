/** Front-coded names: encoding, decoding, walkers (arena/names.rs). */
module Names {
  import opened Records
  import opened Ascii
  import opened Varint

  // ---- the format --------------------------------------------------------------------

  function CommonPrefixLen(a: Name, b: Name): (r: nat)
    ensures r <= |a| && r <= |b| && a[..r] == b[..r]
    ensures r < |a| && r < |b| ==> a[r] != b[r]
  {
    if a == [] || b == [] || a[0] != b[0] then 0
    else
      var rest := CommonPrefixLen(a[1..], b[1..]);
      assert a[..rest + 1] == [a[0]] + a[1..][..rest] && b[..rest + 1] == [b[0]] + b[1..][..rest];
      rest + 1
  }

  function InBucket(i: nat): nat {
    i % BUCKET_SIZE
  }

  /** A whole name at the head of a bucket, else what it does not share with its predecessor. */
  ghost function EntryAfter(head: bool, prev: Name, name: Name): Name {
    if head then Encoded(|name|) + name
    else
      var shared := CommonPrefixLen(prev, name);
      Encoded(shared) + (Encoded(|name| - shared) + name[shared..])
  }

  ghost function Entry(names: seq<Name>, i: nat): Name
    requires i < |names|
  {
    if InBucket(i) == 0 then EntryAfter(true, [], names[i]) else EntryAfter(false, names[i - 1], names[i])
  }

  ghost function Entries(names: seq<Name>, i: nat, j: nat): Name
    requires i <= j <= |names|
    decreases j - i
  {
    if i == j then [] else Entry(names, i) + Entries(names, i + 1, j)
  }

  lemma {:induction false} EntriesSplit(names: seq<Name>, i: nat, j: nat, k: nat)
    requires i <= j <= k <= |names|
    ensures Entries(names, i, k) == Entries(names, i, j) + Entries(names, j, k)
    decreases j - i
  {
    hide Entry;
    if i < j {
      EntriesSplit(names, i + 1, j, k);
      assert Entry(names, i) + (Entries(names, i + 1, j) + Entries(names, j, k))
          == Entry(names, i) + Entries(names, i + 1, j) + Entries(names, j, k);
    } else {
      assert Entries(names, i, j) == [];
    }
  }

  /** Entries depend only on the names up to their own. */
  lemma {:induction false} EntriesOfPrefix(names: seq<Name>, more: seq<Name>, i: nat, j: nat)
    requires i <= j <= |names|
    ensures Entries(names + more, i, j) == Entries(names, i, j)
    decreases j - i
  {
    if i < j {
      EntriesOfPrefix(names, more, i + 1, j);
      assert Entry(names + more, i) == Entry(names, i);
    }
  }

  ghost predicate Short(names: seq<Name>) {
    forall i :: 0 <= i < |names| ==> |names[i]| < U32_LIMIT
  }

  ghost function LastName(names: seq<Name>): Name {
    if names == [] then [] else names[|names| - 1]
  }

  lemma ShortStep(names: seq<Name>, name: Name)
    requires Short(names) && |name| < U32_LIMIT
    ensures Short(names + [name]) && LastName(names + [name]) == name
  {
  }

  /** `blob` with the byte offset of every bucket, and the blob's length as a sentinel. */
  datatype NameBlob = NameBlob(blob: Name, offsets: seq<nat>, n: nat)

  function Buckets(n: nat): nat {
    (n + BUCKET_SIZE - 1) / BUCKET_SIZE
  }

  function BucketEnd(bucket: nat, n: nat): nat {
    if BUCKET_SIZE * (bucket + 1) < n then BUCKET_SIZE * (bucket + 1) else n
  }

  ghost predicate Codes(nb: NameBlob, names: seq<Name>) {
    && nb.n == |names| && |nb.offsets| == Buckets(nb.n) + 1
    && nb.blob == Entries(names, 0, nb.n)
    && Short(names)
    && nb.offsets[Buckets(nb.n)] == |nb.blob|
    && forall b :: 0 <= b < Buckets(nb.n) ==> nb.offsets[b] == |Entries(names, 0, BUCKET_SIZE * b)|
  }

  lemma OneMore(names: seq<Name>, name: Name)
    ensures Entries(names + [name], 0, |names| + 1) == Entries(names, 0, |names|) + Entry(names + [name], |names|)
    ensures forall j: nat :: j <= |names| ==> Entries(names + [name], 0, j) == Entries(names, 0, j)
  {
    hide Entry;
    var all, i := names + [name], |names|;
    EntriesSplit(all, 0, i, i + 1);
    assert Entries(all, i, i + 1) == Entry(all, i) + Entries(all, i + 1, i + 1);
    EntriesOfPrefix(names, [name], 0, i);
    forall j: nat | j <= i ensures Entries(all, 0, j) == Entries(names, 0, j) {
      EntriesOfPrefix(names, [name], 0, j);
    }
  }

  lemma BucketStep(k: nat)
    ensures InBucket(k) == 0 ==> Buckets(k + 1) == Buckets(k) + 1 && BUCKET_SIZE * Buckets(k) == k
    ensures InBucket(k) != 0 ==> Buckets(k + 1) == Buckets(k)
    ensures InBucket(k + 1) == if InBucket(k) + 1 == BUCKET_SIZE then 0 else InBucket(k) + 1
  {
  }

  lemma BucketBounds(n: nat)
    ensures forall b: nat :: b < Buckets(n) ==> BUCKET_SIZE * b < n
    ensures BUCKET_SIZE * Buckets(n) >= n
  {
  }

  // ---- the encoder -------------------------------------------------------------------

  method WriteHead(out: Name, name: Name) returns (r: Name)
    ensures r == out + EntryAfter(true, [], name)
  {
    r := WriteVarint(out, |name|);
    r := r + name;
  }

  method WriteShared(out: Name, prev: Name, name: Name) returns (r: Name)
    ensures r == out + EntryAfter(false, prev, name)
  {
    hide CommonPrefixLen, Encoded;
    var shared := CommonPrefixLen(prev, name);
    r := WriteVarint(out, shared);
    var suffix := name[shared..];
    r := WriteVarint(r, |suffix|);
    Associate(out, Encoded(shared), Encoded(|suffix|), suffix);
    r := r + suffix;
  }

  lemma Associate(a: Name, b: Name, c: Name, d: Name)
    ensures a + b + c + d == a + (b + (c + d))
    ensures a + (b + c) + d == a + (b + (c + d))
  {
  }

  /** The bytes and bucket offsets of `names`. */
  ghost predicate Coded(blob: Name, offsets: seq<nat>, names: seq<Name>) {
    && blob == Entries(names, 0, |names|)
    && |offsets| == Buckets(|names|)
    && forall b :: 0 <= b < |offsets| ==> BUCKET_SIZE * b <= |names| && offsets[b] == |Entries(names, 0, BUCKET_SIZE * b)|
  }

  lemma CodedStep(blob: Name, offsets: seq<nat>, names: seq<Name>, name: Name, entry: Name)
    requires Coded(blob, offsets, names) && entry == Entry(names + [name], |names|)
    ensures Coded(blob + entry, if InBucket(|names|) == 0 then offsets + [|blob|] else offsets, names + [name])
  {
    hide Entry, InBucket;
    OneMore(names, name);
    BucketStep(|names|);
    BucketBounds(|names|);
    hide Entries, Buckets;
  }

  /** State of the encoder after pushing `names`. */
  ghost predicate Coding(blob: Name, offsets: seq<nat>, prev: Name, posInBucket: nat, index: nat, names: seq<Name>) {
    && index == |names| && posInBucket == InBucket(|names|)
    && prev == LastName(names)
    && Short(names) && Coded(blob, offsets, names)
  }

  lemma CodingStep(blob: Name, offsets: seq<nat>, prev: Name, posInBucket: nat, index: nat, names: seq<Name>, name: Name)
    requires Coding(blob, offsets, prev, posInBucket, index, names) && |name| < U32_LIMIT
    ensures Coding(blob + EntryAfter(posInBucket == 0, if posInBucket == 0 then [] else prev, name),
                   if posInBucket == 0 then offsets + [|blob|] else offsets, name,
                   if posInBucket + 1 == BUCKET_SIZE then 0 else posInBucket + 1, index + 1, names + [name])
  {
    hide EntryAfter, Coded, Short;
    ghost var entry := EntryAfter(posInBucket == 0, if posInBucket == 0 then [] else prev, name);
    assert (names + [name])[|names|] == name;
    assert |names| > 0 ==> (names + [name])[|names| - 1] == names[|names| - 1];
    hide InBucket;
    BucketStep(|names|);
    assert posInBucket != 0 ==> |names| > 0 by { InBucketOf(0, 0); }
    assert entry == Entry(names + [name], |names|);
    hide Entry;
    CodedStep(blob, offsets, names, name, entry);
    ShortStep(names, name);
  }

  /** Incremental encoder; `names` is what has been pushed. */
  class FrontCoder {
    var blob: Name
    var offsets: seq<nat>
    var prev: Name
    var posInBucket: nat
    var absoluteIndex: nat
    ghost var names: seq<Name>

    ghost predicate Valid()
      reads this
    {
      Coding(blob, offsets, prev, posInBucket, absoluteIndex, names)
    }

    constructor ()
      ensures Valid() && names == []
    {
      blob, offsets, prev, posInBucket, absoluteIndex := [], [], [], 0, 0;
      names := [];
    }

    /** Offsets are cast to 32 bits, so the blob must stay below 4 GiB. */
    method Push(name: Name)
      requires Valid() && |blob| < U32_LIMIT && |name| < U32_LIMIT
      modifies this
      ensures Valid() && names == old(names) + [name]
    {
      CodingStep(blob, offsets, prev, posInBucket, absoluteIndex, names, name);
      hide Coding, EntryAfter, AsU32;
      if posInBucket == 0 {
        offsets := offsets + [AsU32(|blob|)];
        blob := WriteHead(blob, name);
      } else {
        blob := WriteShared(blob, prev, name);
      }
      prev := name;
      absoluteIndex := absoluteIndex + 1;
      posInBucket := posInBucket + 1;
      if posInBucket == BUCKET_SIZE {
        posInBucket := 0;
      }
      names := names + [name];
    }

    method Finish() returns (nb: NameBlob)
      requires Valid() && |blob| < U32_LIMIT
      ensures Codes(nb, names)
    {
      nb := NameBlob(blob, offsets + [AsU32(|blob|)], absoluteIndex);
    }
  }

  // ---- the decoder -------------------------------------------------------------------

  lemma EntriesStep(names: seq<Name>, i: nat, j: nat)
    requires i < j <= |names|
    ensures Entries(names, i, j) == Entry(names, i) + Entries(names, i + 1, j)
  {
  }

  /** The bytes of bucket `b`. */
  lemma BucketBlob(nb: NameBlob, names: seq<Name>, b: nat)
    requires Codes(nb, names) && b < Buckets(nb.n)
    ensures BUCKET_SIZE * b < BucketEnd(b, nb.n) <= nb.n
    ensures nb.offsets[b] <= nb.offsets[b + 1] <= |nb.blob|
    ensures nb.blob[nb.offsets[b]..nb.offsets[b + 1]] == Entries(names, BUCKET_SIZE * b, BucketEnd(b, nb.n))
  {
    hide Entries;
    var lo, hi := BUCKET_SIZE * b, BucketEnd(b, nb.n);
    BucketBounds(nb.n);
    EntriesSplit(names, 0, lo, nb.n);
    EntriesSplit(names, 0, lo, hi);
    EntriesSplit(names, 0, hi, nb.n);
    assert b + 1 < Buckets(nb.n) || hi == nb.n;
  }

  /** Decodes the name at the head of a bucket. */
  method ReadHead(buf: Name, pos: nat, ghost names: seq<Name>, ghost i: nat, ghost end: nat)
    returns (name: Name, next: nat)
    requires i < end <= |names| && Short(names) && InBucket(i) == 0
    requires pos <= |buf| && buf[pos..] == Entries(names, i, end)
    ensures name == names[i] && next <= |buf| && buf[next..] == Entries(names, i + 1, end)
  {
    hide Entries, Encoded;
    EntriesStep(names, i, end);
    ghost var rest := Entries(names, i + 1, end);
    Associate([], Encoded(|names[i]|), names[i], rest);
    assert buf[pos..] == Encoded(|names[i]|) + (names[i] + rest);
    var len, p := ReadVarint(buf, pos, |names[i]|, names[i] + rest);
    SliceOf(buf, p, names[i], rest);
    name := buf[p..p + len];
    next := p + len;
  }

  lemma SliceOf(buf: Name, at: nat, part: Name, rest: Name)
    requires at <= |buf| && buf[at..] == part + rest
    ensures at + |part| <= |buf| && buf[at..at + |part|] == part && buf[at + |part|..] == rest
  {
    assert buf[at..][..|part|] == part && buf[at..][|part|..] == rest;
  }

  lemma SharedBytes(names: seq<Name>, i: nat, end: nat)
    requires i < end <= |names| && InBucket(i) != 0 && i > 0
    ensures var shared := CommonPrefixLen(names[i - 1], names[i]);
      var suffix := names[i][shared..];
      Entries(names, i, end) == Encoded(shared) + (Encoded(|suffix|) + (suffix + Entries(names, i + 1, end)))
  {
    hide Encoded, CommonPrefixLen, InBucket;
    var shared, rest := CommonPrefixLen(names[i - 1], names[i]), Entries(names, i + 1, end);
    var suffix := names[i][shared..];
    EntriesStep(names, i, end);
    hide Entries;
    Associate(Encoded(shared), Encoded(|suffix|), suffix, rest);
    assert Encoded(shared) + (Encoded(|suffix|) + suffix) == Encoded(shared) + Encoded(|suffix|) + suffix;
  }

  /** Decodes a name that follows `prev` in its bucket: truncate to the shared part, append the suffix. */
  method ReadShared(buf: Name, pos: nat, prev: Name, ghost names: seq<Name>, ghost i: nat, ghost end: nat)
    returns (name: Name, next: nat, repeated: bool)
    requires i < end <= |names| && Short(names) && InBucket(i) != 0 && i > 0 && prev == names[i - 1]
    requires pos <= |buf| && buf[pos..] == Entries(names, i, end)
    ensures name == names[i] && next <= |buf| && buf[next..] == Entries(names, i + 1, end)
    ensures repeated <==> names[i] == names[i - 1]
  {
    hide Entries, Encoded, InBucket;
    ghost var rest, sharedLen := Entries(names, i + 1, end), CommonPrefixLen(prev, names[i]);
    ghost var suffix := names[i][sharedLen..];
    SharedBytes(names, i, end);
    var shared, p := ReadVarint(buf, pos, sharedLen, Encoded(|suffix|) + (suffix + rest));
    var suffixLen, q := ReadVarint(buf, p, |suffix|, suffix + rest);
    SliceOf(buf, q, suffix, rest);
    repeated := shared == |prev| && suffixLen == 0;
    name := prev[..shared] + buf[q..q + suffixLen];
    next := q + suffixLen;
    assert names[i] == names[i][..sharedLen] + suffix;
  }

  /** name_into: decode the bucket up to the record. */
  method NameInto(nb: NameBlob, idx: nat, ghost names: seq<Name>) returns (out: Name)
    requires Codes(nb, names) && idx < nb.n
    ensures out == names[idx]
  {
    hide Entries, InBucket;
    var b, posInBucket := idx / BUCKET_SIZE, idx % BUCKET_SIZE;
    ghost var start: nat, end: nat := BUCKET_SIZE * b, BucketEnd(b, nb.n);
    InBucketOf(b, idx);
    BucketBounds(nb.n);
    BucketBlob(nb, names, b);
    var bucket := nb.blob[nb.offsets[b]..nb.offsets[b + 1]];
    var p: nat;
    assert bucket[0..] == bucket;
    out, p := ReadHead(bucket, 0, names, start, end);
    for k := 0 to posInBucket
      invariant out == names[start + k] && p <= |bucket| && bucket[p..] == Entries(names, start + k + 1, end)
    {
      InBucketOf(b, start + k + 1);
      var repeated;
      out, p, repeated := ReadShared(bucket, p, out, names, start + k + 1, end);
    }
  }

  lemma InBucketOf(b: nat, i: nat)
    ensures InBucket(BUCKET_SIZE * b) == 0
    ensures BUCKET_SIZE * b < i < BUCKET_SIZE * (b + 1) ==> InBucket(i) != 0
    ensures i / BUCKET_SIZE == b ==> BUCKET_SIZE * b <= i < BUCKET_SIZE * (b + 1)
  {
  }

  // ---- walkers -----------------------------------------------------------------------

  /** One call of a walker's callback. */
  datatype Visit = Visit(idx: nat, name: Name, repeated: bool)

  /** The repeat flag: a byte-identical name after an emitted predecessor in the same bucket. */
  predicate Repeats(names: seq<Name>, start: nat, i: nat)
    requires start <= i < |names|
  {
    i > start && InBucket(i) != 0 && names[i] == names[i - 1]
  }

  ghost predicate IsWalk(names: seq<Name>, start: nat, stop: nat, visits: seq<Visit>)
    requires start <= stop <= |names|
  {
    && |visits| == stop - start
    && forall k :: 0 <= k < |visits| ==> visits[k] == Visit(start + k, names[start + k], Repeats(names, start, start + k))
  }

  /** One bucket of a ranged walk: records outside `start .. end` are decoded but not emitted. */
  method WalkBucket(nb: NameBlob, bucket: nat, start: nat, end: nat, before: seq<Visit>, ghost names: seq<Name>)
    returns (visits: seq<Visit>)
    requires Codes(nb, names) && bucket < Buckets(nb.n) && start < end <= nb.n
    requires start < BUCKET_SIZE * (bucket + 1) && BUCKET_SIZE * bucket < end
    requires var at := if BUCKET_SIZE * bucket < start then start else BUCKET_SIZE * bucket;
      IsWalk(names, start, at, before)
    ensures var upto := if BucketEnd(bucket, nb.n) < end then BucketEnd(bucket, nb.n) else end;
      start <= upto && IsWalk(names, start, upto, visits)
  {
    hide Entries, InBucket;
    var bucketStart, bucketEnd := BUCKET_SIZE * bucket, BucketEnd(bucket, nb.n);
    BucketBlob(nb, names, bucket);
    var blob := nb.blob[nb.offsets[bucket]..nb.offsets[bucket + 1]];
    assert blob[0..] == blob;
    InBucketOf(bucket, bucketStart);
    visits := before;
    var name, pos: nat := ReadHead(blob, 0, names, bucketStart, bucketEnd);
    for idx := bucketStart to bucketEnd
      invariant idx == bucketStart ==> name == names[idx] && pos <= |blob| && blob[pos..] == Entries(names, idx + 1, bucketEnd)
      invariant idx > bucketStart ==> name == names[idx - 1] && pos <= |blob| && blob[pos..] == Entries(names, idx, bucketEnd)
      invariant var upto := if idx < start then start else if idx < end then idx else end;
        IsWalk(names, start, upto, visits)
    {
      InBucketOf(bucket, idx);
      var repeated := false;
      if idx != bucketStart {
        name, pos, repeated := ReadShared(blob, pos, name, names, idx, bucketEnd);
      }
      if start <= idx < end {
        visits := visits + [Visit(idx, name, repeated && idx > start)];
      }
    }
  }

  /** for_each_name_in_buf_with_repeats, listing the calls of a callback that never breaks. */
  method WalkRange(nb: NameBlob, start: nat, stop: nat, ghost names: seq<Name>) returns (visits: seq<Visit>)
    requires Codes(nb, names)
    ensures var end := if stop < nb.n then stop else nb.n;
      if start < end then IsWalk(names, start, end, visits) else visits == []
  {
    var end := if stop < nb.n then stop else nb.n;
    visits := [];
    if start >= end {
      return;
    }
    var firstBucket, lastBucket := start / BUCKET_SIZE, (end - 1) / BUCKET_SIZE;
    InBucketOf(firstBucket, start);
    InBucketOf(lastBucket, end - 1);
    BucketBounds(nb.n);
    hide Codes, IsWalk;
    assert IsWalk(names, start, start, visits) by { NoWalk(names, start); }
    for bucket := firstBucket to lastBucket + 1
      invariant var at := if bucket == firstBucket then start else if BUCKET_SIZE * bucket < end then BUCKET_SIZE * bucket else end;
        start <= at <= end && IsWalk(names, start, at, visits)
    {
      visits := WalkBucket(nb, bucket, start, end, visits, names);
    }
  }

  lemma NoWalk(names: seq<Name>, start: nat)
    requires start <= |names|
    ensures IsWalk(names, start, start, [])
  {
  }

  method WalkWholeBucket(nb: NameBlob, b: nat, before: seq<Visit>, ghost names: seq<Name>) returns (visits: seq<Visit>)
    requires Codes(nb, names) && b < Buckets(nb.n) && BUCKET_SIZE * b < nb.n && IsWalk(names, 0, BUCKET_SIZE * b, before)
    ensures IsWalk(names, 0, BucketEnd(b, nb.n), visits)
  {
    hide Entries, InBucket;
    var start, end := BUCKET_SIZE * b, BucketEnd(b, nb.n);
    BucketBlob(nb, names, b);
    var blob := nb.blob[nb.offsets[b]..nb.offsets[b + 1]];
    assert blob[0..] == blob;
    InBucketOf(b, start);
    var name, pos: nat := ReadHead(blob, 0, names, start, end);
    visits := before + [Visit(start, name, false)];
    for i := start + 1 to end
      invariant name == names[i - 1] && pos <= |blob| && blob[pos..] == Entries(names, i, end)
      invariant IsWalk(names, 0, i, visits)
    {
      InBucketOf(b, i);
      var repeated;
      name, pos, repeated := ReadShared(blob, pos, name, names, i, end);
      visits := visits + [Visit(i, name, repeated)];
    }
  }

  /** for_each_name_with_repeats: every record, bucket by bucket. */
  method WalkAll(nb: NameBlob, ghost names: seq<Name>) returns (visits: seq<Visit>)
    requires Codes(nb, names)
    ensures IsWalk(names, 0, nb.n, visits)
  {
    visits := [];
    BucketBounds(nb.n);
    var numBuckets := |nb.offsets| - 1;
    assert IsWalk(names, 0, 0, visits);
    hide IsWalk, Codes;
    for b := 0 to numBuckets
      invariant var at := if BUCKET_SIZE * b < nb.n then BUCKET_SIZE * b else nb.n; IsWalk(names, 0, at, visits)
    {
      visits := WalkWholeBucket(nb, b, visits, names);
    }
  }

  // ---- ordered lookup ----------------------------------------------------------------

  ghost predicate Sorted(names: seq<Name>) {
    forall i, j :: 0 <= i <= j < |names| ==> Leq(names[i], names[j])
  }

  method BucketHead(nb: NameBlob, b: nat, ghost names: seq<Name>) returns (head: Name)
    requires Codes(nb, names) && b < Buckets(nb.n)
    ensures BUCKET_SIZE * b < nb.n && head == names[BUCKET_SIZE * b]
  {
    BucketBlob(nb, names, b);
    var blob := nb.blob[nb.offsets[b]..nb.offsets[b + 1]];
    assert blob[0..] == blob;
    InBucketOf(b, BUCKET_SIZE * b);
    var pos;
    head, pos := ReadHead(blob, 0, names, BUCKET_SIZE * b, BucketEnd(b, nb.n));
  }

  /** The last bucket whose head is below `target`, or the first bucket. */
  method LastBucketBelow(nb: NameBlob, target: Name, ghost names: seq<Name>) returns (b: nat)
    requires Codes(nb, names) && Sorted(names) && nb.n > 0
    ensures b < Buckets(nb.n)
    ensures forall i: nat :: i < BUCKET_SIZE * b && i < nb.n ==> Below(names[i], target)
  {
    BucketBounds(nb.n);
    var lo, hi := 0, Buckets(nb.n);
    while lo < hi
      invariant 0 <= lo <= hi <= Buckets(nb.n)
      invariant lo > 0 ==> BUCKET_SIZE * (lo - 1) < nb.n && Below(names[BUCKET_SIZE * (lo - 1)], target)
    {
      var mid := lo + (hi - lo) / 2;
      var head := BucketHead(nb, mid, names);
      if CmpCi(head, target) == Less {
        lo := mid + 1;
      } else {
        hi := mid;
      }
    }
    b := if lo == 0 then 0 else lo - 1;
    if lo > 0 {
      forall i: nat | i < BUCKET_SIZE * b ensures Below(names[i], target) {
        LeqTransitive(names[i], names[BUCKET_SIZE * b], target);
      }
    }
  }

  /** Looks through one bucket for a name not below `target`. */
  method LowerBoundInBucket(nb: NameBlob, b: nat, target: Name, ghost names: seq<Name>) returns (found: Option<nat>)
    requires Codes(nb, names) && b < Buckets(nb.n) && BUCKET_SIZE * b < nb.n
    ensures found.Some? ==> BUCKET_SIZE * b <= found.value < nb.n && !Below(names[found.value], target)
    ensures forall k :: BUCKET_SIZE * b <= k < (if found.Some? then found.value else BucketEnd(b, nb.n)) ==>
      Below(names[k], target)
  {
    hide Entries, InBucket, CmpCi;
    var start, end := BUCKET_SIZE * b, BucketEnd(b, nb.n);
    BucketBlob(nb, names, b);
    var blob := nb.blob[nb.offsets[b]..nb.offsets[b + 1]];
    assert blob[0..] == blob;
    InBucketOf(b, start);
    var name, pos: nat := ReadHead(blob, 0, names, start, end);
    if CmpCi(name, target) != Less {
      return Some(start);
    }
    for i := start + 1 to end
      invariant name == names[i - 1] && pos <= |blob| && blob[pos..] == Entries(names, i, end)
      invariant forall k :: start <= k < i ==> Below(names[k], target)
    {
      InBucketOf(b, i);
      var repeated;
      name, pos, repeated := ReadShared(blob, pos, name, names, i, end);
      if CmpCi(name, target) != Less {
        return Some(i);
      }
    }
    return None;
  }

  /** lower_bound_name: the first record whose name is not below `target`. */
  method LowerBoundName(nb: NameBlob, target: Name, ghost names: seq<Name>) returns (bound: nat)
    requires Codes(nb, names) && Sorted(names)
    ensures bound <= nb.n
    ensures forall i :: 0 <= i < nb.n ==> (i < bound <==> Below(names[i], target))
  {
    BucketBounds(nb.n);
    var numBuckets := |nb.offsets| - 1;
    if numBuckets == 0 {
      return nb.n;
    }
    hide CmpCi;
    var startBucket := LastBucketBelow(nb, target, names);
    for b := startBucket to numBuckets
      invariant forall i: nat :: i < BUCKET_SIZE * b && i < nb.n ==> Below(names[i], target)
    {
      var found := LowerBoundInBucket(nb, b, target, names);
      if found.Some? {
        NotBelowFrom(names, found.value, target);
        return found.value;
      }
    }
    return nb.n;
  }

  lemma NotBelowFrom(names: seq<Name>, at: nat, target: Name)
    requires Sorted(names) && at < |names| && !Below(names[at], target)
    ensures forall i :: at <= i < |names| ==> !Below(names[i], target)
  {
    forall i | at <= i < |names| ensures !Below(names[i], target) {
      if Below(names[i], target) {
        LeqTransitive(names[at], names[i], target);
      }
    }
  }

  // ---- prefix ranges -----------------------------------------------------------------

  lemma {:induction false} PrefixLeq(name: Name, prefix: Name)
    requires StartsWithCi(name, prefix)
    ensures Leq(prefix, name)
  {
    if prefix != [] && name != [] {
      assert Lower(name[0]) == Lower(prefix[0]);
      assert StartsWithCi(name[1..], prefix[1..]);
      PrefixLeq(name[1..], prefix[1..]);
    }
  }

  lemma StartsTail(name: Name, prefix: Name)
    requires name != [] && prefix != []
    ensures StartsWithCi(name, prefix) <==> Lower(name[0]) == Lower(prefix[0]) && StartsWithCi(name[1..], prefix[1..])
  {
    if Lower(name[0]) == Lower(prefix[0]) && StartsWithCi(name[1..], prefix[1..]) {
      assert forall k :: 1 <= k < |prefix| ==> Lower(name[k]) == Lower(name[1..][k - 1]) == Lower(prefix[1..][k - 1]);
    }
  }

  /** Once a name in order is past the prefix, no later name starts with it. */
  lemma {:induction false} PastPrefix(match1: Name, past: Name, later: Name, prefix: Name)
    requires StartsWithCi(match1, prefix) && Leq(match1, past) && !StartsWithCi(past, prefix) && Leq(past, later)
    ensures !StartsWithCi(later, prefix)
  {
    if prefix != [] && past != [] && later != [] {
      StartsTail(match1, prefix);
      StartsTail(past, prefix);
      StartsTail(later, prefix);
      if Lower(past[0]) == Lower(match1[0]) == Lower(later[0]) {
        PastPrefix(match1[1..], past[1..], later[1..], prefix[1..]);
      }
    }
  }

  /** What the scan knows about the records before `i`. */
  ghost predicate Scanned(names: seq<Name>, prefix: Name, i: nat, lo: Option<nat>, hi: Option<nat>)
    requires i <= |names|
  {
    && (lo.None? <==> hi.None?)
    && (lo.None? ==> forall k :: 0 <= k < i ==> !StartsWithCi(names[k], prefix))
    && (lo.Some? ==> lo.value < hi.value <= i)
    && (lo.Some? ==> forall k :: 0 <= k < i ==> (StartsWithCi(names[k], prefix) <==> lo.value <= k < hi.value))
  }

  ghost predicate InRange(names: seq<Name>, prefix: Name, range: (nat, nat)) {
    && range.0 <= range.1 <= |names|
    && forall k :: 0 <= k < |names| ==> (StartsWithCi(names[k], prefix) <==> range.0 <= k < range.1)
  }

  lemma ScanOver(names: seq<Name>, prefix: Name, i: nat, lo: Option<nat>, hi: Option<nat>)
    requires Sorted(names) && i < |names| && Scanned(names, prefix, i, lo, hi)
    requires lo.Some? && !StartsWithCi(names[i], prefix)
    ensures InRange(names, prefix, (lo.value, hi.value))
  {
    forall k | i <= k < |names| ensures !StartsWithCi(names[k], prefix) {
      PastPrefix(names[lo.value], names[i], names[k], prefix);
    }
  }

  lemma ScanMatch(names: seq<Name>, prefix: Name, i: nat, lo: Option<nat>, hi: Option<nat>)
    requires Sorted(names) && i < |names| && Scanned(names, prefix, i, lo, hi)
    ensures StartsWithCi(names[i], prefix) ==>
      Scanned(names, prefix, i + 1, Some(if lo.None? then i else lo.value), Some(i + 1))
    ensures !StartsWithCi(names[i], prefix) ==> Scanned(names, prefix, i + 1, lo, hi)
  {
    if StartsWithCi(names[i], prefix) && lo.Some? && hi.value < i {
      PastPrefix(names[lo.value], names[hi.value], names[i], prefix);
    }
  }

  lemma BelowNeverStarts(name: Name, prefix: Name)
    requires Below(name, prefix)
    ensures !StartsWithCi(name, prefix)
  {
    CmpFlips(name, prefix);
    if StartsWithCi(name, prefix) {
      PrefixLeq(name, prefix);
    }
  }

  lemma HeadPastPrefix(head: Name, prefix: Name)
    requires |prefix| <= |head| && CmpCi(LowerAll(head)[..|prefix|], prefix) == Greater
    ensures !StartsWithCi(head, prefix)
  {
    var cut := LowerAll(head)[..|prefix|];
    TiesAreFolds(cut, prefix);
    assert StartsWithCi(head, prefix) ==> LowerAll(cut) == LowerAll(prefix);
  }

  /** The records of one bucket; `over` reports that the scan has passed every match. */
  method ScanBucket(nb: NameBlob, b: nat, prefix: Name, before: Option<nat>, beforeHi: Option<nat>, pastBefore: bool,
                    ghost names: seq<Name>)
    returns (lo: Option<nat>, hi: Option<nat>, past: bool, over: bool)
    requires Codes(nb, names) && Sorted(names) && b < Buckets(nb.n) && BUCKET_SIZE * b < nb.n
    requires Scanned(names, prefix, BUCKET_SIZE * b, before, beforeHi) && (pastBefore ==> before.Some?)
    ensures over ==> lo.Some? && hi.Some? && InRange(names, prefix, (lo.value, hi.value))
    ensures !over ==> Scanned(names, prefix, BucketEnd(b, nb.n), lo, hi) && (past ==> lo.Some?)
  {
    hide Entries, InBucket, CmpCi, StartsWithCi, Scanned, InRange, Sorted;
    var start, end := BUCKET_SIZE * b, BucketEnd(b, nb.n);
    lo, hi, past, over := before, beforeHi, pastBefore, false;
    BucketBlob(nb, names, b);
    ScannedParts(names, prefix, start, lo, hi);
    var blob := nb.blob[nb.offsets[b]..nb.offsets[b + 1]];
    assert blob[0..] == blob;
    InBucketOf(b, start);
    var name, pos: nat := ReadHead(blob, 0, names, start, end);
    ScanMatch(names, prefix, start, lo, hi);
    var matches := StartsWithCi(name, prefix);
    var isBefore := CmpCi(name, prefix) == Less && !matches;
    if !matches && lo.Some? {
      ScanOver(names, prefix, start, lo, hi);
    }
    if matches {
      if lo.None? {
        lo := Some(start);
      }
      hi := Some(start + 1);
    } else if past && !isBefore {
      over := true;
      return;
    }
    if !matches && !isBefore && lo.Some? {
      past := true;
    }
    for i := start + 1 to end
      invariant name == names[i - 1] && pos <= |blob| && blob[pos..] == Entries(names, i, end)
      invariant Scanned(names, prefix, i, lo, hi) && (past ==> lo.Some?)
    {
      InBucketOf(b, i);
      var repeated;
      name, pos, repeated := ReadShared(blob, pos, name, names, i, end);
      ScanMatch(names, prefix, i, lo, hi);
      ScannedParts(names, prefix, i, lo, hi);
      matches := StartsWithCi(name, prefix);
      isBefore := CmpCi(name, prefix) == Less && !matches;
      if matches {
        if lo.None? {
          lo := Some(i);
        }
        hi := Some(i + 1);
        past := false;
      } else if !isBefore && lo.Some? {
        ScanOver(names, prefix, i, lo, hi);
        over := true;
        return;
      }
    }
  }

  lemma ScannedParts(names: seq<Name>, prefix: Name, i: nat, lo: Option<nat>, hi: Option<nat>)
    requires i <= |names| && Scanned(names, prefix, i, lo, hi)
    ensures lo.None? <==> hi.None?
    ensures i == |names| && lo.Some? ==> InRange(names, prefix, (lo.value, hi.value))
    ensures i == |names| && lo.None? ==> InRange(names, prefix, (0, 0))
  {
  }

  /** prefix_range: exactly the records whose names start with the prefix, ignoring ASCII case. */
  method PrefixRange(nb: NameBlob, prefix: Name, ghost names: seq<Name>) returns (range: (nat, nat))
    requires Codes(nb, names) && Sorted(names)
    ensures InRange(names, prefix, range)
  {
    hide Entries, CmpCi;
    var prefixLower := LowerAll(prefix);
    assert forall x: Name :: StartsWithCi(x, prefix) <==> StartsWithCi(x, prefixLower);
    if prefixLower == [] {
      return (0, nb.n);
    }
    BucketBounds(nb.n);
    var numBuckets := |nb.offsets| - 1;
    if numBuckets == 0 {
      return (0, 0);
    }
    var startBucket := LastBucketBelow(nb, prefixLower, names);
    var lo: Option<nat>, hi: Option<nat>, past, over := None, None, false, false;
    forall k | 0 <= k < BUCKET_SIZE * startBucket ensures !StartsWithCi(names[k], prefixLower) {
      BelowNeverStarts(names[k], prefixLower);
    }
    for b := startBucket to numBuckets
      invariant BUCKET_SIZE * b <= nb.n || b == numBuckets
      invariant Scanned(names, prefixLower, if BUCKET_SIZE * b < nb.n then BUCKET_SIZE * b else nb.n, lo, hi)
      invariant past ==> lo.Some?
    {
      hide StartsWithCi;
      var head := BucketHead(nb, b, names);
      if !past {
        var headLower := LowerAll(head);
        if |headLower| >= |prefixLower| && CmpCi(headLower[..|prefixLower|], prefixLower) == Greater && lo.Some? {
          HeadPastPrefix(head, prefixLower);
          ScanOver(names, prefixLower, BUCKET_SIZE * b, lo, hi);
          return (lo.value, hi.value);
        }
      }
      lo, hi, past, over := ScanBucket(nb, b, prefixLower, lo, hi, past, names);
      if over {
        return (lo.value, hi.value);
      }
    }
    ScannedParts(names, prefixLower, nb.n, lo, hi);
    if lo.Some? && hi.Some? {
      return (lo.value, hi.value);
    }
    return (0, 0);
  }
}
