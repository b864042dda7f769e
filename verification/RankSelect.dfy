/** Sampled rank over an LSB-first bitmap (bitvec.rs). */
module RankSelect {
  import opened Bits
  import opened Records

  const SUPERBLOCK_BITS: nat := 256

  /** Number of set bits strictly before position `i`. */
  ghost function Ones(bits: seq<bv8>, i: nat): nat {
    if i == 0 then 0 else Ones(bits, i - 1) + if Bit(bits, i - 1) then 1 else 0
  }

  /** The set bits of one byte among its lowest `k`. */
  function LowOnes(b: bv8, k: nat): nat
    requires k <= 8
  {
    if k == 0 then 0 else LowOnes(b, k - 1) + if ByteBit(b, k - 1) then 1 else 0
  }

  function CountOnes(b: bv8): nat {
    LowOnes(b, 8)
  }

  lemma {:induction false} OnesInByte(bits: seq<bv8>, byte: nat, k: nat)
    requires byte < |bits| && k <= 8
    ensures Ones(bits, 8 * byte + k) == Ones(bits, 8 * byte) + LowOnes(bits[byte], k)
  {
    hide ByteBit;
    if k > 0 {
      OnesInByte(bits, byte, k - 1);
      assert (8 * byte + k - 1) / 8 == byte && (8 * byte + k - 1) % 8 == k - 1;
    }
  }

  lemma {:induction false} OnesPastEnd(bits: seq<bv8>, i: nat, j: nat)
    requires 8 * |bits| <= i <= j
    ensures Ones(bits, j) == Ones(bits, i)
  {
    if i < j {
      OnesPastEnd(bits, i, j - 1);
    }
  }

  function LowBits(b: bv8, k: nat): bv8
    requires k < 8
  {
    b & ((1 << k) - 1)
  }

  lemma MaskedBit(b: bv8, k: nat, j: nat)
    requires k < 8 && j < 8
    ensures ByteBit(LowBits(b, k), j) <==> j < k && ByteBit(b, j)
  {
  }

  lemma {:induction false} MaskedOnes(b: bv8, k: nat, m: nat)
    requires k < 8 && m <= 8
    ensures LowOnes(LowBits(b, k), m) == LowOnes(b, if m < k then m else k)
  {
    hide ByteBit, LowBits;
    if m > 0 {
      MaskedOnes(b, k, m - 1);
      MaskedBit(b, k, m - 1);
    }
  }

  lemma OneByte(bits: seq<bv8>, byte: nat)
    requires byte < |bits|
    ensures Ones(bits, 8 * (byte + 1)) == Ones(bits, 8 * byte) + CountOnes(bits[byte])
  {
    OnesInByte(bits, byte, 8);
  }

  lemma PartOfByte(bits: seq<bv8>, byte: nat, k: nat)
    requires byte < |bits| && k < 8
    ensures Ones(bits, 8 * byte + k) == Ones(bits, 8 * byte) + CountOnes(LowBits(bits[byte], k))
  {
    OnesInByte(bits, byte, k);
    MaskedOnes(bits[byte], k, 8);
  }

  ghost predicate IsSampled(bits: seq<bv8>, samples: seq<nat>) {
    && |samples| == (|bits| + 31) / 32 + 1
    && forall s :: 0 <= s < |samples| ==> samples[s] == Ones(bits, SUPERBLOCK_BITS * s)
  }

  method BuildSuperblocks(bits: seq<bv8>) returns (samples: seq<nat>)
    ensures IsSampled(bits, samples)
  {
    hide Ones, CountOnes;
    samples := [];
    var cumulative := 0;
    var chunk: nat := 0;
    NoOnes(bits);
    while chunk < |bits|
      invariant chunk % 32 == 0 && |samples| == chunk / 32 && chunk < |bits| + 32
      invariant cumulative == Ones(bits, 8 * chunk)
      invariant forall s :: 0 <= s < |samples| ==> samples[s] == Ones(bits, SUPERBLOCK_BITS * s)
    {
      samples := samples + [cumulative];
      var end := if chunk + 32 < |bits| then chunk + 32 else |bits|;
      cumulative := AddBytes(bits, chunk, end, cumulative);
      chunk := chunk + 32;
      if end == |bits| {
        OnesPastEnd(bits, 8 * end, 8 * chunk);
      }
    }
    samples := samples + [cumulative];
  }

  lemma NoOnes(bits: seq<bv8>)
    ensures Ones(bits, 0) == 0
  {
  }

  method AddBytes(bits: seq<bv8>, start: nat, end: nat, before: nat) returns (cumulative: nat)
    requires start <= end <= |bits| && before == Ones(bits, 8 * start)
    ensures cumulative == Ones(bits, 8 * end)
  {
    hide Ones, CountOnes;
    cumulative := before;
    for byte := start to end
      invariant cumulative == Ones(bits, 8 * byte)
    {
      OneByte(bits, byte);
      cumulative := cumulative + CountOnes(bits[byte]);
    }
  }

  /** rank1: clamped to the bitmap, at most four words past a sample. */
  method Rank1(bits: seq<bv8>, samples: seq<nat>, i: nat) returns (count: nat)
    requires IsSampled(bits, samples)
    ensures count == Ones(bits, i)
  {
    hide ByteBit, Ones, CountOnes, LowBits, LowOnes;
    var end := if i < |bits| * 8 then i else |bits| * 8;
    var superblock := end / SUPERBLOCK_BITS;
    count := if superblock < |samples| then samples[superblock] else 0;
    var startByte := superblock * (SUPERBLOCK_BITS / 8);
    var fullBytes := end / 8;
    assert superblock < |samples| && startByte <= fullBytes <= |bits|;
    for byte := startByte to fullBytes
      invariant count == Ones(bits, 8 * byte)
    {
      OneByte(bits, byte);
      count := count + CountOnes(bits[byte]);
    }
    var remainder := end % 8;
    if remainder != 0 && fullBytes < |bits| {
      PartOfByte(bits, fullBytes, remainder);
      count := count + CountOnes(LowBits(bits[fullBytes], remainder));
    }
    if end < i {
      OnesPastEnd(bits, end, i);
    }
  }

  /** Equal ranks mean a stretch without set bits. */
  lemma {:induction false} EqualRanks(bits: seq<bv8>, lo: nat, hi: nat)
    requires lo <= hi
    ensures Ones(bits, lo) <= Ones(bits, hi)
    ensures Ones(bits, lo) == Ones(bits, hi) <==> forall k: nat :: lo <= k < hi ==> !Bit(bits, k)
  {
    if lo < hi {
      EqualRanks(bits, lo, hi - 1);
    }
  }

  /** Occurrences of `one` before `i`: rank1 or rank0. */
  ghost function RankOf(bits: seq<bv8>, i: nat, one: bool): int {
    if one then Ones(bits, i) else (if i < 8 * |bits| then i else 8 * |bits|) - Ones(bits, i)
  }

  method Rank(bits: seq<bv8>, samples: seq<nat>, i: nat, one: bool) returns (count: int)
    requires IsSampled(bits, samples)
    ensures count == RankOf(bits, i, one)
  {
    count := Rank1(bits, samples, i);
    if !one {
      count := (if i < |bits| * 8 then i else |bits| * 8) - count;
    }
  }

  lemma RankStep(bits: seq<bv8>, i: nat, one: bool)
    requires i < 8 * |bits|
    ensures RankOf(bits, i + 1, one) == RankOf(bits, i, one) + if Bit(bits, i) == one then 1 else 0
  {
  }

  /** select: the position of the k-th occurrence, by bisection over ranks. */
  method Select(bits: seq<bv8>, samples: seq<nat>, k: nat, one: bool) returns (position: Option<nat>)
    requires IsSampled(bits, samples)
    ensures position.None? <==> k >= RankOf(bits, 8 * |bits|, one)
    ensures position.Some? ==>
              && position.value < 8 * |bits| && Bit(bits, position.value) == one
              && RankOf(bits, position.value, one) == k
  {
    hide Bit, RankOf;
    var len := |bits| * 8;
    var total := Rank(bits, samples, len, one);
    if k >= total {
      return None;
    }
    RankStart(bits, one);
    var low: nat, high: nat := 0, len;
    while low < high
      invariant low <= high <= len && RankOf(bits, low, one) <= k < RankOf(bits, len, one)
      invariant high < len ==> k < RankOf(bits, high + 1, one)
    {
      var middle := low + (high - low) / 2;
      var upTo := Rank(bits, samples, middle + 1, one);
      if upTo > k {
        high := middle;
      } else {
        low := middle + 1;
      }
    }
    if low < len {
      RankStep(bits, low, one);
    }
    return Some(low);
  }

  lemma RankStart(bits: seq<bv8>, one: bool)
    ensures RankOf(bits, 0, one) == 0
  {
  }
}
