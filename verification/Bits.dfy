/** LSB-first bitmaps over bytes: one bit per record or position. */
module Bits {

  predicate ByteBit(b: bv8, j: nat)
    requires j < 8
  {
    b & (1 << j) != 0
  }

  /** Bit `i` of a bitmap; out of range reads as clear. */
  predicate Bit(bytes: seq<bv8>, i: nat) {
    i / 8 < |bytes| && ByteBit(bytes[i / 8], i % 8)
  }

  function BytesFor(bits: nat): nat {
    (bits + 7) / 8
  }

  lemma OrByte(b: bv8, j: nat, k: nat)
    requires j < 8 && k < 8
    ensures ByteBit(b | (1 << j), k) <==> j == k || ByteBit(b, k)
  {
  }

  method SetBit(bytes: array<bv8>, i: nat)
    requires i / 8 < bytes.Length
    modifies bytes
    ensures forall j: nat :: Bit(bytes[..], j) <==> j == i || Bit(old(bytes[..]), j)
  {
    hide ByteBit;
    ghost var was := bytes[..];
    bytes[i / 8] := bytes[i / 8] | (1 << (i % 8));
    forall j: nat ensures Bit(bytes[..], j) <==> j == i || Bit(was, j) {
      if j / 8 == i / 8 {
        OrByte(was[i / 8], i % 8, j % 8);
      }
    }
  }
}
