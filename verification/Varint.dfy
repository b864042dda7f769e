/** Unsigned LEB128 (arena/names.rs; section 7.6 of DWARF Version 5). Masks and shifts are written as arithmetic. */
module Varint {
  import opened Ascii

  const U32_LIMIT: nat := 0x1_0000_0000

  /** A length stored in a 32-bit column. */
  function AsU32(x: nat): (r: nat)
    ensures x < U32_LIMIT ==> r == x
  {
    x % 0x1_0000_0000
  }

  /** The encoding of `v`: seven bits a byte, lowest first, bit 7 set on all but the last. */
  ghost function Encoded(v: nat): Name {
    if v < 128 then [v] else [128 + v % 128] + Encoded(v / 128)
  }

  method WriteVarint(out: Name, value: nat) returns (r: Name)
    ensures r == out + Encoded(value)
  {
    var v := value;
    r := out;
    while true
      invariant r + Encoded(v) == out + Encoded(value)
      decreases v
    {
      var byte := v % 128;
      v := v / 128;
      if v == 0 {
        r := r + [byte];
        break;
      }
      r := r + [128 + byte];
    }
  }

  /** The decoder gives back what was encoded, whatever follows; `result` never leaves 32 bits. */
  method ReadVarint(buf: Name, pos: nat, ghost value: nat, ghost rest: Name) returns (result: nat, next: nat)
    requires pos <= |buf| && buf[pos..] == Encoded(value) + rest && value < U32_LIMIT
    ensures result == value && next == pos + |Encoded(value)| <= |buf| && buf[next..] == rest
  {
    hide Encoded;
    result, next := 0, pos;
    var scale := 1;
    ghost var v := value;
    while true
      invariant pos <= next <= |buf| && buf[next..] == Encoded(v) + rest
      invariant next + |Encoded(v)| == pos + |Encoded(value)|
      invariant scale >= 1 && result + scale * v == value && result < scale
      decreases v
    {
      EncodedStep(v);
      var byte := buf[next];
      assert byte == buf[next..][0] == Encoded(v)[0];
      next := next + 1;
      assert buf[next..] == Encoded(v)[1..] + rest;
      result := result + byte % 128 * scale;
      if byte < 128 {
        break;
      }
      ScaleStep(scale, v);
      scale := scale * 128;
      v := v / 128;
    }
  }

  lemma EncodedStep(v: nat)
    ensures Encoded(v) != [] && Encoded(v)[0] % 128 == v % 128 && (Encoded(v)[0] < 128 <==> v < 128)
    ensures Encoded(v)[1..] == if v < 128 then [] else Encoded(v / 128)
  {
  }

  lemma ScaleStep(scale: nat, v: nat)
    ensures scale * v == v % 128 * scale + scale * 128 * (v / 128)
    ensures v % 128 * scale + scale <= scale * 128
  {
    Split(scale, v / 128, v % 128);
    Digit(scale, v % 128);
  }

  lemma Split(scale: nat, q: nat, r: nat)
    ensures scale * (128 * q + r) == r * scale + scale * 128 * q
  {
  }

  lemma Digit(scale: nat, r: nat)
    requires r < 128
    ensures r * scale + scale <= scale * 128
  {
    assert (r + 1) * scale == r * scale + scale;
    assert (128 - (r + 1)) * scale >= 0;
  }
}
