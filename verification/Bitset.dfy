/** The fixed-size bitset of tombstones (delta.rs). Words are modelled by their little-endian bytes. */
module Bitsets {
  import opened Bits
  import Counting

  const WORD_BYTES: nat := 8

  function WordsFor(bits: nat): nat {
    (bits + 63) / 64
  }

  /** The indices of the set bits. */
  ghost function Ones(bytes: seq<bv8>): (s: set<nat>)
    ensures forall i: nat :: i in s <==> Bit(bytes, i)
  {
    set i | 0 <= i < 8 * |bytes| && Bit(bytes, i)
  }

  class Bitset {
    const bytes: array<bv8>
    var ones: nat

    ghost predicate Valid()
      reads this, bytes
    {
      ones == |Ones(bytes[..])|
    }

    ghost function Contents(): set<nat>
      reads bytes
    {
      Ones(bytes[..])
    }

    constructor (bits: nat)
      ensures Valid() && Contents() == {} && fresh(bytes)
      ensures bytes.Length == WORD_BYTES * WordsFor(bits)
    {
      bytes := new bv8[WORD_BYTES * WordsFor(bits)](_ => 0);
      ones := 0;
      new;
      NoOnes(bytes[..]);
    }

    /** Sets a bit and reports whether it was clear; an index past the last word is out of bounds. */
    method Set(index: nat) returns (changed: bool)
      requires Valid() && index < 8 * bytes.Length
      modifies this, bytes
      ensures Valid() && Contents() == old(Contents()) + {index}
      ensures changed <==> index !in old(Contents())
    {
      if Bit(bytes[..], index) {
        assert Contents() == old(Contents()) + {index};
        return false;
      }
      ghost var was := Contents();
      SetBit(bytes, index);
      assert Contents() == was + {index};
      ones := ones + 1;
      return true;
    }

    /** Reads a bit; past the last word every bit is clear. */
    method Get(index: nat) returns (found: bool)
      ensures found <==> index in Contents()
    {
      found := Bit(bytes[..], index);
    }

    method CountOnes() returns (count: nat)
      requires Valid()
      ensures count == |Contents()|
    {
      count := ones;
    }
  }

  lemma NoOnes(bytes: seq<bv8>)
    requires forall i :: 0 <= i < |bytes| ==> bytes[i] == 0
    ensures Ones(bytes) == {}
  {
    forall i: nat ensures !Bit(bytes, i) {
    }
    assert Ones(bytes) == {};
  }
}
