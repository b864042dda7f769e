/** The query overlay: tombstones and additions as bytes (delta.rs). */
module DeltaCodec {
  import opened Records
  import opened Ascii
  import opened Bits
  import opened Bitsets
  import opened DeltaState

  const U32: nat := 0x1_0000_0000
  const U64: nat := 0x1_0000_0000_0000_0000

  /** "SCSE", then the version of the exactness section. */
  const MARKER: Name := [83, 67, 83, 69]
  const VERSION: Byte := 1

  /** What travels: the tombstone words as bytes, and the additions. */
  datatype Overlay = Overlay(words: seq<bv8>, added: seq<DeltaRecord>)

  // ---- little-endian integers --------------------------------------------------------

  function Le(v: nat, len: nat): (r: Name)
    ensures |r| == len
  {
    if len == 0 then [] else [v % 256] + Le(v / 256, len - 1)
  }

  function FromLe(b: Name): nat {
    if b == [] then 0 else b[0] + 256 * FromLe(b[1..])
  }

  function Pow256(len: nat): nat {
    if len == 0 then 1 else 256 * Pow256(len - 1)
  }

  /** The lowest byte comes first. */
  lemma LeFour(v: nat)
    requires v < U32
    ensures var b: seq<nat> := Le(v, 4); v == b[0] + 0x100 * b[1] + 0x1_0000 * b[2] + 0x100_0000 * b[3]
  {
    LeFirst(v, 4);
    LeFirst(v / 256, 3);
    LeFirst(v / 256 / 256, 2);
    LeFirst(v / 256 / 256 / 256, 1);
  }

  lemma LeFirst(v: nat, len: nat)
    requires len > 0
    ensures Le(v, len) == [v % 256] + Le(v / 256, len - 1)
  {
  }

  lemma {:induction false} LeRoundTrip(v: nat, len: nat)
    requires v < Pow256(len)
    ensures FromLe(Le(v, len)) == v
  {
    if len > 0 {
      LeRoundTrip(v / 256, len - 1);
      assert Le(v, len)[1..] == Le(v / 256, len - 1);
    }
  }

  lemma Widths()
    ensures Pow256(1) == 256 && Pow256(4) == U32 && Pow256(8) == U64
  {
    assert Pow256(0) == 1 && Pow256(1) == 256 && Pow256(2) == 65536 && Pow256(3) == 0x100_0000;
    assert Pow256(4) == U32 && Pow256(5) == 256 * U32 && Pow256(6) == 65536 * U32;
    assert Pow256(7) == 0x100_0000 * U32;
  }

  function ByteOf(b: bool): Byte {
    if b then 1 else 0
  }

  // ---- the format --------------------------------------------------------------------

  function ParentBytes(parent: ParentRef): Name {
    match parent
    case Rootless => [0]
    case AtBase(index) => [1] + Le(index, 4)
    case AtDelta(index) => [2] + Le(index, 4)
  }

  /** A record behind given bytes for its two flags; its exactness is not among them. */
  function LooseBytes(live: Byte, isDir: Byte, r: DeltaRecord): Name {
    [live] + (ParentBytes(r.parent) + (Le(r.meta.mtimeSecs, 4) + ([isDir] + (Le(r.meta.sizeBytes, 8) + (Le(|r.name|, 4) + r.name)))))
  }

  function RecordBytes(r: DeltaRecord): Name {
    LooseBytes(ByteOf(r.live), ByteOf(r.meta.isDir), r)
  }

  /** The records from `i` on. */
  function RecordsBytes(added: seq<DeltaRecord>, i: nat): Name
    requires i <= |added|
    decreases |added| - i
  {
    if i == |added| then [] else RecordBytes(added[i]) + RecordsBytes(added, i + 1)
  }

  function ToByte(b: bv8): Byte {
    b as nat
  }

  function FromByte(n: Byte): bv8 {
    n as bv8
  }

  function ToBytes(s: seq<bv8>): (r: Name)
    ensures |r| == |s|
  {
    seq(|s|, i requires 0 <= i < |s| => ToByte(s[i]))
  }

  function FromBytes(s: Name): (r: seq<bv8>)
    ensures |r| == |s|
  {
    seq(|s|, i requires 0 <= i < |s| => FromByte(s[i]))
  }

  lemma BytesRoundTrip(s: seq<bv8>)
    ensures FromBytes(ToBytes(s)) == s
  {
    forall i | 0 <= i < |s| ensures FromBytes(ToBytes(s))[i] == s[i] {
      OneByte(s[i]);
    }
  }

  lemma OneByte(b: bv8)
    ensures FromByte(ToByte(b)) == b
  {
  }

  /** One bit per addition. */
  ghost predicate IsFlags(flags: seq<bv8>, added: seq<DeltaRecord>) {
    |flags| == BytesFor(|added|) && forall i: nat :: i < |added| ==> (Bit(flags, i) <==> added[i].meta.sizeExact)
  }

  function Trailer(flags: seq<bv8>): Name {
    MARKER + ([VERSION] + ToBytes(flags))
  }

  function Wire(d: Overlay, flags: seq<bv8>): Name
    requires |d.words| % 8 == 0
  {
    Le(|d.words| / 8, 4) + (ToBytes(d.words) + (Le(|d.added|, 4) + (RecordsBytes(d.added, 0) + Trailer(flags))))
  }

  // ---- what a valid overlay is -------------------------------------------------------

  ghost predicate Fits(r: DeltaRecord, i: nat, isUtf8: Name -> bool) {
    && (r.parent.AtBase? ==> r.parent.index < U32)
    && (r.parent.AtDelta? ==> r.parent.index < i)
    && r.meta.mtimeSecs < U32 && r.meta.sizeBytes < U64 && |r.name| < U32 && isUtf8(r.name)
  }

  ghost predicate AllFit(added: seq<DeltaRecord>, isUtf8: Name -> bool) {
    forall i :: 0 <= i < |added| ==> Fits(added[i], i, isUtf8)
  }

  /** No bit at or past `records`. */
  ghost predicate NoStray(words: seq<bv8>, records: nat) {
    forall k: nat :: Bit(words, k) ==> k < records
  }

  /** The decoder's own limit on additions. */
  function MaxAdded(records: nat): nat {
    records / 10 + 1_000_000
  }

  ghost predicate IsOverlay(d: Overlay, records: nat, isUtf8: Name -> bool) {
    && |d.words| == WORD_BYTES * WordsFor(records)
    && NoStray(d.words, records)
    && AllFit(d.added, isUtf8)
  }

  // ---- encoding ----------------------------------------------------------------------

  method EncodeFlags(added: seq<DeltaRecord>) returns (flags: seq<bv8>)
    ensures IsFlags(flags, added)
  {
    hide Bit;
    var bits := new bv8[BytesFor(|added|)](_ => 0);
    NoOnes(bits[..]);
    assert forall k: nat :: !Bit(bits[..], k) by {
      forall k: nat ensures !Bit(bits[..], k) {
        assert k !in Ones(bits[..]);
      }
    }
    for i := 0 to |added|
      invariant forall k: nat :: Bit(bits[..], k) <==> k < i && added[k].meta.sizeExact
    {
      if added[i].meta.sizeExact {
        SetBit(bits, i);
      }
    }
    flags := bits[..];
  }

  method EncodeParent(out: Name, parent: ParentRef) returns (next: Name)
    ensures next == out + ParentBytes(parent)
  {
    hide Le;
    match parent {
      case Rootless => next := out + [0];
      case AtBase(index) => next := out + [1]; next := next + Le(index, 4);
      case AtDelta(index) => next := out + [2]; next := next + Le(index, 4);
    }
  }

  method EncodeRecord(out: Name, r: DeltaRecord) returns (next: Name)
    ensures next == out + RecordBytes(r)
  {
    hide ParentBytes, Le;
    next := out + [ByteOf(r.live)];
    next := EncodeParent(next, r.parent);
    next := next + Le(r.meta.mtimeSecs, 4);
    next := next + [ByteOf(r.meta.isDir)];
    next := next + Le(r.meta.sizeBytes, 8);
    next := next + Le(|r.name|, 4);
    next := next + r.name;
  }

  /** encode_query_overlay. */
  method Encode(d: Overlay) returns (out: Name, ghost flags: seq<bv8>)
    requires |d.words| % 8 == 0
    ensures IsFlags(flags, d.added) && out == Wire(d, flags)
  {
    hide RecordBytes, Le, ToBytes;
    out := Le(|d.words| / 8, 4);
    out := out + ToBytes(d.words);
    out := out + Le(|d.added|, 4);
    ghost var head := out;
    for i := 0 to |d.added|
      invariant out + RecordsBytes(d.added, i) == head + RecordsBytes(d.added, 0)
    {
      ghost var was := out;
      out := EncodeRecord(out, d.added[i]);
      assert out + RecordsBytes(d.added, i + 1) == was + RecordsBytes(d.added, i);
    }
    assert out == head + RecordsBytes(d.added, 0);
    hide RecordsBytes;
    out := out + MARKER;
    out := out + [VERSION];
    var bits := EncodeFlags(d.added);
    out := out + ToBytes(bits);
    flags := bits;
  }

  // ---- decoding ----------------------------------------------------------------------

  /** The decoder reads bytes off the front. */
  datatype Cursor<T> = Stop | Read(value: T, rest: Name)

  function TakeBytes(input: Name, len: nat): (c: Cursor<Name>)
    ensures c.Read? <==> len <= |input|
    ensures c.Read? ==> |c.value| == len && input == c.value + c.rest
  {
    if len <= |input| then Read(input[..len], input[len..]) else Stop
  }

  function TakeLe(input: Name, len: nat): Cursor<nat> {
    var c := TakeBytes(input, len);
    if c.Read? then Read(FromLe(c.value), c.rest) else Stop
  }

  function TakeByte(input: Name): (c: Cursor<Byte>)
    ensures c.Read? ==> input == [c.value] + c.rest
  {
    if input == [] then Stop else Read(input[0], input[1..])
  }

  lemma TakenBytes(part: Name, rest: Name)
    ensures TakeBytes(part + rest, |part|) == Read(part, rest)
  {
    assert (part + rest)[..|part|] == part && (part + rest)[|part|..] == rest;
  }

  lemma TakenLe(v: nat, len: nat, rest: Name)
    requires v < Pow256(len)
    ensures TakeLe(Le(v, len) + rest, len) == Read(v, rest)
  {
    TakenBytes(Le(v, len), rest);
    LeRoundTrip(v, len);
  }

  lemma TakenByte(b: Byte, rest: Name)
    ensures TakeByte([b] + rest) == Read(b, rest)
  {
    assert ([b] + rest)[1..] == rest;
  }

  function DecodeParent(input: Name, index: nat): Cursor<ParentRef> {
    var tag := TakeByte(input);
    if tag.Stop? then Stop
    else if tag.value == 0 then Read(Rootless, tag.rest)
    else if tag.value == 1 || tag.value == 2 then
      var v := TakeLe(tag.rest, 4);
      if v.Stop? || (tag.value == 2 && v.value >= index) then Stop
      else Read(if tag.value == 1 then AtBase(v.value) else AtDelta(v.value), v.rest)
    else Stop
  }

  /** One addition; exactness is a guess until the trailer is read. */
  function DecodeRecord(input: Name, index: nat, isUtf8: Name -> bool): Cursor<DeltaRecord> {
    var live := TakeByte(input);
    if live.Stop? then Stop
    else
      var parent := DecodeParent(live.rest, index);
      if parent.Stop? then Stop
      else
        var mtime := TakeLe(parent.rest, 4);
        if mtime.Stop? then Stop
        else
          var isDir := TakeByte(mtime.rest);
          if isDir.Stop? then Stop
          else DecodeTail(live.value != 0, parent.value, mtime.value, isDir.value != 0, isDir.rest, isUtf8)
  }

  function DecodeTail(live: bool, parent: ParentRef, mtime: nat, isDir: bool, input: Name, isUtf8: Name -> bool): Cursor<DeltaRecord> {
    var size := TakeLe(input, 8);
    if size.Stop? then Stop
    else
      var len := TakeLe(size.rest, 4);
      if len.Stop? then Stop
      else
        var name := TakeBytes(len.rest, len.value);
        if name.Stop? || !isUtf8(name.value) then Stop
        else Read(DeltaRecord(name.value, parent, Meta(isDir, mtime, size.value, !isDir && size.value != 0), live), name.rest)
  }

  function Guess(r: DeltaRecord): DeltaRecord {
    r.(meta := r.meta.(sizeExact := !r.meta.isDir && r.meta.sizeBytes != 0))
  }

  lemma ParentRoundTrip(parent: ParentRef, index: nat, rest: Name)
    requires (parent.AtBase? ==> parent.index < U32) && (parent.AtDelta? ==> parent.index < index && index <= U32)
    ensures DecodeParent(ParentBytes(parent) + rest, index) == Read(parent, rest)
  {
    hide Le, FromLe;
    Widths();
    match parent {
      case Rootless =>
        TakenByte(0, rest);
      case AtBase(p) =>
        assert ParentBytes(parent) + rest == [1] + (Le(p, 4) + rest);
        TakenByte(1, Le(p, 4) + rest);
        TakenLe(p, 4, rest);
      case AtDelta(p) =>
        assert ParentBytes(parent) + rest == [2] + (Le(p, 4) + rest);
        TakenByte(2, Le(p, 4) + rest);
        TakenLe(p, 4, rest);
    }
  }

  lemma TailRoundTrip(r: DeltaRecord, rest: Name, isUtf8: Name -> bool)
    requires r.meta.sizeBytes < U64 && |r.name| < U32 && isUtf8(r.name)
    ensures DecodeTail(r.live, r.parent, r.meta.mtimeSecs, r.meta.isDir,
                       Le(r.meta.sizeBytes, 8) + (Le(|r.name|, 4) + r.name) + rest, isUtf8) == Read(Guess(r), rest)
  {
    hide Le, FromLe, TakeLe, TakeBytes;
    Widths();
    var afterLen := r.name + rest;
    var afterSize := Le(|r.name|, 4) + afterLen;
    assert Le(r.meta.sizeBytes, 8) + (Le(|r.name|, 4) + r.name) + rest == Le(r.meta.sizeBytes, 8) + afterSize;
    TakenLe(r.meta.sizeBytes, 8, afterSize);
    TakenLe(|r.name|, 4, afterLen);
    TakenBytes(r.name, rest);
  }

  /** What the decoder takes for a record: any nonzero byte is a true flag. */
  ghost predicate HasForm(input: Name, r: DeltaRecord, index: nat, isUtf8: Name -> bool, rest: Name) {
    Fits(r, index, isUtf8) && exists live: Byte, isDir: Byte :: IsLoose(input, live, isDir, r, rest)
  }

  ghost predicate IsLoose(input: Name, live: Byte, isDir: Byte, r: DeltaRecord, rest: Name) {
    input == LooseBytes(live, isDir, r) + rest && (live != 0 <==> r.live) && (isDir != 0 <==> r.meta.isDir)
  }

  lemma RecordRoundTrip(input: Name, live: Byte, isDir: Byte, r: DeltaRecord, index: nat, rest: Name, isUtf8: Name -> bool)
    requires Fits(r, index, isUtf8) && index <= U32 && IsLoose(input, live, isDir, r, rest)
    ensures DecodeRecord(input, index, isUtf8) == Read(Guess(r), rest)
  {
    hide Le, FromLe, TakeLe, TakeBytes, ParentBytes, DecodeParent, DecodeTail, Guess;
    Widths();
    var tail := Le(r.meta.sizeBytes, 8) + (Le(|r.name|, 4) + r.name) + rest;
    var afterTime := [isDir] + tail;
    var afterParent := Le(r.meta.mtimeSecs, 4) + afterTime;
    var afterLive := ParentBytes(r.parent) + afterParent;
    assert input == [live] + afterLive;
    TakenByte(live, afterLive);
    ParentRoundTrip(r.parent, index, afterParent);
    TakenLe(r.meta.mtimeSecs, 4, afterTime);
    TakenByte(isDir, tail);
    TailRoundTrip(r, rest, isUtf8);
  }

  lemma {:induction false} LeBack(b: Name)
    ensures Le(FromLe(b), |b|) == b && FromLe(b) < Pow256(|b|)
  {
    if b != [] {
      LeBack(b[1..]);
      assert FromLe(b) / 256 == FromLe(b[1..]);
    }
  }

  lemma LeTaken(input: Name, len: nat)
    ensures TakeLe(input, len).Read? ==>
      TakeLe(input, len).value < Pow256(len) && input == Le(TakeLe(input, len).value, len) + TakeLe(input, len).rest
  {
    hide Le, FromLe, Pow256;
    if len <= |input| {
      LeBack(input[..len]);
    }
  }

  lemma ParentBack(input: Name, index: nat)
    ensures DecodeParent(input, index).Read? ==>
      var p := DecodeParent(input, index).value;
      && input == ParentBytes(p) + DecodeParent(input, index).rest
      && (p.AtBase? ==> p.index < U32) && (p.AtDelta? ==> p.index < index)
  {
    hide Le, TakeLe;
    Widths();
    if input != [] {
      LeTaken(input[1..], 4);
    }
  }

  lemma TailBack(live: bool, parent: ParentRef, mtime: nat, isDir: bool, input: Name, isUtf8: Name -> bool)
    ensures var c := DecodeTail(live, parent, mtime, isDir, input, isUtf8);
      c.Read? ==> var r := c.value;
        && input == Le(r.meta.sizeBytes, 8) + (Le(|r.name|, 4) + r.name) + c.rest
        && r.meta.sizeBytes < U64 && |r.name| < U32 && isUtf8(r.name) && r == Guess(r)
        && r.live == live && r.parent == parent && r.meta.mtimeSecs == mtime && r.meta.isDir == isDir
  {
    hide Le, TakeLe;
    Widths();
    LeTaken(input, 8);
    if TakeLe(input, 8).Read? {
      LeTaken(TakeLe(input, 8).rest, 4);
    }
  }

  lemma RecordBack(input: Name, index: nat, isUtf8: Name -> bool)
    ensures var c := DecodeRecord(input, index, isUtf8);
      c.Read? ==> HasForm(input, c.value, index, isUtf8, c.rest) && c.value == Guess(c.value)
  {
    hide Le, TakeLe, ParentBytes, DecodeParent, DecodeTail, Guess;
    var c := DecodeRecord(input, index, isUtf8);
    if c.Read? {
      Widths();
      var live := TakeByte(input);
      ParentBack(live.rest, index);
      var parent := DecodeParent(live.rest, index);
      LeTaken(parent.rest, 4);
      var mtime := TakeLe(parent.rest, 4);
      var isDir := TakeByte(mtime.rest);
      TailBack(live.value != 0, parent.value, mtime.value, isDir.value != 0, isDir.rest, isUtf8);
      assert IsLoose(input, live.value, isDir.value, c.value, c.rest);
    }
  }

  /** The record reader accepts exactly that form, and returns what it holds, exactness guessed. */
  lemma TheoremRecordForm(input: Name, index: nat, isUtf8: Name -> bool, r: DeltaRecord, rest: Name)
    requires index <= U32
    ensures DecodeRecord(input, index, isUtf8) == Read(Guess(r), rest) <==> HasForm(input, r, index, isUtf8, rest)
  {
    hide DecodeRecord, IsLoose, Fits;
    RecordBack(input, index, isUtf8);
    if HasForm(input, r, index, isUtf8, rest) {
      var live: Byte, isDir: Byte :| IsLoose(input, live, isDir, r, rest);
      RecordRoundTrip(input, live, isDir, r, index, rest, isUtf8);
    }
    FormOfGuess(input, r, index, isUtf8, rest);
  }

  lemma FormOfGuess(input: Name, r: DeltaRecord, index: nat, isUtf8: Name -> bool, rest: Name)
    ensures HasForm(input, Guess(r), index, isUtf8, rest) <==> HasForm(input, r, index, isUtf8, rest)
  {
    hide Le, ParentBytes;
    var g := Guess(r);
    forall live: Byte, isDir: Byte ensures IsLoose(input, live, isDir, g, rest) <==> IsLoose(input, live, isDir, r, rest) {
      assert LooseBytes(live, isDir, g) == LooseBytes(live, isDir, r);
    }
  }

  // ---- the decoder -------------------------------------------------------------------

  /** The records from `i` on, one after another, then `after`. */
  ghost predicate Body(input: Name, added: seq<DeltaRecord>, i: nat, isUtf8: Name -> bool, after: Name)
    requires i <= |added|
    decreases |added| - i
  {
    if i == |added| then input == after
    else exists rest :: HasForm(input, added[i], i, isUtf8, rest) && Body(rest, added, i + 1, isUtf8, after)
  }

  lemma {:induction false} BodyGrows(input: Name, added: seq<DeltaRecord>, i: nat, isUtf8: Name -> bool, after: Name, r: DeltaRecord, rest: Name)
    requires i <= |added| && Body(input, added, i, isUtf8, after) && HasForm(after, r, |added|, isUtf8, rest)
    ensures Body(input, added + [r], i, isUtf8, rest)
    decreases |added| - i
  {
    hide HasForm;
    if i == |added| {
      assert (added + [r])[i] == r && Body(rest, added + [r], i + 1, isUtf8, rest);
    } else {
      var next :| HasForm(input, added[i], i, isUtf8, next) && Body(next, added, i + 1, isUtf8, after);
      BodyGrows(next, added, i + 1, isUtf8, after, r, rest);
      assert HasForm(input, (added + [r])[i], i, isUtf8, next);
    }
  }

  /** The records with exactness guessed. */
  ghost predicate AreGuesses(before: seq<DeltaRecord>, added: seq<DeltaRecord>) {
    |before| == |added| && forall i :: 0 <= i < |before| ==> before[i] == Guess(added[i])
  }

  lemma {:induction false} BodyOfGuesses(input: Name, before: seq<DeltaRecord>, added: seq<DeltaRecord>, i: nat, isUtf8: Name -> bool, after: Name)
    requires AreGuesses(before, added) && i <= |added|
    ensures Body(input, before, i, isUtf8, after) <==> Body(input, added, i, isUtf8, after)
    decreases |added| - i
  {
    hide HasForm, Guess;
    if i < |added| {
      forall rest
        ensures HasForm(input, before[i], i, isUtf8, rest) <==> HasForm(input, added[i], i, isUtf8, rest)
        ensures Body(rest, before, i + 1, isUtf8, after) <==> Body(rest, added, i + 1, isUtf8, after)
      {
        FormOfGuess(input, added[i], i, isUtf8, rest);
        BodyOfGuesses(rest, before, added, i + 1, isUtf8, after);
      }
    }
  }

  method DecodeRecords(input: Name, count: nat, isUtf8: Name -> bool, ghost wanted: seq<DeltaRecord>, ghost after: Name)
    returns (added: seq<DeltaRecord>, rest: Name, ok: bool)
    requires count < U32
    ensures ok ==> |added| == count && Body(input, added, 0, isUtf8, rest) && AreGuesses(added, added)
    ensures Body(input, wanted, 0, isUtf8, after) && count == |wanted| ==> ok && rest == after && AreGuesses(added, wanted)
  {
    hide HasForm, DecodeRecord, Guess;
    added, rest, ok := [], input, true;
    ghost var genuine := Body(input, wanted, 0, isUtf8, after) && count == |wanted|;
    for index := 0 to count
      invariant |added| == index && Body(input, added, 0, isUtf8, rest) && AreGuesses(added, added)
      invariant genuine ==> Body(rest, wanted, index, isUtf8, after) && AreGuesses(added, wanted[..index])
    {
      var one := DecodeRecord(rest, index, isUtf8);
      if genuine {
        var next :| HasForm(rest, wanted[index], index, isUtf8, next) && Body(next, wanted, index + 1, isUtf8, after);
        TheoremRecordForm(rest, index, isUtf8, wanted[index], next);
      }
      RecordBack(rest, index, isUtf8);
      if one.Stop? {
        return added, rest, false;
      }
      BodyGrows(input, added, 0, isUtf8, rest, one.value, one.rest);
      added, rest := added + [one.value], one.rest;
    }
  }

  /** The tombstone words; bits past the last record are dropped. */
  method DecodeTombstones(words: seq<bv8>, records: nat) returns (tombstones: Bitset)
    requires |words| == WORD_BYTES * WordsFor(records)
    ensures tombstones.Valid() && fresh(tombstones) && fresh(tombstones.bytes)
    ensures tombstones.bytes.Length == |words|
    ensures forall k: nat :: k in tombstones.Contents() <==> Bit(words, k) && k < records
  {
    hide Bit;
    tombstones := new Bitset(records);
    for k := 0 to 8 * |words|
      invariant tombstones.Valid() && fresh(tombstones) && fresh(tombstones.bytes)
      invariant forall j: nat :: j in tombstones.Contents() <==> j < k && Bit(words, j) && j < records
    {
      if Bit(words, k) && k < records {
        var changed := tombstones.Set(k);
      }
    }
    PastWords(words, records);
  }

  lemma PastWords(words: seq<bv8>, records: nat)
    requires |words| == WORD_BYTES * WordsFor(records)
    ensures records <= 8 * |words|
  {
  }

  /** After the records: the trailer with one flag a record, or anything that does not begin like one, and then exactness is guessed. */
  ghost predicate TailForm(tail: Name, added: seq<DeltaRecord>) {
    if MARKER <= tail then exists flags: Name :: tail == MARKER + ([VERSION] + flags) && IsFlags(FromBytes(flags), added)
    else AreGuesses(added, added)
  }

  method DecodeTrailer(input: Name, before: seq<DeltaRecord>, ghost wanted: seq<DeltaRecord>)
    returns (added: seq<DeltaRecord>, ok: bool)
    requires AreGuesses(before, before)
    ensures ok ==> AreGuesses(before, added) && TailForm(input, added)
    ensures AreGuesses(before, wanted) && TailForm(input, wanted) ==> ok && added == wanted
  {
    hide Bit, ToBytes, FromBytes;
    added, ok := before, true;
    if !(MARKER <= input) {
      return;
    }
    TrailerParts(input, wanted);
    var afterMarker := input[|MARKER|..];
    var version := TakeByte(afterMarker);
    if version.Stop? || version.value != VERSION {
      return added, false;
    }
    var taken := TakeBytes(version.rest, BytesFor(|before|));
    if taken.Stop? {
      return added, false;
    }
    var bits := FromBytes(taken.value);
    for index := 0 to |before|
      invariant |added| == |before|
      invariant forall i :: 0 <= i < |before| ==> added[i] == if i < index then Marked(before[i], Bit(bits, i)) else before[i]
    {
      added := added[index := Marked(added[index], Bit(bits, index))];
    }
    ok := taken.rest == [];
    if ok {
      assert input == MARKER + afterMarker && taken.value + [] == taken.value;
      assert input == MARKER + ([VERSION] + taken.value) && IsFlags(bits, added);
    }
  }

  function Marked(r: DeltaRecord, exact: bool): DeltaRecord {
    r.(meta := r.meta.(sizeExact := exact))
  }

  lemma TrailerParts(input: Name, added: seq<DeltaRecord>)
    requires MARKER <= input
    ensures forall flags: Name :: input == MARKER + ([VERSION] + flags) && IsFlags(FromBytes(flags), added) ==>
      TakeByte(input[|MARKER|..]) == Read(VERSION, flags) && TakeBytes(flags, BytesFor(|added|)) == Read(flags, [])
  {
    hide Bit, FromBytes;
    forall flags: Name | input == MARKER + ([VERSION] + flags) && IsFlags(FromBytes(flags), added)
      ensures TakeByte(input[|MARKER|..]) == Read(VERSION, flags) && TakeBytes(flags, BytesFor(|added|)) == Read(flags, [])
    {
      assert input[|MARKER|..] == [VERSION] + flags;
      TakenByte(VERSION, flags);
      TakenBytes(flags, []);
      assert flags + [] == flags;
    }
  }

  /** An overlay of a base of `records` records, with these tombstone words and additions. */
  ghost predicate WireForm(bytes: Name, words: Name, added: seq<DeltaRecord>, records: nat, isUtf8: Name -> bool, body: Name, tail: Name) {
    && |words| == WORD_BYTES * WordsFor(records) && WordsFor(records) < U32
    && |added| <= MaxAdded(records) && |added| < U32
    && bytes == Le(WordsFor(records), 4) + (words + (Le(|added|, 4) + body))
    && Body(body, added, 0, isUtf8, tail) && TailForm(tail, added)
  }

  /** The bytes say: these records are tombstoned, these added. */
  ghost predicate Says(bytes: Name, tombs: set<nat>, added: seq<DeltaRecord>, records: nat, isUtf8: Name -> bool) {
    exists words: Name, body: Name, tail: Name :: WireForm(bytes, words, added, records, isUtf8, body, tail) && Tombs(tombs, words, records)
  }

  /** Bits past the last record do not count. */
  ghost predicate Tombs(tombs: set<nat>, words: Name, records: nat) {
    forall k: nat :: k in tombs <==> Bit(FromBytes(words), k) && k < records
  }

  lemma WireParts(bytes: Name, words: Name, added: seq<DeltaRecord>, records: nat, isUtf8: Name -> bool, body: Name, tail: Name)
    requires WireForm(bytes, words, added, records, isUtf8, body, tail)
    ensures var rest := Le(|added|, 4) + body;
      && TakeLe(bytes, 4) == Read(WordsFor(records), words + rest)
      && TakeBytes(words + rest, |words|) == Read(words, rest)
      && TakeLe(rest, 4) == Read(|added|, body)
  {
    hide Le, FromLe, TakeLe, TakeBytes, TailForm, Body;
    Widths();
    var rest := Le(|added|, 4) + body;
    TakenLe(WordsFor(records), 4, words + rest);
    TakenBytes(words, rest);
    TakenLe(|added|, 4, body);
  }

  /** decode_query_overlay accepts exactly the bytes that say something, and returns what they say. */
  method Decode(bytes: Name, records: nat, isUtf8: Name -> bool, ghost tombs: set<nat>, ghost wanted: seq<DeltaRecord>)
    returns (ok: bool, tombstones: Bitset, added: seq<DeltaRecord>)
    ensures fresh(tombstones) && fresh(tombstones.bytes)
    ensures ok ==> tombstones.Valid() && Says(bytes, tombstones.Contents(), added, records, isUtf8)
    ensures Says(bytes, tombs, wanted, records, isUtf8) ==> ok && added == wanted && tombstones.Contents() == tombs
  {
    hide Bit, Le, TakeLe, TakeBytes, Body, TailForm, ToBytes, FromBytes, WordsFor, MaxAdded, AreGuesses;
    ok, added := false, [];
    tombstones := new Bitset(0);
    ghost var genuine := Says(bytes, tombs, wanted, records, isUtf8);
    ghost var words, body, tail := [], [], [];
    if genuine {
      words, body, tail :| WireForm(bytes, words, wanted, records, isUtf8, body, tail) && Tombs(tombs, words, records);
      WireParts(bytes, words, wanted, records, isUtf8, body, tail);
    }
    LeTaken(bytes, 4);
    Widths();
    var wordCount := TakeLe(bytes, 4);
    if wordCount.Stop? || wordCount.value != WordsFor(records) {
      return;
    }
    var taken := TakeBytes(wordCount.rest, WORD_BYTES * WordsFor(records));
    if taken.Stop? {
      return;
    }
    tombstones := DecodeTombstones(FromBytes(taken.value), records);
    LeTaken(taken.rest, 4);
    var count := TakeLe(taken.rest, 4);
    if count.Stop? || count.value > MaxAdded(records) {
      return;
    }
    var guessed, rest, okRecords := DecodeRecords(count.rest, count.value, isUtf8, wanted, tail);
    if !okRecords {
      return;
    }
    added, ok := DecodeTrailer(rest, guessed, wanted);
    if ok {
      BodyOfGuesses(count.rest, guessed, added, 0, isUtf8, rest);
      AddedLength(guessed, added);
      assert WireForm(bytes, taken.value, added, records, isUtf8, count.rest, rest);
      assert Tombs(tombstones.Contents(), taken.value, records);
    }
  }

  lemma AddedLength(before: seq<DeltaRecord>, added: seq<DeltaRecord>)
    requires AreGuesses(before, added)
    ensures |before| == |added|
  {
  }

  /** Parents of the form `AtDelta` come first. */
  ghost predicate AllFirst(added: seq<DeltaRecord>) {
    forall i :: 0 <= i < |added| && added[i].parent.AtDelta? ==> added[i].parent.index < i
  }

  lemma {:induction false} BodyFirst(input: Name, added: seq<DeltaRecord>, i: nat, isUtf8: Name -> bool, after: Name)
    requires i <= |added| && Body(input, added, i, isUtf8, after)
    ensures forall k :: i <= k < |added| && added[k].parent.AtDelta? ==> added[k].parent.index < k
    decreases |added| - i
  {
    if i < |added| {
      var rest :| HasForm(input, added[i], i, isUtf8, rest) && Body(rest, added, i + 1, isUtf8, after);
      BodyFirst(rest, added, i + 1, isUtf8, after);
    }
  }

  /** Whatever is accepted has parents in order and no tombstone past the base. */
  lemma TheoremAcceptedIsSane(bytes: Name, tombs: set<nat>, added: seq<DeltaRecord>, records: nat, isUtf8: Name -> bool)
    requires Says(bytes, tombs, added, records, isUtf8)
    ensures AllFirst(added) && |added| <= MaxAdded(records) && forall k :: k in tombs ==> k < records
  {
    hide Body, TailForm, Bit, ToBytes, Le, MaxAdded;
    var words: Name, body: Name, tail: Name :| WireForm(bytes, words, added, records, isUtf8, body, tail) && Tombs(tombs, words, records);
    BodyFirst(body, added, 0, isUtf8, tail);
  }

  /** What `Encode` writes of a valid overlay within the decoder's limit says that overlay, so it comes back. */
  lemma TheoremEncodedSays(d: Overlay, flags: seq<bv8>, records: nat, isUtf8: Name -> bool)
    requires IsOverlay(d, records, isUtf8) && IsFlags(flags, d.added)
    requires |d.added| <= MaxAdded(records) && |d.added| < U32 && WordsFor(records) < U32
    ensures Says(Wire(d, flags), Ones(d.words), d.added, records, isUtf8)
  {
    hide Bit, Le, Body, ToBytes, FromBytes, WordsFor, MaxAdded, IsFlags, RecordsBytes;
    BytesRoundTrip(d.words);
    BytesRoundTrip(flags);
    var body := RecordsBytes(d.added, 0) + Trailer(flags);
    RecordsAreBody(d.added, 0, isUtf8, Trailer(flags));
    assert TailForm(Trailer(flags), d.added);
    assert WireForm(Wire(d, flags), ToBytes(d.words), d.added, records, isUtf8, body, Trailer(flags));
    assert Tombs(Ones(d.words), ToBytes(d.words), records);
  }

  lemma {:induction false} RecordsAreBody(added: seq<DeltaRecord>, i: nat, isUtf8: Name -> bool, after: Name)
    requires i <= |added| && AllFit(added, isUtf8)
    ensures Body(RecordsBytes(added, i) + after, added, i, isUtf8, after)
    decreases |added| - i
  {
    hide LooseBytes, Fits;
    if i < |added| {
      RecordsAreBody(added, i + 1, isUtf8, after);
      var rest := RecordsBytes(added, i + 1) + after;
      assert RecordsBytes(added, i) + after == RecordBytes(added[i]) + rest;
      assert IsLoose(RecordsBytes(added, i) + after, ByteOf(added[i].live), ByteOf(added[i].meta.isDir), added[i], rest);
      assert Fits(added[i], i, isUtf8);
      assert HasForm(RecordsBytes(added, i) + after, added[i], i, isUtf8, rest);
    } else {
      assert RecordsBytes(added, i) + after == after;
    }
  }

  /** The delta's own overlay, for any delta the event machine can reach. */
  lemma TheoremReachableOverlay(s: State, base: BaseStore, words: seq<bv8>, isUtf8: Name -> bool)
    requires IsStore(base) && Inv(s, base) && base.records <= PARENT_NONE
    requires |words| == WORD_BYTES * WordsFor(base.records) && Ones(words) == s.tombs
    requires forall i :: 0 <= i < |s.added| ==> var r := s.added[i];
      r.meta.mtimeSecs < U32 && r.meta.sizeBytes < U64 && |r.name| < U32 && isUtf8(r.name)
    ensures IsOverlay(Overlay(words, s.added), base.records, isUtf8)
  {
    forall k: nat | Bit(words, k) ensures k < base.records {
      assert k in Ones(words);
    }
    forall i | 0 <= i < |s.added| ensures Fits(s.added[i], i, isUtf8) {
      assert ParentNames(s, base, i);
    }
  }
}
