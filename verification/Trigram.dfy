/** The trigram-to-block presence matrix and its candidate blocks (trigram.rs, arena.rs). */
module Trigram {
  import opened Ascii
  import opened Bits

  const TRIGRAM_ROWS: nat := 16384
  const TRIGRAM_BLOCK: nat := 1024

  /** A wrapping 32-bit multiplication, shifted right by 18 and cut to 14 bits. */
  function HashKey(k: nat): (h: nat)
    ensures h < TRIGRAM_ROWS
  {
    k * 2_654_435_761 % 0x1_0000_0000 / 0x4_0000 % 16384
  }

  /** Maps three folded bytes into the 14-bit row space. */
  function TrigramHash(a: Byte, b: Byte, c: Byte): nat {
    HashKey(Lower(a) * 0x1_0000 + Lower(b) * 0x100 + Lower(c))
  }

  function HashAt(name: Name, k: nat): nat
    requires k + 2 < |name|
  {
    TrigramHash(name[k], name[k + 1], name[k + 2])
  }

  ghost predicate HasTrigram(name: Name, h: nat) {
    exists k: nat :: k + 2 < |name| && HashAt(name, k) == h
  }

  function NumBlocks(records: nat): nat {
    (records + TRIGRAM_BLOCK - 1) / TRIGRAM_BLOCK
  }

  function RowBytes(blocks: nat): nat {
    BytesFor(blocks)
  }

  /** Bit number of row `h`, block `block` in the flat matrix. */
  function Cell(rowLen: nat, h: nat, block: nat): nat {
    8 * (h * rowLen) + block
  }

  lemma CellsApart(rowLen: nat, h: nat, block: nat, h': nat, block': nat)
    requires block < 8 * rowLen && block' < 8 * rowLen
    ensures Cell(rowLen, h, block) == Cell(rowLen, h', block') <==> h == h' && block == block'
    ensures Cell(rowLen, h, block) / 8 == h * rowLen + block / 8
    ensures h < TRIGRAM_ROWS ==> Cell(rowLen, h, block) / 8 < TRIGRAM_ROWS * rowLen
  {
    if h < h' {
      RowsInOrder(h + 1, h', rowLen);
    } else if h' < h {
      RowsInOrder(h' + 1, h, rowLen);
    }
    if h < TRIGRAM_ROWS {
      RowsInOrder(h + 1, TRIGRAM_ROWS, rowLen);
    }
  }

  lemma RowsInOrder(h: nat, h': nat, rowLen: nat)
    requires h <= h'
    ensures h * rowLen <= h' * rowLen
    ensures h > 0 ==> h * rowLen == (h - 1) * rowLen + rowLen
  {
    assert h' * rowLen == h * rowLen + (h' - h) * rowLen;
  }

  ghost predicate InBlock(names: seq<Name>, block: nat, h: nat) {
    exists i: nat :: i < |names| && i / TRIGRAM_BLOCK == block && HasTrigram(names[i], h)
  }

  /** The matrix marks exactly the blocks that hold a name with the trigram. */
  ghost predicate Marks(matrix: seq<bv8>, rowLen: nat, names: seq<Name>) {
    && |matrix| == TRIGRAM_ROWS * rowLen
    && forall h: nat, block: nat :: h < TRIGRAM_ROWS && block < 8 * rowLen ==>
      (Bit(matrix, Cell(rowLen, h, block)) <==> InBlock(names, block, h))
  }

  /** index_trigrams: sets the bit of every trigram of one name; a small index has no matrix to mark. */
  method IndexTrigrams(index: nat, name: Name, matrix: array<bv8>, rowLen: nat, ghost names: seq<Name>)
    requires matrix.Length > 0 ==>
      index == |names| && index / TRIGRAM_BLOCK < 8 * rowLen && Marks(matrix[..], rowLen, names)
    modifies matrix
    ensures matrix.Length > 0 ==> Marks(matrix[..], rowLen, names + [name])
  {
    if matrix.Length == 0 {
      return;
    }
    hide TrigramHash, Bit, Cell, HasTrigram, InBlock;
    var block := index / TRIGRAM_BLOCK;
    var k := 0;
    ghost var was := matrix[..];
    while k + 2 < |name|
      invariant forall c: nat :: Bit(matrix[..], c) <==> Bit(was, c) || Added(name, k, rowLen, block, c)
      decreases |name| - k
    {
      var h := TrigramHash(name[k], name[k + 1], name[k + 2]);
      assert h == HashAt(name, k);
      HashInRange(name, k);
      CellsApart(rowLen, h, block, h, block);
      ghost var before := matrix[..];
      SetBit(matrix, Cell(rowLen, h, block));
      k := k + 1;
    }
    forall h: nat, b: nat | h < TRIGRAM_ROWS && b < 8 * rowLen
      ensures Bit(matrix[..], Cell(rowLen, h, b)) <==> InBlock(names + [name], b, h)
    {
      OneMoreName(names, name, b, h);
      AddedIsTrigram(name, k, rowLen, block, h, b);
    }
  }

  /** Cell `c` belongs to one of the first `upto` trigrams of `name`. */
  ghost predicate Added(name: Name, upto: nat, rowLen: nat, block: nat, c: nat) {
    exists j: nat :: j < upto && j + 2 < |name| && Cell(rowLen, HashAt(name, j), block) == c
  }

  lemma AddedIsTrigram(name: Name, upto: nat, rowLen: nat, block: nat, h: nat, b: nat)
    requires upto + 2 >= |name| && block < 8 * rowLen && b < 8 * rowLen
    ensures Added(name, upto, rowLen, block, Cell(rowLen, h, b)) <==> b == block && HasTrigram(name, h)
  {
    hide Cell, TrigramHash;
    if j: nat :| j < upto && j + 2 < |name| && Cell(rowLen, HashAt(name, j), block) == Cell(rowLen, h, b) {
      CellsApart(rowLen, HashAt(name, j), block, h, b);
    }
    if b == block && HasTrigram(name, h) {
      var k: nat :| k + 2 < |name| && HashAt(name, k) == h;
      assert Cell(rowLen, HashAt(name, k), block) == Cell(rowLen, h, b);
    }
  }

  lemma OneMoreName(names: seq<Name>, name: Name, block: nat, h: nat)
    ensures InBlock(names + [name], block, h) <==>
      InBlock(names, block, h) || (block == |names| / TRIGRAM_BLOCK && HasTrigram(name, h))
  {
    hide HasTrigram;
    var all := names + [name];
    assert all[|names|] == name;
    if i: nat :| i < |names| && i / TRIGRAM_BLOCK == block && HasTrigram(names[i], h) {
      assert all[i] == names[i];
    }
    if i: nat :| i < |all| && i / TRIGRAM_BLOCK == block && HasTrigram(all[i], h) {
      assert i < |names| ==> all[i] == names[i];
    }
  }

  /** Small indexes have no matrix; otherwise every name is indexed in order. */
  method BuildMatrix(names: seq<Name>) returns (matrix: seq<bv8>)
    ensures |names| < TRIGRAM_BLOCK ==> matrix == []
    ensures |names| >= TRIGRAM_BLOCK ==> matrix != [] && Marks(matrix, RowBytes(NumBlocks(|names|)), names)
  {
    hide Bit, Marks;
    if |names| < TRIGRAM_BLOCK {
      return [];
    }
    var rowLen := RowBytes(NumBlocks(|names|));
    var bits := new bv8[TRIGRAM_ROWS * rowLen](_ => 0);
    NothingMarked(bits[..], rowLen);
    assert names[..0] == [];
    for i := 0 to |names|
      invariant Marks(bits[..], rowLen, names[..i])
    {
      IndexTrigrams(i, names[i], bits, rowLen, names[..i]);
      assert names[..i + 1] == names[..i] + [names[i]];
    }
    assert names[..|names|] == names;
    matrix := bits[..];
  }

  lemma NothingMarked(matrix: seq<bv8>, rowLen: nat)
    requires |matrix| == TRIGRAM_ROWS * rowLen && forall i :: 0 <= i < |matrix| ==> matrix[i] == 0
    ensures Marks(matrix, rowLen, [])
  {
    hide Cell;
  }

  // ---- candidate blocks --------------------------------------------------------------

  /** The bytes of row `h`. */
  function Row(matrix: seq<bv8>, rowLen: nat, h: nat): seq<bv8>
    requires |matrix| == TRIGRAM_ROWS * rowLen && h < TRIGRAM_ROWS
  {
    RowFits(rowLen, h);
    matrix[h * rowLen..(h + 1) * rowLen]
  }

  lemma RowFits(rowLen: nat, h: nat)
    requires h < TRIGRAM_ROWS
    ensures h * rowLen <= (h + 1) * rowLen == h * rowLen + rowLen <= TRIGRAM_ROWS * rowLen
  {
    RowsInOrder(h + 1, TRIGRAM_ROWS, rowLen);
  }

  lemma RowBit(matrix: seq<bv8>, rowLen: nat, h: nat, block: nat)
    requires |matrix| == TRIGRAM_ROWS * rowLen && h < TRIGRAM_ROWS && block < 8 * rowLen
    ensures |Row(matrix, rowLen, h)| == rowLen
    ensures Bit(Row(matrix, rowLen, h), block) <==> Bit(matrix, Cell(rowLen, h, block))
  {
    RowFits(rowLen, h);
    CellsApart(rowLen, h, block, h, block);
    assert Cell(rowLen, h, block) % 8 == block % 8;
    hide ByteBit;
  }

  lemma AndByte(a: bv8, b: bv8, k: nat)
    requires k < 8
    ensures ByteBit(a & b, k) <==> ByteBit(a, k) && ByteBit(b, k)
    ensures ByteBit(a | b, k) <==> ByteBit(a, k) || ByteBit(b, k)
    ensures ByteBit(255, k) && !ByteBit(0, k)
  {
  }

  /** and_into, byte by byte. */
  method AndInto(dst: array<bv8>, src: seq<bv8>)
    requires dst.Length == |src|
    modifies dst
    ensures forall k: nat :: Bit(dst[..], k) <==> Bit(old(dst[..]), k) && Bit(src, k)
  {
    hide ByteBit;
    ghost var was := dst[..];
    for i := 0 to dst.Length
      invariant forall j :: 0 <= j < i ==> dst[j] == was[j] & src[j]
      invariant forall j :: i <= j < dst.Length ==> dst[j] == was[j]
    {
      dst[i] := dst[i] & src[i];
    }
    forall k: nat ensures Bit(dst[..], k) <==> Bit(was, k) && Bit(src, k) {
      if k / 8 < dst.Length {
        AndByte(was[k / 8], src[k / 8], k % 8);
      }
    }
  }

  /** or_into, byte by byte. */
  method OrInto(dst: array<bv8>, src: seq<bv8>)
    requires dst.Length == |src|
    modifies dst
    ensures forall k: nat :: Bit(dst[..], k) <==> Bit(old(dst[..]), k) || Bit(src, k)
  {
    hide ByteBit;
    ghost var was := dst[..];
    for i := 0 to dst.Length
      invariant forall j :: 0 <= j < i ==> dst[j] == was[j] | src[j]
      invariant forall j :: i <= j < dst.Length ==> dst[j] == was[j]
    {
      dst[i] := dst[i] | src[i];
    }
    forall k: nat ensures Bit(dst[..], k) <==> Bit(was, k) || Bit(src, k) {
      if k / 8 < dst.Length {
        AndByte(was[k / 8], src[k / 8], k % 8);
      }
    }
  }

  lemma Filled(bytes: seq<bv8>, b: bv8)
    requires b == 0 || b == 255
    requires forall i :: 0 <= i < |bytes| ==> bytes[i] == b
    ensures forall k: nat :: Bit(bytes, k) <==> b == 255 && k < 8 * |bytes|
  {
    forall k: nat ensures Bit(bytes, k) <==> b == 255 && k < 8 * |bytes| {
      if k / 8 < |bytes| {
        AndByte(b, b, k % 8);
      }
    }
  }

  lemma RowBits(matrix: seq<bv8>, rowLen: nat, h: nat, names: seq<Name>)
    requires Marks(matrix, rowLen, names) && h < TRIGRAM_ROWS
    ensures |Row(matrix, rowLen, h)| == rowLen
    ensures forall block: nat :: block < 8 * rowLen ==>
      (Bit(Row(matrix, rowLen, h), block) <==> InBlock(names, block, h))
  {
    hide Bit, Cell, InBlock;
    RowFits(rowLen, h);
    forall block: nat | block < 8 * rowLen
      ensures Bit(Row(matrix, rowLen, h), block) <==> InBlock(names, block, h)
    {
      RowBit(matrix, rowLen, h, block);
    }
  }

  /** ANDs the rows of all trigrams of `literal` into `bits`. */
  method AndTrigrams(literal: Name, bits: array<bv8>, matrix: seq<bv8>, rowLen: nat, ghost names: seq<Name>)
    requires Marks(matrix, rowLen, names) && bits.Length == rowLen
    requires forall block: nat :: block < 8 * rowLen ==> Bit(bits[..], block)
    modifies bits
    ensures forall block: nat :: block < 8 * rowLen ==> (Bit(bits[..], block) <==> Possible(names, literal, block))
  {
    hide TrigramHash, Bit, Cell, InBlock, Row;
    var k := 0;
    while k + 2 < |literal|
      invariant forall block: nat :: block < 8 * rowLen ==>
        (Bit(bits[..], block) <==> PossibleUpTo(names, literal, block, k))
      decreases |literal| - k
    {
      var h := HashAt(literal, k);
      HashInRange(literal, k);
      RowBits(matrix, rowLen, h, names);
      hide Marks, HashAt;
      AndInto(bits, Row(matrix, rowLen, h));
      k := k + 1;
    }
  }

  lemma HashInRange(name: Name, k: nat)
    requires k + 2 < |name|
    ensures HashAt(name, k) < TRIGRAM_ROWS
  {
  }

  ghost predicate PossibleUpTo(names: seq<Name>, literal: Name, block: nat, upto: nat) {
    forall j: nat :: j < upto && j + 2 < |literal| ==> InBlock(names, block, HashAt(literal, j))
  }

  /** Every trigram of `literal` occurs somewhere in the block. */
  ghost predicate Possible(names: seq<Name>, literal: Name, block: nat) {
    forall j: nat :: j + 2 < |literal| ==> InBlock(names, block, HashAt(literal, j))
  }

  /** A name that contains a lowercase literal has every one of its trigrams. */
  lemma ContainingIsPossible(names: seq<Name>, literal: Name, i: nat)
    requires i < |names| && Contains(names[i], literal)
    ensures Possible(names, literal, i / TRIGRAM_BLOCK)
  {
    hide HashAt;
    var at :| 0 <= at <= |names[i]| && MatchesAt(names[i], literal, at);
    forall j: nat | j + 2 < |literal| ensures InBlock(names, i / TRIGRAM_BLOCK, HashAt(literal, j)) {
      SameHash(names[i], literal, at, j);
      assert HasTrigram(names[i], HashAt(literal, j));
    }
  }

  lemma SameHash(name: Name, literal: Name, at: nat, j: nat)
    requires MatchesAt(name, literal, at) && j + 2 < |literal|
    ensures at + j + 2 < |name| && HashAt(name, at + j) == HashAt(literal, j)
  {
    hide HashKey;
    assert Lower(name[at + j]) == literal[j] && Lower(name[at + (j + 1)]) == literal[j + 1]
      && Lower(name[at + (j + 2)]) == literal[j + 2];
  }

  /** The set bits below `blocks`, ascending. */
  function SetBlocks(bits: seq<bv8>, blocks: nat): (out: seq<nat>)
    ensures forall b: nat :: b in out <==> b < blocks && Bit(bits, b)
    ensures forall i :: 0 <= i < |out| ==> out[i] < blocks
    ensures forall i, j :: 0 <= i < j < |out| ==> out[i] < out[j]
  {
    if blocks == 0 then []
    else if Bit(bits, blocks - 1) then SetBlocks(bits, blocks - 1) + [blocks - 1]
    else SetBlocks(bits, blocks - 1)
  }

  /** candidate_blocks: the blocks whose every needed trigram row is set, or nothing to filter with. */
  method CandidateBlocks(needleLower: Name, matrix: seq<bv8>, n: nat, ghost names: seq<Name>)
    returns (filtered: bool, output: seq<nat>)
    requires n == |names| && (matrix != [] ==> Marks(matrix, RowBytes(NumBlocks(n)), names))
    ensures filtered <==> |needleLower| >= 3 && matrix != []
    ensures filtered ==> forall b: nat :: b in output <==> b < NumBlocks(n) && Possible(names, needleLower, b)
    ensures forall i, j :: 0 <= i < j < |output| ==> output[i] < output[j]
  {
    hide Bit, Marks, Possible;
    output := [];
    if |needleLower| < 3 || matrix == [] {
      return false, [];
    }
    var blocks := NumBlocks(n);
    var candidates := new bv8[RowBytes(blocks)](_ => 255);
    Filled(candidates[..], 255);
    AndTrigrams(needleLower, candidates, matrix, RowBytes(blocks), names);
    assert blocks <= 8 * RowBytes(blocks);
    return true, SetBlocks(candidates[..], blocks);
  }

  type Clause = seq<Name>

  /** Some literal of the clause is possible in the block. */
  ghost predicate ClausePossible(names: seq<Name>, clause: Clause, upto: nat, block: nat) {
    exists i :: 0 <= i < upto && i < |clause| && Possible(names, clause[i], block)
  }

  ghost predicate AllPossible(names: seq<Name>, clauses: seq<Clause>, upto: nat, block: nat) {
    forall c :: 0 <= c < upto && c < |clauses| ==> ClausePossible(names, clauses[c], |clauses[c]|, block)
  }

  /** The OR of one clause's literals. */
  method ClauseBits(clause: Clause, matrix: seq<bv8>, rowLen: nat, ghost names: seq<Name>) returns (ok: bool, bits: seq<bv8>)
    requires Marks(matrix, rowLen, names)
    ensures ok <==> forall i :: 0 <= i < |clause| ==> |clause[i]| >= 3
    ensures ok ==> |bits| == rowLen && forall block: nat :: block < 8 * rowLen ==>
      (Bit(bits, block) <==> ClausePossible(names, clause, |clause|, block))
  {
    hide Bit, Marks, Possible;
    var clauseBits := new bv8[rowLen](_ => 0);
    Filled(clauseBits[..], 0);
    for i := 0 to |clause|
      invariant forall k :: 0 <= k < i ==> |clause[k]| >= 3
      invariant forall block: nat :: block < 8 * rowLen ==>
        (Bit(clauseBits[..], block) <==> ClausePossible(names, clause, i, block))
    {
      if |clause[i]| < 3 {
        return false, [];
      }
      var literalBits := new bv8[rowLen](_ => 255);
      Filled(literalBits[..], 255);
      AndTrigrams(clause[i], literalBits, matrix, rowLen, names);
      ghost var was := clauseBits[..];
      OrInto(clauseBits, literalBits[..]);
      forall block: nat | block < 8 * rowLen
        ensures Bit(clauseBits[..], block) <==> ClausePossible(names, clause, i + 1, block)
      {
        OneMoreLiteral(names, clause, i, block);
      }
    }
    return true, clauseBits[..];
  }

  lemma OneMoreLiteral(names: seq<Name>, clause: Clause, i: nat, block: nat)
    requires i < |clause|
    ensures ClausePossible(names, clause, i + 1, block) <==>
      ClausePossible(names, clause, i, block) || Possible(names, clause[i], block)
  {
    hide Possible;
  }

  ghost predicate LongLiterals(clauses: seq<Clause>) {
    forall c, i :: 0 <= c < |clauses| && 0 <= i < |clauses[c]| ==> |clauses[c][i]| >= 3
  }

  /** candidate_blocks_for_clauses: an AND of ORs, evaluated on the rows. */
  method CandidateBlocksForClauses(clauses: seq<Clause>, matrix: seq<bv8>, n: nat, ghost names: seq<Name>)
    returns (filtered: bool, output: seq<nat>)
    requires n == |names| && (matrix != [] ==> Marks(matrix, RowBytes(NumBlocks(n)), names))
    ensures filtered <==> clauses != [] && matrix != [] && LongLiterals(clauses)
    ensures filtered ==> forall b: nat :: b in output <==> b < NumBlocks(n) && AllPossible(names, clauses, |clauses|, b)
    ensures forall i, j :: 0 <= i < j < |output| ==> output[i] < output[j]
  {
    hide Bit, Marks, Possible, ClausePossible;
    output := [];
    if clauses == [] || matrix == [] {
      return false, [];
    }
    var blocks := NumBlocks(n);
    var rowLen := RowBytes(blocks);
    var candidates := new bv8[rowLen](_ => 255);
    Filled(candidates[..], 255);
    for c := 0 to |clauses|
      invariant forall k, i :: 0 <= k < c && 0 <= i < |clauses[k]| ==> |clauses[k][i]| >= 3
      invariant forall block: nat :: block < 8 * rowLen ==>
        (Bit(candidates[..], block) <==> AllPossible(names, clauses, c, block))
    {
      var ok, bits := ClauseBits(clauses[c], matrix, rowLen, names);
      if !ok {
        return false, [];
      }
      AndInto(candidates, bits);
    }
    assert blocks <= 8 * rowLen;
    return true, SetBlocks(candidates[..], blocks);
  }
}
