/** Packed parent words and the constants shared by every column (record.rs). */
module Records {

  datatype Option<+T> = None | Some(value: T)

  /** A 32-bit word of the parent column. */
  type Word = w: nat | w < 0x1_0000_0000

  const DIR_BIT: nat := 0x8000_0000

  /** "No parent"; also the capacity bound of an arena. */
  const PARENT_NONE: nat := 0x7FFF_FFFF

  const BUCKET_SIZE: nat := 32

  /** An entry of the FRN sidecar (frnmap.rs). */
  datatype FrnEntry = FrnEntry(frn: nat, index: nat)

  function PackParent(parent: nat, isDir: bool): Word
    requires parent <= PARENT_NONE
  {
    (if isDir then DIR_BIT else 0) + parent
  }

  /** Clearing bit 31 of a 32-bit word keeps its value below 2^31. */
  function UnpackParent(word: Word): nat {
    word % DIR_BIT
  }

  predicate WordIsDir(word: Word) {
    word >= DIR_BIT
  }
}
