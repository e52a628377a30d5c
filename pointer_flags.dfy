/** The Win32 POINTER_FLAGS word and the two operations the pointer helpers
    apply to it: OR-ing bits in (`|=`) and AND-ing them out (`&= ~`). The
    constants are the values winuser.h gives them. */
module PointerFlags {

  type Flags = bv32

  const NONE: Flags := 0x0000_0000
  const NEW: Flags := 0x0000_0001
  const INRANGE: Flags := 0x0000_0002
  const INCONTACT: Flags := 0x0000_0004
  const PRIMARY: Flags := 0x0000_2000
  const CANCELED: Flags := 0x0000_8000
  const DOWN: Flags := 0x0001_0000
  const UPDATE: Flags := 0x0002_0000
  const UP: Flags := 0x0004_0000

  /** `word |= flags`: the bits of `flags` become set and every other bit keeps
      its value. */
  function SetBits(word: Flags, flags: Flags): Flags
  {
    word | flags
  }

  /** `word &= ~flags`: the bits of `flags` become clear and every other bit
      keeps its value. */
  function UnsetBits(word: Flags, flags: Flags): Flags
  {
    word & !flags
  }

  /** What each does to the bits of `flags` and to all other bits. */
  lemma SetBitsEffect(word: Flags, flags: Flags)
    ensures SetBits(word, flags) & flags == flags
    ensures SetBits(word, flags) & !flags == word & !flags
  {
  }

  lemma UnsetBitsEffect(word: Flags, flags: Flags)
    ensures UnsetBits(word, flags) & flags == 0
    ensures UnsetBits(word, flags) & !flags == word & !flags
  {
  }

  /** Those two effects pin the result down: any word with those
      properties is the one computed. */
  lemma SetBitsUnique(word: Flags, flags: Flags, r: Flags)
    requires r & flags == flags && r & !flags == word & !flags
    ensures r == SetBits(word, flags)
  {
  }

  lemma UnsetBitsUnique(word: Flags, flags: Flags, r: Flags)
    requires r & flags == 0 && r & !flags == word & !flags
    ensures r == UnsetBits(word, flags)
  {
  }

  lemma SetBitsIdempotent(word: Flags, flags: Flags)
    ensures SetBits(SetBits(word, flags), flags) == SetBits(word, flags)
  {
  }

  lemma UnsetBitsIdempotent(word: Flags, flags: Flags)
    ensures UnsetBits(UnsetBits(word, flags), flags) == UnsetBits(word, flags)
  {
  }

  /** Setting and then unsetting the same bits leaves them clear and the rest
      as they were. */
  lemma UnsetUndoesSet(word: Flags, flags: Flags)
    ensures UnsetBits(SetBits(word, flags), flags) == UnsetBits(word, flags)
    ensures word & flags == 0 ==> UnsetBits(SetBits(word, flags), flags) == word
  {
    SetBitsEffect(word, flags);
    assert UnsetBits(SetBits(word, flags), flags) == SetBits(word, flags) & !flags;
    if word & flags == 0 {
      assert word & !flags == word;
    }
  }

  /** On disjoint masks the order of a set and an unset does not matter. */
  lemma SetUnsetCommute(word: Flags, a: Flags, b: Flags)
    requires a & b == 0
    ensures UnsetBits(SetBits(word, a), b) == SetBits(UnsetBits(word, b), a)
  {
  }

  /** The seven flags the devices use are distinct single bits. */
  lemma StateBitsDisjoint()
    ensures INRANGE & INCONTACT == 0 && INRANGE & PRIMARY == 0 && INRANGE & CANCELED == 0
    ensures INRANGE & DOWN == 0 && INRANGE & UPDATE == 0 && INRANGE & UP == 0
    ensures INCONTACT & PRIMARY == 0 && INCONTACT & CANCELED == 0 && INCONTACT & DOWN == 0
    ensures INCONTACT & UPDATE == 0 && INCONTACT & UP == 0
    ensures PRIMARY & CANCELED == 0 && PRIMARY & DOWN == 0 && PRIMARY & UPDATE == 0 && PRIMARY & UP == 0
    ensures CANCELED & DOWN == 0 && CANCELED & UPDATE == 0 && CANCELED & UP == 0
    ensures DOWN & UPDATE == 0 && DOWN & UP == 0 && UPDATE & UP == 0
  {
  }
}
