/** The size macros of secure objects and of the containers wrapped in them, with C's arithmetic. */
module SecureObject {
  const TWO_32 := 0x1_0000_0000
  const HEADER_SIZE := 44
  const PAYLOAD_MAX_SIZE := 1_000_000
  const ENCRYPT_BLOCK_SIZE := 16
  const HASH_SIZE := 32
  const SO22_HASH_SIZE := 32
  const SO22_RND_SIZE := 16

  type Word = n: int | 0 <= n < TWO_32

  /** Unsigned 32-bit arithmetic, for uint32_t and for a 32-bit size_t. */
  function Wrap(n: int): (w: Word)
    ensures 0 <= n < TWO_32 ==> w == n
    ensures -TWO_32 <= n < 0 ==> w == n + TWO_32
    ensures TWO_32 <= n < 2 * TWO_32 ==> w == n - TWO_32
  {
    n % TWO_32
  }

  /** MC_SO_ENCRYPT_PADDED_SIZE_F21. */
  function PaddedSize(netSize: Word): Word {
    Wrap(Wrap(netSize + ENCRYPT_BLOCK_SIZE) - netSize % ENCRYPT_BLOCK_SIZE)
  }

  /** The guard both size macros share. */
  predicate Illegal(plainLen: Word, encryptedLen: Word) {
    Wrap(plainLen + encryptedLen) < encryptedLen
    || Wrap(plainLen + encryptedLen) > PAYLOAD_MAX_SIZE
  }

  /** MC_SO_SIZE_F22, which is MC_SO_SIZE. */
  function Size22(plainLen: Word, encryptedLen: Word): Word {
    if Illegal(plainLen, encryptedLen) then 0
    else Wrap(Wrap(Wrap(Wrap(HEADER_SIZE + plainLen) + encryptedLen) + SO22_HASH_SIZE)
              + SO22_RND_SIZE)
  }

  /** MC_SO_SIZE_F21. */
  function Size21(plainLen: Word, encryptedLen: Word): Word {
    if Illegal(plainLen, encryptedLen) then 0
    else Wrap(Wrap(HEADER_SIZE + plainLen) + PaddedSize(Wrap(encryptedLen + HASH_SIZE)))
  }

  /** The two comparisons of wrapped sums reject exactly the true sums above the maximum. */
  lemma GuardIsExact(plainLen: Word, encryptedLen: Word)
    ensures Illegal(plainLen, encryptedLen) <==> plainLen + encryptedLen > PAYLOAD_MAX_SIZE
  {
    if plainLen + encryptedLen >= TWO_32 {
      assert Wrap(plainLen + encryptedLen) == plainLen + encryptedLen - TWO_32;
    }
  }

  /** Padding goes to the next multiple of the block size, and always adds something. */
  lemma PaddingIsNextBlock(netSize: Word)
    requires netSize + ENCRYPT_BLOCK_SIZE < TWO_32
    ensures PaddedSize(netSize) % ENCRYPT_BLOCK_SIZE == 0
    ensures netSize < PaddedSize(netSize) <= netSize + ENCRYPT_BLOCK_SIZE
  {}

  /** For all 32-bit lengths: nonzero exactly within the maximum, and then the true sum. */
  lemma SizeIsExact(plainLen: Word, encryptedLen: Word)
    ensures Size22(plainLen, encryptedLen) != 0 <==> plainLen + encryptedLen <= PAYLOAD_MAX_SIZE
    ensures Size22(plainLen, encryptedLen) != 0 ==>
      Size22(plainLen, encryptedLen) == HEADER_SIZE + plainLen + encryptedLen + SO22_HASH_SIZE + SO22_RND_SIZE
  {
    GuardIsExact(plainLen, encryptedLen);
  }

  lemma OldSizeIsExact(plainLen: Word, encryptedLen: Word)
    requires plainLen + encryptedLen <= PAYLOAD_MAX_SIZE
    ensures Size21(plainLen, encryptedLen) == HEADER_SIZE + plainLen + PaddedSize(encryptedLen + HASH_SIZE)
  {
    GuardIsExact(plainLen, encryptedLen);
    PaddingIsNextBlock(encryptedLen + HASH_SIZE);
  }

  /** The v2.1 form is legal for the same lengths and always fits a buffer of the v2.2 size. */
  lemma OldFormFits(plainLen: Word, encryptedLen: Word)
    ensures Size21(plainLen, encryptedLen) != 0 <==> Size22(plainLen, encryptedLen) != 0
    ensures Size21(plainLen, encryptedLen) <= Size22(plainLen, encryptedLen)
    ensures Size21(plainLen, encryptedLen) != 0 ==>
      HEADER_SIZE + plainLen + encryptedLen + HASH_SIZE < Size21(plainLen, encryptedLen)
  {
    SizeIsExact(plainLen, encryptedLen);
    if plainLen + encryptedLen <= PAYLOAD_MAX_SIZE {
      OldSizeIsExact(plainLen, encryptedLen);
      PaddingIsNextBlock(encryptedLen + HASH_SIZE);
    } else {
      GuardIsExact(plainLen, encryptedLen);
    }
  }

  function Max(a: int, b: int): int { if a < b then b else a }

  /** SO_CONT_HASH_AND_PAD_SIZE. */
  function HashAndPadSize(total: Word, co: Word): Word {
    var plain := Wrap(total - co);
    Max(Wrap(Size21(plain, co) - HEADER_SIZE - total), Wrap(Size22(plain, co) - HEADER_SIZE - total))
  }

  /** The one illegal total for which 0 - header - total wraps round to the right answer. */
  const LUCKY_TOTAL: Word := TWO_32 - HEADER_SIZE - SO22_HASH_SIZE - SO22_RND_SIZE

  /** 48 bytes for every legal container, and for no other sizes but one that wraps to it. */
  lemma HashAndPadIs48(total: Word, co: Word)
    ensures HashAndPadSize(total, co) == SO22_HASH_SIZE + SO22_RND_SIZE
            <==> (co <= total <= PAYLOAD_MAX_SIZE || total == LUCKY_TOTAL)
  {
    var plain := Wrap(total - co);
    OldFormFits(plain, co);
    SizeIsExact(plain, co);
  }
}
