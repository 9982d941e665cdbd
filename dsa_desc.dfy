/**
 * The fixed-layout accelerator descriptors of the DSA/ECDSA path: the header
 * word, the `sgf_ln` word, the protocol opcode and the six builders
 * (`constr_{dsa,ecdsa}_{sign,verify,keygen}_desc`) as functions from a buffer
 * set to the descriptor they write.
 *
 * The command and opcode constants and the sizes of the descriptor
 * structures come from headers that are not part of this model. They are
 * declared below without a value, so every fact proved here holds whatever
 * their values are; the facts that need them laid out apart say so through
 * the predicates `HeaderLayoutOk`, `OpcodeBitsOk` and the length-field
 * conditions.
 */
module DsaDesc {
  import opened Common
  import opened Buffers

  /** A shift amount that C can apply to a 32-bit word. */
  type Shift32 = s: bv32 | s < 32

  // header word
  const HDR_START_IDX_MASK: bv32
  const HDR_START_IDX_SHIFT: Shift32
  const HDR_DESCLEN_MASK: bv32
  const HDR_ONE: bv32

  // protocol operation word
  const CMD_OPERATION: bv32
  const OP_TYPE_UNI_PROTOCOL: bv32
  const OP_PCLID_DSASIGN: bv32
  const OP_PCLID_DSAVERIFY: bv32
  const OP_PCLID_PUBLICKEYPAIR: bv32
  const OP_PCL_PKPROT_ECC: bv32
  const OP_PCL_PKPROT_F2M: bv32

  // the extra commands of the sign descriptors
  const CMD_MOVE: bv32
  const MOVE_SRC_INFIFO: bv32
  const MOVE_DEST_OUTFIFO: bv32
  const CMD_JUMP: bv32
  const JUMP_COND_NOP: bv32
  const CMD_FIFO_LOAD: bv32
  const FIFOLD_CLASS_CLASS1: bv32
  const FIFOLD_TYPE_PK_TYPEMASK: bv32
  const CMD_FIFO_STORE: bv32
  const FIFOST_CONT_MASK: bv32
  const FIFOST_TYPE_MESSAGE_DATA: bv32

  /** The bits in which the MOVE, FIFO LOAD and FIFO STORE commands carry their byte count. */
  const CMD_LENGTH_FIELD: bv32

  // sizeof() of the six descriptor structures, in bytes
  const DSA_SIGN_DESC_BYTES: u32
  const ECDSA_SIGN_DESC_BYTES: u32
  const DSA_VERIFY_DESC_BYTES: u32
  const ECDSA_VERIFY_DESC_BYTES: u32
  const DSA_KEYGEN_DESC_BYTES: u32
  const ECDSA_KEYGEN_DESC_BYTES: u32

  /** Which protocol a descriptor asks for: plain DSA, or ECDSA over a prime or a binary field. */
  datatype Variant = DsaVariant | EcdsaVariant(eccBin: bool)

  // ---------------------------------------------------------------------
  // Header word
  // ---------------------------------------------------------------------

  /** The header fields do not overlap each other or the HDR_ONE tag, and the start-index field is not cut off by the shift. */
  predicate HeaderLayoutOk() {
    && (HDR_START_IDX_MASK << HDR_START_IDX_SHIFT) & HDR_DESCLEN_MASK == 0
    && HDR_ONE & (HDR_START_IDX_MASK << HDR_START_IDX_SHIFT) == 0
    && HDR_ONE & HDR_DESCLEN_MASK == 0
    && (HDR_START_IDX_MASK << HDR_START_IDX_SHIFT) >> HDR_START_IDX_SHIFT == HDR_START_IDX_MASK
  }

  /** The descriptor length the accelerator reads from a header word. */
  function HeaderLen(w: bv32): bv32 {
    w & HDR_DESCLEN_MASK
  }

  /** The start index the accelerator reads from a header word. */
  function HeaderStart(w: bv32): bv32 {
    (w & (HDR_START_IDX_MASK << HDR_START_IDX_SHIFT)) >> HDR_START_IDX_SHIFT
  }

  /**
   * The options word every builder hands to `init_job_desc`: the start index
   * masked and shifted into place, the descriptor length masked, and the
   * HDR_ONE tag. The tag is always set; when the fields are laid out apart,
   * reading the header back gives the packed length and start index (each
   * cut to its field).
   */
  function HeaderWord(descSize: bv32, startIdx: bv32): (w: bv32)
    ensures w & HDR_ONE == HDR_ONE
    ensures HeaderLayoutOk() ==> HeaderLen(w) == descSize & HDR_DESCLEN_MASK
    ensures HeaderLayoutOk() ==> HeaderStart(w) == startIdx & HDR_START_IDX_MASK
  {
    OneBitKept((startIdx & HDR_START_IDX_MASK) << HDR_START_IDX_SHIFT, descSize & HDR_DESCLEN_MASK, HDR_ONE);
    LenDecodes(descSize, startIdx);
    StartDecodes(descSize, startIdx);
    ((startIdx & HDR_START_IDX_MASK) << HDR_START_IDX_SHIFT) | (descSize & HDR_DESCLEN_MASK) | HDR_ONE
  }

  lemma LenDecodes(d: bv32, s: bv32)
    ensures HeaderLayoutOk() ==>
      HeaderLen(((s & HDR_START_IDX_MASK) << HDR_START_IDX_SHIFT) | (d & HDR_DESCLEN_MASK) | HDR_ONE) == d & HDR_DESCLEN_MASK
  {
    LenFieldKept(s, d, HDR_START_IDX_MASK, HDR_START_IDX_SHIFT, HDR_DESCLEN_MASK, HDR_ONE);
  }

  lemma StartDecodes(d: bv32, s: bv32)
    ensures HeaderLayoutOk() ==>
      HeaderStart(((s & HDR_START_IDX_MASK) << HDR_START_IDX_SHIFT) | (d & HDR_DESCLEN_MASK) | HDR_ONE) == s & HDR_START_IDX_MASK
  {
    if HeaderLayoutOk() {
      StartDecodesUnderLayout(s, d);
    }
  }

  lemma StartDecodesUnderLayout(s: bv32, d: bv32)
    requires (HDR_START_IDX_MASK << HDR_START_IDX_SHIFT) & HDR_DESCLEN_MASK == 0
    requires HDR_ONE & (HDR_START_IDX_MASK << HDR_START_IDX_SHIFT) == 0
    requires (HDR_START_IDX_MASK << HDR_START_IDX_SHIFT) >> HDR_START_IDX_SHIFT == HDR_START_IDX_MASK
    ensures ((((s & HDR_START_IDX_MASK) << HDR_START_IDX_SHIFT) | (d & HDR_DESCLEN_MASK) | HDR_ONE)
              & (HDR_START_IDX_MASK << HDR_START_IDX_SHIFT)) >> HDR_START_IDX_SHIFT == s & HDR_START_IDX_MASK
  {
    StartFieldRoundTrip(s, d, HDR_START_IDX_MASK, HDR_START_IDX_SHIFT, HDR_DESCLEN_MASK, HDR_ONE);
  }

  // Bit-level steps of the header round trip, over plain words.

  lemma StartFieldRoundTrip(s: bv32, d: bv32, m: bv32, sh: Shift32, len: bv32, one: bv32)
    requires (m << sh) & len == 0 && one & (m << sh) == 0 && (m << sh) >> sh == m
    ensures ((((s & m) << sh) | (d & len) | one) & (m << sh)) >> sh == s & m
  {
    StartFieldKept(s, d, m, sh, len, one);
    ShiftBack(s, m, sh);
  }

  lemma OneBitKept(a: bv32, b: bv32, one: bv32)
    ensures (a | b | one) & one == one
  {}

  lemma ShlAnd(a: bv32, b: bv32, sh: Shift32)
    ensures (a & b) << sh == (a << sh) & (b << sh)
  {}

  lemma LenFieldKept(s: bv32, d: bv32, mask: bv32, sh: Shift32, len: bv32, one: bv32)
    ensures (mask << sh) & len == 0 && one & len == 0 ==>
      (((s & mask) << sh) | (d & len) | one) & len == d & len
  {
    ShlAnd(s, mask, sh);
  }

  lemma StartFieldKept(s: bv32, d: bv32, mask: bv32, sh: Shift32, len: bv32, one: bv32)
    ensures (mask << sh) & len == 0 && one & (mask << sh) == 0 ==>
      (((s & mask) << sh) | (d & len) | one) & (mask << sh) == (s & mask) << sh
  {
    ShlAnd(s, mask, sh);
  }

  lemma ShiftBack(s: bv32, mask: bv32, sh: Shift32)
    ensures ((s & mask) << sh) >> sh == s & ((mask << sh) >> sh)
  {
    // a case split on the shift amount keeps each case a fixed wiring of bits
    if sh == 0 {} else if sh == 1 {} else if sh == 2 {} else if sh == 3 {}
    else if sh == 4 {} else if sh == 5 {} else if sh == 6 {} else if sh == 7 {}
    else if sh == 8 {} else if sh == 9 {} else if sh == 10 {} else if sh == 11 {}
    else if sh == 12 {} else if sh == 13 {} else if sh == 14 {} else if sh == 15 {}
    else if sh == 16 {} else if sh == 17 {} else if sh == 18 {} else if sh == 19 {}
    else if sh == 20 {} else if sh == 21 {} else if sh == 22 {} else if sh == 23 {}
    else if sh == 24 {} else if sh == 25 {} else if sh == 26 {} else if sh == 27 {}
    else if sh == 28 {} else if sh == 29 {} else if sh == 30 {}
  }

  /** `desc_size`: the structure size in 32-bit words. */
  function Words(bytes: u32): bv32 {
    (bytes / 4) as bv32
  }

  /** Execution of a sign descriptor starts 12 words before its end (the word arithmetic wraps, as the C does). */
  function SignStartIdx(descSize: bv32): bv32 { descSize - 12 }

  /** Execution of a verify or keygen descriptor starts at its last word. */
  function LastWordIdx(descSize: bv32): bv32 { descSize - 1 }

  // ---------------------------------------------------------------------
  // sgf_ln word
  // ---------------------------------------------------------------------

  /** `(q_len << 7) | r_len`, the length word every DSA/ECDSA descriptor carries. */
  function SgfLn(qLen: bv32, rLen: bv32): bv32 {
    (qLen << 7) | rLen
  }

  /** r_len sits in the low seven bits of `sgf_ln`, q_len above them. */
  function SgfLnR(w: bv32): bv32 { w & 0x7f }
  function SgfLnQ(w: bv32): bv32 { w >> 7 }

  /** Whenever r_len fits seven bits and q_len the 25 bits above them, both read back from `sgf_ln`. */
  lemma SgfLnRoundTrip(qLen: bv32, rLen: bv32)
    requires rLen < 0x80 && qLen < 0x200_0000
    ensures SgfLnR(SgfLn(qLen, rLen)) == rLen
    ensures SgfLnQ(SgfLn(qLen, rLen)) == qLen
  {
    SgfLnLow(qLen, rLen);
    SgfLnHigh(qLen, rLen);
  }

  /** A q_len too wide for its 25 bits loses its top bits in `sgf_ln`. */
  lemma SgfLnTruncatesQ(rLen: bv32)
    requires rLen < 0x80
    ensures SgfLnQ(SgfLn(0x200_0000, rLen)) == 0
  {
    SgfLnTopLost(rLen);
  }

  lemma SgfLnLow(qLen: bv32, rLen: bv32)
    requires rLen < 0x80
    ensures ((qLen << 7) | rLen) & 0x7f == rLen
  {}

  lemma SgfLnHigh(qLen: bv32, rLen: bv32)
    requires rLen < 0x80 && qLen < 0x200_0000
    ensures ((qLen << 7) | rLen) >> 7 == qLen
  {}

  lemma SgfLnTopLost(rLen: bv32)
    requires rLen < 0x80
    ensures ((0x200_0000 as bv32 << 7) | rLen) >> 7 == 0
  {}

  // ---------------------------------------------------------------------
  // Protocol operation word
  // ---------------------------------------------------------------------

  /** `CMD_OPERATION | OP_TYPE_UNI_PROTOCOL | pclid`, the part of the operation word every variant shares. */
  function BaseOp(pclid: bv32): bv32 {
    CMD_OPERATION | OP_TYPE_UNI_PROTOCOL | pclid
  }

  /** The two protocol-variant bits are set, apart from each other, and clear in the base operation word. */
  predicate VariantBitsFree(pclid: bv32) {
    && OP_PCL_PKPROT_ECC != 0 && OP_PCL_PKPROT_F2M != 0
    && OP_PCL_PKPROT_ECC & OP_PCL_PKPROT_F2M == 0
    && BaseOp(pclid) & (OP_PCL_PKPROT_ECC | OP_PCL_PKPROT_F2M) == 0
  }

  /**
   * The operation word of a builder: the base word for DSA, with
   * OP_PCL_PKPROT_ECC added for ECDSA, and OP_PCL_PKPROT_F2M added as well
   * when the curve is binary.
   */
  function ProtocolOp(pclid: bv32, ecdsa: bool, eccBin: bool): bv32 {
    if !ecdsa then BaseOp(pclid)
    else if eccBin then BaseOp(pclid) | OP_PCL_PKPROT_ECC | OP_PCL_PKPROT_F2M
    else BaseOp(pclid) | OP_PCL_PKPROT_ECC
  }

  /**
   * The accelerator can tell the variant from the operation word: the ECC
   * bit is set exactly for ECDSA and the F2M bit exactly for ECDSA over a
   * binary field.
   */
  lemma ProtocolOpVariant(pclid: bv32, ecdsa: bool, eccBin: bool)
    requires VariantBitsFree(pclid)
    ensures ProtocolOp(pclid, ecdsa, eccBin) & OP_PCL_PKPROT_ECC == OP_PCL_PKPROT_ECC <==> ecdsa
    ensures ProtocolOp(pclid, ecdsa, eccBin) & OP_PCL_PKPROT_F2M == OP_PCL_PKPROT_F2M <==> ecdsa && eccBin
  {
    NoVariantBitsForDsa(pclid, ecdsa, eccBin);
    EccBitForEcdsa(pclid, ecdsa, eccBin);
    NoF2mBitForPrime(pclid, ecdsa, eccBin);
    BothBitsForBinary(pclid, ecdsa, eccBin);
  }

  /** Every variant keeps the base operation word's bits. */
  lemma ProtocolOpKeepsBase(pclid: bv32, ecdsa: bool, eccBin: bool)
    ensures ProtocolOp(pclid, ecdsa, eccBin) & BaseOp(pclid) == BaseOp(pclid)
  {
    BaseKeptForDsa(pclid, ecdsa, eccBin);
    BaseKeptForPrime(pclid, ecdsa, eccBin);
    BaseKeptForBinary(pclid, ecdsa, eccBin);
  }

  // One case of the variant bits per lemma: each stays a small bit-level problem.

  lemma NoVariantBitsForDsa(pclid: bv32, ecdsa: bool, eccBin: bool)
    requires VariantBitsFree(pclid)
    ensures !ecdsa ==> ProtocolOp(pclid, ecdsa, eccBin) & OP_PCL_PKPROT_ECC != OP_PCL_PKPROT_ECC
    ensures !ecdsa ==> ProtocolOp(pclid, ecdsa, eccBin) & OP_PCL_PKPROT_F2M != OP_PCL_PKPROT_F2M
  {
    if !ecdsa {
      NeitherBitSet(BaseOp(pclid), OP_PCL_PKPROT_ECC, OP_PCL_PKPROT_F2M);
    }
  }

  lemma EccBitForEcdsa(pclid: bv32, ecdsa: bool, eccBin: bool)
    ensures ecdsa ==> ProtocolOp(pclid, ecdsa, eccBin) & OP_PCL_PKPROT_ECC == OP_PCL_PKPROT_ECC
  {
    if ecdsa && eccBin {
      FirstAddedBitSet(BaseOp(pclid), OP_PCL_PKPROT_ECC, OP_PCL_PKPROT_F2M);
    } else if ecdsa {
      AddedBitSet(BaseOp(pclid), OP_PCL_PKPROT_ECC);
    }
  }

  lemma NoF2mBitForPrime(pclid: bv32, ecdsa: bool, eccBin: bool)
    requires VariantBitsFree(pclid)
    ensures ecdsa && !eccBin ==> ProtocolOp(pclid, ecdsa, eccBin) & OP_PCL_PKPROT_F2M != OP_PCL_PKPROT_F2M
  {
    if ecdsa && !eccBin {
      PrimeOpF2mClear(pclid);
    }
  }

  lemma PrimeOpF2mClear(pclid: bv32)
    requires VariantBitsFree(pclid)
    ensures ProtocolOp(pclid, true, false) & OP_PCL_PKPROT_F2M != OP_PCL_PKPROT_F2M
  {
    OtherBitClear(BaseOp(pclid), OP_PCL_PKPROT_ECC, OP_PCL_PKPROT_F2M);
  }

  lemma BothBitsForBinary(pclid: bv32, ecdsa: bool, eccBin: bool)
    ensures ecdsa && eccBin ==> ProtocolOp(pclid, ecdsa, eccBin) & OP_PCL_PKPROT_F2M == OP_PCL_PKPROT_F2M
  {
    if ecdsa && eccBin {
      AddedBitSet(BaseOp(pclid) | OP_PCL_PKPROT_ECC, OP_PCL_PKPROT_F2M);
    }
  }

  lemma BaseKeptForDsa(pclid: bv32, ecdsa: bool, eccBin: bool)
    ensures !ecdsa ==> ProtocolOp(pclid, ecdsa, eccBin) & BaseOp(pclid) == BaseOp(pclid)
  {
    if !ecdsa {
      SelfAnd(BaseOp(pclid));
    }
  }

  lemma BaseKeptForPrime(pclid: bv32, ecdsa: bool, eccBin: bool)
    ensures ecdsa && !eccBin ==> ProtocolOp(pclid, ecdsa, eccBin) & BaseOp(pclid) == BaseOp(pclid)
  {
    if ecdsa && !eccBin {
      OrKeeps(BaseOp(pclid), OP_PCL_PKPROT_ECC);
    }
  }

  lemma BaseKeptForBinary(pclid: bv32, ecdsa: bool, eccBin: bool)
    ensures ecdsa && eccBin ==> ProtocolOp(pclid, ecdsa, eccBin) & BaseOp(pclid) == BaseOp(pclid)
  {
    if ecdsa && eccBin {
      OrKeeps2(BaseOp(pclid), OP_PCL_PKPROT_ECC, OP_PCL_PKPROT_F2M);
    }
  }

  lemma NeitherBitSet(base: bv32, e: bv32, f: bv32)
    requires base & (e | f) == 0 && e != 0 && f != 0
    ensures base & e != e && base & f != f
  {}

  lemma OtherBitClear(base: bv32, e: bv32, f: bv32)
    requires base & (e | f) == 0 && e & f == 0 && f != 0
    ensures (base | e) & f != f
  {}

  lemma AddedBitSet(base: bv32, e: bv32)
    ensures (base | e) & e == e
  {}

  lemma FirstAddedBitSet(base: bv32, e: bv32, f: bv32)
    ensures (base | e | f) & e == e
  {}

  lemma SelfAnd(a: bv32)
    ensures a & a == a
  {}

  lemma OrKeeps(a: bv32, b: bv32)
    ensures (a | b) & a == a
  {}

  lemma OrKeeps2(a: bv32, b: bv32, c: bv32)
    ensures (a | b | c) & a == a
  {}

  // ---------------------------------------------------------------------
  // The sign descriptor's command words
  // ---------------------------------------------------------------------

  /** One word of the sign descriptors' `op[]` array. */
  datatype OpSlot =
    | OpWord(w: bv32)         // a command word
    | OpAddr(addr: u64)       // a 64-bit device address written at this index
    | OpNotWritten            // an index the builder leaves as it found it

  /** `cmd | len`: a command carrying a byte count. */
  function WithLen(cmd: bv32, len: bv32): bv32 {
    cmd | len
  }

  /** The byte count the accelerator reads from a command word. */
  function CmdLen(w: bv32): bv32 { w & CMD_LENGTH_FIELD }

  /**
   * When the command's constant part leaves the length field clear and the
   * count fits it, the count reads back from the command word.
   */
  lemma WithLenRoundTrip(cmd: bv32, len: bv32)
    requires cmd & CMD_LENGTH_FIELD == 0 && len & CMD_LENGTH_FIELD == len
    ensures CmdLen(WithLen(cmd, len)) == len
  {
    LenReadBack(cmd, len, CMD_LENGTH_FIELD);
  }

  /** The command bits survive the count being added. */
  lemma WithLenKeepsCmd(cmd: bv32, len: bv32)
    ensures WithLen(cmd, len) & cmd == cmd
  {
    OrKeeps(cmd, len);
  }

  lemma LenReadBack(cmd: bv32, len: bv32, field: bv32)
    requires cmd & field == 0 && len & field == len
    ensures (cmd | len) & field == len
  {}

  function MoveCmd(): bv32 { CMD_MOVE | MOVE_SRC_INFIFO | MOVE_DEST_OUTFIFO }
  function FifoLoadCmd(): bv32 { CMD_FIFO_LOAD | FIFOLD_CLASS_CLASS1 | FIFOLD_TYPE_PK_TYPEMASK }
  function FifoStoreContCmd(): bv32 { CMD_FIFO_STORE | FIFOST_CONT_MASK | FIFOST_TYPE_MESSAGE_DATA }
  function FifoStoreLastCmd(): bv32 { CMD_FIFO_STORE | FIFOST_TYPE_MESSAGE_DATA }

  /** The four count-carrying commands leave the length field clear. */
  predicate LengthFieldClear() {
    && MoveCmd() & CMD_LENGTH_FIELD == 0
    && FifoLoadCmd() & CMD_LENGTH_FIELD == 0
    && FifoStoreContCmd() & CMD_LENGTH_FIELD == 0
    && FifoStoreLastCmd() & CMD_LENGTH_FIELD == 0
  }

  /**
   * `op[0..10]` of a sign descriptor: the DSASIGN operation, a MOVE of both
   * signature halves from the input FIFO to the output FIFO, a one-step
   * jump, a FIFO LOAD from the temporary buffer, then FIFO STOREs into the
   * c and d output buffers, the first one marked as continued. Indices 5
   * and 8 are not written.
   */
  function SignOps(rLen: bv32, tmp: u64, c: u64, d: u64, ecdsa: bool, eccBin: bool): (op: seq<OpSlot>)
    ensures |op| == 11
    ensures op[0] == OpWord(ProtocolOp(OP_PCLID_DSASIGN, ecdsa, eccBin))
    ensures op[4] == OpAddr(tmp) && op[7] == OpAddr(c) && op[10] == OpAddr(d)
    ensures op[5] == OpNotWritten && op[8] == OpNotWritten
    ensures op[1] == OpWord(WithLen(MoveCmd(), 2 * rLen)) && op[3] == OpWord(WithLen(FifoLoadCmd(), 2 * rLen))
    ensures op[6] == OpWord(WithLen(FifoStoreContCmd(), rLen)) && op[9] == OpWord(WithLen(FifoStoreLastCmd(), rLen))
  {
    [ OpWord(ProtocolOp(OP_PCLID_DSASIGN, ecdsa, eccBin)),
      OpWord(WithLen(MoveCmd(), 2 * rLen)),
      OpWord(CMD_JUMP | JUMP_COND_NOP | 1),
      OpWord(WithLen(FifoLoadCmd(), 2 * rLen)),
      OpAddr(tmp),
      OpNotWritten,
      OpWord(WithLen(FifoStoreContCmd(), rLen)),
      OpAddr(c),
      OpNotWritten,
      OpWord(WithLen(FifoStoreLastCmd(), rLen)),
      OpAddr(d) ]
  }

  /** Both signature halves (2 * r_len bytes) pass through the MOVE and the FIFO LOAD of a sign program. */
  lemma SignOpsLoadCount(rLen: bv32, tmp: u64, c: u64, d: u64, ecdsa: bool, eccBin: bool)
    requires LengthFieldClear() && (2 * rLen) & CMD_LENGTH_FIELD == 2 * rLen
    ensures CmdLen(SignOps(rLen, tmp, c, d, ecdsa, eccBin)[1].w) == 2 * rLen
    ensures CmdLen(SignOps(rLen, tmp, c, d, ecdsa, eccBin)[3].w) == 2 * rLen
  {
    var op := SignOps(rLen, tmp, c, d, ecdsa, eccBin);
    LoadCounts(2 * rLen);
    assert op[1].w == WithLen(MoveCmd(), 2 * rLen);
    assert op[3].w == WithLen(FifoLoadCmd(), 2 * rLen);
  }

  lemma LoadCounts(len: bv32)
    requires LengthFieldClear() && len & CMD_LENGTH_FIELD == len
    ensures CmdLen(WithLen(MoveCmd(), len)) == len
    ensures CmdLen(WithLen(FifoLoadCmd(), len)) == len
  {
    MoveCount(len);
    FifoLoadCount(len);
  }

  lemma MoveCount(len: bv32)
    requires MoveCmd() & CMD_LENGTH_FIELD == 0 && len & CMD_LENGTH_FIELD == len
    ensures CmdLen(WithLen(MoveCmd(), len)) == len
  {
    WithLenRoundTrip(MoveCmd(), len);
  }

  lemma FifoLoadCount(len: bv32)
    requires FifoLoadCmd() & CMD_LENGTH_FIELD == 0 && len & CMD_LENGTH_FIELD == len
    ensures CmdLen(WithLen(FifoLoadCmd(), len)) == len
  {
    WithLenRoundTrip(FifoLoadCmd(), len);
  }

  /** Each FIFO STORE of a sign program writes r_len bytes, one half of the signature. */
  lemma SignOpsStoreCount(rLen: bv32, tmp: u64, c: u64, d: u64, ecdsa: bool, eccBin: bool)
    requires LengthFieldClear() && rLen & CMD_LENGTH_FIELD == rLen
    ensures CmdLen(SignOps(rLen, tmp, c, d, ecdsa, eccBin)[6].w) == rLen
    ensures CmdLen(SignOps(rLen, tmp, c, d, ecdsa, eccBin)[9].w) == rLen
  {
    var op := SignOps(rLen, tmp, c, d, ecdsa, eccBin);
    StoreCounts(rLen);
    assert op[6].w == WithLen(FifoStoreContCmd(), rLen);
    assert op[9].w == WithLen(FifoStoreLastCmd(), rLen);
  }

  lemma StoreCounts(rLen: bv32)
    requires LengthFieldClear() && rLen & CMD_LENGTH_FIELD == rLen
    ensures CmdLen(WithLen(FifoStoreContCmd(), rLen)) == rLen
    ensures CmdLen(WithLen(FifoStoreLastCmd(), rLen)) == rLen
  {
    StoreContCount(rLen);
    StoreLastCount(rLen);
  }

  lemma StoreContCount(rLen: bv32)
    requires FifoStoreContCmd() & CMD_LENGTH_FIELD == 0 && rLen & CMD_LENGTH_FIELD == rLen
    ensures CmdLen(WithLen(FifoStoreContCmd(), rLen)) == rLen
  {
    WithLenRoundTrip(FifoStoreContCmd(), rLen);
  }

  lemma StoreLastCount(rLen: bv32)
    requires FifoStoreLastCmd() & CMD_LENGTH_FIELD == 0 && rLen & CMD_LENGTH_FIELD == rLen
    ensures CmdLen(WithLen(FifoStoreLastCmd(), rLen)) == rLen
  {
    WithLenRoundTrip(FifoStoreLastCmd(), rLen);
  }

  // ---------------------------------------------------------------------
  // Descriptors
  // ---------------------------------------------------------------------

  /**
   * The descriptor structures, field by field, as the values the builders
   * store (each is stored byte-swapped to big-endian). `ab` is present in the
   * ECDSA structures only. `Blank` is descriptor memory no builder has written.
   */
  datatype Descriptor =
    | Blank
    | SignDesc(hdr: bv32, q: u64, r: u64, g: u64, s: u64, f: u64, ab: Option<u64>,
               c: u64, d: u64, sgfLn: bv32, ops: seq<OpSlot>)
    | VerifyDesc(hdr: bv32, q: u64, r: u64, g: u64, w: u64, f: u64, ab: Option<u64>,
                 c: u64, d: u64, tmp: u64, sgfLn: bv32, op: bv32)
    | KeygenDesc(hdr: bv32, q: u64, r: u64, g: u64, s: u64, w: u64, ab: Option<u64>,
                 sgfLn: bv32, op: bv32)

  function SignDescBytes(ecdsa: bool): u32 {
    if ecdsa then ECDSA_SIGN_DESC_BYTES else DSA_SIGN_DESC_BYTES
  }
  function VerifyDescBytes(ecdsa: bool): u32 {
    if ecdsa then ECDSA_VERIFY_DESC_BYTES else DSA_VERIFY_DESC_BYTES
  }
  function KeygenDescBytes(ecdsa: bool): u32 {
    if ecdsa then ECDSA_KEYGEN_DESC_BYTES else DSA_KEYGEN_DESC_BYTES
  }

  /** The `ab` field: the curve parameter buffer's address, written by the ECDSA builders only. */
  function AbField(b: BufferInfo, v: Variant): (r: Option<u64>)
    ensures r.Some? <==> v.EcdsaVariant?
    ensures r.Some? ==> r.value == b.devAddr
  {
    if v.EcdsaVariant? then Some(b.devAddr) else None
  }

  function IsEcdsa(v: Variant): bool { v.EcdsaVariant? }
  function IsBinary(v: Variant): bool { v.EcdsaVariant? && v.eccBin }

  /**
   * `constr_dsa_sign_desc` / `constr_ecdsa_sign_desc`. Execution starts 12
   * words before the end. Both signature halves are placed in the one
   * temporary buffer: the first at its start, the second r_len bytes in.
   */
  function BuildSign(b: SignBuffers, v: Variant): (d: Descriptor)
    ensures d.SignDesc?
    ensures d.hdr == HeaderWord(Words(SignDescBytes(IsEcdsa(v))), SignStartIdx(Words(SignDescBytes(IsEcdsa(v)))))
    ensures d.c == b.tmp.devAddr && d.d == Wrap64(b.tmp.devAddr + b.r.len)
    ensures d.q == b.q.devAddr && d.r == b.r.devAddr && d.g == b.g.devAddr
    ensures d.s == b.privKey.devAddr && d.f == b.m.devAddr
    ensures d.ab == AbField(b.ab, v)
    ensures d.sgfLn == SgfLn(b.q.len as bv32, b.r.len as bv32)
    ensures d.ops == SignOps(b.r.len as bv32, b.tmp.devAddr, b.c.devAddr, b.d.devAddr, IsEcdsa(v), IsBinary(v))
  {
    var n := Words(SignDescBytes(IsEcdsa(v)));
    SignDesc(HeaderWord(n, SignStartIdx(n)),
             b.q.devAddr, b.r.devAddr, b.g.devAddr, b.privKey.devAddr, b.m.devAddr, AbField(b.ab, v),
             b.tmp.devAddr, Wrap64(b.tmp.devAddr + b.r.len),
             SgfLn(b.q.len as bv32, b.r.len as bv32),
             SignOps(b.r.len as bv32, b.tmp.devAddr, b.c.devAddr, b.d.devAddr, IsEcdsa(v), IsBinary(v)))
  }

  /** `constr_dsa_verify_desc` / `constr_ecdsa_verify_desc`. */
  function BuildVerify(b: VerifyBuffers, v: Variant): (d: Descriptor)
    ensures d.VerifyDesc?
    ensures d.hdr == HeaderWord(Words(VerifyDescBytes(IsEcdsa(v))), LastWordIdx(Words(VerifyDescBytes(IsEcdsa(v)))))
    ensures d.q == b.q.devAddr && d.r == b.r.devAddr && d.g == b.g.devAddr && d.w == b.pubKey.devAddr
    ensures d.f == b.m.devAddr && d.c == b.c.devAddr && d.d == b.d.devAddr && d.tmp == b.tmp.devAddr
    ensures d.ab == AbField(b.ab, v)
    ensures d.op == ProtocolOp(OP_PCLID_DSAVERIFY, IsEcdsa(v), IsBinary(v))
    ensures d.sgfLn == SgfLn(b.q.len as bv32, b.r.len as bv32)
  {
    var n := Words(VerifyDescBytes(IsEcdsa(v)));
    VerifyDesc(HeaderWord(n, LastWordIdx(n)),
               b.q.devAddr, b.r.devAddr, b.g.devAddr, b.pubKey.devAddr, b.m.devAddr, AbField(b.ab, v),
               b.c.devAddr, b.d.devAddr, b.tmp.devAddr,
               SgfLn(b.q.len as bv32, b.r.len as bv32), ProtocolOp(OP_PCLID_DSAVERIFY, IsEcdsa(v), IsBinary(v)))
  }

  /** `constr_dsa_keygen_desc` / `constr_ecdsa_keygen_desc`. */
  function BuildKeygen(b: KeygenBuffers, v: Variant): (d: Descriptor)
    ensures d.KeygenDesc?
    ensures d.hdr == HeaderWord(Words(KeygenDescBytes(IsEcdsa(v))), LastWordIdx(Words(KeygenDescBytes(IsEcdsa(v)))))
    ensures d.q == b.q.devAddr && d.r == b.r.devAddr && d.g == b.g.devAddr
    ensures d.s == b.prvkey.devAddr && d.w == b.pubkey.devAddr
    ensures d.ab == AbField(b.ab, v)
    ensures d.op == ProtocolOp(OP_PCLID_PUBLICKEYPAIR, IsEcdsa(v), IsBinary(v))
    ensures d.sgfLn == SgfLn(b.q.len as bv32, b.r.len as bv32)
  {
    var n := Words(KeygenDescBytes(IsEcdsa(v)));
    KeygenDesc(HeaderWord(n, LastWordIdx(n)),
               b.q.devAddr, b.r.devAddr, b.g.devAddr, b.prvkey.devAddr, b.pubkey.devAddr, AbField(b.ab, v),
               SgfLn(b.q.len as bv32, b.r.len as bv32), ProtocolOp(OP_PCLID_PUBLICKEYPAIR, IsEcdsa(v), IsBinary(v)))
  }

  // ---------------------------------------------------------------------
  // What the accelerator reads from a built descriptor
  // ---------------------------------------------------------------------

  /** A sign descriptor's header announces the descriptor's size in words. */
  lemma SignHeaderLen(b: SignBuffers, v: Variant)
    requires HeaderLayoutOk()
    ensures HeaderLen(BuildSign(b, v).hdr) == Words(SignDescBytes(IsEcdsa(v))) & HDR_DESCLEN_MASK
  {}

  /** A sign descriptor's header announces a start 12 words before its end. */
  lemma SignHeaderStart(b: SignBuffers, v: Variant)
    requires HeaderLayoutOk()
    ensures HeaderStart(BuildSign(b, v).hdr) == SignStartIdx(Words(SignDescBytes(IsEcdsa(v)))) & HDR_START_IDX_MASK
  {}

  /** A verify descriptor's header announces the descriptor's size in words. */
  lemma VerifyHeaderLen(b: VerifyBuffers, v: Variant)
    requires HeaderLayoutOk()
    ensures HeaderLen(BuildVerify(b, v).hdr) == Words(VerifyDescBytes(IsEcdsa(v))) & HDR_DESCLEN_MASK
  {}

  /** A verify descriptor's header announces a start at its last word. */
  lemma VerifyHeaderStart(b: VerifyBuffers, v: Variant)
    requires HeaderLayoutOk()
    ensures HeaderStart(BuildVerify(b, v).hdr) == LastWordIdx(Words(VerifyDescBytes(IsEcdsa(v)))) & HDR_START_IDX_MASK
  {}

  /** A keygen descriptor's header announces the descriptor's size in words. */
  lemma KeygenHeaderLen(b: KeygenBuffers, v: Variant)
    requires HeaderLayoutOk()
    ensures HeaderLen(BuildKeygen(b, v).hdr) == Words(KeygenDescBytes(IsEcdsa(v))) & HDR_DESCLEN_MASK
  {}

  /** A keygen descriptor's header announces a start at its last word. */
  lemma KeygenHeaderStart(b: KeygenBuffers, v: Variant)
    requires HeaderLayoutOk()
    ensures HeaderStart(BuildKeygen(b, v).hdr) == LastWordIdx(Words(KeygenDescBytes(IsEcdsa(v)))) & HDR_START_IDX_MASK
  {}

  /**
   * The variant a builder is asked for is the one its operation word names:
   * the ECC bit is set exactly for ECDSA, the F2M bit exactly for ECDSA over
   * a binary field.
   */
  lemma VariantNamedByOp(pclid: bv32, v: Variant)
    requires VariantBitsFree(pclid)
    ensures ProtocolOp(pclid, IsEcdsa(v), IsBinary(v)) & OP_PCL_PKPROT_ECC == OP_PCL_PKPROT_ECC <==> v.EcdsaVariant?
    ensures ProtocolOp(pclid, IsEcdsa(v), IsBinary(v)) & OP_PCL_PKPROT_F2M == OP_PCL_PKPROT_F2M <==> v == EcdsaVariant(true)
  {
    ProtocolOpVariant(pclid, IsEcdsa(v), IsBinary(v));
  }
}
