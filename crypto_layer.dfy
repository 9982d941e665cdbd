/**
 * The shared host/accelerator protocol definitions: the device bring-up
 * (handshake) states and commands, the ring-configuration bit fields and the
 * request/response ring entries.
 */
module CryptoLayer {
  import opened Common
  import opened ByteOrder

  /** Size of the static ring table of a device configuration. */
  const FSL_CRYPTO_MAX_RING_PAIRS: nat := 6

  // ---------------------------------------------------------------------
  // Handshake states
  // ---------------------------------------------------------------------

  /** `handshake_state_t`, in declaration (= bring-up) order. */
  datatype HandshakeState =
    | Default
    | FirmwareUp
    | FwInitConfigComplete
    | FwGetSecInfoComplete
    | FwInitRingPairComplete
    | FwInitMsiInfoComplete
    | FwInitIdxMemComplete
    | FwInitCountersMemComplete
    | FwInitRng
    | FwRngComplete

  /** Position of a state in the bring-up sequence (DEFAULT first). */
  function Rank(s: HandshakeState): (r: nat)
    ensures r <= 9
    ensures r == 0 <==> s == Default
    ensures r == 9 <==> s == FwRngComplete
  {
    match s
    case Default => 0
    case FirmwareUp => 1
    case FwInitConfigComplete => 2
    case FwGetSecInfoComplete => 3
    case FwInitRingPairComplete => 4
    case FwInitMsiInfoComplete => 5
    case FwInitIdxMemComplete => 6
    case FwInitCountersMemComplete => 7
    case FwInitRng => 8
    case FwRngComplete => 9
  }

  /**
   * The numeric value of a state as the firmware posts it: DEFAULT is 0,
   * FIRMWARE_UP is 10, and every later state is its predecessor plus one.
   */
  function StateCode(s: HandshakeState): (c: nat)
    ensures s == Default ==> c == 0
    ensures s != Default ==> c == 9 + Rank(s) && 10 <= c <= 18
    ensures s == FirmwareUp ==> c == 10
    ensures s == FwRngComplete ==> c == 18
  {
    match s
    case Default => 0
    case FirmwareUp => 10
    case FwInitConfigComplete => 11
    case FwGetSecInfoComplete => 12
    case FwInitRingPairComplete => 13
    case FwInitMsiInfoComplete => 14
    case FwInitIdxMemComplete => 15
    case FwInitCountersMemComplete => 16
    case FwInitRng => 17
    case FwRngComplete => 18
  }

  /** The state a posted state byte denotes, if any. */
  function StateOfCode(c: int): (r: Option<HandshakeState>)
    ensures r.Some? <==> c == 0 || 10 <= c <= 18
    ensures r.Some? ==> StateCode(r.value) == c
  {
    if c == 0 then Some(Default)
    else if c == 10 then Some(FirmwareUp)
    else if c == 11 then Some(FwInitConfigComplete)
    else if c == 12 then Some(FwGetSecInfoComplete)
    else if c == 13 then Some(FwInitRingPairComplete)
    else if c == 14 then Some(FwInitMsiInfoComplete)
    else if c == 15 then Some(FwInitIdxMemComplete)
    else if c == 16 then Some(FwInitCountersMemComplete)
    else if c == 17 then Some(FwInitRng)
    else if c == 18 then Some(FwRngComplete)
    else None
  }

  /** Distinct states have distinct codes, so a posted code names exactly one state. */
  lemma StateCodeInjective(s: HandshakeState, t: HandshakeState)
    requires StateCode(s) == StateCode(t)
    ensures s == t
  {
    assert StateOfCode(StateCode(s)) == Some(s);
  }

  /** The state that follows `s` in the bring-up sequence; FW_RNG_COMPLETE is terminal. */
  function Successor(s: HandshakeState): (r: Option<HandshakeState>)
    ensures r.None? <==> s == FwRngComplete
    ensures r.Some? ==> Rank(r.value) == Rank(s) + 1
    ensures r.Some? && s != Default ==> StateCode(r.value) == StateCode(s) + 1
  {
    match s
    case Default => Some(FirmwareUp)
    case FirmwareUp => Some(FwInitConfigComplete)
    case FwInitConfigComplete => Some(FwGetSecInfoComplete)
    case FwGetSecInfoComplete => Some(FwInitRingPairComplete)
    case FwInitRingPairComplete => Some(FwInitMsiInfoComplete)
    case FwInitMsiInfoComplete => Some(FwInitIdxMemComplete)
    case FwInitIdxMemComplete => Some(FwInitCountersMemComplete)
    case FwInitCountersMemComplete => Some(FwInitRng)
    case FwInitRng => Some(FwRngComplete)
    case FwRngComplete => None
  }

  /** "a comes strictly before b in bring-up", read off the posted codes. */
  predicate Before(a: HandshakeState, b: HandshakeState) {
    StateCode(a) < StateCode(b)
  }

  /** Bring-up order is a strict total order whose greatest element is FW_RNG_COMPLETE. */
  lemma BeforeIsStrictTotalOrder(a: HandshakeState, b: HandshakeState, c: HandshakeState)
    ensures !Before(a, a)
    ensures Before(a, b) && Before(b, c) ==> Before(a, c)
    ensures a != b ==> Before(a, b) || Before(b, a)
    ensures a != FwRngComplete ==> Before(a, FwRngComplete)
    ensures !Before(FwRngComplete, a)
  {
    if a != b && StateCode(a) == StateCode(b) { StateCodeInjective(a, b); }
  }

  /** The state reached from `s` after `k` successor steps (None once past the end). */
  function Advance(s: HandshakeState, k: nat): Option<HandshakeState>
    decreases k
  {
    if k == 0 then Some(s)
    else match Successor(s)
      case None => None
      case Some(t) => Advance(t, k - 1)
  }

  /** Following successors from any state reaches FW_RNG_COMPLETE, after exactly 9 - Rank(s) steps. */
  lemma {:induction false} AdvanceReachesReady(s: HandshakeState)
    ensures Advance(s, 9 - Rank(s)) == Some(FwRngComplete)
    decreases 9 - Rank(s)
  {
    if s != FwRngComplete {
      var t := Successor(s).value;
      AdvanceReachesReady(t);
    }
  }

  /** Every step of a bring-up raises the posted code, so no state is ever revisited. */
  lemma {:induction false} AdvanceIncreases(s: HandshakeState, k: nat)
    requires k > 0 && Advance(s, k).Some?
    ensures Before(s, Advance(s, k).value)
    ensures Rank(Advance(s, k).value) == Rank(s) + k
    decreases k
  {
    var t := Successor(s).value;
    if k > 1 {
      AdvanceIncreases(t, k - 1);
    }
  }

  // ---------------------------------------------------------------------
  // Handshake commands
  // ---------------------------------------------------------------------

  /** `fw_handshake_commands_t`, in declaration order. */
  datatype HandshakeCommand =
    | FwGetSecInfo
    | FwInitConfig
    | FwInitRingPair
    | FwInitMsiInfo
    | FwInitIdxMem
    | FwInitCountersMem
    | FwHsComplete
    | FwWaitForRng
    | FwRngDone

  /** The command an encoded command word denotes; the valid codes are exactly 0..8. */
  function CommandOfCode(c: int): (r: Option<HandshakeCommand>)
    ensures r.Some? <==> 0 <= c <= 8
  {
    if c == 0 then Some(FwGetSecInfo)
    else if c == 1 then Some(FwInitConfig)
    else if c == 2 then Some(FwInitRingPair)
    else if c == 3 then Some(FwInitMsiInfo)
    else if c == 4 then Some(FwInitIdxMem)
    else if c == 5 then Some(FwInitCountersMem)
    else if c == 6 then Some(FwHsComplete)
    else if c == 7 then Some(FwWaitForRng)
    else if c == 8 then Some(FwRngDone)
    else None
  }

  /** The code of a command (its declaration position); decoding it gives the command back. */
  function CommandCode(c: HandshakeCommand): (r: nat)
    ensures r <= 8
    ensures CommandOfCode(r) == Some(c)
    ensures c == FwGetSecInfo <==> r == 0
    ensures c == FwRngDone <==> r == 8
  {
    match c
    case FwGetSecInfo => 0
    case FwInitConfig => 1
    case FwInitRingPair => 2
    case FwInitMsiInfo => 3
    case FwInitIdxMem => 4
    case FwInitCountersMem => 5
    case FwHsComplete => 6
    case FwWaitForRng => 7
    case FwRngDone => 8
  }

  // ---------------------------------------------------------------------
  // Shared memory regions
  // ---------------------------------------------------------------------

  /** `crypto_dev_mem_type_t`: the kinds of memory shared between the driver and the device. */
  datatype MemType = MemTypeConfig | MemTypeSram | MemTypeDriver

  /** MEM_TYPE_MAX, the number of region kinds, which closes the enumeration. */
  const MEM_TYPE_MAX: nat := 3

  /** The enumerator value of a region kind: its declaration position, below MEM_TYPE_MAX. */
  function MemTypeCode(m: MemType): (c: nat)
    ensures c < MEM_TYPE_MAX
    ensures m == MemTypeConfig <==> c == 0
    ensures m == MemTypeDriver <==> c == MEM_TYPE_MAX - 1
  {
    match m
    case MemTypeConfig => 0
    case MemTypeSram => 1
    case MemTypeDriver => 2
  }

  /** Distinct region kinds have distinct values, so MEM_TYPE_MAX can size a table indexed by kind. */
  lemma MemTypeCodeInjective(m: MemType, n: MemType)
    requires MemTypeCode(m) == MemTypeCode(n)
    ensures m == n
  {
    if m == MemTypeSram {
      assert n != MemTypeConfig && n != MemTypeDriver;
    }
  }

  // ---------------------------------------------------------------------
  // Ring flag bit fields: SEC number, job-ring number and job-ring size
  // ---------------------------------------------------------------------

  const JR_SIZE_SHIFT: bv32 := 0
  const JR_SIZE_MASK: bv32 := 0x0000ffff
  const JR_NO_SHIFT: bv32 := 16
  const JR_NO_MASK: bv32 := 0x00ff0000
  const SEC_NO_SHIFT: bv32 := 24
  const SEC_NO_MASK: bv32 := 0xff000000

  /** The three masks are each a field width moved to its shift, do not overlap and cover the word. */
  lemma MasksPartitionWord()
    ensures JR_SIZE_MASK == 0xffff << JR_SIZE_SHIFT
    ensures JR_NO_MASK == 0xff << JR_NO_SHIFT
    ensures SEC_NO_MASK == 0xff << SEC_NO_SHIFT
    ensures JR_SIZE_MASK & JR_NO_MASK == 0 && JR_SIZE_MASK & SEC_NO_MASK == 0 && JR_NO_MASK & SEC_NO_MASK == 0
    ensures JR_SIZE_MASK | JR_NO_MASK | SEC_NO_MASK == 0xffffffff
  {
  }

  datatype RingFlags = RingFlags(secNo: bv32, jrNo: bv32, jrSize: bv32)

  predicate FlagsInRange(f: RingFlags) {
    f.secNo < 0x100 && f.jrNo < 0x100 && f.jrSize < 0x1_0000
  }

  /** Each field is extracted by masking and then shifting down. */
  function UnpackFlags(w: bv32): (f: RingFlags)
    ensures FlagsInRange(f)
  {
    RingFlags((w & SEC_NO_MASK) >> SEC_NO_SHIFT,
              (w & JR_NO_MASK) >> JR_NO_SHIFT,
              (w & JR_SIZE_MASK) >> JR_SIZE_SHIFT)
  }

  /** Placing the three fields at their shifts; extracting them gives the same triple back. */
  function PackFlags(f: RingFlags): (w: bv32)
    requires FlagsInRange(f)
    ensures UnpackFlags(w) == f
  {
    FieldsSurvivePacking(f.secNo, f.jrNo, f.jrSize);
    (f.secNo << SEC_NO_SHIFT) | (f.jrNo << JR_NO_SHIFT) | (f.jrSize << JR_SIZE_SHIFT)
  }

  lemma FieldsSurvivePacking(sec: bv32, jr: bv32, size: bv32)
    requires sec < 0x100 && jr < 0x100 && size < 0x1_0000
    ensures var w := (sec << SEC_NO_SHIFT) | (jr << JR_NO_SHIFT) | (size << JR_SIZE_SHIFT);
      && (w & SEC_NO_MASK) >> SEC_NO_SHIFT == sec
      && (w & JR_NO_MASK) >> JR_NO_SHIFT == jr
      && (w & JR_SIZE_MASK) >> JR_SIZE_SHIFT == size
  {
  }

  /** Because the masks cover all 32 bits, unpacking loses nothing. */
  lemma PackUnpack(w: bv32)
    ensures PackFlags(UnpackFlags(w)) == w
  {
  }

  // ---------------------------------------------------------------------
  // Device configuration
  // ---------------------------------------------------------------------

  /** `struct ring_info`. */
  datatype RingInfo = RingInfo(ringId: u32, depth: u32, msiAddrL: u32, msiAddrH: u32, msiData: u16)

  /** `struct crypto_dev_config`: the ring table always has FSL_CRYPTO_MAX_RING_PAIRS slots. */
  datatype DevConfig = DevConfig(devNo: u32, numOfRps: u8, ring: seq<RingInfo>)

  predicate ValidConfig(cfg: DevConfig) {
    |cfg.ring| == FSL_CRYPTO_MAX_RING_PAIRS && cfg.numOfRps <= FSL_CRYPTO_MAX_RING_PAIRS
  }

  /** The entry of ring `rid`, present only for a ring the table can hold. */
  function RingOf(cfg: DevConfig, rid: nat): (r: Option<RingInfo>)
    requires ValidConfig(cfg)
    ensures r.Some? <==> rid < cfg.numOfRps
    ensures r.Some? ==> rid < FSL_CRYPTO_MAX_RING_PAIRS && r.value == cfg.ring[rid]
  {
    if rid < cfg.numOfRps then Some(cfg.ring[rid]) else None
  }

  // ---------------------------------------------------------------------
  // Ring entries and per-ring bookkeeping
  // ---------------------------------------------------------------------

  /** `struct req_ring_entry`: only the device address of a descriptor. */
  datatype ReqRingEntry = ReqRingEntry(secDesc: u64)

  /** `struct resp_ring_entry`: the echoed descriptor address and the 32-bit result word. */
  datatype RespRingEntry = RespRingEntry(secDesc: u64, result: u32)

  /** Byte order of the host CPU, which lays out the ring entries in its own order. */
  datatype HostEndian = LittleEndianHost | BigEndianHost

  function Reverse(b: seq<byte>): (r: seq<byte>)
    ensures |r| == |b|
    ensures forall i :: 0 <= i < |b| ==> r[i] == b[|b| - 1 - i]
  {
    if b == [] then [] else Reverse(b[1..]) + [b[0]]
  }

  lemma ReverseReverse(b: seq<byte>)
    ensures Reverse(Reverse(b)) == b
  {
  }

  function HostWord(e: HostEndian, x: nat, n: nat): (b: seq<byte>)
    requires x < Pow256(n)
    ensures |b| == n
  {
    if e == BigEndianHost then ToBigEndian(x, n) else Reverse(ToBigEndian(x, n))
  }

  function ReadHostWord(e: HostEndian, b: seq<byte>): (x: nat)
    ensures x < Pow256(|b|)
  {
    if e == BigEndianHost then FromBigEndian(b) else FromBigEndian(Reverse(b))
  }

  lemma HostWordRoundTrip(e: HostEndian, x: nat, n: nat)
    requires x < Pow256(n)
    ensures ReadHostWord(e, HostWord(e, x, n)) == x
  {
    DecodeEncode(x, n);
    if e == LittleEndianHost { ReverseReverse(ToBigEndian(x, n)); }
  }

  /** The request entry in memory: eight bytes. */
  function EncodeReqEntry(e: HostEndian, r: ReqRingEntry): (b: seq<byte>)
    ensures |b| == 8
  {
    assert Pow256(8) == TWO_64;
    HostWord(e, r.secDesc, 8)
  }

  function DecodeReqEntry(e: HostEndian, b: seq<byte>): (r: ReqRingEntry)
    requires |b| == 8
  {
    assert Pow256(8) == TWO_64;
    ReqRingEntry(ReadHostWord(e, b))
  }

  /** Reading a request entry back from its image recovers the descriptor address. */
  lemma ReqEntryRoundTrip(e: HostEndian, r: ReqRingEntry)
    ensures DecodeReqEntry(e, EncodeReqEntry(e, r)) == r
  {
    assert Pow256(8) == TWO_64;
    HostWordRoundTrip(e, r.secDesc, 8);
  }

  /** The response entry in memory: packed, so the result word starts right after the address (12 bytes, no padding). */
  function EncodeRespEntry(e: HostEndian, r: RespRingEntry): (b: seq<byte>)
    ensures |b| == 12
  {
    assert Pow256(8) == TWO_64 && Pow256(4) == TWO_32;
    HostWord(e, r.secDesc, 8) + HostWord(e, r.result, 4)
  }

  function DecodeRespEntry(e: HostEndian, b: seq<byte>): (r: RespRingEntry)
    requires |b| == 12
  {
    assert Pow256(8) == TWO_64 && Pow256(4) == TWO_32;
    RespRingEntry(ReadHostWord(e, b[..8]), ReadHostWord(e, b[8..]))
  }

  /** Reading a response entry back from its packed image recovers both fields. */
  lemma RespEntryRoundTrip(e: HostEndian, r: RespRingEntry)
    ensures DecodeRespEntry(e, EncodeRespEntry(e, r)) == r
  {
    assert Pow256(8) == TWO_64 && Pow256(4) == TWO_32;
    var b := EncodeRespEntry(e, r);
    assert b[..8] == HostWord(e, r.secDesc, 8);
    assert b[8..] == HostWord(e, r.result, 4);
    HostWordRoundTrip(e, r.secDesc, 8);
    HostWordRoundTrip(e, r.result, 4);
  }

  /** The result word read as the `int32_t` the completion path receives. */
  function SignedResult(w: u32): (r: i32)
    ensures r == -1 <==> w == 0xffff_ffff
    ensures w < 0x8000_0000 ==> r == w
    ensures 0x8000_0000 <= w ==> r == w - TWO_32
    ensures Wrap32(r) == w
  {
    if w < 0x8000_0000 then w else w - TWO_32
  }
}
