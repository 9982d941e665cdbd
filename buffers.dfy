/**
 * The per-operation buffer sets of the DSA/ECDSA path (`dsa_sign_buffers_t`,
 * `dsa_verify_buffers_t`, `dsa_keygen_buffers_t`): one `buffer_info_t` per
 * operand, each with a role, a length, a host address and a device address.
 */
module Buffers {
  import opened Common

  /** `buffer_type_t`: BT_IP, BT_OP and BT_TMP; `Unset` is what the zero-fill leaves in a slot no role is given to. */
  datatype Role = Input | Output | Temp | Unset

  /** A host virtual address (`h_v_addr`); NULL or some location. */
  datatype HostPtr = Null | HostPtr(loc: nat)

  /** `buffer_info_t`, restricted to the fields this path reads and writes. */
  datatype BufferInfo = BufferInfo(bt: Role, len: u32, hostAddr: HostPtr, devAddr: u64)

  /** A slot after the zero-fill and role assignment of `*_init_crypto_mem`. */
  function Cleared(bt: Role): (b: BufferInfo)
    ensures b.bt == bt && b.len == 0 && b.hostAddr == Null && b.devAddr == 0
  {
    BufferInfo(bt, 0, Null, 0)
  }

  datatype SignBuffers = SignBuffers(q: BufferInfo, r: BufferInfo, g: BufferInfo, privKey: BufferInfo,
                                     m: BufferInfo, tmp: BufferInfo, desc: BufferInfo,
                                     c: BufferInfo, d: BufferInfo, ab: BufferInfo)

  datatype VerifyBuffers = VerifyBuffers(q: BufferInfo, r: BufferInfo, g: BufferInfo, pubKey: BufferInfo,
                                         m: BufferInfo, tmp: BufferInfo, desc: BufferInfo,
                                         c: BufferInfo, d: BufferInfo, ab: BufferInfo)

  datatype KeygenBuffers = KeygenBuffers(q: BufferInfo, r: BufferInfo, g: BufferInfo,
                                         prvkey: BufferInfo, pubkey: BufferInfo,
                                         desc: BufferInfo, ab: BufferInfo)

  /** `crypto_mem_info_t.c_buffers`: the union member the operation uses. */
  datatype CBuffers =
    | NoBuffers
    | Sign(sign: SignBuffers)
    | Verify(verify: VerifyBuffers)
    | Keygen(keygen: KeygenBuffers)

  /**
   * The slots of a buffer set in structure order, the order in which the
   * allocator walks the first `count` of them. The `ab` slot is the last one.
   */
  function Slots(cb: CBuffers): (s: seq<BufferInfo>)
    ensures cb.Sign? || cb.Verify? ==> |s| == 10
    ensures cb.Keygen? ==> |s| == 7
    ensures cb.Sign? ==> s[|s| - 1] == cb.sign.ab
    ensures cb.Verify? ==> s[|s| - 1] == cb.verify.ab
    ensures cb.Keygen? ==> s[|s| - 1] == cb.keygen.ab
  {
    match cb
    case NoBuffers => []
    case Sign(b) => [b.q, b.r, b.g, b.privKey, b.m, b.tmp, b.desc, b.c, b.d, b.ab]
    case Verify(b) => [b.q, b.r, b.g, b.pubKey, b.m, b.tmp, b.desc, b.c, b.d, b.ab]
    case Keygen(b) => [b.q, b.r, b.g, b.prvkey, b.pubkey, b.desc, b.ab]
  }

  /** The device address of the descriptor buffer of a set. */
  function DescAddr(cb: CBuffers): u64
  {
    match cb
    case NoBuffers => 0
    case Sign(b) => b.desc.devAddr
    case Verify(b) => b.desc.devAddr
    case Keygen(b) => b.desc.devAddr
  }
}
