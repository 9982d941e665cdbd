/**
 * Request preparation of the DSA/ECDSA path (`crypto_mem_info_t` and the
 * functions of `dsa.c` that fill it in): `*_init_crypto_mem` (slot count and
 * roles), `*_init_len` (lengths), `*_cp_req` (allocation and host pointers)
 * and the `constr_*_desc` calls that write the descriptor.
 *
 * Each step is a method of `CryptoMemInfo` that updates its fields in place
 * and is specified by a pure function of the old state; the lemmas at the end
 * follow a request through all the steps.
 */
module DsaMem {
  import opened Common
  import opened Buffers
  import opened DsaDesc
  import opened Requests

  /** `sizeof(dsa_*_buffers_t) / sizeof(buffer_info_t)`: the slots of each buffer set. */
  const SIGN_SLOTS: nat := 10
  const VERIFY_SLOTS: nat := 10
  const KEYGEN_SLOTS: nat := 7

  /**
   * The effect of `alloc_crypto_mem` (its body is not part of this model):
   * it fails, or it gives each of the first `count` slots pool memory, with a
   * host address and a device address.
   */
  datatype Allocation = AllocFailed | Allocated(hostOf: nat -> HostPtr, devOf: nat -> u64)

  /** Slot `i` after allocation of the first `count` slots. */
  function Place(b: BufferInfo, i: nat, count: nat, a: Allocation): (r: BufferInfo)
    requires a.Allocated?
    ensures r.bt == b.bt && r.len == b.len
    ensures i < count ==> r.hostAddr == a.hostOf(i) && r.devAddr == a.devOf(i)
    ensures count <= i ==> r == b
  {
    if i < count then b.(hostAddr := a.hostOf(i), devAddr := a.devOf(i)) else b
  }

  /** A whole buffer set after allocation of its first `count` slots, in structure order. */
  function PlaceAll(cb: CBuffers, count: nat, a: Allocation): CBuffers
    requires a.Allocated?
  {
    match cb
    case NoBuffers => NoBuffers
    case Sign(b) => Sign(SignBuffers(Place(b.q, 0, count, a), Place(b.r, 1, count, a), Place(b.g, 2, count, a),
                                     Place(b.privKey, 3, count, a), Place(b.m, 4, count, a), Place(b.tmp, 5, count, a),
                                     Place(b.desc, 6, count, a), Place(b.c, 7, count, a), Place(b.d, 8, count, a),
                                     Place(b.ab, 9, count, a)))
    case Verify(b) => Verify(VerifyBuffers(Place(b.q, 0, count, a), Place(b.r, 1, count, a), Place(b.g, 2, count, a),
                                           Place(b.pubKey, 3, count, a), Place(b.m, 4, count, a), Place(b.tmp, 5, count, a),
                                           Place(b.desc, 6, count, a), Place(b.c, 7, count, a), Place(b.d, 8, count, a),
                                           Place(b.ab, 9, count, a)))
    case Keygen(b) => Keygen(KeygenBuffers(Place(b.q, 0, count, a), Place(b.r, 1, count, a), Place(b.g, 2, count, a),
                                           Place(b.prvkey, 3, count, a), Place(b.pubkey, 4, count, a),
                                           Place(b.desc, 5, count, a), Place(b.ab, 6, count, a)))
  }

  /** The allocator walks the slots in order: the first `count` get pool memory, the rest are left as they were. */
  lemma PlaceAllWalksFirstCount(cb: CBuffers, count: nat, a: Allocation, i: nat)
    requires a.Allocated? && i < |Slots(cb)|
    ensures |Slots(PlaceAll(cb, count, a))| == |Slots(cb)|
    ensures Slots(PlaceAll(cb, count, a))[i] == Place(Slots(cb)[i], i, count, a)
  {
  }

  // ---------------------------------------------------------------------
  // *_init_crypto_mem
  // ---------------------------------------------------------------------

  /** The number of slots `*_init_crypto_mem` asks the allocator for: all of them for ECDSA, all but the last (`ab`) for DSA. */
  function SlotCount(slots: nat, ecdsa: bool): nat
    requires slots > 0
  {
    if ecdsa then slots else slots - 1
  }

  /** The sign slots after the zero-fill: c and d are outputs, tmp is scratch space, the descriptor slot gets no role, the rest are inputs. */
  function SignCleared(): SignBuffers {
    SignBuffers(Cleared(Input), Cleared(Input), Cleared(Input), Cleared(Input), Cleared(Input),
                Cleared(Temp), Cleared(Unset), Cleared(Output), Cleared(Output), Cleared(Input))
  }

  /** The verify slots after the zero-fill: the signature halves c and d are inputs here. */
  function VerifyCleared(): VerifyBuffers {
    VerifyBuffers(Cleared(Input), Cleared(Input), Cleared(Input), Cleared(Input), Cleared(Input),
                  Cleared(Temp), Cleared(Unset), Cleared(Input), Cleared(Input), Cleared(Input))
  }

  /** The keygen slots after the zero-fill: the two keys are outputs. */
  function KeygenCleared(): KeygenBuffers {
    KeygenBuffers(Cleared(Input), Cleared(Input), Cleared(Input), Cleared(Output), Cleared(Output),
                  Cleared(Unset), Cleared(Input))
  }

  /** The indices of the slots of a set that have role `bt`. */
  function SlotsWithRole(cb: CBuffers, bt: Role): set<nat> {
    set i: nat | i < |Slots(cb)| && Slots(cb)[i].bt == bt
  }

  /**
   * What the accelerator may write back to the caller: for sign exactly the
   * two signature halves, for keygen exactly the two keys, and for verify
   * nothing (its answer is the job status). Sign and verify have one scratch
   * slot, keygen none.
   */
  lemma RolesOfFreshSets()
    ensures SlotsWithRole(Sign(SignCleared()), Output) == {7, 8}
    ensures Slots(Sign(SignCleared()))[7] == SignCleared().c && Slots(Sign(SignCleared()))[8] == SignCleared().d
    ensures SlotsWithRole(Sign(SignCleared()), Temp) == {5}
    ensures SlotsWithRole(Verify(VerifyCleared()), Output) == {}
    ensures SlotsWithRole(Verify(VerifyCleared()), Temp) == {5}
    ensures SlotsWithRole(Keygen(KeygenCleared()), Output) == {3, 4}
    ensures Slots(Keygen(KeygenCleared()))[3] == KeygenCleared().prvkey && Slots(Keygen(KeygenCleared()))[4] == KeygenCleared().pubkey
    ensures SlotsWithRole(Keygen(KeygenCleared()), Temp) == {}
  {
    var s := Slots(Sign(SignCleared()));
    assert forall i: nat | i < |s| :: s[i].bt == Output <==> i == 7 || i == 8;
    assert forall i: nat | i < |s| :: s[i].bt == Temp <==> i == 5;
    var v := Slots(Verify(VerifyCleared()));
    assert forall i: nat | i < |v| :: v[i].bt != Output;
    assert forall i: nat | i < |v| :: v[i].bt == Temp <==> i == 5;
    var k := Slots(Keygen(KeygenCleared()));
    assert forall i: nat | i < |k| :: k[i].bt == Output <==> i == 3 || i == 4;
    assert forall i: nat | i < |k| :: k[i].bt != Temp;
  }

  /**
   * Allocating `SlotCount` slots gives pool memory to every slot but the
   * last (`ab`, by `Slots`), and to `ab` exactly when the request is ECDSA;
   * for plain DSA `ab` is left as it was.
   */
  lemma CountSkipsOnlyAb(cb: CBuffers, ecdsa: bool, a: Allocation, i: nat)
    requires cb != NoBuffers && a.Allocated? && i < |Slots(cb)|
    ensures var n := |Slots(cb)|;
      var s := Slots(PlaceAll(cb, SlotCount(n, ecdsa), a));
      && |s| == n
      && (i < n - 1 || ecdsa ==> s[i].hostAddr == a.hostOf(i) && s[i].devAddr == a.devOf(i) && s[i].bt == Slots(cb)[i].bt && s[i].len == Slots(cb)[i].len)
      && (i == n - 1 && !ecdsa ==> s[i] == Slots(cb)[i])
  {
    PlaceAllWalksFirstCount(cb, SlotCount(|Slots(cb)|, ecdsa), a, i);
  }

  // ---------------------------------------------------------------------
  // *_init_len
  // ---------------------------------------------------------------------

  /** Slot `x` is slot `y` with only its length changed. */
  predicate LenOnly(x: BufferInfo, y: BufferInfo) {
    x.bt == y.bt && x.hostAddr == y.hostAddr && x.devAddr == y.devAddr
  }

  /** Slot `x` is slot `y` with only its host address changed. */
  predicate HostAddrOnly(x: BufferInfo, y: BufferInfo) {
    x.bt == y.bt && x.len == y.len && x.devAddr == y.devAddr
  }

  /**
   * `dsa_sign_init_len`: operand lengths from the request; each signature
   * half and the result buffers are d_len bytes, the scratch buffer holds
   * both halves, the curve buffer is used by ECDSA only, and the descriptor
   * buffer is as large as the descriptor structure.
   */
  function SignLens(b: SignBuffers, req: DsaSignReq, ecdsa: bool): (r: SignBuffers)
    ensures r.c.len == req.dLen && r.d.len == req.dLen && r.tmp.len == Wrap32(2 * req.dLen)
    ensures r.ab.len == (if ecdsa then req.abLen else 0) && r.desc.len == SignDescBytes(ecdsa)
    ensures r.q.len == req.qLen && r.r.len == req.rLen && r.g.len == req.gLen
    ensures r.privKey.len == req.privKeyLen && r.m.len == req.mLen
    ensures LenOnly(r.q, b.q) && LenOnly(r.r, b.r) && LenOnly(r.g, b.g) && LenOnly(r.privKey, b.privKey) && LenOnly(r.m, b.m)
    ensures LenOnly(r.tmp, b.tmp) && LenOnly(r.desc, b.desc) && LenOnly(r.c, b.c) && LenOnly(r.d, b.d) && LenOnly(r.ab, b.ab)
  {
    b.(q := b.q.(len := req.qLen), r := b.r.(len := req.rLen), g := b.g.(len := req.gLen),
       privKey := b.privKey.(len := req.privKeyLen), m := b.m.(len := req.mLen),
       c := b.c.(len := req.dLen), d := b.d.(len := req.dLen), tmp := b.tmp.(len := Wrap32(2 * req.dLen)),
       ab := b.ab.(len := if ecdsa then req.abLen else 0),
       desc := b.desc.(len := SignDescBytes(ecdsa)))
  }

  /**
   * `dsa_verify_init_len`: the scratch buffer is 2 * q_len for ECDSA and
   * q_len for DSA; the signature halves c and d are d_len bytes.
   */
  function VerifyLens(b: VerifyBuffers, req: DsaVerifyReq, ecdsa: bool): (r: VerifyBuffers)
    ensures r.c.len == req.dLen && r.d.len == req.dLen
    ensures r.tmp.len == (if ecdsa then Wrap32(2 * req.qLen) else req.qLen)
    ensures r.ab.len == (if ecdsa then req.abLen else 0) && r.desc.len == VerifyDescBytes(ecdsa)
    ensures r.q.len == req.qLen && r.r.len == req.rLen && r.g.len == req.gLen
    ensures r.pubKey.len == req.pubKeyLen && r.m.len == req.mLen
    ensures LenOnly(r.q, b.q) && LenOnly(r.r, b.r) && LenOnly(r.g, b.g) && LenOnly(r.pubKey, b.pubKey) && LenOnly(r.m, b.m)
    ensures LenOnly(r.tmp, b.tmp) && LenOnly(r.desc, b.desc) && LenOnly(r.c, b.c) && LenOnly(r.d, b.d) && LenOnly(r.ab, b.ab)
  {
    b.(q := b.q.(len := req.qLen), r := b.r.(len := req.rLen), g := b.g.(len := req.gLen),
       pubKey := b.pubKey.(len := req.pubKeyLen), m := b.m.(len := req.mLen),
       c := b.c.(len := req.dLen), d := b.d.(len := req.dLen),
       tmp := b.tmp.(len := if ecdsa then Wrap32(2 * req.qLen) else req.qLen),
       ab := b.ab.(len := if ecdsa then req.abLen else 0),
       desc := b.desc.(len := VerifyDescBytes(ecdsa)))
  }

  /** `dsa_keygen_init_len`: the lengths are the request's, the curve buffer is used by ECDSA only. */
  function KeygenLens(b: KeygenBuffers, req: DsaKeygenReq, ecdsa: bool): (r: KeygenBuffers)
    ensures r.q.len == req.qLen && r.r.len == req.rLen && r.g.len == req.gLen
    ensures r.prvkey.len == req.prvkeyLen && r.pubkey.len == req.pubkeyLen
    ensures r.ab.len == (if ecdsa then req.abLen else 0) && r.desc.len == KeygenDescBytes(ecdsa)
    ensures LenOnly(r.q, b.q) && LenOnly(r.r, b.r) && LenOnly(r.g, b.g) && LenOnly(r.prvkey, b.prvkey) && LenOnly(r.pubkey, b.pubkey)
    ensures LenOnly(r.desc, b.desc) && LenOnly(r.ab, b.ab)
  {
    b.(q := b.q.(len := req.qLen), r := b.r.(len := req.rLen), g := b.g.(len := req.gLen),
       prvkey := b.prvkey.(len := req.prvkeyLen), pubkey := b.pubkey.(len := req.pubkeyLen),
       ab := b.ab.(len := if ecdsa then req.abLen else 0),
       desc := b.desc.(len := KeygenDescBytes(ecdsa)))
  }

  // ---------------------------------------------------------------------
  // *_cp_req: the host pointers the caller supplied
  // ---------------------------------------------------------------------

  /** Host pointers of a sign set after `dsa_sign_cp_req`; tmp and the descriptor keep the allocator's. */
  function SignHostAddrs(b: SignBuffers, req: DsaSignReq, ecdsa: bool): (r: SignBuffers)
    ensures r.tmp == b.tmp && r.desc == b.desc
    ensures r.ab.hostAddr == (if ecdsa then req.ab else Null)
    ensures HostAddrOnly(r.q, b.q) && HostAddrOnly(r.r, b.r) && HostAddrOnly(r.g, b.g) && HostAddrOnly(r.privKey, b.privKey) && HostAddrOnly(r.m, b.m)
    ensures HostAddrOnly(r.tmp, b.tmp) && HostAddrOnly(r.desc, b.desc) && HostAddrOnly(r.c, b.c) && HostAddrOnly(r.d, b.d) && HostAddrOnly(r.ab, b.ab)
  {
    b.(q := b.q.(hostAddr := req.q), r := b.r.(hostAddr := req.r), g := b.g.(hostAddr := req.g),
       privKey := b.privKey.(hostAddr := req.privKey), m := b.m.(hostAddr := req.m),
       ab := b.ab.(hostAddr := if ecdsa then req.ab else Null),
       c := b.c.(hostAddr := req.c), d := b.d.(hostAddr := req.d))
  }

  /** Host pointers of a verify set after `dsa_verify_cp_req`. */
  function VerifyHostAddrs(b: VerifyBuffers, req: DsaVerifyReq, ecdsa: bool): (r: VerifyBuffers)
    ensures r.tmp == b.tmp && r.desc == b.desc
    ensures r.ab.hostAddr == (if ecdsa then req.ab else Null)
    ensures HostAddrOnly(r.q, b.q) && HostAddrOnly(r.r, b.r) && HostAddrOnly(r.g, b.g) && HostAddrOnly(r.pubKey, b.pubKey) && HostAddrOnly(r.m, b.m)
    ensures HostAddrOnly(r.tmp, b.tmp) && HostAddrOnly(r.desc, b.desc) && HostAddrOnly(r.c, b.c) && HostAddrOnly(r.d, b.d) && HostAddrOnly(r.ab, b.ab)
  {
    b.(q := b.q.(hostAddr := req.q), r := b.r.(hostAddr := req.r), g := b.g.(hostAddr := req.g),
       pubKey := b.pubKey.(hostAddr := req.pubKey), m := b.m.(hostAddr := req.m),
       c := b.c.(hostAddr := req.c), d := b.d.(hostAddr := req.d),
       ab := b.ab.(hostAddr := if ecdsa then req.ab else Null))
  }

  /** Host pointers of a keygen set after `dsa_keygen_cp_req`. */
  function KeygenHostAddrs(b: KeygenBuffers, req: DsaKeygenReq, ecdsa: bool): (r: KeygenBuffers)
    ensures r.desc == b.desc
    ensures r.ab.hostAddr == (if ecdsa then req.ab else Null)
    ensures HostAddrOnly(r.q, b.q) && HostAddrOnly(r.r, b.r) && HostAddrOnly(r.g, b.g) && HostAddrOnly(r.prvkey, b.prvkey) && HostAddrOnly(r.pubkey, b.pubkey)
    ensures HostAddrOnly(r.desc, b.desc) && HostAddrOnly(r.ab, b.ab)
  {
    b.(q := b.q.(hostAddr := req.q), r := b.r.(hostAddr := req.r), g := b.g.(hostAddr := req.g),
       ab := b.ab.(hostAddr := if ecdsa then req.ab else Null),
       prvkey := b.prvkey.(hostAddr := req.prvkey), pubkey := b.pubkey.(hostAddr := req.pubkey))
  }

  // ---------------------------------------------------------------------
  // crypto_mem_info_t
  // ---------------------------------------------------------------------

  /**
   * `crypto_mem_info_t`, restricted to the fields this path uses: the number
   * of slots to allocate, the buffer set, the contents of the descriptor
   * buffer, and the device and ring whose buffer pool serves the request.
   */
  class CryptoMemInfo {
    var count: nat
    var cBuffers: CBuffers
    var desc: Descriptor
    var devIdx: nat
    var bufPool: nat

    constructor ()
      ensures count == 0 && cBuffers == NoBuffers && desc == Blank && devIdx == 0 && bufPool == 0
    {
      count, cBuffers, desc, devIdx, bufPool := 0, NoBuffers, Blank, 0, 0;
    }

    /** `dsa_sign_init_crypto_mem`. */
    method SignInitCryptoMem(ecdsa: bool)
      modifies this`count, this`cBuffers
      ensures count == SlotCount(SIGN_SLOTS, ecdsa) && cBuffers == Sign(SignCleared())
    {
      count := SIGN_SLOTS;
      if !ecdsa {
        count := count - 1;
      }
      cBuffers := Sign(SignCleared());
    }

    /** `dsa_verify_init_crypto_mem`. */
    method VerifyInitCryptoMem(ecdsa: bool)
      modifies this`count, this`cBuffers
      ensures count == SlotCount(VERIFY_SLOTS, ecdsa) && cBuffers == Verify(VerifyCleared())
    {
      count := VERIFY_SLOTS;
      if !ecdsa {
        count := count - 1;
      }
      cBuffers := Verify(VerifyCleared());
    }

    /** `dsa_keygen_init_crypto_mem`. */
    method KeygenInitCryptoMem(ecdsa: bool)
      modifies this`count, this`cBuffers
      ensures count == SlotCount(KEYGEN_SLOTS, ecdsa) && cBuffers == Keygen(KeygenCleared())
    {
      count := KEYGEN_SLOTS;
      if !ecdsa {
        count := count - 1;
      }
      cBuffers := Keygen(KeygenCleared());
    }

    /** `dsa_sign_init_len`; the set was made a sign set by `SignInitCryptoMem`. */
    method SignInitLen(req: DsaSignReq, ecdsa: bool)
      requires cBuffers.Sign?
      modifies this`cBuffers
      ensures cBuffers == Sign(SignLens(old(cBuffers).sign, req, ecdsa))
    {
      cBuffers := Sign(SignLens(cBuffers.sign, req, ecdsa));
    }

    /** `dsa_verify_init_len`. */
    method VerifyInitLen(req: DsaVerifyReq, ecdsa: bool)
      requires cBuffers.Verify?
      modifies this`cBuffers
      ensures cBuffers == Verify(VerifyLens(old(cBuffers).verify, req, ecdsa))
    {
      cBuffers := Verify(VerifyLens(cBuffers.verify, req, ecdsa));
    }

    /** `dsa_keygen_init_len`. */
    method KeygenInitLen(req: DsaKeygenReq, ecdsa: bool)
      requires cBuffers.Keygen?
      modifies this`cBuffers
      ensures cBuffers == Keygen(KeygenLens(old(cBuffers).keygen, req, ecdsa))
    {
      cBuffers := Keygen(KeygenLens(cBuffers.keygen, req, ecdsa));
    }

    /**
     * `alloc_crypto_mem`: on failure the buffers are left as they are and
     * -ENOMEM is returned; on success the first `count` slots get pool
     * memory.
     */
    method AllocCryptoMem(a: Allocation) returns (ret: int)
      modifies this`cBuffers
      ensures a.AllocFailed? ==> ret == -ENOMEM && cBuffers == old(cBuffers)
      ensures a.Allocated? ==> ret == 0 && cBuffers == PlaceAll(old(cBuffers), count, a)
    {
      if a.AllocFailed? {
        ret := -ENOMEM;
      } else {
        cBuffers := PlaceAll(cBuffers, count, a);
        ret := 0;
      }
    }

    /**
     * `dsa_sign_cp_req`: lengths, then allocation; on -ENOMEM it stops with
     * the lengths set, otherwise it records the caller's pointers and
     * returns 0.
     */
    method SignCpReq(req: DsaSignReq, ecdsa: bool, a: Allocation) returns (ret: int)
      requires cBuffers.Sign?
      modifies this`cBuffers
      ensures a.AllocFailed? ==> ret == -ENOMEM && cBuffers == Sign(SignLens(old(cBuffers).sign, req, ecdsa))
      ensures a.Allocated? ==> (ret == 0 &&
        cBuffers == Sign(SignHostAddrs(PlaceAll(Sign(SignLens(old(cBuffers).sign, req, ecdsa)), count, a).sign, req, ecdsa)))
    {
      SignInitLen(req, ecdsa);
      var r := AllocCryptoMem(a);
      if r == -ENOMEM {
        return -ENOMEM;
      }
      cBuffers := Sign(SignHostAddrs(cBuffers.sign, req, ecdsa));
      ret := 0;
    }

    /** `dsa_verify_cp_req`. */
    method VerifyCpReq(req: DsaVerifyReq, ecdsa: bool, a: Allocation) returns (ret: int)
      requires cBuffers.Verify?
      modifies this`cBuffers
      ensures a.AllocFailed? ==> ret == -ENOMEM && cBuffers == Verify(VerifyLens(old(cBuffers).verify, req, ecdsa))
      ensures a.Allocated? ==> (ret == 0 &&
        cBuffers == Verify(VerifyHostAddrs(PlaceAll(Verify(VerifyLens(old(cBuffers).verify, req, ecdsa)), count, a).verify, req, ecdsa)))
    {
      VerifyInitLen(req, ecdsa);
      var r := AllocCryptoMem(a);
      if r == -ENOMEM {
        return -ENOMEM;
      }
      cBuffers := Verify(VerifyHostAddrs(cBuffers.verify, req, ecdsa));
      ret := 0;
    }

    /** `dsa_keygen_cp_req`. */
    method KeygenCpReq(req: DsaKeygenReq, ecdsa: bool, a: Allocation) returns (ret: int)
      requires cBuffers.Keygen?
      modifies this`cBuffers
      ensures a.AllocFailed? ==> ret == -ENOMEM && cBuffers == Keygen(KeygenLens(old(cBuffers).keygen, req, ecdsa))
      ensures a.Allocated? ==> (ret == 0 &&
        cBuffers == Keygen(KeygenHostAddrs(PlaceAll(Keygen(KeygenLens(old(cBuffers).keygen, req, ecdsa)), count, a).keygen, req, ecdsa)))
    {
      KeygenInitLen(req, ecdsa);
      var r := AllocCryptoMem(a);
      if r == -ENOMEM {
        return -ENOMEM;
      }
      cBuffers := Keygen(KeygenHostAddrs(cBuffers.keygen, req, ecdsa));
      ret := 0;
    }

    /** `constr_dsa_sign_desc` / `constr_ecdsa_sign_desc`: the descriptor buffer now holds the sign descriptor. */
    method ConstrSignDesc(v: Variant)
      requires cBuffers.Sign?
      modifies this`desc
      ensures desc == BuildSign(cBuffers.sign, v)
    {
      desc := BuildSign(cBuffers.sign, v);
    }

    /** `constr_dsa_verify_desc` / `constr_ecdsa_verify_desc`. */
    method ConstrVerifyDesc(v: Variant)
      requires cBuffers.Verify?
      modifies this`desc
      ensures desc == BuildVerify(cBuffers.verify, v)
    {
      desc := BuildVerify(cBuffers.verify, v);
    }

    /** `constr_dsa_keygen_desc` / `constr_ecdsa_keygen_desc`. */
    method ConstrKeygenDesc(v: Variant)
      requires cBuffers.Keygen?
      modifies this`desc
      ensures desc == BuildKeygen(cBuffers.keygen, v)
    {
      desc := BuildKeygen(cBuffers.keygen, v);
    }
  }

  // ---------------------------------------------------------------------
  // A request followed through preparation
  // ---------------------------------------------------------------------

  /** The sign set `dsa_op` hands to the builder after a successful allocation. */
  function PreparedSign(req: DsaSignReq, ecdsa: bool, a: Allocation): SignBuffers
    requires a.Allocated?
  {
    SignHostAddrs(PlaceAll(Sign(SignLens(SignCleared(), req, ecdsa)), SlotCount(SIGN_SLOTS, ecdsa), a).sign, req, ecdsa)
  }

  function PreparedVerify(req: DsaVerifyReq, ecdsa: bool, a: Allocation): VerifyBuffers
    requires a.Allocated?
  {
    VerifyHostAddrs(PlaceAll(Verify(VerifyLens(VerifyCleared(), req, ecdsa)), SlotCount(VERIFY_SLOTS, ecdsa), a).verify, req, ecdsa)
  }

  function PreparedKeygen(req: DsaKeygenReq, ecdsa: bool, a: Allocation): KeygenBuffers
    requires a.Allocated?
  {
    KeygenHostAddrs(PlaceAll(Keygen(KeygenLens(KeygenCleared(), req, ecdsa)), SlotCount(KEYGEN_SLOTS, ecdsa), a).keygen, req, ecdsa)
  }

  /**
   * A sign descriptor only points into memory the allocator set up: every
   * operand address is the device address of an allocated slot, except `d`,
   * which lies `r_len` bytes into the scratch slot; the curve
   * field is there exactly for ECDSA (when the `ab` slot is allocated), and
   * the program stores its results into the c and d output slots.
   */
  lemma SignDescUsesAllocatedSlots(req: DsaSignReq, v: Variant, a: Allocation)
    requires a.Allocated?
    ensures var n := SlotCount(SIGN_SLOTS, IsEcdsa(v));
      var d := BuildSign(PreparedSign(req, IsEcdsa(v), a), v);
      && d.q == a.devOf(0) && d.r == a.devOf(1) && d.g == a.devOf(2) && d.s == a.devOf(3) && d.f == a.devOf(4)
      && d.c == a.devOf(5) && d.d == Wrap64(a.devOf(5) + req.rLen) && d.ops[4] == OpAddr(a.devOf(5))
      && d.ops[7] == OpAddr(a.devOf(7)) && d.ops[10] == OpAddr(a.devOf(8))
      && (d.ab.Some? <==> 9 < n) && (d.ab.Some? ==> d.ab.value == a.devOf(9))
      && 8 < n
  {
  }

  /** The verify counterpart: operands, signature halves and scratch space are allocated slots. */
  lemma VerifyDescUsesAllocatedSlots(req: DsaVerifyReq, v: Variant, a: Allocation)
    requires a.Allocated?
    ensures var n := SlotCount(VERIFY_SLOTS, IsEcdsa(v));
      var d := BuildVerify(PreparedVerify(req, IsEcdsa(v), a), v);
      && d.q == a.devOf(0) && d.r == a.devOf(1) && d.g == a.devOf(2) && d.w == a.devOf(3) && d.f == a.devOf(4)
      && d.tmp == a.devOf(5) && d.c == a.devOf(7) && d.d == a.devOf(8)
      && (d.ab.Some? <==> 9 < n) && (d.ab.Some? ==> d.ab.value == a.devOf(9))
      && 8 < n
  {
  }

  /** The keygen counterpart: the two key slots the descriptor names are allocated output slots. */
  lemma KeygenDescUsesAllocatedSlots(req: DsaKeygenReq, v: Variant, a: Allocation)
    requires a.Allocated?
    ensures var n := SlotCount(KEYGEN_SLOTS, IsEcdsa(v));
      var d := BuildKeygen(PreparedKeygen(req, IsEcdsa(v), a), v);
      && d.q == a.devOf(0) && d.r == a.devOf(1) && d.g == a.devOf(2) && d.s == a.devOf(3) && d.w == a.devOf(4)
      && (d.ab.Some? <==> 6 < n) && (d.ab.Some? ==> d.ab.value == a.devOf(6))
      && 5 < n
  {
  }

  /**
   * The two signature halves share the one scratch buffer end to end: the
   * first starts at the buffer, the second starts r_len bytes later, and it
   * ends exactly where the 2 * d_len-byte buffer ends. This rests on the
   * assumption the source states, r_len == d_len, on 2 * d_len fitting in 32
   * bits, and on the scratch buffer not running past the top of the device
   * address space.
   */
  lemma SignHalvesFillTmp(req: DsaSignReq, v: Variant, a: Allocation)
    requires a.Allocated?
    requires req.rLen == req.dLen && 2 * req.dLen < TWO_32
    requires a.devOf(5) + 2 * req.dLen < TWO_64
    ensures var b := PreparedSign(req, IsEcdsa(v), a);
      var d := BuildSign(b, v);
      && d.c == b.tmp.devAddr
      && d.d == b.tmp.devAddr + b.r.len
      && d.d + b.r.len == b.tmp.devAddr + b.tmp.len
  {
  }

  /**
   * The descriptor buffer is exactly as large as the descriptor its header
   * announces: the header's length field is the buffer length in words.
   */
  lemma SignDescFitsBuffer(req: DsaSignReq, v: Variant, a: Allocation)
    requires a.Allocated? && HeaderLayoutOk()
    ensures var b := PreparedSign(req, IsEcdsa(v), a);
      HeaderLen(BuildSign(b, v).hdr) == Words(b.desc.len) & HDR_DESCLEN_MASK
  {
    PreparedSignDescLen(req, IsEcdsa(v), a);
    SignHeaderFits(PreparedSign(req, IsEcdsa(v), a), v);
  }

  lemma VerifyDescFitsBuffer(req: DsaVerifyReq, v: Variant, a: Allocation)
    requires a.Allocated? && HeaderLayoutOk()
    ensures var b := PreparedVerify(req, IsEcdsa(v), a);
      HeaderLen(BuildVerify(b, v).hdr) == Words(b.desc.len) & HDR_DESCLEN_MASK
  {
    PreparedVerifyDescLen(req, IsEcdsa(v), a);
    VerifyHeaderFits(PreparedVerify(req, IsEcdsa(v), a), v);
  }

  lemma KeygenDescFitsBuffer(req: DsaKeygenReq, v: Variant, a: Allocation)
    requires a.Allocated? && HeaderLayoutOk()
    ensures var b := PreparedKeygen(req, IsEcdsa(v), a);
      HeaderLen(BuildKeygen(b, v).hdr) == Words(b.desc.len) & HDR_DESCLEN_MASK
  {
    PreparedKeygenDescLen(req, IsEcdsa(v), a);
    KeygenHeaderFits(PreparedKeygen(req, IsEcdsa(v), a), v);
  }

  lemma PreparedSignDescLen(req: DsaSignReq, ecdsa: bool, a: Allocation)
    requires a.Allocated?
    ensures PreparedSign(req, ecdsa, a).desc.len == SignDescBytes(ecdsa)
  {}

  lemma PreparedVerifyDescLen(req: DsaVerifyReq, ecdsa: bool, a: Allocation)
    requires a.Allocated?
    ensures PreparedVerify(req, ecdsa, a).desc.len == VerifyDescBytes(ecdsa)
  {}

  lemma PreparedKeygenDescLen(req: DsaKeygenReq, ecdsa: bool, a: Allocation)
    requires a.Allocated?
    ensures PreparedKeygen(req, ecdsa, a).desc.len == KeygenDescBytes(ecdsa)
  {}

  lemma SignHeaderFits(b: SignBuffers, v: Variant)
    requires HeaderLayoutOk() && b.desc.len == SignDescBytes(IsEcdsa(v))
    ensures HeaderLen(BuildSign(b, v).hdr) == Words(b.desc.len) & HDR_DESCLEN_MASK
  {
    SignHeaderLen(b, v);
  }

  lemma VerifyHeaderFits(b: VerifyBuffers, v: Variant)
    requires HeaderLayoutOk() && b.desc.len == VerifyDescBytes(IsEcdsa(v))
    ensures HeaderLen(BuildVerify(b, v).hdr) == Words(b.desc.len) & HDR_DESCLEN_MASK
  {
    VerifyHeaderLen(b, v);
  }

  lemma KeygenHeaderFits(b: KeygenBuffers, v: Variant)
    requires HeaderLayoutOk() && b.desc.len == KeygenDescBytes(IsEcdsa(v))
    ensures HeaderLen(BuildKeygen(b, v).hdr) == Words(b.desc.len) & HDR_DESCLEN_MASK
  {
    KeygenHeaderLen(b, v);
  }
}
