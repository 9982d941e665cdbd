/**
 * `dsa_op`, the entry point of a DSA/ECDSA request, and its completion
 * hooks `dsa_op_done` / `ecdsa_op_done`.
 *
 * `dsa_op` picks a device and a ring, takes a context from the device's
 * pool, prepares the buffers, builds the descriptor and enqueues its
 * address. Every failure after the context was taken gives back what was
 * taken, in reverse order. The outcomes of the calls into code outside the
 * model are parameters: whether the context pool had a context (`ctxOk`),
 * what the buffer allocation gave (`a`) and whether the ring accepted the
 * job (`enqueueOk`).
 */
module DsaOp {
  import opened Common
  import opened Buffers
  import opened DsaDesc
  import opened Requests
  import opened DsaMem
  import opened Dev
  import Algs

  /** `crypto_op_ctx_t->op_done`: the completion hook the response path calls. */
  datatype DoneHook = DsaOpDoneHook | EcdsaOpDoneHook

  /** `crypto_op_ctx_t`: a context from the device's context pool. */
  class CryptoOpCtx {
    var ctxPool: nat
    /** The embedded `crypto_mem` record. */
    const mem: CryptoMemInfo
    var req: Option<PkcRequest>
    var oprn: Option<Algs.Oprn>
    /** The descriptor's device address, as enqueued. */
    var desc: u64
    /** The device the job runs on. */
    var devIdx: nat
    var opDone: Option<DoneHook>

    constructor ()
      ensures fresh(mem) && mem.cBuffers == NoBuffers && mem.count == 0
      ensures req == None && oprn == None && opDone == None
    {
      ctxPool, desc, devIdx := 0, 0, 0;
      req, oprn, opDone := None, None, None;
      mem := new CryptoMemInfo();
    }
  }

  /** The request types `dsa_op` handles. */
  predicate IsDsaType(t: PkcReqType) {
    t in {DsaSign, EcdsaSign, DsaVerify, EcdsaVerify, DsaKeygen, EcdsaKeygen}
  }

  /** The buffer set `dsa_op` prepares for a request it handles, once allocation has succeeded. */
  function Prepared(req: PkcRequest, a: Allocation): (cb: CBuffers)
    requires IsDsaType(req.reqType) && a.Allocated?
    ensures cb.Sign? <==> req.reqType in {DsaSign, EcdsaSign}
    ensures cb.Verify? <==> req.reqType in {DsaVerify, EcdsaVerify}
    ensures cb.Keygen? <==> req.reqType in {DsaKeygen, EcdsaKeygen}
  {
    var ecdsa := IsEcdsa(VariantOf(req));
    match req.reqType
    case DsaSign | EcdsaSign => Sign(PreparedSign(req.reqU.dsaSign, ecdsa, a))
    case DsaVerify | EcdsaVerify => Verify(PreparedVerify(req.reqU.dsaVerify, ecdsa, a))
    case DsaKeygen | EcdsaKeygen => Keygen(PreparedKeygen(req.reqU.dsaKeygen, ecdsa, a))
  }

  /** The descriptor `dsa_op` builds into the descriptor buffer of `Prepared(req, a)`. */
  function Built(req: PkcRequest, a: Allocation): Descriptor
    requires IsDsaType(req.reqType) && a.Allocated?
  {
    var cb := Prepared(req, a);
    match cb
    case Sign(b) => BuildSign(b, VariantOf(req))
    case Verify(b) => BuildVerify(b, VariantOf(req))
    case Keygen(b) => BuildKeygen(b, VariantOf(req))
  }

  /**
   * The ring of a request without a session: the device's session counter
   * after `atomic_inc_return`, modulo its number of ring pairs.
   */
  function UnsessionedRing(sessCnt: u32, numOfRps: nat): (rid: nat)
    requires numOfRps > 0
    ensures rid < numOfRps
  {
    Inc32(sessCnt) % numOfRps
  }

  /**
   * Unlike `get_ring_rr`, this choice does not skip ring 0, the command
   * ring: every `numOfRps`-th request without a session lands there.
   */
  lemma UnsessionedRingReachesRingZero(numOfRps: nat)
    requires 0 < numOfRps < TWO_32
    ensures UnsessionedRing((numOfRps - 1) as u32, numOfRps) == 0
    ensures 1 < numOfRps ==> Algs.RingRr(numOfRps as u32, (numOfRps - 1) as u32).rid != 0
  {
    assert Inc32((numOfRps - 1) as u32) == numOfRps;
  }

  /** How far `dsa_op` gets. */
  datatype Stage = NoDevice | NoContext | BadType | NoMemory | EnqueueFailed | Enqueued

  function StageOf(hasDevice: bool, ctxOk: bool, t: PkcReqType, a: Allocation, enqueueOk: bool): Stage {
    if !hasDevice then NoDevice
    else if !ctxOk then NoContext
    else if !IsDsaType(t) then BadType
    else if a.AllocFailed? then NoMemory
    else if !enqueueOk then EnqueueFailed
    else Enqueued
  }

  /** What `dsa_op` returns at each stage. */
  function StageRet(st: Stage): (ret: int)
    ensures ret == -EINPROGRESS <==> st == Enqueued
    ensures st == NoContext || st == NoMemory <==> ret == -ENOMEM
  {
    match st
    case NoDevice => -1
    case NoContext => -ENOMEM
    case BadType => -EINVAL
    case NoMemory => -ENOMEM
    case EnqueueFailed => -1
    case Enqueued => -EINPROGRESS
  }

  /** The calls `dsa_op` makes into the context pool, the allocator and the ring, for request `id`. */
  function DsaOpTrace(id: nat, st: Stage, rid: nat, desc: u64): seq<Event> {
    match st
    case NoDevice | NoContext => []
    case BadType | NoMemory => [CtxTaken(id), CtxReleased(id)]
    case EnqueueFailed =>
      [CtxTaken(id), CryptoMemAllocated(id), RingEnqueue(rid, desc, false), CryptoMemFreed(id), CtxReleased(id)]
    case Enqueued => [CtxTaken(id), CryptoMemAllocated(id), RingEnqueue(rid, desc, true)]
  }

  /** The calls `dsa_op_done` / `ecdsa_op_done` make for request `id`. */
  function DoneTrace(id: nat, cb: Callback, res: u32): seq<Event> {
    [CryptoMemFreed(id), Completed(cb, id, res), CtxReleased(id)]
  }

  /** The set holding the device whose session counter `dsa_op` advances: device 1, for a request without a session. */
  function CounterDevice(drv: Driver, req: PkcRequest): set<Device>
    reads drv`devices
  {
    if req.session.None? && 1 in drv.devices then {drv.devices[1]} else {}
  }

  /**
   * The descriptor address `dsa_op` enqueues for `req` when allocation gives
   * `a`; 0 where it gets no descriptor.
   */
  function EnqueuedDesc(req: PkcRequest, a: Allocation): u64 {
    if IsDsaType(req.reqType) && a.Allocated? then DescAddr(Prepared(req, a)) else 0
  }

  /** The ring `dsa_op` enqueues on: the session's, else device 1's next by the session counter. */
  function RingOf(drv: Driver, req: PkcRequest): nat
    reads drv`devices, drv.devices.Values
    requires req.session.None? && 1 in drv.devices ==> drv.devices[1].numOfRps > 0
  {
    if req.session.Some? then req.session.value.rId
    else if 1 in drv.devices then UnsessionedRing(drv.devices[1].sessCnt, drv.devices[1].numOfRps)
    else 0
  }

  /** `dsa_op`. */
  method DsaOp(drv: Driver, req: PkcRequest, ctxOk: bool, a: Allocation, enqueueOk: bool)
    returns (ret: int, ctx: CryptoOpCtx?)
    requires req.session.Some? ==>
      var s := req.session.value; s.devIdx in drv.devices && s.rId < |drv.devices[s.devIdx].bufPools|
    requires req.session.None? && 1 in drv.devices ==>
      0 < drv.devices[1].numOfRps <= |drv.devices[1].bufPools|
    modifies drv`log, drv`dsaCompletionCb, drv`ecdsaCompletionCb, CounterDevice(drv, req)`sessCnt
    ensures var st := StageOf(req.session.Some? || 1 in drv.devices, ctxOk, req.reqType, a, enqueueOk);
      && ret == StageRet(st)
      && (ctx != null <==> st == Enqueued)
      && drv.log == old(drv.log) + DsaOpTrace(req.reqId, st, old(RingOf(drv, req)), EnqueuedDesc(req, a))
    ensures req.session.Some? ==>
      drv.dsaCompletionCb == Some(PkcRequestComplete) && drv.ecdsaCompletionCb == Some(PkcRequestComplete)
    ensures req.session.None? ==>
      drv.dsaCompletionCb == old(drv.dsaCompletionCb) && drv.ecdsaCompletionCb == old(drv.ecdsaCompletionCb)
    ensures req.session.None? && 1 in drv.devices ==> drv.devices[1].sessCnt == Inc32(old(drv.devices[1].sessCnt))
    ensures ctx != null ==>
      && fresh(ctx) && IsDsaType(req.reqType) && a.Allocated?
      && ctx.req == Some(req) && ctx.oprn == Some(Algs.Dsa)
      && ctx.mem.cBuffers == Prepared(req, a) && ctx.mem.desc == Built(req, a)
      && ctx.desc == DescAddr(ctx.mem.cBuffers)
      && ctx.opDone == Some(if IsEcdsa(VariantOf(req)) then EcdsaOpDoneHook else DsaOpDoneHook)
      && ctx.devIdx == (if req.session.Some? then req.session.value.devIdx else 1)
    ensures ctx != null ==>
      var d := drv.devices[ctx.devIdx];
      && ctx.ctxPool == d.ctxPool && ctx.mem.devIdx == ctx.devIdx
      && old(RingOf(drv, req)) < |d.bufPools| && ctx.mem.bufPool == d.bufPools[old(RingOf(drv, req))]
  {
    var found, devIdx, rid := SelectRing(drv, req);
    if !found {
      return -1, null;
    }
    ret, ctx := SubmitJob(drv, drv.devices[devIdx], devIdx, rid, req, ctxOk, a, enqueueOk);
  }

  /**
   * The first part of `dsa_op`: a request with a session runs on the
   * session's device and ring and sets the global completion callbacks; one
   * without runs on device 1, on the ring its session counter points to next.
   */
  method SelectRing(drv: Driver, req: PkcRequest) returns (found: bool, devIdx: nat, rid: nat)
    requires req.session.Some? ==>
      var s := req.session.value; s.devIdx in drv.devices && s.rId < |drv.devices[s.devIdx].bufPools|
    requires req.session.None? && 1 in drv.devices ==>
      0 < drv.devices[1].numOfRps <= |drv.devices[1].bufPools|
    modifies drv`dsaCompletionCb, drv`ecdsaCompletionCb, CounterDevice(drv, req)`sessCnt
    ensures found == (req.session.Some? || 1 in drv.devices)
    ensures found ==> devIdx in drv.devices && rid < |drv.devices[devIdx].bufPools|
    ensures found ==> devIdx == (if req.session.Some? then req.session.value.devIdx else 1)
    ensures found ==> rid == old(RingOf(drv, req))
    ensures req.session.Some? ==>
      drv.dsaCompletionCb == Some(PkcRequestComplete) && drv.ecdsaCompletionCb == Some(PkcRequestComplete)
    ensures req.session.None? ==>
      drv.dsaCompletionCb == old(drv.dsaCompletionCb) && drv.ecdsaCompletionCb == old(drv.ecdsaCompletionCb)
    ensures req.session.None? && 1 in drv.devices ==> drv.devices[1].sessCnt == Inc32(old(drv.devices[1].sessCnt))
  {
    if req.session.Some? {
      drv.dsaCompletionCb := Some(PkcRequestComplete);
      drv.ecdsaCompletionCb := Some(PkcRequestComplete);
      return true, req.session.value.devIdx, req.session.value.rId;
    }
    if 1 !in drv.devices {
      return false, 0, 0;
    }
    var dev := drv.devices[1];
    dev.sessCnt := Inc32(dev.sessCnt);
    return true, 1, dev.sessCnt % dev.numOfRps;
  }

  /**
   * The rest of `dsa_op`, on device `dev` (numbered `devIdx`) and ring `rid`:
   * take a context, prepare the job, enqueue it; each failure gives back
   * what was taken.
   */
  method SubmitJob(drv: Driver, dev: Device, devIdx: nat, rid: nat, req: PkcRequest,
                   ctxOk: bool, a: Allocation, enqueueOk: bool)
    returns (ret: int, ctx: CryptoOpCtx?)
    requires rid < |dev.bufPools|
    modifies drv`log
    ensures var st := StageOf(true, ctxOk, req.reqType, a, enqueueOk);
      && ret == StageRet(st)
      && (ctx != null <==> st == Enqueued)
      && drv.log == old(drv.log) + DsaOpTrace(req.reqId, st, rid, EnqueuedDesc(req, a))
    ensures ctx != null ==>
      && fresh(ctx) && IsDsaType(req.reqType) && a.Allocated?
      && ctx.req == Some(req) && ctx.oprn == Some(Algs.Dsa)
      && ctx.mem.cBuffers == Prepared(req, a) && ctx.mem.desc == Built(req, a)
      && ctx.desc == DescAddr(ctx.mem.cBuffers)
      && ctx.opDone == Some(if IsEcdsa(VariantOf(req)) then EcdsaOpDoneHook else DsaOpDoneHook)
      && ctx.devIdx == devIdx
    ensures ctx != null ==>
      ctx.ctxPool == dev.ctxPool && ctx.mem.bufPool == dev.bufPools[rid] && ctx.mem.devIdx == devIdx
  {
    if !ctxOk {
      return -ENOMEM, null;
    }
    var c := new CryptoOpCtx();
    c.ctxPool := dev.ctxPool;
    c.mem.devIdx := devIdx;
    c.mem.bufPool := dev.bufPools[rid];

    if !IsDsaType(req.reqType) {
      drv.log := drv.log + [CtxTaken(req.reqId), CtxReleased(req.reqId)];
      return -EINVAL, null;
    }
    ret := PrepareJob(c.mem, req, a);
    if ret != 0 {
      drv.log := drv.log + [CtxTaken(req.reqId), CtxReleased(req.reqId)];
      return ret, null;
    }
    ret, ctx := Launch(drv, c, devIdx, rid, req, enqueueOk);
  }

  /**
   * The end of `dsa_op`, once the job is prepared: the context is filled in
   * and the descriptor's address enqueued; if the ring refuses it, the
   * buffers and then the context are given back.
   */
  method Launch(drv: Driver, c: CryptoOpCtx, devIdx: nat, rid: nat, req: PkcRequest, enqueueOk: bool)
    returns (ret: int, ctx: CryptoOpCtx?)
    modifies drv`log, c`req, c`oprn, c`desc, c`devIdx, c`opDone
    ensures ret == (if enqueueOk then -EINPROGRESS else -1)
    ensures ctx == (if enqueueOk then c else null)
    ensures drv.log == old(drv.log) +
      DsaOpTrace(req.reqId, if enqueueOk then Enqueued else EnqueueFailed, rid, DescAddr(c.mem.cBuffers))
    ensures c.req == Some(req) && c.oprn == Some(Algs.Dsa) && c.desc == DescAddr(c.mem.cBuffers)
    ensures c.opDone == Some(if IsEcdsa(VariantOf(req)) then EcdsaOpDoneHook else DsaOpDoneHook)
    ensures c.devIdx == devIdx
  {
    var secDma := DescAddr(c.mem.cBuffers);
    c.req := Some(req);
    c.oprn := Some(Algs.Dsa);
    c.desc := secDma;
    c.devIdx := devIdx;
    if IsEcdsa(VariantOf(req)) {
      c.opDone := Some(EcdsaOpDoneHook);
    } else {
      c.opDone := Some(DsaOpDoneHook);
    }

    if !enqueueOk {
      drv.log := drv.log + DsaOpTrace(req.reqId, EnqueueFailed, rid, secDma);
      return -1, null;
    }
    drv.log := drv.log + DsaOpTrace(req.reqId, Enqueued, rid, secDma);
    return -EINPROGRESS, c;
  }

  /**
   * The `switch` of `dsa_op` on a request type it handles: the buffer set
   * is made for the operation, the request's lengths and pointers are
   * copied in and the buffers allocated, and on success the descriptor is
   * built. `ecdsa` and `ecc_bin` come from the request's type and curve.
   */
  method PrepareJob(mem: CryptoMemInfo, req: PkcRequest, a: Allocation) returns (ret: int)
    requires IsDsaType(req.reqType)
    modifies mem`count, mem`cBuffers, mem`desc
    ensures a.AllocFailed? ==> ret == -ENOMEM
    ensures a.Allocated? ==> ret == 0 && mem.cBuffers == Prepared(req, a) && mem.desc == Built(req, a)
  {
    var v := VariantOf(req);
    if req.reqType in {DsaSign, EcdsaSign} {
      ret := PrepareSign(mem, req.reqU.dsaSign, v, a);
    } else if req.reqType in {DsaVerify, EcdsaVerify} {
      ret := PrepareVerify(mem, req.reqU.dsaVerify, v, a);
    } else {
      ret := PrepareKeygen(mem, req.reqU.dsaKeygen, v, a);
    }
  }

  /** The sign branch of the `switch` in `dsa_op`. */
  method PrepareSign(mem: CryptoMemInfo, req: DsaSignReq, v: Variant, a: Allocation) returns (ret: int)
    modifies mem`count, mem`cBuffers, mem`desc
    ensures a.AllocFailed? ==> ret == -ENOMEM
    ensures a.Allocated? ==> ret == 0 && mem.cBuffers == Sign(PreparedSign(req, IsEcdsa(v), a))
    ensures a.Allocated? ==> mem.desc == BuildSign(PreparedSign(req, IsEcdsa(v), a), v)
  {
    mem.SignInitCryptoMem(IsEcdsa(v));
    ret := mem.SignCpReq(req, IsEcdsa(v), a);
    if ret != 0 {
      return;
    }
    mem.ConstrSignDesc(v);
  }

  /** The verify branch of the `switch` in `dsa_op`. */
  method PrepareVerify(mem: CryptoMemInfo, req: DsaVerifyReq, v: Variant, a: Allocation) returns (ret: int)
    modifies mem`count, mem`cBuffers, mem`desc
    ensures a.AllocFailed? ==> ret == -ENOMEM
    ensures a.Allocated? ==> ret == 0 && mem.cBuffers == Verify(PreparedVerify(req, IsEcdsa(v), a))
    ensures a.Allocated? ==> mem.desc == BuildVerify(PreparedVerify(req, IsEcdsa(v), a), v)
  {
    mem.VerifyInitCryptoMem(IsEcdsa(v));
    ret := mem.VerifyCpReq(req, IsEcdsa(v), a);
    if ret != 0 {
      return;
    }
    mem.ConstrVerifyDesc(v);
  }

  /** The keygen branch of the `switch` in `dsa_op`. */
  method PrepareKeygen(mem: CryptoMemInfo, req: DsaKeygenReq, v: Variant, a: Allocation) returns (ret: int)
    modifies mem`count, mem`cBuffers, mem`desc
    ensures a.AllocFailed? ==> ret == -ENOMEM
    ensures a.Allocated? ==> ret == 0 && mem.cBuffers == Keygen(PreparedKeygen(req, IsEcdsa(v), a))
    ensures a.Allocated? ==> mem.desc == BuildKeygen(PreparedKeygen(req, IsEcdsa(v), a), v)
  {
    mem.KeygenInitCryptoMem(IsEcdsa(v));
    ret := mem.KeygenCpReq(req, IsEcdsa(v), a);
    if ret != 0 {
      return;
    }
    mem.ConstrKeygenDesc(v);
  }

  /**
   * `dsa_op_done`: the buffers are given back, the global DSA callback is
   * called with the result, and the context goes back to its pool. The
   * global callback is set only by requests that came with a `tfm`; the
   * call needs it to have been set.
   */
  method DsaOpDone(drv: Driver, ctx: CryptoOpCtx, res: u32)
    requires ctx.req.Some? && drv.dsaCompletionCb.Some?
    modifies drv`log
    ensures drv.log == old(drv.log) + DoneTrace(ctx.req.value.reqId, drv.dsaCompletionCb.value, res)
  {
    var id := ctx.req.value.reqId;
    drv.log := drv.log + [CryptoMemFreed(id)];
    drv.log := drv.log + [Completed(drv.dsaCompletionCb.value, id, res)];
    drv.log := drv.log + [CtxReleased(id)];
  }

  /** `ecdsa_op_done`: as `dsa_op_done`, with the global ECDSA callback. */
  method EcdsaOpDone(drv: Driver, ctx: CryptoOpCtx, res: u32)
    requires ctx.req.Some? && drv.ecdsaCompletionCb.Some?
    modifies drv`log
    ensures drv.log == old(drv.log) + DoneTrace(ctx.req.value.reqId, drv.ecdsaCompletionCb.value, res)
  {
    var id := ctx.req.value.reqId;
    drv.log := drv.log + [CryptoMemFreed(id)];
    drv.log := drv.log + [Completed(drv.ecdsaCompletionCb.value, id, res)];
    drv.log := drv.log + [CtxReleased(id)];
  }

  // ---------------------------------------------------------------------
  // Ownership
  // ---------------------------------------------------------------------

  /**
   * After `dsa_op`, request `id` holds a context and a buffer set exactly
   * when the job was enqueued; every failure gives back all it took.
   */
  lemma {:induction false} DsaOpHoldsOnlyOnSuccess(id: nat, st: Stage, rid: nat, desc: u64)
    ensures CtxHeld(DsaOpTrace(id, st, rid, desc), id) == (if st == Enqueued then 1 else 0)
    ensures MemHeld(DsaOpTrace(id, st, rid, desc), id) == (if st == Enqueued then 1 else 0)
  {
    match st
    case NoDevice | NoContext =>
    case BadType | NoMemory => ContextOnlyTrace(id);
    case EnqueueFailed => EnqueueFailedTrace(id, rid, desc);
    case Enqueued => EnqueuedTrace(id, rid, desc);
  }

  lemma ContextOnlyTrace(id: nat)
    ensures CtxHeld([CtxTaken(id), CtxReleased(id)], id) == 0
    ensures MemHeld([CtxTaken(id), CtxReleased(id)], id) == 0
  {
    HeldCons(CtxReleased(id), [], id);
    HeldCons(CtxTaken(id), [CtxReleased(id)], id);
  }

  lemma EnqueueFailedTrace(id: nat, rid: nat, desc: u64)
    ensures var es := [CtxTaken(id), CryptoMemAllocated(id), RingEnqueue(rid, desc, false), CryptoMemFreed(id), CtxReleased(id)];
      CtxHeld(es, id) == 0 && MemHeld(es, id) == 0
  {
    var head := [CtxTaken(id), CryptoMemAllocated(id)];
    var tail := [RingEnqueue(rid, desc, false), CryptoMemFreed(id), CtxReleased(id)];
    TakenBoth(id);
    UnwoundBoth(id, rid, desc);
    HeldAppend(head, tail, id);
    assert head + tail == [CtxTaken(id), CryptoMemAllocated(id), RingEnqueue(rid, desc, false), CryptoMemFreed(id), CtxReleased(id)];
  }

  lemma TakenBoth(id: nat)
    ensures CtxHeld([CtxTaken(id), CryptoMemAllocated(id)], id) == 1
    ensures MemHeld([CtxTaken(id), CryptoMemAllocated(id)], id) == 1
  {
    HeldCons(CryptoMemAllocated(id), [], id);
    HeldCons(CtxTaken(id), [CryptoMemAllocated(id)], id);
  }

  lemma UnwoundBoth(id: nat, rid: nat, desc: u64)
    ensures CtxHeld([RingEnqueue(rid, desc, false), CryptoMemFreed(id), CtxReleased(id)], id) == -1
    ensures MemHeld([RingEnqueue(rid, desc, false), CryptoMemFreed(id), CtxReleased(id)], id) == -1
  {
    HeldCons(CtxReleased(id), [], id);
    HeldCons(CryptoMemFreed(id), [CtxReleased(id)], id);
    HeldCons(RingEnqueue(rid, desc, false), [CryptoMemFreed(id), CtxReleased(id)], id);
  }

  lemma EnqueuedTrace(id: nat, rid: nat, desc: u64)
    ensures var es := [CtxTaken(id), CryptoMemAllocated(id), RingEnqueue(rid, desc, true)];
      CtxHeld(es, id) == 1 && MemHeld(es, id) == 1
  {
    var t1 := [RingEnqueue(rid, desc, true)];
    var t0 := [CryptoMemAllocated(id)] + t1;
    HeldCons(RingEnqueue(rid, desc, true), [], id);
    HeldCons(CryptoMemAllocated(id), t1, id);
    HeldCons(CtxTaken(id), t0, id);
    assert [CtxTaken(id)] + t0 == [CtxTaken(id), CryptoMemAllocated(id), RingEnqueue(rid, desc, true)];
  }

  /** What one event adds to the contexts request `id` holds. */
  function CtxStep(e: Event, id: nat): int {
    if e == CtxTaken(id) then 1 else if e == CtxReleased(id) then -1 else 0
  }

  /** What one event adds to the buffer sets request `id` holds. */
  function MemStep(e: Event, id: nat): int {
    if e == CryptoMemAllocated(id) then 1 else if e == CryptoMemFreed(id) then -1 else 0
  }

  /** Holdings change by one event at a time. */
  lemma HeldCons(e: Event, es: seq<Event>, id: nat)
    ensures CtxHeld([e] + es, id) == CtxStep(e, id) + CtxHeld(es, id)
    ensures MemHeld([e] + es, id) == MemStep(e, id) + MemHeld(es, id)
  {
    assert ([e] + es)[1..] == es;
  }

  /**
   * A job that was enqueued and then completed has given back its context
   * and its buffers; on completion the buffers go before the callback
   * runs, and the context after.
   */
  lemma CompletionReleasesAll(id: nat, rid: nat, desc: u64, cb: Callback, res: u32)
    ensures CtxHeld(DsaOpTrace(id, Enqueued, rid, desc) + DoneTrace(id, cb, res), id) == 0
    ensures MemHeld(DsaOpTrace(id, Enqueued, rid, desc) + DoneTrace(id, cb, res), id) == 0
    ensures var d := DoneTrace(id, cb, res);
      d[0] == CryptoMemFreed(id) && d[1] == Completed(cb, id, res) && d[2] == CtxReleased(id)
  {
    DsaOpHoldsOnlyOnSuccess(id, Enqueued, rid, desc);
    HeldCons(CtxReleased(id), [], id);
    HeldCons(Completed(cb, id, res), [CtxReleased(id)], id);
    HeldCons(CryptoMemFreed(id), [Completed(cb, id, res), CtxReleased(id)], id);
    HeldAppend(DsaOpTrace(id, Enqueued, rid, desc), DoneTrace(id, cb, res), id);
  }

  /** On an enqueue failure the buffers are freed before the context goes back. */
  lemma EnqueueFailureUnwindsInOrder(id: nat, rid: nat, desc: u64)
    ensures var es := DsaOpTrace(id, EnqueueFailed, rid, desc);
      es[2] == RingEnqueue(rid, desc, false) && es[3] == CryptoMemFreed(id) && es[4] == CtxReleased(id)
  {}

  /** The address `dsa_op` enqueues is the device address the allocator gave the descriptor buffer. */
  lemma EnqueuedAddressIsDescBuffer(req: PkcRequest, a: Allocation)
    requires IsDsaType(req.reqType) && a.Allocated?
    ensures var cb := Prepared(req, a);
      DescAddr(cb) == a.devOf(if cb.Keygen? then 5 else 6)
  {
  }
}
