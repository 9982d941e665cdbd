/**
 * The run-time objects the job path works on: a crypto device
 * (`fsl_crypto_dev_t` / `struct c29x_dev`, only the fields this part of the
 * driver reads or updates), the driver-wide globals, and the log of calls
 * into code that is not part of the model (pool and DMA release, context
 * pool, ring enqueue, completion callbacks). Every release, every enqueue
 * and every callback appends one `Event`, and so does every successful
 * acquisition of a context or of buffer memory; a failed acquisition leaves
 * no trace. The order of the log is the order of the calls.
 */
module Dev {
  import opened Common
  import opened Requests

  /** The buffers the completion path hands back, named after the request fields that hold them. */
  datatype Operand = N | G | F | Q | C | D | Z | ReqMem

  /** Which `dev_mem` record of a job context is freed: `rsa`, `dsa` or `dh`. */
  datatype MemKind = RsaRecord | DsaRecord | DhRecord

  datatype Event =
    /** `sec_jr_strstatus`: the result word is decoded and reported. */
    | StatusDecoded(status: i32)
    /** `put_buffer`: a buffer goes back to the context's memory pool. */
    | PoolBufferPut(buf: Operand)
    /** `pci_unmap_single` of the mapping of `buf`, with the length field of `lenOf`. */
    | Unmapped(buf: Operand, lenOf: Operand)
    /** `kfree(ctx->dev_mem.*)`. */
    | DevMemFreed(kind: MemKind)
    /** The request's completion callback, called with the result. */
    | Completed(cb: Callback, reqId: nat, result: int)
    /** `kfree(ctx)` of a job context. */
    | JobCtxFreed
    /** `get_crypto_ctx` handed out a context for request `reqId`. */
    | CtxTaken(reqId: nat)
    /** `alloc_crypto_mem` gave the request's buffers pool memory. */
    | CryptoMemAllocated(reqId: nat)
    /** `dealloc_crypto_mem`. */
    | CryptoMemFreed(reqId: nat)
    /** `free_crypto_ctx`. */
    | CtxReleased(reqId: nat)
    /** `ring_enqueue` of descriptor address `desc` on ring `rid`; `ok` is whether it was accepted. */
    | RingEnqueue(rid: nat, desc: u64, ok: bool)

  /** One crypto device. */
  class Device {
    /** The per-CPU `device_status` flag (nonzero: alive); one flag per device here. */
    var alive: bool
    /** `active_jobs`. */
    var activeJobs: nat
    /** `num_of_rings`: ring 0 is the command ring, the others serve applications. */
    var numOfRings: u32
    /** `num_of_rps`: the number of ring pairs. */
    var numOfRps: nat
    /** `crypto_dev_sess_cnt`, a 32-bit atomic counter. */
    var sessCnt: u32
    /** `ring_pairs[i].buf_pool` for each ring pair `i`. */
    var bufPools: seq<nat>
    /** `ctx_pool`. */
    var ctxPool: nat

    constructor (alive: bool, numOfRings: u32, bufPools: seq<nat>, ctxPool: nat)
      ensures this.alive == alive && activeJobs == 0 && this.numOfRings == numOfRings
      ensures numOfRps == |bufPools| && sessCnt == 0 && this.bufPools == bufPools && this.ctxPool == ctxPool
    {
      this.alive := alive;
      activeJobs := 0;
      this.numOfRings := numOfRings;
      numOfRps := |bufPools|;
      sessCnt := 0;
      this.bufPools := bufPools;
      this.ctxPool := ctxPool;
    }
  }

  /** The driver's globals. */
  class Driver {
    /** `selected_devices`, the 32-bit atomic round-robin counter. */
    var selectedDevices: u32
    /** What `get_no_of_devices` returns. */
    var noOfDevices: u32
    /** `get_crypto_dev(i)`: the device numbered `i`, absent when the lookup yields NULL. */
    var devices: map<nat, Device>
    /** The global `dsa_completion_cb` / `ecdsa_completion_cb`: NULL until a request with a `tfm` sets them. */
    var dsaCompletionCb: Option<Callback>
    var ecdsaCompletionCb: Option<Callback>
    /** The calls made so far into code outside the model. */
    var log: seq<Event>

    constructor (noOfDevices: u32, devices: map<nat, Device>)
      ensures selectedDevices == 0 && this.noOfDevices == noOfDevices && this.devices == devices
      ensures dsaCompletionCb == None && ecdsaCompletionCb == None && log == []
    {
      selectedDevices := 0;
      this.noOfDevices := noOfDevices;
      this.devices := devices;
      dsaCompletionCb, ecdsaCompletionCb := None, None;
      log := [];
    }

    /** The liveness flag of every device `get_crypto_dev` can return. */
    function Liveness(): (live: map<nat, bool>)
      reads this`devices, devices.Values
      ensures live.Keys == devices.Keys
      ensures forall i :: i in devices ==> live[i] == devices[i].alive
    {
      map i | i in devices :: devices[i].alive
    }
  }

  // ---------------------------------------------------------------------
  // Ownership read off the log
  // ---------------------------------------------------------------------

  /** How many times `e` occurs in `es`. */
  function Occurrences(es: seq<Event>, e: Event): (n: nat)
    ensures n <= |es|
    ensures n == 0 <==> e !in es
  {
    if es == [] then 0 else (if es[0] == e then 1 else 0) + Occurrences(es[1..], e)
  }

  lemma {:induction false} OccurrencesAppend(xs: seq<Event>, ys: seq<Event>, e: Event)
    ensures Occurrences(xs + ys, e) == Occurrences(xs, e) + Occurrences(ys, e)
  {
    if xs == [] {
      assert xs + ys == ys;
    } else {
      assert (xs + ys)[1..] == xs[1..] + ys;
      OccurrencesAppend(xs[1..], ys, e);
    }
  }

  /** Contexts request `id` holds after `es`: taken minus released. */
  function CtxHeld(es: seq<Event>, id: nat): int {
    Occurrences(es, CtxTaken(id)) - Occurrences(es, CtxReleased(id))
  }

  /** Buffer sets request `id` holds after `es`: allocated minus freed. */
  function MemHeld(es: seq<Event>, id: nat): int {
    Occurrences(es, CryptoMemAllocated(id)) - Occurrences(es, CryptoMemFreed(id))
  }

  /** Holdings add up over consecutive stretches of the log. */
  lemma HeldAppend(xs: seq<Event>, ys: seq<Event>, id: nat)
    ensures CtxHeld(xs + ys, id) == CtxHeld(xs, id) + CtxHeld(ys, id)
    ensures MemHeld(xs + ys, id) == MemHeld(xs, id) + MemHeld(ys, id)
  {
    OccurrencesAppend(xs, ys, CtxTaken(id));
    OccurrencesAppend(xs, ys, CtxReleased(id));
    OccurrencesAppend(xs, ys, CryptoMemAllocated(id));
    OccurrencesAppend(xs, ys, CryptoMemFreed(id));
  }
}
