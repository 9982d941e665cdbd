/**
 * `algs.c`: completion dispatch (`crypto_op_done`), the liveness gate
 * (`check_device`), round-robin choice of a device (`get_device_rr`) and
 * of an application ring (`get_ring_rr`), the SEC affinity bits of a
 * descriptor address (`set_sec_affinity`) and the word-by-word big-endian
 * copy of a descriptor to device memory (`change_desc_endianness`).
 */
module Algs {
  import opened Common
  import opened ByteOrder
  import opened Requests
  import opened Dev

  // ---------------------------------------------------------------------
  // crypto_op_done
  // ---------------------------------------------------------------------

  /** `ctx->oprn`: the kind of operation a job context was created for. */
  datatype Oprn = Rsa | Dsa | Dh | Rng | RngInit | RngSelfTest

  /** `crypto_job_ctx_t`, as far as completion reads it. */
  datatype JobCtx = JobCtx(oprn: Oprn, req: PkcRequest)

  /** The result the firmware reports for a job it discarded (on SEC or device reset). */
  const JOB_DISCARDED: int := -1

  /** The operations whose completion goes through the request's callback. */
  predicate IsPkcOprn(o: Oprn) {
    o == Rsa || o == Dsa || o == Dh
  }

  /**
   * What completion hands back for a request of type `t`: the first pool
   * buffer of the request, the host mappings of its outputs, the request
   * memory, and the `dev_mem` record; nothing for any other type.
   */
  function Releases(t: PkcReqType): (es: seq<Event>)
    ensures es != [] ==> 3 <= |es| && es[|es| - 1].DevMemFreed? && es[|es| - 2] == PoolBufferPut(ReqMem)
    ensures es == [] <==> t in {DsaKeygen, EcdsaKeygen, OtherReqType}
  {
    match t
    case RsaPub => [PoolBufferPut(N), Unmapped(G, G), PoolBufferPut(ReqMem), DevMemFreed(RsaRecord)]
    case RsaPrivForm1 => [PoolBufferPut(N), Unmapped(F, F), PoolBufferPut(ReqMem), DevMemFreed(RsaRecord)]
    case RsaPrivForm2 => [PoolBufferPut(G), Unmapped(F, F), PoolBufferPut(ReqMem), DevMemFreed(RsaRecord)]
    case RsaPrivForm3 => [PoolBufferPut(G), Unmapped(F, F), PoolBufferPut(ReqMem), DevMemFreed(RsaRecord)]
    case DsaSign | EcdsaSign =>
      [PoolBufferPut(Q), Unmapped(C, D), Unmapped(D, D), PoolBufferPut(ReqMem), DevMemFreed(DsaRecord)]
    case DsaVerify | EcdsaVerify => [PoolBufferPut(Q), PoolBufferPut(ReqMem), DevMemFreed(DsaRecord)]
    case DhComputeKey | EcdhComputeKey =>
      [PoolBufferPut(Q), Unmapped(Z, Z), PoolBufferPut(ReqMem), DevMemFreed(DhRecord)]
    case DsaKeygen | EcdsaKeygen | OtherReqType => []
  }

  /** The callback completion uses: the crypto API's when the request has a `tfm`, the context's own otherwise. */
  function CallbackOf(req: PkcRequest): Callback {
    if req.session.Some? then PkcRequestComplete else CtxDone
  }

  /** The calls `crypto_op_done(ctx, sec_result)` makes, in order. */
  function OpDoneEvents(ctx: JobCtx, secResult: i32): (es: seq<Event>)
  {
    (if secResult == JOB_DISCARDED then [] else [StatusDecoded(secResult)])
    + (if IsPkcOprn(ctx.oprn)
       then Releases(ctx.req.reqType) + [Completed(CallbackOf(ctx.req), ctx.req.reqId, secResult), JobCtxFreed]
       else [])
  }

  /** `crypto_op_done`. */
  method CryptoOpDone(drv: Driver, ctx: JobCtx, secResult: i32)
    modifies drv`log
    ensures drv.log == old(drv.log) + OpDoneEvents(ctx, secResult)
  {
    var es: seq<Event> := [];
    if secResult != JOB_DISCARDED {
      es := es + [StatusDecoded(secResult)];
    }
    match ctx.oprn {
      case Rsa | Dsa | Dh =>
        es := es + Releases(ctx.req.reqType);
        if ctx.req.session.Some? {
          es := es + [Completed(PkcRequestComplete, ctx.req.reqId, secResult)];
        } else {
          es := es + [Completed(CtxDone, ctx.req.reqId, secResult)];
        }
        es := es + [JobCtxFreed];
      case Rng | RngInit | RngSelfTest =>
    }
    drv.log := drv.log + es;
  }

  /** A discarded job is not decoded; every other result is decoded, and no other status is. */
  lemma DiscardedIsNotDecoded(ctx: JobCtx, secResult: i32, r: i32)
    ensures StatusDecoded(r) in OpDoneEvents(ctx, secResult) <==> r == secResult && secResult != JOB_DISCARDED
  {
    var es := OpDoneEvents(ctx, secResult);
    if IsPkcOprn(ctx.oprn) {
      var tail := Releases(ctx.req.reqType) + [Completed(CallbackOf(ctx.req), ctx.req.reqId, secResult), JobCtxFreed];
      assert StatusDecoded(r) !in tail;
    }
  }

  /**
   * For RSA, DSA and DH jobs, the callback is called exactly once, with
   * the result, after every buffer and the `dev_mem` record have been
   * released, and the context is freed last.
   */
  lemma ReleasesPrecedeCallback(ctx: JobCtx, secResult: i32)
    requires IsPkcOprn(ctx.oprn)
    ensures var es := OpDoneEvents(ctx, secResult);
      var k := |es| - 2;
      && 0 <= k
      && es[k] == Completed(CallbackOf(ctx.req), ctx.req.reqId, secResult)
      && es[k + 1] == JobCtxFreed
      && (forall i :: 0 <= i < k ==> !es[i].Completed? && es[i] != JobCtxFreed)
      && (forall i :: 0 <= i < |es| && (es[i].PoolBufferPut? || es[i].Unmapped? || es[i].DevMemFreed?) ==> i < k)
  {
    var pre := if secResult == JOB_DISCARDED then [] else [StatusDecoded(secResult)];
    var rel := Releases(ctx.req.reqType);
    var es := OpDoneEvents(ctx, secResult);
    assert es == (pre + rel) + [Completed(CallbackOf(ctx.req), ctx.req.reqId, secResult), JobCtxFreed];
    assert forall i :: 0 <= i < |pre + rel| ==> (pre + rel)[i] in pre || (pre + rel)[i] in rel;
  }

  /** The random-number operations release nothing and call no callback. */
  lemma RngCallsNothing(ctx: JobCtx, secResult: i32)
    requires !IsPkcOprn(ctx.oprn)
    ensures OpDoneEvents(ctx, secResult) == if secResult == JOB_DISCARDED then [] else [StatusDecoded(secResult)]
  {}

  // ---------------------------------------------------------------------
  // check_device
  // ---------------------------------------------------------------------

  /** `check_device`: a dead device is refused; a live one counts one more active job. */
  method CheckDevice(d: Device) returns (ret: int)
    modifies d`activeJobs
    ensures !d.alive ==> ret == -1 && d.activeJobs == old(d.activeJobs)
    ensures d.alive ==> ret == 0 && d.activeJobs == old(d.activeJobs) + 1
  {
    if !d.alive {
      return -1;
    }
    d.activeJobs := d.activeJobs + 1;
    ret := 0;
  }

  // ---------------------------------------------------------------------
  // get_device_rr
  // ---------------------------------------------------------------------

  /**
   * The device number counter value `ctr` designates among `n` devices.
   * `atomic_inc_return` yields `ctr + 1` modulo 2^32, and subtracting one
   * in 32 bits gives `ctr` back, so the number is `(ctr mod n) + 1`.
   */
  function Candidate(ctr: u32, n: nat): (i: nat)
    requires n > 0
    ensures 1 <= i <= n
  {
    ctr % n + 1
  }

  /** Why `get_device_rr` returned what it did; it returns NULL in every case but `Picked`. */
  datatype Pick = Picked(idx: nat) | NoDeviceConfigured | MissingDevice | NoLiveDevice

  /** A choice and the number of counter increments (probes) it took. */
  datatype RrOutcome = RrOutcome(pick: Pick, probes: nat)

  /**
   * The probing loop from counter value `ctr` with `left` probes to go:
   * a device the lookup cannot find ends the search, a live one is chosen,
   * a dead one is skipped.
   */
  function Probe(live: map<nat, bool>, ctr: u32, n: nat, left: nat): (o: RrOutcome)
    requires n > 0
    decreases left
    ensures o.probes <= left && (left > 0 ==> 1 <= o.probes)
    ensures o.pick.Picked? ==> 1 <= o.pick.idx <= n && o.pick.idx in live && live[o.pick.idx]
    ensures o.pick != NoDeviceConfigured
    ensures o.pick == NoLiveDevice ==> o.probes == left
  {
    if left == 0 then RrOutcome(NoLiveDevice, 0)
    else
      var i := Candidate(ctr, n);
      if i !in live then RrOutcome(MissingDevice, 1)
      else if live[i] then RrOutcome(Picked(i), 1)
      else
        var o := Probe(live, Inc32(ctr), n, left - 1);
        RrOutcome(o.pick, o.probes + 1)
  }

  /** `get_device_rr` on the liveness flags `live`, counter `ctr` and `n` configured devices. */
  function RoundRobin(live: map<nat, bool>, ctr: u32, n: u32): (o: RrOutcome)
    ensures o.pick == NoDeviceConfigured <==> n == 0
    ensures o.probes <= n && (n > 0 ==> 1 <= o.probes)
    ensures o.pick.Picked? ==> 1 <= o.pick.idx <= n && o.pick.idx in live && live[o.pick.idx]
  {
    if n == 0 then RrOutcome(NoDeviceConfigured, 0) else Probe(live, ctr, n, n)
  }

  /** Counting in 32 bits: one increment after `k` is `k + 1` increments. */
  lemma WrapStep(c: u32, k: nat)
    ensures Inc32(Wrap32(c as int + k)) == Wrap32(c as int + (k + 1))
  {
  }

  /** An outcome reached after `k` earlier probes. */
  function Shifted(o: RrOutcome, k: nat): RrOutcome {
    RrOutcome(o.pick, o.probes + k)
  }

  /**
   * One turn of the probing loop: after `count` probes that found only
   * dead devices, the next candidate decides the outcome or the search
   * goes on from the next counter value.
   */
  lemma ProbeTurn(live: map<nat, bool>, ctr0: u32, n: nat, count: nat, next: nat, ctr: u32)
    requires 0 < n && count < n && next == count + 1 && ctr == Wrap32(ctr0 as int + count)
    requires Probe(live, ctr0, n, n) == Shifted(Probe(live, ctr, n, n - count), count)
    ensures Inc32(ctr) == Wrap32(ctr0 as int + next)
    ensures var i := Candidate(ctr, n);
      && (i !in live ==> Probe(live, ctr0, n, n) == RrOutcome(MissingDevice, next))
      && (i in live && live[i] ==> Probe(live, ctr0, n, n) == RrOutcome(Picked(i), next))
      && (i in live && !live[i] ==>
            Probe(live, ctr0, n, n) == Shifted(Probe(live, Inc32(ctr), n, n - next), next))
  {
    WrapStep(ctr0, count);
  }

  /** `get_device_rr`. */
  method GetDeviceRr(drv: Driver) returns (r: Device?)
    modifies drv`selectedDevices
    ensures var o := RoundRobin(drv.Liveness(), old(drv.selectedDevices), drv.noOfDevices);
      && drv.selectedDevices == Wrap32(old(drv.selectedDevices) as int + o.probes)
      && (r == null <==> !o.pick.Picked?)
      && (o.pick.Picked? ==> r == drv.devices[o.pick.idx])
  {
    var n := drv.noOfDevices;
    if n == 0 {
      return null;
    }
    ghost var live := drv.Liveness();
    ghost var ctr0 := drv.selectedDevices;
    var status := false;
    var count: nat := 0;
    r := null;
    ghost var idx := 0;
    ghost var o := RoundRobin(live, ctr0, n);
    assert o == Probe(live, ctr0, n, n);
    while !status && count < n
      invariant count <= n
      invariant drv.selectedDevices == Wrap32(ctr0 as int + count)
      invariant live == drv.Liveness()
      invariant !status ==> o == Shifted(Probe(live, drv.selectedDevices, n, n - count), count)
      invariant status ==> o == RrOutcome(Picked(idx), count)
      invariant status ==> idx in drv.devices && r == drv.devices[idx]
    {
      var newDevice := Candidate(drv.selectedDevices, n);
      var next := count + 1;
      ProbeTurn(live, ctr0, n, count, next, drv.selectedDevices);
      drv.selectedDevices := Inc32(drv.selectedDevices);
      if newDevice !in drv.devices {
        assert o == RrOutcome(MissingDevice, next);
        return null;
      }
      r := drv.devices[newDevice];
      status := r.alive;
      assert status == live[newDevice];
      idx := newDevice;
      count := next;
    }
    if !status {
      return null;
    }
  }

  /** Every device in 1..n is configured and alive. */
  predicate AllAlive(live: map<nat, bool>, n: nat) {
    forall i :: 1 <= i <= n ==> i in live && live[i]
  }

  /** With every device alive, one call takes one probe and picks the device the counter designates. */
  lemma AllAlivePicksCandidate(live: map<nat, bool>, ctr: u32, n: u32)
    requires n > 0 && AllAlive(live, n)
    ensures RoundRobin(live, ctr, n) == RrOutcome(Picked(Candidate(ctr, n)), 1)
  {}

  /** The devices `k` consecutive calls return, starting from counter value `ctr`. */
  function Calls(live: map<nat, bool>, ctr: u32, n: u32, k: nat): (ps: seq<Pick>)
    decreases k
    ensures |ps| == k
  {
    if k == 0 then []
    else
      var o := RoundRobin(live, ctr, n);
      [o.pick] + Calls(live, Wrap32(ctr as int + o.probes), n, k - 1)
  }

  /** With every device alive, call `j` picks the device designated by the counter advanced by `j`. */
  lemma {:induction false} AllAliveCalls(live: map<nat, bool>, ctr: u32, n: u32, k: nat, j: nat)
    requires n > 0 && AllAlive(live, n) && j < k
    decreases j
    ensures Calls(live, ctr, n, k)[j] == Picked(Candidate(Wrap32(ctr as int + j), n))
  {
    AllAlivePicksCandidate(live, ctr, n);
    if j > 0 {
      AllAliveCalls(live, Wrap32(ctr as int + 1), n, k - 1, j - 1);
      WrapShift(ctr as int + 1, j - 1);
    }
  }

  /** Reducing early does not change a sum modulo 2^32. */
  lemma WrapShift(x: nat, j: nat)
    ensures Wrap32(Wrap32(x) as int + j) == Wrap32(x + j)
  {}

  lemma MulZero(k: int, m: int)
    requires m > 0 && -m < k * m < m
    ensures k == 0
  {}

  /** Quotient and remainder are unique. */
  lemma ModUnique(a: int, m: int, q: int, r: int)
    requires m > 0 && 0 <= r < m && a == q * m + r
    ensures a % m == r
  {
    var q', r' := a / m, a % m;
    assert a == q' * m + r';
    assert (q - q') * m == r' - r;
    MulZero(q - q', m);
  }

  /** `(s + j) mod n` for `s, j < n`, without division. */
  function Rot(s: nat, j: nat, n: nat): nat {
    if s + j < n then s + j else s + j - n
  }

  lemma ModRot(c: nat, j: nat, n: nat)
    requires j < n
    ensures (c + j) % n == Rot(c % n, j, n)
  {
    var q, s := c / n, c % n;
    assert c == q * n + s;
    if s + j < n {
      ModUnique(c + j, n, q, s + j);
    } else {
      assert c + j == (q + 1) * n + (s + j - n);
      ModUnique(c + j, n, q + 1, s + j - n);
    }
  }

  /**
   * With every device alive and no wrap of the counter, `n` consecutive
   * calls return each of the devices 1..n exactly once.
   */
  lemma AllAliveVisitsEachOnce(live: map<nat, bool>, ctr: u32, n: u32)
    requires n > 0 && AllAlive(live, n) && ctr + n <= TWO_32
    ensures var ps := Calls(live, ctr, n, n);
      && (forall i :: 0 <= i < n ==> ps[i].Picked? && 1 <= ps[i].idx <= n)
      && (forall i, j :: 0 <= i < j < n ==> ps[i] != ps[j])
      && (forall d :: 1 <= d <= n ==> Picked(d) in ps)
  {
    var ps := Calls(live, ctr, n, n);
    var s := ctr % n;
    forall i | 0 <= i < n
      ensures ps[i] == Picked(Rot(s, i, n) + 1)
    {
      AllAliveCalls(live, ctr, n, n, i);
      ModRot(ctr, i, n);
    }
    forall d | 1 <= d <= n
      ensures Picked(d) in ps
    {
      var i := if s <= d - 1 then d - 1 - s else d - 1 + n - s;
      assert ps[i] == Picked(d);
    }
  }

  /**
   * Past the end of the counter the cycle restarts early: with three live
   * devices and the counter at 2^32 - 1, two consecutive calls both
   * return device 1.
   */
  lemma CounterWrapRepeatsDevice()
    ensures var live := map[1 := true, 2 := true, 3 := true];
      Calls(live, TWO_32 - 1, 3, 2) == [Picked(1), Picked(1)]
  {
    var live := map[1 := true, 2 := true, 3 := true];
    AllAlivePicksCandidate(live, TWO_32 - 1, 3);
    AllAlivePicksCandidate(live, 0, 3);
  }

  // ---------------------------------------------------------------------
  // get_ring_rr
  // ---------------------------------------------------------------------

  /** A ring choice and the session counter after it. */
  datatype RingChoice = RingChoice(rid: u32, ctr: u32)

  /**
   * `get_ring_rr` with `num_of_rings` rings and session counter `ctr`.
   * `num_of_rings - 1` is computed in 32 bits, so with no rings at all it
   * is 2^32 - 1.
   */
  function RingRr(numOfRings: u32, ctr: u32): (c: RingChoice)
    ensures numOfRings > 1 ==> 1 <= c.rid <= numOfRings - 1 && c.ctr == Inc32(ctr)
    ensures numOfRings == 1 ==> c.rid == 0 && c.ctr == ctr
    ensures numOfRings == 0 ==> 1 <= c.rid && c.ctr == Inc32(ctr)
  {
    var appRings := Wrap32(numOfRings as int - 1);
    if 0 < appRings then RingChoice(ctr % appRings + 1, Inc32(ctr)) else RingChoice(0, ctr)
  }

  /** `get_ring_rr`. */
  method GetRingRr(d: Device) returns (rid: u32)
    modifies d`sessCnt
    ensures RingRr(d.numOfRings, old(d.sessCnt)) == RingChoice(rid, d.sessCnt)
  {
    var appRings := Wrap32(d.numOfRings as int - 1);
    rid := 0;
    if 0 < appRings {
      d.sessCnt := Inc32(d.sessCnt);
      rid := Wrap32(d.sessCnt as int - 1) % appRings + 1;
    }
  }

  /**
   * Consecutive calls cycle through the application rings in order: the
   * next ring is the one after, and after the last comes ring 1.
   */
  lemma RingRrCycles(numOfRings: u32, ctr: u32)
    requires numOfRings > 1 && ctr < TWO_32 - 1
    ensures var c := RingRr(numOfRings, ctr);
      var next := RingRr(numOfRings, c.ctr);
      next.rid == if c.rid == numOfRings - 1 then 1 else c.rid + 1
  {
    if numOfRings > 2 {
      ModRot(ctr, 1, numOfRings - 1);
    }
  }

  // ---------------------------------------------------------------------
  // set_sec_affinity
  // ---------------------------------------------------------------------

  /**
   * `set_sec_affinity`: the descriptor address with the SEC number of the
   * ring's flags ORed into its low bits. `secNo` is what `f_get_a` reads
   * from the ring's flags.
   */
  function SetSecAffinity(desc: bv64, secNo: bv32): (r: bv64)
    ensures r & desc == desc
  {
    desc | secNo as bv64
  }

  /** Every bit of the SEC number is set in the result. */
  lemma AffinityHasSecBits(desc: bv64, secNo: bv32)
    ensures SetSecAffinity(desc, secNo) & (secNo as bv64) == secNo as bv64
  {}

  /** The only bits the result adds to the address are bits of the SEC number. */
  lemma AffinityAddsOnlySecBits(desc: bv64, secNo: bv32)
    ensures SetSecAffinity(desc, secNo) & !desc == (secNo as bv64) & !desc
  {}

  /** The upper half of the address is never touched. */
  lemma AffinityKeepsUpperHalf(desc: bv64, secNo: bv32)
    ensures SetSecAffinity(desc, secNo) >> 32 == desc >> 32
  {}

  // ---------------------------------------------------------------------
  // change_desc_endianness
  // ---------------------------------------------------------------------

  /**
   * `change_desc_endianness`: `words` words of `hostMem` are written to
   * `devMem`, word `i` as the four big-endian bytes at offset `4 * i`;
   * nothing past them is written.
   */
  method ChangeDescEndianness(devMem: array<byte>, hostMem: array<u32>, words: i32)
    requires 0 <= words && words <= hostMem.Length && 4 * words <= devMem.Length
    modifies devMem
    ensures forall i :: 0 <= i < words ==> devMem[4 * i .. 4 * i + 4] == Be32(hostMem[i])
    ensures forall j :: 4 * words <= j < devMem.Length ==> devMem[j] == old(devMem[j])
  {
    var k := 0;
    while k < words
      invariant 0 <= k <= words
      invariant forall i :: 0 <= i < k ==> devMem[4 * i .. 4 * i + 4] == Be32(hostMem[i])
      invariant forall j :: 4 * k <= j < devMem.Length ==> devMem[j] == old(devMem[j])
    {
      var b := Be32(hostMem[k]);
      devMem[4 * k] := b[0];
      devMem[4 * k + 1] := b[1];
      devMem[4 * k + 2] := b[2];
      devMem[4 * k + 3] := b[3];
      assert devMem[4 * k .. 4 * k + 4] == b;
      k := k + 1;
    }
  }

  /** Reading the device copy back with `ioread32be` yields the host word. */
  lemma DeviceCopyReadsBack(dev: seq<byte>, host: seq<u32>, i: nat)
    requires i < |host| && 4 * i + 4 <= |dev| && dev[4 * i .. 4 * i + 4] == Be32(host[i])
    ensures ReadBe32(dev, 4 * i) == host[i]
  {
    var x := ReadBe32(dev, 4 * i);
    assert FromBigEndian(Be32(x)) == x;
  }
}
