# DSA/ECDSA job path of the C29x public-key accelerator driver, in Dafny

This project models the part of the host driver for the Freescale/NXP C29x
public-key crypto accelerator that turns a DSA or ECDSA request into a job on
a device ring, and that completes it. It also proves properties of that model.

- **Request preparation** (`algs/dsa.c`):
  - `dsa_*_init_crypto_mem` sets the slot count and the role of each buffer.
  - `dsa_*_init_len` sets the operand lengths.
  - `dsa_*_cp_req` runs the allocation and records the caller's pointers.
  - The six `constr_*_desc` builders write the accelerator descriptor: its
    header word, its `sgf_ln` length word, its protocol operation word and,
    for signing, its small command program.
- **`dsa_op`** picks a device and a ring, takes a context, prepares the job
  and enqueues the descriptor address. On every failure it gives back what it
  took, in reverse order.
- **`dsa_op_done` / `ecdsa_op_done`** free the buffers, call the completion
  callback and give back the context.
- **Shared helpers** (`algs/algs.c`):
  - `crypto_op_done` is the generic completion.
  - `check_device` is the liveness gate.
  - `get_device_rr` and `get_ring_rr` do round-robin choice of a device and of
    an application ring.
  - `set_sec_affinity` sets the SEC affinity bits of a descriptor address.
  - `change_desc_endianness` copies a descriptor word by word in big-endian
    order.
- **Shared definitions** (`host_driver/fsl_c2x0_crypto_layer.h`): the handshake
  states and commands, the memory-region kinds, the ring-flag bit fields, the
  ring configuration and the request/response ring entries.

Modules, one per file:

- `common.dfy` (module `Common`): C integer widths: `u32`, `u64`, `i32`, wrap-around, `atomic_inc_return` on a 32-bit counter, error numbers.
- `byte_order.dfy` (module `ByteOrder`): big-endian images of words (`cpu_to_be32/64`, `iowrite32be`, `ioread32be`).
- `crypto_layer.dfy` (module `CryptoLayer`): the definitions of `fsl_c2x0_crypto_layer.h`.
- `buffers.dfy` (module `Buffers`): `buffer_info_t` and the three DSA buffer sets.
- `requests.dfy` (module `Requests`): `struct pkc_request`, as far as these paths read it.
- `dsa_desc.dfy` (module `DsaDesc`): descriptor words and the six builders, as pure functions.
- `dsa_mem.dfy` (module `DsaMem`): class `CryptoMemInfo` (`crypto_mem_info_t`), whose methods are the preparation steps.
- `dev.dfy` (module `Dev`): classes `Device` and `Driver`, and the event log of calls into code outside the model.
- `algs.dfy` (module `Algs`): `algs.c`.
- `dsa_op.dfy` (module `DsaOp`): `dsa_op`, `dsa_op_done`, `ecdsa_op_done`, and ownership of contexts and buffers.

**Calls into code outside the model:**
- These are `get_crypto_ctx`, `alloc_crypto_mem`, `ring_enqueue`,
  `dealloc_crypto_mem`, `free_crypto_ctx`, `put_buffer`, `pci_unmap_single`,
  `kfree`, `sec_jr_strstatus` and the completion callbacks.
- Every release, enqueue and callback appends one `Event` to `Driver.log`.
  So does every successful acquisition of a context or of buffer memory. A
  failed acquisition leaves no trace in the log.
- Where such a call can fail, its outcome is a parameter: `ctxOk`, the
  `Allocation` value `a`, and `enqueueOk`.
- From the log, `CtxHeld` and `MemHeld` count the contexts and buffer sets a
  request holds.

**Constants without values:** the descriptor constants (`HDR_*`, `CMD_*`,
`OP_*`, `MOVE_*`, `FIFO*`) and the descriptor structure sizes come from
headers outside this model. They are declared without a value, so each
descriptor fact holds for any values. Where a fact needs the fields laid out
apart, it says so with `HeaderLayoutOk`, `VariantBitsFree` or
`LengthFieldClear`.

**C arithmetic** is written out:
- Counters are `u32` and wrap; `Inc32` is `atomic_inc_return`.
- `num_of_rings - 1` and `2 * d_len` are computed in 32 bits.
- `tmp + r_len` is computed in 64 bits.
- The `int32_t` arithmetic in `get_ring_rr` is taken to wrap, as the kernel
  compiles with wrapping signed overflow.
- Consequences of the wrap:
  - `get_device_rr` picks device `counter mod n + 1`.
  - `get_ring_rr` picks ring `counter mod (num_of_rings - 1) + 1`.

## Model

| member | source | states |
|---|---|---|
| Common.Inc32 | algs/algs.c:266-267 | `atomic_inc_return` on a 32-bit counter: old value plus one, and 0 after 2^32 - 1 |
| ByteOrder.DecodeEncode | algs/algs.c:348 | reading back a big-endian image of `n` bytes gives the value that was written |
| ByteOrder.EncodeDecode | algs/algs.c:348 | every byte string is the image of the value it denotes |
| ByteOrder.Be32 | algs/algs.c:348 | `iowrite32be` writes four bytes that denote the word |
| ByteOrder.ReadBe32 | algs/algs.c:332 | `ioread32be` of four bytes gives the word whose image they are |
| CryptoLayer.Rank | host_driver/fsl_c2x0_crypto_layer.h:54-65 | bring-up position of a handshake state: DEFAULT first, FW_RNG_COMPLETE last |
| CryptoLayer.StateCode | host_driver/fsl_c2x0_crypto_layer.h:54-65 | enumerator values: DEFAULT is 0, FIRMWARE_UP is 10, each later state one more, FW_RNG_COMPLETE is 18 |
| CryptoLayer.StateOfCode | host_driver/fsl_c2x0_crypto_layer.h:54-65 | a posted value names a state exactly when it is 0 or 10..18, and names the state with that value |
| CryptoLayer.StateCodeInjective | host_driver/fsl_c2x0_crypto_layer.h:54-65 | distinct states have distinct values |
| CryptoLayer.Successor | host_driver/fsl_c2x0_crypto_layer.h:54-65 | every state but FW_RNG_COMPLETE has a next one, and its value is one higher (after FIRMWARE_UP) |
| CryptoLayer.BeforeIsStrictTotalOrder | host_driver/fsl_c2x0_crypto_layer.h:54-65 | bring-up order is a strict total order with FW_RNG_COMPLETE greatest |
| CryptoLayer.AdvanceReachesReady | host_driver/fsl_c2x0_crypto_layer.h:54-65 | from any state, `9 - rank` steps reach FW_RNG_COMPLETE |
| CryptoLayer.AdvanceIncreases | host_driver/fsl_c2x0_crypto_layer.h:54-65 | each bring-up step raises the posted value, so no state is revisited |
| CryptoLayer.CommandOfCode | host_driver/fsl_c2x0_crypto_layer.h:68-78 | the valid command values are exactly 0..8 |
| CryptoLayer.CommandCode | host_driver/fsl_c2x0_crypto_layer.h:68-78 | a command's value is its declaration position, and decoding it gives the command back |
| CryptoLayer.MemTypeCode | host_driver/fsl_c2x0_crypto_layer.h:81-86 | region kinds have values below MEM_TYPE_MAX, MEM_TYPE_CONFIG first and MEM_TYPE_DRIVER last |
| CryptoLayer.MemTypeCodeInjective | host_driver/fsl_c2x0_crypto_layer.h:81-86 | distinct region kinds have distinct values |
| CryptoLayer.MasksPartitionWord | host_driver/fsl_c2x0_crypto_layer.h:124-129 | the three masks are their field widths at their shifts, are disjoint, and cover the 32-bit word |
| CryptoLayer.UnpackFlags | host_driver/fsl_c2x0_crypto_layer.h:124-129 | extracting SEC number, ring number and ring size gives values within their field widths |
| CryptoLayer.PackFlags | host_driver/fsl_c2x0_crypto_layer.h:124-129 | packing three in-range fields and extracting them again gives them back |
| CryptoLayer.PackUnpack | host_driver/fsl_c2x0_crypto_layer.h:124-129 | unpacking and repacking any flags word gives the same word |
| CryptoLayer.RingOf | host_driver/fsl_c2x0_crypto_layer.h:107-122 | ring `rid` of a configuration exists exactly when `rid < num_of_rps`, and lies within the static table |
| CryptoLayer.HostWordRoundTrip | host_driver/fsl_c2x0_crypto_layer.h:251-263 | a ring-entry field written in host byte order reads back unchanged, on either host endianness |
| CryptoLayer.EncodeReqEntry | host_driver/fsl_c2x0_crypto_layer.h:251-253 | a request entry occupies eight bytes |
| CryptoLayer.ReqEntryRoundTrip | host_driver/fsl_c2x0_crypto_layer.h:251-253 | decoding an encoded request entry gives back the descriptor address, on either host endianness |
| CryptoLayer.EncodeRespEntry | host_driver/fsl_c2x0_crypto_layer.h:260-263 | a packed response entry occupies twelve bytes, with no padding |
| CryptoLayer.RespEntryRoundTrip | host_driver/fsl_c2x0_crypto_layer.h:260-263 | decoding an encoded response entry gives back its address and result word |
| CryptoLayer.SignedResult | host_driver/fsl_c2x0_crypto_layer.h:262 | the 32-bit result word read as `int32_t`: words below 2^31 are unchanged, larger ones lose 2^32, so all-ones is -1 (JOB_DISCARDED); converting back to 32 bits gives the word |
| Requests.VariantOf | algs/dsa.c:647-653 | `ecdsa` holds exactly for the three ECDSA types; `ecc_bin` exactly for those with an ECC_BINARY curve |
| Buffers.Slots | algs/dsa.c:535-537 | sign and verify sets have 10 slots, keygen sets 7, and `ab` is the last slot |
| DsaDesc.HeaderWord | algs/dsa.c:234-238 | the header has HDR_ONE set; when the fields do not overlap it reads back the length and start index, each cut to its mask |
| DsaDesc.SignHeaderLen | algs/dsa.c:227-238 | a sign header announces the descriptor size in words |
| DsaDesc.SignHeaderStart | algs/dsa.c:227-238 | a sign header announces a start 12 words before the end |
| DsaDesc.VerifyHeaderLen | algs/dsa.c:283-294 | a verify header announces the descriptor size in words |
| DsaDesc.VerifyHeaderStart | algs/dsa.c:283-294 | a verify header announces a start at the last word |
| DsaDesc.KeygenHeaderLen | algs/dsa.c:327-337 | a keygen header announces the descriptor size in words |
| DsaDesc.KeygenHeaderStart | algs/dsa.c:327-337 | a keygen header announces a start at the last word |
| DsaDesc.SgfLnRoundTrip | algs/dsa.c:250 | `r_len` (below 2^7) and `q_len` (below 2^25) both read back from `sgf_ln` |
| DsaDesc.SgfLnTruncatesQ | algs/dsa.c:250 | a `q_len` of 2^25 is lost from `sgf_ln` |
| DsaDesc.ProtocolOpVariant | algs/dsa.c:390-398 | the ECC bit is set exactly for ECDSA, and the F2M bit exactly for ECDSA over a binary field |
| DsaDesc.ProtocolOpKeepsBase | algs/dsa.c:390-398 | every variant keeps the bits of `CMD_OPERATION \| OP_TYPE_UNI_PROTOCOL \| pclid` |
| DsaDesc.VariantNamedByOp | algs/dsa.c:457-465 | the operation word names the variant the builder was asked for |
| DsaDesc.WithLenRoundTrip | algs/dsa.c:252-253 | a byte count that fits the length field reads back from a command whose constant part leaves it clear |
| DsaDesc.WithLenKeepsCmd | algs/dsa.c:252-253 | adding the count keeps the command's bits |
| DsaDesc.SignOps | algs/dsa.c:251-263 | `op[0..10]` of a sign descriptor, slot by slot; indices 5 and 8 are not written |
| DsaDesc.SignOpsLoadCount | algs/dsa.c:252-256 | the MOVE and the FIFO LOAD carry both signature halves (`2 * r_len` bytes) |
| DsaDesc.SignOpsStoreCount | algs/dsa.c:258-262 | each FIFO STORE carries one half (`r_len` bytes) |
| DsaDesc.AbField | algs/dsa.c:383 | the `ab` field is present exactly in ECDSA descriptors, holding the curve buffer's address |
| DsaDesc.BuildSign | algs/dsa.c:225-279 | every field of a DSA sign descriptor, and of the ECDSA one built at dsa.c:363-428: `c` at the scratch buffer, `d` `r_len` bytes into it, the operands' device addresses |
| DsaDesc.BuildVerify | algs/dsa.c:281-323 | every field of a DSA verify descriptor, and of the ECDSA one built at dsa.c:430-483 |
| DsaDesc.BuildKeygen | algs/dsa.c:325-361 | every field of a DSA keygen descriptor, and of the ECDSA one built at dsa.c:485-529 |
| DsaMem.Place | algs/dsa.c:149 | allocation gives slot `i` its host and device address when `i < count`, and leaves it alone otherwise |
| DsaMem.PlaceAllWalksFirstCount | algs/dsa.c:148-149 | the allocator walks the slots in structure order |
| DsaMem.RolesOfFreshSets | algs/dsa.c:531-597 | output slots: c and d for sign, none for verify, the two keys for keygen; one scratch slot for sign and verify |
| DsaMem.CountSkipsOnlyAb | algs/dsa.c:535-537 | allocating the slot count gives pool memory to every slot but the last (`ab`), and to `ab` only for ECDSA; for plain DSA `ab` is left as it was |
| DsaMem.SignLens | algs/dsa.c:72-96 | lengths after `dsa_sign_init_len`: c, d of `d_len`, scratch `2 * d_len` (32-bit), `ab` only for ECDSA, descriptor size; nothing else changes |
| DsaMem.VerifyLens | algs/dsa.c:98-119 | lengths after `dsa_verify_init_len`: scratch `2 * q_len` for ECDSA and `q_len` for DSA; nothing else changes |
| DsaMem.KeygenLens | algs/dsa.c:121-139 | lengths after `dsa_keygen_init_len`; nothing else changes |
| DsaMem.SignHostAddrs | algs/dsa.c:152-165 | the caller's pointers, `ab` NULL for DSA; scratch and descriptor slots untouched |
| DsaMem.VerifyHostAddrs | algs/dsa.c:181-193 | the caller's pointers, `ab` NULL for DSA |
| DsaMem.KeygenHostAddrs | algs/dsa.c:209-220 | the caller's pointers, `ab` NULL for DSA |
| DsaMem.CryptoMemInfo.SignInitCryptoMem | algs/dsa.c:531-552 | count is 10 for ECDSA and 9 for DSA; the set is zeroed with its roles |
| DsaMem.CryptoMemInfo.VerifyInitCryptoMem | algs/dsa.c:554-576 | count is 10 or 9; the set is zeroed with its roles |
| DsaMem.CryptoMemInfo.KeygenInitCryptoMem | algs/dsa.c:578-597 | count is 7 or 6; the set is zeroed with its roles |
| DsaMem.CryptoMemInfo.SignInitLen | algs/dsa.c:72-96 | the new buffer set is `SignLens` of the old one |
| DsaMem.CryptoMemInfo.VerifyInitLen | algs/dsa.c:98-119 | the new buffer set is `VerifyLens` of the old one |
| DsaMem.CryptoMemInfo.KeygenInitLen | algs/dsa.c:121-139 | the new buffer set is `KeygenLens` of the old one |
| DsaMem.CryptoMemInfo.AllocCryptoMem | algs/dsa.c:149 | -ENOMEM and nothing changed, or 0 and the first `count` slots placed |
| DsaMem.CryptoMemInfo.SignCpReq | algs/dsa.c:141-168 | on -ENOMEM only the lengths are set; on 0 the lengths are set, the slots are allocated and the caller's pointers recorded |
| DsaMem.CryptoMemInfo.VerifyCpReq | algs/dsa.c:170-196 | as for sign |
| DsaMem.CryptoMemInfo.KeygenCpReq | algs/dsa.c:198-223 | as for sign |
| DsaMem.CryptoMemInfo.ConstrSignDesc | algs/dsa.c:225-279 | the descriptor memory holds `BuildSign` of the current set |
| DsaMem.CryptoMemInfo.ConstrVerifyDesc | algs/dsa.c:281-323 | the descriptor memory holds `BuildVerify` of the current set |
| DsaMem.CryptoMemInfo.ConstrKeygenDesc | algs/dsa.c:325-361 | the descriptor memory holds `BuildKeygen` of the current set |
| DsaMem.SignDescUsesAllocatedSlots | algs/dsa.c:240-263 | every address in a prepared sign descriptor but `d` is an allocated slot's device address; `d` is `r_len` bytes into the scratch slot; results go to slots c and d; `ab` is present exactly when allocated |
| DsaMem.VerifyDescUsesAllocatedSlots | algs/dsa.c:296-303 | every address in a prepared verify descriptor is an allocated slot's device address |
| DsaMem.KeygenDescUsesAllocatedSlots | algs/dsa.c:339-343 | every address in a prepared keygen descriptor is an allocated slot's device address |
| DsaMem.SignHalvesFillTmp | algs/dsa.c:77-87 | with `r_len == d_len`, the two signature halves fill the scratch buffer end to end |
| DsaMem.SignDescFitsBuffer | algs/dsa.c:91-94 | the sign header's length field is the descriptor buffer length in words |
| DsaMem.VerifyDescFitsBuffer | algs/dsa.c:113-117 | the same for verify |
| DsaMem.KeygenDescFitsBuffer | algs/dsa.c:134-137 | the same for keygen |
| Algs.Releases | algs/algs.c:82-209 | what completion gives back per request type: the request memory goes back to the pool next to last and the `dev_mem` record is freed last; nothing for keygen or unknown types |
| Algs.CryptoOpDone | algs/algs.c:57-230 | the log grows by exactly the calls `crypto_op_done` makes, in order |
| Algs.DiscardedIsNotDecoded | algs/algs.c:68-73 | a status is decoded exactly when the result is not JOB_DISCARDED, and only that status |
| Algs.ReleasesPrecedeCallback | algs/algs.c:75-219 | for RSA/DSA/DH the callback (the crypto API's with a `tfm`, else the context's) runs once, after every release, and the context is freed last |
| Algs.RngCallsNothing | algs/algs.c:220-223 | random-number jobs release nothing and call nothing |
| Algs.CheckDevice | algs/algs.c:233-249 | a dead device gives -1 and no change; a live one gives 0 and one more active job |
| Algs.Candidate | algs/algs.c:265-267 | the device the counter designates lies in 1..n |
| Algs.Probe | algs/algs.c:264-281 | the probing loop: a picked device is in range and alive; "no live device" only after all probes |
| Algs.RoundRobin | algs/algs.c:258-288 | "no device configured" exactly when `n == 0`; at most `n` probes, at least one otherwise; a picked device is in range and alive |
| Algs.GetDeviceRr | algs/algs.c:251-289 | the returned device is the one `RoundRobin` picks, or NULL exactly when it picks none; the counter advanced once per probe |
| Algs.AllAlivePicksCandidate | algs/algs.c:264-281 | with every device alive, one probe picks the designated device |
| Algs.AllAliveCalls | algs/algs.c:264-281 | with every device alive, call `j` picks the device the counter advanced by `j` designates |
| Algs.AllAliveVisitsEachOnce | algs/algs.c:251-289 | with every device alive, `n` consecutive calls return each device exactly once |
| Algs.CounterWrapRepeatsDevice | algs/algs.c:266-267 | across the 2^32 wrap of the counter the cycle restarts: device 1 twice in a row among three |
| Algs.RingRr | algs/algs.c:291-305 | an application ring in `1..num_of_rings-1` and the counter advanced; ring 0 and no change with one ring; a nonzero ring with none (32-bit wrap) |
| Algs.GetRingRr | algs/algs.c:291-305 | the ring and the new counter are those of `RingRr` |
| Algs.RingRrCycles | algs/algs.c:297-299 | consecutive calls cycle through the application rings in order, wrapping to ring 1 |
| Algs.SetSecAffinity | algs/algs.c:314-320 | the result keeps every bit of the address |
| Algs.AffinityHasSecBits | algs/algs.c:319 | every SEC-number bit is set in the result |
| Algs.AffinityAddsOnlySecBits | algs/algs.c:319 | the only bits added are SEC-number bits |
| Algs.AffinityKeepsUpperHalf | algs/algs.c:319 | the upper 32 bits of the address are unchanged |
| Algs.ChangeDescEndianness | algs/algs.c:344-353 | word `i` becomes the big-endian bytes at offset `4i`; nothing past `4 * words` is written |
| Algs.DeviceCopyReadsBack | algs/algs.c:344-353 | reading the copy back with `ioread32be` gives the host word |
| DsaOp.Prepared | algs/dsa.c:655-742 | the buffer set prepared for a request is of the kind its type names |
| DsaOp.UnsessionedRing | algs/dsa.c:629-630 | without a session, the ring is the incremented counter modulo `num_of_rps`, below `num_of_rps` |
| DsaOp.UnsessionedRingReachesRingZero | algs/dsa.c:629-630 | unlike `get_ring_rr`, this choice can give ring 0, the command ring: the counter value `num_of_rps - 1` leads there |
| DsaOp.StageRet | algs/dsa.c:599-768 | -EINPROGRESS exactly on enqueue; -ENOMEM exactly when no context or no memory |
| DsaOp.DsaOp | algs/dsa.c:599-768 | return value per stage; a context is returned exactly on enqueue, filled in (prepared buffers, built descriptor, its address, the hook for the variant, device, the device's context pool, the chosen ring's buffer pool); log of calls; callbacks; session counter advanced |
| DsaOp.SelectRing | algs/dsa.c:612-631 | session: its device and ring, and the global callbacks are set; otherwise device 1 and the next ring by its counter; -1 without device 1 |
| DsaOp.SubmitJob | algs/dsa.c:633-767 | return value and log per stage; on success the context holds the device's context pool, the ring's buffer pool and the device, and is filled in |
| DsaOp.Launch | algs/dsa.c:744-767 | the context is filled in; on refusal the buffers and then the context are given back and -1 is returned |
| DsaOp.PrepareJob | algs/dsa.c:655-742 | -ENOMEM on allocation failure; otherwise the prepared buffer set and the descriptor built on it |
| DsaOp.PrepareSign | algs/dsa.c:683-710 | the sign branch: buffers and descriptor as prepared and built |
| DsaOp.PrepareVerify | algs/dsa.c:711-737 | the verify branch |
| DsaOp.PrepareKeygen | algs/dsa.c:656-682 | the keygen branch |
| DsaOp.DsaOpDone | algs/dsa.c:49-58 | buffers freed, then the global DSA callback with the result, then the context released |
| DsaOp.EcdsaOpDone | algs/dsa.c:60-69 | the same with the ECDSA callback |
| DsaOp.DsaOpHoldsOnlyOnSuccess | algs/dsa.c:633-767 | after `dsa_op` a request holds one context and one buffer set if enqueued, and nothing otherwise |
| DsaOp.CompletionReleasesAll | algs/dsa.c:49-58 | an enqueued job that completes holds nothing; buffers go before the callback, the context after |
| DsaOp.EnqueueFailureUnwindsInOrder | algs/dsa.c:757-766 | on a refused enqueue the buffers are freed before the context is released |
| DsaOp.EnqueuedAddressIsDescBuffer | algs/dsa.c:675 | the enqueued address is the allocator's device address for the descriptor slot |

## Left out

- I/O and the hardware are not modelled. The rings, the firmware, DMA and
  interrupts appear only as the outcome parameters `ctxOk`, `a` and
  `enqueueOk`, and as events in `Driver.log`.
- Concurrency is not modelled. The atomics are plain fields updated one call at
  a time. The per-CPU `device_status` is one `alive` flag per device, and
  `active_jobs` is unbounded.
- The `HIGH_PERF` and `VIRTIO_C2X0` build variants are not modelled: the
  identity `set_sec_affinity`, the discarded-op branch, and completion without
  `kfree`.
- `dump_desc` and all debug printing are not modelled.
- These bodies are not part of this model:
  - `f_get_a`: the SEC number is the `secNo` parameter of `SetSecAffinity`.
  - `host_to_dev`: taken as the identity on the fields the builders read.
  - `store_priv_data`.
  - the internals of `alloc_crypto_mem` and `dealloc_crypto_mem`.
  - `get_crypto_dev`: a lookup in `Driver.devices`.
  - `get_crypto_ctx` and `free_crypto_ctx`.
  - `sec_jr_strstatus`.
  - `init_job_desc`: the header word is the options value passed to it.
  - `ring_enqueue`.
- The descriptor constants and structure sizes come from headers that are not
  part of this model. They are declared without values, and the byte layout of
  the descriptor structures is not modelled. Descriptor fields hold the values
  stored before `cpu_to_be32` / `cpu_to_be64`.
- The buffer-set structures are not part of this model. The slot order of
  `Buffers.Slots` is assumed, with `ab` last, which the slot count of
  `*_init_crypto_mem` relies on.
- A request without a session may be enqueued on ring 0, the command ring,
  because the ring choice at `algs/dsa.c:629-630` lacks the `- 1` / `+ 1` of
  `get_ring_rr`. The model keeps that behaviour, as
  `DsaOp.UnsessionedRingReachesRingZero` shows.
- The union `req_u` is a record with all three members. The member the type
  selects is the one read.
- The rest of `fsl_c2x0_crypto_layer.h` is not modelled: the handshake
  memory layouts, the ring-pair and pool structures, and the function
  prototypes. The index and counter records (`ring_idxs_mem`,
  `ring_counters_mem`, `counters_mem`) belong to the response path, which is
  not modelled. Its `HS_TIMEOUT`, `HS_LOOP_BREAK`, `NR_CTX_POOLS` and firmware
  path constants are not used by this core.
- Algs.AllAliveVisitsEachOnce: holds only while the device counter does not
  wrap. Across the wrap the cycle restarts early, as
  `Algs.CounterWrapRepeatsDevice` shows.
- Algs.RingRrCycles: stated only while the session counter does not wrap.
- DsaMem.SignHalvesFillTmp: assumes `r_len == d_len`, as the source's own
  comment does, and that neither `2 * d_len` nor the end of the scratch buffer
  wraps.
- Algs.ChangeDescEndianness: requires `words >= 0`. A negative count would
  loop until the signed counter wraps, which is not modelled.
- DsaOp.DsaOpDone: requires the global DSA callback to have been set. Only a
  request with a `tfm` sets it, and it is NULL before that.
- DsaOp.EcdsaOpDone: requires the global ECDSA callback to have been set, for
  the same reason.
- DsaOp.DsaOp: requires `num_of_rps > 0` on device 1, because the source
  divides by it. It also requires that the chosen ring exists in
  `ring_pairs`, and that a session's device is one the driver knows.
- DsaOp.DsaOp: `crypto_ctx->c_dev` and `crypto_mem.dev` are recorded as the
  device number, not a pointer.
- Algs.CryptoOpDone: the buffers and handles released are named by operand
  (`Operand`), not by address.
