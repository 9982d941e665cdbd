/**
 * The public-key request a caller hands to the driver (`struct pkc_request`),
 * restricted to what the DSA/ECDSA path and the completion path read: the
 * request type, the curve type, whether it came through the kernel crypto API
 * (a `tfm`), and the DSA/ECDSA members of the request union.
 */
module Requests {
  import opened Common
  import opened Buffers
  import opened DsaDesc

  /** `enum pkc_req_type`, with the kinds this part of the driver tells apart; `OtherReqType` is any other kind. */
  datatype PkcReqType =
    | RsaPub | RsaPrivForm1 | RsaPrivForm2 | RsaPrivForm3
    | DsaSign | DsaVerify | DsaKeygen
    | EcdsaSign | EcdsaVerify | EcdsaKeygen
    | DhComputeKey | EcdhComputeKey
    | OtherReqType

  /** The request's curve type; the driver only distinguishes ECC_BINARY from the rest. */
  datatype CurveType = EccBinary | OtherCurve

  /** `struct dsa_sign_req_s`: operand pointers and their lengths. */
  datatype DsaSignReq = DsaSignReq(
    q: HostPtr, r: HostPtr, g: HostPtr, privKey: HostPtr, m: HostPtr, ab: HostPtr, c: HostPtr, d: HostPtr,
    qLen: u32, rLen: u32, gLen: u32, privKeyLen: u32, mLen: u32, abLen: u32, dLen: u32)

  /** `struct dsa_verify_req_s`. */
  datatype DsaVerifyReq = DsaVerifyReq(
    q: HostPtr, r: HostPtr, g: HostPtr, pubKey: HostPtr, m: HostPtr, ab: HostPtr, c: HostPtr, d: HostPtr,
    qLen: u32, rLen: u32, gLen: u32, pubKeyLen: u32, mLen: u32, abLen: u32, dLen: u32)

  /** `struct dsa_keygen_req_s`. */
  datatype DsaKeygenReq = DsaKeygenReq(
    q: HostPtr, r: HostPtr, g: HostPtr, prvkey: HostPtr, pubkey: HostPtr, ab: HostPtr,
    qLen: u32, rLen: u32, gLen: u32, prvkeyLen: u32, pubkeyLen: u32, abLen: u32)

  /**
   * `req_u`, the request union. The C code reads the member its switch on
   * the type selects; here each member is a field, and the one the type
   * selects is the one read.
   */
  datatype ReqUnion = ReqUnion(dsaSign: DsaSignReq, dsaVerify: DsaVerifyReq, dsaKeygen: DsaKeygenReq)

  /** The caller's session, when the request came with a `tfm`: its device and ring. */
  datatype Session = Session(devIdx: nat, rId: nat)

  /** Who completes a request: the kernel crypto API (`pkc_request_complete`) or the request's own `done` hook. */
  datatype Callback = PkcRequestComplete | CtxDone

  /**
   * `struct pkc_request`. `session` is present exactly when `base.tfm` is
   * set; `reqId` stands for the request's identity (its address).
   */
  datatype PkcRequest = PkcRequest(reqId: nat, reqType: PkcReqType, curveType: CurveType,
                                   session: Option<Session>, reqU: ReqUnion)

  predicate IsEcdsaType(t: PkcReqType) {
    t == EcdsaKeygen || t == EcdsaSign || t == EcdsaVerify
  }

  /**
   * The `ecdsa` and `ecc_bin` flags `dsa_op` derives from a request: ECDSA
   * for the three ECDSA types, and a binary field only for those with an
   * ECC_BINARY curve.
   */
  function VariantOf(req: PkcRequest): (v: Variant)
    ensures v.EcdsaVariant? <==> req.reqType in {EcdsaKeygen, EcdsaSign, EcdsaVerify}
    ensures v == EcdsaVariant(true) <==> req.reqType in {EcdsaKeygen, EcdsaSign, EcdsaVerify} && req.curveType == EccBinary
  {
    if IsEcdsaType(req.reqType) then EcdsaVariant(req.curveType == EccBinary) else DsaVariant
  }
}
