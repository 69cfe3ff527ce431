/**
  The register file of the Cedrus VC-1 decoding engine, at the level of
  named fields.  The bit positions of the fields live in the driver's
  register header, which is not part of this model, so every composite
  register is a record of its named fields and every register write is a
  constructor carrying the value written.
 */
module Vc1Regs {
  import opened Words


  /** Entry-point and sequence header flags (VE_DEC_VC1_EPHS). */
  datatype Ephs = Ephs(
    profile: nat,
    loopfilter: bool,
    multires: bool,
    fastuvmc: bool,
    extendedMv: bool,
    dquant: nat,
    vstransform: bool,
    overlap: bool,
    quantizer: nat,
    rangered: bool,
    finterpflag: bool,
    syncmarker: bool,
    startcodeDetEn: bool,
    eptbDetBypass: bool)

  /** Picture control (VE_DEC_VC1_PICCTRL). */
  datatype PicCtrl = PicCtrl(
    ptype: nat,
    fcm: nat,
    bottomField: bool,
    secondField: bool,
    rangeredfrm: bool,
    fwdRangeredfrm: bool,
    bwdRangeredfrm: bool,
    transacfrm: nat,
    transacfrm2: nat,
    transdctab: bool,
    rndctrl: bool,
    condover: nat,
    overflagsRaw: bool,
    cbptab: nat,
    skipmbRaw: bool,
    ttmbf: bool,
    ttfrm: nat,
    directmbRaw: bool,
    directRefIntra: bool,
    bitplaneCoding: bool)

  /** Picture quantizer (VE_DEC_VC1_PICQP). */
  datatype PicQp = PicQp(
    pqindex: nat,
    halfqp: bool,
    pquantizer: bool,
    dqprofile: nat,
    dqsbedge: nat,
    dqdbedge: nat,
    altpquant: nat,
    dquantfrm: bool,
    dqbilevel: bool)

  /** Picture motion vectors (VE_DEC_VC1_PICMV). */
  datatype PicMv = PicMv(
    bfraction: nat,
    bfracLessThanHalf: bool,
    mvrange: nat,
    mvmode: nat,
    intensityCompEn: bool,
    mvtab: nat)

  /** Intensity compensation scales and shifts (VE_DEC_VC1_PICINTENCOMP). */
  datatype PicIntenComp = PicIntenComp(
    lumaScale1: nat,
    lumaShift1: nat,
    lumaScale2: nat,
    lumaShift2: nat)

  /** Interlace and reference parameters (VE_DEC_VC1_PICINTERLACE). */
  datatype PicInterlace = PicInterlace(
    fieldtxRaw: bool,
    dmvrange: nat,
    fourMvSwitch: bool,
    mbmodetab: nat,
    imvtab: nat,
    icbptab: nat,
    intencomp: bool,
    twoMvBpTab: nat,
    fourMvBpTab: nat,
    frfd: nat,
    brfd: nat,
    refField: bool,
    intencompfld: nat,
    forwardRaw: bool,
    fwdInterlace: bool,
    bwdInterlace: bool,
    numref: bool)

  /** The interrupt status bits of VE_DEC_VC1_STATUS. */
  datatype StatusWord = StatusWord(success: bool, error: bool, vldDataReq: bool)

  /** VE_DEC_VC1_STATUS_INT_MASK: every interrupt status bit. */
  const StatusIntMask: StatusWord := StatusWord(true, true, true)

  /**
    VE_DEC_VC1_CTRL: the three interrupt enables, the motion-compensation
    cache enable, and whatever other bits the register holds.
   */
  datatype CtrlWord = CtrlWord(
    finishIrqEn: bool,
    errorIrqEn: bool,
    vldDataReqIrqEn: bool,
    mcriCacheEn: bool,
    other: bv32)

  /** The value the frame setup leaves in CTRL: all interrupts and the cache on. */
  const ArmedCtrl: CtrlWord := CtrlWord(true, true, true, true, 0)

  /** The values written to VE_DEC_VC1_TRIGGER_TYPE. */
  datatype Trigger = InitSwDec | Decode

  /** One register write, named by the register it targets. */
  datatype RegWrite =
    | DcacPredAddr(addr: u32)
    | BitplaneAddr(addr: u32)
    | MvInfoAddr(addr: u32)
    | BitsAddr(base: u32, validSlice: bool, lastSlice: bool, firstSlice: bool)
    | BitsEndAddr(addr: u32)
    | BitsOffset(bitOffset: u32)
    | BitsLen(bitLength: u32)
    | StatusWrite(clear: StatusWord)
    | TriggerType(kind: Trigger)
    | RotCtrl(rot: u32)
    | PicHdrLen(length: u32)
    | EphsWrite(ephs: Ephs)
    | PicCtrlWrite(picctrl: PicCtrl)
    | PicQpWrite(picqp: PicQp)
    | PicMvWrite(picmv: PicMv)
    | PicIntenCompWrite(intencomp: PicIntenComp)
    | PicInterlaceWrite(interlace: PicInterlace)
    | FSize(fwidth: nat, fheight: nat)
    | PicSize(pwidth: nat, pheight: nat)
    | RecLuma(addr: u32)
    | RecChroma(addr: u32)
    | RotLumaAddr(addr: u32)
    | RotChromaAddr(addr: u32)
    | FwdRefLumaAddr(addr: u32)
    | FwdRefChromaAddr(addr: u32)
    | BwdRefLumaAddr(addr: u32)
    | BwdRefChromaAddr(addr: u32)
    | CtrlWrite(ctrl: CtrlWord)
}
