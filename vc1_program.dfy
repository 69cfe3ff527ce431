/**
  The register program cedrus_vc1_setup writes for one frame, as a
  function of the frame's headers, the reference buffers it finds and
  the session's scratch-buffer addresses.
 */
module Vc1Program {
  import opened Wrappers
  import opened Words
  import opened Vc1Regs
  import opened Vc1Derive
  import opened Vc1Bitplanes

  const ProfileSimple: nat := 0
  const ProfileMain: nat := 1
  const ProfileComplex: nat := 2
  const ProfileAdvanced: nat := 3

  /** The sequence header: profile and the FINTERPFLAG flag. */
  datatype Sequence = Sequence(profile: nat, finterpflag: bool)

  /** The entry-point header. */
  datatype EntryPoint = EntryPoint(
    codedWidth: nat,
    codedHeight: nat,
    loopfilter: bool,
    fastuvmc: bool,
    extendedDmv: bool,
    vstransform: bool,
    overlap: bool,
    dquant: nat,
    quantizer: nat)

  /** Stream metadata flags. */
  datatype Metadata = Metadata(multires: bool, rangered: bool, syncmarker: bool)

  /** The picture layer; its flag bits are named booleans. */
  datatype PictureLayer = PictureLayer(
    ptype: nat,
    fcm: nat,
    tff: bool,
    secondField: bool,
    refField: bool,
    rangeredfrm: bool,
    transdctab: bool,
    rndctrl: bool,
    ttmbf: bool,
    halfqp: bool,
    pquantizer: bool,
    intcomp: bool,
    numref: bool,
    transacfrm: nat,
    transacfrm2: nat,
    condover: nat,
    cbptab: nat,
    ttfrm: nat,
    pqindex: nat,
    bfraction: u8,
    mvrange: nat,
    mvmode: nat,
    mvmode2: nat,
    mvtab: nat,
    dmvrange: nat,
    mbmodetab: nat,
    imvtab: nat,
    icbptab: nat,
    twomvbptab: nat,
    fourmvbptab: nat,
    intcompfield: nat,
    lumscale: nat,
    lumshift: nat,
    lumscale2: nat,
    lumshift2: nat,
    refdist: u8)

  /** The VOPDQUANT parameters. */
  datatype VopDquant = VopDquant(
    dqprofile: nat,
    dqsbedge: nat,
    dqdbedge: nat,
    altpquant: nat,
    dquantfrm: bool,
    dqbilevel: bool)

  /** The raw-coding flags of the slice (the ones the setup consults). */
  datatype RawCoding = RawCoding(overflags: bool, skipmb: bool, directmb: bool, fieldtx: bool, forwardmb: bool)

  /** The slice parameters control. */
  datatype SliceParams = SliceParams(
    sequence: Sequence,
    entrypoint: EntryPoint,
    picture: PictureLayer,
    vopdquant: VopDquant,
    metadata: Metadata,
    raw: RawCoding,
    dataBitOffset: u32)

  /** A reference buffer found in the capture queue: its recorded attributes and addresses. */
  datatype RefBuffer = RefBuffer(attrs: Vc1Attrs, luma: u32, chroma: u32)

  /** The session's scratch buffer bus addresses. */
  datatype ScratchAddrs = ScratchAddrs(mv: u32, acdc: u32, bitplanes: u32)

  /**
    Everything the setup reads for one frame: the controls, the source
    buffer's address and payload, the source (bitstream-side) format's size, the destination
    addresses and the two references (absent when the lookup fails).
   */
  datatype Frame = Frame(
    slice: SliceParams,
    bitplanes: Option<Bitplanes>,
    srcAddr: u32,
    srcPayload: nat,
    width: nat,
    height: nat,
    dstLuma: u32,
    dstChroma: u32,
    fwd: Option<RefBuffer>,
    bwd: Option<RefBuffer>)

  /**
    Bitplane coding is on when the bitplane control is present and any bit
    of its flags word is set, whether or not that bit names a plane.
   */
  function BitplanesCoded(f: Frame): bool
  {
    f.bitplanes.Some? && (f.bitplanes.value.flags != {} || f.bitplanes.value.otherFlags)
  }

  function Attrs(r: Option<RefBuffer>): (a: Option<Vc1Attrs>)
    ensures a.Some? <==> r.Some?
  {
    if r.Some? then Some(r.value.attrs) else None
  }

  /** The luma address written for a reference: 0 when it is absent. */
  function RefLuma(r: Option<RefBuffer>): u32
  {
    if r.Some? then r.value.luma else 0
  }

  function RefChroma(r: Option<RefBuffer>): u32
  {
    if r.Some? then r.value.chroma else 0
  }

  function IsProgressive(pic: PictureLayer): bool
  {
    pic.fcm == FcmProgressive
  }

  /** The FCM and CONDOVER fields: 0 stays 0, any other value v is written as v + 1. */
  function ShiftedCode(v: nat): (r: nat)
    ensures r == 0 <==> v == 0
    ensures v != 0 ==> r == v + 1
  {
    if v != 0 then v + 1 else 0
  }

  /** VE_DEC_VC1_EPHS for a frame. */
  function EphsOf(s: SliceParams): (r: Ephs)
    ensures r.startcodeDetEn <==> s.sequence.profile == ProfileAdvanced
    ensures r.eptbDetBypass <==> !r.startcodeDetEn
    ensures r.profile == s.sequence.profile
  {
    Ephs(
      profile := s.sequence.profile,
      loopfilter := s.entrypoint.loopfilter,
      multires := s.metadata.multires,
      fastuvmc := s.entrypoint.fastuvmc,
      extendedMv := s.entrypoint.extendedDmv,
      dquant := s.entrypoint.dquant,
      vstransform := s.entrypoint.vstransform,
      overlap := s.entrypoint.overlap,
      quantizer := s.entrypoint.quantizer,
      rangered := s.metadata.rangered,
      finterpflag := s.sequence.finterpflag,
      syncmarker := s.metadata.syncmarker,
      startcodeDetEn := s.sequence.profile == ProfileAdvanced,
      eptbDetBypass := s.sequence.profile != ProfileAdvanced)
  }

  /** VE_DEC_VC1_PICCTRL for a frame. */
  function PicCtrlOf(f: Frame): (r: PicCtrl)
    ensures r.fcm == 0 <==> IsProgressive(f.slice.picture)
    ensures r.bottomField <==> (!IsProgressive(f.slice.picture) &&
      ((f.slice.picture.tff && f.slice.picture.secondField) || (!f.slice.picture.tff && !f.slice.picture.secondField)))
    ensures r.fwdRangeredfrm <==> f.fwd.Some? && f.fwd.value.attrs.rangeredfrm
    ensures r.bwdRangeredfrm <==> f.bwd.Some? && f.bwd.value.attrs.rangeredfrm
    ensures r.directRefIntra <==> f.slice.picture.ptype != PictureP
  {
    var pic := f.slice.picture;
    var fcm := ShiftedCode(pic.fcm);
    var bottom := BottomField(IsProgressive(pic), pic.tff, pic.secondField);
    var fwdRr := f.fwd.Some? && f.fwd.value.attrs.rangeredfrm;
    var bwdRr := f.bwd.Some? && f.bwd.value.attrs.rangeredfrm;
    PicCtrl(
      ptype := pic.ptype,
      fcm := fcm,
      bottomField := bottom,
      secondField := pic.secondField,
      rangeredfrm := pic.rangeredfrm,
      fwdRangeredfrm := fwdRr,
      bwdRangeredfrm := bwdRr,
      transacfrm := pic.transacfrm,
      transacfrm2 := pic.transacfrm2,
      transdctab := pic.transdctab,
      rndctrl := pic.rndctrl,
      condover := ShiftedCode(pic.condover),
      overflagsRaw := f.slice.raw.overflags,
      cbptab := pic.cbptab,
      skipmbRaw := f.slice.raw.skipmb,
      ttmbf := pic.ttmbf,
      ttfrm := pic.ttfrm,
      directmbRaw := f.slice.raw.directmb,
      directRefIntra := pic.ptype != PictureP,
      bitplaneCoding := BitplanesCoded(f))
  }

  /** VE_DEC_VC1_PICQP for a frame. */
  function PicQpOf(s: SliceParams): PicQp
  {
    PicQp(
      pqindex := s.picture.pqindex,
      halfqp := s.picture.halfqp,
      pquantizer := s.picture.pquantizer,
      dqprofile := s.vopdquant.dqprofile,
      dqsbedge := s.vopdquant.dqsbedge,
      dqdbedge := s.vopdquant.dqdbedge,
      altpquant := s.vopdquant.altpquant,
      dquantfrm := s.vopdquant.dquantfrm,
      dqbilevel := s.vopdquant.dqbilevel)
  }

  /** The intensity-compensation decision of a frame. */
  function CompenEnabled(f: Frame): bool
  {
    IntensityCompEnabled(f.slice.picture.ptype, f.slice.picture.intcomp, Attrs(f.fwd))
  }

  /** VE_DEC_VC1_PICMV for a frame. */
  function PicMvOf(f: Frame): (r: PicMv)
    ensures r.bfraction == GetFraction(f.slice.picture.bfraction) <= 0xff
    ensures r.bfracLessThanHalf <==> r.bfraction < Half
    ensures r.mvmode < 4
    ensures MvModeUnmap(r.mvmode) ==
      EffectiveMvMode(f.slice.picture.ptype, f.slice.picture.mvmode, f.slice.picture.mvmode2) % 4
    ensures r.intensityCompEn == CompenEnabled(f)
  {
    var pic := f.slice.picture;
    var bfraction := GetFraction(pic.bfraction);
    PicMv(
      bfraction := bfraction,
      bfracLessThanHalf := bfraction < Half,
      mvrange := pic.mvrange,
      mvmode := MvModeField(EffectiveMvMode(pic.ptype, pic.mvmode, pic.mvmode2)),
      intensityCompEn := CompenEnabled(f),
      mvtab := pic.mvtab)
  }

  /** VE_DEC_VC1_PICINTENCOMP for a frame. */
  function PicIntenCompOf(pic: PictureLayer): PicIntenComp
  {
    PicIntenComp(pic.lumscale, pic.lumshift, pic.lumscale2, pic.lumshift2)
  }

  /** The clamped reference distances of a frame. */
  function DistancesOf(pic: PictureLayer): RefDist
  {
    RefDistances(pic.ptype, GetFraction(pic.bfraction), pic.refdist)
  }

  /** VE_DEC_VC1_PICINTERLACE for a frame. */
  function PicInterlaceOf(f: Frame): (r: PicInterlace)
    ensures r.fourMvSwitch <==>
      EffectiveMvMode(f.slice.picture.ptype, f.slice.picture.mvmode, f.slice.picture.mvmode2) == MvModeMixedMv
    ensures r.frfd <= 3 && r.brfd <= 3
    ensures r.frfd == RefDistances(f.slice.picture.ptype, GetFraction(f.slice.picture.bfraction), f.slice.picture.refdist).frfd
    ensures r.brfd == RefDistances(f.slice.picture.ptype, GetFraction(f.slice.picture.bfraction), f.slice.picture.refdist).brfd
    ensures f.slice.picture.ptype != PictureB ==> r.brfd == 0
    ensures r.refField <==> f.slice.picture.secondField == f.slice.picture.refField
    ensures r.fwdInterlace == RefInterlaced(Attrs(f.fwd), IsProgressive(f.slice.picture))
    ensures r.bwdInterlace == RefInterlaced(Attrs(f.bwd), IsProgressive(f.slice.picture))
  {
    var pic := f.slice.picture;
    var d := DistancesOf(pic);
    PicInterlace(
      fieldtxRaw := f.slice.raw.fieldtx,
      dmvrange := pic.dmvrange,
      fourMvSwitch := EffectiveMvMode(pic.ptype, pic.mvmode, pic.mvmode2) == MvModeMixedMv,
      mbmodetab := pic.mbmodetab,
      imvtab := pic.imvtab,
      icbptab := pic.icbptab,
      intencomp := pic.intcomp,
      twoMvBpTab := pic.twomvbptab,
      fourMvBpTab := pic.fourmvbptab,
      frfd := d.frfd,
      brfd := d.brfd,
      refField := RefFieldBit(pic.secondField, pic.refField),
      intencompfld := pic.intcompfield,
      forwardRaw := f.slice.raw.forwardmb,
      fwdInterlace := RefInterlaced(Attrs(f.fwd), IsProgressive(pic)),
      bwdInterlace := RefInterlaced(Attrs(f.bwd), IsProgressive(pic)),
      numref := pic.numref)
  }

  /** "Set auxiliary buffers": the AC/DC prediction, bitplane and motion-vector scratch addresses. */
  function AuxWrites(a: ScratchAddrs): seq<RegWrite>
  {
    [DcacPredAddr(a.acdc), BitplaneAddr(a.bitplanes), MvInfoAddr(a.mv)]
  }

  /**
    "Set bitstream source": base address, end address, bit offset and bit
    length, then the base again marked as the valid, first and last slice.
   */
  function BitstreamWrites(f: Frame): seq<RegWrite>
  {
    [BitsAddr(f.srcAddr, false, false, false),
     BitsEndAddr(U32(f.srcAddr + f.srcPayload)),
     BitsOffset(f.slice.dataBitOffset),
     BitsLen(U32(f.srcPayload * 8)),
     BitsAddr(f.srcAddr, true, true, true)]
  }

  /** Status clear, software-decode init, no rotation and a zero picture-header length. */
  function DecoderInitWrites(): seq<RegWrite>
  {
    [StatusWrite(StatusIntMask), TriggerType(InitSwDec), RotCtrl(0), PicHdrLen(0)]
  }

  /** EPHS, PICCTRL and PICQP. */
  function CodingHeaderWrites(f: Frame): seq<RegWrite>
  {
    [EphsWrite(EphsOf(f.slice)), PicCtrlWrite(PicCtrlOf(f)), PicQpWrite(PicQpOf(f.slice))]
  }

  /** PICMV, PICINTENCOMP and PICINTERLACE. */
  function MotionHeaderWrites(f: Frame): seq<RegWrite>
  {
    [PicMvWrite(PicMvOf(f)), PicIntenCompWrite(PicIntenCompOf(f.slice.picture)), PicInterlaceWrite(PicInterlaceOf(f))]
  }

  /** "Set frame dimensions": both size registers take the source (bitstream-side) format's size. */
  function SizeWrites(f: Frame): seq<RegWrite>
  {
    [FSize(f.width, f.height), PicSize(f.width, f.height)]
  }

  /** "Destination luma and chroma buffers": the reconstruction and the rotation pairs. */
  function DestinationWrites(f: Frame): seq<RegWrite>
  {
    [RecLuma(f.dstLuma), RecChroma(f.dstChroma), RotLumaAddr(f.dstLuma), RotChromaAddr(f.dstChroma)]
  }

  /** "Forward and backward prediction reference buffers". */
  function ReferenceWrites(f: Frame): seq<RegWrite>
  {
    [FwdRefLumaAddr(RefLuma(f.fwd)), FwdRefChromaAddr(RefChroma(f.fwd)),
     BwdRefLumaAddr(RefLuma(f.bwd)), BwdRefChromaAddr(RefChroma(f.bwd))]
  }

  /** Every write of the setup before the CTRL write, in order. */
  function ProgramBody(a: ScratchAddrs, f: Frame): seq<RegWrite>
  {
    AuxWrites(a) + (BitstreamWrites(f) + (DecoderInitWrites() + (CodingHeaderWrites(f) +
      (MotionHeaderWrites(f) + (SizeWrites(f) + (DestinationWrites(f) + ReferenceWrites(f)))))))
  }

  /** The whole register program of cedrus_vc1_setup, ending with the CTRL write that arms the engine. */
  function SetupProgram(a: ScratchAddrs, f: Frame): (p: seq<RegWrite>)
    ensures |p| == |ProgramBody(a, f)| + 1 && p[|p| - 1] == CtrlWrite(ArmedCtrl)
  {
    ProgramBody(a, f) + [CtrlWrite(ArmedCtrl)]
  }

  /** The attributes recorded on the output buffer for a frame. */
  function OutputAttrs(prev: Vc1Attrs, f: Frame): Vc1Attrs
  {
    RecordedAttrs(prev, f.slice.picture.ptype, f.slice.picture.fcm, f.slice.picture.rangeredfrm, CompenEnabled(f))
  }

  /** No write of `w` touches CTRL. */
  predicate NoCtrl(w: seq<RegWrite>)
  {
    forall i :: 0 <= i < |w| ==> !w[i].CtrlWrite?
  }

  /** The only write to CTRL in `w` is the one at position k. */
  predicate CtrlOnlyAt(w: seq<RegWrite>, k: nat)
  {
    forall i :: 0 <= i < |w| ==> (w[i].CtrlWrite? <==> i == k)
  }

  lemma NoCtrlConcat(x: seq<RegWrite>, y: seq<RegWrite>)
    requires NoCtrl(x) && NoCtrl(y)
    ensures NoCtrl(x + y)
  {
    forall i | 0 <= i < |x + y|
      ensures !(x + y)[i].CtrlWrite?
    {
      if i >= |x| { assert (x + y)[i] == y[i - |x|]; }
    }
  }

  /** The lengths of the segments; none of them touches CTRL. */
  lemma SegmentsShape(a: ScratchAddrs, f: Frame)
    ensures |AuxWrites(a)| == 3 && NoCtrl(AuxWrites(a))
    ensures |BitstreamWrites(f)| == 5 && NoCtrl(BitstreamWrites(f))
    ensures |DecoderInitWrites()| == 4 && NoCtrl(DecoderInitWrites())
    ensures |CodingHeaderWrites(f)| == 3 && NoCtrl(CodingHeaderWrites(f))
    ensures |MotionHeaderWrites(f)| == 3 && NoCtrl(MotionHeaderWrites(f))
    ensures |SizeWrites(f)| == 2 && NoCtrl(SizeWrites(f))
    ensures |DestinationWrites(f)| == 4 && NoCtrl(DestinationWrites(f))
    ensures |ReferenceWrites(f)| == 4 && NoCtrl(ReferenceWrites(f))
  {
  }

  /**
    The program is 29 writes and CTRL is written exactly once, last, with
    every interrupt and the cache enabled: the engine is armed only after
    every other register holds its value.
   */
  lemma {:induction false} SetupProgramArmsLast(a: ScratchAddrs, f: Frame)
    ensures |SetupProgram(a, f)| == 29
    ensures CtrlOnlyAt(SetupProgram(a, f), 28)
    ensures SetupProgram(a, f)[28] == CtrlWrite(ArmedCtrl)
  {
    SegmentsShape(a, f);
    var s6 := DestinationWrites(f) + ReferenceWrites(f);
    var s5 := SizeWrites(f) + s6;
    var s4 := MotionHeaderWrites(f) + s5;
    var s3 := CodingHeaderWrites(f) + s4;
    var s2 := DecoderInitWrites() + s3;
    var s1 := BitstreamWrites(f) + s2;
    NoCtrlConcat(DestinationWrites(f), ReferenceWrites(f));
    NoCtrlConcat(SizeWrites(f), s6);
    NoCtrlConcat(MotionHeaderWrites(f), s5);
    NoCtrlConcat(CodingHeaderWrites(f), s4);
    NoCtrlConcat(DecoderInitWrites(), s3);
    NoCtrlConcat(BitstreamWrites(f), s2);
    NoCtrlConcat(AuxWrites(a), s1);
    var body := ProgramBody(a, f);
    assert body == AuxWrites(a) + s1;
    var p := SetupProgram(a, f);
    forall i | 0 <= i < |p|
      ensures p[i].CtrlWrite? <==> i == 28
    {
      if i < 28 { assert p[i] == body[i]; }
    }
  }

  /**
    The order of the first twelve writes: the scratch addresses; the
    bitstream base written twice, the second time marked as the valid,
    first and last slice; and the status cleared before the software
    decoder is initialised.
   */
  lemma {:induction false} SetupProgramOpening(a: ScratchAddrs, f: Frame)
    ensures |SetupProgram(a, f)| >= 12
    ensures SetupProgram(a, f)[..3] == [DcacPredAddr(a.acdc), BitplaneAddr(a.bitplanes), MvInfoAddr(a.mv)]
    ensures SetupProgram(a, f)[3] == BitsAddr(f.srcAddr, false, false, false)
    ensures SetupProgram(a, f)[7] == BitsAddr(f.srcAddr, true, true, true)
    ensures SetupProgram(a, f)[8] == StatusWrite(StatusIntMask)
    ensures SetupProgram(a, f)[9] == TriggerType(InitSwDec)
  {
    var rest := CodingHeaderWrites(f) +
      (MotionHeaderWrites(f) + (SizeWrites(f) + (DestinationWrites(f) + ReferenceWrites(f))));
    OpeningOf(a, f, rest, [CtrlWrite(ArmedCtrl)]);
  }

  /** The first twelve writes of any program that starts with the first three segments. */
  lemma OpeningOf(a: ScratchAddrs, f: Frame, rest: seq<RegWrite>, tail: seq<RegWrite>)
    ensures var p := (AuxWrites(a) + (BitstreamWrites(f) + (DecoderInitWrites() + rest))) + tail;
      |p| >= 12 &&
      p[..3] == [DcacPredAddr(a.acdc), BitplaneAddr(a.bitplanes), MvInfoAddr(a.mv)] &&
      p[3] == BitsAddr(f.srcAddr, false, false, false) &&
      p[7] == BitsAddr(f.srcAddr, true, true, true) &&
      p[8] == StatusWrite(StatusIntMask) &&
      p[9] == TriggerType(InitSwDec)
  {
  }

  /**
    Writes 20 to 23 hold the destination, identically for the
    reconstruction and the rotation pairs; writes 24 to 27 the references,
    0 for a reference the lookup did not find.
   */
  lemma {:induction false} SetupProgramAddresses(a: ScratchAddrs, f: Frame)
    ensures |SetupProgram(a, f)| == 29
    ensures SetupProgram(a, f)[20..24] == [RecLuma(f.dstLuma), RecChroma(f.dstChroma), RotLumaAddr(f.dstLuma), RotChromaAddr(f.dstChroma)]
    ensures f.fwd.None? ==> SetupProgram(a, f)[24..26] == [FwdRefLumaAddr(0), FwdRefChromaAddr(0)]
    ensures f.bwd.None? ==> SetupProgram(a, f)[26..28] == [BwdRefLumaAddr(0), BwdRefChromaAddr(0)]
  {
    SegmentsShape(a, f);
    var p := SetupProgram(a, f);
    var tail := DestinationWrites(f) + ReferenceWrites(f);
    var head := AuxWrites(a) + BitstreamWrites(f) + DecoderInitWrites() + CodingHeaderWrites(f) +
      MotionHeaderWrites(f) + SizeWrites(f);
    assert ProgramBody(a, f) == head + tail;
    assert p[20..28] == tail;
  }

  /**
    A flags word whose set bits name none of the seven planes still turns
    bitplane coding on in PICCTRL, but the staging it triggers copies
    nothing.
   */
  lemma CodedWithoutPlanes(f: Frame, buf: seq<bv8>)
    requires f.bitplanes.Some? && f.bitplanes.value.flags == {} && f.bitplanes.value.otherFlags
    requires |buf| == BitplanesBufSize && WellSized(f.bitplanes.value)
    ensures BitplanesCoded(f) && PicCtrlOf(f).bitplaneCoding
    ensures Staged(buf, f.bitplanes.value) == buf
  {
  }

  /**
    A stream that opens with a progressive I picture and no references
    programs both reference-interlace bits clear, disables intensity
    compensation and records a non-interlaced, uncompensated output.
   */
  lemma FirstProgressiveIFrame(prev: Vc1Attrs, f: Frame)
    requires f.slice.picture.ptype == PictureI && f.slice.picture.fcm == FcmProgressive
    requires f.fwd.None? && f.bwd.None?
    ensures !PicInterlaceOf(f).fwdInterlace && !PicInterlaceOf(f).bwdInterlace
    ensures !OutputAttrs(prev, f).interlaced && !OutputAttrs(prev, f).compen
    ensures PicInterlaceOf(f).brfd == 0
  {
  }

  /**
    A P picture with INTCOMP set records compensation on its buffer; a B
    picture that then uses that buffer as forward reference has
    compensation enabled; an I picture decoded into the same buffer later
    records it off, whatever its own flags.
   */
  lemma {:induction false} CompenAcrossFrames(prev: Vc1Attrs, p: Frame, b: Frame, i: Frame)
    requires p.slice.picture.ptype == PictureP && p.slice.picture.intcomp
    requires b.slice.picture.ptype == PictureB
    requires b.fwd.Some? && b.fwd.value.attrs == OutputAttrs(prev, p)
    requires i.slice.picture.ptype == PictureI
    ensures OutputAttrs(prev, p).compen
    ensures PicMvOf(b).intensityCompEn
    ensures !OutputAttrs(OutputAttrs(prev, p), i).compen
  {
    assert CompenEnabled(p);
  }
}
