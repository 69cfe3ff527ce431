/**
  The per-frame values the Cedrus VC-1 setup derives from the picture
  header and from the attributes stored on the reference buffers: the
  B-fraction lookup, the motion-vector mode remap, the reference
  distances, the field bits, the interlace inference for references, the
  intensity-compensation decision, the attributes recorded on the output
  buffer, and the interrupt-status classification.
 */
module Vc1Derive {
  import opened Wrappers
  import opened Words
  import opened Vc1Regs

  type u8 = x: int | 0 <= x < 256

  // Picture types (VC1_PICTURE_TYPE_*).
  const PictureI: nat := 0
  const PictureP: nat := 1
  const PictureB: nat := 2
  const PictureBI: nat := 3
  const PictureSkipped: nat := 4

  // Frame coding modes (VC1_FCM_*).
  const FcmProgressive: nat := 0
  const FcmInterlacedFrame: nat := 1
  const FcmInterlacedField: nat := 2

  // Motion-vector modes (VC1_MVMODE_*).
  const MvMode1MvHpelBilin: nat := 0
  const MvMode1Mv: nat := 1
  const MvMode1MvHpel: nat := 2
  const MvModeMixedMv: nat := 3
  const MvModeIntensityComp: nat := 4

  /** FRACTION(num, denom): a fraction scaled by 256 and rounded down. */
  function Fraction(num: nat, denom: nat): nat
    requires denom > 0
  {
    num * 256 / denom
  }

  /** The numerator and denominator of every B-fraction code below 21. */
  const Ratios: seq<(nat, nat)> :=
    [(1, 2), (1, 3), (2, 3), (1, 4), (3, 4), (1, 5), (2, 5), (3, 5), (4, 5),
     (1, 6), (5, 6), (1, 7), (2, 7), (3, 7), (4, 7), (5, 7), (6, 7),
     (1, 8), (3, 8), (5, 8), (7, 8)]

  /**
    vc1_fractions as the compiler lays it out: the 21 scaled ratios (see
    GetFractionValues for their derivation from Ratios), then 0xff, then 0.
   */
  const Fractions: seq<nat> :=
    [128, 85, 170, 64, 192, 51, 102, 153, 204, 42, 213, 36, 73, 109, 146, 182, 219, 32, 96, 160, 224, 0xff, 0]

  /** FRACTION(1, 2), the threshold of the less-than-half flag. */
  const Half: nat := Fraction(1, 2)

  /** Every listed ratio is a proper fraction. */
  lemma RatiosProper()
    ensures |Ratios| == 21
    ensures forall k :: 0 <= k < |Ratios| ==> 0 < Ratios[k].0 < Ratios[k].1
  {
  }

  lemma PositiveFactor(a: int, d: int)
    requires d > 0 && a * d > 0
    ensures a > 0
  {
  }

  lemma FractionBelowHalf(num: nat, denom: nat)
    requires 0 < denom
    ensures Fraction(num, denom) < 128 <==> 2 * num < denom
  {
    var q := Fraction(num, denom);
    assert q * denom <= num * 256 < q * denom + denom;
    if 2 * num < denom {
      assert (128 - q) * denom == 128 * denom - q * denom;
      PositiveFactor(128 - q, denom);
    } else {
      assert (q + 1 - 128) * denom == q * denom + denom - 128 * denom;
      PositiveFactor(q + 1 - 128, denom);
    }
  }

  /**
    cedrus_vc1_get_fraction: the scaled value of a B-fraction code; codes
    past the end of the table give 0.
   */
  function GetFraction(index: nat): (r: nat)
    ensures r <= 0xff
  {
    if index < |Fractions| then Fractions[index] else 0
  }

  /**
    The table holds 23 entries: code k below 21 is the k-th ratio, code 21
    the 0xff sentinel, and every later code reads as 0.
   */
  lemma GetFractionValues(index: nat)
    ensures |Fractions| == 23
    ensures index < |Ratios| ==> GetFraction(index) == Fraction(Ratios[index].0, Ratios[index].1)
    ensures index == 21 ==> GetFraction(index) == 0xff
    ensures index >= 22 ==> GetFraction(index) == 0
  {
  }

  /**
    The less-than-half flag is set exactly for the ratios below one half
    and for the codes that read as 0; the 0xff sentinel and 1/2 itself
    do not set it.
   */
  lemma {:induction false} LessThanHalf(index: nat)
    ensures Half == 128
    ensures GetFraction(index) < Half <==>
      (index < |Ratios| && 2 * Ratios[index].0 < Ratios[index].1) || index >= 22
  {
    RatiosProper();
    GetFractionValues(index);
    if index < |Ratios| {
      FractionBelowHalf(Ratios[index].0, Ratios[index].1);
    }
  }

  /** vc1_mvmode_map: the hardware code of each two-bit motion-vector mode. */
  const MvModeMap: seq<nat> := [3, 0, 2, 1]

  /** The inverse of vc1_mvmode_map. */
  function MvModeUnmap(code: nat): (m: nat)
    requires code < 4
  {
    [1, 3, 2, 0][code]
  }

  /** The motion-vector mode a picture is decoded with (the FIXME'd substitution). */
  function EffectiveMvMode(ptype: nat, mvmode: nat, mvmode2: nat): (r: nat)
    ensures ptype == PictureP && mvmode == MvModeIntensityComp ==> r == mvmode2
    ensures ptype != PictureP || mvmode != MvModeIntensityComp ==> r == mvmode
  {
    if ptype == PictureP && mvmode == MvModeIntensityComp then mvmode2 else mvmode
  }

  /** The MVMODE field written for a mode: vc1_mvmode_map[mode & 3]. */
  function MvModeField(mvmode: nat): (r: nat)
    ensures r < 4
    ensures MvModeUnmap(r) == mvmode % 4
  {
    MvModeMap[mvmode % 4]
  }

  /** vc1_mvmode_map is a permutation of 0..3 and MvModeUnmap undoes it both ways. */
  lemma MvModeMapBijective()
    ensures multiset(MvModeMap) == multiset{0, 1, 2, 3}
    ensures forall m :: 0 <= m < 4 ==> MvModeUnmap(MvModeMap[m]) == m
    ensures forall c :: 0 <= c < 4 ==> MvModeUnmap(c) < 4 && MvModeMap[MvModeUnmap(c)] == c
  {
  }

  /** The clamped forward and backward reference distances. */
  datatype RefDist = RefDist(frfd: nat, brfd: nat)

  /** frfd before clamping: scaled by the B fraction for B pictures. */
  function ForwardDistance(ptype: nat, fraction: nat, refdist: u8): nat
  {
    if ptype == PictureB then (fraction * refdist) / 256 else refdist
  }

  /** brfd before clamping (a signed C int). */
  function BackwardDistance(ptype: nat, fraction: nat, refdist: u8): int
  {
    refdist - ForwardDistance(ptype, fraction, refdist) - 1
  }

  /** The FRFD and BRFD fields: the distances, forward capped at 3, backward clamped into 0..3. */
  function RefDistances(ptype: nat, fraction: nat, refdist: u8): (r: RefDist)
    ensures r.frfd <= 3 && r.brfd <= 3
    ensures r.frfd == if ForwardDistance(ptype, fraction, refdist) > 3 then 3 else ForwardDistance(ptype, fraction, refdist)
    ensures 0 <= BackwardDistance(ptype, fraction, refdist) <= 3 ==> r.brfd == BackwardDistance(ptype, fraction, refdist)
    ensures BackwardDistance(ptype, fraction, refdist) < 0 ==> r.brfd == 0
    ensures BackwardDistance(ptype, fraction, refdist) > 3 ==> r.brfd == 3
    ensures ptype != PictureB ==> r.brfd == 0
  {
    var frfd := ForwardDistance(ptype, fraction, refdist);
    var brfd := refdist - frfd - 1;
    RefDist(if frfd > 3 then 3 else frfd, if brfd < 0 then 0 else if brfd > 3 then 3 else brfd)
  }

  lemma ScaledBelow(fraction: nat, refdist: nat)
    requires fraction < 256 && refdist >= 1
    ensures (fraction * refdist) / 256 < refdist
  {
    assert fraction * refdist <= 255 * refdist < 256 * refdist;
  }

  /**
    For a B picture whose fraction comes from the table, the backward
    distance never needs its lower clamp once refdist >= 1; so whenever
    the forward distance is at most 3 and the backward one at most 3, no
    clamp fires and the two distances and the current picture add up to
    refdist.
   */
  lemma {:induction false} BDistancesAddUp(index: nat, refdist: u8)
    requires 1 <= refdist
    ensures BackwardDistance(PictureB, GetFraction(index), refdist) >= 0
    ensures ForwardDistance(PictureB, GetFraction(index), refdist) <= 3 &&
            BackwardDistance(PictureB, GetFraction(index), refdist) <= 3 ==>
      var r := RefDistances(PictureB, GetFraction(index), refdist);
      r.frfd + r.brfd + 1 == refdist
  {
    ScaledBelow(GetFraction(index), refdist);
  }

  /** Non-B pictures always use the full reference distance forward and 0 backward. */
  lemma NonBDistances(ptype: nat, fraction: nat, refdist: u8)
    requires ptype != PictureB
    ensures RefDistances(ptype, fraction, refdist) == RefDist(if refdist > 3 then 3 else refdist, 0)
  {
  }

  /**
    The BOTTOM_FIELD bit: the picture is interlaced and the field being
    decoded is the bottom one, i.e. the second field of a top-field-first
    frame or the first field of a bottom-field-first frame.
   */
  function BottomField(progressive: bool, tff: bool, secondField: bool): (r: bool)
    ensures r <==> !progressive && ((tff && secondField) || (!tff && !secondField))
  {
    !progressive && !(tff != secondField)
  }

  /** The REFFIELD bit: set when second_field and ref_field agree. */
  function RefFieldBit(secondField: bool, refField: bool): (r: bool)
    ensures r <==> (secondField && refField) || (!secondField && !refField)
  {
    !(secondField != refField)
  }

  /** The attributes recorded on a decoded buffer for later frames that reference it. */
  datatype Vc1Attrs = Vc1Attrs(rangeredfrm: bool, interlaced: bool, ptype: nat, compen: bool)

  /**
    The FWD_INTERLACE / BWD_INTERLACE bit: the reference's own flag when it
    exists, otherwise the current picture's cadence.
   */
  function RefInterlaced(reference: Option<Vc1Attrs>, progressive: bool): (r: bool)
    ensures reference.Some? ==> (r <==> reference.value.interlaced)
    ensures reference.None? ==> (r <==> !progressive)
  {
    (reference.Some? && reference.value.interlaced) || (reference.None? && !progressive)
  }

  /**
    The INTENSITY_COMP_EN bit: a B picture inherits it from its forward
    reference, any other picture takes its own INTCOMP flag.
   */
  function IntensityCompEnabled(ptype: nat, intcomp: bool, fwd: Option<Vc1Attrs>): (r: bool)
    ensures ptype == PictureB ==> (r <==> fwd.Some? && fwd.value.compen)
    ensures ptype != PictureB ==> (r <==> intcomp)
  {
    (ptype == PictureB && fwd.Some? && fwd.value.compen) || (ptype != PictureB && intcomp)
  }

  /**
    The attributes the setup records on the output buffer: range
    reduction, interlacing and picture type always; the compensation flag
    from this frame for P pictures, cleared for I pictures, kept otherwise.
   */
  function RecordedAttrs(prev: Vc1Attrs, ptype: nat, fcm: nat, rangeredfrm: bool, compenEn: bool): (r: Vc1Attrs)
    ensures r.rangeredfrm == rangeredfrm && r.interlaced == (fcm != FcmProgressive) && r.ptype == ptype
    ensures ptype == PictureP ==> r.compen == compenEn
    ensures ptype == PictureI ==> !r.compen
    ensures ptype != PictureP && ptype != PictureI ==> r.compen == prev.compen
  {
    Vc1Attrs(rangeredfrm, fcm != FcmProgressive, ptype,
      if ptype == PictureP then compenEn else if ptype == PictureI then false else prev.compen)
  }

  /** The outcome cedrus_vc1_irq_status reports to the cedrus core. */
  datatype IrqStatus = IrqNone | IrqOk | IrqError

  /**
    The classification of a STATUS word: an error or a request for more
    bitstream data is an error even when SUCCESS is also set.
   */
  function ClassifyStatus(s: StatusWord): (r: IrqStatus)
    ensures r == IrqError <==> s.error || s.vldDataReq
    ensures r == IrqOk <==> !s.error && !s.vldDataReq && s.success
    ensures r == IrqNone <==> !s.error && !s.vldDataReq && !s.success
  {
    if s.error || s.vldDataReq then IrqError
    else if s.success then IrqOk
    else IrqNone
  }

  /** A write-one-to-clear store of `mask` into STATUS. */
  function ClearStatus(s: StatusWord, mask: StatusWord): (r: StatusWord)
    ensures r.success <==> s.success && !mask.success
    ensures r.error <==> s.error && !mask.error
    ensures r.vldDataReq <==> s.vldDataReq && !mask.vldDataReq
  {
    StatusWord(s.success && !mask.success, s.error && !mask.error, s.vldDataReq && !mask.vldDataReq)
  }

  /** After STATUS_INT_MASK is written, no interrupt is pending. */
  lemma ClearedStatusIsQuiet(s: StatusWord)
    ensures ClassifyStatus(ClearStatus(s, StatusIntMask)) == IrqNone
  {
  }

  /** `reg & ~VE_DEC_VC1_CTRL_IRQ_MASK`: the interrupt enables cleared, everything else kept. */
  function DisableIrqs(c: CtrlWord): (r: CtrlWord)
    ensures !r.finishIrqEn && !r.errorIrqEn && !r.vldDataReqIrqEn
    ensures r.mcriCacheEn == c.mcriCacheEn && r.other == c.other
  {
    c.(finishIrqEn := false, errorIrqEn := false, vldDataReqIrqEn := false)
  }

  /** Masking the interrupts twice is the same as masking them once. */
  lemma DisableIrqsIdempotent(c: CtrlWord)
    ensures DisableIrqs(DisableIrqs(c)) == DisableIrqs(c)
  {
  }
}
