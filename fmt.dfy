/**
  The DE3 output formatter: the colour space, bit depth and component
  limits it is programmed with for the mixer's output bus format, and the
  register program that sets them while the unit is disabled.
 */
module Fmt {
  import opened Words
  import opened MediaBus
  import opened DisplayEngine

  /** sun50i_fmt_is_10bit: the four 10-bit bus formats. */
  function Is10Bit(format: u32): (r: bool)
    ensures r ==> format in {RGB101010_1X30, YUV10_1X30, UYYVYY10_0_5X30, UYVY10_1X20}
    ensures format in {RGB101010_1X30, YUV10_1X30, UYYVYY10_0_5X30, UYVY10_1X20} ==> r
  {
    match format
    case 0x1018 => true
    case 0x2016 => true
    case 0x2027 => true
    case 0x201a => true
    case _ => false
  }

  /** sun50i_fmt_get_colorspace: 4:2:0 and 4:2:2 bus formats; everything else is 4:4:4 or RGB. */
  function Colorspace(format: u32): (cs: FmtColorspace)
    ensures cs == CsYuv420 <==> format == UYYVYY8_0_5X24 || format == UYYVYY10_0_5X30
    ensures cs == CsYuv422 <==> format == UYVY8_1X16 || format == UYVY10_1X20
  {
    match format
    case 0x2026 => CsYuv420
    case 0x2027 => CsYuv420
    case 0x200f => CsYuv422
    case 0x201a => CsYuv422
    case _ => CsYuv444Rgb
  }

  /**
    The Y, C0 and C1 limits for a colour space and bit depth: video range
    (starting at 64) exactly for subsampled output, the two chroma
    components alike, and every limit inside the 10-bit code range.
   */
  function Limits(cs: FmtColorspace, bit10: bool): (l: seq<FmtLimit>)
    ensures |l| == 3
    ensures l[0].low == 64 <==> cs != CsYuv444Rgb
    ensures l[1] == l[2]
    ensures forall k :: 0 <= k < 3 ==> l[k].low < l[k].high <= 1023
  {
    if cs != CsYuv444Rgb then [FmtLimit(64, 940), FmtLimit(64, 960), FmtLimit(64, 960)]
    else if bit10 then [FmtLimit(0, 1023), FmtLimit(0, 1023), FmtLimit(0, 1023)]
    else [FmtLimit(0, 1021), FmtLimit(0, 1021), FmtLimit(0, 1021)]
  }

  /** The writes before the limits: disable, then size, swap, depth, colour space and coefficients. */
  function HeaderWrites(format: u32, width: u16, height: u16): seq<RegOp>
  {
    [FmtCtrl(0), FmtSize(width, height), FmtSwap(!IsRgb(format)), FmtDepth(Is10Bit(format)),
     FmtFormat(Colorspace(format)), FmtCoef(0)]
  }

  /** The three limit writes. */
  function LimitWrites(l: seq<FmtLimit>): seq<RegOp>
    requires |l| == 3
  {
    [FmtLmtY(l[0]), FmtLmtC0(l[1]), FmtLmtC1(l[2])]
  }

  /** The writes of sun50i_fmt_setup for an output bus format and size. */
  function FmtProgram(format: u32, width: u16, height: u16): (p: seq<RegOp>)
    ensures |p| == 10 && p[0] == FmtCtrl(0) && p[9] == FmtCtrl(1)
  {
    HeaderWrites(format, width, height) + LimitWrites(Limits(Colorspace(format), Is10Bit(format))) + [FmtCtrl(1)]
  }

  /**
    sun50i_fmt_setup: disable the formatter, program size, channel swap,
    depth, colour space, coefficients and limits, then enable it.
   */
  method FmtSetup(mixer: Mixer, width: u16, height: u16)
    modifies mixer.regs
    ensures mixer.regs.log == old(mixer.regs.log) + FmtProgram(mixer.outFormat, width, height)
    ensures mixer.regs.blendCscEn == old(mixer.regs.blendCscEn)
  {
    var regs := mixer.regs;
    var colorspace := Colorspace(mixer.outFormat);
    var bit10 := Is10Bit(mixer.outFormat);

    WriteHeader(regs, mixer.outFormat, width, height);

    var limit := new FmtLimit[3];
    if colorspace != CsYuv444Rgb {
      limit[0] := FmtLimit(64, 940);
      limit[1] := FmtLimit(64, 960);
      limit[2] := FmtLimit(64, 960);
    } else if bit10 {
      limit[0] := FmtLimit(0, 1023);
      limit[1] := FmtLimit(0, 1023);
      limit[2] := FmtLimit(0, 1023);
    } else {
      limit[0] := FmtLimit(0, 1021);
      limit[1] := FmtLimit(0, 1021);
      limit[2] := FmtLimit(0, 1021);
    }
    assert limit[..] == Limits(colorspace, bit10);

    WriteLimits(regs, limit);
    regs.Write(FmtCtrl(1));
  }

  /** The first six writes of sun50i_fmt_setup. */
  method WriteHeader(regs: Regmap, format: u32, width: u16, height: u16)
    modifies regs
    ensures regs.log == old(regs.log) + HeaderWrites(format, width, height)
    ensures regs.blendCscEn == old(regs.blendCscEn)
  {
    regs.Write(FmtCtrl(0));
    regs.Write(FmtSize(width, height));
    regs.Write(FmtSwap(!IsRgb(format)));
    regs.Write(FmtDepth(Is10Bit(format)));
    regs.Write(FmtFormat(Colorspace(format)));
    regs.Write(FmtCoef(0));
  }

  /** The three limit writes of sun50i_fmt_setup, from the `limit` array. */
  method WriteLimits(regs: Regmap, limit: array<FmtLimit>)
    requires limit.Length == 3
    modifies regs
    ensures regs.log == old(regs.log) + LimitWrites(limit[..])
    ensures regs.blendCscEn == old(regs.blendCscEn)
  {
    regs.Write(FmtLmtY(limit[0]));
    regs.Write(FmtLmtC0(limit[1]));
    regs.Write(FmtLmtC1(limit[2]));
  }

  // ---------------------------------------------------------------------
  // Properties

  /** The formatter is disabled by the first write and enabled by the last, and CTRL is written nowhere else. */
  lemma {:induction false} FmtProgramBracketed(format: u32, width: u16, height: u16)
    ensures var p := FmtProgram(format, width, height);
      |p| == 10 && p[0] == FmtCtrl(0) && p[|p| - 1] == FmtCtrl(1) &&
      forall i :: 0 < i < |p| - 1 ==> !p[i].FmtCtrl?
  {
  }

  /** Channel swap exactly for YUV output, depth from the 10-bit test, no coefficients. */
  lemma FmtProgramFields(format: u32, width: u16, height: u16)
    ensures var p := FmtProgram(format, width, height);
      p[1] == FmtSize(width, height) && p[2] == FmtSwap(!IsRgb(format)) &&
      p[3] == FmtDepth(Is10Bit(format)) && p[4] == FmtFormat(Colorspace(format)) && p[5] == FmtCoef(0)
  {
  }

  /**
    The limit writes by case: video limits for subsampled output, the full
    10-bit code range for 10-bit 4:4:4 output, and 0..1021 otherwise.
   */
  lemma FmtProgramLimits(format: u32, width: u16, height: u16)
    ensures var p, cs := FmtProgram(format, width, height), Colorspace(format);
      (cs != CsYuv444Rgb ==>
        p[6..9] == [FmtLmtY(FmtLimit(64, 940)), FmtLmtC0(FmtLimit(64, 960)), FmtLmtC1(FmtLimit(64, 960))]) &&
      (cs == CsYuv444Rgb && Is10Bit(format) ==>
        p[6..9] == [FmtLmtY(FmtLimit(0, 1023)), FmtLmtC0(FmtLimit(0, 1023)), FmtLmtC1(FmtLimit(0, 1023))]) &&
      (cs == CsYuv444Rgb && !Is10Bit(format) ==>
        p[6..9] == [FmtLmtY(FmtLimit(0, 1021)), FmtLmtC0(FmtLimit(0, 1021)), FmtLmtC1(FmtLimit(0, 1021))])
  {
  }

  /** RGB output is never subsampled, so it is formatted as 4:4:4 with the full limits and no swap. */
  lemma RgbIsFullRange(format: u32, width: u16, height: u16)
    requires IsRgb(format)
    ensures Colorspace(format) == CsYuv444Rgb
    ensures var p := FmtProgram(format, width, height);
      p[2] == FmtSwap(false) && p[6] == FmtLmtY(FmtLimit(0, if Is10Bit(format) then 1023 else 1021))
  {
  }

  /** Subsampled (4:2:0 and 4:2:2) output is YUV: it gets the channel swap. */
  lemma SubsampledIsLimited(format: u32, width: u16, height: u16)
    requires Colorspace(format) != CsYuv444Rgb
    ensures !IsRgb(format)
    ensures FmtProgram(format, width, height)[2] == FmtSwap(true)
  {
  }
}
