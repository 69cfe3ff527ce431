/**
  The parts of an Allwinner display-engine mixer that the colour-space
  converter and output formatter code touch: the mixer configuration, the
  output properties of its engine, the per-layer cache of the last CSC
  inputs, and its register map.  The register map is a log of the writes
  issued to it (and of the calls made into the colour-depth converter,
  whose implementation is not part of this model), together with the one
  register that is updated by read-modify-write: the enable bits of the
  DE3 blender CSC.
 */
module DisplayEngine {
  import opened Words

  /** enum drm_color_encoding. */
  datatype Encoding = Bt601 | Bt709 | Bt2020

  /** enum drm_color_range. */
  datatype ColorRange = Limited | Full

  /** The HDMI electro-optical transfer functions (enum hdmi_eotf). */
  datatype Eotf = TraditionalSdr | TraditionalHdr | SmpteSt2084 | Bt2100Hlg

  /** enum format_type of a plane's pixel format; any other value is `FormatUnknown`. */
  datatype FormatType = FormatRgb | FormatYuv | FormatYvu | FormatUnknown

  /** What the engine drives out: media-bus format, encoding and transfer function. */
  datatype EngineOut = EngineOut(format: u32, encoding: Encoding, eotf: Eotf, isEotfSupported: bool)

  /** struct csc_state: the inputs of the last DE3 CSC setup of one layer. */
  datatype CscState = CscState(
    fmtType: FormatType,
    inEnc: Encoding,
    inRange: ColorRange,
    outFmt: u32,
    outEnc: Encoding,
    eotf: Eotf,
    isEotfSupported: bool)

  /** The DE2 channel CSC units, by register block. */
  datatype CscBase = Ccsc00 | Ccsc01 | Ccsc10 | Ccsc11 | Ccsc01D1

  /** Which pair of CSC units a DE2 mixer has (its `ccsc` configuration). */
  datatype CcscLayout = Mixer0Layout | Mixer1Layout | D1Mixer0Layout

  /** enum conversion_type of the colour-depth converter. */
  datatype Conversion = SdrToWcgRgb | SdrToHdrRgb | WcgToSdrYuv | HdrToSdrYuv

  /** The output formatter's colour spaces (SUN50I_FMT_CS_*). */
  datatype FmtColorspace = CsYuv444Rgb | CsYuv422 | CsYuv420

  /** A low/high clamp of one output formatter component (SUN50I_FMT_LIMIT). */
  datatype FmtLimit = FmtLimit(low: nat, high: nat)

  /** One write to the mixer's register map, or one call into the colour-depth converter. */
  datatype RegOp =
    | CscCtrl(base: CscBase, enable: bool)
    | CscCoeffs(base: CscBase, coeffs: seq<u32>)
    | BlendCscEnable(layer: nat, enable: bool)
    | BlendCscCoeffs(layer: nat, coeffs: seq<u32>)
    | CdcSetup(channel: nat, inCsc: seq<u32>, outCsc: seq<u32>, conv: Conversion)
    | CdcDisable(channel: nat)
    | FmtCtrl(value: nat)
    | FmtSize(width: u16, height: u16)
    | FmtSwap(swap: bool)
    | FmtDepth(tenBit: bool)
    | FmtFormat(cs: FmtColorspace)
    | FmtCoef(value: nat)
    | FmtLmtY(limit: FmtLimit)
    | FmtLmtC0(limit: FmtLimit)
    | FmtLmtC1(limit: FmtLimit)

  /** A mixer's register map. */
  class Regmap {
    var log: seq<RegOp>
    /** The layers whose enable bit is set in the DE3 blender CSC control register. */
    var blendCscEn: set<nat>

    constructor (en: set<nat>)
      ensures log == [] && blendCscEn == en
    {
      log := [];
      blendCscEn := en;
    }

    /** regmap_write, regmap_bulk_write, or a call into the colour-depth converter. */
    method Write(op: RegOp)
      modifies this
      ensures log == old(log) + [op]
      ensures blendCscEn == old(blendCscEn)
    {
      log := log + [op];
    }

    /** regmap_update_bits on the blender CSC control: only `layer`'s bit may change. */
    method UpdateBlendCscEnable(layer: nat, enable: bool)
      modifies this
      ensures log == old(log) + [BlendCscEnable(layer, enable)]
      ensures blendCscEn == if enable then old(blendCscEn) + {layer} else old(blendCscEn) - {layer}
    {
      log := log + [BlendCscEnable(layer, enable)];
      blendCscEn := if enable then blendCscEn + {layer} else blendCscEn - {layer};
    }
  }

  /** struct sun8i_mixer, restricted to what the CSC and formatter code use. */
  class Mixer {
    const isDe3: bool
    const viNum: nat
    const ccsc: CcscLayout
    const regs: Regmap
    /** One cache entry per layer. */
    const cscStates: array<CscState>
    var engine: EngineOut
    var outFormat: u32

    constructor (isDe3: bool, viNum: nat, ccsc: CcscLayout, layers: nat, init: CscState,
                 engine: EngineOut, outFormat: u32)
      ensures this.isDe3 == isDe3 && this.viNum == viNum && this.ccsc == ccsc
      ensures this.engine == engine && this.outFormat == outFormat
      ensures fresh(regs) && regs.log == [] && regs.blendCscEn == {}
      ensures fresh(cscStates) && cscStates.Length == layers
      ensures forall i :: 0 <= i < layers ==> cscStates[i] == init
    {
      this.isDe3 := isDe3;
      this.viNum := viNum;
      this.ccsc := ccsc;
      this.engine := engine;
      this.outFormat := outFormat;
      regs := new Regmap({});
      cscStates := new CscState[layers](_ => init);
    }
  }
}
