/**
  Colour-space-converter programming for the DE2 and DE3 mixers: the YVU
  column swap, the DE2 channel CSC setup, the DE3 blender CSC setup with
  its per-layer input cache and its hand-off to the colour-depth converter
  (CDC), and the dispatch between the two.
 */
module Csc {
  import opened Words
  import opened Wrappers
  import opened MediaBus
  import opened DisplayEngine
  import opened CscTables

  // ---------------------------------------------------------------------
  // The YVU remap

  /** The table with the two chroma columns of every row swapped. */
  function YvuRemapped(t: seq<u32>): (r: seq<u32>)
    requires |t| == 12
    ensures |r| == 12
  {
    [t[0], t[2], t[1], t[3],
     t[4], t[6], t[5], t[7],
     t[8], t[10], t[9], t[11]]
  }

  /** The entry of the input table that entry `i` of a remapped table comes from (`i & 3` is `i % 4`). */
  function RemapSource(i: nat): (k: nat)
    requires i < 12
    ensures k < 12
  {
    if i % 4 == 1 then i + 1 else if i % 4 == 2 then i - 1 else i
  }

  /** In each row of four, entries 1 and 2 trade places and entries 0 and 3 stay. */
  lemma YvuRemappedAt(t: seq<u32>, i: nat)
    requires |t| == 12 && i < 12
    ensures YvuRemapped(t)[i] == t[RemapSource(i)]
  {
  }

  /** Trading two neighbouring entries keeps the same words. */
  lemma SwapKeepsWords(s: seq<u32>, i: nat)
    requires i + 1 < |s|
    ensures multiset(s[i := s[i + 1]][i + 1 := s[i]]) == multiset(s)
  {
    var u := s[i := s[i + 1]][i + 1 := s[i]];
    assert s == s[..i] + [s[i], s[i + 1]] + s[i + 2..];
    assert u == s[..i] + [s[i + 1], s[i]] + s[i + 2..];
  }

  /** The remap is three neighbour swaps, one per row. */
  lemma RemapIsSwaps(t: seq<u32>)
    requires |t| == 12
    ensures var a := t[1 := t[2]][2 := t[1]];
      var b := a[5 := a[6]][6 := a[5]];
      YvuRemapped(t) == b[9 := b[10]][10 := b[9]]
  {
  }

  /** The remapped table holds the same twelve words, only reordered. */
  lemma {:induction false} YvuRemapPermutes(t: seq<u32>)
    requires |t| == 12
    ensures multiset(YvuRemapped(t)) == multiset(t)
  {
    var a := t[1 := t[2]][2 := t[1]];
    var b := a[5 := a[6]][6 := a[5]];
    RemapIsSwaps(t);
    SwapKeepsWords(t, 1);
    SwapKeepsWords(a, 5);
    SwapKeepsWords(b, 9);
  }

  /** Swapping the chroma columns twice gives the table back. */
  lemma YvuRemapInvolution(t: seq<u32>)
    requires |t| == 12
    ensures YvuRemapped(YvuRemapped(t)) == t
  {
  }

  /** sun8i_csc_yvu_remap: fill `outTable` from `inTable` and hand it back. */
  method YvuRemap(inTable: seq<u32>, outTable: array<u32>) returns (r: array<u32>)
    requires |inTable| == 12 && outTable.Length == 12
    modifies outTable
    ensures r == outTable && r[..] == YvuRemapped(inTable)
  {
    for i := 0 to 12
      invariant forall j :: 0 <= j < i ==> outTable[j] == inTable[RemapSource(j)]
    {
      if i % 4 == 1 {
        outTable[i] := inTable[i + 1];
      } else if i % 4 == 2 {
        outTable[i] := inTable[i - 1];
      } else {
        outTable[i] := inTable[i];
      }
    }
    forall j | 0 <= j < 12
      ensures outTable[j] == YvuRemapped(inTable)[j]
    {
      YvuRemappedAt(inTable, j);
    }
    return outTable;
  }

  // ---------------------------------------------------------------------
  // Table pointers

  /**
    A `const u32 *` table pointer: none, a static table, or the caller's
    on-stack YVU buffer holding the given words.  Two pointers are equal
    only when they point at the same table, so a remapped copy never
    equals a static table whatever its words.
   */
  datatype Table = NoTable | Static(name: TableName) | YvuBuffer(words: seq<u32>)

  predicate ValidTable(t: Table)
  {
    match t
    case NoTable => true
    case Static(n) => Declared(n)
    case YvuBuffer(w) => |w| == 12
  }

  /** The twelve words a valid table pointer points at. */
  function Contents(t: Table): (c: seq<u32>)
    requires ValidTable(t) && t != NoTable
    ensures |c| == 12
  {
    match t
    case Static(n) => Coeffs(n)
    case YvuBuffer(w) => w
  }

  // ---------------------------------------------------------------------
  // DE2 channel CSC

  /** Writes of sun8i_csc_setup for a CSC unit at `base`. */
  function De2Program(base: CscBase, fmt: FormatType, enc: Encoding, range: ColorRange): (p: seq<RegOp>)
    requires !fmt.FormatRgb? ==> enc != Bt2020
    ensures p == [] <==> fmt.FormatUnknown?
    ensures p != [] ==> p[0] == CscCtrl(base, !fmt.FormatRgb?)
    ensures |p| == 2 <==> fmt.FormatYuv? || fmt.FormatYvu?
    ensures |p| <= 2
    ensures |p| == 2 ==> p[1].CscCoeffs? && p[1].base == base && |p[1].coeffs| == 12
    ensures fmt.FormatYuv? ==> p[1].coeffs == Coeffs(De2Yuv2Rgb(range, enc))
    ensures fmt.FormatYvu? ==> p[1].coeffs == YvuRemapped(Coeffs(De2Yuv2Rgb(range, enc)))
  {
    match fmt
    case FormatRgb => [CscCtrl(base, false)]
    case FormatYuv => [CscCtrl(base, true), CscCoeffs(base, Coeffs(De2Yuv2Rgb(range, enc)))]
    case FormatYvu => [CscCtrl(base, true), CscCoeffs(base, YvuRemapped(Coeffs(De2Yuv2Rgb(range, enc))))]
    case FormatUnknown => []
  }

  /** A YVU plane gets the YUV plane's coefficients with the chroma columns swapped. */
  lemma De2YvuIsRemappedYuv(base: CscBase, enc: Encoding, range: ColorRange)
    requires enc != Bt2020
    ensures De2Program(base, FormatYvu, enc, range)[1].coeffs ==
      YvuRemapped(De2Program(base, FormatYuv, enc, range)[1].coeffs)
  {
  }

  /** sun8i_csc_setup: program the DE2 CSC unit at `base` for a plane of the given format. */
  method CscSetup(regs: Regmap, base: CscBase, fmtType: FormatType, encoding: Encoding, range: ColorRange)
    requires !fmtType.FormatRgb? ==> encoding != Bt2020
    modifies regs
    ensures regs.log == old(regs.log) + De2Program(base, fmtType, encoding, range)
    ensures regs.blendCscEn == old(regs.blendCscEn)
  {
    var table := NoTable;
    match fmtType {
      case FormatRgb =>
      case FormatYuv =>
        table := Static(De2Yuv2Rgb(range, encoding));
      case FormatYvu =>
        var yvuTable := new u32[12];
        var out := YvuRemap(Coeffs(De2Yuv2Rgb(range, encoding)), yvuTable);
        table := YvuBuffer(out[..]);
      case FormatUnknown =>
        return;
    }
    regs.Write(CscCtrl(base, table != NoTable));
    if table != NoTable {
      regs.Write(CscCoeffs(base, Contents(table)));
    }
  }

  // ---------------------------------------------------------------------
  // DE3 blender CSC

  /** The CDC call the DE3 setup makes for a layer. */
  datatype CdcCall = CdcOn(inCsc: seq<u32>, outCsc: seq<u32>, conv: Conversion) | CdcOff

  /** What the DE3 setup decides: the CDC call and the table left for the blender CSC. */
  datatype Selection = Selection(cdc: CdcCall, blend: Table)

  /** The output is standard dynamic range. */
  predicate IsSdr(eng: EngineOut)
  {
    eng.eotf == TraditionalSdr
  }

  /** The CDC takes over the conversion for RGB planes: HDR output that the CDC supports. */
  predicate RgbToCdc(eng: EngineOut)
  {
    !IsSdr(eng) && eng.isEotfSupported
  }

  /** The CDC takes over for YUV planes: HDR output that the sink does not support, mapped back to SDR. */
  predicate YuvToCdc(eng: EngineOut)
  {
    !IsSdr(eng) && !eng.isEotfSupported
  }

  /** The table the blender CSC would use for a YUV or YVU plane after any rewrite of its inputs. */
  function YuvTable(fmt: FormatType, enc: Encoding, range: ColorRange, outEnc: Encoding, outFormat: u32): (t: Table)
    ensures ValidTable(t) && t != NoTable
    ensures fmt == FormatYvu <==> t.YvuBuffer?
  {
    var named := if IsRgb(outFormat) then De3Yuv2Rgb(range, enc) else Yuv2YuvDe3(range, enc, outEnc);
    if fmt == FormatYvu then YvuBuffer(YvuRemapped(Coeffs(named))) else Static(named)
  }

  /** The table decision of sun8i_de3_ccsc_setup; None when the format type is not handled. */
  function De3Select(fmt: FormatType, enc: Encoding, range: ColorRange, eng: EngineOut): (r: Option<Selection>)
    ensures r.None? <==> fmt.FormatUnknown?
    ensures r.Some? ==> ValidTable(r.value.blend)
  {
    var conv := if eng.eotf == SmpteSt2084 then (if fmt.FormatRgb? then SdrToHdrRgb else HdrToSdrYuv)
                else (if fmt.FormatRgb? then SdrToWcgRgb else WcgToSdrYuv);
    if fmt.FormatRgb? then
      var table := if !IsRgb(eng.format) then Static(De3Rgb2Yuv(eng.encoding)) else NoTable;
      if RgbToCdc(eng) then
        Some(Selection(CdcOn(Coeffs(IdentityDe3), if table == NoTable then Coeffs(IdentityDe3) else Contents(table), conv), NoTable))
      else
        Some(Selection(CdcOff, table))
    else if fmt.FormatUnknown? then
      None
    else if YuvToCdc(eng) then
      var inCsc := Coeffs(if range == Full then FullToLim else IdentityDe3);
      var inCsc' := if fmt == FormatYvu then YvuRemapped(inCsc) else inCsc;
      Some(Selection(CdcOn(inCsc', Contents(YuvTable(FormatYuv, enc, Limited, Bt709, eng.format)), conv), NoTable))
    else
      Some(Selection(CdcOff, YuvTable(fmt, enc, range, eng.encoding, eng.format)))
  }

  /** `enable` of the DE3 setup: a table is left, and it is not the identity table. */
  predicate BlendEnabled(t: Table)
  {
    t != NoTable && t != Static(IdentityDe3)
  }

  /** The register-map event of a CDC call. */
  function CdcWrite(layer: nat, cdc: CdcCall): RegOp
  {
    match cdc
    case CdcOn(inCsc, outCsc, conv) => CdcSetup(layer, inCsc, outCsc, conv)
    case CdcOff => CdcDisable(layer)
  }

  /** The enable update and, when enabled, the coefficient write. */
  function EnableWrites(layer: nat, t: Table): (p: seq<RegOp>)
    requires ValidTable(t)
    ensures |p| == if BlendEnabled(t) then 2 else 1
    ensures p[0] == BlendCscEnable(layer, BlendEnabled(t))
    ensures BlendEnabled(t) ==> p[1] == BlendCscCoeffs(layer, Contents(t))
  {
    [BlendCscEnable(layer, BlendEnabled(t))] + (if BlendEnabled(t) then [BlendCscCoeffs(layer, Contents(t))] else [])
  }

  /** The CDC call, the enable update and (when enabled) the coefficient write for a selection. */
  function De3Program(layer: nat, sel: Selection): (p: seq<RegOp>)
    requires ValidTable(sel.blend)
  {
    [CdcWrite(layer, sel.cdc)] + EnableWrites(layer, sel.blend)
  }

  /** The cache entry a DE3 setup stores: the inputs as received, before any rewrite. */
  function Recorded(fmt: FormatType, enc: Encoding, range: ColorRange, eng: EngineOut): (st: CscState)
    ensures st.fmtType == fmt && st.inEnc == enc && st.inRange == range
    ensures st.outFmt == eng.format && st.outEnc == eng.encoding
    ensures st.eotf == eng.eotf && st.isEotfSupported == eng.isEotfSupported
  {
    CscState(fmt, enc, range, eng.format, eng.encoding, eng.eotf, eng.isEotfSupported)
  }

  /** The seven cached fields all equal the new inputs. */
  predicate CacheHit(st: CscState, fmt: FormatType, enc: Encoding, range: ColorRange, eng: EngineOut)
  {
    st.fmtType == fmt && st.inEnc == enc && st.inRange == range &&
    st.outFmt == eng.format && st.outEnc == eng.encoding &&
    st.eotf == eng.eotf && st.isEotfSupported == eng.isEotfSupported
  }

  /** The writes of a DE3 setup of `layer` whose cache entry was `st`. */
  function De3Writes(st: CscState, layer: nat, fmt: FormatType, enc: Encoding, range: ColorRange, eng: EngineOut): seq<RegOp>
  {
    if CacheHit(st, fmt, enc, range, eng) then []
    else match De3Select(fmt, enc, range, eng)
      case None => []
      case Some(sel) => De3Program(layer, sel)
  }

  /** The blender CSC enable bits after a DE3 setup of `layer`: only that layer's bit can change. */
  function De3BlendEn(en: set<nat>, st: CscState, layer: nat, fmt: FormatType, enc: Encoding, range: ColorRange,
                      eng: EngineOut): (r: set<nat>)
    ensures r - {layer} == en - {layer}
  {
    if CacheHit(st, fmt, enc, range, eng) then en
    else match De3Select(fmt, enc, range, eng)
      case None => en
      case Some(sel) => if BlendEnabled(sel.blend) then en + {layer} else en - {layer}
  }

  /** The table decision for a YUV or YVU plane that stays off the CDC. */
  method SelectYuvTable(fmtType: FormatType, encoding: Encoding, range: ColorRange, outEnc: Encoding, outFormat: u32)
    returns (table: Table)
    requires fmtType.FormatYuv? || fmtType.FormatYvu?
    ensures table == YuvTable(fmtType, encoding, range, outEnc, outFormat)
  {
    var named := if IsRgb(outFormat) then De3Yuv2Rgb(range, encoding) else Yuv2YuvDe3(range, encoding, outEnc);
    table := Static(named);
    if fmtType == FormatYvu {
      var yvuTable := new u32[12];
      var out := YvuRemap(Coeffs(named), yvuTable);
      table := YvuBuffer(out[..]);
    }
  }

  /**
    sun8i_de3_ccsc_setup: return at once when the layer's cache entry
    matches the inputs; otherwise record the inputs, choose between the
    CDC and the blender CSC, and program the blender CSC.
   */
  method De3CcscSetup(mixer: Mixer, layer: nat, fmtType: FormatType, encoding: Encoding, range: ColorRange)
    requires layer < mixer.cscStates.Length
    modifies mixer.cscStates, mixer.regs
    ensures mixer.cscStates[..] == old(mixer.cscStates[..])[layer := Recorded(fmtType, encoding, range, mixer.engine)]
    ensures mixer.regs.log == old(mixer.regs.log) +
      De3Writes(old(mixer.cscStates[layer]), layer, fmtType, encoding, range, mixer.engine)
    ensures mixer.regs.blendCscEn ==
      De3BlendEn(old(mixer.regs.blendCscEn), old(mixer.cscStates[layer]), layer, fmtType, encoding, range, mixer.engine)
  {
    var engine := mixer.engine;
    var state := mixer.cscStates[layer];
    if state.fmtType == fmtType && state.inEnc == encoding && state.inRange == range &&
       state.outFmt == engine.format && state.outEnc == engine.encoding &&
       state.eotf == engine.eotf && state.isEotfSupported == engine.isEotfSupported {
      return;
    }
    mixer.cscStates[layer] := CscState(fmtType, encoding, range, engine.format, engine.encoding,
                                       engine.eotf, engine.isEotfSupported);
    ProgramBlendCsc(mixer, layer, fmtType, encoding, range);
  }

  /** The part of sun8i_de3_ccsc_setup after a cache miss: the CDC call and the blender CSC. */
  method ProgramBlendCsc(mixer: Mixer, layer: nat, fmtType: FormatType, encoding: Encoding, range: ColorRange)
    modifies mixer.regs
    ensures mixer.regs.log == old(mixer.regs.log) +
      match De3Select(fmtType, encoding, range, mixer.engine)
      case None => []
      case Some(sel) => De3Program(layer, sel)
    ensures mixer.regs.blendCscEn ==
      match De3Select(fmtType, encoding, range, mixer.engine)
      case None => old(mixer.regs.blendCscEn)
      case Some(sel) => if BlendEnabled(sel.blend) then old(mixer.regs.blendCscEn) + {layer} else old(mixer.regs.blendCscEn) - {layer}
  {
    var engine := mixer.engine;
    var isHdr10 := engine.eotf == SmpteSt2084;
    var isSdr := engine.eotf == TraditionalSdr;
    var table := NoTable;
    match fmtType {
      case FormatRgb =>
        table := RgbDe3Branch(mixer, layer, isHdr10, isSdr);
      case FormatYuv =>
        table := YuvDe3Branch(mixer, layer, fmtType, encoding, range, isHdr10, isSdr);
      case FormatYvu =>
        table := YuvDe3Branch(mixer, layer, fmtType, encoding, range, isHdr10, isSdr);
      case FormatUnknown =>
        return;
    }
    ProgramEnable(mixer.regs, layer, table);
  }

  /** The end of sun8i_de3_ccsc_setup: update this layer's enable bit and write the table when enabled. */
  method ProgramEnable(regs: Regmap, layer: nat, table: Table)
    requires ValidTable(table)
    modifies regs
    ensures regs.log == old(regs.log) + EnableWrites(layer, table)
    ensures regs.blendCscEn == if BlendEnabled(table) then old(regs.blendCscEn) + {layer} else old(regs.blendCscEn) - {layer}
  {
    var enable := table != NoTable && table != Static(IdentityDe3);
    regs.UpdateBlendCscEnable(layer, enable);
    if enable {
      regs.Write(BlendCscCoeffs(layer, Contents(table)));
    }
  }

  /** The RGB case of sun8i_de3_ccsc_setup, up to the enable decision. */
  method RgbDe3Branch(mixer: Mixer, layer: nat, isHdr10: bool, isSdr: bool) returns (table: Table)
    requires isHdr10 == (mixer.engine.eotf == SmpteSt2084) && isSdr == IsSdr(mixer.engine)
    modifies mixer.regs
    ensures var sel := De3Select(FormatRgb, Bt601, Limited, mixer.engine).value;
      table == sel.blend &&
      mixer.regs.log == old(mixer.regs.log) + [CdcWrite(layer, sel.cdc)]
    ensures mixer.regs.blendCscEn == old(mixer.regs.blendCscEn)
  {
    var engine := mixer.engine;
    table := NoTable;
    if !IsRgb(engine.format) {
      table := Static(De3Rgb2Yuv(engine.encoding));
    }
    if !isSdr && engine.isEotfSupported {
      var outCsc := if table == NoTable then Coeffs(IdentityDe3) else Contents(table);
      mixer.regs.Write(CdcSetup(layer, Coeffs(IdentityDe3), outCsc, if isHdr10 then SdrToHdrRgb else SdrToWcgRgb));
      table := NoTable;
    } else {
      mixer.regs.Write(CdcDisable(layer));
    }
  }

  /** The YUV/YVU case of sun8i_de3_ccsc_setup, up to the enable decision. */
  method YuvDe3Branch(mixer: Mixer, layer: nat, fmtType: FormatType, encoding: Encoding, range: ColorRange,
                      isHdr10: bool, isSdr: bool) returns (table: Table)
    requires fmtType.FormatYuv? || fmtType.FormatYvu?
    requires isHdr10 == (mixer.engine.eotf == SmpteSt2084) && isSdr == IsSdr(mixer.engine)
    modifies mixer.regs
    ensures De3Select(fmtType, encoding, range, mixer.engine).Some?
    ensures var sel := De3Select(fmtType, encoding, range, mixer.engine).value;
      table == sel.blend &&
      mixer.regs.log == old(mixer.regs.log) + [CdcWrite(layer, sel.cdc)]
    ensures mixer.regs.blendCscEn == old(mixer.regs.blendCscEn)
  {
    var engine := mixer.engine;
    var fmt, rng, outEnc := fmtType, range, engine.encoding;
    var inCsc := NoTable;
    if !isSdr && !engine.isEotfSupported {
      inCsc := Static(if range == Full then FullToLim else IdentityDe3);
      if fmt == FormatYvu {
        var yvuTable := new u32[12];
        var out := YvuRemap(Contents(inCsc), yvuTable);
        inCsc := YvuBuffer(out[..]);
      }
      rng := Limited;
      fmt := FormatYuv;
      outEnc := Bt709;
    } else {
      mixer.regs.Write(CdcDisable(layer));
    }
    table := SelectYuvTable(fmt, encoding, rng, outEnc, engine.format);
    if !isSdr && !engine.isEotfSupported {
      mixer.regs.Write(CdcSetup(layer, Contents(inCsc), Contents(table), if isHdr10 then HdrToSdrYuv else WcgToSdrYuv));
      table := NoTable;
    }
  }

  // ---------------------------------------------------------------------
  // Properties of the DE3 decision

  /** The blender CSC is disabled whenever the CDC path is taken, and the CDC path is taken exactly when stated. */
  lemma CdcDisablesBlend(fmt: FormatType, enc: Encoding, range: ColorRange, eng: EngineOut)
    requires !fmt.FormatUnknown?
    ensures var sel := De3Select(fmt, enc, range, eng).value;
      (sel.cdc.CdcOn? <==> (fmt.FormatRgb? && RgbToCdc(eng)) || (!fmt.FormatRgb? && YuvToCdc(eng))) &&
      (sel.cdc.CdcOn? ==> !BlendEnabled(sel.blend))
  {
  }

  /** Limited-range YUV input already in the output encoding needs no blender conversion. */
  lemma {:induction false} SameEncodingStaysDisabled(enc: Encoding, eng: EngineOut)
    requires enc == eng.encoding && !IsRgb(eng.format) && !YuvToCdc(eng)
    ensures var sel := De3Select(FormatYuv, enc, Limited, eng).value;
      sel.blend == Static(IdentityDe3) && !BlendEnabled(sel.blend)
  {
    assert Yuv2YuvDe3(Limited, enc, eng.encoding) == IdentityDe3;
  }

  /** A YVU plane that stays off the CDC always enables the blender CSC, with the swapped table. */
  lemma YvuAlwaysEnabled(enc: Encoding, range: ColorRange, eng: EngineOut)
    requires !YuvToCdc(eng)
    ensures var sel := De3Select(FormatYvu, enc, range, eng).value;
      BlendEnabled(sel.blend) &&
      Contents(sel.blend) == YvuRemapped(Contents(De3Select(FormatYuv, enc, range, eng).value.blend))
  {
  }

  /** A setup that just ran leaves a cache entry on which the identical call does nothing. */
  lemma {:induction false} RepeatIsNoOp(en: set<nat>, layer: nat, fmt: FormatType, enc: Encoding, range: ColorRange,
                                        eng: EngineOut)
    ensures CacheHit(Recorded(fmt, enc, range, eng), fmt, enc, range, eng)
    ensures De3Writes(Recorded(fmt, enc, range, eng), layer, fmt, enc, range, eng) == []
    ensures De3BlendEn(en, Recorded(fmt, enc, range, eng), layer, fmt, enc, range, eng) == en
  {
  }

  /** On a cache miss with a handled format, the blender bit of the layer ends set exactly when enabled. */
  lemma MissSetsEnable(en: set<nat>, st: CscState, layer: nat, fmt: FormatType, enc: Encoding, range: ColorRange,
                       eng: EngineOut)
    requires !CacheHit(st, fmt, enc, range, eng) && !fmt.FormatUnknown?
    ensures var sel := De3Select(fmt, enc, range, eng).value;
      (layer in De3BlendEn(en, st, layer, fmt, enc, range, eng) <==> BlendEnabled(sel.blend)) &&
      (BlendEnabled(sel.blend) <==> |De3Writes(st, layer, fmt, enc, range, eng)| == 3)
  {
  }

  // ---------------------------------------------------------------------
  // Dispatch

  /** ccsc_base[layout][layer]: the DE2 CSC unit of a layer. */
  function CcscBase(layout: CcscLayout, layer: nat): (b: CscBase)
    requires layer < 2
    ensures layer == 0 ==> b == (if layout == Mixer1Layout then Ccsc10 else Ccsc00)
  {
    match layout
    case Mixer0Layout => if layer == 0 then Ccsc00 else Ccsc01
    case Mixer1Layout => if layer == 0 then Ccsc10 else Ccsc11
    case D1Mixer0Layout => if layer == 0 then Ccsc00 else Ccsc01D1
  }

  /**
    sun8i_csc_set_ccsc: DE3 mixers go through the blender CSC; DE2 mixers
    program the channel CSC of a video layer and ignore other layers.
   */
  method SetCcsc(mixer: Mixer, layer: nat, fmtType: FormatType, encoding: Encoding, range: ColorRange)
    requires mixer.isDe3 ==> layer < mixer.cscStates.Length
    requires !mixer.isDe3 && layer < mixer.viNum ==> layer < 2 && (!fmtType.FormatRgb? ==> encoding != Bt2020)
    modifies mixer.cscStates, mixer.regs
    ensures mixer.isDe3 ==>
      mixer.cscStates[..] == old(mixer.cscStates[..])[layer := Recorded(fmtType, encoding, range, mixer.engine)] &&
      mixer.regs.log == old(mixer.regs.log) +
        De3Writes(old(mixer.cscStates[layer]), layer, fmtType, encoding, range, mixer.engine) &&
      mixer.regs.blendCscEn ==
        De3BlendEn(old(mixer.regs.blendCscEn), old(mixer.cscStates[layer]), layer, fmtType, encoding, range, mixer.engine)
    ensures !mixer.isDe3 ==>
      mixer.cscStates[..] == old(mixer.cscStates[..]) &&
      mixer.regs.blendCscEn == old(mixer.regs.blendCscEn) &&
      mixer.regs.log == old(mixer.regs.log) +
        (if layer < mixer.viNum then De2Program(CcscBase(mixer.ccsc, layer), fmtType, encoding, range) else [])
  {
    if mixer.isDe3 {
      De3CcscSetup(mixer, layer, fmtType, encoding, range);
      return;
    }
    if layer < mixer.viNum {
      var base := CcscBase(mixer.ccsc, layer);
      CscSetup(mixer.regs, base, fmtType, encoding, range);
    }
  }
}
