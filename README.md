# Cedrus VC-1 hooks and Allwinner display-engine colour programming, in Dafny

This project models three register-programming components of the Allwinner
media and display drivers in a Linux tree, and proves what they promise.

- **The Cedrus VC-1 decoder hooks** (`cedrus_vc1.c`):
  - `cedrus_vc1_setup` turns the sequence, entry-point, picture-layer and
    VOPDQUANT headers, together with the attributes recorded on the
    reference buffers, into an ordered program of 29 register writes that
    arms the engine last.
  - It records range reduction, interlacing, picture type and the
    intensity-compensation flag on the output buffer, for later frames that
    reference it.
  - It stages the bitplanes into a 16 KiB scratch buffer.
  - Around it are the interrupt classification, the status clear and
    interrupt mask, the decode trigger, and the allocation and release of
    the three scratch buffers with rollback on failure.
- **The DE2/DE3 colour-space converter (CSC) selection** (`sun8i_csc.c`):
  - the YVU chroma-column swap;
  - the DE2 channel CSC setup;
  - the DE3 blender CSC setup, with its per-layer cache of the last inputs
    and its hand-off to the colour-depth converter (CDC);
  - the dispatch between DE2 and DE3.
- **The DE3 output formatter** (`sun50i_fmt.c`): three classifiers over
  media-bus format codes, and a register program bracketed by CTRL=0 and
  CTRL=1 that picks component limits from the colour space and bit depth.

## How the model is built

- **Registers as records.** The register bit positions live in headers
  that are not part of this model. Each composite register is a record of
  its named fields (`Vc1Regs`), and each register write is a constructor
  carrying the value written.
- **The engine** (`Vc1Engine.VeDevice`) keeps the log of writes, the
  STATUS and CTRL words read back by the hooks, and whether the engine is
  enabled.
- **The display mixer** (`DisplayEngine.Mixer`) keeps a log of register
  writes and CDC calls, plus the blender CSC enable bits. Those bits are
  the only register updated by read-modify-write.
- **Pure derivations are functions.** The fraction lookup, motion-vector
  mode, distances, field bits and register records are functions in
  `Vc1Derive` and `Vc1Program`. `Vc1Program.SetupProgram` is the whole
  program that `Vc1Engine.Vc1Context.Setup` is proved to emit.
- **Imperative code stays imperative.**
  - Code that mutates state becomes methods with `modifies` clauses: the
    output-buffer attributes, the in-place `memcpy` staging, the
    read-modify-write of CTRL, the allocation rollback, the YVU remap loop
    over an array, the cache update and the formatter's `limit[3]` array.
  - Each is proved against a specification function, and the properties
    are proved about those functions.
- **Table pointers** are `Csc.Table`: none, a named static table, or the
  caller's YVU buffer. A remapped copy therefore never equals
  `identity_de3`, as in C, where the comparison is by pointer.
- **Missing references** are represented by `Option` values. The source's
  `uint32` sums (the bitstream end address and bit length) wrap explicitly
  through `Words.U32`.

## Model

| member | source | states |
|---|---|---|
| Words.U32 | drivers/staging/media/sunxi/cedrus/cedrus_vc1.c:241-244 | the unsigned 32-bit value of a sum: unchanged when it fits, congruent modulo 2^32 always |
| Vc1Derive.GetFraction | drivers/staging/media/sunxi/cedrus/cedrus_vc1.c:80-86 | the fraction lookup never exceeds 0xff |
| Vc1Derive.GetFractionValues | drivers/staging/media/sunxi/cedrus/cedrus_vc1.c:50-86 | the table has 23 entries; code k < 21 gives FRACTION of the k-th ratio, code 21 gives 0xff, and every code from 22 up gives 0 (entry 22, then out of range) |
| Vc1Derive.RatiosProper | drivers/staging/media/sunxi/cedrus/cedrus_vc1.c:52-73 | the 21 listed ratios are all proper fractions |
| Vc1Derive.FractionBelowHalf | drivers/staging/media/sunxi/cedrus/cedrus_vc1.c:50 | FRACTION(num, denom) < 128 exactly when num/denom < 1/2 |
| Vc1Derive.LessThanHalf | drivers/staging/media/sunxi/cedrus/cedrus_vc1.c:345-348 | FRACTION(1,2) is 128, and a looked-up fraction is below it exactly for ratios under one half and for codes 22 and up; 1/2 and the 0xff sentinel are not |
| Vc1Derive.EffectiveMvMode | drivers/staging/media/sunxi/cedrus/cedrus_vc1.c:350-355 | the mode is mvmode2 when a P picture signals intensity compensation, and mvmode in every other case |
| Vc1Derive.MvModeField | drivers/staging/media/sunxi/cedrus/cedrus_vc1.c:356 | the written MVMODE code is below 4, and unmapping it gives back mvmode & 3 |
| Vc1Derive.MvModeMapBijective | drivers/staging/media/sunxi/cedrus/cedrus_vc1.c:78 | vc1_mvmode_map is a permutation of 0..3, and the inverse map undoes it in both directions |
| Vc1Derive.RefDistances | drivers/staging/media/sunxi/cedrus/cedrus_vc1.c:376-387 | FRFD is the forward distance capped at 3; for a B picture BRFD is 0 when the backward distance is negative, 3 when it exceeds 3, and the backward distance otherwise; non-B pictures get BRFD 0 |
| Vc1Derive.BDistancesAddUp | drivers/staging/media/sunxi/cedrus/cedrus_vc1.c:376-387 | for a B picture with refdist >= 1 the backward distance is never negative, and whenever neither distance is capped FRFD + BRFD + 1 == refdist |
| Vc1Derive.NonBDistances | drivers/staging/media/sunxi/cedrus/cedrus_vc1.c:376-387 | a non-B picture uses min(refdist, 3) forward and 0 backward |
| Vc1Derive.BottomField | drivers/staging/media/sunxi/cedrus/cedrus_vc1.c:293-294 | BOTTOM_FIELD is set exactly for an interlaced picture decoding the second field of a top-field-first frame or the first field of a bottom-field-first frame |
| Vc1Derive.RefFieldBit | drivers/staging/media/sunxi/cedrus/cedrus_vc1.c:406-407 | REFFIELD is set exactly when second_field and ref_field agree |
| Vc1Derive.RefInterlaced | drivers/staging/media/sunxi/cedrus/cedrus_vc1.c:411-416 | a present reference contributes its recorded interlaced flag; an absent one contributes the current picture's non-progressiveness |
| Vc1Derive.IntensityCompEnabled | drivers/staging/media/sunxi/cedrus/cedrus_vc1.c:357-360 | a B picture is compensated exactly when its forward reference exists and was compensated; any other picture exactly when its INTCOMP flag is set |
| Vc1Derive.RecordedAttrs | drivers/staging/media/sunxi/cedrus/cedrus_vc1.c:361-364 | range reduction, interlacing and type are always recorded; compen becomes the enable bit for P, false for I, and is kept for B, BI and skipped |
| Vc1Derive.ClassifyStatus | drivers/staging/media/sunxi/cedrus/cedrus_vc1.c:142-149 | error exactly when ERROR or VLD_DATA_REQ is set, even together with SUCCESS; otherwise ok exactly when SUCCESS is set, and none when it is not |
| Vc1Derive.ClearStatus | drivers/staging/media/sunxi/cedrus/cedrus_vc1.c:156-157 | a write-one-to-clear store clears exactly the bits written and keeps the others |
| Vc1Derive.ClearedStatusIsQuiet | drivers/staging/media/sunxi/cedrus/cedrus_vc1.c:152-158 | after the interrupt mask is written to STATUS, the status classifies as none |
| Vc1Derive.DisableIrqs | drivers/staging/media/sunxi/cedrus/cedrus_vc1.c:163-166 | the three interrupt enables are cleared, and the cache enable and all other CTRL bits are kept |
| Vc1Derive.DisableIrqsIdempotent | drivers/staging/media/sunxi/cedrus/cedrus_vc1.c:160-167 | masking the interrupts twice equals masking them once |
| Vc1Bitplanes.PlaneOffset | drivers/staging/media/sunxi/cedrus/cedrus_vc1.c:42-48 | each plane offset is 1024-aligned, and its 1024-byte region ends inside the first 7 KiB of the 16 KiB buffer |
| Vc1Bitplanes.PlaneRegionsDisjoint | drivers/staging/media/sunxi/cedrus/cedrus_vc1.c:42-48 | the regions of two distinct planes do not overlap |
| Vc1Bitplanes.Covering | drivers/staging/media/sunxi/cedrus/cedrus_vc1.c:42-48 | a byte is covered by a plane exactly when it lies below 7 KiB, and then it lies inside that plane's region |
| Vc1Bitplanes.ComputedPlaneSize | drivers/staging/media/sunxi/cedrus/cedrus_vc1.c:102-109 | the computed size is at most 1024, and equals one bit per 16x16 macroblock rounded up to bytes when that fits |
| Vc1Bitplanes.StageOne | drivers/staging/media/sunxi/cedrus/cedrus_vc1.c:113-115 | one staging step keeps the buffer size and leaves the buffer unchanged when the plane is not flagged |
| Vc1Bitplanes.Staged | drivers/staging/media/sunxi/cedrus/cedrus_vc1.c:113-133 | staging all seven planes keeps the buffer size and changes nothing when no plane is flagged |
| Vc1Bitplanes.StagedAt | drivers/staging/media/sunxi/cedrus/cedrus_vc1.c:113-133 | after staging, each byte holds the data of the flagged plane covering it, or its old value when no flagged plane covers it |
| Vc1Bitplanes.StagedInRegion | drivers/staging/media/sunxi/cedrus/cedrus_vc1.c:113-133 | within a plane's region, each byte is that plane's data when flagged and the old byte otherwise |
| Vc1Bitplanes.StagedFlaggedRegion | drivers/staging/media/sunxi/cedrus/cedrus_vc1.c:113-133 | a flagged plane's first 1024 bytes land exactly at its offset, whatever the computed size |
| Vc1Bitplanes.StagedUnflaggedRegion | drivers/staging/media/sunxi/cedrus/cedrus_vc1.c:113-133 | an unflagged plane's region keeps its old contents |
| Vc1Bitplanes.StagedTail | drivers/staging/media/sunxi/cedrus/cedrus_vc1.c:113-133 | the bytes after the seven regions are never written |
| Vc1Bitplanes.CopyPlane | drivers/staging/media/sunxi/cedrus/cedrus_vc1.c:114-115 | the in-place memcpy replaces exactly len bytes at off with the data, and keeps the rest of the buffer |
| Vc1Program.ShiftedCode | drivers/staging/media/sunxi/cedrus/cedrus_vc1.c:292 | the FCM and CONDOVER codes keep 0 as 0 and write any other value v as v + 1 |
| Vc1Program.EphsOf | drivers/staging/media/sunxi/cedrus/cedrus_vc1.c:264-289 | start-code detection is enabled exactly for the advanced profile, and EPTB detection is bypassed exactly otherwise |
| Vc1Program.PicCtrlOf | drivers/staging/media/sunxi/cedrus/cedrus_vc1.c:291-328 | FCM is 0 exactly for progressive pictures; BOTTOM_FIELD follows the field order; the forward and backward RANGEREDFRM bits need a reference with range reduction; DIRECT_REF_INTRA is set exactly for non-P pictures |
| Vc1Program.PicMvOf | drivers/staging/media/sunxi/cedrus/cedrus_vc1.c:345-368 | BFRACTION is the looked-up fraction, with the less-than-half flag exactly below 128; MVMODE is the mapped effective mode; INTENSITY_COMP_EN is the compensation decision |
| Vc1Program.PicInterlaceOf | drivers/staging/media/sunxi/cedrus/cedrus_vc1.c:389-419 | 4MVSWITCH is set exactly for an effective mixed-MV mode; FRFD and BRFD are at most 3, with BRFD 0 for non-B pictures, and both equal the clamped reference distances of the picture's type, BFRACTION and REFDIST; REFFIELD and both INTERLACE bits are as derived |
| Vc1Program.SegmentsShape | drivers/staging/media/sunxi/cedrus/cedrus_vc1.c:227-452 | the eight write groups have 3, 5, 4, 3, 3, 2, 4 and 4 writes, and none of them writes CTRL |
| Vc1Program.SetupProgram | drivers/staging/media/sunxi/cedrus/cedrus_vc1.c:169-466 | the setup program is the body plus one final write, and that write arms CTRL with every interrupt and the cache enabled |
| Vc1Program.SetupProgramArmsLast | drivers/staging/media/sunxi/cedrus/cedrus_vc1.c:459-463 | the program is 29 writes, and CTRL is written exactly once, last, with every interrupt and the cache enabled |
| Vc1Program.SetupProgramOpening | drivers/staging/media/sunxi/cedrus/cedrus_vc1.c:227-256 | the program opens with the three scratch addresses, then the bitstream base twice (the second time marked valid, first and last), then the status clear before the software-decoder init |
| Vc1Program.SetupProgramAddresses | drivers/staging/media/sunxi/cedrus/cedrus_vc1.c:432-452 | writes 20-23 send the same destination to the reconstruction and rotation pairs; a missing reference gets address 0 |
| Vc1Program.CodedWithoutPlanes | drivers/staging/media/sunxi/cedrus/cedrus_vc1.c:326-327 | bitplane flags naming none of the seven planes still turn bitplane coding on, and the staging then leaves the buffer unchanged |
| Vc1Program.FirstProgressiveIFrame | drivers/staging/media/sunxi/cedrus/cedrus_vc1.c:357-416 | a progressive I picture without references programs no reference interlace and BRFD 0, and records a progressive, uncompensated output |
| Vc1Program.CompenAcrossFrames | drivers/staging/media/sunxi/cedrus/cedrus_vc1.c:357-364 | compensation recorded by a P picture is inherited by a B picture that references it, and is cleared by a later I picture in the same buffer |
| Vc1Engine.VeDevice.Write | drivers/staging/media/sunxi/cedrus/cedrus_vc1.c:156-157 | a register write is appended to the log; a STATUS write clears the bits it sets; a CTRL write replaces the control word |
| Vc1Engine.VeDevice.EngineEnable | drivers/staging/media/sunxi/cedrus/cedrus_vc1.c:225 | the engine is enabled and no register changes |
| Vc1Engine.DmaPool.Alloc | drivers/staging/media/sunxi/cedrus/cedrus_vc1.c:473-478 | an allocation fails, changing nothing, exactly when the size exceeds what is free; otherwise it returns a fresh live buffer of that size |
| Vc1Engine.DmaPool.Free | drivers/staging/media/sunxi/cedrus/cedrus_vc1.c:517-519 | freeing removes the buffer from the live set and returns its bytes |
| Vc1Engine.BodyFromPhases | drivers/staging/media/sunxi/cedrus/cedrus_vc1.c:227-452 | a log grown by the eight write groups in turn has grown by the whole program body |
| Vc1Engine.Vc1Context.Start | drivers/staging/media/sunxi/cedrus/cedrus_vc1.c:468-511 | returns 0 or -ENOMEM; 0 exactly when all three buffers fit, and then it owns three distinct fresh buffers; on -ENOMEM it has freed everything it allocated |
| Vc1Engine.Vc1Context.Stop | drivers/staging/media/sunxi/cedrus/cedrus_vc1.c:513-526 | all three scratch buffers are freed and their bytes returned |
| Vc1Engine.Vc1Context.IrqStatus | drivers/staging/media/sunxi/cedrus/cedrus_vc1.c:136-150 | the hook returns the classification of the current STATUS word |
| Vc1Engine.Vc1Context.IrqClear | drivers/staging/media/sunxi/cedrus/cedrus_vc1.c:152-158 | one STATUS write of the interrupt mask, clearing those bits; CTRL is kept |
| Vc1Engine.Vc1Context.IrqDisable | drivers/staging/media/sunxi/cedrus/cedrus_vc1.c:160-167 | CTRL is read and written back once with only the interrupt enables cleared |
| Vc1Engine.Vc1Context.Trigger | drivers/staging/media/sunxi/cedrus/cedrus_vc1.c:537-538 | the only write is the decode trigger |
| Vc1Engine.Vc1Context.BitplanesSetup | drivers/staging/media/sunxi/cedrus/cedrus_vc1.c:88-134 | the scratch buffer ends as the staged buffer of the bitplane control |
| Vc1Engine.Vc1Context.CopyIfFlagged | drivers/staging/media/sunxi/cedrus/cedrus_vc1.c:113-115 | one conditional copy has the effect of one staging step |
| Vc1Engine.Vc1Context.WriteAux | drivers/staging/media/sunxi/cedrus/cedrus_vc1.c:227-234 | the three scratch addresses are written |
| Vc1Engine.Vc1Context.WriteBitstream | drivers/staging/media/sunxi/cedrus/cedrus_vc1.c:236-250 | the five bitstream-source writes, in order |
| Vc1Engine.Vc1Context.WriteDecoderInit | drivers/staging/media/sunxi/cedrus/cedrus_vc1.c:252-262 | the status clear, software-decoder init, rotation off and header length 0, with STATUS cleared |
| Vc1Engine.Vc1Context.WriteCodingHeaders | drivers/staging/media/sunxi/cedrus/cedrus_vc1.c:264-343 | the EPHS, PICCTRL and PICQP records of the frame |
| Vc1Engine.Vc1Context.RecordCompen | drivers/staging/media/sunxi/cedrus/cedrus_vc1.c:361-364 | the output buffer's compen becomes the enable bit for P, false for I, and is unchanged otherwise |
| Vc1Engine.Vc1Context.WriteMotionHeaders | drivers/staging/media/sunxi/cedrus/cedrus_vc1.c:345-419 | the PICMV, PICINTENCOMP and PICINTERLACE records of the frame |
| Vc1Engine.Vc1Context.WriteSizes | drivers/staging/media/sunxi/cedrus/cedrus_vc1.c:421-430 | both size registers get the source (bitstream-side) format's size |
| Vc1Engine.Vc1Context.WriteDestination | drivers/staging/media/sunxi/cedrus/cedrus_vc1.c:432-440 | the reconstruction and rotation pairs get the destination addresses |
| Vc1Engine.Vc1Context.WriteReferences | drivers/staging/media/sunxi/cedrus/cedrus_vc1.c:442-452 | the reference addresses are written, 0 for a missing reference |
| Vc1Engine.Vc1Context.WriteProgramBody | drivers/staging/media/sunxi/cedrus/cedrus_vc1.c:227-452 | the log grows by the program body, STATUS is cleared, CTRL is kept, and compen is recorded as above |
| Vc1Engine.Vc1Context.Setup | drivers/staging/media/sunxi/cedrus/cedrus_vc1.c:169-466 | returns 0; the log grows by exactly the setup program; CTRL ends armed and the engine on; STATUS is cleared; the output buffer holds the recorded attributes; the bitplane buffer is staged exactly when bitplane coding is on |
| DisplayEngine.Regmap.Write | drivers/gpu/drm/sun4i/sun8i_csc.c:294-297 | one register write or CDC call is appended to the log, and the enable bits are kept |
| DisplayEngine.Regmap.UpdateBlendCscEnable | drivers/gpu/drm/sun4i/sun8i_csc.c:394-396 | the read-modify-write sets or clears only this layer's bit |
| MediaBus.IsRgb | drivers/gpu/drm/sun4i/sun8i_csc.c:300-309 | true exactly for RGB888_1X24 and RGB101010_1X30 |
| CscTables.Coeffs | drivers/gpu/drm/sun4i/sun8i_csc.c:26-214 | every declared table holds 12 words |
| CscTables.Yuv2YuvDe3 | drivers/gpu/drm/sun4i/sun8i_csc.c:216-252 | the lookup always converts to limited range; it is the identity exactly for limited input already in the output encoding |
| CscTables.Yuv2YuvDe3Covers | drivers/gpu/drm/sun4i/sun8i_csc.c:217-252 | every DE3 YUV-to-YUV table is reached by some range and encoding pair |
| Csc.YvuRemappedAt | drivers/gpu/drm/sun4i/sun8i_csc.c:258-264 | in each row of four, entries 1 and 2 trade places and entries 0 and 3 are copied |
| Csc.YvuRemapPermutes | drivers/gpu/drm/sun4i/sun8i_csc.c:254-267 | the remapped table holds the same twelve words as the input, only reordered |
| Csc.YvuRemapInvolution | drivers/gpu/drm/sun4i/sun8i_csc.c:254-267 | remapping twice gives the original table |
| Csc.YvuRemap | drivers/gpu/drm/sun4i/sun8i_csc.c:254-267 | the loop fills the output array with the remapped table and returns that same array |
| Csc.De2Program | drivers/gpu/drm/sun4i/sun8i_csc.c:269-298 | RGB gives CTRL off and no coefficients; YUV and YVU give CTRL on, then the 12 coefficients of yuv2rgb[range][encoding] for this unit, with the chroma columns swapped for YVU; any other type gives no write |
| Csc.De2YvuIsRemappedYuv | drivers/gpu/drm/sun4i/sun8i_csc.c:283-287 | the YVU coefficients are the YUV coefficients with the chroma columns swapped |
| Csc.CscSetup | drivers/gpu/drm/sun4i/sun8i_csc.c:269-298 | the log grows by exactly the DE2 program, and the blender bits are kept |
| Csc.YuvTable | drivers/gpu/drm/sun4i/sun8i_csc.c:375-379 | the chosen table is valid and not null, and is the YVU buffer exactly for YVU planes |
| Csc.De3Select | drivers/gpu/drm/sun4i/sun8i_csc.c:347-391 | there is no selection exactly for unhandled format types, and any selected blender table is valid |
| Csc.EnableWrites | drivers/gpu/drm/sun4i/sun8i_csc.c:393-398 | the enable update carries "non-null and not identity_de3", and the 12 coefficients follow exactly when enabled |
| Csc.Recorded | drivers/gpu/drm/sun4i/sun8i_csc.c:333-339 | the cache entry holds the seven inputs as received |
| Csc.De3BlendEn | drivers/gpu/drm/sun4i/sun8i_csc.c:393-396 | the bits of layers other than this one never change |
| Csc.SelectYuvTable | drivers/gpu/drm/sun4i/sun8i_csc.c:375-379 | the method picks the YUV table of the specification function, remapping it for YVU |
| Csc.De3CcscSetup | drivers/gpu/drm/sun4i/sun8i_csc.c:311-399 | the layer's cache entry becomes the inputs and the others are unchanged; the writes and enable bits are those of the DE3 decision, none on a cache hit |
| Csc.ProgramBlendCsc | drivers/gpu/drm/sun4i/sun8i_csc.c:341-398 | after a miss the log grows by the CDC call, the enable update and the coefficients of the selection, and only this layer's bit changes |
| Csc.ProgramEnable | drivers/gpu/drm/sun4i/sun8i_csc.c:393-398 | the enable update and, when enabled, the coefficient write |
| Csc.RgbDe3Branch | drivers/gpu/drm/sun4i/sun8i_csc.c:348-361 | for RGB planes, the CDC call and the blender table of the selection |
| Csc.YuvDe3Branch | drivers/gpu/drm/sun4i/sun8i_csc.c:362-387 | for YUV and YVU planes, the CDC call and the blender table of the selection |
| Csc.CdcDisablesBlend | drivers/gpu/drm/sun4i/sun8i_csc.c:351-386 | the CDC is set up exactly for RGB with supported non-SDR output and for YUV with unsupported non-SDR output, and then the blender CSC is disabled |
| Csc.SameEncodingStaysDisabled | drivers/gpu/drm/sun4i/sun8i_csc.c:217-233 | limited-range YUV input in the output encoding to a YUV output selects identity_de3, so the blender CSC stays off |
| Csc.YvuAlwaysEnabled | drivers/gpu/drm/sun4i/sun8i_csc.c:375-379 | a YVU plane off the CDC always enables the blender CSC, with the YUV table's chroma columns swapped |
| Csc.RepeatIsNoOp | drivers/gpu/drm/sun4i/sun8i_csc.c:323-339 | the entry a setup stores makes the identical next call a cache hit with no write and no bit change |
| Csc.MissSetsEnable | drivers/gpu/drm/sun4i/sun8i_csc.c:393-398 | after a miss, the layer's bit is set exactly when enabled, and exactly then three events are issued |
| Csc.CcscBase | drivers/gpu/drm/sun4i/sun8i_csc.c:14-18 | layer 0 uses CCSC10 on mixer 1 and CCSC00 on the other layouts |
| Csc.SetCcsc | drivers/gpu/drm/sun4i/sun8i_csc.c:401-419 | DE3 runs the DE3 setup; DE2 programs the channel CSC of ccsc_base[ccsc][layer] for video layers only, and other layers cause no write |
| Fmt.Is10Bit | drivers/gpu/drm/sun4i/sun50i_fmt.c:21-32 | true exactly for RGB101010_1X30, YUV10_1X30, UYYVYY10_0_5X30 and UYVY10_1X20 |
| Fmt.Colorspace | drivers/gpu/drm/sun4i/sun50i_fmt.c:34-46 | 4:2:0 exactly for UYYVYY8/10, 4:2:2 exactly for UYVY8/10, and 4:4:4/RGB for everything else |
| Fmt.Limits | drivers/gpu/drm/sun4i/sun50i_fmt.c:66-78 | three limits; the luma low limit is 64 exactly for subsampled output; both chroma limits are equal; every limit has low below high and high within 1023 |
| Fmt.FmtSetup | drivers/gpu/drm/sun4i/sun50i_fmt.c:48-85 | the log grows by exactly the formatter program for the mixer's output format |
| Fmt.FmtProgram | drivers/gpu/drm/sun4i/sun50i_fmt.c:56-84 | ten writes, opening with CTRL 0 and closing with CTRL 1 |
| Fmt.WriteHeader | drivers/gpu/drm/sun4i/sun50i_fmt.c:56-64 | the disable, size, swap, depth, colour-space and coefficient writes |
| Fmt.WriteLimits | drivers/gpu/drm/sun4i/sun50i_fmt.c:80-82 | the three limit writes from the limit array |
| Fmt.FmtProgramBracketed | drivers/gpu/drm/sun4i/sun50i_fmt.c:56-84 | ten writes; CTRL is written 0 first and 1 last, and nowhere in between |
| Fmt.FmtProgramFields | drivers/gpu/drm/sun4i/sun50i_fmt.c:58-64 | SWAP is !is_rgb, DEPTH is the 10-bit flag, FORMAT is the colour space, and COEF is 0 |
| Fmt.FmtProgramLimits | drivers/gpu/drm/sun4i/sun50i_fmt.c:66-82 | subsampled: (64,940),(64,960),(64,960); 4:4:4 10-bit: (0,1023) three times; otherwise (0,1021) three times |
| Fmt.RgbIsFullRange | drivers/gpu/drm/sun4i/sun50i_fmt.c:60-78 | RGB output is 4:4:4, unswapped, with a luma limit starting at 0 |
| Fmt.SubsampledIsLimited | drivers/gpu/drm/sun4i/sun50i_fmt.c:60-69 | subsampled output is never RGB, so it is swapped |

`sun50i_fmt_is_rgb` (sun50i_fmt.c:10-19) is the same switch as `is_rgb`,
so both are `MediaBus.IsRgb`.

## Left out

- The register bit positions and the media-bus code values come from
  `cedrus_regs.h`, `sun8i_csc.h`, `sun8i_mixer.h`, `sun50i_fmt.h` and the
  media-bus format header, which are not part of this model.
  - Registers are records of named fields, not packed words.
  - Likewise `FmtSize` and `FmtLimit`.
  - The STATUS interrupt mask is taken to be the three status bits, and
    the CTRL interrupt mask to be the three interrupt enables.
- The videobuf2 and DMA helpers are inputs of `Vc1Program.Frame`: buffer
  lookup by timestamp, source address and payload, destination address and
  the source (bitstream-side) format's size.
  - The engine enable is recorded as a flag.
  - Allocation failure is a capacity rule of `DmaPool`, standing in for
    "may fail".
- References are snapshots of the buffers' attributes and addresses. The
  model does not capture the output buffer being the same object as one
  of its references.
- The debug register dump in `cedrus_vc1_trigger`, interrupt delivery, the
  watchdog, job scheduling and concurrency are not modelled.
- The commented-out alternatives in `cedrus_vc1.c` are not modelled. The
  FIXME'd DIRECT_REF_INTRA condition is modelled as written: a picture that
  is not P.
- The computed bitplane size is discarded by the source, which copies 1024
  bytes regardless. The model computes it and discards it too, and the
  size warning is not modelled.
- The numeric meaning of the CSC coefficient tables is not modelled. They
  are opaque 12-word constants, compared by which table they are.
- The CDC implementation (`sun50i_cdc.h`) is not modelled. Its setup and
  disable calls are recorded with their arguments. `ac200.c` is not part
  of this model.
- `DRM_WARN` for unknown format types is not modelled; only its "no write"
  effect is.
- Csc.YvuRemap: the loop tests `i % 4` where the source tests `i & 3`.
  These agree for the non-negative indices used.
- Csc.CscSetup: requires an encoding other than BT.2020 for YUV and YVU
  planes. `yuv2rgb` has no BT.2020 entry, so the C code would read out of
  bounds; callers must not pass it.
- Vc1Derive.GetFractionValues: `vc1_fractions` has 23 entries (21 ratios,
  then 0xff, then 0); the model follows the code.
