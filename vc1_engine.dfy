/**
  The Cedrus VC-1 decoder hooks as they run against the video engine: the
  engine's register file, the session's three DMA scratch buffers, the
  per-buffer attributes recorded on capture buffers, and the seven
  operations of the VC-1 decoder ops table.
 */
module Vc1Engine {
  import opened Wrappers
  import opened Words
  import opened Vc1Regs
  import opened Vc1Derive
  import opened Vc1Bitplanes
  import opened Vc1Program

  const MvBufSize: nat := 64 * 1024
  const AcdcBufSize: nat := 16 * 1024

  /** The error code returned when a scratch buffer cannot be allocated. */
  const ENOMEM: int := 12

  /**
    The video engine as the VC-1 hooks see it: every register write in
    order, the status and control words, and whether the engine is on.
   */
  class VeDevice {
    var log: seq<RegWrite>
    var status: StatusWord
    var ctrl: CtrlWord
    var engineOn: bool

    constructor (status0: StatusWord, ctrl0: CtrlWord)
      ensures log == [] && status == status0 && ctrl == ctrl0 && !engineOn
    {
      log := [];
      status := status0;
      ctrl := ctrl0;
      engineOn := false;
    }

    /**
      cedrus_write of one register.  A STATUS write clears the bits it
      sets; a CTRL write replaces the control word.
     */
    method Write(w: RegWrite)
      modifies this
      ensures log == old(log) + [w]
      ensures w.StatusWrite? ==> status == ClearStatus(old(status), w.clear)
      ensures !w.StatusWrite? ==> status == old(status)
      ensures w.CtrlWrite? ==> ctrl == w.ctrl
      ensures !w.CtrlWrite? ==> ctrl == old(ctrl)
      ensures engineOn == old(engineOn)
    {
      log := log + [w];
      if w.StatusWrite? {
        status := ClearStatus(status, w.clear);
      } else if w.CtrlWrite? {
        ctrl := w.ctrl;
      }
    }

    /** cedrus_engine_enable: routes the engine to the VC-1 decoder. */
    method EngineEnable()
      modifies this
      ensures engineOn
      ensures log == old(log) && status == old(status) && ctrl == old(ctrl)
    {
      engineOn := true;
    }
  }

  /** The VC-1 attributes a capture buffer carries from one decode to the next. */
  class CedrusBuffer {
    var vc1: Vc1Attrs

    constructor (attrs: Vc1Attrs)
      ensures vc1 == attrs
    {
      vc1 := attrs;
    }
  }

  /** A coherent DMA allocation: its bus address, size and bytes. */
  class DmaBuffer {
    const addr: u32
    const size: nat
    const mem: array<bv8>

    constructor (addr: u32, size: nat)
      ensures this.addr == addr && this.size == size && mem.Length == size
      ensures fresh(mem)
    {
      this.addr := addr;
      this.size := size;
      mem := new bv8[size];
    }
  }

  /**
    dma_alloc_coherent and dma_free_coherent over a pool of `avail` bytes;
    `live` holds the allocations not yet freed.
   */
  class DmaPool {
    var live: set<DmaBuffer>
    var avail: nat

    constructor (capacity: nat)
      ensures live == {} && avail == capacity
    {
      live := {};
      avail := capacity;
    }

    /** Allocate `size` bytes at bus address `addr`; null when fewer than `size` bytes are left. */
    method Alloc(size: nat, addr: u32) returns (b: DmaBuffer?)
      modifies this
      ensures size > old(avail) ==> b == null && live == old(live) && avail == old(avail)
      ensures size <= old(avail) ==> b != null && fresh(b) && fresh(b.mem)
      ensures size <= old(avail) ==> b.size == size && b.addr == addr && b.mem.Length == size
      ensures size <= old(avail) ==> live == old(live) + {b} && avail == old(avail) - size
    {
      if size > avail {
        return null;
      }
      b := new DmaBuffer(addr, size);
      live := live + {b};
      avail := avail - size;
    }

    method Free(b: DmaBuffer)
      requires b in live
      modifies this
      ensures live == old(live) - {b} && avail == old(avail) + b.size
    {
      live := live - {b};
      avail := avail + b.size;
    }
  }

  lemma AppendAssoc(l: seq<RegWrite>, x: seq<RegWrite>, r: seq<RegWrite>)
    ensures l + (x + r) == (l + x) + r
  {
  }

  /**
    Logs that grew by the segments of the program body, one after the
    other, grew by the whole body.
   */
  lemma {:induction false} BodyFromPhases(a: ScratchAddrs, f: Frame,
    log0: seq<RegWrite>, log1: seq<RegWrite>, log2: seq<RegWrite>, log3: seq<RegWrite>, log4: seq<RegWrite>,
    log5: seq<RegWrite>, log6: seq<RegWrite>, log7: seq<RegWrite>, log8: seq<RegWrite>)
    requires log1 == log0 + AuxWrites(a)
    requires log2 == log1 + BitstreamWrites(f)
    requires log3 == log2 + DecoderInitWrites()
    requires log4 == log3 + CodingHeaderWrites(f)
    requires log5 == log4 + MotionHeaderWrites(f)
    requires log6 == log5 + SizeWrites(f)
    requires log7 == log6 + DestinationWrites(f)
    requires log8 == log7 + ReferenceWrites(f)
    ensures log8 == log0 + ProgramBody(a, f)
  {
    var r6 := DestinationWrites(f) + ReferenceWrites(f);
    var r5 := SizeWrites(f) + r6;
    var r4 := MotionHeaderWrites(f) + r5;
    var r3 := CodingHeaderWrites(f) + r4;
    var r2 := DecoderInitWrites() + r3;
    var r1 := BitstreamWrites(f) + r2;
    AppendAssoc(log0, AuxWrites(a), r1);
    AppendAssoc(log1, BitstreamWrites(f), r2);
    AppendAssoc(log2, DecoderInitWrites(), r3);
    AppendAssoc(log3, CodingHeaderWrites(f), r4);
    AppendAssoc(log4, MotionHeaderWrites(f), r5);
    AppendAssoc(log5, SizeWrites(f), r6);
    AppendAssoc(log6, DestinationWrites(f), ReferenceWrites(f));
  }

  /** The VC-1 part of a decoding context: the engine and the scratch buffers. */
  class Vc1Context {
    const dev: VeDevice
    var mvBuf: DmaBuffer?
    var acdcBuf: DmaBuffer?
    var bitplanesBuf: DmaBuffer?

    constructor (dev: VeDevice)
      ensures this.dev == dev && mvBuf == null && acdcBuf == null && bitplanesBuf == null
    {
      this.dev := dev;
      mvBuf := null;
      acdcBuf := null;
      bitplanesBuf := null;
    }

    /** The three scratch buffers exist with their sizes. */
    predicate Allocated()
      reads this
    {
      && mvBuf != null && acdcBuf != null && bitplanesBuf != null
      && mvBuf.size == mvBuf.mem.Length == MvBufSize
      && acdcBuf.size == acdcBuf.mem.Length == AcdcBufSize
      && bitplanesBuf.size == bitplanesBuf.mem.Length == BitplanesBufSize
    }

    /** The three scratch buffers are distinct live allocations of `pool`. */
    predicate Owns(pool: DmaPool)
      reads this, pool
    {
      && Allocated()
      && mvBuf in pool.live && acdcBuf in pool.live && bitplanesBuf in pool.live
      && mvBuf != acdcBuf && acdcBuf != bitplanesBuf && mvBuf != bitplanesBuf
    }

    function Addrs(): ScratchAddrs
      reads this
      requires Allocated()
    {
      ScratchAddrs(mvBuf.addr, acdcBuf.addr, bitplanesBuf.addr)
    }

    /**
      cedrus_vc1_start: allocate the motion-vector, AC/DC-prediction and
      bitplane buffers in that order; on a failure, free what was allocated
      and return -ENOMEM.
     */
    method Start(pool: DmaPool, mvAddr: u32, acdcAddr: u32, bitplanesAddr: u32) returns (ret: int)
      modifies this, pool
      ensures ret == 0 || ret == -ENOMEM
      ensures ret == 0 <==> MvBufSize + AcdcBufSize + BitplanesBufSize <= old(pool.avail)
      ensures ret == 0 ==> Owns(pool) && Addrs() == ScratchAddrs(mvAddr, acdcAddr, bitplanesAddr)
      ensures ret == 0 ==> pool.live == old(pool.live) + {mvBuf, acdcBuf, bitplanesBuf}
      ensures ret == 0 ==> pool.avail == old(pool.avail) - (MvBufSize + AcdcBufSize + BitplanesBufSize)
      ensures ret == 0 ==> fresh(mvBuf) && fresh(acdcBuf) && fresh(bitplanesBuf)
      ensures ret == 0 ==> fresh(mvBuf.mem) && fresh(acdcBuf.mem) && fresh(bitplanesBuf.mem)
      ensures ret != 0 ==> pool.live == old(pool.live) && pool.avail == old(pool.avail)
    {
      mvBuf := pool.Alloc(MvBufSize, mvAddr);
      if mvBuf == null {
        return -ENOMEM;
      }
      acdcBuf := pool.Alloc(AcdcBufSize, acdcAddr);
      if acdcBuf == null {
        pool.Free(mvBuf);
        return -ENOMEM;
      }
      bitplanesBuf := pool.Alloc(BitplanesBufSize, bitplanesAddr);
      if bitplanesBuf == null {
        pool.Free(acdcBuf);
        pool.Free(mvBuf);
        return -ENOMEM;
      }
      return 0;
    }

    /** cedrus_vc1_stop: free the three scratch buffers. */
    method Stop(pool: DmaPool)
      requires Owns(pool)
      modifies pool
      ensures pool.live == old(pool.live) - {mvBuf, acdcBuf, bitplanesBuf}
      ensures pool.avail == old(pool.avail) + MvBufSize + AcdcBufSize + BitplanesBufSize
      ensures !Owns(pool)
    {
      pool.Free(mvBuf);
      pool.Free(acdcBuf);
      pool.Free(bitplanesBuf);
    }

    /** cedrus_vc1_irq_status: error or data request wins over success. */
    method IrqStatus() returns (r: IrqStatus)
      ensures r == ClassifyStatus(dev.status)
    {
      var reg := dev.status;
      if reg.error || reg.vldDataReq {
        return IrqError;
      }
      if reg.success {
        return IrqOk;
      }
      return IrqNone;
    }

    /** cedrus_vc1_irq_clear: write the interrupt mask to STATUS. */
    method IrqClear()
      modifies dev
      ensures dev.log == old(dev.log) + [StatusWrite(StatusIntMask)]
      ensures dev.status == ClearStatus(old(dev.status), StatusIntMask)
      ensures dev.ctrl == old(dev.ctrl) && dev.engineOn == old(dev.engineOn)
    {
      dev.Write(StatusWrite(StatusIntMask));
    }

    /** cedrus_vc1_irq_disable: read CTRL and write it back without the interrupt enables. */
    method IrqDisable()
      modifies dev
      ensures dev.log == old(dev.log) + [CtrlWrite(DisableIrqs(old(dev.ctrl)))]
      ensures dev.ctrl == DisableIrqs(old(dev.ctrl))
      ensures dev.status == old(dev.status) && dev.engineOn == old(dev.engineOn)
    {
      var reg := dev.ctrl;
      dev.Write(CtrlWrite(DisableIrqs(reg)));
    }

    /** cedrus_vc1_trigger: start the decode (the register dump before it is not modelled). */
    method Trigger()
      modifies dev
      ensures dev.log == old(dev.log) + [TriggerType(Decode)]
      ensures dev.status == old(dev.status) && dev.ctrl == old(dev.ctrl) && dev.engineOn == old(dev.engineOn)
    {
      dev.Write(TriggerType(Decode));
    }

    /**
      cedrus_vc1_bitplanes_setup: compute (and then discard) the plane size
      for the coded picture, and copy 1024 bytes of every flagged plane to
      its offset, in the source's order.
     */
    method BitplanesSetup(f: Frame)
      requires Allocated() && f.bitplanes.Some? && WellSized(f.bitplanes.value)
      modifies bitplanesBuf.mem
      ensures bitplanesBuf.mem[..] == Staged(old(bitplanesBuf.mem[..]), f.bitplanes.value)
    {
      var bp := f.bitplanes.value;
      var mem := bitplanesBuf.mem;
      var planeSize := ComputedPlaneSize(f.slice.entrypoint.codedWidth, f.slice.entrypoint.codedHeight);
      planeSize := PlaneCopySize;
      ghost var b0 := mem[..];
      CopyIfFlagged(mem, bp, MvTypeMb, planeSize);
      CopyIfFlagged(mem, bp, DirectMb, planeSize);
      CopyIfFlagged(mem, bp, SkipMb, planeSize);
      CopyIfFlagged(mem, bp, FieldTx, planeSize);
      CopyIfFlagged(mem, bp, ForwardMb, planeSize);
      CopyIfFlagged(mem, bp, AcPred, planeSize);
      ghost var b6 := mem[..];
      CopyIfFlagged(mem, bp, OverFlags, planeSize);
      assert b6 == StageOne(StageOne(StageOne(StageOne(StageOne(StageOne(b0, bp, MvTypeMb), bp, DirectMb), bp, SkipMb), bp, FieldTx), bp, ForwardMb), bp, AcPred);
    }

    /** One `if (flags & plane) memcpy(...)` of the bitplane setup. */
    static method CopyIfFlagged(mem: array<bv8>, bp: Bitplanes, p: Plane, planeSize: nat)
      requires mem.Length == BitplanesBufSize && WellSized(bp) && planeSize == PlaneCopySize
      modifies mem
      ensures mem[..] == StageOne(old(mem[..]), bp, p)
    {
      if p in bp.flags {
        CopyPlane(mem, PlaneOffset(p), PlaneData(bp, p), planeSize);
      }
    }

    /** "Set auxiliary buffers". */
    method WriteAux()
      requires Allocated()
      modifies dev
      ensures dev.log == old(dev.log) + AuxWrites(Addrs())
      ensures dev.status == old(dev.status) && dev.ctrl == old(dev.ctrl) && dev.engineOn == old(dev.engineOn)
    {
      dev.Write(DcacPredAddr(acdcBuf.addr));
      dev.Write(BitplaneAddr(bitplanesBuf.addr));
      dev.Write(MvInfoAddr(mvBuf.addr));
    }

    /** "Set bitstream source". */
    method WriteBitstream(f: Frame)
      modifies dev
      ensures dev.log == old(dev.log) + BitstreamWrites(f)
      ensures dev.status == old(dev.status) && dev.ctrl == old(dev.ctrl) && dev.engineOn == old(dev.engineOn)
    {
      var payload := f.srcPayload;
      dev.Write(BitsAddr(f.srcAddr, false, false, false));
      dev.Write(BitsEndAddr(U32(f.srcAddr + payload)));
      dev.Write(BitsOffset(f.slice.dataBitOffset));
      dev.Write(BitsLen(U32(payload * 8)));
      dev.Write(BitsAddr(f.srcAddr, true, true, true));
    }

    /** Clear the status, initialise the software decoder, no rotation, no picture header. */
    method WriteDecoderInit()
      modifies dev
      ensures dev.log == old(dev.log) + DecoderInitWrites()
      ensures dev.status == ClearStatus(old(dev.status), StatusIntMask)
      ensures dev.ctrl == old(dev.ctrl) && dev.engineOn == old(dev.engineOn)
    {
      dev.Write(StatusWrite(StatusIntMask));
      dev.Write(TriggerType(InitSwDec));
      dev.Write(RotCtrl(0));
      dev.Write(PicHdrLen(0));
    }

    /** EPHS, PICCTRL and PICQP. */
    method WriteCodingHeaders(f: Frame)
      modifies dev
      ensures dev.log == old(dev.log) + CodingHeaderWrites(f)
      ensures dev.status == old(dev.status) && dev.ctrl == old(dev.ctrl) && dev.engineOn == old(dev.engineOn)
    {
      dev.Write(EphsWrite(EphsOf(f.slice)));
      dev.Write(PicCtrlWrite(PicCtrlOf(f)));
      dev.Write(PicQpWrite(PicQpOf(f.slice)));
    }

    /**
      The compensation bit recorded on the output buffer: a P picture
      records PICMV's INTENSITY_COMP_EN bit, an I picture clears it, other
      pictures leave it as it was.
     */
    static method RecordCompen(f: Frame, out: CedrusBuffer)
      modifies out
      ensures out.vc1 == if f.slice.picture.ptype == PictureP then old(out.vc1).(compen := CompenEnabled(f))
                         else if f.slice.picture.ptype == PictureI then old(out.vc1).(compen := false)
                         else old(out.vc1)
    {
      if f.slice.picture.ptype == PictureP {
        out.vc1 := out.vc1.(compen := CompenEnabled(f));
      } else if f.slice.picture.ptype == PictureI {
        out.vc1 := out.vc1.(compen := false);
      }
    }

    /** PICMV, PICINTENCOMP and PICINTERLACE. */
    method WriteMotionHeaders(f: Frame)
      modifies dev
      ensures dev.log == old(dev.log) + MotionHeaderWrites(f)
      ensures dev.status == old(dev.status) && dev.ctrl == old(dev.ctrl) && dev.engineOn == old(dev.engineOn)
    {
      dev.Write(PicMvWrite(PicMvOf(f)));
      dev.Write(PicIntenCompWrite(PicIntenCompOf(f.slice.picture)));
      dev.Write(PicInterlaceWrite(PicInterlaceOf(f)));
    }

    /** "Set frame dimensions". */
    method WriteSizes(f: Frame)
      modifies dev
      ensures dev.log == old(dev.log) + SizeWrites(f)
      ensures dev.status == old(dev.status) && dev.ctrl == old(dev.ctrl) && dev.engineOn == old(dev.engineOn)
    {
      dev.Write(FSize(f.width, f.height));
      dev.Write(PicSize(f.width, f.height));
    }

    /** "Destination luma and chroma buffers". */
    method WriteDestination(f: Frame)
      modifies dev
      ensures dev.log == old(dev.log) + DestinationWrites(f)
      ensures dev.status == old(dev.status) && dev.ctrl == old(dev.ctrl) && dev.engineOn == old(dev.engineOn)
    {
      dev.Write(RecLuma(f.dstLuma));
      dev.Write(RecChroma(f.dstChroma));
      dev.Write(RotLumaAddr(f.dstLuma));
      dev.Write(RotChromaAddr(f.dstChroma));
    }

    /** "Forward and backward prediction reference buffers": 0 for a reference not found. */
    method WriteReferences(f: Frame)
      modifies dev
      ensures dev.log == old(dev.log) + ReferenceWrites(f)
      ensures dev.status == old(dev.status) && dev.ctrl == old(dev.ctrl) && dev.engineOn == old(dev.engineOn)
    {
      dev.Write(FwdRefLumaAddr(RefLuma(f.fwd)));
      dev.Write(FwdRefChromaAddr(RefChroma(f.fwd)));
      dev.Write(BwdRefLumaAddr(RefLuma(f.bwd)));
      dev.Write(BwdRefChromaAddr(RefChroma(f.bwd)));
    }

    /**
      The register writes of the setup up to the reference addresses, with
      the compensation bit recorded on the output buffer between the coding
      and the motion headers.
     */
    method WriteProgramBody(f: Frame, out: CedrusBuffer)
      requires Allocated()
      modifies dev, out
      ensures dev.log == old(dev.log) + ProgramBody(Addrs(), f)
      ensures dev.status == ClearStatus(old(dev.status), StatusIntMask)
      ensures dev.ctrl == old(dev.ctrl) && dev.engineOn == old(dev.engineOn)
      ensures out.vc1 == if f.slice.picture.ptype == PictureP then old(out.vc1).(compen := CompenEnabled(f))
                         else if f.slice.picture.ptype == PictureI then old(out.vc1).(compen := false)
                         else old(out.vc1)
    {
      ghost var log0 := dev.log;
      WriteAux();
      ghost var log1 := dev.log;
      WriteBitstream(f);
      ghost var log2 := dev.log;
      WriteDecoderInit();
      ghost var log3 := dev.log;
      WriteCodingHeaders(f);
      ghost var log4 := dev.log;
      RecordCompen(f, out);
      WriteMotionHeaders(f);
      ghost var log5 := dev.log;
      WriteSizes(f);
      ghost var log6 := dev.log;
      WriteDestination(f);
      ghost var log7 := dev.log;
      WriteReferences(f);
      BodyFromPhases(Addrs(), f, log0, log1, log2, log3, log4, log5, log6, log7, dev.log);
    }

    /**
      cedrus_vc1_setup: record the picture's attributes on the output
      buffer, enable the engine, write the register program, stage the
      bitplanes when bitplane coding is on, and arm CTRL last.
     */
    method Setup(f: Frame, out: CedrusBuffer) returns (ret: int)
      requires Allocated()
      requires f.bitplanes.Some? ==> WellSized(f.bitplanes.value)
      modifies dev, out, bitplanesBuf.mem
      ensures ret == 0
      ensures dev.log == old(dev.log) + SetupProgram(Addrs(), f)
      ensures dev.ctrl == ArmedCtrl && dev.engineOn
      ensures dev.status == ClearStatus(old(dev.status), StatusIntMask)
      ensures out.vc1 == OutputAttrs(old(out.vc1), f)
      ensures bitplanesBuf.mem[..] ==
        if BitplanesCoded(f) then Staged(old(bitplanesBuf.mem[..]), f.bitplanes.value) else old(bitplanesBuf.mem[..])
    {
      var pic := f.slice.picture;
      out.vc1 := out.vc1.(rangeredfrm := pic.rangeredfrm, interlaced := pic.fcm != FcmProgressive, ptype := pic.ptype);
      dev.EngineEnable();
      WriteProgramBody(f, out);
      if BitplanesCoded(f) {
        BitplanesSetup(f);
      }
      dev.Write(CtrlWrite(ArmedCtrl));
      AppendAssoc(old(dev.log), ProgramBody(Addrs(), f), [CtrlWrite(ArmedCtrl)]);
      return 0;
    }
  }
}
