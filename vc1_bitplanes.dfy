/**
  Staging of the VC-1 bitplanes into the session's 16 KiB bitplane
  scratch buffer: every plane whose flag is set is copied, 1024 bytes, to
  its own fixed offset; planes whose flag is clear leave their region as
  it was.
 */
module Vc1Bitplanes {
  import opened Wrappers

  /** The seven bitplanes a VC-1 picture may carry. */
  datatype Plane = AcPred | OverFlags | MvTypeMb | SkipMb | DirectMb | FieldTx | ForwardMb

  const BitplanesBufSize: nat := 16 * 1024

  /** The number of bytes copied per plane, whatever the picture size. */
  const PlaneCopySize: nat := 1024

  /** VC1_BITPLANE_OFFSET_*: the byte offset of each plane in the scratch buffer. */
  function PlaneOffset(p: Plane): (off: nat)
    ensures off % PlaneCopySize == 0
    ensures off + PlaneCopySize <= 7 * PlaneCopySize <= BitplanesBufSize
  {
    match p
    case AcPred => 0x0000
    case OverFlags => 0x0400
    case MvTypeMb => 0x0800
    case SkipMb => 0x0C00
    case DirectMb => 0x1000
    case FieldTx => 0x1400
    case ForwardMb => 0x1800
  }

  /** Distinct planes have disjoint regions, so no copy overwrites another plane. */
  lemma PlaneRegionsDisjoint(p: Plane, q: Plane)
    requires p != q
    ensures PlaneOffset(p) + PlaneCopySize <= PlaneOffset(q) || PlaneOffset(q) + PlaneCopySize <= PlaneOffset(p)
  {
  }

  /** The plane whose region covers byte `i` of the scratch buffer, if any. */
  function Covering(i: nat): (r: Option<Plane>)
    ensures r.Some? <==> i < 7 * PlaneCopySize
    ensures r.Some? ==> PlaneOffset(r.value) <= i < PlaneOffset(r.value) + PlaneCopySize
  {
    if i < 0x0400 then Some(AcPred)
    else if i < 0x0800 then Some(OverFlags)
    else if i < 0x0C00 then Some(MvTypeMb)
    else if i < 0x1000 then Some(SkipMb)
    else if i < 0x1400 then Some(DirectMb)
    else if i < 0x1800 then Some(FieldTx)
    else if i < 0x1C00 then Some(ForwardMb)
    else None
  }

  /**
    The bitplane control: which planes are present, whether bitplane_flags
    has any other bit set (one that names none of the seven planes), and
    the planes' bytes.
   */
  datatype Bitplanes = Bitplanes(
    flags: set<Plane>,
    otherFlags: bool,
    acpred: seq<bv8>,
    overflags: seq<bv8>,
    mvtypemb: seq<bv8>,
    skipmb: seq<bv8>,
    directmb: seq<bv8>,
    fieldtx: seq<bv8>,
    forwardmb: seq<bv8>)

  function PlaneData(bp: Bitplanes, p: Plane): seq<bv8>
  {
    match p
    case AcPred => bp.acpred
    case OverFlags => bp.overflags
    case MvTypeMb => bp.mvtypemb
    case SkipMb => bp.skipmb
    case DirectMb => bp.directmb
    case FieldTx => bp.fieldtx
    case ForwardMb => bp.forwardmb
  }

  /** Every plane array holds at least the 1024 bytes that are copied from it. */
  predicate WellSized(bp: Bitplanes)
  {
    forall p: Plane :: |PlaneData(bp, p)| >= PlaneCopySize
  }

  function DivRoundUp(n: nat, d: nat): nat
    requires d > 0
  {
    (n + d - 1) / d
  }

  /**
    The plane size the setup computes (one bit per 16x16 macroblock), cut
    back to 1024 with a warning when larger.  The copies do not use it.
   */
  function ComputedPlaneSize(codedWidth: nat, codedHeight: nat): (r: nat)
    ensures r <= PlaneCopySize
    ensures DivRoundUp(DivRoundUp(codedWidth, 16) * DivRoundUp(codedHeight, 16), 8) <= PlaneCopySize ==>
      r == DivRoundUp(DivRoundUp(codedWidth, 16) * DivRoundUp(codedHeight, 16), 8)
  {
    var mbNum := DivRoundUp(codedWidth, 16) * DivRoundUp(codedHeight, 16);
    var planeSize := DivRoundUp(mbNum, 8);
    if planeSize > PlaneCopySize then PlaneCopySize else planeSize
  }

  /** `memcpy(buf + off, data, len)` on the buffer's contents. */
  function CopiedAt(buf: seq<bv8>, off: nat, data: seq<bv8>, len: nat): seq<bv8>
    requires off + len <= |buf| && len <= |data|
  {
    buf[..off] + data[..len] + buf[off + len..]
  }

  /** One conditional copy of the setup: plane `p` goes in when its flag is set. */
  function StageOne(buf: seq<bv8>, bp: Bitplanes, p: Plane): (r: seq<bv8>)
    requires |buf| == BitplanesBufSize && WellSized(bp)
    ensures |r| == BitplanesBufSize
    ensures p !in bp.flags ==> r == buf
  {
    if p in bp.flags then CopiedAt(buf, PlaneOffset(p), PlaneData(bp, p), PlaneCopySize) else buf
  }

  /** The scratch buffer after cedrus_vc1_bitplanes_setup, copies in the source's order. */
  function Staged(buf: seq<bv8>, bp: Bitplanes): (r: seq<bv8>)
    requires |buf| == BitplanesBufSize && WellSized(bp)
    ensures |r| == BitplanesBufSize
    ensures bp.flags == {} ==> r == buf
  {
    var b1 := StageOne(buf, bp, MvTypeMb);
    var b2 := StageOne(b1, bp, DirectMb);
    var b3 := StageOne(b2, bp, SkipMb);
    var b4 := StageOne(b3, bp, FieldTx);
    var b5 := StageOne(b4, bp, ForwardMb);
    var b6 := StageOne(b5, bp, AcPred);
    StageOne(b6, bp, OverFlags)
  }

  /** The byte a staged buffer should hold: the plane's byte if its flag is set, the old byte otherwise. */
  function ExpectedByte(buf: seq<bv8>, bp: Bitplanes, i: nat): bv8
    requires |buf| == BitplanesBufSize && WellSized(bp) && i < |buf|
  {
    var c := Covering(i);
    if c.Some? && c.value in bp.flags then PlaneData(bp, c.value)[i - PlaneOffset(c.value)] else buf[i]
  }

  lemma StageOneAt(buf: seq<bv8>, bp: Bitplanes, p: Plane, i: nat)
    requires |buf| == BitplanesBufSize && WellSized(bp) && i < |buf|
    ensures StageOne(buf, bp, p)[i] ==
      if p in bp.flags && PlaneOffset(p) <= i < PlaneOffset(p) + PlaneCopySize
      then PlaneData(bp, p)[i - PlaneOffset(p)] else buf[i]
  {
  }

  /**
    Byte by byte, the staged buffer holds the data of the flagged plane
    covering that byte and the old contents everywhere else.
   */
  lemma {:induction false} StagedAt(buf: seq<bv8>, bp: Bitplanes, i: nat)
    requires |buf| == BitplanesBufSize && WellSized(bp) && i < |buf|
    ensures Staged(buf, bp)[i] == ExpectedByte(buf, bp, i)
  {
    var b1 := StageOne(buf, bp, MvTypeMb);
    var b2 := StageOne(b1, bp, DirectMb);
    var b3 := StageOne(b2, bp, SkipMb);
    var b4 := StageOne(b3, bp, FieldTx);
    var b5 := StageOne(b4, bp, ForwardMb);
    var b6 := StageOne(b5, bp, AcPred);
    StageOneAt(buf, bp, MvTypeMb, i);
    StageOneAt(b1, bp, DirectMb, i);
    StageOneAt(b2, bp, SkipMb, i);
    StageOneAt(b3, bp, FieldTx, i);
    StageOneAt(b4, bp, ForwardMb, i);
    StageOneAt(b5, bp, AcPred, i);
    StageOneAt(b6, bp, OverFlags, i);
  }

  /** Every byte of a plane's region is covered by that plane. */
  lemma CoveringInRegion(p: Plane, i: nat)
    requires PlaneOffset(p) <= i < PlaneOffset(p) + PlaneCopySize
    ensures Covering(i) == Some(p)
  {
    var c := Covering(i).value;
    if c != p { PlaneRegionsDisjoint(c, p); }
  }

  /** Byte by byte over one plane's region: the plane's data when flagged, the old bytes otherwise. */
  lemma {:induction false} StagedInRegion(buf: seq<bv8>, bp: Bitplanes, p: Plane, i: nat)
    requires |buf| == BitplanesBufSize && WellSized(bp)
    requires PlaneOffset(p) <= i < PlaneOffset(p) + PlaneCopySize
    ensures Staged(buf, bp)[i] == if p in bp.flags then PlaneData(bp, p)[i - PlaneOffset(p)] else buf[i]
  {
    StagedAt(buf, bp, i);
    CoveringInRegion(p, i);
  }

  /** A flagged plane's 1024 bytes land at its offset. */
  lemma {:induction false} StagedFlaggedRegion(buf: seq<bv8>, bp: Bitplanes, p: Plane)
    requires |buf| == BitplanesBufSize && WellSized(bp) && p in bp.flags
    ensures Staged(buf, bp)[PlaneOffset(p)..PlaneOffset(p) + PlaneCopySize] == PlaneData(bp, p)[..PlaneCopySize]
  {
    var s, off, d := Staged(buf, bp), PlaneOffset(p), PlaneData(bp, p)[..PlaneCopySize];
    forall k | 0 <= k < PlaneCopySize
      ensures s[off..off + PlaneCopySize][k] == d[k]
    {
      StagedInRegion(buf, bp, p, off + k);
    }
  }

  /** An unflagged plane's region keeps its old contents. */
  lemma {:induction false} StagedUnflaggedRegion(buf: seq<bv8>, bp: Bitplanes, p: Plane)
    requires |buf| == BitplanesBufSize && WellSized(bp) && p !in bp.flags
    ensures Staged(buf, bp)[PlaneOffset(p)..PlaneOffset(p) + PlaneCopySize] == buf[PlaneOffset(p)..PlaneOffset(p) + PlaneCopySize]
  {
    var off := PlaneOffset(p);
    var s, b := Staged(buf, bp)[off..off + PlaneCopySize], buf[off..off + PlaneCopySize];
    forall k | 0 <= k < PlaneCopySize
      ensures s[k] == b[k]
    {
      StagedInRegion(buf, bp, p, off + k);
    }
  }

  /** The bytes past the seven plane regions are never written. */
  lemma {:induction false} StagedTail(buf: seq<bv8>, bp: Bitplanes)
    requires |buf| == BitplanesBufSize && WellSized(bp)
    ensures Staged(buf, bp)[7 * PlaneCopySize..] == buf[7 * PlaneCopySize..]
  {
    var s := Staged(buf, bp);
    forall k | 0 <= k < |buf| - 7 * PlaneCopySize
      ensures s[7 * PlaneCopySize..][k] == buf[7 * PlaneCopySize..][k]
    {
      StagedAt(buf, bp, 7 * PlaneCopySize + k);
    }
  }

  /** `memcpy(buf + off, data, len)`: copy `len` bytes of `data` into the array at `off`. */
  method CopyPlane(buf: array<bv8>, off: nat, data: seq<bv8>, len: nat)
    requires off + len <= buf.Length && len <= |data|
    modifies buf
    ensures buf[..] == CopiedAt(old(buf[..]), off, data, len)
  {
    for k := 0 to len
      invariant forall j :: 0 <= j < buf.Length ==>
        buf[j] == if off <= j < off + k then data[j - off] else old(buf[j])
    {
      buf[off + k] := data[k];
    }
    assert buf[..] == CopiedAt(old(buf[..]), off, data, len);
  }
}
