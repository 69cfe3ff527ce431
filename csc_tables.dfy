/**
  The constant coefficient tables of the DE2 and DE3 colour-space
  converters, as opaque 12-word blocks (three rows of three factors and an
  offset word), and the lookups that index them.  Only the identity of a
  table and its words matter here; their numeric meaning is not modelled.
 */
module CscTables {
  import opened Words
  import opened DisplayEngine

  /** The named static tables of the driver. */
  datatype TableName =
    | De2Yuv2Rgb(range: ColorRange, enc: Encoding)  // yuv2rgb[range][enc], BT.601 and BT.709 only
    | De3Yuv2Rgb(range: ColorRange, enc: Encoding)  // yuv2rgb_de3[range][enc]
    | De3Rgb2Yuv(enc: Encoding)                     // rgb2yuv_de3[enc]
    | IdentityDe3                                   // identity_de3
    | LimToLim(from: Encoding, to: Encoding)        // yuv_<from>_lim_to_<to>_lim_de3, from != to
    | FullToLim                                     // yuv_full_to_lim_de3
    | FullToLimConvert(from: Encoding, to: Encoding) // yuv_<from>_full_to_<to>_lim_de3, from != to

  /** A table that exists in the driver. */
  predicate Declared(n: TableName)
  {
    match n
    case De2Yuv2Rgb(_, enc) => enc != Bt2020
    case LimToLim(from, to) => from != to
    case FullToLimConvert(from, to) => from != to
    case _ => true
  }

  // The tables, word for word, in the order the driver declares them.

  const Yuv2RgbLimited601: seq<u32> :=
    [0x000004A8, 0x00000000, 0x00000662, 0xFFFC8451,
     0x000004A8, 0xFFFFFE6F, 0xFFFFFCC0, 0x00021E4D,
     0x000004A8, 0x00000811, 0x00000000, 0xFFFBACA9]

  const Yuv2RgbLimited709: seq<u32> :=
    [0x000004A8, 0x00000000, 0x0000072B, 0xFFFC1F99,
     0x000004A8, 0xFFFFFF26, 0xFFFFFDDF, 0x00013383,
     0x000004A8, 0x00000873, 0x00000000, 0xFFFB7BEF]

  const Yuv2RgbFull601: seq<u32> :=
    [0x00000400, 0x00000000, 0x0000059B, 0xFFFD322E,
     0x00000400, 0xFFFFFEA0, 0xFFFFFD25, 0x00021DD5,
     0x00000400, 0x00000716, 0x00000000, 0xFFFC74BD]

  const Yuv2RgbFull709: seq<u32> :=
    [0x00000400, 0x00000000, 0x0000064C, 0xFFFCD9B4,
     0x00000400, 0xFFFFFF41, 0xFFFFFE21, 0x00014F96,
     0x00000400, 0x0000076C, 0x00000000, 0xFFFC49EF]

  const Yuv2RgbDe3Limited601: seq<u32> :=
    [0x0002542A, 0x00000000, 0x0003312A, 0xFFC00000,
     0x0002542A, 0xFFFF376B, 0xFFFE5FC3, 0xFE000000,
     0x0002542A, 0x000408D2, 0x00000000, 0xFE000000]

  const Yuv2RgbDe3Limited709: seq<u32> :=
    [0x0002542A, 0x00000000, 0x000395E2, 0xFFC00000,
     0x0002542A, 0xFFFF92D2, 0xFFFEEF27, 0xFE000000,
     0x0002542A, 0x0004398C, 0x00000000, 0xFE000000]

  const Yuv2RgbDe3Limited2020: seq<u32> :=
    [0x0002542A, 0x00000000, 0x00035B7B, 0xFFC00000,
     0x0002542A, 0xFFFFA017, 0xFFFEB2FC, 0xFE000000,
     0x0002542A, 0x00044896, 0x00000000, 0xFE000000]

  const Yuv2RgbDe3Full601: seq<u32> :=
    [0x00020000, 0x00000000, 0x0002CDD2, 0x00000000,
     0x00020000, 0xFFFF4FCE, 0xFFFE925D, 0xFE000000,
     0x00020000, 0x00038B43, 0x00000000, 0xFE000000]

  const Yuv2RgbDe3Full709: seq<u32> :=
    [0x00020000, 0x00000000, 0x0003264C, 0x00000000,
     0x00020000, 0xFFFFA018, 0xFFFF1053, 0xFE000000,
     0x00020000, 0x0003B611, 0x00000000, 0xFE000000]

  const Yuv2RgbDe3Full2020: seq<u32> :=
    [0x00020000, 0x00000000, 0x0002F2FE, 0x00000000,
     0x00020000, 0xFFFFABC0, 0xFFFEDB78, 0xFE000000,
     0x00020000, 0x0003C346, 0x00000000, 0xFE000000]

  const Rgb2YuvDe3601: seq<u32> :=
    [0x0000837A, 0x0001021D, 0x00003221, 0x00000040,
     0xFFFFB41C, 0xFFFF6B03, 0x0000E0E1, 0x00000200,
     0x0000E0E1, 0xFFFF43B1, 0xFFFFDB6E, 0x00000200]

  const Rgb2YuvDe3709: seq<u32> :=
    [0x00005D7C, 0x00013A7C, 0x00001FBF, 0x00000040,
     0xFFFFCC78, 0xFFFF52A7, 0x0000E0E1, 0x00000200,
     0x0000E0E1, 0xFFFF33BE, 0xFFFFEB61, 0x00000200]

  const Rgb2YuvDe32020: seq<u32> :=
    [0x00007384, 0x00012A21, 0x00001A13, 0x00000040,
     0xFFFFC133, 0xFFFF5DEC, 0x0000E0E1, 0x00000200,
     0x0000E0E1, 0xFFFF3135, 0xFFFFEDEA, 0x00000200]

  const IdentityDe3Words: seq<u32> :=
    [0x00020000, 0x00000000, 0x00000000, 0x00000000,
     0x00000000, 0x00020000, 0x00000000, 0x00000000,
     0x00000000, 0x00000000, 0x00020000, 0x00000000]

  const Yuv601LimTo709Lim: seq<u32> :=
    [0x00020000, 0xFFFFC4D7, 0xFFFF9589, 0xFFC00040,
     0x00000000, 0x0002098B, 0x00003AAF, 0xFE000200,
     0x00000000, 0x0000266D, 0x00020CF8, 0xFE000200]

  const Yuv601LimTo2020Lim: seq<u32> :=
    [0x00020000, 0xFFFFBFCE, 0xFFFFC5FF, 0xFFC00040,
     0x00000000, 0x00020521, 0x00001F89, 0xFE000200,
     0x00000000, 0x00002C87, 0x00020F07, 0xFE000200]

  const Yuv709LimTo601Lim: seq<u32> :=
    [0x00020000, 0x000032D9, 0x00006226, 0xFFC00040,
     0x00000000, 0x0001FACE, 0xFFFFC759, 0xFE000200,
     0x00000000, 0xFFFFDAE7, 0x0001F780, 0xFE000200]

  const Yuv709LimTo2020Lim: seq<u32> :=
    [0x00020000, 0xFFFFF782, 0x00003036, 0xFFC00040,
     0x00000000, 0x0001FD99, 0xFFFFE5CA, 0xFE000200,
     0x00000000, 0x000005E4, 0x0002015A, 0xFE000200]

  const Yuv2020LimTo601Lim: seq<u32> :=
    [0x00020000, 0x00003B03, 0x000034D2, 0xFFC00040,
     0x00000000, 0x0001FD8C, 0xFFFFE183, 0xFE000200,
     0x00000000, 0xFFFFD4F3, 0x0001F3FA, 0xFE000200]

  const Yuv2020LimTo709Lim: seq<u32> :=
    [0x00020000, 0x00000916, 0xFFFFD061, 0xFFC00040,
     0x00000000, 0x0002021C, 0x00001A40, 0xFE000200,
     0x00000000, 0xFFFFFA19, 0x0001FE5A, 0xFE000200]

  const YuvFullToLimWords: seq<u32> :=
    [0x0001B7B8, 0x00000000, 0x00000000, 0x00000040,
     0x00000000, 0x0001C1C2, 0x00000000, 0xFE000200,
     0x00000000, 0x00000000, 0x0001C1C2, 0xFE000200]

  const Yuv601FullTo709Lim: seq<u32> :=
    [0x0001B7B8, 0xFFFFCC08, 0xFFFFA27B, 0x00000040,
     0x00000000, 0x0001CA24, 0x0000338D, 0xFE000200,
     0x00000000, 0x000021C1, 0x0001CD26, 0xFE000200]

  const Yuv601FullTo2020Lim: seq<u32> :=
    [0x0001B7B8, 0xFFFFC79C, 0xFFFFCD0C, 0x00000040,
     0x00000000, 0x0001C643, 0x00001BB4, 0xFE000200,
     0x00000000, 0x0000271D, 0x0001CEF5, 0xFE000200]

  const Yuv709FullTo601Lim: seq<u32> :=
    [0x0001B7B8, 0x00002CAB, 0x00005638, 0x00000040,
     0x00000000, 0x0001BD32, 0xFFFFCE3C, 0xFE000200,
     0x00000000, 0xFFFFDF6A, 0x0001BA4A, 0xFE000200]

  const Yuv709FullTo2020Lim: seq<u32> :=
    [0x0001B7B8, 0xFFFFF88A, 0x00002A5A, 0x00000040,
     0x00000000, 0x0001BFA5, 0xFFFFE8FA, 0xFE000200,
     0x00000000, 0x0000052D, 0x0001C2F1, 0xFE000200]

  const Yuv2020FullTo601Lim: seq<u32> :=
    [0x0001B7B8, 0x000033D6, 0x00002E66, 0x00000040,
     0x00000000, 0x0001BF9A, 0xFFFFE538, 0xFE000200,
     0x00000000, 0xFFFFDA2F, 0x0001B732, 0xFE000200]

  const Yuv2020FullTo709Lim: seq<u32> :=
    [0x0001B7B8, 0x000007FB, 0xFFFFD62B, 0x00000040,
     0x00000000, 0x0001C39D, 0x0000170F, 0xFE000200,
     0x00000000, 0xFFFFFAD1, 0x0001C04F, 0xFE000200]

  /** The twelve words of a declared table. */
  function Coeffs(n: TableName): (c: seq<u32>)
    requires Declared(n)
    ensures |c| == 12
  {
    match n
    case De2Yuv2Rgb(range, enc) =>
      if range == Limited then (if enc == Bt601 then Yuv2RgbLimited601 else Yuv2RgbLimited709)
      else (if enc == Bt601 then Yuv2RgbFull601 else Yuv2RgbFull709)
    case De3Yuv2Rgb(range, enc) =>
      if range == Limited then
        (match enc
         case Bt601 => Yuv2RgbDe3Limited601
         case Bt709 => Yuv2RgbDe3Limited709
         case Bt2020 => Yuv2RgbDe3Limited2020)
      else
        (match enc
         case Bt601 => Yuv2RgbDe3Full601
         case Bt709 => Yuv2RgbDe3Full709
         case Bt2020 => Yuv2RgbDe3Full2020)
    case De3Rgb2Yuv(enc) =>
      (match enc
       case Bt601 => Rgb2YuvDe3601
       case Bt709 => Rgb2YuvDe3709
       case Bt2020 => Rgb2YuvDe32020)
    case IdentityDe3 => IdentityDe3Words
    case LimToLim(from, to) =>
      (match from
       case Bt601 => if to == Bt709 then Yuv601LimTo709Lim else Yuv601LimTo2020Lim
       case Bt709 => if to == Bt601 then Yuv709LimTo601Lim else Yuv709LimTo2020Lim
       case Bt2020 => if to == Bt601 then Yuv2020LimTo601Lim else Yuv2020LimTo709Lim)
    case FullToLim => YuvFullToLimWords
    case FullToLimConvert(from, to) =>
      (match from
       case Bt601 => if to == Bt709 then Yuv601FullTo709Lim else Yuv601FullTo2020Lim
       case Bt709 => if to == Bt601 then Yuv709FullTo601Lim else Yuv709FullTo2020Lim
       case Bt2020 => if to == Bt601 then Yuv2020FullTo601Lim else Yuv2020FullTo709Lim)
  }

  /**
    yuv2yuv_de3[range][in][out]: the DE3 YUV-to-YUV table, always to limited
    range; limited input in the output's own encoding needs no conversion.
   */
  function Yuv2YuvDe3(range: ColorRange, from: Encoding, to: Encoding): (n: TableName)
    ensures Declared(n)
    ensures n == IdentityDe3 <==> range == Limited && from == to
    ensures range == Limited ==> n.IdentityDe3? || n.LimToLim?
    ensures range == Full ==> n.FullToLim? || n.FullToLimConvert?
  {
    if range == Limited then
      if from == to then IdentityDe3 else LimToLim(from, to)
    else
      if from == to then FullToLim else FullToLimConvert(from, to)
  }

  /** The tables a YUV-to-YUV lookup can return are all DE3 tables. */
  lemma Yuv2YuvDe3Covers(n: TableName)
    requires Declared(n) && (n.IdentityDe3? || n.LimToLim? || n.FullToLim? || n.FullToLimConvert?)
    ensures exists range, from, to :: Yuv2YuvDe3(range, from, to) == n
  {
    match n
    case IdentityDe3 => assert Yuv2YuvDe3(Limited, Bt601, Bt601) == n;
    case LimToLim(from, to) => assert Yuv2YuvDe3(Limited, from, to) == n;
    case FullToLim => assert Yuv2YuvDe3(Full, Bt601, Bt601) == n;
    case FullToLimConvert(from, to) => assert Yuv2YuvDe3(Full, from, to) == n;
  }
}
