/**
  The media-bus format codes the display code distinguishes, with the
  values of the Linux media-bus-format header (which is not part of this
  model), and the RGB test shared by the CSC and the output formatter.
 */
module MediaBus {
  import opened Words

  const RGB888_1X24: u32 := 0x100a
  const RGB101010_1X30: u32 := 0x1018
  const UYVY8_1X16: u32 := 0x200f
  const YUV10_1X30: u32 := 0x2016
  const UYVY10_1X20: u32 := 0x201a
  const UYYVYY8_0_5X24: u32 := 0x2026
  const UYYVYY10_0_5X30: u32 := 0x2027

  /**
    is_rgb / sun50i_fmt_is_rgb: the two RGB bus formats; every other code,
    named here or not, is treated as YUV.
   */
  function IsRgb(format: u32): (r: bool)
    ensures r ==> format == RGB888_1X24 || format == RGB101010_1X30
    ensures format == RGB888_1X24 || format == RGB101010_1X30 ==> r
  {
    match format
    case 0x100a => true
    case 0x1018 => true
    case _ => false
  }
}
