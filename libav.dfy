/** The parts of libavcodec, libavutil and the VAAPI backend that the
    hardware-acceleration dispatch layer consults. They are not modelled
    here: each is an oracle, a value fixed by the caller. */
module LibAv {

  datatype Option<+T> = None | Some(value: T)

  /** `enum AVPixelFormat`, reduced to the values the dispatch layer tells
      apart: the list terminator `AV_PIX_FMT_NONE`, `AV_PIX_FMT_VAAPI`, and
      every other format, distinguished by an identifier. */
  datatype PixFmt = FmtNone | FmtVaapi | FmtOther(id: nat)

  /** `AV_PIX_FMT_FLAG_HWACCEL`, bit 3 of a pixel-format descriptor's flags. */
  const PixFmtFlagHwAccel: bv64 := 1 << 3

  /** `AVPixFmtDescriptor`: the name and the 64-bit flag word. */
  datatype PixFmtDescriptor = PixFmtDescriptor(name: string, flags: bv64)

  predicate IsHwAccel(desc: PixFmtDescriptor) {
    desc.flags & PixFmtFlagHwAccel != 0
  }

  /** `AVCodecHWConfig`: one hardware configuration a decoder reports. */
  datatype HwConfig = HwConfig(pixFmt: PixFmt, methods: bv32, deviceType: nat)

  /** `AVCodec`, as far as this layer sees it: its name and the list that
      `avcodec_get_hw_config` walks. A `None` entry is a null pointer. */
  datatype Codec = Codec(name: string, hwConfigs: seq<Option<HwConfig>>)

  /** `avcodec_get_hw_config(codec, i)`: the i-th entry, null past the end. */
  function GetHwConfig(codec: Codec, i: nat): Option<HwConfig> {
    if i < |codec.hwConfigs| then codec.hwConfigs[i] else None
  }

  /** `ENOENT` on Linux, and `AVERROR(e)`, which negates a POSIX error code. */
  const ENOENT: int := 2

  function AvError(e: int): int {
    -e
  }

  /** A call from the dispatch layer into the VAAPI backend. */
  datatype BackendCall =
    | VaapiDecodeSetup
    | VaapiDecodeClose
    | VaapiGetScaleFilter
    | VaapiGetDeintFilter
    | VaapiEncodeSetup
    | VaapiEncodeClose
    | VaapiDone

  /** The status codes the VAAPI backend returns; foreign code, so each is
      taken as given. */
  datatype VaapiOracle = VaapiOracle(
    decodeSetup: int,
    encodeSetup: int,
    scaleFilter: int,
    deintFilter: int)

  /** Everything about the build and the libraries that stays fixed while the
      layer runs: whether VAAPI support is compiled in (`ENABLE_VAAPI`),
      `av_pix_fmt_desc_get`, and the backend's answers. */
  datatype Platform = Platform(
    enableVaapi: bool,
    pixFmtDesc: PixFmt -> Option<PixFmtDescriptor>,
    vaapi: VaapiOracle)

  /** What a dispatch returns to its caller, with the backend calls it made
      on the way, in order. */
  datatype Dispatch = Dispatch(ret: int, calls: seq<BackendCall>)
}
