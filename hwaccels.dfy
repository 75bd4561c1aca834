/** The hardware-acceleration dispatch layer of the transcoder
    (src/transcoding/transcode/hwaccels/hwaccels.c): which hardware pixel
    format a decoder gets, the decode-context teardown, the filter queries,
    and the encode and module hooks. The per-stream operations dispatch on
    the stream's pixel format; module shutdown depends only on the build. */
module HwAccels {
  import opened LibAv

  /** The backend's hardware context; opaque to this layer. */
  class HwAccelContext {
  }

  /** `TVHContext`, the transcoder's per-stream record; this layer only uses
      its `hw_accel_ictx` slot, which is null when no context is attached. */
  class TvhContext {
    var hwAccelICtx: HwAccelContext?
  }

  /** `AVCodecParameters` as the layer sees it: the codec (read-only), the
      current pixel format, and the transcoder record its `opaque` pointer holds (`tvh`). */
  class CodecParams {
    const codec: Codec
    var format: PixFmt
    const tvh: TvhContext

    constructor (codec: Codec, format: PixFmt, tvh: TvhContext)
      ensures this.codec == codec && this.format == format && this.tvh == tvh
    {
      this.codec := codec;
      this.format := format;
      this.tvh := tvh;
    }
  }

  /* decoding ============================================================ */

  /** The number of hardware configs before the first null entry: the part
      of the list `avcodec_get_hw_config` can reach. */
  function LiveCount(configs: seq<Option<HwConfig>>): (n: nat)
    ensures n <= |configs|
    ensures forall j :: 0 <= j < n ==> configs[j].Some?
    ensures n < |configs| ==> configs[n].None?
  {
    if configs == [] || configs[0].None? then 0 else 1 + LiveCount(configs[1..])
  }

  /** Some config before the first null entry of `configs` has `format`. */
  ghost predicate SupportedIn(configs: seq<Option<HwConfig>>, format: PixFmt) {
    exists k :: 0 <= k < LiveCount(configs) && configs[k].value.pixFmt == format
  }

  /** The decoder reports native hardware support for `format`. */
  ghost predicate NativelySupported(codec: Codec, format: PixFmt) {
    SupportedIn(codec.hwConfigs, format)
  }

  /** Entry `k` is the lowest-index reachable config whose format is `format`. */
  ghost predicate IsFirstMatch(configs: seq<Option<HwConfig>>, format: PixFmt, k: int) {
    0 <= k < LiveCount(configs) && configs[k].value.pixFmt == format &&
    forall j :: 0 <= j < k ==> configs[j].value.pixFmt != format
  }

  /** The config `find_hwconfig` answers with, as a recursive definition. */
  function FirstHwConfig(configs: seq<Option<HwConfig>>, format: PixFmt): (r: Option<HwConfig>)
    ensures r.Some? ==> r.value.pixFmt == format && r in configs
  {
    if configs == [] || configs[0].None? then None
    else if configs[0].value.pixFmt == format then configs[0]
    else FirstHwConfig(configs[1..], format)
  }

  /** `FirstHwConfig` is found exactly when the format is natively supported,
      and it is then the first matching entry before the first null. */
  lemma {:induction false} FirstHwConfigIsFirstMatch(configs: seq<Option<HwConfig>>, format: PixFmt)
    ensures FirstHwConfig(configs, format).Some? <==> SupportedIn(configs, format)
    ensures FirstHwConfig(configs, format).Some? ==>
      exists k :: IsFirstMatch(configs, format, k) && configs[k] == FirstHwConfig(configs, format)
  {
    if configs == [] || configs[0].None? {
      assert LiveCount(configs) == 0;
    } else if configs[0].value.pixFmt == format {
      assert IsFirstMatch(configs, format, 0);
    } else {
      var tail := configs[1..];
      FirstHwConfigIsFirstMatch(tail, format);
      assert LiveCount(configs) == 1 + LiveCount(tail);
      if SupportedIn(configs, format) {
        var k :| 0 <= k < LiveCount(configs) && configs[k].value.pixFmt == format;
        assert tail[k - 1] == configs[k];
        assert SupportedIn(tail, format);
      }
      if FirstHwConfig(tail, format).Some? {
        var k :| IsFirstMatch(tail, format, k) && tail[k] == FirstHwConfig(tail, format);
        assert configs[k + 1] == tail[k];
        forall j | 0 <= j < k + 1
          ensures configs[j].value.pixFmt != format
        {
          if j > 0 {
            assert configs[j] == tail[j - 1];
          }
        }
        assert IsFirstMatch(configs, format, k + 1);
      }
    }
  }

  /** `find_hwconfig`: walk the decoder's configs until the first null one
      and answer the first whose format matches, or null. */
  method FindHwConfig(codec: Codec, format: PixFmt) returns (hwcfg: Option<HwConfig>)
    ensures hwcfg == FirstHwConfig(codec.hwConfigs, format)
    ensures hwcfg.Some? <==> NativelySupported(codec, format)
    ensures hwcfg.Some? ==>
      exists k :: IsFirstMatch(codec.hwConfigs, format, k) && codec.hwConfigs[k] == hwcfg
  {
    FirstHwConfigIsFirstMatch(codec.hwConfigs, format);
    var i := 0;
    while true
      invariant 0 <= i <= |codec.hwConfigs|
      invariant FirstHwConfig(codec.hwConfigs[i..], format) == FirstHwConfig(codec.hwConfigs, format)
      decreases |codec.hwConfigs| - i
    {
      hwcfg := GetHwConfig(codec, i);
      if hwcfg.None? {
        break;
      }
      if hwcfg.value.pixFmt == format {
        return;
      }
      assert codec.hwConfigs[i..][1..] == codec.hwConfigs[i + 1..];
      i := i + 1;
    }
    return None;
  }

  /** `check_pix_fmt`: true when the decoder has no hardware config for
      `format`. */
  function CheckPixFmt(codec: Codec, format: PixFmt): (noHwAccel: bool)
    ensures noHwAccel <==> !NativelySupported(codec, format)
  {
    FirstHwConfigIsFirstMatch(codec.hwConfigs, format);
    FirstHwConfig(codec.hwConfigs, format).None?
  }

  /** `hwaccels_decode_setup_context`: refuse a format the decoder does not
      support natively, otherwise hand VAAPI to its backend and fail any
      other format. */
  function DecodeSetupContext(env: Platform, par: CodecParams, format: PixFmt): (r: Dispatch)
    ensures !NativelySupported(par.codec, format) ==> r == Dispatch(AvError(ENOENT), [])
    ensures NativelySupported(par.codec, format) && !(env.enableVaapi && format == FmtVaapi) ==>
      r == Dispatch(-1, [])
    ensures r.calls != [] <==> NativelySupported(par.codec, format) && env.enableVaapi && format == FmtVaapi
    ensures r.calls != [] ==> r == Dispatch(env.vaapi.decodeSetup, [VaapiDecodeSetup])
    ensures r.ret == 0 ==> NativelySupported(par.codec, format) && env.enableVaapi && format == FmtVaapi
  {
    if CheckPixFmt(par.codec, format) then
      Dispatch(AvError(ENOENT), [])
    else if env.enableVaapi && format == FmtVaapi then
      Dispatch(env.vaapi.decodeSetup, [VaapiDecodeSetup])
    else
      Dispatch(-1, [])
  }

  /** The index of the `AV_PIX_FMT_NONE` that terminates a candidate list. */
  function SentinelIndex(pixFmts: seq<PixFmt>): (n: nat)
    requires FmtNone in pixFmts
    ensures n < |pixFmts| && pixFmts[n] == FmtNone
    ensures forall j :: 0 <= j < n ==> pixFmts[j] != FmtNone
  {
    if pixFmts[0] == FmtNone then 0 else 1 + SentinelIndex(pixFmts[1..])
  }

  /** A candidate the negotiation tries to set up: it has a descriptor, and
      the descriptor carries the HWACCEL flag. */
  predicate Tried(env: Platform, format: PixFmt) {
    env.pixFmtDesc(format).Some? && IsHwAccel(env.pixFmtDesc(format).value)
  }

  /** A candidate the negotiation settles on: tried, and set up with status 0. */
  predicate Accepted(env: Platform, par: CodecParams, format: PixFmt) {
    Tried(env, format) && DecodeSetupContext(env, par, format).ret == 0
  }

  /** The chosen format and the backend calls made on the way. */
  datatype Negotiation = Negotiation(format: PixFmt, calls: seq<BackendCall>)

  /** The scan of `hwaccels_decode_get_format` over the candidates before
      the terminator; `last` is the format it has assigned so far. */
  function Negotiate(env: Platform, par: CodecParams, cands: seq<PixFmt>, last: PixFmt): (r: Negotiation)
    ensures |r.calls| <= |cands|
    ensures forall c :: c in r.calls ==> c == VaapiDecodeSetup
    decreases |cands|
  {
    if cands == [] then Negotiation(last, [])
    else
      var format := cands[0];
      if !Tried(env, format) then Negotiate(env, par, cands[1..], format)
      else
        var setup := DecodeSetupContext(env, par, format);
        if setup.ret == 0 then Negotiation(format, setup.calls)
        else
          var rest := Negotiate(env, par, cands[1..], format);
          Negotiation(rest.format, setup.calls + rest.calls)
  }

  /** The backend calls decode setup makes for every tried candidate of
      `cands`, as if none were accepted: the reference for what the
      negotiation may call. */
  function AttemptCalls(env: Platform, par: CodecParams, cands: seq<PixFmt>): (calls: seq<BackendCall>)
    ensures forall c :: c in calls ==> c == VaapiDecodeSetup
    ensures (forall j :: 0 <= j < |cands| ==> !Tried(env, cands[j])) ==> calls == []
  {
    if cands == [] then []
    else
      (if Tried(env, cands[0]) then DecodeSetupContext(env, par, cands[0]).calls else [])
      + AttemptCalls(env, par, cands[1..])
  }

  /** The negotiation returns the first accepted candidate, and calls the
      backend only for the tried candidates up to and including it. */
  lemma {:induction false} NegotiateFirstAccepted(env: Platform, par: CodecParams, cands: seq<PixFmt>, last: PixFmt, k: nat)
    requires k < |cands| && Accepted(env, par, cands[k])
    requires forall j :: 0 <= j < k ==> !Accepted(env, par, cands[j])
    ensures Negotiate(env, par, cands, last).format == cands[k]
    ensures Negotiate(env, par, cands, last).calls == AttemptCalls(env, par, cands[..k + 1])
  {
    if k == 0 {
      assert cands[..1][1..] == [];
    } else {
      var tail := cands[1..];
      forall j | 0 <= j < k - 1
        ensures !Accepted(env, par, tail[j])
      {
        assert tail[j] == cands[j + 1];
      }
      NegotiateFirstAccepted(env, par, tail, cands[0], k - 1);
      assert cands[..k + 1][1..] == tail[..k];
    }
  }

  /** When no candidate is accepted the negotiation returns the last one
      (`last` for an empty list), having tried every candidate. */
  lemma {:induction false} NegotiateNoneAccepted(env: Platform, par: CodecParams, cands: seq<PixFmt>, last: PixFmt)
    requires forall j :: 0 <= j < |cands| ==> !Accepted(env, par, cands[j])
    ensures Negotiate(env, par, cands, last).format == if cands == [] then last else cands[|cands| - 1]
    ensures Negotiate(env, par, cands, last).calls == AttemptCalls(env, par, cands)
  {
    if cands != [] {
      var tail := cands[1..];
      forall j | 0 <= j < |tail|
        ensures !Accepted(env, par, tail[j])
      {
        assert tail[j] == cands[j + 1];
      }
      NegotiateNoneAccepted(env, par, tail, cands[0]);
    }
  }

  /** The negotiated format is `last` only for an empty list; otherwise it is
      one of the candidates. */
  lemma {:induction false} NegotiateReturnsCandidate(env: Platform, par: CodecParams, cands: seq<PixFmt>, last: PixFmt)
    ensures cands == [] ==> Negotiate(env, par, cands, last).format == last
    ensures cands != [] ==> Negotiate(env, par, cands, last).format in cands
  {
    if |cands| > 1 {
      NegotiateReturnsCandidate(env, par, cands[1..], cands[0]);
    }
  }

  /** A hardware format the decoder supports but no compiled-in backend
      handles fails setup with -1 and is passed over for a VAAPI candidate
      behind it; the backend is called once, for VAAPI. */
  lemma NegotiateSkipsFormatWithoutBackend(env: Platform, par: CodecParams, other: PixFmt)
    requires other != FmtVaapi && Tried(env, other) && Tried(env, FmtVaapi)
    requires NativelySupported(par.codec, other) && NativelySupported(par.codec, FmtVaapi)
    requires env.enableVaapi && env.vaapi.decodeSetup == 0
    ensures Negotiate(env, par, [other, FmtVaapi], FmtNone) == Negotiation(FmtVaapi, [VaapiDecodeSetup])
  {
  }

  /** A list whose only candidate lacks the HWACCEL flag yields that
      candidate, not `AV_PIX_FMT_NONE`, and calls no backend. */
  lemma NegotiateUnflaggedOnly(env: Platform, par: CodecParams, format: PixFmt)
    requires env.pixFmtDesc(format).Some? && !IsHwAccel(env.pixFmtDesc(format).value)
    ensures Negotiate(env, par, [format], FmtNone) == Negotiation(format, [])
  {
  }

  /** `hwaccels_decode_get_format`: scan the `AV_PIX_FMT_NONE`-terminated
      candidates, assigning each to `format`, and stop at the first one with
      a descriptor, the HWACCEL flag and a successful decode setup. The
      ghost `calls` logs the backend calls in order. */
  method DecodeGetFormat(env: Platform, par: CodecParams, pixFmts: seq<PixFmt>)
    returns (format: PixFmt, ghost calls: seq<BackendCall>)
    requires FmtNone in pixFmts
    ensures Negotiation(format, calls) == Negotiate(env, par, pixFmts[..SentinelIndex(pixFmts)], FmtNone)
    ensures format == FmtNone <==> SentinelIndex(pixFmts) == 0
  {
    ghost var n := SentinelIndex(pixFmts);
    ghost var spec := Negotiate(env, par, pixFmts[..n], FmtNone);
    format := FmtNone;
    calls := [];
    var i := 0;
    while pixFmts[i] != FmtNone
      invariant 0 <= i <= n
      invariant Negotiate(env, par, pixFmts[i..n], format).format == spec.format
      invariant calls + Negotiate(env, par, pixFmts[i..n], format).calls == spec.calls
      decreases n - i
    {
      assert pixFmts[i..n][1..] == pixFmts[i + 1..n];
      format := pixFmts[i];
      var desc := env.pixFmtDesc(format);
      if desc.Some? {
        if IsHwAccel(desc.value) {
          var setup := DecodeSetupContext(env, par, format);
          calls := calls + setup.calls;
          if setup.ret == 0 {
            break;
          }
        }
      }
      i := i + 1;
    }
    NegotiateReturnsCandidate(env, par, pixFmts[..n], FmtNone);
  }

  /** `hwaccels_decode_close_context`: with a context attached, close it in
      the backend when the format is VAAPI, then clear the slot; with none
      attached, do nothing. */
  method DecodeCloseContext(env: Platform, par: CodecParams) returns (ghost calls: seq<BackendCall>)
    modifies par.tvh
    ensures par.tvh.hwAccelICtx == null
    ensures calls == if old(par.tvh.hwAccelICtx) != null && env.enableVaapi && par.format == FmtVaapi
                     then [VaapiDecodeClose] else []
    ensures old(par.tvh.hwAccelICtx) == null ==> unchanged(par.tvh)
  {
    var ctx := par.tvh;
    calls := [];
    if ctx.hwAccelICtx != null {
      if env.enableVaapi && par.format == FmtVaapi {
        calls := [VaapiDecodeClose];
      }
      ctx.hwAccelICtx := null;
    }
  }

  /** Closing twice: the second close finds the slot null, calls nothing and
      changes nothing. */
  method DecodeCloseTwice(env: Platform, par: CodecParams)
    returns (ghost first: seq<BackendCall>, ghost second: seq<BackendCall>)
    modifies par.tvh
    ensures par.tvh.hwAccelICtx == null && par.format == old(par.format)
    ensures |first| <= 1 && second == []
  {
    first := DecodeCloseContext(env, par);
    second := DecodeCloseContext(env, par);
  }

  /** `hwaccels_get_scale_filter`: only a VAAPI stream with a context
      attached gets an answer, from the backend; every other case is -1. */
  function GetScaleFilter(env: Platform, ipar: CodecParams, opar: CodecParams): (r: Dispatch)
    reads ipar, ipar.tvh
    ensures ipar.tvh.hwAccelICtx == null || ipar.format != FmtVaapi || !env.enableVaapi ==>
      r == Dispatch(-1, [])
    ensures r.calls != [] <==> ipar.tvh.hwAccelICtx != null && env.enableVaapi && ipar.format == FmtVaapi
    ensures r.calls != [] ==> r == Dispatch(env.vaapi.scaleFilter, [VaapiGetScaleFilter])
  {
    if ipar.tvh.hwAccelICtx != null && env.enableVaapi && ipar.format == FmtVaapi then
      Dispatch(env.vaapi.scaleFilter, [VaapiGetScaleFilter])
    else
      Dispatch(-1, [])
  }

  /** `hwaccels_get_deint_filter`: as the scale query, for deinterlacing. */
  function GetDeintFilter(env: Platform, par: CodecParams): (r: Dispatch)
    reads par, par.tvh
    ensures par.tvh.hwAccelICtx == null || par.format != FmtVaapi || !env.enableVaapi ==>
      r == Dispatch(-1, [])
    ensures r.calls != [] <==> par.tvh.hwAccelICtx != null && env.enableVaapi && par.format == FmtVaapi
    ensures r.calls != [] ==> r == Dispatch(env.vaapi.deintFilter, [VaapiGetDeintFilter])
  {
    if par.tvh.hwAccelICtx != null && env.enableVaapi && par.format == FmtVaapi then
      Dispatch(env.vaapi.deintFilter, [VaapiGetDeintFilter])
    else
      Dispatch(-1, [])
  }

  /* encoding ============================================================ */

  /** `hwaccels_encode_setup_context`: VAAPI goes to its backend; any other
      format needs nothing and succeeds with 0. */
  function EncodeSetupContext(env: Platform, par: CodecParams): (r: Dispatch)
    reads par
    ensures !(env.enableVaapi && par.format == FmtVaapi) ==> r == Dispatch(0, [])
    ensures r.calls != [] <==> env.enableVaapi && par.format == FmtVaapi
    ensures r.calls != [] ==> r == Dispatch(env.vaapi.encodeSetup, [VaapiEncodeSetup])
  {
    if env.enableVaapi && par.format == FmtVaapi then
      Dispatch(env.vaapi.encodeSetup, [VaapiEncodeSetup])
    else
      Dispatch(0, [])
  }

  /** `hwaccels_encode_close_context`: the backend calls it makes. */
  function EncodeCloseContext(env: Platform, par: CodecParams): (calls: seq<BackendCall>)
    reads par
    ensures calls != [] <==> env.enableVaapi && par.format == FmtVaapi
    ensures calls != [] ==> calls == [VaapiEncodeClose]
  {
    if env.enableVaapi && par.format == FmtVaapi then [VaapiEncodeClose] else []
  }

  /* module ============================================================== */

  /** `hwaccels_done`: the backend calls made at shutdown. */
  function Done(env: Platform): (calls: seq<BackendCall>)
    ensures |calls| <= 1
    ensures VaapiDone in calls <==> env.enableVaapi
    ensures forall c :: c in calls ==> c == VaapiDone
  {
    if env.enableVaapi then [VaapiDone] else []
  }
}
