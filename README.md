# tvheadend transcoder: hardware-acceleration dispatch

A Dafny model of `src/transcoding/transcode/hwaccels/hwaccels.c`. This layer
sits between tvheadend's transcoder and the VAAPI backend. It does four things:

- It picks the pixel format a decoder gets. libavcodec offers a list of
  candidates ended by `AV_PIX_FMT_NONE`, and the layer takes the first one
  that is a hardware format and whose decode setup succeeds.
- It tears down the decode context attached to a stream.
- It answers the scale and deinterlace filter queries.
- It forwards encode setup and close, and module shutdown, to the backend.

The per-stream operations (decode setup, decode close, the two filter
queries, encode setup and encode close) dispatch on the stream's pixel
format. Only `AV_PIX_FMT_VAAPI` reaches a backend, and only when VAAPI
support is compiled in. The config lookup (`find_hwconfig`,
`check_pix_fmt`) dispatches on nothing: it only searches the decoder's list.
Module shutdown (`hwaccels_done`) is the exception: it calls `vaapi_done`
whenever VAAPI is compiled in, with no format involved.

Files:

- `libav.dfy` (module `LibAv`) holds what the layer consults but does not
  implement. These are pixel formats and their descriptors (`av_pix_fmt_desc_get`),
  a codec's hardware-config list (`avcodec_get_hw_config`), the VAAPI
  backend's status codes, `AVERROR(ENOENT)`, and the record of backend calls.
  Each is an oracle: a value or a function fixed by the caller.
- `hwaccels.dfy` (module `HwAccels`) holds the layer itself:
  - `CodecParams` is `AVCodecParameters`, with a mutable `format`.
  - `TvhContext` is the transcoder record behind `par->opaque`, with its
    nullable `hw_accel_ictx` slot.
  - The two loops (`find_hwconfig` and `hwaccels_decode_get_format`) are
    methods, proved equal to recursive functions. Lemmas characterise those
    functions.
  - The teardown is a method that clears the slot.
  - The switch dispatches are functions.

Modelling choices:

- A backend call is an event. The functions return the events they cause,
  in order, in a `Dispatch(ret, calls)` record. The methods return them in a
  ghost out-parameter `calls`. "No backend call" is then `calls == []`.
- The `ENABLE_VAAPI` compile-time switch is the boolean `enableVaapi` of the
  `Platform` record. That record is fixed for a run, so each lemma holds for
  both builds.
- Pixel formats are `FmtNone`, `FmtVaapi` and `FmtOther(id)`. The numeric
  values of the enum play no part in the layer.

Two behaviours of the code worth noting:

- When no candidate is accepted, `hwaccels_decode_get_format` does not
  return `AV_PIX_FMT_NONE`. It returns the last candidate it assigned before
  the terminator (lines 98, 103 and 112). It returns `AV_PIX_FMT_NONE` only
  for an empty list. In libavcodec's candidate lists the last entry is
  usually the software format, so this acts as the software fallback.
  `NegotiateNoneAccepted`, `NegotiateUnflaggedOnly` and the second ensures of
  `DecodeGetFormat` state this.
- The native-support check is made inside decode setup (hwaccels.c:77-81),
  not in the negotiation loop. A candidate that fails it gets
  `AVERROR(ENOENT)` (-2), and the scan moves on.

The source does not compile as written, and the model reads it as follows:

- Line 96 declares `pix_fmt` and line 102 reads `pix_fmts`. Both are the one
  candidate list.
- Line 117 misspells `AVCodecParameters`.
- Lines 67 and 105 read `par->codecpar`. The model takes this as the codec
  (`CodecParams.codec`), which supplies the hardware-config list and the name.

## Model

| member | source | states |
|---|---|---|
| `HwAccels.LiveCount` | src/transcoding/transcode/hwaccels/hwaccels.c:56-59 | the number of configs the lookup can reach: every entry before it is non-null, and the entry it points at, if any, is null |
| `HwAccels.FirstHwConfigIsFirstMatch` | src/transcoding/transcode/hwaccels/hwaccels.c:50-64 | the lookup finds a config iff some config before the first null has the format; the one found is the lowest-index such config |
| `HwAccels.FirstHwConfig` | src/transcoding/transcode/hwaccels/hwaccels.c:50-64 | the recursive definition of the lookup: a config it answers has the queried format and is an entry of the list (its first-match property is the lemma below) |
| `HwAccels.FindHwConfig` | src/transcoding/transcode/hwaccels/hwaccels.c:50-64 | the loop's answer equals the recursive definition; it is non-null iff the format is natively supported, and it is then the first matching entry before the first null |
| `HwAccels.CheckPixFmt` | src/transcoding/transcode/hwaccels/hwaccels.c:65-68 | true exactly when the decoder reports no native hardware config for the format |
| `HwAccels.DecodeSetupContext` | src/transcoding/transcode/hwaccels/hwaccels.c:71-91 | an unsupported format gives `AVERROR(ENOENT)` with no backend call; a supported format other than VAAPI, or any format with VAAPI compiled out, gives -1 with no call; the backend is called iff the format is supported VAAPI with VAAPI enabled; status 0 is possible only then |
| `HwAccels.SentinelIndex` | src/transcoding/transcode/hwaccels/hwaccels.c:102 | the scan stops at the first `AV_PIX_FMT_NONE`, and no earlier entry is the terminator |
| `HwAccels.Negotiate` | src/transcoding/transcode/hwaccels/hwaccels.c:98-112 | the recursive definition of the negotiation scan: it makes only decode-setup backend calls, at most one per candidate (its selection rule is the lemmas below) |
| `HwAccels.AttemptCalls` | src/transcoding/transcode/hwaccels/hwaccels.c:104-107 | the setup calls for candidates that are tried in turn: only decode-setup calls, and none when no candidate has a descriptor with the HWACCEL flag |
| `HwAccels.NegotiateFirstAccepted` | src/transcoding/transcode/hwaccels/hwaccels.c:102-110 | negotiation returns the first candidate with a descriptor, the HWACCEL flag and setup status 0; the backend calls are those of the tried candidates up to it, none for later ones and none for unflagged ones |
| `HwAccels.NegotiateNoneAccepted` | src/transcoding/transcode/hwaccels/hwaccels.c:98-112 | when no candidate is accepted, negotiation returns the last candidate (the initial `AV_PIX_FMT_NONE` for an empty list) after trying every candidate |
| `HwAccels.NegotiateReturnsCandidate` | src/transcoding/transcode/hwaccels/hwaccels.c:98-112 | the result is the initial value only for an empty list, and otherwise one of the candidates |
| `HwAccels.NegotiateSkipsFormatWithoutBackend` | src/transcoding/transcode/hwaccels/hwaccels.c:82-110 | a supported, flagged format with no backend is passed over for the VAAPI candidate after it, with one backend call |
| `HwAccels.NegotiateUnflaggedOnly` | src/transcoding/transcode/hwaccels/hwaccels.c:102-112 | a list holding one candidate without the HWACCEL flag yields that candidate and no backend call |
| `HwAccels.DecodeGetFormat` | src/transcoding/transcode/hwaccels/hwaccels.c:94-113 | the loop's format and its backend calls are those of the recursive negotiation over the candidates before the terminator; the result is `AV_PIX_FMT_NONE` iff the list is empty |
| `HwAccels.DecodeCloseContext` | src/transcoding/transcode/hwaccels/hwaccels.c:116-133 | afterwards the slot is null; the backend close is called iff a context was attached and the format is VAAPI with VAAPI enabled; with no context attached nothing changes and nothing is called |
| `HwAccels.DecodeCloseTwice` | src/transcoding/transcode/hwaccels/hwaccels.c:116-133 | a second close in a row makes no backend call, and the slot stays null and the format unchanged |
| `HwAccels.GetScaleFilter` | src/transcoding/transcode/hwaccels/hwaccels.c:136-154 | -1 without a backend call whenever the slot is null, the format is not VAAPI or VAAPI is compiled out; otherwise the backend's answer from one call |
| `HwAccels.GetDeintFilter` | src/transcoding/transcode/hwaccels/hwaccels.c:157-174 | the same rule as the scale query, for the deinterlace filter |
| `HwAccels.EncodeSetupContext` | src/transcoding/transcode/hwaccels/hwaccels.c:179-191 | 0 with no backend call for any format other than VAAPI (or with VAAPI compiled out); otherwise the backend's status from one call |
| `HwAccels.EncodeCloseContext` | src/transcoding/transcode/hwaccels/hwaccels.c:194-206 | the backend close is called, once, iff the format is VAAPI with VAAPI enabled |
| `HwAccels.Done` | src/transcoding/transcode/hwaccels/hwaccels.c:217-223 | `vaapi_done` is called exactly once iff VAAPI is enabled, and nothing else is called |

The filter queries and the encode hooks are functions, so they cannot change
the slot or the format.

## Left out

- The VAAPI backend. It is foreign code.
  - `vaapi_decode_setup_context`, `vaapi_get_scale_filter`, `vaapi_get_deint_filter` and `vaapi_encode_setup_context` return a status. Each is a status code fixed by the caller (a field of `VaapiOracle`) plus a logged call.
  - `vaapi_decode_close_context`, `vaapi_encode_close_context` and `vaapi_done` return nothing. Each is only a logged call.
- The effect of the backend on the stream. In particular, decode setup attaching a context to `hw_accel_ictx` is done by `vaapi_decode_setup_context`, so "after a successful setup the slot is non-null" is not modelled.
- Each backend status code is one fixed value per run. A backend whose answer changes between calls is not modelled.
- The filter-string buffers (`filter`, `filter_len`) and their contents. They are filled by the backend. The output parameters of the scale query (`opar`) are passed along but not used.
- libavcodec and libavutil internals: `avcodec_get_hw_config`, `av_pix_fmt_desc_get` and `av_hwaccel_next`. They are oracles.
- The pre-58 branch (`find_hwaccel` and its `check_pix_fmt`, lines 32-48). The native-support oracle stands in for it.
- Logging (`tvherror`, `tvhtrace`). It has no effect on results.
- `hwaccels_init` (lines 211-214). It is empty.
- Concurrency between sessions, and the `#if` preprocessor configuration itself. The latter is replaced by the `enableVaapi` boolean.
