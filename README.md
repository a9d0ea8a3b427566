# swiftsave yt-dlp bridge, modelled in Dafny

The swiftsave app downloads media through a small bridge around the yt-dlp engine:
a Python module (`downloader.py`) that configures the engine, classifies what it
returns and reshapes its results, and an Android plugin (`YtdlpBridgePlugin.kt`) that
validates the application's method calls and files finished downloads into MediaStore.
This project models the decision logic of both and proves what it promises.

- `common.dfy` (`Common`): optional values, Python truthiness, ASCII lower-casing,
  substring tests, decimal rendering and parsing, comma joining and splitting, and the
  list comprehensions (filter, map, drop nulls) the bridge uses.
- `error_classifier.dfy` (`ErrorClassifier`): `_parse_error_code` as an ordered list of
  (trigger, payload) rules, first match wins.
- `media.dfy` (`Media`): the engine's info and format records, `_is_image_format`,
  `_detect_media_type` and `_is_live_content`.
- `progress.dfy` (`Progress`): `_build_progress_payload` with exact rational progress.
- `cancel_registry.dfy` (`CancelRegistry`): the module-global cancel set as a class with
  `cancel_download`, `_is_cancelled`, `_clear_cancelled` and the progress hook, and whole
  download sessions run against it.
- `ydl_options.dfy` (`YdlOptions`): the option dictionaries of `_get_base_ydl_opts`,
  `get_media_info`, `download_media` and `download_video`, built step by step by methods
  and specified by functions; the format selectors and output templates.
- `results.dfy` (`Results`): the exception-to-result mapping, the format, entry, gallery
  and file-name loops, and the results of `get_media_info`, `download_media`,
  `download_video`, `get_video_info` and `get_supported_sites`.
- `plugin.dfy` (`Plugin`): the extension-to-MIME table, the MediaStore relative path and
  collection, and the validation and defaults of `onMethodCall`.

Everything the engine does (extraction, downloading, `prepare_filename`, the list of
extractors) is an input: the engine's answer is a value `Returned(info)` or
`Raised(error)`, and `prepare_filename` is a function parameter. `os.path.exists` answers
and the random user-agent draw are inputs too.

Behaviour of the code that is easy to misread, which the model follows as written:

- FORMAT_UNAVAILABLE is tested before FFMPEG_REQUIRED, so a message with "format",
  "unavailable" and "ffmpeg" is never FFMPEG_REQUIRED; it is FORMAT_UNAVAILABLE unless an
  earlier rule fires, as the rate-limit rule does on "HTTP Error 429"
  (`ErrorClassifier.FormatPreemptsFfmpeg`).
- `download_media` checks for live content only after `extract_info(url, download=True)`
  has returned; the model states the check on the returned info and does not claim it
  prevents the download (`Results.LiveDownloadReported`).
- A single item is an image only for the seven extensions without "tiff", while gallery
  entries use the eight-extension list (`Media.TiffOnlyInGalleryList`).
- The cancel registry is a plain set: two cancels of the same id before a tick collapse
  into one (`CancelRegistry.CancelIdempotent`).

## Model

| member | source | states |
|---|---|---|
| Common.ContainsLower | plugins/ytdlp_bridge/android/src/main/python/downloader.py:47 | a word occurring in a message still occurs, lower-cased, in the lower-cased message |
| Common.LowerIdempotent | plugins/ytdlp_bridge/android/src/main/python/downloader.py:47 | lower-casing twice is lower-casing once |
| Common.ParseIntToString | plugins/ytdlp_bridge/android/src/main/python/downloader.py:885 | `int(str(i)) == i` for every integer |
| Common.SplitJoin | plugins/ytdlp_bridge/android/src/main/python/downloader.py:885 | splitting a comma-join of comma-free pieces gives the pieces back |
| Common.Take | plugins/ytdlp_bridge/android/src/main/python/downloader.py:562 | `s[:n]` has `min(len(s), n)` elements and is a prefix of `s` |
| Common.FilterMembers | plugins/ytdlp_bridge/android/src/main/python/downloader.py:428 | a comprehension with a condition keeps exactly the elements that satisfy it |
| Common.PresentMembers | plugins/ytdlp_bridge/android/src/main/python/downloader.py:931-933 | dropping nulls keeps every present value and shortens the list exactly when a null is there |
| ErrorClassifier.Classify | plugins/ytdlp_bridge/android/src/main/python/downloader.py:41-198 | `_parse_error_code`: the payload of the first rule firing on the lower-cased message, else UNKNOWN_ERROR; proved about it by FirstFiringRuleWins, UnknownIffNoRuleFires, RuleFacts and the lemmas below |
| ErrorClassifier.FirstMatch | plugins/ytdlp_bridge/android/src/main/python/downloader.py:51-198 | the index found is of a firing rule with no firing rule before it; none is found exactly when no rule fires |
| ErrorClassifier.RuleFacts | plugins/ytdlp_bridge/android/src/main/python/downloader.py:51-192 | no rule yields a reserved code; only the rate-limit rule carries `retry_after`, and it is 300 |
| ErrorClassifier.FirstFiringRuleWins | plugins/ytdlp_bridge/android/src/main/python/downloader.py:47-198 | the first rule that fires on the lower-cased message decides the result |
| ErrorClassifier.UnknownIffNoRuleFires | plugins/ytdlp_bridge/android/src/main/python/downloader.py:194-198 | UNKNOWN_ERROR exactly when no rule fires, with the original message unchanged and no suggestion |
| ErrorClassifier.RetryAfterOnlyWhenRateLimited | plugins/ytdlp_bridge/android/src/main/python/downloader.py:51-57 | `retry_after` appears exactly on RATE_LIMITED, always 300 |
| ErrorClassifier.ClassifierNeverReservedCodes | plugins/ytdlp_bridge/android/src/main/python/downloader.py:47-198 | the classifier never yields GEO_RESTRICTED, CANCELLED or UPCOMING_STREAM, nor the `is_live`/`cancelled` extras |
| ErrorClassifier.Http429IsRateLimited | plugins/ytdlp_bridge/android/src/main/python/downloader.py:47-57 | a message containing "http error 429" in any letter case gives the RATE_LIMITED payload |
| ErrorClassifier.RateLimitPreemptsForbidden | plugins/ytdlp_bridge/android/src/main/python/downloader.py:51-113 | a message that fires both the 429 and the 403 rule is RATE_LIMITED |
| ErrorClassifier.FormatPreemptsFfmpeg | plugins/ytdlp_bridge/android/src/main/python/downloader.py:146-160 | a message with "format" and "unavailable"/"not available" is never FFMPEG_REQUIRED |
| ErrorClassifier.FormatRuleFires | plugins/ytdlp_bridge/android/src/main/python/downloader.py:146 | the format rule fires on "format" with either companion word |
| Media.IsImageFormat | plugins/ytdlp_bridge/android/src/main/python/downloader.py:574-577 | `_is_image_format`: the lower-cased extension is in the eight-extension list; proved about it by ImageFormatIgnoresCase and TiffOnlyInGalleryList |
| Media.DetectMediaType | plugins/ytdlp_bridge/android/src/main/python/downloader.py:580-606 | `_detect_media_type`: gallery, playlist, image, audio or video; proved about it by MultiEntryDetection, SingleItemImage, SingleItemAudioOrVideo and NoFormatsIsVideo |
| Media.IsLiveContent | plugins/ytdlp_bridge/android/src/main/python/downloader.py:201-217 | `_is_live_content`; proved about it by LiveIff and LiveMarkerInTitle |
| Media.MultiEntryDetection | plugins/ytdlp_bridge/android/src/main/python/downloader.py:583-588 | with more than one entry: gallery exactly when the first entry is an image, else playlist |
| Media.SingleItemImage | plugins/ytdlp_bridge/android/src/main/python/downloader.py:590-596 | a single item is always classified, and is an image exactly for the seven-extension list |
| Media.SingleItemAudioOrVideo | plugins/ytdlp_bridge/android/src/main/python/downloader.py:598-606 | a single non-image is audio exactly when some format has audio and none video, else video |
| Media.NoFormatsIsVideo | plugins/ytdlp_bridge/android/src/main/python/downloader.py:598-606 | a single non-image without formats is video |
| Media.TiffOnlyInGalleryList | plugins/ytdlp_bridge/android/src/main/python/downloader.py:577-595 | the two image lists differ exactly in "tiff" |
| Media.ImageFormatIgnoresCase | plugins/ytdlp_bridge/android/src/main/python/downloader.py:574-577 | the image test depends only on the lower-cased extension, and lower-casing it first changes nothing |
| Media.LiveIff | plugins/ytdlp_bridge/android/src/main/python/downloader.py:201-217 | live exactly for `is_live is True`, the three live statuses or a title marker; a null info is not live |
| Media.LiveMarkerInTitle | plugins/ytdlp_bridge/android/src/main/python/downloader.py:212-215 | a title containing "[live]" in any letter case makes the content live |
| Progress.BuildProgressPayload | plugins/ytdlp_bridge/android/src/main/python/downloader.py:333-380 | `_build_progress_payload`; proved about it by ProgressInUnitInterval, FinishedIsComplete, ProgressWhenNotFinished and the lemmas below |
| Progress.Clamp01 | plugins/ytdlp_bridge/android/src/main/python/downloader.py:350 | the clamp lies in [0, 1] and leaves values inside it unchanged |
| Progress.ProgressInUnitInterval | plugins/ytdlp_bridge/android/src/main/python/downloader.py:344-358 | progress, when present, lies in [0, 1] |
| Progress.FinishedIsComplete | plugins/ytdlp_bridge/android/src/main/python/downloader.py:354-355 | a finished event reports exactly 1.0 |
| Progress.ProgressWhenNotFinished | plugins/ytdlp_bridge/android/src/main/python/downloader.py:344-352 | otherwise progress exists exactly when downloaded is present and the total positive, and is the clamped quotient |
| Progress.ProgressIsFractionInRange | plugins/ytdlp_bridge/android/src/main/python/downloader.py:348-350 | with 0 <= downloaded <= total, progress is downloaded / total |
| Progress.TotalFallsBackToEstimate | plugins/ytdlp_bridge/android/src/main/python/downloader.py:345-346 | the total is `total_bytes`, or the estimate when it is absent or 0 |
| Progress.NoTotalNoProgress | plugins/ytdlp_bridge/android/src/main/python/downloader.py:348 | without a positive total there is no progress |
| Progress.ItemFieldsFallback | plugins/ytdlp_bridge/android/src/main/python/downloader.py:369-370 | item index and count fall back to autonumber and `n_entries` when falsy |
| Progress.PassThroughFields | plugins/ytdlp_bridge/android/src/main/python/downloader.py:360-379 | counters, speed and eta pass through; no `info_dict` means no item fields |
| Progress.QuarterExample | plugins/ytdlp_bridge/android/src/main/python/downloader.py:344-352 | 50 of 200 bytes is 0.25 |
| CancelRegistry.CancelSpec | plugins/ytdlp_bridge/android/src/main/python/downloader.py:298-302 | `cancel_download` on the set: adds a truthy id; the class method Registry.Cancel is proved against it |
| CancelRegistry.Tick | plugins/ytdlp_bridge/android/src/main/python/downloader.py:827-848 | one call of the progress hook: cancelled, emitted or ignored, and the new set; proved about it by TickProtocol and CancelIsConsumedOnce |
| CancelRegistry.RunSession | plugins/ytdlp_bridge/android/src/main/python/downloader.py:827-848 | a whole download against the set, ending at the first cancelled tick; proved about it by SessionCancelledIff, UncancelledSession and SessionIsolation |
| CancelRegistry.Registry.IsCancelled | plugins/ytdlp_bridge/android/src/main/python/downloader.py:305-306 | `_is_cancelled`: membership of the id in the set |
| CancelRegistry.Registry.constructor | plugins/ytdlp_bridge/android/src/main/python/downloader.py:25 | the registry starts empty |
| CancelRegistry.Registry.Cancel | plugins/ytdlp_bridge/android/src/main/python/downloader.py:298-302 | answers true and adds the id exactly when it is truthy |
| CancelRegistry.Registry.Clear | plugins/ytdlp_bridge/android/src/main/python/downloader.py:309-310 | removes that id and nothing else |
| CancelRegistry.Registry.ProgressTick | plugins/ytdlp_bridge/android/src/main/python/downloader.py:827-848 | the hook's outcome and new registry are those of one tick against the old registry |
| CancelRegistry.TickProtocol | plugins/ytdlp_bridge/android/src/main/python/downloader.py:829-834 | a tick cancels exactly when it observes the flag, and then removes only that id |
| CancelRegistry.CancelIsConsumedOnce | plugins/ytdlp_bridge/android/src/main/python/downloader.py:831-833 | after a cancelled tick the next tick for the same id is not cancelled |
| CancelRegistry.CancelIdempotent | plugins/ytdlp_bridge/android/src/main/python/downloader.py:298-302 | cancelling twice is cancelling once |
| CancelRegistry.FlagShift | plugins/ytdlp_bridge/android/src/main/python/downloader.py:298-302 | a cancel request at the head of a run raises the flag for the rest of it |
| CancelRegistry.FlagShiftTick | plugins/ytdlp_bridge/android/src/main/python/downloader.py:827-834 | an engine tick at the head of a run does not raise the flag |
| CancelRegistry.SessionCancelledIff | plugins/ytdlp_bridge/android/src/main/python/downloader.py:827-834 | a download is cancelled exactly when an observing tick finds the flag already raised |
| CancelRegistry.UncancelledSession | plugins/ytdlp_bridge/android/src/main/python/downloader.py:827-848 | an uncancelled download emits every observing tick's payload in order and keeps all requests |
| CancelRegistry.SessionIsolation | plugins/ytdlp_bridge/android/src/main/python/downloader.py:298-310 | a download never removes another task's flag and adds only requested ids |
| CancelRegistry.NoCallbackNeverCancelled | plugins/ytdlp_bridge/android/src/main/python/downloader.py:830 | without a callback or a truthy task id a download is never cancelled |
| YdlOptions.BaseOptions | plugins/ytdlp_bridge/android/src/main/python/downloader.py:220-295 | the `_get_base_ydl_opts` dictionary; the method BaseYdlOpts is proved against it, and BaseDefaults, BaseConcurrency, BaseAntiBan and BaseProxyAndCookies state its contents |
| YdlOptions.HeightLimit | plugins/ytdlp_bridge/android/src/main/python/downloader.py:899-905 | `max_quality or default` rendered as text; proved about it by HeightCapDefaults and NotInRendering |
| YdlOptions.FormatSelector | plugins/ytdlp_bridge/android/src/main/python/downloader.py:875-910 | the `format` of a `download_media` request; proved about it by NoMuxerNoMerge, MuxerBestMerges, ExplicitIdFallsBack, ImageAndAudioSelectors and OtherTypesAreVideo |
| YdlOptions.TemplateName | plugins/ytdlp_bridge/android/src/main/python/downloader.py:877-912 | the output template name per request kind; proved about it by TemplateUnderOutputPath and TemplateShapes |
| YdlOptions.PlaylistItems | plugins/ytdlp_bridge/android/src/main/python/downloader.py:884-885 | the one-based comma-joined selection; proved about it by PlaylistItemsRoundTrip |
| YdlOptions.DownloadMediaOptions | plugins/ytdlp_bridge/android/src/main/python/downloader.py:851-912 | the `download_media` dictionary; the method DownloadMediaOpts is proved against it, and DownloadKeepsBase, DownloadFfmpegUse, DownloadSubtitles and DownloadSelection state its contents |
| YdlOptions.RandomUserAgent | plugins/ytdlp_bridge/android/src/main/python/downloader.py:36-38 | draw `c` sends rotation-list entry `c` modulo the list length |
| YdlOptions.BaseYdlOpts | plugins/ytdlp_bridge/android/src/main/python/downloader.py:220-295 | the dictionary built step by step is the specified base dictionary |
| YdlOptions.BaseDefaults | plugins/ytdlp_bridge/android/src/main/python/downloader.py:238-262 | retries, timeout, resume, chunk size and the output defaults are always set |
| YdlOptions.BaseConcurrency | plugins/ytdlp_bridge/android/src/main/python/downloader.py:253 | four concurrent fragments unless a non-zero number is asked for |
| YdlOptions.BaseAntiBan | plugins/ytdlp_bridge/android/src/main/python/downloader.py:267-286 | the anti-ban switch sets the six anti-ban options as promised, or none |
| YdlOptions.BaseProxyAndCookies | plugins/ytdlp_bridge/android/src/main/python/downloader.py:288-293 | proxy exactly when a non-empty one is given; cookie file exactly when given and present |
| YdlOptions.SleepBounds | plugins/ytdlp_bridge/android/src/main/python/downloader.py:268-275 | sleep is non-negative, `max_sleep_interval = max(5, sleep)`, the user agent is the caller's or from the list |
| YdlOptions.RotationPick | plugins/ytdlp_bridge/android/src/main/python/downloader.py:28-38 | five agents, draw `c` picks entry `c % 5` |
| YdlOptions.MediaInfoOpts | plugins/ytdlp_bridge/android/src/main/python/downloader.py:653-659 | the `get_media_info` options: base with anti-ban, quiet, no flat extraction, no download options |
| YdlOptions.FormatOptions | plugins/ytdlp_bridge/android/src/main/python/downloader.py:875-912 | format, template, gallery selection and merge format by media type and format id |
| YdlOptions.DownloadMediaOpts | plugins/ytdlp_bridge/android/src/main/python/downloader.py:851-912 | the dictionary built step by step is the specified `download_media` dictionary |
| YdlOptions.DownloadKeepsBase | plugins/ytdlp_bridge/android/src/main/python/downloader.py:851-860 | `download_media` keeps every base option with anti-ban measures on |
| YdlOptions.DownloadFfmpegUse | plugins/ytdlp_bridge/android/src/main/python/downloader.py:862-901 | FFmpeg location exactly when the binary exists; mp4 muxing only for "best" video with FFmpeg |
| YdlOptions.DownloadSubtitles | plugins/ytdlp_bridge/android/src/main/python/downloader.py:865-872 | subtitles exactly when asked; languages only when given; embedding only with FFmpeg |
| YdlOptions.DownloadSelection | plugins/ytdlp_bridge/android/src/main/python/downloader.py:875-912 | the format and template of the request's kind; `playlist_items` only for a gallery with a selection |
| YdlOptions.DownloadVideoOpts | plugins/ytdlp_bridge/android/src/main/python/downloader.py:474-521 | the `download_video` dictionary: its format choice, template and fixed options, and every other key unset |
| YdlOptions.NotInRendering | plugins/ytdlp_bridge/android/src/main/python/downloader.py:900-905 | no character other than a digit or '-' occurs in a rendered height |
| YdlOptions.NoMuxerNoMerge | plugins/ytdlp_bridge/android/src/main/python/downloader.py:887-910 | without FFmpeg no selector contains '+' unless the caller's own id does |
| YdlOptions.MuxerBestMerges | plugins/ytdlp_bridge/android/src/main/python/downloader.py:896-901 | with FFmpeg, "best" video is the bestvideo+bestaudio selector at height `max_quality or 2160` |
| YdlOptions.HeightCapDefaults | plugins/ytdlp_bridge/android/src/main/python/downloader.py:899-905 | the height cap is `max_quality` when non-zero, else 2160 with FFmpeg and 1080 without |
| YdlOptions.ExplicitIdFallsBack | plugins/ytdlp_bridge/android/src/main/python/downloader.py:908-910 | an explicit video id is tried first, then 720p, then anything |
| YdlOptions.ImageAndAudioSelectors | plugins/ytdlp_bridge/android/src/main/python/downloader.py:875-891 | images and galleries take "best"; audio takes the m4a/aac preference or the caller's id |
| YdlOptions.OtherTypesAreVideo | plugins/ytdlp_bridge/android/src/main/python/downloader.py:875-894 | every media type other than image, gallery and audio is handled as video |
| YdlOptions.PathJoinKeepsParts | plugins/ytdlp_bridge/android/src/main/python/downloader.py:877 | joining a relative name keeps the directory as prefix and the name as suffix |
| YdlOptions.TemplateUnderOutputPath | plugins/ytdlp_bridge/android/src/main/python/downloader.py:877-912 | every output template lies under the output directory |
| YdlOptions.TemplateShapes | plugins/ytdlp_bridge/android/src/main/python/downloader.py:880-912 | video names carry the epoch, gallery names the playlist index |
| YdlOptions.PlaylistItemsRoundTrip | plugins/ytdlp_bridge/android/src/main/python/downloader.py:884-885 | the selection string splits back into the one-based positions |
| Results.InfoFailure | plugins/ytdlp_bridge/android/src/main/python/downloader.py:773-798 | the `get_media_info` exception mapping; proved about it by InfoFailureCodes and UnsupportedPayloadsAgree |
| Results.DownloadFailure | plugins/ytdlp_bridge/android/src/main/python/downloader.py:949-981 | the `download_media` exception mapping; proved about it by DownloadFailureCodes |
| Results.InfoFailureCodes | plugins/ytdlp_bridge/android/src/main/python/downloader.py:773-798 | GEO_RESTRICTED exactly for the geo exception; never CANCELLED; other exceptions are classified |
| Results.DownloadFailureCodes | plugins/ytdlp_bridge/android/src/main/python/downloader.py:949-981 | CANCELLED with the `cancelled` flag exactly for the cancellation exception; otherwise as `get_media_info` |
| Results.UnsupportedPayloadsAgree | plugins/ytdlp_bridge/android/src/main/python/downloader.py:780-786 | the fixed UNSUPPORTED_SITE payload equals the payload of the classifier's unsupported-URL rule (lines 162-168) |
| Results.VideoFormats | plugins/ytdlp_bridge/android/src/main/python/downloader.py:624-639 | the loop's rows are those of the formats with a video or audio stream, in order |
| Results.AudioFormats | plugins/ytdlp_bridge/android/src/main/python/downloader.py:609-621 | the loop's rows are those of the formats with an audio stream, in order |
| Results.VideoListMembers | plugins/ytdlp_bridge/android/src/main/python/downloader.py:627-628 | a video row exists for exactly the formats with some stream |
| Results.AudioListMembers | plugins/ytdlp_bridge/android/src/main/python/downloader.py:612-613 | an audio row exists for exactly the formats with audio |
| Results.AudioListNoLongerThanVideoList | plugins/ytdlp_bridge/android/src/main/python/downloader.py:609-639 | the audio list is never longer than the video list |
| Results.DetectedAudioHasAudioRows | plugins/ytdlp_bridge/android/src/main/python/downloader.py:599-603 | an item detected as audio has a non-empty audio list |
| Results.PlaylistEntries | plugins/ytdlp_bridge/android/src/main/python/downloader.py:748-754 | no entries gives no rows; row `k` is that of the `k`-th non-null entry and there is one per non-null entry; all entries give rows exactly when none is null |
| Results.GalleryItems | plugins/ytdlp_bridge/android/src/main/python/downloader.py:689-701 | the loop gives the specified items, or the null-entry failure |
| Results.GalleryItemPerEntry | plugins/ytdlp_bridge/android/src/main/python/downloader.py:690-701 | without nulls, one item per entry, in order, typed by the image test |
| Results.PresentAllSome | plugins/ytdlp_bridge/android/src/main/python/downloader.py:931-933 | without nulls, dropping nulls keeps every element in place |
| Results.Description | plugins/ytdlp_bridge/android/src/main/python/downloader.py:768 | the description (also at lines 448 and 710) is the prefix of exactly `min(len, 200)` characters, unchanged when shorter |
| Results.MediaInfoOf | plugins/ytdlp_bridge/android/src/main/python/downloader.py:661-798 | the `get_media_info` result of the engine answer; the method GetMediaInfo is proved against it, and LiveShortCircuit, ShapeFollowsDetection and GalleryCounts state it |
| Results.GetMediaInfo | plugins/ytdlp_bridge/android/src/main/python/downloader.py:661-798 | the method's result is the specified `get_media_info` result |
| Results.LiveShortCircuit | plugins/ytdlp_bridge/android/src/main/python/downloader.py:666-682 | live content is UPCOMING_STREAM exactly for `is_upcoming`, else LIVE_STREAM with `is_live` |
| Results.UpcomingOnlyFromLiveCheck | plugins/ytdlp_bridge/android/src/main/python/downloader.py:666-674 | UPCOMING_STREAM only ever comes from the live check |
| Results.ShapeFollowsDetection | plugins/ytdlp_bridge/android/src/main/python/downloader.py:685-771 | content that is not live is described by its detected type |
| Results.GalleryCounts | plugins/ytdlp_bridge/android/src/main/python/downloader.py:689-711 | a gallery reports one item per entry and that count |
| Results.DownloadedFiles | plugins/ytdlp_bridge/android/src/main/python/downloader.py:930-933 | the loop names the file of each non-null entry, in order |
| Results.DownloadResultOf | plugins/ytdlp_bridge/android/src/main/python/downloader.py:914-981 | the `download_media` result of the engine answer; the method DownloadMediaResult is proved against it, and ManyFilesCount, LiveDownloadReported and DownloadCancelledIff state it |
| Results.DownloadMediaResult | plugins/ytdlp_bridge/android/src/main/python/downloader.py:914-981 | the method's result is the specified `download_media` result |
| Results.ManyFilesCount | plugins/ytdlp_bridge/android/src/main/python/downloader.py:928-939 | a multi-entry download lists, at position `k`, the file of the `k`-th non-null entry, one per non-null entry, and counts them |
| Results.LiveDownloadReported | plugins/ytdlp_bridge/android/src/main/python/downloader.py:919-925 | live content that was returned is reported as LIVE_STREAM without `is_live` |
| Results.DownloadCancelledIff | plugins/ytdlp_bridge/android/src/main/python/downloader.py:949-955 | CANCELLED exactly when the engine raised the cancellation |
| Results.SessionCancelReported | plugins/ytdlp_bridge/android/src/main/python/downloader.py:949-955 | a download reports CANCELLED exactly when its session was cancelled, that is, when an observing tick found the flag raised |
| Results.DownloadVideoResult | plugins/ytdlp_bridge/android/src/main/python/downloader.py:474-545 | the `download_video` result of the engine answer; proved about it by DownloadVideoFailures |
| Results.DownloadVideoFailures | plugins/ytdlp_bridge/android/src/main/python/downloader.py:533-545 | `download_video` reports a cancellation like `download_media` and any other failure as its message |
| Results.VideoInfoOf | plugins/ytdlp_bridge/android/src/main/python/downloader.py:400-456 | the `get_video_info` result of the engine answer; the method GetVideoInfo is proved against it, and VideoInfoAgreesWithMediaInfo relates it to `get_media_info` |
| Results.GetVideoInfo | plugins/ytdlp_bridge/android/src/main/python/downloader.py:400-456 | the method's result is the specified `get_video_info` result |
| Results.VideoInfoAgreesWithMediaInfo | plugins/ytdlp_bridge/android/src/main/python/downloader.py:422-450 | for a single video both info calls agree on title, description and formats |
| Results.SupportedSites | plugins/ytdlp_bridge/android/src/main/python/downloader.py:554-570 | the `get_supported_sites` result; proved about it by SitesCapped |
| Results.SitesCapped | plugins/ytdlp_bridge/android/src/main/python/downloader.py:556-562 | at most 100 sites, a prefix of the named ones; the count is the full number |
| Plugin.CollapseSlashes | plugins/ytdlp_bridge/android/src/main/kotlin/com/example/ytdlp_bridge/YtdlpBridgePlugin.kt:364 | runs of "/" become one: the result has no doubled separator, keeps the last character, and equals a path that had none |
| Plugin.NormalizePath | plugins/ytdlp_bridge/android/src/main/kotlin/com/example/ytdlp_bridge/YtdlpBridgePlugin.kt:364 | the path `File(filePath)` holds: no doubled separator, no trailing "/" except the root, and a path already in that form unchanged |
| Plugin.CollapseAppendSegment | plugins/ytdlp_bridge/android/src/main/kotlin/com/example/ytdlp_bridge/YtdlpBridgePlugin.kt:364 | collapsing leaves a final segment without "/" untouched |
| Plugin.TrailingSlashIgnored | plugins/ytdlp_bridge/android/src/main/kotlin/com/example/ytdlp_bridge/YtdlpBridgePlugin.kt:364-372 | a trailing "/" changes neither the file name, nor the extension, nor the MIME type: "d/v.mp4/" is the video "v.mp4" |
| Plugin.FileName | plugins/ytdlp_bridge/android/src/main/kotlin/com/example/ytdlp_bridge/YtdlpBridgePlugin.kt:364-372 | `File(path).name`: the text after the last "/" of the path as `java.io.File` normalises it (runs of "/" collapsed, a trailing "/" dropped); proved about it by ExtensionOfJoinedPath and TrailingSlashIgnored |
| Plugin.FileExtension | plugins/ytdlp_bridge/android/src/main/kotlin/com/example/ytdlp_bridge/YtdlpBridgePlugin.kt:372 | `file.extension`: the text after the last "." of that name, or empty; proved about it by ExtensionOfJoinedPath and TrailingSlashIgnored |
| Plugin.MimeForExtension | plugins/ytdlp_bridge/android/src/main/kotlin/com/example/ytdlp_bridge/YtdlpBridgePlugin.kt:372-391 | the extension-to-MIME `when` table; proved about it by CategoryOfExtension, JpegSpellings and the per-group lemmas |
| Plugin.RelativePath | plugins/ytdlp_bridge/android/src/main/kotlin/com/example/ytdlp_bridge/YtdlpBridgePlugin.kt:396-401 | the MediaStore directory by MIME prefix; proved about it by PathAndCollectionAgree and CategoryOfExtension |
| Plugin.CollectionFor | plugins/ytdlp_bridge/android/src/main/kotlin/com/example/ytdlp_bridge/YtdlpBridgePlugin.kt:410-423 | the MediaStore collection by MIME prefix; proved about it by PathAndCollectionAgree |
| Plugin.MediaStoreTarget | plugins/ytdlp_bridge/android/src/main/kotlin/com/example/ytdlp_bridge/YtdlpBridgePlugin.kt:362-423 | what `saveToMediaStore` files, or nothing for a missing file, the type coming from the extension of the normalised path; proved about it by PathAndCollectionAgree, MimeTypeOfJoinedPath and TrailingSlashIgnored |
| Plugin.OnMethodCall | plugins/ytdlp_bridge/android/src/main/kotlin/com/example/ytdlp_bridge/YtdlpBridgePlugin.kt:57-341 | the dispatch and argument validation of `onMethodCall`; proved about it by DownloadMediaValidation, CancelValidation, UrlRequired, UnknownMethodsNotImplemented, FailureCodes and OptionalArgumentDefaults |
| Plugin.AfterLast | plugins/ytdlp_bridge/android/src/main/kotlin/com/example/ytdlp_bridge/YtdlpBridgePlugin.kt:372 | the text after the last separator, which holds none, or the default when there is none |
| Plugin.AfterLastOfAppend | plugins/ytdlp_bridge/android/src/main/kotlin/com/example/ytdlp_bridge/YtdlpBridgePlugin.kt:372 | what follows the last separator is recovered whatever precedes it |
| Plugin.ExtensionOfJoinedPath | plugins/ytdlp_bridge/android/src/main/kotlin/com/example/ytdlp_bridge/YtdlpBridgePlugin.kt:364-372 | `<dir>/<base>.<ext>` has name `<base>.<ext>` and extension `<ext>` |
| Plugin.MimeTypeOfJoinedPath | plugins/ytdlp_bridge/android/src/main/kotlin/com/example/ytdlp_bridge/YtdlpBridgePlugin.kt:372 | the MIME type depends only on the lower-cased extension |
| Plugin.UpperCaseJpeg | plugins/ytdlp_bridge/android/src/main/kotlin/com/example/ytdlp_bridge/YtdlpBridgePlugin.kt:372-384 | "JPG" is looked up as "jpg" |
| Plugin.JpegSpellings | plugins/ytdlp_bridge/android/src/main/kotlin/com/example/ytdlp_bridge/YtdlpBridgePlugin.kt:384 | "jpg" and "jpeg" both give image/jpeg |
| Plugin.VideoTypes | plugins/ytdlp_bridge/android/src/main/kotlin/com/example/ytdlp_bridge/YtdlpBridgePlugin.kt:373-397 | every video extension is stored under Movies |
| Plugin.AudioTypes | plugins/ytdlp_bridge/android/src/main/kotlin/com/example/ytdlp_bridge/YtdlpBridgePlugin.kt:378-398 | every audio extension is stored under Music |
| Plugin.ImageTypes | plugins/ytdlp_bridge/android/src/main/kotlin/com/example/ytdlp_bridge/YtdlpBridgePlugin.kt:384-399 | every image extension is stored under Pictures |
| Plugin.OtherTypes | plugins/ytdlp_bridge/android/src/main/kotlin/com/example/ytdlp_bridge/YtdlpBridgePlugin.kt:391-400 | an extension outside the table is an octet stream under Downloads |
| Plugin.OctetStreamDownloads | plugins/ytdlp_bridge/android/src/main/kotlin/com/example/ytdlp_bridge/YtdlpBridgePlugin.kt:391-400 | the octet-stream type is stored under Downloads |
| Plugin.CategoryOfExtension | plugins/ytdlp_bridge/android/src/main/kotlin/com/example/ytdlp_bridge/YtdlpBridgePlugin.kt:372-400 | each extension lands in its list's category, and exactly the unlisted ones are octet streams |
| Plugin.PythonImagesSavedAsImages | plugins/ytdlp_bridge/android/src/main/kotlin/com/example/ytdlp_bridge/YtdlpBridgePlugin.kt:384-416 | every extension the Python side calls an image is saved as an image |
| Plugin.PathAndCollectionAgree | plugins/ytdlp_bridge/android/src/main/kotlin/com/example/ytdlp_bridge/YtdlpBridgePlugin.kt:362-423 | relative path and collection always agree; nothing is saved exactly when the file is missing |
| Plugin.DownloadMediaValidation | plugins/ytdlp_bridge/android/src/main/kotlin/com/example/ytdlp_bridge/YtdlpBridgePlugin.kt:209-230 | rejected exactly without url or output path; otherwise both are passed with the documented defaults |
| Plugin.CancelValidation | plugins/ytdlp_bridge/android/src/main/kotlin/com/example/ytdlp_bridge/YtdlpBridgePlugin.kt:304-309 | rejected exactly without a task id; a dispatched cancel adds that id to the registry |
| Plugin.UrlRequired | plugins/ytdlp_bridge/android/src/main/kotlin/com/example/ytdlp_bridge/YtdlpBridgePlugin.kt:72-229 | the url-taking calls reject a null or empty url |
| Plugin.UnknownMethodsNotImplemented | plugins/ytdlp_bridge/android/src/main/kotlin/com/example/ytdlp_bridge/YtdlpBridgePlugin.kt:60-341 | not implemented exactly for a name outside the ten methods; only argument checks give INVALID_ARGUMENT |
| Plugin.FailureCodes | plugins/ytdlp_bridge/android/src/main/kotlin/com/example/ytdlp_bridge/YtdlpBridgePlugin.kt:57-341 | every dispatched call has its error code; rejected and unknown calls have none |
| Plugin.OptionalArgumentDefaults | plugins/ytdlp_bridge/android/src/main/kotlin/com/example/ytdlp_bridge/YtdlpBridgePlugin.kt:289-330 | browser defaults to "chrome"; storage is asked of the app's files directory without a path |

## Left out

- Engine calls (`YoutubeDL`, `extract_info`, `prepare_filename`, `gen_extractors`) are inputs, not modelled: they are a foreign library doing network I/O.
- `extract_cookies_from_browser` (downloader.py lines 984-1016) is not modelled: it only calls the engine's cookie loader and wraps its answer.
- JSON serialisation: results are datatypes, not JSON strings.
- `os.path.exists` and `random.choice` are boolean and index inputs.
- `_safe_int` and `_safe_float`: event fields are already optional integers, a value that does not coerce being absent; progress is an exact real, not an IEEE double.
- Common.Lower: ASCII letters only; Python's `str.lower` and Kotlin's `lowercase()` also fold non-ASCII letters.
- An absent key and a key holding None are the same `None`; `info.get('description', '')` on a present None (which would raise) is treated as empty, and so is `info.get('entries', [])` on a present None.
- Empty entries: Python skips an empty-dictionary entry as falsy in the playlist and file-name comprehensions; the model has no empty-dictionary value, so every non-null entry counts.
- Fields passed through unchanged (filesize, fps, thumbnail, width, height, uploader, duration, view_count) are not modelled.
- `download_all_gallery` is accepted but never used by the code, so it has no effect in the model either.
- Concurrency: the cancel set shared across threads, Kotlin coroutines, `Dispatchers.IO`, `mainHandler.post` and the `eventSink` field of `onListen`/`onCancel`; the registry is modelled sequentially.
- The swallowed `callback.onProgress` exceptions and the prints.
- PythonBridge.kt, StatFs, the ContentResolver I/O of `saveToMediaStore` (including a failed insert returning false) and its branch for Android 9 and below.
- Plugin.OnMethodCall: an argument of the wrong type is treated like an absent one; the platform channel would throw instead.
