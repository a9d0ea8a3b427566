/** The request configuration of downloader.py: the option dictionaries handed to the
    engine by `_get_base_ydl_opts`, `get_media_info`, `download_media` and
    `download_video`, built by successive assignment, and the format selector and output
    template they choose. The dictionary is a record with one optional field per option
    the bridge ever sets (an absent key is `None`). `os.path.exists` answers and the
    random user-agent pick are inputs. */
module YdlOptions {
  import opened Common

  /** The engine's option dictionary. */
  datatype YdlOpts = YdlOpts(
    retries: Option<int>,                    // 'retries'
    fragmentRetries: Option<int>,            // 'fragment_retries'
    extractorRetries: Option<int>,           // 'extractor_retries'
    fileAccessRetries: Option<int>,          // 'file_access_retries'
    socketTimeout: Option<int>,              // 'socket_timeout'
    continueDl: Option<bool>,                // 'continuedl'
    noProgress: Option<bool>,                // 'noprogress'
    concurrentFragments: Option<int>,        // 'concurrent_fragment_downloads'
    httpChunkSize: Option<int>,              // 'http_chunk_size'
    quiet: Option<bool>,                     // 'quiet'
    noWarnings: Option<bool>,                // 'no_warnings'
    remoteComponents: Option<seq<string>>,   // 'remote_components'
    sleepInterval: Option<int>,              // 'sleep_interval'
    maxSleepInterval: Option<int>,           // 'max_sleep_interval'
    sleepIntervalRequests: Option<int>,      // 'sleep_interval_requests'
    throttledRateLimit: Option<int>,         // 'throttledratelimit'
    userAgent: Option<UserAgentChoice>,      // 'user_agent', as UserAgentHeader of it
    referer: Option<string>,                 // 'referer'
    proxy: Option<string>,                   // 'proxy'
    cookieFile: Option<string>,              // 'cookiefile'
    extractFlat: Option<bool>,               // 'extract_flat'
    writeThumbnail: Option<bool>,            // 'writethumbnail'
    progressHooks: bool,                     // 'progress_hooks': [progress_hook] is set
    ffmpegLocation: Option<string>,          // 'ffmpeg_location'
    writeSubtitles: Option<bool>,            // 'writesubtitles'
    writeAutomaticSub: Option<bool>,         // 'writeautomaticsub'
    subtitlesLangs: Option<seq<string>>,     // 'subtitleslangs'
    embedSubtitles: Option<bool>,            // 'embedsubtitles'
    format: Option<string>,                  // 'format'
    outTmpl: Option<string>,                 // 'outtmpl'
    playlistItems: Option<string>,           // 'playlist_items'
    mergeOutputFormat: Option<string>)       // 'merge_output_format'

  /** The empty dictionary. */
  const NoOpts := YdlOpts(
    None, None, None, None, None, None, None, None, None, None, None, None, None, None, None, None,
    None, None, None, None, None, None, false, None, None, None, None, None, None, None, None, None)

  /** The user-agent rotation list. */
  const UserAgents: seq<string> := [
    "Mozilla/5.0 (Windows NT 10.0; Win64; x64) AppleWebKit/537.36 (KHTML, like Gecko) Chrome/120.0.0.0 Safari/537.36",
    "Mozilla/5.0 (Macintosh; Intel Mac OS X 10_15_7) AppleWebKit/537.36 (KHTML, like Gecko) Chrome/120.0.0.0 Safari/537.36",
    "Mozilla/5.0 (Windows NT 10.0; Win64; x64; rv:121.0) Gecko/20100101 Firefox/121.0",
    "Mozilla/5.0 (Macintosh; Intel Mac OS X 10_15_7) AppleWebKit/605.1.15 (KHTML, like Gecko) Version/17.2 Safari/605.1.15",
    "Mozilla/5.0 (X11; Linux x86_64) AppleWebKit/537.36 (KHTML, like Gecko) Chrome/120.0.0.0 Safari/537.36"
  ]

  /** The `user_agent` value: the caller's own string, or the `draw`-th pick from the
      rotation list; `UserAgentHeader` is the text sent. */
  datatype UserAgentChoice = CustomAgent(text: string) | RotatedAgent(draw: nat)

  /** A draw selects the entry at its index modulo the list's length. */
  function UserAgentHeader(u: UserAgentChoice): string {
    match u
    case CustomAgent(t) => t
    case RotatedAgent(d) => UserAgents[d % |UserAgents|]
  }

  /** `random.choice(USER_AGENTS)`, the random draw being the input `choice`. */
  function RandomUserAgent(choice: nat): (r: UserAgentChoice)
    ensures UserAgentHeader(r) == UserAgents[choice % |UserAgents|]
  {
    RotatedAgent(choice)
  }

  /** The retry, timeout, resume and chunking defaults of the base dictionary literal:
      ten retries, ten fragment retries, five extractor and file-access retries, a
      30-second socket timeout, resumed partial files, progress on, 10 MiB chunks and the
      remote JavaScript solver components. */
  predicate FixedDefaults(opts: YdlOpts) {
    && opts.retries == Some(10) && opts.fragmentRetries == Some(10)
    && opts.extractorRetries == Some(5) && opts.fileAccessRetries == Some(5)
    && opts.socketTimeout == Some(30)
    && opts.continueDl == Some(true) && opts.noProgress == Some(false)
    && opts.httpChunkSize == Some(10485760)
    && opts.remoteComponents == Some(["ejs:github"])
  }

  /** The anti-ban measures as promised: a non-negative sleep defaulting to 2 with a
      maximum of at least 5 and at least the sleep, one second between requests, the
      100 KB/s throttle floor, a Google referer, and the caller's user agent when
      non-empty, else a draw from the rotation list. */
  predicate AntiBanApplied(opts: YdlOpts, sleepInterval: Option<int>, userAgent: Option<string>, uaChoice: nat) {
    && opts.sleepInterval.Some? && opts.maxSleepInterval.Some?
    && (var sleep := opts.sleepInterval.value;
        var maxSleep := opts.maxSleepInterval.value;
        && 0 <= sleep <= maxSleep && 5 <= maxSleep && (maxSleep == 5 || maxSleep == sleep)
        && (sleepInterval.None? ==> sleep == 2)
        && (sleepInterval.Some? && sleepInterval.value >= 0 ==> sleep == sleepInterval.value)
        && (sleepInterval.Some? && sleepInterval.value < 0 ==> sleep == 0))
    && opts.sleepIntervalRequests == Some(1)
    && opts.throttledRateLimit == Some(100000)
    && opts.referer == Some("https://www.google.com/")
    && opts.userAgent == Some(if TruthyStr(userAgent) then CustomAgent(userAgent.value) else RandomUserAgent(uaChoice))
  }

  /** None of the anti-ban options is set. */
  predicate NoAntiBan(opts: YdlOpts) {
    && opts.sleepInterval.None? && opts.maxSleepInterval.None? && opts.sleepIntervalRequests.None?
    && opts.throttledRateLimit.None? && opts.userAgent.None? && opts.referer.None?
  }

  /** None of the options `download_media` adds to the base is set. */
  predicate NoDownloadOptions(opts: YdlOpts) {
    && !opts.progressHooks && opts.ffmpegLocation.None? && opts.writeSubtitles.None?
    && opts.writeAutomaticSub.None? && opts.subtitlesLangs.None? && opts.embedSubtitles.None?
    && opts.format.None? && opts.outTmpl.None? && opts.playlistItems.None? && opts.mergeOutputFormat.None?
  }

  // ---------------------------------------------------------------------------
  // `_get_base_ydl_opts`

  /** The dictionary `_get_base_ydl_opts` returns, key by key. */
  function BaseOptions(cookiesFile: Option<string>, cookiesExists: bool, enableAntiBan: bool,
                       sleepInterval: Option<int>, concurrentFragments: Option<int>,
                       userAgent: Option<string>, proxyUrl: Option<string>, uaChoice: nat): YdlOpts
  {
    var sleep := if sleepInterval.None? then 2 else if sleepInterval.value < 0 then 0 else sleepInterval.value;
    NoOpts.(
      retries := Some(10), fragmentRetries := Some(10), extractorRetries := Some(5), fileAccessRetries := Some(5),
      socketTimeout := Some(30), continueDl := Some(true), noProgress := Some(false),
      concurrentFragments := if TruthyInt(concurrentFragments) then concurrentFragments else Some(4),
      httpChunkSize := Some(10485760), quiet := Some(false), noWarnings := Some(false),
      remoteComponents := Some(["ejs:github"]),
      sleepInterval := if enableAntiBan then Some(sleep) else None,
      maxSleepInterval := if enableAntiBan then Some(if sleep > 5 then sleep else 5) else None,
      sleepIntervalRequests := if enableAntiBan then Some(1) else None,
      throttledRateLimit := if enableAntiBan then Some(100000) else None,
      userAgent := if !enableAntiBan then None
                   else if TruthyStr(userAgent) then Some(CustomAgent(userAgent.value))
                   else Some(RandomUserAgent(uaChoice)),
      referer := if enableAntiBan then Some("https://www.google.com/") else None,
      proxy := if TruthyStr(proxyUrl) then proxyUrl else None,
      cookieFile := if TruthyStr(cookiesFile) && cookiesExists then cookiesFile else None)
  }

  /** `_get_base_ydl_opts`: the dictionary literal, then the anti-ban update, the proxy
      and the cookie file. `cookiesExists` is `os.path.exists(cookies_file)`. */
  method BaseYdlOpts(cookiesFile: Option<string>, cookiesExists: bool, enableAntiBan: bool,
                     sleepInterval: Option<int>, concurrentFragments: Option<int>,
                     userAgent: Option<string>, proxyUrl: Option<string>, uaChoice: nat)
    returns (opts: YdlOpts)
    ensures opts == BaseOptions(cookiesFile, cookiesExists, enableAntiBan, sleepInterval, concurrentFragments,
                                userAgent, proxyUrl, uaChoice)
  {
    opts := NoOpts.(
      retries := Some(10),
      fragmentRetries := Some(10),
      extractorRetries := Some(5),
      fileAccessRetries := Some(5),
      socketTimeout := Some(30),
      continueDl := Some(true),
      noProgress := Some(false),
      concurrentFragments := Some(if TruthyInt(concurrentFragments) then concurrentFragments.value else 4),
      httpChunkSize := Some(10485760),
      quiet := Some(false),
      noWarnings := Some(false),
      remoteComponents := Some(["ejs:github"]));
    if enableAntiBan {
      var sleep := if sleepInterval.Some? then sleepInterval.value else 2;
      if sleep < 0 {
        sleep := 0;
      }
      var ua := if TruthyStr(userAgent) then CustomAgent(userAgent.value) else RandomUserAgent(uaChoice);
      opts := opts.(
        sleepInterval := Some(sleep),
        maxSleepInterval := Some(if 5 >= sleep then 5 else sleep),
        sleepIntervalRequests := Some(1),
        throttledRateLimit := Some(100000),
        userAgent := Some(ua),
        referer := Some("https://www.google.com/"));
    }
    if TruthyStr(proxyUrl) {
      opts := opts.(proxy := proxyUrl);
    }
    if TruthyStr(cookiesFile) && cookiesExists {
      opts := opts.(cookieFile := cookiesFile);
    }
    // The three keys whose value depends on a string being non-empty.
    ghost var spec := BaseOptions(cookiesFile, cookiesExists, enableAntiBan, sleepInterval, concurrentFragments, userAgent, proxyUrl, uaChoice);
    assert opts.userAgent == spec.userAgent;
    assert opts.proxy == spec.proxy;
    assert opts.cookieFile == spec.cookieFile;
  }

  /** The base dictionary always carries the retry, timeout, resume and chunking defaults,
      is verbose, and sets none of the extraction or download options. */
  lemma BaseDefaults(cookiesFile: Option<string>, cookiesExists: bool, enableAntiBan: bool,
                     sleepInterval: Option<int>, concurrentFragments: Option<int>,
                     userAgent: Option<string>, proxyUrl: Option<string>, uaChoice: nat)
    ensures var opts := BaseOptions(cookiesFile, cookiesExists, enableAntiBan, sleepInterval, concurrentFragments,
                                    userAgent, proxyUrl, uaChoice);
            && FixedDefaults(opts) && opts.quiet == Some(false) && opts.noWarnings == Some(false)
            && opts.extractFlat.None? && opts.writeThumbnail.None? && NoDownloadOptions(opts)
  {
  }

  /** Four concurrent fragment downloads unless the caller asks for a non-zero number. */
  lemma BaseConcurrency(cookiesFile: Option<string>, cookiesExists: bool, enableAntiBan: bool,
                        sleepInterval: Option<int>, concurrentFragments: Option<int>,
                        userAgent: Option<string>, proxyUrl: Option<string>, uaChoice: nat)
    ensures var opts := BaseOptions(cookiesFile, cookiesExists, enableAntiBan, sleepInterval, concurrentFragments,
                                    userAgent, proxyUrl, uaChoice);
            && (TruthyInt(concurrentFragments) ==> opts.concurrentFragments == concurrentFragments)
            && (!TruthyInt(concurrentFragments) ==> opts.concurrentFragments == Some(4))
  {
  }

  /** The anti-ban switch sets all six anti-ban options as promised, or none of them. */
  lemma BaseAntiBan(cookiesFile: Option<string>, cookiesExists: bool, enableAntiBan: bool,
                    sleepInterval: Option<int>, concurrentFragments: Option<int>,
                    userAgent: Option<string>, proxyUrl: Option<string>, uaChoice: nat)
    ensures var opts := BaseOptions(cookiesFile, cookiesExists, enableAntiBan, sleepInterval, concurrentFragments,
                                    userAgent, proxyUrl, uaChoice);
            && (enableAntiBan ==> AntiBanApplied(opts, sleepInterval, userAgent, uaChoice))
            && (!enableAntiBan ==> NoAntiBan(opts))
  {
  }

  /** The proxy is set exactly when a non-empty one is given; the cookie file exactly
      when a non-empty path is given and the file exists. */
  lemma BaseProxyAndCookies(cookiesFile: Option<string>, cookiesExists: bool, enableAntiBan: bool,
                            sleepInterval: Option<int>, concurrentFragments: Option<int>,
                            userAgent: Option<string>, proxyUrl: Option<string>, uaChoice: nat)
    ensures var opts := BaseOptions(cookiesFile, cookiesExists, enableAntiBan, sleepInterval, concurrentFragments,
                                    userAgent, proxyUrl, uaChoice);
            && (opts.proxy.Some? <==> TruthyStr(proxyUrl)) && (opts.proxy.Some? ==> opts.proxy == proxyUrl)
            && (opts.cookieFile.Some? <==> TruthyStr(cookiesFile) && cookiesExists)
            && (opts.cookieFile.Some? ==> opts.cookieFile == cookiesFile)
  {
  }

  /** `max_sleep_interval` is `max(5, sleep_interval)`, and the user agent sent is the
      caller's own when it is non-empty, else one of the five of the rotation list. */
  lemma SleepBounds(opts: YdlOpts, sleepInterval: Option<int>, userAgent: Option<string>, uaChoice: nat)
    requires AntiBanApplied(opts, sleepInterval, userAgent, uaChoice)
    ensures 0 <= opts.sleepInterval.value <= opts.maxSleepInterval.value
    ensures opts.maxSleepInterval.value == (if opts.sleepInterval.value <= 5 then 5 else opts.sleepInterval.value)
    ensures TruthyStr(userAgent) ==> UserAgentHeader(opts.userAgent.value) == userAgent.value
    ensures !TruthyStr(userAgent) ==> UserAgentHeader(opts.userAgent.value) in UserAgents
  {
  }

  /** The rotation list has five entries and draw `choice` selects entry `choice % 5`. */
  lemma RotationPick(choice: nat)
    ensures |UserAgents| == 5
    ensures UserAgentHeader(RandomUserAgent(choice)) == UserAgents[choice % 5]
  {
  }

  // ---------------------------------------------------------------------------
  // `get_media_info`

  /** The options of `get_media_info`: the base with anti-ban measures and the caller's
      cookies, made quiet, full extraction, no thumbnail written. */
  method MediaInfoOpts(cookiesFile: Option<string>, cookiesExists: bool, uaChoice: nat) returns (opts: YdlOpts)
    ensures FixedDefaults(opts)
    ensures AntiBanApplied(opts, None, None, uaChoice)
    ensures opts.quiet == Some(true) && opts.noWarnings == Some(true)
    ensures opts.extractFlat == Some(false) && opts.writeThumbnail == Some(false)
    ensures opts.concurrentFragments == Some(4) && opts.proxy.None?
    ensures opts.cookieFile == (if TruthyStr(cookiesFile) && cookiesExists then cookiesFile else None)
    ensures NoDownloadOptions(opts)
  {
    opts := BaseYdlOpts(cookiesFile, cookiesExists, true, None, None, None, None, uaChoice);
    opts := opts.(quiet := Some(true), noWarnings := Some(true), extractFlat := Some(false), writeThumbnail := Some(false));
  }

  // ---------------------------------------------------------------------------
  // Format selector and output template of `download_media`

  /** The caller's `media_type` as `download_media` distinguishes it; "video", "auto"
      and any other string are all treated as video. */
  datatype RequestKind = ImageRequest | GalleryRequest | AudioRequest | VideoRequest

  function KindOf(mediaType: string): RequestKind {
    if mediaType == "image" then ImageRequest
    else if mediaType == "gallery" then GalleryRequest
    else if mediaType == "audio" then AudioRequest
    else VideoRequest
  }

  /** The caller's `format_id`: one of the two keywords, or an engine format id. */
  datatype FormatChoice = BestChoice | AudioOnlyChoice | ExplicitChoice(id: string)

  function ChoiceOf(formatId: string): FormatChoice {
    if formatId == "best" then BestChoice
    else if formatId == "audio_only" then AudioOnlyChoice
    else ExplicitChoice(formatId)
  }

  /** The pieces of the audio selectors: m4a first, then aac, then any audio. */
  const M4aAudio := "bestaudio[ext=m4a]/"
  const AacAudio := "bestaudio[ext=aac]/"
  const AnyAudioOrBest := "bestaudio/best"

  /** "bestaudio[ext=m4a]/bestaudio[ext=aac]/bestaudio/best". */
  const AudioPreference := M4aAudio + AacAudio + AnyAudioOrBest

  /** "bestaudio[ext=m4a]/bestaudio/best", the selector of an audio-only video request. */
  const VideoAudioOnly := M4aAudio + AnyAudioOrBest

  /** `max_quality or default`, rendered as in an f-string. */
  function HeightLimit(maxQuality: Option<int>, default: nat): string {
    IntToString(if TruthyInt(maxQuality) then maxQuality.value else default)
  }

  /** The format selector `download_media` chooses; `ffmpeg` is "the ffmpeg path is
      truthy and exists". */
  function FormatSelector(kind: RequestKind, choice: FormatChoice, ffmpeg: bool, maxQuality: Option<int>): string {
    match kind
    case ImageRequest => "best"
    case GalleryRequest => "best"
    case AudioRequest =>
      if choice.ExplicitChoice? then choice.id else AudioPreference
    case VideoRequest =>
      match choice
      case BestChoice =>
        if ffmpeg then
          var h := HeightLimit(maxQuality, 2160);
          "bestvideo[height<=" + h + "]+bestaudio/best[height<=" + h + "]/best"
        else
          var h := HeightLimit(maxQuality, 1080);
          "best[ext=mp4][height<=" + h + "]/best[height<=" + h + "]/best"
      case AudioOnlyChoice => VideoAudioOnly
      case ExplicitChoice(id) => id + "/best[height<=720]/best"
  }

  const SingleFileTemplate := "%(title)s.%(ext)s"
  const GalleryTemplate := "%(title)s/%(playlist_index)s - %(title)s.%(ext)s"
  const VideoTemplate := "%(title)s_%(epoch)s.%(ext)s"

  /** The file-name template, before it is joined to the output directory. */
  function TemplateName(kind: RequestKind): string {
    match kind
    case GalleryRequest => GalleryTemplate
    case ImageRequest => SingleFileTemplate
    case AudioRequest => SingleFileTemplate
    case VideoRequest => VideoTemplate
  }

  /** POSIX `os.path.join(a, b)`. */
  function PathJoin(a: string, b: string): string {
    if StartsWith(b, "/") then b
    else if a == [] || a[|a| - 1] == '/' then a + b
    else a + "/" + b
  }

  /** `','.join(str(i + 1) for i in indices)`. */
  function PlaylistItems(indices: seq<int>): string {
    Join(seq(|indices|, k requires 0 <= k < |indices| => IntToString(indices[k] + 1)), ',')
  }


  // ---------------------------------------------------------------------------
  // `download_media`

  /** The arguments of `download_media` (the target URL, task id and callback are
      `Results`' business; `download_all_gallery` is accepted and never read). */
  datatype MediaRequest = MediaRequest(
    url: string,
    outputPath: string,
    formatId: string,               // default "best"
    mediaType: string,              // default "auto"
    taskId: Option<string>,
    cookiesFile: Option<string>,
    downloadAllGallery: bool,       // default true
    selectedIndices: Option<seq<int>>,
    ffmpegPath: Option<string>,
    maxQuality: Option<int>,
    sleepInterval: Option<int>,
    concurrentFragments: Option<int>,
    customUserAgent: Option<string>,
    proxyUrl: Option<string>,
    embedSubtitles: bool,           // default false
    subtitleLanguage: Option<string>)

  /** What the host answers while the options are built: `os.path.exists` for the cookie
      file and for the FFmpeg binary, and the random user-agent draw. */
  datatype Host = Host(cookiesExist: bool, ffmpegExists: bool, uaChoice: nat)

  /** `ffmpeg_path and os.path.exists(ffmpeg_path)`. */
  predicate FfmpegUsable(req: MediaRequest, host: Host) {
    TruthyStr(req.ffmpegPath) && host.ffmpegExists
  }

  /** `selected_indices` is truthy: given and non-empty. */
  predicate HasSelection(req: MediaRequest) {
    req.selectedIndices.Some? && |req.selectedIndices.value| > 0
  }

  /** The dictionary `download_media` hands to the engine, key by key. */
  function DownloadMediaOptions(req: MediaRequest, host: Host): YdlOpts {
    var ffmpeg := FfmpegUsable(req, host);
    var kind := KindOf(req.mediaType);
    var subs := req.embedSubtitles;
    BaseOptions(req.cookiesFile, host.cookiesExist, true, req.sleepInterval, req.concurrentFragments,
                req.customUserAgent, req.proxyUrl, host.uaChoice).(
      progressHooks := true,
      ffmpegLocation := if ffmpeg then req.ffmpegPath else None,
      writeSubtitles := if subs then Some(true) else None,
      writeAutomaticSub := if subs then Some(true) else None,
      subtitlesLangs := if subs && TruthyStr(req.subtitleLanguage) then Some([req.subtitleLanguage.value]) else None,
      embedSubtitles := if subs && ffmpeg then Some(true) else None,
      format := Some(FormatSelector(kind, ChoiceOf(req.formatId), ffmpeg, req.maxQuality)),
      outTmpl := Some(PathJoin(req.outputPath, TemplateName(kind))),
      playlistItems := if req.mediaType == "gallery" && HasSelection(req)
                       then Some(PlaylistItems(req.selectedIndices.value)) else None,
      mergeOutputFormat := if kind == VideoRequest && req.formatId == "best" && ffmpeg then Some("mp4") else None)
  }

  /** The media-type branch of `download_media`: the `format`, `outtmpl`,
      `playlist_items` and `merge_output_format` values it assigns. */
  method FormatOptions(req: MediaRequest, ffmpeg: bool)
    returns (format: string, outTmpl: string, playlistItems: Option<string>, merge: Option<string>)
    ensures format == FormatSelector(KindOf(req.mediaType), ChoiceOf(req.formatId), ffmpeg, req.maxQuality)
    ensures outTmpl == PathJoin(req.outputPath, TemplateName(KindOf(req.mediaType)))
    ensures playlistItems
            == (if req.mediaType == "gallery" && HasSelection(req) then Some(PlaylistItems(req.selectedIndices.value)) else None)
    ensures merge == (if KindOf(req.mediaType) == VideoRequest && req.formatId == "best" && ffmpeg then Some("mp4") else None)
  {
    var mediaType, formatId := req.mediaType, req.formatId;
    playlistItems, merge := None, None;
    if mediaType == "image" || mediaType == "gallery" {
      format, outTmpl := "best", PathJoin(req.outputPath, SingleFileTemplate);
      if mediaType == "gallery" {
        outTmpl := PathJoin(req.outputPath, GalleryTemplate);
        if req.selectedIndices.Some? && |req.selectedIndices.value| > 0 {
          playlistItems := Some(PlaylistItems(req.selectedIndices.value));
        }
      }
    } else if mediaType == "audio" {
      if formatId == "best" || formatId == "audio_only" {
        format := AudioPreference;
      } else {
        format := formatId;
      }
      outTmpl := PathJoin(req.outputPath, SingleFileTemplate);
    } else {
      if formatId == "best" {
        if ffmpeg {
          var h := HeightLimit(req.maxQuality, 2160);
          format := "bestvideo[height<=" + h + "]+bestaudio/best[height<=" + h + "]/best";
          merge := Some("mp4");
        } else {
          var h := HeightLimit(req.maxQuality, 1080);
          format := "best[ext=mp4][height<=" + h + "]/best[height<=" + h + "]/best";
        }
      } else if formatId == "audio_only" {
        format := VideoAudioOnly;
      } else {
        format := formatId + "/best[height<=720]/best";
      }
      outTmpl := PathJoin(req.outputPath, VideoTemplate);
    }
  }

  /** The options of `download_media`: the base with anti-ban measures on, the progress
      hook, FFmpeg and subtitles, then the media-type branch. */
  method DownloadMediaOpts(req: MediaRequest, host: Host) returns (opts: YdlOpts)
    ensures opts == DownloadMediaOptions(req, host)
  {
    opts := BaseYdlOpts(req.cookiesFile, host.cookiesExist, true, req.sleepInterval, req.concurrentFragments,
                        req.customUserAgent, req.proxyUrl, host.uaChoice);
    opts := opts.(progressHooks := true);
    var ffmpeg := TruthyStr(req.ffmpegPath) && host.ffmpegExists;
    if ffmpeg {
      opts := opts.(ffmpegLocation := req.ffmpegPath);
    }
    if req.embedSubtitles {
      opts := opts.(writeSubtitles := Some(true), writeAutomaticSub := Some(true));
      if TruthyStr(req.subtitleLanguage) {
        opts := opts.(subtitlesLangs := Some([req.subtitleLanguage.value]));
      }
      if ffmpeg {
        opts := opts.(embedSubtitles := Some(true));
      }
    }
    var format, outTmpl, items, merge := FormatOptions(req, ffmpeg);
    opts := opts.(format := Some(format), outTmpl := Some(outTmpl), playlistItems := items, mergeOutputFormat := merge);
  }

  /** `download_media` keeps everything of the base dictionary with anti-ban measures on
      and verbose output: defaults, sleep and user agent, proxy and cookies. */
  lemma DownloadKeepsBase(req: MediaRequest, host: Host)
    ensures var opts := DownloadMediaOptions(req, host);
            && FixedDefaults(opts) && opts.quiet == Some(false) && opts.noWarnings == Some(false)
            && AntiBanApplied(opts, req.sleepInterval, req.customUserAgent, host.uaChoice)
            && opts.concurrentFragments == (if TruthyInt(req.concurrentFragments) then req.concurrentFragments else Some(4))
            && opts.proxy == (if TruthyStr(req.proxyUrl) then req.proxyUrl else None)
            && opts.cookieFile == (if TruthyStr(req.cookiesFile) && host.cookiesExist then req.cookiesFile else None)
            && opts.extractFlat.None? && opts.writeThumbnail.None?
  {
    BaseDefaults(req.cookiesFile, host.cookiesExist, true, req.sleepInterval, req.concurrentFragments,
                 req.customUserAgent, req.proxyUrl, host.uaChoice);
    BaseAntiBan(req.cookiesFile, host.cookiesExist, true, req.sleepInterval, req.concurrentFragments,
                req.customUserAgent, req.proxyUrl, host.uaChoice);
  }

  /** The progress hook is always registered; FFmpeg is used and muxing to mp4 asked for
      only when a usable FFmpeg is configured, the latter only for "best" video. */
  lemma DownloadFfmpegUse(req: MediaRequest, host: Host)
    ensures var opts := DownloadMediaOptions(req, host);
            && opts.progressHooks
            && (opts.ffmpegLocation.Some? <==> FfmpegUsable(req, host))
            && (opts.ffmpegLocation.Some? ==> opts.ffmpegLocation == req.ffmpegPath)
            && (opts.mergeOutputFormat.Some? <==> FfmpegUsable(req, host) && KindOf(req.mediaType) == VideoRequest && req.formatId == "best")
            && (opts.mergeOutputFormat.Some? ==> opts.mergeOutputFormat == Some("mp4"))
  {
  }

  /** Subtitles: both subtitle kinds are written exactly when asked for, the language list
      is the one language given, and embedding is forced only with a usable FFmpeg. */
  lemma DownloadSubtitles(req: MediaRequest, host: Host)
    ensures var opts := DownloadMediaOptions(req, host);
            && (opts.writeSubtitles.Some? <==> req.embedSubtitles)
            && (opts.writeAutomaticSub.Some? <==> req.embedSubtitles)
            && (opts.subtitlesLangs.Some? <==> req.embedSubtitles && TruthyStr(req.subtitleLanguage))
            && (opts.subtitlesLangs.Some? ==> opts.subtitlesLangs.value == [req.subtitleLanguage.value])
            && (opts.embedSubtitles.Some? <==> req.embedSubtitles && FfmpegUsable(req, host))
            && (opts.writeSubtitles.Some? ==> opts.writeSubtitles == Some(true) && opts.writeAutomaticSub == Some(true))
  {
  }

  /** The format is the selector of the request's kind and format choice, the output
      template that kind's template under the output directory, and a selection is passed
      on (as one-based positions) only for a gallery with a non-empty selection. */
  lemma DownloadSelection(req: MediaRequest, host: Host)
    ensures var opts := DownloadMediaOptions(req, host);
            && opts.format == Some(FormatSelector(KindOf(req.mediaType), ChoiceOf(req.formatId), FfmpegUsable(req, host), req.maxQuality))
            && opts.outTmpl.Some? && StartsWith(opts.outTmpl.value, req.outputPath)
            && (opts.playlistItems.Some? <==> req.mediaType == "gallery" && HasSelection(req))
            && (opts.playlistItems.Some? ==> opts.playlistItems.value == PlaylistItems(req.selectedIndices.value))
  {
    TemplateUnderOutputPath(req.outputPath, KindOf(req.mediaType));
  }

  // ---------------------------------------------------------------------------
  // `download_video`

  /** The options of `download_video`: its own small dictionary, not the base one. The
      audio-only selector set first is replaced by the container preference. */
  method DownloadVideoOpts(outputPath: string, formatId: string) returns (opts: YdlOpts)
    ensures opts.format == Some(match ChoiceOf(formatId)
                                case BestChoice => "best"
                                case AudioOnlyChoice => AudioPreference
                                case ExplicitChoice(id) => id)
    ensures opts.outTmpl == Some(PathJoin(outputPath, SingleFileTemplate))
    ensures opts.concurrentFragments == Some(4) && opts.progressHooks
    ensures opts.quiet == Some(false) && opts.noWarnings == Some(false)
    ensures opts.remoteComponents == Some(["ejs:github"])
    ensures opts.retries.None? && opts.socketTimeout.None? && NoAntiBan(opts) && opts.cookieFile.None? && opts.proxy.None?
    ensures opts.mergeOutputFormat.None? && opts.ffmpegLocation.None? && opts.playlistItems.None?
    ensures opts.fragmentRetries.None? && opts.extractorRetries.None? && opts.fileAccessRetries.None?
    ensures opts.continueDl.None? && opts.noProgress.None? && opts.httpChunkSize.None?
    ensures opts.extractFlat.None? && opts.writeThumbnail.None?
    ensures opts.writeSubtitles.None? && opts.writeAutomaticSub.None? && opts.subtitlesLangs.None? && opts.embedSubtitles.None?
  {
    var fmt;
    if formatId == "best" {
      fmt := "best";
    } else if formatId == "audio_only" {
      fmt := AnyAudioOrBest;
    } else {
      fmt := formatId;
    }
    if formatId == "audio_only" {
      fmt := AudioPreference;
    }
    opts := NoOpts.(
      format := Some(fmt),
      outTmpl := Some(PathJoin(outputPath, SingleFileTemplate)),
      quiet := Some(false),
      noWarnings := Some(false),
      progressHooks := true,
      concurrentFragments := Some(4),
      remoteComponents := Some(["ejs:github"]));
  }

  // ---------------------------------------------------------------------------
  // Properties of the configuration, the selector, the template and the selection

  /** A character that is neither a digit nor '-' never occurs in a rendered integer. */
  lemma NotInRendering(i: int, c: char)
    requires !IsDigit(c) && c != '-'
    ensures c !in IntToString(i)
  {
    IntToStringChars(i);
  }

  /** Without a muxer no selector asks for a merge: unless the caller's own format id
      contains '+', the selector never does. */
  lemma NoMuxerNoMerge(kind: RequestKind, formatId: string, maxQuality: Option<int>)
    requires '+' !in formatId
    ensures '+' !in FormatSelector(kind, ChoiceOf(formatId), false, maxQuality)
  {
    var choice := ChoiceOf(formatId);
    if kind == VideoRequest && choice == BestChoice {
      var h := HeightLimit(maxQuality, 1080);
      NotInRendering(if TruthyInt(maxQuality) then maxQuality.value else 1080, '+');
      assert '+' !in "best[ext=mp4][height<=" && '+' !in "]/best[height<=" && '+' !in "]/best";
    } else if kind == VideoRequest && choice.ExplicitChoice? {
      assert '+' !in "/best[height<=720]/best";
    } else if kind == VideoRequest || (kind == AudioRequest && !choice.ExplicitChoice?) {
      assert '+' !in M4aAudio && '+' !in AacAudio && '+' !in AnyAudioOrBest;
    }
  }

  /** With a muxer, "best" video merges the best video up to the height cap (2160 unless
      a truthy maximum is given) with the best audio. */
  lemma MuxerBestMerges(maxQuality: Option<int>)
    ensures var h := IntToString(if TruthyInt(maxQuality) then maxQuality.value else 2160);
            FormatSelector(VideoRequest, BestChoice, true, maxQuality)
            == "bestvideo[height<=" + h + "]+bestaudio/best[height<=" + h + "]/best"
    ensures '+' in FormatSelector(VideoRequest, BestChoice, true, maxQuality)
  {
    var h := HeightLimit(maxQuality, 2160);
    var sel := "bestvideo[height<=" + h + "]+bestaudio/best[height<=" + h + "]/best";
    assert sel[|"bestvideo[height<="| + |h| + 1] == '+';
  }

  /** The height cap is the caller's maximum when it is non-zero, else the default:
      2160 with a muxer, 1080 without. */
  lemma HeightCapDefaults(maxQuality: Option<int>)
    ensures HeightLimit(None, 2160) == "2160" && HeightLimit(Some(0), 1080) == "1080"
    ensures TruthyInt(maxQuality) ==> HeightLimit(maxQuality, 1080) == HeightLimit(maxQuality, 2160) == IntToString(maxQuality.value)
    ensures !TruthyInt(maxQuality) ==> HeightLimit(maxQuality, 2160) == "2160" && HeightLimit(maxQuality, 1080) == "1080"
  {
    assert NatToString(2) == "2" && NatToString(21) == "21" && NatToString(216) == "216";
    assert NatToString(2160) == "2160";
    assert NatToString(1) == "1" && NatToString(10) == "10" && NatToString(108) == "108";
    assert NatToString(1080) == "1080";
  }

  /** An explicit video format id is tried first, then a 720p single file, then anything. */
  lemma ExplicitIdFallsBack(formatId: string, ffmpeg: bool, maxQuality: Option<int>)
    requires formatId != "best" && formatId != "audio_only"
    ensures var sel := FormatSelector(VideoRequest, ChoiceOf(formatId), ffmpeg, maxQuality);
            StartsWith(sel, formatId + "/") && sel[|formatId| + 1..] == "best[height<=720]/best"
  {
  }

  /** Images and galleries always take "best", whatever format id is asked for; audio
      takes the caller's id unless it is one of the two keywords, which both give the
      audio container preference. */
  lemma ImageAndAudioSelectors(formatId: string, ffmpeg: bool, maxQuality: Option<int>)
    ensures FormatSelector(KindOf("image"), ChoiceOf(formatId), ffmpeg, maxQuality) == "best"
    ensures FormatSelector(KindOf("gallery"), ChoiceOf(formatId), ffmpeg, maxQuality) == "best"
    ensures formatId != "best" && formatId != "audio_only" ==> FormatSelector(AudioRequest, ChoiceOf(formatId), ffmpeg, maxQuality) == formatId
    ensures FormatSelector(AudioRequest, BestChoice, ffmpeg, maxQuality) == AudioPreference
    ensures FormatSelector(AudioRequest, AudioOnlyChoice, ffmpeg, maxQuality) == AudioPreference
  {
  }

  /** Any media type other than the three named ones ("auto", "video", "playlist", ...)
      is configured as video. */
  lemma OtherTypesAreVideo(mediaType: string)
    requires mediaType != "image" && mediaType != "gallery" && mediaType != "audio"
    ensures KindOf(mediaType) == VideoRequest
  {
  }

  /** Joining a relative name to a directory keeps both: the result starts with the
      directory and ends with the name. */
  lemma PathJoinKeepsParts(a: string, b: string)
    requires |b| > 0 && b[0] != '/'
    ensures StartsWith(PathJoin(a, b), a)
    ensures var p := PathJoin(a, b); |b| <= |p| && p[|p| - |b|..] == b
  {
    assert !StartsWith(b, "/");
    if !(a == [] || a[|a| - 1] == '/') {
      var p := a + "/" + b;
      assert p[|p| - |b|..] == b;
    }
  }

  /** Every template is relative, so the output file is placed under the output
      directory. */
  lemma TemplateUnderOutputPath(outputPath: string, kind: RequestKind)
    ensures StartsWith(PathJoin(outputPath, TemplateName(kind)), outputPath)
    ensures var p := PathJoin(outputPath, TemplateName(kind)); var t := TemplateName(kind);
            |t| <= |p| && p[|p| - |t|..] == t
  {
    var t := TemplateName(kind);
    assert SingleFileTemplate[0] == '%' && GalleryTemplate[0] == '%' && VideoTemplate[0] == '%';
    PathJoinKeepsParts(outputPath, t);
  }

  /** Video downloads carry the epoch in the file name, so a repeated download does not
      overwrite the previous file; galleries file each item under the album title and its
      position. */
  lemma TemplateShapes()
    ensures Contains(TemplateName(VideoRequest), "%(epoch)s")
    ensures Contains(TemplateName(GalleryRequest), "%(playlist_index)s")
  {
    assert "%(epoch)s" <= VideoTemplate[10..];
    assert "%(playlist_index)s" <= GalleryTemplate[10..];
  }

  /** The gallery selection renders one-based positions the engine can read back: split
      on ',' and parsed, it gives each zero-based index plus one. */
  lemma {:induction false} PlaylistItemsRoundTrip(indices: seq<int>)
    requires |indices| > 0
    ensures var parts := Split(PlaylistItems(indices), ',');
            |parts| == |indices| && forall k :: 0 <= k < |parts| ==> ParseInt(parts[k]) == indices[k] + 1
  {
    var pieces := seq(|indices|, k requires 0 <= k < |indices| => IntToString(indices[k] + 1));
    forall k | 0 <= k < |pieces|
      ensures ',' !in pieces[k]
    {
      NotInRendering(indices[k] + 1, ',');
    }
    SplitJoin(pieces, ',');
    forall k | 0 <= k < |pieces|
      ensures ParseInt(pieces[k]) == indices[k] + 1
    {
      ParseIntToString(indices[k] + 1);
    }
  }
}
