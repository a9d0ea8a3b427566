/** The result shaping of downloader.py: the format, entry and file lists built from the
    engine's metadata, the payloads of `get_video_info`, `get_media_info`,
    `download_media`, `download_video` and `get_supported_sites`, and the mapping of
    the exceptions the engine raises to structured failures. The engine is an input:
    what `extract_info` returned, or the exception it raised. */
module Results {
  import opened Common
  import opened Media
  import opened ErrorClassifier
  import CancelRegistry

  // ---------------------------------------------------------------------------
  // Exceptions and their mapping

  /** The exception classes the bridge tells apart. */
  datatype ExceptionKind =
    | DownloadCancelledError   // raised by a progress hook that saw the cancel flag
    | GeoRestrictedError
    | UnsupportedError
    | ExtractorError           // any other extractor failure
    | OtherError               // anything else, including a crash of the bridge itself

  /** A raised exception together with its `str(e)`. */
  datatype EngineError = EngineError(kind: ExceptionKind, message: string)

  /** What a call into the engine produced. */
  datatype Engine<T> = Returned(value: T) | Raised(error: EngineError)

  const GeoRestrictedFailure :=
    ErrorInfo(GeoRestricted, "This content is not available in your region", Some("Try using a VPN or proxy"), NoExtra)
  const UnsupportedFailure :=
    ErrorInfo(UnsupportedSite, "This website is not supported", Some("Check the supported sites list"), NoExtra)
  const CancelledFailure := ErrorInfo(Cancelled, "Download cancelled", None, CancelledFlag)

  /** The `except` chain of `get_media_info`: geo-restriction and unsupported sites have
      fixed payloads; every other exception, a cancellation included, is classified by
      its message. */
  function InfoFailure(e: EngineError): ErrorInfo {
    match e.kind
    case GeoRestrictedError => GeoRestrictedFailure
    case UnsupportedError => UnsupportedFailure
    case _ => Classify(e.message)
  }

  /** The `except` chain of `download_media`: a cancellation is tested first. */
  function DownloadFailure(e: EngineError): ErrorInfo {
    if e.kind == DownloadCancelledError then CancelledFailure else InfoFailure(e)
  }

  /** GEO_RESTRICTED is reported exactly for the geo-restriction exception, CANCELLED never
      by `get_media_info`, and the classifier decides for every exception without a fixed
      payload. */
  lemma InfoFailureCodes(e: EngineError)
    ensures InfoFailure(e).code == GeoRestricted <==> e.kind == GeoRestrictedError
    ensures InfoFailure(e).code != Cancelled && InfoFailure(e).extra != CancelledFlag
    ensures e.kind != GeoRestrictedError && e.kind != UnsupportedError ==> InfoFailure(e) == Classify(e.message)
  {
    ClassifierNeverReservedCodes(e.message);
  }

  /** `download_media` reports CANCELLED, with the `cancelled` flag, exactly for the
      cancellation exception; otherwise it maps exceptions as `get_media_info` does. */
  lemma DownloadFailureCodes(e: EngineError)
    ensures DownloadFailure(e).code == Cancelled <==> e.kind == DownloadCancelledError
    ensures DownloadFailure(e).extra == CancelledFlag <==> e.kind == DownloadCancelledError
    ensures e.kind != DownloadCancelledError ==> DownloadFailure(e) == InfoFailure(e)
  {
    InfoFailureCodes(e);
  }

  /** The fixed UNSUPPORTED_SITE payload is the one the classifier's unsupported-URL rule
      gives, so both routes report the same failure. */
  lemma UnsupportedPayloadsAgree()
    ensures UnsupportedFailure == RuleUnsupported.info
  {
  }

  // ---------------------------------------------------------------------------
  // Format lists

  /** A row of the video format list. Sizes and frame rates pass through unmodelled. */
  datatype VideoFormatRow = VideoFormatRow(
    formatId: Option<string>,
    ext: Option<string>,
    quality: string,          // `format_note`, default "Unknown"
    resolution: string,       // default "audio only"
    vcodec: Option<string>,
    acodec: Option<string>)

  /** The audio row's `quality`: `format_note`, else the bitrate, else "Unknown". */
  datatype AudioQuality = Note(text: string) | Bitrate(kbps: real)

  datatype AudioFormatRow = AudioFormatRow(
    formatId: Option<string>,
    ext: Option<string>,
    quality: AudioQuality,
    abr: Option<real>)

  /** The video list's filter: the format has a video or an audio stream. */
  predicate HasAnyStream(f: Format) {
    HasVideoStream(f) || HasAudioStream(f)
  }

  function VideoRow(f: Format): VideoFormatRow {
    VideoFormatRow(f.formatId, f.ext, f.formatNote.GetOr("Unknown"), f.resolution.GetOr("audio only"), f.vcodec, f.acodec)
  }

  function AudioRow(f: Format): AudioFormatRow {
    var quality := if f.formatNote.Some? then Note(f.formatNote.value)
                   else if f.abr.Some? then Bitrate(f.abr.value)
                   else Note("Unknown");
    AudioFormatRow(f.formatId, f.ext, quality, f.abr)
  }

  /** The rows of the formats with some stream, in order. */
  function VideoFormatList(fs: seq<Format>): seq<VideoFormatRow> {
    Map(VideoRow, Filter(HasAnyStream, fs))
  }

  /** The rows of the formats with an audio stream, in order. */
  function AudioFormatList(fs: seq<Format>): seq<AudioFormatRow> {
    Map(AudioRow, Filter(HasAudioStream, fs))
  }

  /** `_get_video_formats` and the same loop in `get_video_info`. */
  method VideoFormats(fs: seq<Format>) returns (rows: seq<VideoFormatRow>)
    ensures rows == VideoFormatList(fs)
  {
    rows := [];
    var i := 0;
    while i < |fs|
      invariant 0 <= i <= |fs|
      invariant rows == VideoFormatList(fs[..i])
    {
      var f := fs[i];
      assert fs[..i + 1] == fs[..i] + [f];
      FilterSnoc(HasAnyStream, fs[..i], f);
      if HasVideoStream(f) || HasAudioStream(f) {
        MapSnoc(VideoRow, Filter(HasAnyStream, fs[..i]), f);
        rows := rows + [VideoRow(f)];
      }
      i := i + 1;
    }
    assert fs[..|fs|] == fs;
  }

  /** `_get_audio_formats`. */
  method AudioFormats(fs: seq<Format>) returns (rows: seq<AudioFormatRow>)
    ensures rows == AudioFormatList(fs)
  {
    rows := [];
    var i := 0;
    while i < |fs|
      invariant 0 <= i <= |fs|
      invariant rows == AudioFormatList(fs[..i])
    {
      var f := fs[i];
      assert fs[..i + 1] == fs[..i] + [f];
      FilterSnoc(HasAudioStream, fs[..i], f);
      if HasAudioStream(f) {
        MapSnoc(AudioRow, Filter(HasAudioStream, fs[..i]), f);
        rows := rows + [AudioRow(f)];
      }
      i := i + 1;
    }
    assert fs[..|fs|] == fs;
  }

  /** A video row exists for exactly the formats with a stream: every such format has its
      row, every row comes from such a format, and there are no more rows than formats. */
  lemma VideoListMembers(fs: seq<Format>)
    ensures |VideoFormatList(fs)| <= |fs|
    ensures forall f :: f in fs && HasAnyStream(f) ==> VideoRow(f) in VideoFormatList(fs)
    ensures forall k :: 0 <= k < |VideoFormatList(fs)| ==>
              exists f :: f in fs && HasAnyStream(f) && VideoFormatList(fs)[k] == VideoRow(f)
  {
    var kept := Filter(HasAnyStream, fs);
    FilterMembers(HasAnyStream, fs);
    MapAt(VideoRow, kept);
    forall f | f in fs && HasAnyStream(f)
      ensures VideoRow(f) in VideoFormatList(fs)
    {
      var j :| 0 <= j < |kept| && kept[j] == f;
      assert VideoFormatList(fs)[j] == VideoRow(f);
    }
    forall k | 0 <= k < |VideoFormatList(fs)|
      ensures exists f :: f in fs && HasAnyStream(f) && VideoFormatList(fs)[k] == VideoRow(f)
    {
      assert kept[k] in kept;
    }
  }

  /** An audio row exists for exactly the formats with an audio stream. */
  lemma AudioListMembers(fs: seq<Format>)
    ensures forall f :: f in fs && HasAudioStream(f) ==> AudioRow(f) in AudioFormatList(fs)
    ensures forall k :: 0 <= k < |AudioFormatList(fs)| ==>
              exists f :: f in fs && HasAudioStream(f) && AudioFormatList(fs)[k] == AudioRow(f)
  {
    var kept := Filter(HasAudioStream, fs);
    FilterMembers(HasAudioStream, fs);
    MapAt(AudioRow, kept);
    forall f | f in fs && HasAudioStream(f)
      ensures AudioRow(f) in AudioFormatList(fs)
    {
      var j :| 0 <= j < |kept| && kept[j] == f;
      assert AudioFormatList(fs)[j] == AudioRow(f);
    }
    forall k | 0 <= k < |AudioFormatList(fs)|
      ensures exists f :: f in fs && HasAudioStream(f) && AudioFormatList(fs)[k] == AudioRow(f)
    {
      assert kept[k] in kept;
    }
  }

  /** Every format with audio passes the video list's filter too, so the audio list is
      never longer than the video list. */
  lemma AudioListNoLongerThanVideoList(fs: seq<Format>)
    ensures |AudioFormatList(fs)| <= |VideoFormatList(fs)|
  {
    FilterMonotone(HasAudioStream, HasAnyStream, fs);
  }

  /** A single item detected as audio has a non-empty audio list. */
  lemma DetectedAudioHasAudioRows(info: Info)
    requires DetectMediaType(info) == Some(Audio)
    ensures |AudioFormatList(info.formats)| > 0
  {
    var k :| 0 <= k < |info.formats| && HasAudioStream(info.formats[k]);
    AudioListMembers(info.formats);
    assert AudioRow(info.formats[k]) in AudioFormatList(info.formats);
  }

  // ---------------------------------------------------------------------------
  // Entry lists

  /** A row of a playlist's `entries` list. */
  datatype EntryRow = EntryRow(id: Option<string>, url: Option<string>, title: Option<string>)

  function EntryRowOf(e: Info): EntryRow {
    EntryRow(e.id, e.url, e.title)
  }

  /** The comprehension over `info.get('entries', [])` that skips null entries. */
  function PlaylistEntries(entries: Option<seq<Option<Info>>>): (r: seq<EntryRow>)
    ensures entries.None? ==> r == []
    ensures entries.Some? ==> |r| <= |entries.value| && (|r| == |entries.value| <==> None !in entries.value)
    ensures entries.Some? ==> forall e :: Some(e) in entries.value ==> EntryRowOf(e) in r
    ensures |r| == |Present(entries.GetOr([]))|
    ensures forall k :: 0 <= k < |r| ==> r[k] == EntryRowOf(Present(entries.GetOr([]))[k])
  {
    var present := Present(entries.GetOr([]));
    PresentMembers(entries.GetOr([]));
    MapAt(EntryRowOf, present);
    Map(EntryRowOf, present)
  }

  /** One item of a gallery. */
  datatype GalleryItem = GalleryItem(
    id: string,               // default ""
    url: Option<string>,
    title: string,            // default "Untitled"
    ext: string,              // default "jpg"
    mediaType: MediaType)     // Image or Video

  function GalleryItemOf(e: Info): GalleryItem {
    GalleryItem(e.id.GetOr(""), e.url, e.title.GetOr("Untitled"), e.ext.GetOr("jpg"), if IsImageFormat(e) then Image else Video)
  }

  /** The gallery loop: one item per entry; a null entry stops it (the Python code calls
      `.get` on it), which `None` stands for. */
  function GalleryItemsOf(entries: seq<Option<Info>>): Option<seq<GalleryItem>> {
    if None in entries then None else Some(Map(GalleryItemOf, Present(entries)))
  }

  method GalleryItems(entries: seq<Option<Info>>) returns (items: Option<seq<GalleryItem>>)
    ensures items == GalleryItemsOf(entries)
  {
    var acc: seq<GalleryItem> := [];
    var i := 0;
    while i < |entries|
      invariant 0 <= i <= |entries|
      invariant None !in entries[..i]
      invariant acc == Map(GalleryItemOf, Present(entries[..i]))
    {
      var entry := entries[i];
      if entry.None? {
        assert entries[i] in entries;
        return None;
      }
      assert entries[..i + 1] == entries[..i] + [entry];
      PresentSnoc(entries[..i], entry);
      MapSnoc(GalleryItemOf, Present(entries[..i]), entry.value);
      acc := acc + [GalleryItemOf(entry.value)];
      i := i + 1;
    }
    assert entries[..|entries|] == entries;
    items := Some(acc);
  }

  /** A gallery without null entries has exactly one item per entry, in order, each an
      image exactly when its entry has an image extension. */
  lemma GalleryItemPerEntry(entries: seq<Option<Info>>)
    requires None !in entries
    ensures GalleryItemsOf(entries).Some?
    ensures |GalleryItemsOf(entries).value| == |entries|
    ensures forall k :: 0 <= k < |entries| ==> GalleryItemsOf(entries).value[k] == GalleryItemOf(entries[k].value)
    ensures forall k :: 0 <= k < |entries| ==>
              (GalleryItemsOf(entries).value[k].mediaType == Image <==> IsImageFormat(entries[k].value))
  {
    PresentAllSome(entries);
    MapAt(GalleryItemOf, Present(entries));
  }

  /** With no nulls, the non-null elements are the elements themselves. */
  lemma {:induction false} PresentAllSome<T(!new)>(s: seq<Option<T>>)
    requires None !in s
    ensures |Present(s)| == |s|
    ensures forall k :: 0 <= k < |s| ==> Present(s)[k] == s[k].value
  {
    if s != [] {
      var init := s[..|s| - 1];
      assert s == init + [s[|s| - 1]];
      PresentAllSome(init);
      PresentSnoc(init, s[|s| - 1]);
    }
  }

  // ---------------------------------------------------------------------------
  // `get_media_info`

  /** The description, absent counting as empty, cut to 200 characters. */
  function Description(info: Info): (r: string)
    ensures |r| == if |info.description.GetOr("")| <= 200 then |info.description.GetOr("")| else 200
    ensures r == info.description.GetOr("")[..|r|]
    ensures |info.description.GetOr("")| <= 200 ==> r == info.description.GetOr("")
  {
    Take(info.description.GetOr(""), 200)
  }

  datatype MediaInfoResult =
    | GalleryInfo(galleryTitle: string, itemCount: nat, items: seq<GalleryItem>, description: string)
    | ImageInfo(imageTitle: string, url: Option<string>, ext: string)
    | AudioInfo(title: Option<string>, audioFormats: seq<AudioFormatRow>)
    | PlaylistInfo(title: Option<string>, entries: seq<EntryRow>)
    | VideoInfo(title: Option<string>, description: string, videoFormats: seq<VideoFormatRow>)   // `is_live` is False
    | InfoFailed(failure: ErrorInfo)

  const UpcomingFailure :=
    ErrorInfo(UpcomingStream, "This is an upcoming premiere or scheduled stream",
              Some("Wait until the premiere starts and becomes available as a video"), NoExtra)
  const LiveFailure :=
    ErrorInfo(LiveStream, "This content is currently live streaming",
              Some("Wait until the live stream ends and a recording becomes available"), LiveFlag)

  /** `str(e)` of the AttributeError raised by calling `.get` on a null entry. */
  const NullEntryMessage := "'NoneType' object has no attribute 'get'"

  /** The failure reported for live content: UPCOMING_STREAM for an upcoming premiere,
      LIVE_STREAM otherwise, an absent status counting as "is_live". */
  function LiveReport(info: Info): ErrorInfo {
    if info.liveStatus.GetOr("is_live") == "is_upcoming" then UpcomingFailure else LiveFailure
  }

  /** The description of content that is not live, by its detected media type. */
  function Describe(info: Info, t: MediaType): MediaInfoResult {
    match t
    case Gallery =>
      (match GalleryItemsOf(info.entries.GetOr([]))
       case None => InfoFailed(Classify(NullEntryMessage))
       case Some(items) => GalleryInfo(info.title.GetOr("Gallery"), |items|, items, Description(info)))
    case Image => ImageInfo(info.title.GetOr("Image"), info.url, info.ext.GetOr("jpg"))
    case Audio => AudioInfo(info.title, AudioFormatList(info.formats))
    case Playlist => PlaylistInfo(info.title, PlaylistEntries(info.entries))
    case Video => VideoInfo(info.title, Description(info), VideoFormatList(info.formats))
  }

  /** What `get_media_info` reports for what the engine produced. */
  function MediaInfoOf(r: Engine<Info>): MediaInfoResult {
    match r
    case Raised(e) => InfoFailed(InfoFailure(e))
    case Returned(info) =>
      if IsLiveContent(Some(info)) then InfoFailed(LiveReport(info))
      else
        match DetectMediaType(info)
        case None => InfoFailed(Classify(NullEntryMessage))
        case Some(t) => Describe(info, t)
  }

  /** `get_media_info` once the options are built and the engine has answered. */
  method GetMediaInfo(r: Engine<Info>) returns (result: MediaInfoResult)
    ensures result == MediaInfoOf(r)
  {
    if r.Raised? {
      return InfoFailed(InfoFailure(r.error));
    }
    var info := r.value;
    if IsLiveContent(Some(info)) {
      var liveStatus := info.liveStatus.GetOr("is_live");
      if liveStatus == "is_upcoming" {
        return InfoFailed(UpcomingFailure);
      }
      return InfoFailed(LiveFailure);
    }
    var mediaType := DetectMediaType(info);
    if mediaType.None? {
      return InfoFailed(Classify(NullEntryMessage));
    }
    match mediaType.value
    case Gallery =>
      var items := GalleryItems(info.entries.GetOr([]));
      if items.None? {
        return InfoFailed(Classify(NullEntryMessage));
      }
      result := GalleryInfo(info.title.GetOr("Gallery"), |items.value|, items.value, Description(info));
    case Image =>
      result := ImageInfo(info.title.GetOr("Image"), info.url, info.ext.GetOr("jpg"));
    case Audio =>
      var formats := AudioFormats(info.formats);
      result := AudioInfo(info.title, formats);
    case Playlist =>
      result := PlaylistInfo(info.title, PlaylistEntries(info.entries));
    case Video =>
      var formats := VideoFormats(info.formats);
      result := VideoInfo(info.title, Description(info), formats);
  }

  /** Live content is never described: it is UPCOMING_STREAM exactly when its live status
      is "is_upcoming" (an absent status counts as "is_live"), and otherwise LIVE_STREAM with
      the `is_live` flag. */
  lemma LiveShortCircuit(info: Info)
    requires IsLiveContent(Some(info))
    ensures MediaInfoOf(Returned(info)).InfoFailed?
    ensures MediaInfoOf(Returned(info)).failure.code == UpcomingStream <==> info.liveStatus == Some("is_upcoming")
    ensures MediaInfoOf(Returned(info)).failure.code == LiveStream <==> info.liveStatus != Some("is_upcoming")
    ensures MediaInfoOf(Returned(info)).failure.code == LiveStream ==> MediaInfoOf(Returned(info)).failure.extra == LiveFlag
  {
  }

  /** UPCOMING_STREAM comes only from the live check: whatever the engine produced,
      `get_media_info` reports it exactly for live content whose status is "is_upcoming". */
  lemma UpcomingOnlyFromLiveCheck(r: Engine<Info>)
    ensures (MediaInfoOf(r).InfoFailed? && MediaInfoOf(r).failure.code == UpcomingStream)
            <==> r.Returned? && IsLiveContent(Some(r.value)) && r.value.liveStatus == Some("is_upcoming")
  {
    ClassifierNeverReservedCodes(NullEntryMessage);
    if r.Raised? {
      InfoFailureCodes(r.error);
      ClassifierNeverReservedCodes(r.error.message);
    }
  }

  /** Content that is not live is described according to the detected media type. */
  lemma ShapeFollowsDetection(info: Info)
    requires !IsLiveContent(Some(info))
    ensures DetectMediaType(info) == Some(Image) ==> MediaInfoOf(Returned(info)).ImageInfo?
    ensures DetectMediaType(info) == Some(Audio) ==> MediaInfoOf(Returned(info)).AudioInfo?
    ensures DetectMediaType(info) == Some(Playlist) ==> MediaInfoOf(Returned(info)).PlaylistInfo?
    ensures DetectMediaType(info) == Some(Video) ==> MediaInfoOf(Returned(info)).VideoInfo?
    ensures DetectMediaType(info) == Some(Gallery) ==>
              (MediaInfoOf(Returned(info)).GalleryInfo? <==> None !in info.entries.value)
    ensures DetectMediaType(info).None? ==> MediaInfoOf(Returned(info)) == InfoFailed(Classify(NullEntryMessage))
  {
  }

  /** A described gallery has one item per entry and reports that count; descriptions
      are at most 200 characters. */
  lemma GalleryCounts(info: Info)
    requires MediaInfoOf(Returned(info)).GalleryInfo?
    ensures info.entries.Some?
    ensures MediaInfoOf(Returned(info)).itemCount == |MediaInfoOf(Returned(info)).items| == |info.entries.value|
    ensures |MediaInfoOf(Returned(info)).description| <= 200
  {
    GalleryItemPerEntry(info.entries.value);
  }

  // ---------------------------------------------------------------------------
  // `download_media`

  datatype DownloadResult =
    | Saved(filename: string, title: Option<string>)
    | SavedMany(filenames: seq<string>, title: Option<string>, count: nat)
    | DownloadFailed(failure: ErrorInfo)

  const LiveDownloadFailure := ErrorInfo(LiveStream, "Cannot download live content", Some("Wait until the stream ends"), NoExtra)

  /** What `download_media` reports once `extract_info(url, download=True)` has answered;
      `prepareFilename` is the engine's `prepare_filename`. The live check looks at the
      info the download returned. */
  function DownloadResultOf(r: Engine<Info>, prepareFilename: Info -> string): DownloadResult {
    match r
    case Raised(e) => DownloadFailed(DownloadFailure(e))
    case Returned(info) =>
      if IsLiveContent(Some(info)) then DownloadFailed(LiveDownloadFailure)
      else if info.entries.Some? then
        var files := Map(prepareFilename, Present(info.entries.value));
        SavedMany(files, info.title, |files|)
      else Saved(prepareFilename(info), info.title)
  }

  /** The loop over the entries of a multi-file result. */
  method DownloadedFiles(entries: seq<Option<Info>>, prepareFilename: Info -> string) returns (files: seq<string>)
    ensures files == Map(prepareFilename, Present(entries))
  {
    files := [];
    var i := 0;
    while i < |entries|
      invariant 0 <= i <= |entries|
      invariant files == Map(prepareFilename, Present(entries[..i]))
    {
      var entry := entries[i];
      assert entries[..i + 1] == entries[..i] + [entry];
      PresentSnoc(entries[..i], entry);
      if entry.Some? {
        MapSnoc(prepareFilename, Present(entries[..i]), entry.value);
        files := files + [prepareFilename(entry.value)];
      }
      i := i + 1;
    }
    assert entries[..|entries|] == entries;
  }

  method DownloadMediaResult(r: Engine<Info>, prepareFilename: Info -> string) returns (result: DownloadResult)
    ensures result == DownloadResultOf(r, prepareFilename)
  {
    if r.Raised? {
      return DownloadFailed(DownloadFailure(r.error));
    }
    var info := r.value;
    if IsLiveContent(Some(info)) {
      return DownloadFailed(LiveDownloadFailure);
    }
    if info.entries.Some? {
      var files := DownloadedFiles(info.entries.value, prepareFilename);
      return SavedMany(files, info.title, |files|);
    }
    return Saved(prepareFilename(info), info.title);
  }

  /** A multi-file result names one file per non-null entry, in order, and its count is
      the number of names; it names every entry exactly when none is null. */
  lemma ManyFilesCount(info: Info, prepareFilename: Info -> string)
    requires !IsLiveContent(Some(info)) && info.entries.Some?
    ensures DownloadResultOf(Returned(info), prepareFilename).SavedMany?
    ensures var r := DownloadResultOf(Returned(info), prepareFilename);
            r.count == |r.filenames| <= |info.entries.value|
            && (r.count == |info.entries.value| <==> None !in info.entries.value)
    ensures var r := DownloadResultOf(Returned(info), prepareFilename);
            forall e :: Some(e) in info.entries.value ==> prepareFilename(e) in r.filenames
    ensures var r := DownloadResultOf(Returned(info), prepareFilename);
            |r.filenames| == |Present(info.entries.value)|
            && forall k :: 0 <= k < |r.filenames| ==> r.filenames[k] == prepareFilename(Present(info.entries.value)[k])
  {
    var present := Present(info.entries.value);
    PresentMembers(info.entries.value);
    MapAt(prepareFilename, present);
    forall e | Some(e) in info.entries.value
      ensures prepareFilename(e) in Map(prepareFilename, present)
    {
      var k :| 0 <= k < |present| && present[k] == e;
      assert Map(prepareFilename, present)[k] == prepareFilename(e);
    }
  }

  /** Live content that the engine returned is reported as LIVE_STREAM, without the
      `is_live` flag of `get_media_info`, whatever its entries are. */
  lemma LiveDownloadReported(info: Info, prepareFilename: Info -> string)
    requires IsLiveContent(Some(info))
    ensures DownloadResultOf(Returned(info), prepareFilename) == DownloadFailed(LiveDownloadFailure)
    ensures LiveDownloadFailure.code == LiveStream && LiveDownloadFailure.extra == NoExtra
  {
  }

  /** A download ends in CANCELLED exactly when the engine raised the cancellation. */
  lemma DownloadCancelledIff(r: Engine<Info>, prepareFilename: Info -> string)
    ensures (DownloadResultOf(r, prepareFilename).DownloadFailed? && DownloadResultOf(r, prepareFilename).failure.code == Cancelled)
            <==> r.Raised? && r.error.kind == DownloadCancelledError
  {
    if r.Raised? {
      DownloadFailureCodes(r.error);
    }
  }

  /** The engine's answer to a `download_media` call whose progress hook ran `session`:
      the hook's `DownloadCancelled()`, which carries no message, when a tick saw the
      flag, else the extracted information. */
  function SessionAnswer(session: CancelRegistry.Session, info: Info): Engine<Info> {
    if session.cancelled then Raised(EngineError(DownloadCancelledError, "")) else Returned(info)
  }

  /** A `download_media` call reports CANCELLED exactly when its session was cancelled,
      that is, when a progress tick that looks at the registry came while the task's
      flag was up. */
  lemma SessionCancelReported(s: set<string>, steps: seq<CancelRegistry.Step>, hasCallback: bool,
                              taskId: Option<string>, info: Info, prepareFilename: Info -> string)
    ensures var session := CancelRegistry.RunSession(s, steps, hasCallback, taskId);
            var r := DownloadResultOf(SessionAnswer(session, info), prepareFilename);
            (r.DownloadFailed? && r.failure.code == Cancelled) <==> session.cancelled
    ensures var r := DownloadResultOf(SessionAnswer(CancelRegistry.RunSession(s, steps, hasCallback, taskId), info), prepareFilename);
            (r.DownloadFailed? && r.failure.code == Cancelled)
            <==> exists j :: 0 <= j < |steps| && CancelRegistry.ObservingTick(steps[j], hasCallback, taskId)
                             && CancelRegistry.FlagRaisedBefore(s, steps, j, taskId.value)
  {
    var session := CancelRegistry.RunSession(s, steps, hasCallback, taskId);
    DownloadCancelledIff(SessionAnswer(session, info), prepareFilename);
    CancelRegistry.SessionCancelledIff(s, steps, hasCallback, taskId);
  }

  // ---------------------------------------------------------------------------
  // `download_video` and `get_video_info`

  datatype VideoDownload =
    | VideoSaved(filename: string, title: Option<string>)
    | VideoCancelled(failure: ErrorInfo)
    | VideoFailed(error: string)      // only `error`, no code

  /** `download_video`: cancellation has the fixed payload; any other exception is
      reported by its bare message, without classification. */
  function DownloadVideoResult(r: Engine<Info>, prepareFilename: Info -> string): VideoDownload {
    match r
    case Returned(info) => VideoSaved(prepareFilename(info), info.title)
    case Raised(e) => if e.kind == DownloadCancelledError then VideoCancelled(CancelledFailure) else VideoFailed(e.message)
  }

  /** `download_video` reports a cancellation exactly as `download_media` does, and every
      other failure with the exception's own message. */
  lemma DownloadVideoFailures(e: EngineError, prepareFilename: Info -> string)
    ensures e.kind == DownloadCancelledError ==>
              DownloadVideoResult(Raised(e), prepareFilename) == VideoCancelled(DownloadFailure(e))
    ensures e.kind != DownloadCancelledError ==>
              DownloadVideoResult(Raised(e), prepareFilename).VideoFailed?
              && DownloadVideoResult(Raised(e), prepareFilename).error == e.message
  {
  }

  datatype VideoInfoResult =
    | PlaylistSummary(title: Option<string>, entries: seq<EntryRow>)
    | VideoSummary(title: Option<string>, description: string, formats: seq<VideoFormatRow>)
    | VideoInfoFailed(error: string)

  /** `get_video_info`: a flat playlist lists its non-null entries; anything else is
      described with its format list. Failures carry only the message. */
  function VideoInfoOf(r: Engine<Info>): VideoInfoResult {
    match r
    case Raised(e) => VideoInfoFailed(e.message)
    case Returned(info) =>
      if info.kind == Some("playlist") then PlaylistSummary(info.title, PlaylistEntries(info.entries))
      else VideoSummary(info.title, Description(info), VideoFormatList(info.formats))
  }

  method GetVideoInfo(r: Engine<Info>) returns (result: VideoInfoResult)
    ensures result == VideoInfoOf(r)
  {
    if r.Raised? {
      return VideoInfoFailed(r.error.message);
    }
    var info := r.value;
    if info.kind == Some("playlist") {
      return PlaylistSummary(info.title, PlaylistEntries(info.entries));
    }
    var formats := VideoFormats(info.formats);
    result := VideoSummary(info.title, Description(info), formats);
  }

  /** For a single video that is not live, `get_video_info` and `get_media_info` agree on
      the title, the description and the format list. */
  lemma VideoInfoAgreesWithMediaInfo(info: Info)
    requires !IsLiveContent(Some(info)) && DetectMediaType(info) == Some(Video) && info.kind != Some("playlist")
    ensures VideoInfoOf(Returned(info)).VideoSummary? && MediaInfoOf(Returned(info)).VideoInfo?
    ensures VideoInfoOf(Returned(info)).formats == MediaInfoOf(Returned(info)).videoFormats
    ensures VideoInfoOf(Returned(info)).description == MediaInfoOf(Returned(info)).description
    ensures VideoInfoOf(Returned(info)).title == MediaInfoOf(Returned(info)).title
  {
  }

  // ---------------------------------------------------------------------------
  // `get_supported_sites`

  datatype SitesResult = Sites(count: nat, sites: seq<string>) | SitesFailed(error: string)

  /** The extractors' `IE_NAME`s (absent for an extractor without one): the count is of
      all names, the list holds the first 100. */
  function SupportedSites(r: Engine<seq<Option<string>>>): SitesResult {
    match r
    case Raised(e) => SitesFailed(e.message)
    case Returned(names) =>
      var sites := Present(names);
      Sites(|sites|, Take(sites, 100))
  }

  /** The list is capped at 100 while the count stays the full number of named
      extractors, and the list is the first names in order. */
  lemma SitesCapped(names: seq<Option<string>>)
    ensures var r := SupportedSites(Returned(names));
            r.Sites? && r.count == |Present(names)|
            && |r.sites| == (if r.count <= 100 then r.count else 100)
            && r.sites == Present(names)[..|r.sites|]
    ensures var r := SupportedSites(Returned(names));
            forall s :: s in r.sites ==> Some(s) in names
    ensures None !in names ==> SupportedSites(Returned(names)).count == |names|
  {
    var sites := Present(names);
    PresentMembers(names);
    var r := SupportedSites(Returned(names));
    forall s | s in r.sites
      ensures Some(s) in names
    {
      var k :| 0 <= k < |r.sites| && r.sites[k] == s;
      assert sites[k] in sites;
    }
  }
}
