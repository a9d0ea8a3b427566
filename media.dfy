/** The engine's metadata as downloader.py reads it, and the decisions taken on it:
    `_is_image_format`, `_detect_media_type` and `_is_live_content`. */
module Media {
  import opened Common

  /** One format of a media item; an absent key is `None`. */
  datatype Format = Format(
    formatId: Option<string>,
    ext: Option<string>,
    formatNote: Option<string>,
    resolution: Option<string>,
    abr: Option<real>,
    vcodec: Option<string>,
    acodec: Option<string>)

  /** The info dictionary returned by the engine for a URL or for one entry of it.
      `entries` is absent for a single item; an entry may be null. */
  datatype Info = Info(
    id: Option<string>,
    url: Option<string>,
    title: Option<string>,
    description: Option<string>,
    ext: Option<string>,
    isLive: Option<bool>,
    liveStatus: Option<string>,
    kind: Option<string>,                  // the `_type` key
    formats: seq<Format>,                  // `formats`, empty when absent
    entries: Option<seq<Option<Info>>>)

  datatype MediaType = Video | Audio | Image | Gallery | Playlist

  /** The extension list of `_is_image_format` (line 577). */
  const ImageExtensions: seq<string> := ["jpg", "jpeg", "png", "webp", "gif", "bmp", "svg", "tiff"]

  /** The list `_detect_media_type` uses for a single item (line 595): it has no "tiff". */
  const SingleImageExtensions: seq<string> := ["jpg", "jpeg", "png", "webp", "gif", "bmp", "svg"]

  /** Python's `f.get('vcodec') != 'none'`: an absent codec counts as a stream. */
  predicate HasVideoStream(f: Format) {
    f.vcodec != Some("none")
  }

  predicate HasAudioStream(f: Format) {
    f.acodec != Some("none")
  }

  /** `_is_image_format`: the lower-cased `ext` (default "") is in the image list. */
  predicate IsImageFormat(entry: Info) {
    Lower(entry.ext.GetOr("")) in ImageExtensions
  }

  predicate AnyVideo(fs: seq<Format>) {
    exists k :: 0 <= k < |fs| && HasVideoStream(fs[k])
  }

  predicate AnyAudio(fs: seq<Format>) {
    exists k :: 0 <= k < |fs| && HasAudioStream(fs[k])
  }

  /** `_detect_media_type`. `None` stands for the AttributeError Python raises when the
      first entry of a multi-entry result is null. */
  function DetectMediaType(info: Info): Option<MediaType> {
    if info.entries.Some? && |info.entries.value| > 1 then
      match info.entries.value[0]
      case None => None
      case Some(first) => if IsImageFormat(first) then Some(Gallery) else Some(Playlist)
    else if Lower(info.ext.GetOr("")) in SingleImageExtensions then Some(Image)
    else if AnyAudio(info.formats) && !AnyVideo(info.formats) then Some(Audio)
    else Some(Video)
  }

  /** The title markers `_is_live_content` looks for. */
  const LiveTitleMarkers: seq<string> := ["[live]", "(live)", "live stream", "streaming now"]

  const LiveStatuses: seq<string> := ["is_live", "is_upcoming", "was_live"]

  /** `_is_live_content`; a falsy (null) info is not live. */
  predicate IsLiveContent(info: Option<Info>) {
    match info
    case None => false
    case Some(i) =>
      || i.isLive == Some(true)
      || (i.liveStatus.Some? && i.liveStatus.value in LiveStatuses)
      || exists k :: 0 <= k < |LiveTitleMarkers| && Contains(Lower(i.title.GetOr("")), LiveTitleMarkers[k])
  }

  // ---------------------------------------------------------------------------
  // Properties of the detector

  /** A result with more than one entry is a gallery exactly when the first entry is
      non-null and has an extension from the eight-item image list, a playlist when the
      first entry is non-null and does not, and undetermined when it is null. */
  lemma MultiEntryDetection(info: Info)
    requires info.entries.Some? && |info.entries.value| > 1
    ensures info.entries.value[0].None? <==> DetectMediaType(info).None?
    ensures DetectMediaType(info) == Some(Gallery)
            <==> info.entries.value[0].Some? && Lower(info.entries.value[0].value.ext.GetOr("")) in ImageExtensions
    ensures DetectMediaType(info) == Some(Playlist)
            <==> info.entries.value[0].Some? && Lower(info.entries.value[0].value.ext.GetOr("")) !in ImageExtensions
  {
  }

  /** A single item (at most one entry) is always classified, and is an image exactly
      when its lower-cased extension is in the seven-item list. */
  lemma SingleItemImage(info: Info)
    requires info.entries.None? || |info.entries.value| <= 1
    ensures DetectMediaType(info).Some?
    ensures DetectMediaType(info) == Some(Image) <==> Lower(info.ext.GetOr("")) in SingleImageExtensions
    ensures DetectMediaType(info) != Some(Gallery) && DetectMediaType(info) != Some(Playlist)
  {
  }

  /** A single non-image item is audio exactly when some format has audio and none has
      video; otherwise it is video. */
  lemma SingleItemAudioOrVideo(info: Info)
    requires info.entries.None? || |info.entries.value| <= 1
    requires Lower(info.ext.GetOr("")) !in SingleImageExtensions
    ensures DetectMediaType(info) == Some(Audio)
            <==> (exists k :: 0 <= k < |info.formats| && HasAudioStream(info.formats[k]))
                 && (forall k :: 0 <= k < |info.formats| ==> !HasVideoStream(info.formats[k]))
    ensures DetectMediaType(info) != Some(Audio) ==> DetectMediaType(info) == Some(Video)
  {
  }

  /** A single non-image item with no formats is video. */
  lemma NoFormatsIsVideo(info: Info)
    requires info.entries.None? || |info.entries.value| <= 1
    requires Lower(info.ext.GetOr("")) !in SingleImageExtensions
    requires info.formats == []
    ensures DetectMediaType(info) == Some(Video)
  {
  }

  /** The two image lists differ only in "tiff": a single `.tiff` item is not an image,
      though a gallery whose first entry is `.tiff` is a gallery. */
  lemma TiffOnlyInGalleryList(e: string)
    ensures e in ImageExtensions <==> e in SingleImageExtensions || e == "tiff"
    ensures "tiff" !in SingleImageExtensions
  {
  }

  /** Extension tests ignore letter case: lower-casing the extension beforehand changes
      nothing. */
  lemma ImageFormatIgnoresCase(entry: Info, ext: string)
    requires Lower(entry.ext.GetOr("")) == Lower(ext)
    ensures IsImageFormat(entry) <==> Lower(ext) in ImageExtensions
    ensures IsImageFormat(entry) == IsImageFormat(entry.(ext := Some(Lower(entry.ext.GetOr("")))))
  {
    LowerIdempotent(entry.ext.GetOr(""));
  }

  // ---------------------------------------------------------------------------
  // Properties of the live check

  /** The live check is true exactly for an explicit flag, a live status among the three
      live ones, or a title carrying one of the four markers in any letter case. */
  lemma LiveIff(i: Info)
    ensures IsLiveContent(Some(i))
            <==> i.isLive == Some(true)
                 || i.liveStatus == Some("is_live") || i.liveStatus == Some("is_upcoming")
                 || i.liveStatus == Some("was_live")
                 || Contains(Lower(i.title.GetOr("")), "[live]")
                 || Contains(Lower(i.title.GetOr("")), "(live)")
                 || Contains(Lower(i.title.GetOr("")), "live stream")
                 || Contains(Lower(i.title.GetOr("")), "streaming now")
    ensures !IsLiveContent(None)
  {
    var t := Lower(i.title.GetOr(""));
    assert (exists k :: 0 <= k < |LiveTitleMarkers| && Contains(t, LiveTitleMarkers[k]))
           <==> Contains(t, "[live]") || Contains(t, "(live)") || Contains(t, "live stream") || Contains(t, "streaming now")
    by {
      assert LiveTitleMarkers[0] == "[live]" && LiveTitleMarkers[1] == "(live)";
      assert LiveTitleMarkers[2] == "live stream" && LiveTitleMarkers[3] == "streaming now";
    }
  }

  /** A title that carries "[live]" in any letter case `w` makes the content live even
      without any structured live field. */
  lemma LiveMarkerInTitle(i: Info, before: string, w: string, after: string)
    requires i.title == Some(before + w + after) && Lower(w) == "[live]"
    ensures IsLiveContent(Some(i))
  {
    var t := before + w + after;
    ContainsInfix(before, w, after);
    ContainsLower(t, w);
    assert LiveTitleMarkers[0] == "[live]";
  }
}
