/** The Android side of the bridge (YtdlpBridgePlugin.kt): the extension-to-MIME table and
    the MediaStore directory and collection chosen from it in `saveToMediaStore`, and the
    argument validation and defaults with which `onMethodCall` dispatches a call from the
    application to the Python module. */
module Plugin {
  import opened Common
  import opened YdlOptions
  import Media
  import CancelRegistry

  // ---------------------------------------------------------------------------
  // File names

  /** Kotlin's `s.substringAfterLast(c, missing)`: what follows the last `c`, or `missing`
      when `s` has no `c`. */
  function AfterLast(s: string, c: char, missing: string): (r: string)
    ensures c !in s ==> r == missing
    ensures c in s ==> c !in r && |r| < |s| && r == s[|s| - |r|..] && s[|s| - |r| - 1] == c
  {
    if |s| == 0 then missing
    else if s[|s| - 1] == c then ""
    else if c !in s[..|s| - 1] then missing
    else AfterLast(s[..|s| - 1], c, missing) + [s[|s| - 1]]
  }

  /** No two consecutive separators. */
  predicate NoDoubleSlash(s: string) {
    forall i :: 0 <= i < |s| - 1 ==> !(s[i] == '/' && s[i + 1] == '/')
  }

  /** Each run of '/' shortened to one. */
  function CollapseSlashes(s: string): (r: string)
    ensures |r| <= |s|
    ensures |s| > 0 ==> |r| > 0 && r[|r| - 1] == s[|s| - 1]
    ensures NoDoubleSlash(r)
    ensures NoDoubleSlash(s) ==> r == s
  {
    if |s| < 2 then s
    else if s[|s| - 1] == '/' && s[|s| - 2] == '/' then CollapseSlashes(s[..|s| - 1])
    else CollapseSlashes(s[..|s| - 1]) + [s[|s| - 1]]
  }

  /** The path `java.io.File` keeps on a Unix file system: runs of '/' collapsed and a
      trailing '/' dropped, except from the root "/" itself. */
  function NormalizePath(path: string): (r: string)
    ensures NoDoubleSlash(r)
    ensures |r| > 1 ==> r[|r| - 1] != '/'
    ensures NoDoubleSlash(path) && (|path| <= 1 || path[|path| - 1] != '/') ==> r == path
  {
    var c := CollapseSlashes(path);
    if |c| > 1 && c[|c| - 1] == '/' then c[..|c| - 1] else c
  }

  /** `File(path).name`: the last segment of the normalised path. */
  function FileName(path: string): string {
    var n := NormalizePath(path);
    AfterLast(n, '/', n)
  }

  /** `File(path).extension`: what follows the last '.' of the name, or "". */
  function FileExtension(path: string): string {
    AfterLast(FileName(path), '.', "")
  }

  /** Whatever precedes the last `c`, the text after it is recovered. */
  lemma {:induction false} AfterLastOfAppend(s: string, c: char, t: string, missing: string)
    requires c !in t
    ensures AfterLast(s + [c] + t, c, missing) == t
  {
    var u := s + [c] + t;
    if t == [] {
      assert u[|u| - 1] == c;
    } else {
      var t' := t[..|t| - 1];
      assert u[..|u| - 1] == s + [c] + t';
      assert c in u[..|u| - 1] by {
        assert u[..|u| - 1][|s|] == c;
      }
      assert c !in t' by {
        assert forall k :: 0 <= k < |t'| ==> t'[k] == t[k];
      }
      AfterLastOfAppend(s, c, t', missing);
      assert t == t' + [t[|t| - 1]];
    }
  }

  /** A file written as `<dir>/<base>.<ext>` has extension `ext` when neither `base` nor
      `ext` contains '/' and `ext` contains no '.'. */
  lemma ExtensionOfJoinedPath(dir: string, base: string, ext: string)
    requires '/' !in base && '/' !in ext && '.' !in ext
    ensures FileName(dir + "/" + base + "." + ext) == base + "." + ext
    ensures FileExtension(dir + "/" + base + "." + ext) == ext
  {
    var name := base + "." + ext;
    assert '/' !in name by {
      assert forall k :: 0 <= k < |name| ==> name[k] == (if k < |base| then base[k] else if k == |base| then '.' else ext[k - |base| - 1]);
    }
    var head := CollapseSlashes(dir + "/");
    assert dir + "/" + base + "." + ext == (dir + "/") + name;
    CollapseAppendSegment(dir + "/", name);
    var n := head + name;
    assert n[|n| - 1] == name[|name| - 1] != '/' by {
      assert name[|name| - 1] in name;
    }
    assert NormalizePath(dir + "/" + base + "." + ext) == n;
    assert head[|head| - 1] == '/';
    assert n == head[..|head| - 1] + ['/'] + name;
    AfterLastOfAppend(head[..|head| - 1], '/', name, n);
    assert name == base + ['.'] + ext;
    AfterLastOfAppend(base, '.', ext, "");
  }

  /** Collapsing leaves a final stretch without separators untouched. */
  lemma {:induction false} CollapseAppendSegment(s: string, t: string)
    requires '/' !in t
    ensures CollapseSlashes(s + t) == CollapseSlashes(s) + t
    decreases |t|
  {
    if t == [] {
      assert s + t == s;
    } else {
      var t' := t[..|t| - 1];
      var x := t[|t| - 1];
      assert x in t;
      assert t == t' + [x];
      assert s + t == (s + t') + [x];
      assert '/' !in t' by {
        assert forall k :: 0 <= k < |t'| ==> t'[k] == t[k];
      }
      CollapseAppendSegment(s, t');
      if |s + t| < 2 {
        assert s == [] && t == [x];
      } else {
        var u := s + t;
        assert u[..|u| - 1] == s + t';
        assert u[|u| - 1] == x;
        assert CollapseSlashes(u) == CollapseSlashes(s + t') + [x];
      }
    }
  }

  /** A trailing '/' never changes the file, as `java.io.File` drops it: "d/v.mp4/" is
      the file "v.mp4". */
  lemma TrailingSlashIgnored(path: string)
    ensures FileName(path + "/") == FileName(path)
    ensures FileExtension(path + "/") == FileExtension(path)
    ensures MimeType(path + "/") == MimeType(path)
  {
    var p := path + "/";
    assert p[..|p| - 1] == path;
    if |path| > 0 {
      if path[|path| - 1] == '/' {
        assert CollapseSlashes(p) == CollapseSlashes(path);
      } else {
        assert CollapseSlashes(p) == CollapseSlashes(path) + ['/'];
      }
    } else {
      assert NormalizePath(p) == "/";
    }
  }

  // ---------------------------------------------------------------------------
  // MIME types and MediaStore locations

  /** The `when` table on the lower-cased extension. */
  function MimeForExtension(ext: string): string {
    match ext
    case "mp4" => "video/mp4"
    case "mkv" => "video/x-matroska"
    case "webm" => "video/webm"
    case "avi" => "video/x-msvideo"
    case "mov" => "video/quicktime"
    case "mp3" => "audio/mpeg"
    case "m4a" => "audio/mp4"
    case "opus" => "audio/opus"
    case "ogg" => "audio/ogg"
    case "flac" => "audio/flac"
    case "wav" => "audio/wav"
    case "jpg" | "jpeg" => "image/jpeg"
    case "png" => "image/png"
    case "webp" => "image/webp"
    case "gif" => "image/gif"
    case "bmp" => "image/bmp"
    case "svg" => "image/svg+xml"
    case "tiff" => "image/tiff"
    case _ => "application/octet-stream"
  }

  /** The MIME type `saveToMediaStore` gives the file at `filePath`. */
  function MimeType(filePath: string): string {
    MimeForExtension(Lower(FileExtension(filePath)))
  }

  const VideoExtensions: seq<string> := ["mp4", "mkv", "webm", "avi", "mov"]
  const AudioExtensions: seq<string> := ["mp3", "m4a", "opus", "ogg", "flac", "wav"]
  const ImageExtensions: seq<string> := ["jpg", "jpeg", "png", "webp", "gif", "bmp", "svg", "tiff"]

  datatype Category = VideoCategory | AudioCategory | ImageCategory | OtherCategory

  /** `Environment.DIRECTORY_*`, the `RELATIVE_PATH` of the new entry. */
  datatype Directory = Movies | Music | Pictures | Downloads

  /** The `MediaStore` collection the entry is inserted into. */
  datatype Collection = VideoMedia | AudioMedia | ImagesMedia | DownloadsCollection

  /** The relative path, by the MIME type's prefix. */
  function RelativePath(mime: string): Directory {
    if StartsWith(mime, "video/") then Movies
    else if StartsWith(mime, "audio/") then Music
    else if StartsWith(mime, "image/") then Pictures
    else Downloads
  }

  /** The collection, by its own test of the same prefixes. */
  function CollectionFor(mime: string): Collection {
    if StartsWith(mime, "video/") then VideoMedia
    else if StartsWith(mime, "audio/") then AudioMedia
    else if StartsWith(mime, "image/") then ImagesMedia
    else DownloadsCollection
  }

  function DirectoryCategory(d: Directory): Category {
    match d
    case Movies => VideoCategory
    case Music => AudioCategory
    case Pictures => ImageCategory
    case Downloads => OtherCategory
  }

  function CollectionCategory(c: Collection): Category {
    match c
    case VideoMedia => VideoCategory
    case AudioMedia => AudioCategory
    case ImagesMedia => ImageCategory
    case DownloadsCollection => OtherCategory
  }

  /** The entry `saveToMediaStore` creates (Android 10 and later). */
  datatype SaveTarget = SaveTarget(displayName: string, mimeType: string, relativePath: Directory, collection: Collection)

  /** `None` is the early `return false` for a file that does not exist. The MIME type
      comes from the file's own path, the display name from `fileName`. */
  function MediaStoreTarget(filePath: string, fileName: string, fileExists: bool): Option<SaveTarget> {
    if !fileExists then None
    else
      var mime := MimeType(filePath);
      Some(SaveTarget(fileName, mime, RelativePath(mime), CollectionFor(mime)))
  }

  /** The relative path and the collection always name the same category. */
  lemma PathAndCollectionAgree(filePath: string, fileName: string, fileExists: bool)
    ensures var t := MediaStoreTarget(filePath, fileName, fileExists);
            t.Some? ==> DirectoryCategory(t.value.relativePath) == CollectionCategory(t.value.collection)
    ensures MediaStoreTarget(filePath, fileName, fileExists).None? <==> !fileExists
  {
    CategoriesAgree(MimeType(filePath));
  }

  lemma CategoriesAgree(mime: string)
    ensures DirectoryCategory(RelativePath(mime)) == CollectionCategory(CollectionFor(mime))
  {
  }

  /** The category an extension's list gives it. */
  function ListedCategory(ext: string): Category {
    if ext in VideoExtensions then VideoCategory
    else if ext in AudioExtensions then AudioCategory
    else if ext in ImageExtensions then ImageCategory
    else OtherCategory
  }

  lemma VideoTypes(ext: string)
    requires ext in VideoExtensions
    ensures RelativePath(MimeForExtension(ext)) == Movies
  {
    assert MimeForExtension(ext)[..6] == "video/";
  }

  lemma AudioTypes(ext: string)
    requires ext in AudioExtensions
    ensures RelativePath(MimeForExtension(ext)) == Music
  {
    var m := MimeForExtension(ext);
    assert m[..6] == "audio/";
    assert !StartsWith(m, "video/") by {
      assert m[0] == 'a';
    }
  }

  lemma ImageTypes(ext: string)
    requires ext in ImageExtensions
    ensures RelativePath(MimeForExtension(ext)) == Pictures
  {
    var m := MimeForExtension(ext);
    assert m[..6] == "image/";
    assert m[0] == 'i';
  }

  lemma OtherTypes(ext: string)
    requires ext !in VideoExtensions + AudioExtensions + ImageExtensions
    ensures MimeForExtension(ext) == "application/octet-stream"
    ensures RelativePath(MimeForExtension(ext)) == Downloads
  {
    var m := MimeForExtension(ext);
    assert m[0] == 'a' && m[1] == 'p';
  }

  lemma OctetStreamDownloads()
    ensures RelativePath("application/octet-stream") == Downloads
  {
    var m := "application/octet-stream";
    assert m[0] == 'a' && m[1] == 'p';
  }

  /** The table puts each extension in the category its list names, and exactly the
      extensions outside the lists are octet streams. */
  lemma CategoryOfExtension(ext: string)
    ensures DirectoryCategory(RelativePath(MimeForExtension(ext))) == ListedCategory(ext)
    ensures MimeForExtension(ext) == "application/octet-stream" <==> ListedCategory(ext) == OtherCategory
  {
    if ext in VideoExtensions {
      VideoTypes(ext);
    } else if ext in AudioExtensions {
      AudioTypes(ext);
    } else if ext in ImageExtensions {
      ImageTypes(ext);
    } else {
      OtherTypes(ext);
    }
    OctetStreamDownloads();
  }

  /** Both spellings of JPEG give "image/jpeg". */
  lemma JpegSpellings()
    ensures MimeForExtension("jpg") == MimeForExtension("jpeg") == "image/jpeg"
  {
  }

  /** Every extension the Python side treats as an image is saved as an image. */
  lemma PythonImagesSavedAsImages(ext: string)
    requires ext in Media.ImageExtensions
    ensures RelativePath(MimeForExtension(ext)) == Pictures && CollectionFor(MimeForExtension(ext)) == ImagesMedia
  {
    assert Media.ImageExtensions == ImageExtensions;
    ImageTypes(ext);
    var m := MimeForExtension(ext);
    assert m[..6] == "image/" && m[0] == 'i';
  }

  /** The type of a file written as `<dir>/<title>.<ext>` is looked up by its lower-cased
      extension, so the case in which the engine spelt the extension does not matter. */
  lemma MimeTypeOfJoinedPath(dir: string, title: string, ext: string)
    requires '/' !in title && '/' !in ext && '.' !in ext
    ensures MimeType(dir + "/" + title + "." + ext) == MimeForExtension(Lower(ext))
    ensures MimeType(dir + "/" + title + "." + ext) == MimeType(dir + "/" + title + "." + Lower(ext))
  {
    var lower := Lower(ext);
    LowerKeepsSeparators(ext);
    ExtensionOfJoinedPath(dir, title, ext);
    ExtensionOfJoinedPath(dir, title, lower);
    LowerIdempotent(ext);
    MimeTypeByExtension(dir + "/" + title + "." + ext, ext);
    MimeTypeByExtension(dir + "/" + title + "." + lower, lower);
  }

  lemma LowerKeepsSeparators(ext: string)
    requires '/' !in ext && '.' !in ext
    ensures '/' !in Lower(ext) && '.' !in Lower(ext)
  {
    assert forall k :: 0 <= k < |ext| ==> Lower(ext)[k] == LowerChar(ext[k]);
  }

  lemma MimeTypeByExtension(path: string, ext: string)
    requires FileExtension(path) == ext
    ensures MimeType(path) == MimeForExtension(Lower(ext))
  {
  }

  /** "JPG" is looked up as "jpg". */
  lemma UpperCaseJpeg()
    ensures MimeForExtension(Lower("JPG")) == "image/jpeg"
  {
    assert Lower("JPG") == "jpg" by {
      assert LowerChar('J') == 'j' && LowerChar('P') == 'p' && LowerChar('G') == 'g';
    }
  }

  // ---------------------------------------------------------------------------
  // `onMethodCall`

  /** An argument value as the platform channel delivers it. */
  datatype Arg = Text(text: string) | Number(number: int) | Flag(flag: bool) | Numbers(numbers: seq<int>)

  datatype MethodCall = MethodCall(name: string, arguments: map<string, Arg>)

  /** `call.argument<String>(key)`: `None` when absent or null. */
  function TextArg(call: MethodCall, key: string): Option<string> {
    if key in call.arguments && call.arguments[key].Text? then Some(call.arguments[key].text) else None
  }

  function NumberArg(call: MethodCall, key: string): Option<int> {
    if key in call.arguments && call.arguments[key].Number? then Some(call.arguments[key].number) else None
  }

  function FlagArg(call: MethodCall, key: string): Option<bool> {
    if key in call.arguments && call.arguments[key].Flag? then Some(call.arguments[key].flag) else None
  }

  function NumbersArg(call: MethodCall, key: string): Option<seq<int>> {
    if key in call.arguments && call.arguments[key].Numbers? then Some(call.arguments[key].numbers) else None
  }

  /** Kotlin's `isNullOrEmpty()`. */
  predicate NullOrEmpty(s: Option<string>) {
    !TruthyStr(s)
  }

  /** Where `getAvailableStorageBytes` asks for free space. */
  datatype StatTarget = AppFilesDir | GivenPath(path: string)

  /** What `onMethodCall` does with a call: the work it starts, an INVALID_ARGUMENT error
      with its message, or `notImplemented`. */
  datatype Dispatch =
    | Initialize
    | GetVideoInfoCall(url: string)
    | DownloadVideoCall(url: string, outputPath: string, formatId: string, taskId: Option<string>)
    | GetSupportedSitesCall
    | SaveToMediaStoreCall(filePath: string, fileName: string)
    | GetMediaInfoCall(url: string, cookiesFile: Option<string>)
    | DownloadMediaCall(request: MediaRequest)
    | ExtractCookiesCall(browser: string)
    | CancelDownloadCall(cancelId: string)
    | StorageBytesCall(target: StatTarget)
    | InvalidArgument(message: string)
    | NotImplemented

  /** The `downloadMedia` request with the plugin's defaults. */
  function MediaRequestOf(call: MethodCall, url: string, outputPath: string): MediaRequest {
    MediaRequest(
      url, outputPath,
      TextArg(call, "formatId").GetOr("best"),
      TextArg(call, "mediaType").GetOr("auto"),
      TextArg(call, "taskId"),
      TextArg(call, "cookiesFile"),
      FlagArg(call, "downloadAllGallery").GetOr(true),
      NumbersArg(call, "selectedIndices"),
      TextArg(call, "ffmpegPath"),
      NumberArg(call, "maxQuality"),
      NumberArg(call, "sleepInterval"),
      NumberArg(call, "concurrentFragments"),
      TextArg(call, "customUserAgent"),
      TextArg(call, "proxyUrl"),
      FlagArg(call, "embedSubtitles").GetOr(false),
      TextArg(call, "subtitleLanguage"))
  }

  function OnMethodCall(call: MethodCall): Dispatch {
    match call.name
    case "initialize" => Initialize
    case "getVideoInfo" =>
      var url := TextArg(call, "url");
      if NullOrEmpty(url) then InvalidArgument("URL cannot be empty") else GetVideoInfoCall(url.value)
    case "downloadVideo" =>
      var url := TextArg(call, "url");
      var outputPath := TextArg(call, "outputPath");
      if NullOrEmpty(url) || NullOrEmpty(outputPath) then InvalidArgument("URL and outputPath are required")
      else DownloadVideoCall(url.value, outputPath.value, TextArg(call, "formatId").GetOr("best"), TextArg(call, "taskId"))
    case "getSupportedSites" => GetSupportedSitesCall
    case "saveToMediaStore" =>
      var filePath := TextArg(call, "filePath");
      var fileName := TextArg(call, "fileName");
      if NullOrEmpty(filePath) || NullOrEmpty(fileName) then InvalidArgument("filePath and fileName are required")
      else SaveToMediaStoreCall(filePath.value, fileName.value)
    case "getMediaInfo" =>
      var url := TextArg(call, "url");
      if NullOrEmpty(url) then InvalidArgument("URL is required") else GetMediaInfoCall(url.value, TextArg(call, "cookies_file"))
    case "downloadMedia" =>
      var url := TextArg(call, "url");
      var outputPath := TextArg(call, "outputPath");
      if NullOrEmpty(url) || NullOrEmpty(outputPath) then InvalidArgument("URL and outputPath are required")
      else DownloadMediaCall(MediaRequestOf(call, url.value, outputPath.value))
    case "extractCookiesFromBrowser" => ExtractCookiesCall(TextArg(call, "browser").GetOr("chrome"))
    case "cancelDownload" =>
      var taskId := TextArg(call, "taskId");
      if NullOrEmpty(taskId) then InvalidArgument("taskId is required") else CancelDownloadCall(taskId.value)
    case "getAvailableStorageBytes" =>
      var path := TextArg(call, "path");
      StorageBytesCall(if NullOrEmpty(path) then AppFilesDir else GivenPath(path.value))
    case _ => NotImplemented
  }

  /** The `result.error` code when the started work throws. */
  function FailureCode(d: Dispatch): Option<string> {
    match d
    case Initialize => Some("INIT_ERROR")
    case GetVideoInfoCall(_) => Some("PYTHON_ERROR")
    case DownloadVideoCall(_, _, _, _) => Some("PYTHON_ERROR")
    case GetSupportedSitesCall => Some("PYTHON_ERROR")
    case SaveToMediaStoreCall(_, _) => Some("MEDIASTORE_ERROR")
    case GetMediaInfoCall(_, _) => Some("GET_MEDIA_INFO_ERROR")
    case DownloadMediaCall(_) => Some("DOWNLOAD_MEDIA_ERROR")
    case ExtractCookiesCall(_) => Some("EXTRACT_COOKIES_ERROR")
    case CancelDownloadCall(_) => Some("CANCEL_DOWNLOAD_ERROR")
    case StorageBytesCall(_) => Some("STORAGE_ERROR")
    case InvalidArgument(_) => None
    case NotImplemented => None
  }

  const KnownMethods: seq<string> := [
    "initialize", "getVideoInfo", "downloadVideo", "getSupportedSites", "saveToMediaStore", "getMediaInfo",
    "downloadMedia", "extractCookiesFromBrowser", "cancelDownload", "getAvailableStorageBytes"
  ]

  /** `downloadMedia` is rejected exactly when the url or the output path is null or
      empty; otherwise the request carries them and the plugin's defaults. */
  lemma DownloadMediaValidation(call: MethodCall)
    requires call.name == "downloadMedia"
    ensures OnMethodCall(call) == InvalidArgument("URL and outputPath are required")
            <==> NullOrEmpty(TextArg(call, "url")) || NullOrEmpty(TextArg(call, "outputPath"))
    ensures OnMethodCall(call).DownloadMediaCall? <==> !OnMethodCall(call).InvalidArgument?
    ensures OnMethodCall(call).DownloadMediaCall? ==>
              var req := OnMethodCall(call).request;
              |req.url| > 0 && |req.outputPath| > 0
              && Some(req.url) == TextArg(call, "url") && Some(req.outputPath) == TextArg(call, "outputPath")
              && (TextArg(call, "formatId").None? ==> req.formatId == "best")
              && (TextArg(call, "mediaType").None? ==> req.mediaType == "auto")
              && (FlagArg(call, "downloadAllGallery").None? ==> req.downloadAllGallery)
              && (FlagArg(call, "embedSubtitles").None? ==> !req.embedSubtitles)
  {
  }

  /** `cancelDownload` is rejected exactly when the task id is null or empty; a dispatched
      cancel therefore always adds its id to the registry. */
  lemma CancelValidation(call: MethodCall, registry: set<string>)
    requires call.name == "cancelDownload"
    ensures OnMethodCall(call).InvalidArgument? <==> NullOrEmpty(TextArg(call, "taskId"))
    ensures OnMethodCall(call).CancelDownloadCall? ==>
              var id := OnMethodCall(call).cancelId;
              |id| > 0 && CancelRegistry.CancelSpec(registry, Some(id)) == registry + {id}
  {
  }

  /** The methods that need a url reject a call without one. */
  lemma UrlRequired(call: MethodCall)
    requires call.name in ["getVideoInfo", "getMediaInfo", "downloadVideo", "downloadMedia"]
    requires NullOrEmpty(TextArg(call, "url"))
    ensures OnMethodCall(call).InvalidArgument?
  {
  }

  /** A call is `notImplemented` exactly when its name is none of the ten methods, and only
      argument checks produce INVALID_ARGUMENT. */
  lemma UnknownMethodsNotImplemented(call: MethodCall)
    ensures OnMethodCall(call) == NotImplemented <==> call.name !in KnownMethods
    ensures OnMethodCall(call).InvalidArgument? ==>
              call.name in ["getVideoInfo", "downloadVideo", "saveToMediaStore", "getMediaInfo", "downloadMedia", "cancelDownload"]
  {
  }

  /** Every dispatched call has a failure code, and requests that stop at validation or
      are not implemented have none. */
  lemma FailureCodes(call: MethodCall)
    ensures FailureCode(OnMethodCall(call)).Some?
            <==> !OnMethodCall(call).InvalidArgument? && !OnMethodCall(call).NotImplemented?
  {
  }

  /** Defaults of the two calls with optional arguments only. */
  lemma OptionalArgumentDefaults(call: MethodCall)
    ensures call.name == "extractCookiesFromBrowser" && TextArg(call, "browser").None?
            ==> OnMethodCall(call) == ExtractCookiesCall("chrome")
    ensures call.name == "getAvailableStorageBytes" && NullOrEmpty(TextArg(call, "path"))
            ==> OnMethodCall(call) == StorageBytesCall(AppFilesDir)
  {
  }
}
