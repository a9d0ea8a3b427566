/** The error classifier of downloader.py (`_parse_error_code`): an ordered list of
    case-insensitive substring rules, evaluated top-down, the first match deciding
    the structured error that is reported to the application. */
module ErrorClassifier {
  import opened Common

  /** The fixed error taxonomy the bridge reports. */
  datatype ErrorCode =
    | RateLimited | Throttled | AgeRestricted | AuthRequired | PrivateVideo
    | LiveStream | UpcomingStream | Forbidden | NotFound | Timeout
    | ConnectionError | SslError | FormatUnavailable | FfmpegRequired
    | UnsupportedSite | DrmProtected | ExtractionError | StorageFull
    | GeoRestricted | Cancelled | UnknownError

  /** The `error_code` string each code is reported as. */
  function CodeName(c: ErrorCode): string {
    match c
    case RateLimited => "RATE_LIMITED"
    case Throttled => "THROTTLED"
    case AgeRestricted => "AGE_RESTRICTED"
    case AuthRequired => "AUTH_REQUIRED"
    case PrivateVideo => "PRIVATE_VIDEO"
    case LiveStream => "LIVE_STREAM"
    case UpcomingStream => "UPCOMING_STREAM"
    case Forbidden => "FORBIDDEN"
    case NotFound => "NOT_FOUND"
    case Timeout => "TIMEOUT"
    case ConnectionError => "CONNECTION_ERROR"
    case SslError => "SSL_ERROR"
    case FormatUnavailable => "FORMAT_UNAVAILABLE"
    case FfmpegRequired => "FFMPEG_REQUIRED"
    case UnsupportedSite => "UNSUPPORTED_SITE"
    case DrmProtected => "DRM_PROTECTED"
    case ExtractionError => "EXTRACTION_ERROR"
    case StorageFull => "STORAGE_FULL"
    case GeoRestricted => "GEO_RESTRICTED"
    case Cancelled => "CANCELLED"
    case UnknownError => "UNKNOWN_ERROR"
  }

  /** The one extra field some failures carry besides code, message and suggestion. */
  datatype Extra =
    | NoExtra
    | RetryAfter(seconds: nat)   // `retry_after`
    | LiveFlag                   // `is_live: True`
    | CancelledFlag              // `cancelled: True`

  /** A structured failure: `error_code`, `error`, `suggestion` and the extra field. */
  datatype ErrorInfo = ErrorInfo(code: ErrorCode, error: string, suggestion: Option<string>, extra: Extra)

  /** A rule's trigger, tested against the lower-cased message. */
  datatype Trigger =
    | AnyOf(words: seq<string>)                       // one of the words occurs
    | WithAnyOf(word: string, others: seq<string>)    // `word` occurs and one of `others` does

  predicate AnyOccurs(s: string, words: seq<string>) {
    exists k :: 0 <= k < |words| && Contains(s, words[k])
  }

  predicate Fires(t: Trigger, s: string) {
    match t
    case AnyOf(ws) => AnyOccurs(s, ws)
    case WithAnyOf(w, ws) => Contains(s, w) && AnyOccurs(s, ws)
  }

  datatype Rule = Rule(trigger: Trigger, info: ErrorInfo)

  function Plain(code: ErrorCode, error: string, suggestion: string): ErrorInfo {
    ErrorInfo(code, error, Some(suggestion), NoExtra)
  }

  // The rules, one per condition of the chain.
  const RuleRateLimited := Rule(AnyOf(["http error 429", "too many requests"]),
      ErrorInfo(RateLimited, "Too many requests - you are being rate limited",
                Some("Wait a few minutes before trying again"), RetryAfter(300)))
  const RuleThrottled := Rule(AnyOf(["throttled", "slow down"]),
      Plain(Throttled, "Download speed is being throttled by the server", "Try again later or use a VPN"))
  const RuleAgeRestricted := Rule(WithAnyOf("age", ["restrict", "verify", "gate"]),
      Plain(AgeRestricted, "This content is age-restricted",
            "Set up browser cookies from an account that has age verification completed"))
  const RuleAuthRequired := Rule(AnyOf(["sign in", "login", "authenticate"]),
      Plain(AuthRequired, "Authentication required to access this content",
            "Set up browser cookies for authenticated access"))
  const RulePrivate := Rule(AnyOf(["private", "members", "subscriber", "patreon"]),
      Plain(PrivateVideo, "This content is private or requires a subscription",
            "Check if the content is public or if you have the required subscription"))
  const RuleLiveStream := Rule(WithAnyOf("live", ["stream", "broadcast", "premiere"]),
      Plain(LiveStream, "This is a live stream or upcoming premiere",
            "Wait until the live stream or premiere ends, then try again"))
  const RuleIsLive := Rule(AnyOf(["is live", "currently live"]),
      Plain(LiveStream, "Cannot download - this stream is currently live",
            "Wait until the stream ends and a recording becomes available"))
  const RuleForbidden := Rule(AnyOf(["http error 403", "forbidden"]),
      Plain(Forbidden, "Access forbidden - the server rejected the request",
            "Try using browser cookies or a VPN. The site may be blocking automated downloads."))
  const RuleNotFound := Rule(AnyOf(["http error 404", "not found"]),
      Plain(NotFound, "Content not found or has been removed",
            "Check if the URL is correct and the content still exists"))
  const RuleTimeout := Rule(AnyOf(["timeout", "timed out"]),
      Plain(Timeout, "Connection timed out", "Check your internet connection and try again"))
  const RuleConnection := Rule(WithAnyOf("connection", ["refused", "reset", "error"]),
      Plain(ConnectionError, "Could not connect to the server",
            "Check your internet connection or try again later"))
  const RuleSsl := Rule(AnyOf(["ssl", "certificate"]),
      Plain(SslError, "SSL certificate error",
            "Check your network connection - you may be behind a captive portal"))
  const RuleFormat := Rule(WithAnyOf("format", ["unavailable", "not available"]),
      Plain(FormatUnavailable, "The selected format is not available",
            "Try selecting a different quality or format"))
  const RuleFfmpeg := Rule(AnyOf(["ffmpeg", "ffprobe"]),
      Plain(FfmpegRequired, "FFmpeg is required for this format but not available",
            "The selected format requires merging video and audio streams"))
  const RuleUnsupported := Rule(WithAnyOf("unsupported", ["url"]),
      Plain(UnsupportedSite, "This website is not supported", "Check the supported sites list"))
  const RuleDrm := Rule(AnyOf(["drm", "widevine", "protected"]),
      Plain(DrmProtected, "This content is DRM protected and cannot be downloaded",
            "DRM-protected content cannot be downloaded"))
  const RuleExtraction := Rule(AnyOf(["unable to extract", "extraction"]),
      Plain(ExtractionError, "Failed to extract video information",
            "The site may have changed its format. Try updating the app."))
  const RuleStorage := Rule(AnyOf(["no space", "disk full", "storage"]),
      Plain(StorageFull, "Not enough storage space", "Free up some storage space and try again"))

  /** The rule chain, in the order the source tests it. */
  const Rules: seq<Rule> := [
    RuleRateLimited, RuleThrottled, RuleAgeRestricted, RuleAuthRequired, RulePrivate,
    RuleLiveStream, RuleIsLive, RuleForbidden, RuleNotFound, RuleTimeout, RuleConnection,
    RuleSsl, RuleFormat, RuleFfmpeg, RuleUnsupported, RuleDrm, RuleExtraction, RuleStorage
  ]

  // Positions of some rules in the chain, used by the lemmas below.
  const RateLimitedRule: nat := 0
  const ForbiddenRule: nat := 7
  const FormatRule: nat := 12
  const FfmpegRule: nat := 13

  /** The fallback when no rule fires: the original message, unchanged, and no suggestion. */
  function Unknown(message: string): ErrorInfo {
    ErrorInfo(UnknownError, message, None, NoExtra)
  }

  /** Index of the first rule of `rules` that fires on `s`. */
  function FirstMatch(rules: seq<Rule>, s: string): (r: Option<nat>)
    ensures r.Some? ==> r.value < |rules| && Fires(rules[r.value].trigger, s)
    ensures r.Some? ==> forall j :: 0 <= j < r.value ==> !Fires(rules[j].trigger, s)
    ensures r.None? <==> forall j :: 0 <= j < |rules| ==> !Fires(rules[j].trigger, s)
  {
    if rules == [] then None
    else if Fires(rules[0].trigger, s) then Some(0)
    else
      match FirstMatch(rules[1..], s)
      case Some(i) => Some(i + 1)
      case None => None
  }

  /** `_parse_error_code`: lower-case the message, then the first rule that fires wins. */
  function Classify(message: string): ErrorInfo {
    match FirstMatch(Rules, Lower(message))
    case Some(i) => Rules[i].info
    case None => Unknown(message)
  }

  // ---------------------------------------------------------------------------
  // Properties of the rule chain

  lemma RuleFacts(i: nat)
    requires i < |Rules|
    ensures Rules[i].info.code !in {UnknownError, GeoRestricted, Cancelled, UpcomingStream}
    ensures Rules[i].info.extra != LiveFlag && Rules[i].info.extra != CancelledFlag
    ensures Rules[i].info.extra.RetryAfter? <==> i == RateLimitedRule
    ensures Rules[i].info.code == RateLimited <==> i == RateLimitedRule
    ensures Rules[i].info.extra.RetryAfter? ==> Rules[i].info.extra.seconds == 300
    ensures Rules[i].info.code == FfmpegRequired <==> i == FfmpegRule
  {
  }

  /** First match wins: when rule `i` fires on the lower-cased message and no rule
      before it does, the result is exactly rule `i`'s error. */
  lemma FirstFiringRuleWins(message: string, i: nat)
    requires i < |Rules| && Fires(Rules[i].trigger, Lower(message))
    requires forall j :: 0 <= j < i ==> !Fires(Rules[j].trigger, Lower(message))
    ensures Classify(message) == Rules[i].info
  {
    var l := Lower(message);
    var m := FirstMatch(Rules, l);
    assert m.Some?;
    assert !(m.value < i);
    assert !(m.value > i);
  }

  /** The result is UNKNOWN_ERROR exactly when no rule fires, and then it keeps the
      original message (not its lower-cased form) and has no suggestion. */
  lemma UnknownIffNoRuleFires(message: string)
    ensures Classify(message).code == UnknownError
           <==> forall j :: 0 <= j < |Rules| ==> !Fires(Rules[j].trigger, Lower(message))
    ensures Classify(message).code == UnknownError
           ==> Classify(message).error == message && Classify(message).suggestion == None
  {
    var l := Lower(message);
    match FirstMatch(Rules, l)
    case Some(i) => RuleFacts(i);
    case None =>
  }

  /** RATE_LIMITED is the only result with a `retry_after`, and it is always 300 seconds. */
  lemma RetryAfterOnlyWhenRateLimited(message: string)
    ensures Classify(message).extra.RetryAfter? <==> Classify(message).code == RateLimited
    ensures Classify(message).code == RateLimited ==> Classify(message).extra == RetryAfter(300)
  {
    var l := Lower(message);
    match FirstMatch(Rules, l)
    case Some(i) => RuleFacts(i);
    case None =>
  }

  /** The classifier never invents the codes that are reserved for structured engine
      failures, live-content checks or cancellation. */
  lemma ClassifierNeverReservedCodes(message: string)
    ensures Classify(message).code !in {GeoRestricted, Cancelled, UpcomingStream}
    ensures Classify(message).extra != LiveFlag && Classify(message).extra != CancelledFlag
  {
    match FirstMatch(Rules, Lower(message))
    case Some(i) => RuleFacts(i);
    case None =>
  }

  /** Any message containing "HTTP Error 429", in any letter case `w`, is RATE_LIMITED with a
      300-second retry, whatever else it contains (for instance "forbidden"). */
  lemma Http429IsRateLimited(message: string, w: string)
    requires Contains(message, w) && Lower(w) == "http error 429"
    ensures Classify(message) == ErrorInfo(RateLimited, "Too many requests - you are being rate limited",
                                          Some("Wait a few minutes before trying again"), RetryAfter(300))
  {
    ContainsLower(message, w);
    assert Fires(Rules[RateLimitedRule].trigger, Lower(message)) by {
      assert Rules[RateLimitedRule].trigger.words[0] == "http error 429";
    }
  }

  /** Rule order: a message that also says "forbidden" is still RATE_LIMITED when the
      rate-limit rule fires, because that rule is tested first. */
  lemma RateLimitPreemptsForbidden(message: string)
    requires Fires(Rules[ForbiddenRule].trigger, Lower(message))
    requires Fires(Rules[RateLimitedRule].trigger, Lower(message))
    ensures Classify(message).code == RateLimited
  {
  }

  /** Rule order: FORMAT_UNAVAILABLE is tested before FFMPEG_REQUIRED, so a message that
      fires the format rule is never FFMPEG_REQUIRED, even when it mentions ffmpeg; and if
      no earlier rule fires it is FORMAT_UNAVAILABLE. */
  lemma FormatPreemptsFfmpeg(message: string)
    requires Contains(Lower(message), "format")
    requires Contains(Lower(message), "unavailable") || Contains(Lower(message), "not available")
    ensures Classify(message).code != FfmpegRequired
    ensures (forall j :: 0 <= j < FormatRule ==> !Fires(Rules[j].trigger, Lower(message)))
           ==> Classify(message).code == FormatUnavailable
  {
    var l := Lower(message);
    FormatRuleFires(l);
    var m := FirstMatch(Rules, l);
    assert m.Some? && m.value <= FormatRule;
    RuleFacts(m.value);
    if forall j :: 0 <= j < FormatRule ==> !Fires(Rules[j].trigger, l) {
      FirstFiringRuleWins(message, FormatRule);
    }
  }

  /** The format rule fires on "format" with either of its two companions. */
  lemma FormatRuleFires(l: string)
    requires Contains(l, "format")
    requires Contains(l, "unavailable") || Contains(l, "not available")
    ensures Fires(Rules[FormatRule].trigger, l)
  {
    var t := Rules[FormatRule].trigger;
    assert t == WithAnyOf("format", ["unavailable", "not available"]);
    if Contains(l, "unavailable") {
      assert t.others[0] == "unavailable";
    } else {
      assert t.others[1] == "not available";
    }
  }
}
