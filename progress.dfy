/** The progress normaliser of downloader.py (`_build_progress_payload`): an engine
    progress event becomes a payload of well-typed optional fields. Progress is an
    exact rational number here. */
module Progress {
  import opened Common

  /** The playlist fields of the event's `info_dict`. */
  datatype ItemFields = ItemFields(
    playlistIndex: Option<int>,
    playlistAutonumber: Option<int>,
    playlistCount: Option<int>,
    nEntries: Option<int>)

  /** One engine progress event; numeric fields are already coerced to integers, a value
      that does not coerce being absent. */
  datatype ProgressEvent = ProgressEvent(
    status: Option<string>,
    downloadedBytes: Option<int>,
    totalBytes: Option<int>,
    totalBytesEstimate: Option<int>,
    speedStr: Option<string>,
    etaStr: Option<string>,
    infoDict: Option<ItemFields>)

  /** What is handed to the application's progress callback. */
  datatype ProgressPayload = ProgressPayload(
    progress: Option<real>,
    downloadedBytes: Option<int>,
    totalBytes: Option<int>,
    speed: Option<string>,
    eta: Option<string>,
    itemIndex: Option<int>,
    itemCount: Option<int>)

  const NoItemFields := ItemFields(None, None, None, None)

  /** `max(0.0, min(x, 1.0))`. */
  function Clamp01(x: real): (r: real)
    ensures 0.0 <= r <= 1.0
    ensures 0.0 <= x <= 1.0 ==> r == x
  {
    if x < 0.0 then 0.0 else if x > 1.0 then 1.0 else x
  }

  /** The byte total: `total_bytes`, or the estimate when `total_bytes` is absent or 0. */
  function TotalBytes(ev: ProgressEvent): Option<int> {
    OrInt(ev.totalBytes, ev.totalBytesEstimate)
  }

  /** The fraction downloaded, when both counters are known and the total is positive. */
  function RawProgress(downloaded: Option<int>, total: Option<int>): Option<real> {
    if downloaded.Some? && total.Some? && total.value > 0 then
      Some(Clamp01(downloaded.value as real / total.value as real))
    else None
  }

  /** `_build_progress_payload`. */
  function BuildProgressPayload(ev: ProgressEvent): ProgressPayload {
    var info := ev.infoDict.GetOr(NoItemFields);
    var total := TotalBytes(ev);
    var progress := if ev.status == Some("finished") then Some(1.0) else RawProgress(ev.downloadedBytes, total);
    ProgressPayload(
      progress,
      ev.downloadedBytes,
      total,
      ev.speedStr,
      ev.etaStr,
      OrInt(info.playlistIndex, info.playlistAutonumber),
      OrInt(info.playlistCount, info.nEntries))
  }

  // ---------------------------------------------------------------------------
  // Properties of the payload

  /** Progress, when present, is always within [0, 1]. */
  lemma ProgressInUnitInterval(ev: ProgressEvent)
    ensures var p := BuildProgressPayload(ev).progress; p.Some? ==> 0.0 <= p.value <= 1.0
  {
  }

  /** A "finished" event always reports exactly 1.0, whatever the counters say. */
  lemma FinishedIsComplete(ev: ProgressEvent)
    requires ev.status == Some("finished")
    ensures BuildProgressPayload(ev).progress == Some(1.0)
  {
  }

  /** Any other event has a progress exactly when the downloaded count is present and the
      total is positive, and it is then the clamped quotient downloaded / total. */
  lemma ProgressWhenNotFinished(ev: ProgressEvent)
    requires ev.status != Some("finished")
    ensures var p := BuildProgressPayload(ev); var t := p.totalBytes;
            p.progress.Some? <==> ev.downloadedBytes.Some? && t.Some? && t.value > 0
    ensures var p := BuildProgressPayload(ev); var t := p.totalBytes;
            p.progress.Some? ==> p.progress.value == Clamp01(ev.downloadedBytes.value as real / t.value as real)
  {
  }

  /** Within the counters' natural range (0 <= downloaded <= total) no clamping happens. */
  lemma ProgressIsFractionInRange(ev: ProgressEvent, downloaded: nat, total: nat)
    requires ev.status != Some("finished")
    requires ev.downloadedBytes == Some(downloaded) && TotalBytes(ev) == Some(total)
    requires 0 < total && downloaded <= total
    ensures BuildProgressPayload(ev).progress == Some(downloaded as real / total as real)
  {
    assert downloaded as real <= total as real;
    assert downloaded as real / total as real <= 1.0;
  }

  /** The total falls back to the estimate exactly when `total_bytes` is absent or 0. */
  lemma TotalFallsBackToEstimate(ev: ProgressEvent)
    ensures ev.totalBytes.Some? && ev.totalBytes.value != 0 ==> BuildProgressPayload(ev).totalBytes == ev.totalBytes
    ensures ev.totalBytes.None? || ev.totalBytes == Some(0) ==> BuildProgressPayload(ev).totalBytes == ev.totalBytesEstimate
  {
  }

  /** With no usable total (absent, 0 or negative) a non-finished event has no progress:
      there is no division by zero and no made-up 0. */
  lemma NoTotalNoProgress(ev: ProgressEvent)
    requires ev.status != Some("finished")
    requires TotalBytes(ev).None? || TotalBytes(ev).value <= 0
    ensures BuildProgressPayload(ev).progress.None?
  {
  }

  /** Item index prefers `playlist_index` and falls back to `playlist_autonumber` when the
      index is absent or 0; item count prefers `playlist_count`, then `n_entries`. */
  lemma ItemFieldsFallback(ev: ProgressEvent, f: ItemFields)
    requires ev.infoDict == Some(f)
    ensures BuildProgressPayload(ev).itemIndex == (if TruthyInt(f.playlistIndex) then f.playlistIndex else f.playlistAutonumber)
    ensures BuildProgressPayload(ev).itemCount == (if TruthyInt(f.playlistCount) then f.playlistCount else f.nEntries)
  {
  }

  /** Without an `info_dict` the item fields are absent; the counters and display strings
      are passed through unchanged in every case. */
  lemma PassThroughFields(ev: ProgressEvent)
    ensures ev.infoDict.None? ==> BuildProgressPayload(ev).itemIndex.None? && BuildProgressPayload(ev).itemCount.None?
    ensures BuildProgressPayload(ev).downloadedBytes == ev.downloadedBytes
    ensures BuildProgressPayload(ev).speed == ev.speedStr && BuildProgressPayload(ev).eta == ev.etaStr
  {
  }

  /** 50 of 200 bytes while downloading is a quarter. */
  lemma QuarterExample()
    ensures BuildProgressPayload(ProgressEvent(Some("downloading"), Some(50), Some(200), None, None, None, None)).progress
            == Some(0.25)
  {
  }
}
