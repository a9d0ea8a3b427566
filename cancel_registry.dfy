/** The cancellation registry of downloader.py (`_CANCELLED_TASKS`, `cancel_download`,
    `_is_cancelled`, `_clear_cancelled`) and the progress hook's protocol: check the flag,
    consume it, abort. The registry is a set of task ids; a download's view of it is a
    sequence of steps in which cancel requests from the application interleave with the
    engine's progress ticks. */
module CancelRegistry {
  import opened Common
  import opened Progress

  /** `cancel_download` on the set: a truthy id is added, anything else changes nothing. */
  function CancelSpec(s: set<string>, taskId: Option<string>): set<string> {
    if TruthyStr(taskId) then s + {taskId.value} else s
  }

  /** The hook looks at the registry only for a 'downloading' or 'finished' tick of a
      download that has both a callback and a truthy task id. */
  predicate Observes(ev: ProgressEvent, hasCallback: bool, taskId: Option<string>) {
    (ev.status == Some("downloading") || ev.status == Some("finished")) && hasCallback && TruthyStr(taskId)
  }

  /** What one call of the progress hook does. `Cancelled` is the `DownloadCancelled`
      it raises. */
  datatype TickOutcome = Cancelled | Emitted(payload: ProgressPayload) | Ignored

  /** One progress tick against the registry `s`: its outcome and the registry after it. */
  function Tick(s: set<string>, ev: ProgressEvent, hasCallback: bool, taskId: Option<string>): (TickOutcome, set<string>) {
    if !Observes(ev, hasCallback, taskId) then (Ignored, s)
    else if taskId.value in s then (Cancelled, s - {taskId.value})
    else (Emitted(BuildProgressPayload(ev)), s)
  }

  /** The registry as a class holding the module-global set. */
  class Registry {
    var cancelled: set<string>

    constructor ()
      ensures cancelled == {}
    {
      cancelled := {};
    }

    /** `cancel_download`: always answers true. */
    method Cancel(taskId: Option<string>) returns (ok: bool)
      modifies this
      ensures ok
      ensures cancelled == CancelSpec(old(cancelled), taskId)
    {
      if taskId.Some? && |taskId.value| > 0 {
        cancelled := cancelled + {taskId.value};
      }
      ok := true;
    }

    /** `_is_cancelled`: membership, no change. */
    function IsCancelled(taskId: string): bool
      reads this
    {
      taskId in cancelled
    }

    /** `_clear_cancelled`: removes that id and nothing else. */
    method Clear(taskId: string)
      modifies this
      ensures cancelled == old(cancelled) - {taskId}
    {
      cancelled := cancelled - {taskId};
    }

    /** The `progress_hook` of `download_media` (and of `download_video`). */
    method ProgressTick(ev: ProgressEvent, hasCallback: bool, taskId: Option<string>) returns (r: TickOutcome)
      modifies this
      ensures (r, cancelled) == Tick(old(cancelled), ev, hasCallback, taskId)
    {
      var status := ev.status;
      if status == Some("downloading") || status == Some("finished") {
        if hasCallback && taskId.Some? && |taskId.value| > 0 {
          if IsCancelled(taskId.value) {
            Clear(taskId.value);
            return Cancelled;
          }
          var payload := BuildProgressPayload(ev);
          return Emitted(payload);
        }
      }
      return Ignored;
    }
  }

  // ---------------------------------------------------------------------------
  // One tick

  /** The hook's protocol: it cancels exactly when it observes the flag, and then
      consumes that flag only; otherwise it emits the normalised payload or does nothing,
      and the registry is unchanged. */
  lemma TickProtocol(s: set<string>, ev: ProgressEvent, hasCallback: bool, taskId: Option<string>)
    ensures var (o, s') := Tick(s, ev, hasCallback, taskId);
            && (o.Cancelled? <==> Observes(ev, hasCallback, taskId) && taskId.value in s)
            && (o.Ignored? <==> !Observes(ev, hasCallback, taskId))
            && (o.Emitted? ==> o.payload == BuildProgressPayload(ev))
            && (o.Cancelled? ==> s' == s - {taskId.value})
            && (!o.Cancelled? ==> s' == s)
  {
  }

  /** The flag is an edge: after a tick has been cancelled, the next tick for the same
      task is not, unless a new cancel request came in between. */
  lemma CancelIsConsumedOnce(s: set<string>, ev1: ProgressEvent, ev2: ProgressEvent, hasCallback: bool, taskId: Option<string>)
    requires Tick(s, ev1, hasCallback, taskId).0 == Cancelled
    ensures Tick(Tick(s, ev1, hasCallback, taskId).1, ev2, hasCallback, taskId).0 != Cancelled
  {
  }

  /** Cancelling is idempotent on the set: a second request before the tick adds nothing,
      so one observing tick consumes both. */
  lemma CancelIdempotent(s: set<string>, taskId: Option<string>)
    ensures CancelSpec(CancelSpec(s, taskId), taskId) == CancelSpec(s, taskId)
  {
  }

  // ---------------------------------------------------------------------------
  // A whole download: cancel requests interleaved with progress ticks

  datatype Step = CancelRequest(taskId: Option<string>) | EngineTick(event: ProgressEvent)

  /** What the download saw: the payloads it emitted, whether it was cancelled, and the
      registry when it stopped. */
  datatype Session = Session(emitted: seq<ProgressPayload>, cancelled: bool, registry: set<string>)

  /** The download ends at the first cancelled tick; the engine then unwinds. */
  function RunSession(s: set<string>, steps: seq<Step>, hasCallback: bool, taskId: Option<string>): Session
    decreases |steps|
  {
    if steps == [] then Session([], false, s)
    else
      match steps[0]
      case CancelRequest(id) => RunSession(CancelSpec(s, id), steps[1..], hasCallback, taskId)
      case EngineTick(ev) =>
        var (o, s1) := Tick(s, ev, hasCallback, taskId);
        match o
        case Cancelled => Session([], true, s1)
        case Emitted(p) =>
          var rest := RunSession(s1, steps[1..], hasCallback, taskId);
          Session([p] + rest.emitted, rest.cancelled, rest.registry)
        case Ignored => RunSession(s1, steps[1..], hasCallback, taskId)
  }

  predicate ObservingTick(step: Step, hasCallback: bool, taskId: Option<string>) {
    step.EngineTick? && Observes(step.event, hasCallback, taskId)
  }

  /** The task's flag is up before step `j`: it was in the registry at the start, or a
      cancel request for it came earlier. */
  ghost predicate FlagRaisedBefore(s: set<string>, steps: seq<Step>, j: nat, id: string)
    requires j <= |steps|
  {
    id in s || exists i :: 0 <= i < j && steps[i] == CancelRequest(Some(id))
  }

  /** The payloads of all observing ticks, in order. */
  function ObservedPayloads(steps: seq<Step>, hasCallback: bool, taskId: Option<string>): seq<ProgressPayload>
    decreases |steps|
  {
    if steps == [] then []
    else if ObservingTick(steps[0], hasCallback, taskId) then
      [BuildProgressPayload(steps[0].event)] + ObservedPayloads(steps[1..], hasCallback, taskId)
    else ObservedPayloads(steps[1..], hasCallback, taskId)
  }

  /** The truthy ids of all cancel requests. */
  function Requested(steps: seq<Step>): set<string>
    decreases |steps|
  {
    if steps == [] then {}
    else
      var here := if steps[0].CancelRequest? && TruthyStr(steps[0].taskId) then {steps[0].taskId.value} else {};
      here + Requested(steps[1..])
  }

  lemma FlagShift(s: set<string>, steps: seq<Step>, j: nat, id: string)
    requires 0 < |steps| && j + 1 <= |steps| && id != ""
    requires steps[0].CancelRequest?
    ensures FlagRaisedBefore(CancelSpec(s, steps[0].taskId), steps[1..], j, id) <==> FlagRaisedBefore(s, steps, j + 1, id)
  {
    var s' := CancelSpec(s, steps[0].taskId);
    if FlagRaisedBefore(s, steps, j + 1, id) {
      if id !in s' {
        var i :| 0 <= i < j + 1 && steps[i] == CancelRequest(Some(id));
        assert i != 0;
        assert steps[1..][i - 1] == steps[i];
      }
    }
    if FlagRaisedBefore(s', steps[1..], j, id) {
      if id !in s {
        if id in s' {
          assert steps[0] == CancelRequest(Some(id));
        } else {
          var i :| 0 <= i < j && steps[1..][i] == CancelRequest(Some(id));
          assert steps[i + 1] == CancelRequest(Some(id));
        }
      }
    }
  }

  lemma FlagShiftTick(s: set<string>, steps: seq<Step>, j: nat, id: string)
    requires 0 < |steps| && j + 1 <= |steps|
    requires steps[0].EngineTick?
    ensures FlagRaisedBefore(s, steps[1..], j, id) <==> FlagRaisedBefore(s, steps, j + 1, id)
  {
    if FlagRaisedBefore(s, steps, j + 1, id) && id !in s {
      var i :| 0 <= i < j + 1 && steps[i] == CancelRequest(Some(id));
      assert steps[1..][i - 1] == steps[i];
    }
    if FlagRaisedBefore(s, steps[1..], j, id) && id !in s {
      var i :| 0 <= i < j && steps[1..][i] == CancelRequest(Some(id));
      assert steps[i + 1] == steps[1..][i];
    }
  }

  /** A download is cancelled exactly when some progress tick that looks at the registry
      comes while the task's flag is up. */
  lemma {:induction false} SessionCancelledIff(s: set<string>, steps: seq<Step>, hasCallback: bool, taskId: Option<string>)
    ensures RunSession(s, steps, hasCallback, taskId).cancelled
            <==> exists j :: 0 <= j < |steps| && ObservingTick(steps[j], hasCallback, taskId)
                             && FlagRaisedBefore(s, steps, j, taskId.value)
    decreases |steps|
  {
    var r := RunSession(s, steps, hasCallback, taskId);
    if steps == [] {
    } else {
      var tail := steps[1..];
      match steps[0]
      case CancelRequest(id) =>
        var s' := CancelSpec(s, id);
        SessionCancelledIff(s', tail, hasCallback, taskId);
        if r.cancelled {
          var j :| 0 <= j < |tail| && ObservingTick(tail[j], hasCallback, taskId) && FlagRaisedBefore(s', tail, j, taskId.value);
          FlagShift(s, steps, j, taskId.value);
          assert ObservingTick(steps[j + 1], hasCallback, taskId);
        }
        if exists j :: 0 <= j < |steps| && ObservingTick(steps[j], hasCallback, taskId) && FlagRaisedBefore(s, steps, j, taskId.value) {
          var j :| 0 <= j < |steps| && ObservingTick(steps[j], hasCallback, taskId) && FlagRaisedBefore(s, steps, j, taskId.value);
          assert j > 0;
          FlagShift(s, steps, j - 1, taskId.value);
          assert tail[j - 1] == steps[j];
        }
      case EngineTick(ev) =>
        if !Observes(ev, hasCallback, taskId) || taskId.value !in s {
          SessionCancelledIff(s, tail, hasCallback, taskId);
          if r.cancelled {
            var j :| 0 <= j < |tail| && ObservingTick(tail[j], hasCallback, taskId) && FlagRaisedBefore(s, tail, j, taskId.value);
            FlagShiftTick(s, steps, j, taskId.value);
            assert ObservingTick(steps[j + 1], hasCallback, taskId);
          }
          if exists j :: 0 <= j < |steps| && ObservingTick(steps[j], hasCallback, taskId) && FlagRaisedBefore(s, steps, j, taskId.value) {
            var j :| 0 <= j < |steps| && ObservingTick(steps[j], hasCallback, taskId) && FlagRaisedBefore(s, steps, j, taskId.value);
            assert j > 0;
            FlagShiftTick(s, steps, j - 1, taskId.value);
            assert tail[j - 1] == steps[j];
          }
        } else {
          assert ObservingTick(steps[0], hasCallback, taskId) && FlagRaisedBefore(s, steps, 0, taskId.value);
        }
    }
  }

  /** A download that was not cancelled emitted the payload of every observing tick, in
      order, and left the registry as the start plus every truthy requested id. */
  lemma {:induction false} UncancelledSession(s: set<string>, steps: seq<Step>, hasCallback: bool, taskId: Option<string>)
    requires !RunSession(s, steps, hasCallback, taskId).cancelled
    ensures RunSession(s, steps, hasCallback, taskId).emitted == ObservedPayloads(steps, hasCallback, taskId)
    ensures RunSession(s, steps, hasCallback, taskId).registry == s + Requested(steps)
    decreases |steps|
  {
    if steps != [] {
      var tail := steps[1..];
      match steps[0]
      case CancelRequest(id) =>
        UncancelledSession(CancelSpec(s, id), tail, hasCallback, taskId);
        assert ObservedPayloads(steps, hasCallback, taskId) == ObservedPayloads(tail, hasCallback, taskId);
      case EngineTick(ev) =>
        UncancelledSession(s, tail, hasCallback, taskId);
    }
  }

  /** Tasks are isolated: a download of one task never removes another task's flag, and
      the registry only ever holds ids that were there or were requested. */
  lemma {:induction false} SessionIsolation(s: set<string>, steps: seq<Step>, hasCallback: bool, taskId: Option<string>, other: string)
    requires !TruthyStr(taskId) || other != taskId.value
    ensures other in s ==> other in RunSession(s, steps, hasCallback, taskId).registry
    ensures RunSession(s, steps, hasCallback, taskId).registry <= s + Requested(steps)
    decreases |steps|
  {
    if steps != [] {
      var tail := steps[1..];
      match steps[0]
      case CancelRequest(id) =>
        SessionIsolation(CancelSpec(s, id), tail, hasCallback, taskId, other);
      case EngineTick(ev) =>
        SessionIsolation(s, tail, hasCallback, taskId, other);
    }
  }

  /** Without a callback, or without a truthy task id, a download is never cancelled,
      whatever was requested. */
  lemma NoCallbackNeverCancelled(s: set<string>, steps: seq<Step>, hasCallback: bool, taskId: Option<string>)
    requires !hasCallback || !TruthyStr(taskId)
    ensures !RunSession(s, steps, hasCallback, taskId).cancelled
  {
    SessionCancelledIff(s, steps, hasCallback, taskId);
  }
}
