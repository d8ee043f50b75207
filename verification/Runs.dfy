/** One managed run: its record, its event ring, and what each lock-protected operation does to it.
    All functions here are the value-level specification; `RunManager` changes the objects in place. */
module Runs {
  import opened Basics

  type Time = int  // seconds on one monotone clock
  datatype RunId = RunId(text: string)
  datatype Token = Token(text: string)
  datatype AssetType = Stock | Crypto
  datatype Request = Request(ticker: string, assetType: AssetType, date: string)

  datatype Status = Queued | Running | Publishing | Completed | Failed | Cancelled | Interrupted | TimedOut {
    predicate Terminal() { Completed? || Failed? || Cancelled? || Interrupted? || TimedOut? }
    predicate Waiting() { Queued? || Running? }
  }

  datatype Reason =
    | WorkerLeaseExpired | RunDeadlineExceeded | ServiceRestarted | CancelledReason | CompletedReason
    | ModelTimeout | ModelRateLimited | ModelAuthError | ModelUnavailable
    | DataSourceTimeout | DataSourceUnavailable | WorkerError | PublishIncomplete
    | OtherReason(code: string)
  {
    /** The public status of a known reason. */
    function MappedStatus(): Option<Status> {
      match this
      case WorkerLeaseExpired => Some(Interrupted)
      case ServiceRestarted => Some(Interrupted)
      case RunDeadlineExceeded => Some(TimedOut)
      case CancelledReason => Some(Cancelled)
      case CompletedReason => Some(Completed)
      case OtherReason(_) => None
      case _ => Some(Failed)
    }

    predicate Retryable() {
      ModelTimeout? || ModelRateLimited? || ModelUnavailable? || DataSourceTimeout? || DataSourceUnavailable?
      || WorkerLeaseExpired? || ServiceRestarted? || RunDeadlineExceeded?
    }
  }

  datatype AgentState = Pending | InProgress | Done
  datatype Body =
    | RunStarted
    | PhaseChanged(phase: string)
    | AgentStatus(name: string, state: AgentState)
    | Progress(progress: real, phase: string, agent: Option<string>)
    | Message(text: string)
    | Activity(summary: string)
    | Ended(status: Status)  // run_completed, run_failed, run_cancelled, run_interrupted, run_timed_out
  datatype Event = Event(no: nat, body: Body)

  datatype Run = Run(
    id: RunId, request: Request, status: Status,
    phase: Option<string>, agent: Option<string>, progress: real,
    startedAt: Option<Time>, finishedAt: Option<Time>, expiresAt: Option<Time>,
    timeoutAt: Option<Time>, beatTimeout: Option<nat>, beatInterval: nat,
    beatAt: Option<Time>, activityAt: Option<Time>,
    reason: Option<Reason>, retryable: bool, signal: Option<string>, reportId: Option<string>,
    checkpoint: Option<string>, parent: Option<RunId>, attempt: nat,
    lease: Option<Token>, cancelled: bool, nextNo: nat, ring: seq<Event>)

  datatype Config = Config(limit: nat, ttl: nat)

  /** The run after an operation, the event it logged, and whether the caller's request was granted. */
  datatype Outcome = Outcome(run: Run, event: Option<Event>, ok: bool)

  // ---- the ring ----

  /** Appending to a deque with a maximal length. */
  function Append(ring: seq<Event>, e: Event, limit: nat): seq<Event> {
    var r := ring + [e];
    if |r| > limit then r[|r| - limit..] else r
  }

  function Emit(r: Run, body: Body, cfg: Config): Outcome {
    var e := Event(r.nextNo, body);
    Outcome(r.(nextNo := r.nextNo + 1, ring := Append(r.ring, e, cfg.limit)), Some(e), true)
  }

  // ---- the view ----

  datatype View = View(phase: Option<string>, agent: Option<string>, progress: real)
  const BLANK_VIEW := View(None, None, 0.0)

  function ViewOf(r: Run): View { View(r.phase, r.agent, r.progress) }

  /** What one event does to a view; `_update_snapshot_locked` does the same to the record. */
  function Seen(v: View, body: Body): View {
    match body
    case PhaseChanged(phase) => v.(phase := Some(phase))
    case AgentStatus(name, InProgress) => v.(agent := Some(name))
    case Progress(progress, phase, agent) => View(Some(phase), agent, progress)
    case _ => v
  }

  // ---- publishing ----

  function Clamp(p: real): real { if p < 0.0 then 0.0 else if p > 1.0 then 1.0 else p }

  function Publish(r: Run, body: Body, cfg: Config): Outcome {
    if r.status.Terminal() then Outcome(r, None, false)
    else if body.Progress? && Clamp(body.progress) < r.progress then Outcome(r, None, false)
    else
      var sent := if body.Progress? then body.(progress := Clamp(body.progress)) else body;
      var v := Seen(ViewOf(r), sent);
      Emit(r.(phase := v.phase, agent := v.agent, progress := v.progress), sent, cfg)
  }

  // ---- terminal transitions ----

  /** A known reason re-maps only the local status, which decides the completion fields. */
  predicate Completes(status: Status, reason: Reason) {
    var mapped := reason.MappedStatus();
    (if mapped.Some? then mapped.value else status).Completed?
  }

  function EndedRun(r: Run, status: Status, reason: Reason, retryable: bool, completes: bool,
                    signal: Option<string>, reportId: Option<string>, cfg: Config, now: Time): Run
  {
    r.(status := status, finishedAt := Some(now), expiresAt := Some(now + cfg.ttl), reason := Some(reason),
       agent := None, lease := None, retryable := retryable && !completes,
       progress := if completes then 1.0 else r.progress,
       signal := if completes then signal else r.signal,
       reportId := if completes then reportId else r.reportId)
  }

  /** `_transition_terminal_locked`. */
  function Finish(r: Run, allowed: set<Status>, status: Status, reason: Reason, retryable: bool,
                  signal: Option<string>, reportId: Option<string>, cfg: Config, now: Time): Outcome
  {
    if r.status.Terminal() || r.status !in allowed then Outcome(r, None, false)
    else Emit(EndedRun(r, status, reason, retryable || reason.Retryable(), Completes(status, reason), signal, reportId, cfg, now),
              Ended(status), cfg)
  }

  /** `_check_expired_locked`: the deadline first, then the lease heartbeat. */
  function Checked(r: Run, cfg: Config, now: Time): Outcome {
    if !r.status.Waiting() then Outcome(r, None, false)
    else if r.timeoutAt.Some? && now >= r.timeoutAt.value then
      Finish(r.(lease := None), {Queued, Running}, TimedOut, RunDeadlineExceeded, false, None, None, cfg, now)
    else if r.beatTimeout.Some? && r.beatAt.Some? && now - r.beatAt.value >= r.beatTimeout.value then
      Finish(r.(lease := None), {Queued, Running}, Interrupted, WorkerLeaseExpired, false, None, None, cfg, now)
    else Outcome(r, None, false)
  }

  // ---- the operations on one run ----

  datatype Action =
    | Begin
    | BeginPublishing
    | CompletePublishing(gateReady: bool, signal: Option<string>, reportId: string)
    | CompleteRun(signal: Option<string>, reportId: string)
    | FailRun(reason: Reason, retryable: bool)
    | CancelRun(phase: Option<string>)
    | RequestCancel
    | PublishEvent(body: Body)
    | Touch
    | Renew(token: Token)
    | StartLease(token: Token)
    | Check
    | SetCheckpoint(signature: Option<string>)

  function Renewed(r: Run, token: Token, now: Time): Outcome {
    if r.status.Waiting() && r.lease == Some(token) then Outcome(r.(beatAt := Some(now)), None, true)
    else Outcome(r, None, false)
  }

  function Step(r: Run, a: Action, cfg: Config, now: Time): Outcome {
    match a
    case Begin =>
      var c := Checked(r, cfg, now);
      if !c.run.status.Queued? then c
      else Publish(c.run.(status := Running, startedAt := Some(now)), RunStarted, cfg)
    case BeginPublishing =>
      var c := Checked(r, cfg, now);
      if c.run.status.Publishing? then c.(ok := true)
      else if !c.run.status.Running? then c.(ok := false)
      else Outcome(c.run.(status := Publishing), None, true)
    case CompletePublishing(gateReady, signal, reportId) =>
      if r.status.Terminal() then Outcome(r, None, true)
      else if !r.status.Publishing? then Outcome(r, None, false)
      else if !gateReady then Finish(r, {Publishing}, Failed, PublishIncomplete, false, None, None, cfg, now)
      else Finish(r, {Publishing}, Completed, CompletedReason, false, signal, Some(reportId), cfg, now)
    case CompleteRun(signal, reportId) =>
      var c := Checked(r, cfg, now);
      if c.run.status.Terminal() then c
      else Finish(c.run, {Queued, Running, Publishing}, Completed, CompletedReason, false, signal, Some(reportId), cfg, now)
    case FailRun(reason, retryable) =>
      var c := Checked(r, cfg, now);
      if c.run.status.Terminal() then c
      else Finish(c.run.(lease := None), {Queued, Running, Publishing}, Failed, reason, retryable, None, None, cfg, now)
    case CancelRun(phase) =>
      var c := Checked(r, cfg, now);
      if c.run.status.Terminal() || c.run.status.Publishing? then c
      else Finish(c.run.(phase := if phase.Some? then phase else c.run.phase, cancelled := true),
                  {Queued, Running}, Cancelled, CancelledReason, false, None, None, cfg, now)
    case RequestCancel =>
      var c := Checked(r, cfg, now);
      if c.run.status.Terminal() || c.run.status.Publishing? then c
      else c.(run := c.run.(cancelled := true))
    case PublishEvent(body) =>
      var c := Checked(r, cfg, now);
      if c.run.status.Terminal() then c.(ok := false) else Publish(c.run, body, cfg)
    case Touch =>
      var c := Checked(r, cfg, now);
      if !c.run.status.Waiting() then c
      else if c.run.activityAt.None? || now - c.run.activityAt.value >= c.run.beatInterval then
        c.(run := c.run.(activityAt := Some(now), beatAt := if c.run.beatAt.None? then Some(now) else c.run.beatAt))
      else c
    case Renew(token) => Renewed(r, token, now)
    case StartLease(token) => Renewed(r.(lease := Some(token)), token, now)
    case Check => Checked(r, cfg, now)
    case SetCheckpoint(signature) =>
      Outcome(if signature.Some? then r.(checkpoint := signature) else r, None, true)
  }

  // ---- the durable copy ----

  /** The columns of `web_runs`: what has no column is blanked. */
  function RowOf(r: Run): Run { r.(lease := None, cancelled := false, nextNo := 1, ring := []) }

  /** The rows of `web_run_events` for one run, ordered by number; an insert of a number already there is ignored. */
  function Insert(log: seq<Event>, e: Event): seq<Event> {
    if log == [] then [e]
    else if log[0].no == e.no then log
    else if e.no < log[0].no then [e] + log
    else [log[0]] + Insert(log[1..], e)
  }

  function MaxNext(log: seq<Event>): nat {
    if log == [] then 1
    else var n := MaxNext(log[..|log| - 1]); var last := log[|log| - 1].no; if last + 1 > n then last + 1 else n
  }

  function Replayed(log: seq<Event>, limit: nat): seq<Event> {
    if log == [] then [] else Append(Replayed(log[..|log| - 1], limit), log[|log| - 1], limit)
  }

  /** A row and its event rows, read back after a restart. */
  function Loaded(row: Run, log: seq<Event>, cfg: Config): Run {
    row.(ring := Replayed(log, cfg.limit), nextNo := MaxNext(log))
  }

  /** What recovery finds in the final directory of a run that passes the publication gate. */
  datatype Published = Published(signal: Option<string>, reportId: string)

  function Recovered(r: Run, found: Option<Published>, cfg: Config, now: Time): Outcome {
    if r.status.Publishing? then
      if found.Some? then
        Finish(r, {Publishing}, Completed, CompletedReason, false, found.value.signal, Some(found.value.reportId), cfg, now)
      else Finish(r, {Publishing}, Failed, PublishIncomplete, false, None, None, cfg, now)
    else Finish(r, {Queued, Running}, Interrupted, ServiceRestarted, true, None, None, cfg, now)
  }

  /** `_normalize_loaded_terminal_locked`. */
  function Normalized(r: Run, cfg: Config, now: Time): Run {
    if !r.status.Terminal() then r
    else r.(reason := Some(match r.status
                           case Failed => if r.reason.Some? then r.reason.value else OtherReason("failed")
                           case Cancelled => CancelledReason
                           case Interrupted => ServiceRestarted
                           case TimedOut => RunDeadlineExceeded
                           case _ => CompletedReason),
            agent := None,
            progress := if r.status.Completed? then 1.0 else r.progress,
            reportId := if r.status.Completed? && r.reportId.None? then Some(r.id.text) else r.reportId,
            finishedAt := if r.finishedAt.None? then Some(now) else r.finishedAt,
            expiresAt := if r.expiresAt.None? then Some(now + cfg.ttl) else r.expiresAt)
  }

  /** `_repair_terminal_event_locked`: a terminal record whose ring lacks its terminal event gets one. */
  function Repaired(r: Run, cfg: Config): Outcome {
    if !r.status.Terminal() || (exists e :: e in r.ring && e.body == Ended(r.status)) then Outcome(r, None, false)
    else Emit(r, Ended(r.status), cfg)
  }
}
