/** How runs begin and end: what a record carries after its last transition, after a restart, and after it was admitted. */
module Endings {
  import opened Basics
  import opened Runs
  import opened RunInvariants
  import opened ManagerModel
  import opened ManagerInvariants
  import opened ManagerTraces
  import opened ManagerRestart

  // ---- the end of a run ----

  predicate Late(r: Run, now: Time) {
    (r.status == Queued || r.status == Running) && r.timeoutAt.Some? && now >= r.timeoutAt.value
  }

  predicate Lapsed(r: Run, now: Time) {
    && (r.status == Queued || r.status == Running)
    && r.beatTimeout.Some? && r.beatAt.Some? && now >= r.beatAt.value + r.beatTimeout.value
  }

  /** The reasons after which a run may be retried, whatever its caller says. */
  predicate RetryReason(reason: Reason) {
    || reason == ModelTimeout || reason == ModelRateLimited || reason == ModelUnavailable
    || reason == DataSourceTimeout || reason == DataSourceUnavailable
    || reason == WorkerLeaseExpired || reason == ServiceRestarted || reason == RunDeadlineExceeded
  }

  /** What every ending leaves behind. */
  ghost predicate IsEnded(r: Run, q: Run, event: Option<Event>, cfg: Config, now: Time) {
    && q.finishedAt == Some(now) && q.expiresAt == Some(now + cfg.ttl) && q.agent == None && q.lease == None
    && event == Some(Event(r.nextNo, Ended(q.status)))
    && q.checkpoint == r.checkpoint && q.startedAt == r.startedAt
  }

  /** It ended without a result. */
  ghost predicate EndsWithout(r: Run, q: Run, status: Status, reason: Reason, retryable: bool) {
    && q.status == status && q.reason == Some(reason) && q.retryable == retryable
    && q.signal == r.signal && q.reportId == r.reportId && q.progress == r.progress
  }

  /** It completed, with its result. */
  ghost predicate EndsComplete(q: Run, signal: Option<string>, reportId: string) {
    && q.status == Completed && q.reason == Some(CompletedReason) && !q.retryable
    && q.signal == signal && q.reportId == Some(reportId) && q.progress == 1.0
  }

  /** A failure whose reason is "completed" keeps its status and gets the fields of a completion. */
  ghost predicate EndsMislabelled(q: Run, status: Status, signal: Option<string>, reportId: Option<string>) {
    && q.status == status && q.reason == Some(CompletedReason) && !q.retryable
    && q.signal == signal && q.reportId == reportId && q.progress == 1.0
  }

  lemma FinishCarries(r: Run, allowed: set<Status>, status: Status, reason: Reason, retryable: bool,
                      signal: Option<string>, reportId: Option<string>, cfg: Config, now: Time)
    requires !r.status.Terminal() && r.status in allowed
    ensures var o := Finish(r, allowed, status, reason, retryable, signal, reportId, cfg, now);
            && IsEnded(r, o.run, o.event, cfg, now) && o.run.cancelled == r.cancelled
            && (status == Completed && reason == CompletedReason && reportId.Some? ==> EndsComplete(o.run, signal, reportId.value))
            && (status != Completed && reason != CompletedReason ==> EndsWithout(r, o.run, status, reason, retryable || RetryReason(reason)))
            && (status != Completed && reason == CompletedReason ==> EndsMislabelled(o.run, status, signal, reportId))
  {
    hide Append;
  }

  /** The expiry check: the deadline has priority over the lease. */
  lemma ExpiryCarries(r: Run, cfg: Config, now: Time)
    ensures var o := Checked(r, cfg, now);
            if Late(r, now) then IsEnded(r, o.run, o.event, cfg, now) && EndsWithout(r, o.run, TimedOut, RunDeadlineExceeded, true)
            else if Lapsed(r, now) then IsEnded(r, o.run, o.event, cfg, now) && EndsWithout(r, o.run, Interrupted, WorkerLeaseExpired, true)
            else o == Outcome(r, None, false)
  {
    hide Finish;
    if r.status == Queued || r.status == Running {
      FinishCarries(r.(lease := None), {Queued, Running}, TimedOut, RunDeadlineExceeded, false, None, None, cfg, now);
      FinishCarries(r.(lease := None), {Queued, Running}, Interrupted, WorkerLeaseExpired, false, None, None, cfg, now);
    }
  }

  /** Why a run ended, and with what: the deadline and the lease first, then what the call asked for. */
  lemma EndingCarries(r: Run, a: Action, cfg: Config, now: Time)
    requires !r.status.Terminal() && Step(r, a, cfg, now).run.status.Terminal()
    ensures var o := Step(r, a, cfg, now);
            && IsEnded(r, o.run, o.event, cfg, now)
            && if !a.CompletePublishing? && Late(r, now) then EndsWithout(r, o.run, TimedOut, RunDeadlineExceeded, true)
               else if !a.CompletePublishing? && Lapsed(r, now) then EndsWithout(r, o.run, Interrupted, WorkerLeaseExpired, true)
               else match a
                    case CompletePublishing(true, signal, reportId) => EndsComplete(o.run, signal, reportId)
                    case CompletePublishing(false, _, _) => EndsWithout(r, o.run, Failed, PublishIncomplete, false)
                    case CompleteRun(signal, reportId) => EndsComplete(o.run, signal, reportId)
                    case CancelRun(_) => EndsWithout(r, o.run, Cancelled, CancelledReason, false) && o.run.cancelled
                    case FailRun(reason, retryable) =>
                      if reason == CompletedReason then EndsMislabelled(o.run, Failed, None, None)
                      else EndsWithout(r, o.run, Failed, reason, retryable || RetryReason(reason))
                    case _ => false
  {
    hide Finish, Checked, Publish;
    ExpiryCarries(r, cfg, now);
    match a
    case CompletePublishing(gateReady, signal, reportId) =>
      if r.status == Publishing {
        FinishCarries(r, {Publishing}, Failed, PublishIncomplete, false, None, None, cfg, now);
        FinishCarries(r, {Publishing}, Completed, CompletedReason, false, signal, Some(reportId), cfg, now);
      }
    case CompleteRun(signal, reportId) =>
      FinishCarries(r, {Queued, Running, Publishing}, Completed, CompletedReason, false, signal, Some(reportId), cfg, now);
    case FailRun(reason, retryable) =>
      FinishCarries(r.(lease := None), {Queued, Running, Publishing}, Failed, reason, retryable, None, None, cfg, now);
    case CancelRun(phase) =>
      if r.status.Waiting() {
        FinishCarries(r.(phase := if phase.Some? then phase else r.phase, cancelled := true), {Queued, Running},
                      Cancelled, CancelledReason, false, None, None, cfg, now);
      }
    case Begin => PublishFacts(r.(status := Running, startedAt := Some(now)), RunStarted, cfg);
    case PublishEvent(body) => PublishFacts(r, body, cfg);
    case Renew(_) =>
    case StartLease(_) =>
    case _ =>
  }

  // ---- the calls that end nothing ----

  lemma PublishCarries(r: Run, body: Body, cfg: Config)
    ensures var o := Publish(r, body, cfg);
            && o.run == r.(phase := o.run.phase, agent := o.run.agent, progress := o.run.progress, nextNo := o.run.nextNo, ring := o.run.ring)
            && (!r.status.Terminal() && !body.Progress? ==> o.event == Some(Event(r.nextNo, body)))
  {
    hide Append, Seen;
  }

  /** A call that leaves a run alive does just this to it, besides what an event shows. */
  lemma LiveCallDoes(r: Run, a: Action, cfg: Config, now: Time)
    requires !r.status.Terminal() && !Step(r, a, cfg, now).run.status.Terminal()
    ensures var o := Step(r, a, cfg, now);
            var waits := r.status == Queued || r.status == Running;
            var beats := a.Touch? && waits && (r.activityAt.None? || now >= r.activityAt.value + r.beatInterval);
            && o.run.finishedAt == r.finishedAt && o.run.reason == r.reason && o.run.retryable == r.retryable
            && o.run.signal == r.signal && o.run.reportId == r.reportId
            && o.run.startedAt == (if a.Begin? && r.status == Queued then Some(now) else r.startedAt)
            && (a.Begin? ==> o.event == if r.status == Queued then Some(Event(r.nextNo, RunStarted)) else None)
            && (!a.Begin? && !a.PublishEvent? ==> o.event == None)
            && o.run.checkpoint == (if a.SetCheckpoint? && a.signature.Some? then a.signature else r.checkpoint)
            && o.run.cancelled == (r.cancelled || (a.RequestCancel? && waits))
            && o.run.activityAt == (if beats then Some(now) else r.activityAt)
            && o.run.lease == (if a.StartLease? then Some(a.token) else r.lease)
            && o.run.beatAt == (if waits && (a.StartLease? || (a.Renew? && r.lease == Some(a.token)) || (beats && r.beatAt.None?))
                                then Some(now) else r.beatAt)
  {
    hide Finish, Checked, Publish;
    ExpiryCarries(r, cfg, now);
    match a
    case CompletePublishing(_, signal, reportId) =>
      if r.status == Publishing {
        FinishFacts(r, {Publishing}, Failed, PublishIncomplete, false, None, None, cfg, now);
        FinishFacts(r, {Publishing}, Completed, CompletedReason, false, signal, Some(reportId), cfg, now);
      }
    case CompleteRun(signal, reportId) =>
      FinishFacts(r, {Queued, Running, Publishing}, Completed, CompletedReason, false, signal, Some(reportId), cfg, now);
    case FailRun(reason, retryable) =>
      FinishFacts(r.(lease := None), {Queued, Running, Publishing}, Failed, reason, retryable, None, None, cfg, now);
    case CancelRun(phase) =>
      if r.status.Waiting() {
        FinishFacts(r.(phase := if phase.Some? then phase else r.phase, cancelled := true), {Queued, Running},
                    Cancelled, CancelledReason, false, None, None, cfg, now);
      }
    case Begin => PublishCarries(r.(status := Running, startedAt := Some(now)), RunStarted, cfg);
    case PublishEvent(body) => PublishCarries(r, body, cfg);
    case _ =>
  }

  // ---- what the caller is told ----

  /** The answer of each call: an expiry counts as done where the call was to end or look at the run. */
  lemma AnswerIs(r: Run, a: Action, cfg: Config, now: Time)
    ensures var o := Step(r, a, cfg, now);
            var waits := r.status == Queued || r.status == Running;
            var expires := Late(r, now) || Lapsed(r, now);
            match a
            case Begin => o.ok == (expires || r.status == Queued)
            case BeginPublishing => o.ok == (!expires && (r.status == Running || r.status == Publishing))
            case CompletePublishing(_, _, _) => o.ok == (r.status.Terminal() || r.status == Publishing)
            case CompleteRun(_, _) => o.ok == !r.status.Terminal()
            case FailRun(_, _) => o.ok == !r.status.Terminal()
            case CancelRun(_) => o.ok == waits
            case RequestCancel => o.ok == expires
            case PublishEvent(_) => o.ok == (!expires && o.event.Some?)
            case Touch => o.ok == expires
            case Renew(token) => o.ok == (waits && r.lease == Some(token))
            case StartLease(_) => o.ok == waits
            case Check => o.ok == expires
            case SetCheckpoint(_) => o.ok
  {
    hide Finish, Checked, Publish;
    ExpiryCarries(r, cfg, now);
    CheckedFacts(r, cfg, now);
    match a
    case CompletePublishing(_, signal, reportId) =>
      if r.status == Publishing {
        FinishFacts(r, {Publishing}, Failed, PublishIncomplete, false, None, None, cfg, now);
        FinishFacts(r, {Publishing}, Completed, CompletedReason, false, signal, Some(reportId), cfg, now);
      }
    case CompleteRun(signal, reportId) =>
      if !r.status.Terminal() {
        FinishFacts(r, {Queued, Running, Publishing}, Completed, CompletedReason, false, signal, Some(reportId), cfg, now);
      }
    case FailRun(reason, retryable) =>
      if !r.status.Terminal() {
        FinishFacts(r.(lease := None), {Queued, Running, Publishing}, Failed, reason, retryable, None, None, cfg, now);
      }
    case CancelRun(phase) =>
      if r.status.Waiting() {
        FinishFacts(r.(phase := if phase.Some? then phase else r.phase, cancelled := true), {Queued, Running},
                    Cancelled, CancelledReason, false, None, None, cfg, now);
      }
    case Begin =>
      PublishFacts(r.(status := Running, startedAt := Some(now)), RunStarted, cfg);
      PublishCarries(r.(status := Running, startedAt := Some(now)), RunStarted, cfg);
    case PublishEvent(body) => PublishFacts(r, body, cfg);
    case _ =>
  }

  // ---- after a restart ----

  lemma RepairCarries(r: Run, cfg: Config)
    ensures var o := Repaired(r, cfg); o.run == r.(nextNo := o.run.nextNo, ring := o.run.ring)
  {
    hide Append;
  }

  /** What normalizing leaves alone. */
  lemma NormalCarries(r: Run, cfg: Config, now: Time)
    requires r.status.Terminal()
    ensures var q := Normalized(r, cfg, now);
            && q.checkpoint == r.checkpoint && q.startedAt == r.startedAt && q.agent == None
            && q.lease == r.lease && q.cancelled == r.cancelled
            && q.status == r.status && q.retryable == r.retryable && q.signal == r.signal
            && (r.finishedAt.Some? ==> q.finishedAt == r.finishedAt) && (r.expiresAt.Some? ==> q.expiresAt == r.expiresAt)
            && (r.reportId.Some? ==> q.reportId == r.reportId) && (!r.status.Completed? ==> q.progress == r.progress && q.reportId == r.reportId)
            && (r.status == Completed ==> q.progress == 1.0 && q.reason == Some(CompletedReason))
            && (r.status == Completed && r.reportId.None? ==> q.reportId == Some(r.id.text))
            && (r.status == Failed ==> q.reason == if r.reason.Some? then r.reason else Some(OtherReason("failed")))
            && (r.status == Interrupted ==> q.reason == Some(ServiceRestarted))
            && (r.status == Cancelled ==> q.reason == Some(CancelledReason))
            && (r.status == TimedOut ==> q.reason == Some(RunDeadlineExceeded))
            && (r.finishedAt.None? ==> q.finishedAt == Some(now)) && (r.expiresAt.None? ==> q.expiresAt == Some(now + cfg.ttl))
  {}

  lemma RecoveryCarries(r: Run, found: Option<Published>, cfg: Config, now: Time)
    requires !r.status.Terminal()
    ensures var o := Recovered(r, found, cfg, now);
            && o.run.status.Terminal() && IsEnded(r, o.run, o.event, cfg, now) && o.run.cancelled == r.cancelled
            && (r.status != Publishing ==> EndsWithout(r, o.run, Interrupted, ServiceRestarted, true))
            && (r.status == Publishing && found.Some? ==> EndsComplete(o.run, found.value.signal, found.value.reportId))
            && (r.status == Publishing && found.None? ==> EndsWithout(r, o.run, Failed, PublishIncomplete, false))
  {
    hide Finish;
    if r.status == Publishing {
      if found.Some? {
        FinishCarries(r, {Publishing}, Completed, CompletedReason, false, found.value.signal, Some(found.value.reportId), cfg, now);
      }
      FinishCarries(r, {Publishing}, Failed, PublishIncomplete, false, None, None, cfg, now);
    } else {
      FinishCarries(r, {Queued, Running}, Interrupted, ServiceRestarted, true, None, None, cfg, now);
    }
  }

  /** What a reload makes of one stored run, whatever its event rows. An interrupted run keeps its checkpoint and may be retried. */
  lemma ReloadCarries(row: Run, log: seq<Event>, found: Option<Published>, cfg: Config, now: Time)
    ensures var q := Restarted(row, log, found, cfg, now).run;
            && q.checkpoint == row.checkpoint && q.startedAt == row.startedAt && q.agent == None
            && q.lease == (if row.status.Terminal() then row.lease else None) && q.cancelled == row.cancelled
            && (row.status == Queued || row.status == Running ==>
                  EndsWithout(row, q, Interrupted, ServiceRestarted, true) && q.finishedAt == Some(now) && q.expiresAt == Some(now + cfg.ttl))
            && (row.status == Publishing && found.Some? ==> EndsComplete(q, found.value.signal, found.value.reportId))
            && (row.status == Publishing && found.None? ==> EndsWithout(row, q, Failed, PublishIncomplete, false))
            && (row.status.Terminal() ==>
                  && q.status == row.status && q.retryable == row.retryable && q.signal == row.signal
                  && (row.finishedAt.Some? ==> q.finishedAt == row.finishedAt) && (row.expiresAt.Some? ==> q.expiresAt == row.expiresAt)
                  && q.reportId == (if row.status == Completed && row.reportId.None? then Some(row.id.text) else row.reportId)
                  && (row.finishedAt.None? ==> q.finishedAt == Some(now)) && (row.expiresAt.None? ==> q.expiresAt == Some(now + cfg.ttl))
                  && (row.status == Completed ==> q.reason == Some(CompletedReason) && q.progress == 1.0)
                  && (row.status == Failed ==> q.reason == if row.reason.Some? then row.reason else Some(OtherReason("failed")))
                  && (row.status == Interrupted ==> q.reason == Some(ServiceRestarted))
                  && (row.status == Cancelled ==> q.reason == Some(CancelledReason))
                  && (row.status == TimedOut ==> q.reason == Some(RunDeadlineExceeded)))
  {
    hide Recovered, Normalized, Repaired, Replayed, MaxNext;
    var loaded := Loaded(row, log, cfg);
    if !row.status.Terminal() { RecoveryCarries(loaded, found, cfg, now); }
    var r := if row.status.Terminal() then loaded else Recovered(loaded, found, cfg, now).run;
    NormalCarries(r, cfg, now);
    RepairCarries(Normalized(r, cfg, now), cfg);
  }

  lemma ReloadIs(m: Manager, found: map<RunId, Published>, id: RunId, cfg: Config, now: Time)
    requires id in m.rows
    ensures var n := Do(m, Reload(found), cfg, now);
            id in n.records && n.active == {} && n.records[id] == Restarted(m.rows[id], Log(m.events, id), Found(found, id), cfg, now).run
  {
    hide Restarted, RestartedEvents, Log, RowOf;
  }

  /** The manager after a reload, run by run. */
  lemma ReloadedRun(m: Manager, found: map<RunId, Published>, id: RunId, cfg: Config, now: Time)
    requires Inv(m, cfg) && id in m.records
    ensures var n, r := Do(m, Reload(found), cfg, now), m.records[id];
            && id in n.records && n.active == {} && n.records[id].checkpoint == r.checkpoint
            && n.records[id].lease == None && !n.records[id].cancelled
            && (r.status == Queued || r.status == Running ==> n.records[id].status == Interrupted && n.records[id].retryable)
            && (r.status.Terminal() ==> n.records[id].status == r.status && n.records[id].retryable == r.retryable)
  {
    RowIs(m, id, cfg);
    hide Inv, Do, Restarted;
    ReloadIs(m, found, id, cfg, now);
    ReloadCarries(m.rows[id], Log(m.events, id), Found(found, id), cfg, now);
  }

  /** Nothing active refuses nothing. */
  lemma NothingActive(m: Manager, q: Request)
    requires m.active == {}
    ensures Admission(m, q) == None
  {}

  /** Every run that waited when the process died, and had a checkpoint, may be retried by the next process. */
  lemma InterruptedCanRetry(m: Manager, found: map<RunId, Published>, id: RunId, cfg: Config, now: Time)
    requires Inv(m, cfg) && id in m.records && m.records[id].checkpoint.Some?
    requires m.records[id].status == Queued || m.records[id].status == Running
    ensures RetryVerdict(Do(m, Reload(found), cfg, now), id) == None
  {
    hide Inv, Do, Admission;
    ReloadedRun(m, found, id, cfg, now);
    var n := Do(m, Reload(found), cfg, now);
    NothingActive(n, n.records[id].request);
  }

  /** So may every ended run that could be retried before. */
  lemma EndedStaysRetryable(m: Manager, found: map<RunId, Published>, id: RunId, cfg: Config, now: Time)
    requires Inv(m, cfg) && id in m.records && m.records[id].status.Terminal() && RetryVerdict(m, id) == None
    ensures RetryVerdict(Do(m, Reload(found), cfg, now), id) == None
  {
    hide Inv, Do, Admission;
    ReloadedRun(m, found, id, cfg, now);
    var n := Do(m, Reload(found), cfg, now);
    NothingActive(n, n.records[id].request);
  }
}
