/** What every operation on one run keeps: a numbered log, a ring that is its newest part, a record that is
    the fold of the log while the run lives, and a single final terminal event once it has ended. */
module RunInvariants {
  import opened Basics
  import opened Runs

  ghost predicate Numbered(log: seq<Event>) { forall i :: 0 <= i < |log| ==> log[i].no == i + 1 }

  ghost predicate NoEnd(log: seq<Event>) { forall i :: 0 <= i < |log| ==> !log[i].body.Ended? }

  /** Exactly one terminal event, the last one, and it names the status. */
  ghost predicate EndsWith(log: seq<Event>, status: Status) {
    |log| > 0 && log[|log| - 1].body == Ended(status) && NoEnd(log[..|log| - 1])
  }

  ghost function Newest(log: seq<Event>, limit: nat): seq<Event> {
    if |log| > limit then log[|log| - limit..] else log
  }

  /** The view a reader has after the whole log. */
  ghost function Fold(log: seq<Event>): View {
    if log == [] then BLANK_VIEW else Seen(Fold(log[..|log| - 1]), log[|log| - 1].body)
  }

  ghost predicate RunOk(r: Run, log: seq<Event>, cfg: Config) {
    && Numbered(log) && r.nextNo == |log| + 1 && r.ring == Newest(log, cfg.limit)
    && 0.0 <= r.progress <= 1.0
    && (r.expiresAt.Some? <==> r.status.Terminal())
    && (if r.status.Terminal() then EndsWith(log, r.status) else NoEnd(log) && ViewOf(r) == Fold(log))
  }

  ghost function After(log: seq<Event>, o: Outcome): seq<Event> {
    if o.event.Some? then log + [o.event.value] else log
  }

  /** Only non-terminal events are published by callers. */
  predicate Proper(a: Action) { a.PublishEvent? ==> !a.body.Ended? }

  // ---- ring and log ----

  lemma NewestAppend(log: seq<Event>, e: Event, limit: nat)
    ensures Append(Newest(log, limit), e, limit) == Newest(log + [e], limit)
  {}

  lemma {:induction false} ReplayedNewest(log: seq<Event>, limit: nat)
    ensures Replayed(log, limit) == Newest(log, limit)
  {
    if log != [] {
      var n := |log| - 1;
      ReplayedNewest(log[..n], limit);
      NewestAppend(log[..n], log[n], limit);
      assert log == log[..n] + [log[n]];
    }
  }

  lemma {:induction false} MaxNextNumbered(log: seq<Event>)
    requires Numbered(log)
    ensures MaxNext(log) == |log| + 1
  {
    if log != [] { MaxNextNumbered(log[..|log| - 1]); }
  }

  lemma FoldAppend(log: seq<Event>, e: Event)
    ensures Fold(log + [e]) == Seen(Fold(log), e.body)
  {
    assert (log + [e])[..|log|] == log;
  }

  lemma {:induction false} InsertAppends(log: seq<Event>, e: Event)
    requires forall i :: 0 <= i < |log| ==> log[i].no < e.no
    ensures Insert(log, e) == log + [e]
  {
    if log != [] {
      InsertAppends(log[1..], e);
      assert log == [log[0]] + log[1..];
    }
  }

  // ---- the building blocks ----

  lemma PublishOk(r: Run, log: seq<Event>, body: Body, cfg: Config)
    requires RunOk(r, log, cfg) && !body.Ended? && cfg.limit >= 1
    ensures RunOk(Publish(r, body, cfg).run, After(log, Publish(r, body, cfg)), cfg)
    ensures Publish(r, body, cfg).event.Some? ==> Publish(r, body, cfg).event.value.no == |log| + 1
  {
    var o := Publish(r, body, cfg);
    if o.event.Some? {
      NewestAppend(log, o.event.value, cfg.limit);
      FoldAppend(log, o.event.value);
    }
  }

  /** An ending keeps the invariant even when the record's view was touched just before it. */
  lemma FinishOk(r: Run, log: seq<Event>, allowed: set<Status>, status: Status, reason: Reason, retryable: bool,
                 signal: Option<string>, reportId: Option<string>, cfg: Config, now: Time)
    requires Numbered(log) && r.nextNo == |log| + 1 && r.ring == Newest(log, cfg.limit)
    requires 0.0 <= r.progress <= 1.0 && NoEnd(log) && !r.status.Terminal()
    requires r.status in allowed && status.Terminal() && cfg.limit >= 1
    ensures var o := Finish(r, allowed, status, reason, retryable, signal, reportId, cfg, now);
            RunOk(o.run, After(log, o), cfg) && o.run.status == status && o.event == Some(Event(|log| + 1, Ended(status)))
  {
    var o := Finish(r, allowed, status, reason, retryable, signal, reportId, cfg, now);
    NewestAppend(log, o.event.value, cfg.limit);
    assert After(log, o)[..|log|] == log;
  }

  /** What no building block touches. */
  ghost predicate SameRun(r: Run, q: Run) {
    && q.id == r.id && q.request == r.request && q.parent == r.parent && q.attempt == r.attempt
    && q.timeoutAt == r.timeoutAt && q.beatTimeout == r.beatTimeout
  }

  lemma FinishFacts(r: Run, allowed: set<Status>, status: Status, reason: Reason, retryable: bool,
                    signal: Option<string>, reportId: Option<string>, cfg: Config, now: Time)
    requires !r.status.Terminal() && r.status in allowed
    ensures var o := Finish(r, allowed, status, reason, retryable, signal, reportId, cfg, now);
            && o.ok && o.event.Some?
            && SameRun(r, o.run) && o.run.status == status && o.run.lease == None && o.run.beatAt == r.beatAt
            && (r.progress <= 1.0 ==> r.progress <= o.run.progress)
  {}

  lemma PublishFacts(r: Run, body: Body, cfg: Config)
    ensures var o := Publish(r, body, cfg);
            && o.ok == o.event.Some? && (o.event.None? ==> o.run == r)
            && SameRun(r, o.run) && o.run.status == r.status && o.run.lease == r.lease && o.run.beatAt == r.beatAt
            && r.progress <= o.run.progress
  {}

  /** The expiry check either leaves the run alone or ends it, and says why. */
  lemma CheckedFacts(r: Run, cfg: Config, now: Time)
    ensures var c := Checked(r, cfg, now);
            var late := r.timeoutAt.Some? && now >= r.timeoutAt.value;
            var lapsed := r.beatTimeout.Some? && r.beatAt.Some? && now - r.beatAt.value >= r.beatTimeout.value;
            && !c.ok == c.event.None? && (c.event.None? ==> c.run == r)
            && (c.event.Some? <==> r.status.Waiting() && (late || lapsed))
            && (c.event.Some? ==> SameRun(r, c.run) && c.run.lease == None && c.run.beatAt == r.beatAt
                                  && c.run.status == (if late then TimedOut else Interrupted)
                                  && (r.progress <= 1.0 ==> r.progress <= c.run.progress))
  {
    if r.status.Waiting() {
      FinishFacts(r.(lease := None), {Queued, Running}, TimedOut, RunDeadlineExceeded, false, None, None, cfg, now);
      FinishFacts(r.(lease := None), {Queued, Running}, Interrupted, WorkerLeaseExpired, false, None, None, cfg, now);
    }
  }

  lemma CheckedOk(r: Run, log: seq<Event>, cfg: Config, now: Time)
    requires RunOk(r, log, cfg) && cfg.limit >= 1
    ensures var c := Checked(r, cfg, now);
            RunOk(c.run, After(log, c), cfg) && (c.event.Some? ==> c.event.value.no == |log| + 1)
  {
    hide Finish, Numbered, NoEnd, EndsWith, Fold, Newest;
    if r.status.Waiting() {
      FinishOk(r.(lease := None), log, {Queued, Running}, TimedOut, RunDeadlineExceeded, false, None, None, cfg, now);
      FinishOk(r.(lease := None), log, {Queued, Running}, Interrupted, WorkerLeaseExpired, false, None, None, cfg, now);
    }
  }

  // ---- every operation ----

  /** What a well-formed live run brings to its end. */
  lemma LiveFacts(r: Run, log: seq<Event>, cfg: Config)
    requires RunOk(r, log, cfg) && !r.status.Terminal()
    ensures Numbered(log) && r.nextNo == |log| + 1 && r.ring == Newest(log, cfg.limit) && 0.0 <= r.progress <= 1.0 && NoEnd(log)
  {}

  /** Fields that no reader of events sees may change. */
  lemma HiddenChange(r: Run, q: Run, log: seq<Event>, cfg: Config)
    requires RunOk(r, log, cfg) && ViewOf(q) == ViewOf(r) && q.nextNo == r.nextNo && q.ring == r.ring && q.expiresAt == r.expiresAt
    requires if r.status.Terminal() then q.status == r.status else !q.status.Terminal()
    ensures RunOk(q, log, cfg)
  {}

  /** The calls that may end a run of their own. */
  predicate Closes(a: Action) { a.CompletePublishing? || a.CompleteRun? || a.FailRun? || a.CancelRun? }

  lemma ClosingKeepsRunOk(r: Run, log: seq<Event>, a: Action, cfg: Config, now: Time)
    requires RunOk(r, log, cfg) && Closes(a) && cfg.limit >= 1
    ensures RunOk(Step(r, a, cfg, now).run, After(log, Step(r, a, cfg, now)), cfg)
    ensures Step(r, a, cfg, now).event.Some? ==> Step(r, a, cfg, now).event.value.no == |log| + 1
  {
    hide Finish, Checked, RunOk, Numbered, NoEnd, Newest;
    CheckedOk(r, log, cfg, now);
    CheckedFacts(r, cfg, now);
    var c := Checked(r, cfg, now).run;
    if !r.status.Terminal() { LiveFacts(r, log, cfg); }
    match a
    case CompletePublishing(gateReady, signal, reportId) =>
      if r.status.Publishing? {
        FinishOk(r, log, {Publishing}, Failed, PublishIncomplete, false, None, None, cfg, now);
        FinishOk(r, log, {Publishing}, Completed, CompletedReason, false, signal, Some(reportId), cfg, now);
      }
    case CompleteRun(signal, reportId) =>
      if !c.status.Terminal() {
        FinishOk(c, log, {Queued, Running, Publishing}, Completed, CompletedReason, false, signal, Some(reportId), cfg, now);
      }
    case FailRun(reason, retryable) =>
      if !c.status.Terminal() {
        FinishOk(c.(lease := None), log, {Queued, Running, Publishing}, Failed, reason, retryable, None, None, cfg, now);
      }
    case CancelRun(phase) =>
      if c.status.Waiting() {
        FinishOk(c.(phase := if phase.Some? then phase else c.phase, cancelled := true), log, {Queued, Running},
                 Cancelled, CancelledReason, false, None, None, cfg, now);
      }
  }

  lemma OpenKeepsRunOk(r: Run, log: seq<Event>, a: Action, cfg: Config, now: Time)
    requires RunOk(r, log, cfg) && Proper(a) && !Closes(a) && cfg.limit >= 1
    ensures RunOk(Step(r, a, cfg, now).run, After(log, Step(r, a, cfg, now)), cfg)
    ensures Step(r, a, cfg, now).event.Some? ==> Step(r, a, cfg, now).event.value.no == |log| + 1
  {
    hide Publish, Checked, RunOk;
    CheckedOk(r, log, cfg, now);
    CheckedFacts(r, cfg, now);
    var c := Checked(r, cfg, now).run;
    match a
    case Begin =>
      if c.status.Queued? {
        HiddenChange(c, c.(status := Running, startedAt := Some(now)), log, cfg);
        PublishOk(c.(status := Running, startedAt := Some(now)), log, RunStarted, cfg);
      }
    case BeginPublishing => if c.status.Running? { HiddenChange(c, c.(status := Publishing), log, cfg); }
    case PublishEvent(body) => if !c.status.Terminal() { PublishOk(c, log, body, cfg); }
    case RequestCancel => if c.status.Waiting() { HiddenChange(c, c.(cancelled := true), log, cfg); }
    case Touch => if c.status.Waiting() { HiddenChange(c, Step(r, a, cfg, now).run, log, cfg); }
    case Renew(_) => HiddenChange(r, Step(r, a, cfg, now).run, log, cfg);
    case StartLease(_) => HiddenChange(r, Step(r, a, cfg, now).run, log, cfg);
    case Check =>
    case SetCheckpoint(_) => HiddenChange(r, Step(r, a, cfg, now).run, log, cfg);
  }

  /** Every operation of the manager keeps a run well formed and logs at most one event, with the next number. */
  lemma StepKeepsRunOk(r: Run, log: seq<Event>, a: Action, cfg: Config, now: Time)
    requires RunOk(r, log, cfg) && Proper(a) && cfg.limit >= 1
    ensures RunOk(Step(r, a, cfg, now).run, After(log, Step(r, a, cfg, now)), cfg)
    ensures Step(r, a, cfg, now).event.Some? ==> Step(r, a, cfg, now).event.value.no == |log| + 1
  {
    hide *;
    if Closes(a) { ClosingKeepsRunOk(r, log, a, cfg, now); } else { OpenKeepsRunOk(r, log, a, cfg, now); }
  }

  /** Terminal states absorb: no operation moves the status, the log or the progress of an ended run. */
  lemma TerminalAbsorbs(r: Run, a: Action, cfg: Config, now: Time)
    requires r.status.Terminal()
    ensures var o := Step(r, a, cfg, now);
            o.event == None && o.run == r.(lease := o.run.lease, checkpoint := o.run.checkpoint)
  {}

  /** The edges of the status diagram. */
  predicate Edge(before: Status, after: Status) {
    || before == after
    || (before.Queued? && (after.Running? || after.Terminal()))
    || (before.Running? && (after.Publishing? || after.Terminal()))
    || (before.Publishing? && (after.Completed? || after.Failed?))
  }

  /** The calls that look at the deadline and the heartbeat first. */
  predicate Checks(a: Action) { !a.Renew? && !a.StartLease? && !a.CompletePublishing? && !a.SetCheckpoint? }

  /** The status diagram, given the status the expiry check left. */
  function NextStatus(s: Status, a: Action): Status {
    match a
    case Begin => if s.Queued? then Running else s
    case BeginPublishing => if s.Running? then Publishing else s
    case CompletePublishing(gateReady, _, _) => if !s.Publishing? then s else if gateReady then Completed else Failed
    case CompleteRun(_, _) => if s.Terminal() then s else Completed
    case FailRun(_, _) => if s.Terminal() then s else Failed
    case CancelRun(_) => if s.Waiting() then Cancelled else s
    case _ => s
  }

  ghost predicate Moves(r: Run, q: Run, a: Action, cfg: Config, now: Time) {
    && q.status == NextStatus(if Checks(a) then Checked(r, cfg, now).run.status else r.status, a)
    && SameRun(r, q) && (r.progress <= 1.0 ==> r.progress <= q.progress)
    && (!r.status.Terminal() && q.status.Terminal() ==> q.lease == None)
    && (r.beatAt.Some? && !a.Renew? && !a.StartLease? ==> q.beatAt == r.beatAt)
  }

  lemma ClosingMoves(r: Run, a: Action, cfg: Config, now: Time)
    requires Closes(a)
    ensures Moves(r, Step(r, a, cfg, now).run, a, cfg, now)
  {
    hide Finish, Checked;
    CheckedFacts(r, cfg, now);
    var c := Checked(r, cfg, now).run;
    match a
    case CompletePublishing(gateReady, signal, reportId) =>
      if r.status.Publishing? {
        FinishFacts(r, {Publishing}, Failed, PublishIncomplete, false, None, None, cfg, now);
        FinishFacts(r, {Publishing}, Completed, CompletedReason, false, signal, Some(reportId), cfg, now);
      }
    case CompleteRun(signal, reportId) =>
      if !c.status.Terminal() {
        FinishFacts(c, {Queued, Running, Publishing}, Completed, CompletedReason, false, signal, Some(reportId), cfg, now);
      }
    case FailRun(reason, retryable) =>
      if !c.status.Terminal() {
        FinishFacts(c.(lease := None), {Queued, Running, Publishing}, Failed, reason, retryable, None, None, cfg, now);
      }
    case CancelRun(phase) =>
      if c.status.Waiting() {
        FinishFacts(c.(phase := if phase.Some? then phase else c.phase, cancelled := true), {Queued, Running},
                    Cancelled, CancelledReason, false, None, None, cfg, now);
      }
  }

  lemma OpenMoves(r: Run, a: Action, cfg: Config, now: Time)
    requires !Closes(a)
    ensures Moves(r, Step(r, a, cfg, now).run, a, cfg, now)
  {
    hide Publish, Checked;
    CheckedFacts(r, cfg, now);
    var c := Checked(r, cfg, now).run;
    match a
    case Begin => PublishFacts(c.(status := Running, startedAt := Some(now)), RunStarted, cfg);
    case PublishEvent(body) => PublishFacts(c, body, cfg);
    case _ =>
  }

  /** Every operation follows the diagram, keeps the run's identity and loses no progress. */
  lemma StepMoves(r: Run, a: Action, cfg: Config, now: Time)
    ensures var q := Step(r, a, cfg, now).run;
            && q.status == NextStatus(if Checks(a) then Checked(r, cfg, now).run.status else r.status, a)
            && SameRun(r, q) && (r.progress <= 1.0 ==> r.progress <= q.progress)
            && (!r.status.Terminal() && q.status.Terminal() ==> q.lease == None)
            && (r.beatAt.Some? && !a.Renew? && !a.StartLease? ==> q.beatAt == r.beatAt)
  {
    hide Step, Checked, Closes, NextStatus, SameRun, Checks;
    if Closes(a) { ClosingMoves(r, a, cfg, now); } else { OpenMoves(r, a, cfg, now); }
  }

  /** One operation on one run: the edges taken, the deadline, and what an interruption means. */
  lemma StepFacts(r: Run, a: Action, cfg: Config, now: Time)
    ensures var q := Step(r, a, cfg, now).run;
            var late := r.timeoutAt.Some? && now >= r.timeoutAt.value;
            && SameRun(r, q) && Edge(r.status, q.status)
            && (r.progress <= 1.0 ==> r.progress <= q.progress)
            && (!r.status.Terminal() && q.status.Terminal() ==> q.lease == None)
            && (r.status.Waiting() && late ==> q.status == r.status || q.status == TimedOut)
            && (r.status.Waiting() && late && Checks(a) ==> q.status == TimedOut)
            && (!r.status.Terminal() && q.status.Interrupted? ==>
                  r.beatAt.Some? && r.beatTimeout.Some? && now - r.beatAt.value >= r.beatTimeout.value && !late)
  {
    hide Step, Checked;
    CheckedFacts(r, cfg, now);
    StepMoves(r, a, cfg, now);
  }

  /** The heartbeat moves exactly for the holder of the current token, or a lease that starts, while the run waits. */
  lemma HeartbeatMoves(r: Run, a: Action, cfg: Config, now: Time)
    requires r.beatAt.Some?
    ensures var o := Step(r, a, cfg, now);
            if ((a.Renew? && r.lease == Some(a.token)) || a.StartLease?) && r.status.Waiting()
            then o.ok && o.run == r.(beatAt := Some(now), lease := o.run.lease)
            else o.run.beatAt == r.beatAt && ((a.Renew? || a.StartLease?) ==> !o.ok)
  {
    hide Finish, Publish, Checked;
    StepMoves(r, a, cfg, now);
  }

  // ---- restart ----

  /** What the durable tables hold for one run after any write: perhaps a snapshot ahead of its log. */
  ghost predicate StoredOk(row: Run, log: seq<Event>) {
    && Numbered(log) && 0.0 <= row.progress <= 1.0
    && (row.expiresAt.Some? <==> row.status.Terminal())
    && if row.status.Terminal() then EndsWith(log, row.status) else NoEnd(log)
  }

  /** One run read back: recovery, normalization and repair together. */
  function Restarted(row: Run, log: seq<Event>, found: Option<Published>, cfg: Config, now: Time): Outcome {
    var loaded := Loaded(row, log, cfg);
    var o := if loaded.status.Terminal() then Outcome(loaded, None, false) else Recovered(loaded, found, cfg, now);
    var p := Repaired(Normalized(o.run, cfg, now), cfg);
    if p.event.Some? then p else Outcome(p.run, o.event, o.ok)
  }

  lemma LoadedRing(row: Run, log: seq<Event>, cfg: Config)
    requires Numbered(log)
    ensures Loaded(row, log, cfg).ring == Newest(log, cfg.limit) && Loaded(row, log, cfg).nextNo == |log| + 1
  {
    ReplayedNewest(log, cfg.limit);
    MaxNextNumbered(log);
  }

  /** Normalizing and repairing an ended run that is well formed changes nothing that a reader of its events sees. */
  lemma NormalizedOk(r: Run, log: seq<Event>, cfg: Config, now: Time)
    requires RunOk(r, log, cfg) && r.status.Terminal() && cfg.limit >= 1
    ensures var q := Normalized(r, cfg, now);
            RunOk(q, log, cfg) && SameRun(r, q) && q.status == r.status && Repaired(q, cfg) == Outcome(q, None, false)
  {
    var q := Normalized(r, cfg, now);
    assert q.ring[|q.ring| - 1] == log[|log| - 1];
  }

  lemma RecoveredOk(r: Run, log: seq<Event>, found: Option<Published>, cfg: Config, now: Time)
    requires Numbered(log) && r.nextNo == |log| + 1 && r.ring == Newest(log, cfg.limit)
    requires 0.0 <= r.progress <= 1.0 && NoEnd(log) && !r.status.Terminal() && cfg.limit >= 1
    ensures var o := Recovered(r, found, cfg, now);
            && RunOk(o.run, After(log, o), cfg) && SameRun(r, o.run)
            && o.event == Some(Event(|log| + 1, Ended(o.run.status)))
            && o.run.status == if r.status.Waiting() then Interrupted else if found.Some? then Completed else Failed
  {
    hide Finish, Numbered, NoEnd, Newest;
    if r.status.Waiting() {
      FinishOk(r, log, {Queued, Running}, Interrupted, ServiceRestarted, true, None, None, cfg, now);
      FinishFacts(r, {Queued, Running}, Interrupted, ServiceRestarted, true, None, None, cfg, now);
    } else if found.Some? {
      FinishOk(r, log, {Publishing}, Completed, CompletedReason, false, found.value.signal, Some(found.value.reportId), cfg, now);
      FinishFacts(r, {Publishing}, Completed, CompletedReason, false, found.value.signal, Some(found.value.reportId), cfg, now);
    } else {
      FinishOk(r, log, {Publishing}, Failed, PublishIncomplete, false, None, None, cfg, now);
      FinishFacts(r, {Publishing}, Failed, PublishIncomplete, false, None, None, cfg, now);
    }
  }

  /** Reload gives back the newest part of the log and its counter, ends every run, and adds exactly the missing end. */
  lemma RestartedOk(row: Run, log: seq<Event>, found: Option<Published>, cfg: Config, now: Time)
    requires StoredOk(row, log) && cfg.limit >= 1
    ensures var o := Restarted(row, log, found, cfg, now);
            && RunOk(o.run, After(log, o), cfg) && o.run.status.Terminal() && SameRun(row, o.run)
            && (if row.status.Terminal() then o.event == None else o.event == Some(Event(|log| + 1, Ended(o.run.status))))
            && o.run.status == if row.status.Terminal() then row.status
                               else if row.status.Waiting() then Interrupted
                               else if found.Some? then Completed else Failed
  {
    hide Recovered, Normalized, Repaired, Numbered, NoEnd, Newest;
    LoadedRing(row, log, cfg);
    var loaded := Loaded(row, log, cfg);
    if row.status.Terminal() {
      NormalizedOk(loaded, log, cfg, now);
    } else {
      RecoveredOk(loaded, log, found, cfg, now);
      var o := Recovered(loaded, found, cfg, now);
      NormalizedOk(o.run, After(log, o), cfg, now);
    }
  }
}
