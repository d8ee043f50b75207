/** The run manager itself: records, ring and tables changed in place, each call proved against its specification. */
module RunManagers {
  import opened Basics
  import opened Runs
  import opened RunInvariants
  import opened ManagerModel
  import opened ManagerLoops
  import Streaming

  /** `_ManagedRun` with its record. */
  class ManagedRun {
    const id: RunId
    const request: Request
    const timeoutAt: Option<Time>
    const beatTimeout: Option<nat>
    const beatInterval: nat
    const parent: Option<RunId>
    const attempt: nat
    var status: Status
    var phase: Option<string>
    var agent: Option<string>
    var progress: real
    var startedAt: Option<Time>
    var finishedAt: Option<Time>
    var expiresAt: Option<Time>
    var beatAt: Option<Time>
    var activityAt: Option<Time>
    var reason: Option<Reason>
    var retryable: bool
    var signal: Option<string>
    var reportId: Option<string>
    var checkpoint: Option<string>
    var lease: Option<Token>
    var cancelled: bool
    var nextNo: nat
    var ring: seq<Event>

    constructor (r: Run)
      ensures Value() == r
    {
      id, request, timeoutAt, beatTimeout, beatInterval, parent, attempt :=
        r.id, r.request, r.timeoutAt, r.beatTimeout, r.beatInterval, r.parent, r.attempt;
      status, phase, agent, progress := r.status, r.phase, r.agent, r.progress;
      startedAt, finishedAt, expiresAt, beatAt, activityAt := r.startedAt, r.finishedAt, r.expiresAt, r.beatAt, r.activityAt;
      reason, retryable, signal, reportId, checkpoint := r.reason, r.retryable, r.signal, r.reportId, r.checkpoint;
      lease, cancelled, nextNo, ring := r.lease, r.cancelled, r.nextNo, r.ring;
    }

    function Value(): (r: Run)
      reads this
      ensures r.id == id
    {
      Run(id, request, status, phase, agent, progress, startedAt, finishedAt, expiresAt, timeoutAt, beatTimeout, beatInterval,
          beatAt, activityAt, reason, retryable, signal, reportId, checkpoint, parent, attempt, lease, cancelled, nextNo, ring)
    }
  }

  class RunManager {
    const cfg: Config
    var records: map<RunId, ManagedRun>
    var active: set<RunId>
    var setting: Option<Setting>
    var life: Lifecycle
    var rows: map<RunId, Run>             // table web_runs
    var events: map<RunId, seq<Event>>    // table web_run_events

    constructor (cfg: Config, setting: Option<Setting>, life: Lifecycle, rows: map<RunId, Run>, events: map<RunId, seq<Event>>)
      ensures this.cfg == cfg && this.setting == setting && this.life == life
      ensures records == map[] && active == {} && this.rows == rows && this.events == events
    {
      this.cfg, this.setting, this.life, this.rows, this.events := cfg, setting, life, rows, events;
      records, active := map[], {};
    }

    ghost predicate Valid()
      reads this, records.Values
    {
      OwnObjects() && Mirror(rows, Runs())
    }

    /** Every id has an object of its own. */
    ghost predicate OwnObjects()
      reads this, records.Values
    {
      && (forall i, j :: i in records && j in records && i != j ==> records[i] != records[j])
      && forall i :: i in records ==> records[i].id == i
    }

    ghost function Runs(): map<RunId, Run>
      reads this, records.Values
    {
      map i | i in records :: records[i].Value()
    }

    ghost function State(): Manager
      reads this, records.Values
    {
      Manager(Runs(), active, setting, life, rows, events)
    }

    // ---- the locked helpers ----

    method Persist(state: ManagedRun)
      modifies this`rows
      ensures rows == old(rows)[state.id := RowOf(state.Value())]
    {
      rows := rows[state.id := RowOf(state.Value())];
    }

    method PersistEvent(state: ManagedRun, e: Event)
      modifies this`events
      ensures events == Store(old(events), state.id, Some(e))
    {
      var log := if state.id in events then events[state.id] else [];
      events := events[state.id := Insert(log, e)];
    }

    /** `_update_snapshot_locked`. */
    method UpdateSnapshot(state: ManagedRun, body: Body)
      modifies state
      ensures var v := Seen(ViewOf(old(state.Value())), body);
              state.Value() == old(state.Value()).(phase := v.phase, agent := v.agent, progress := v.progress)
    {
      match body
      case PhaseChanged(phase) => state.phase := Some(phase);
      case AgentStatus(name, s) => if s.InProgress? { state.agent := Some(name); }
      case Progress(progress, phase, agent) =>
        state.progress := progress;
        state.phase := Some(phase);
        state.agent := agent;
      case _ =>
    }

    /** `_publish_locked`: row first, then the counter and the ring, then the event row. */
    method PublishLocked(state: ManagedRun, body: Body) returns (ok: bool)
      modifies state, this`rows, this`events
      ensures var o := Publish(old(state.Value()), body, cfg);
              && state.Value() == o.run && ok == o.ok
              && events == Store(old(events), state.id, o.event)
              && rows == if o.event.Some? then old(rows)[state.id := RowOf(o.run)] else old(rows)
    {
      if state.status.Terminal() { return false; }
      var sent := body;
      if body.Progress? {
        var p := Clamp(body.progress);
        if p < state.progress { return false; }
        sent := body.(progress := p);
      }
      var envelope := Event(state.nextNo, sent);
      UpdateSnapshot(state, sent);
      Persist(state);
      state.nextNo := state.nextNo + 1;
      state.ring := Append(state.ring, envelope, cfg.limit);
      PersistEvent(state, envelope);
      ok := true;
    }

    /** `_persist_terminal_locked`: row and event in one transaction. */
    method PersistTerminal(state: ManagedRun, e: Event)
      modifies this`rows, this`events
      ensures rows == old(rows)[state.id := RowOf(state.Value())] && events == Store(old(events), state.id, Some(e))
    {
      Persist(state);
      PersistEvent(state, e);
    }

    method EmitTerminal(state: ManagedRun, status: Status)
      modifies state, this`rows, this`events
      ensures var o := Emit(old(state.Value()), Ended(status), cfg);
              state.Value() == o.run && events == Store(old(events), state.id, o.event)
              && rows == old(rows)[state.id := RowOf(o.run)]
    {
      var envelope := Event(state.nextNo, Ended(status));
      PersistTerminal(state, envelope);
      state.nextNo := state.nextNo + 1;
      state.ring := Append(state.ring, envelope, cfg.limit);
    }

    method MarkResult(state: ManagedRun, signal: Option<string>, reportId: Option<string>)
      modifies state
      ensures state.Value() == old(state.Value()).(progress := 1.0, signal := signal, reportId := reportId, retryable := false)
    {
      state.progress := 1.0;
      state.signal := signal;
      state.reportId := reportId;
      state.retryable := false;
    }

    method MarkStopped(state: ManagedRun, status: Status, reason: Reason, retryable: bool, now: Time)
      modifies state
      ensures state.Value() == old(state.Value()).(status := status, finishedAt := Some(now), expiresAt := Some(now + cfg.ttl),
                                                   reason := Some(reason), agent := None, lease := None, retryable := retryable)
    {
      state.status := status;
      state.finishedAt := Some(now);
      state.reason := Some(reason);
      state.agent := None;
      state.retryable := retryable;
      state.lease := None;
      state.expiresAt := Some(now + cfg.ttl);
    }

    /** The record part of a terminal transition. */
    method MarkEnded(state: ManagedRun, status: Status, reason: Reason, retryable: bool, completes: bool,
                     signal: Option<string>, reportId: Option<string>, now: Time)
      modifies state
      ensures state.Value() == EndedRun(old(state.Value()), status, reason, retryable, completes, signal, reportId, cfg, now)
    {
      MarkStopped(state, status, reason, retryable, now);
      if completes { MarkResult(state, signal, reportId); }
    }

    /** `_transition_terminal_locked`: the record, the active set, the two tables, then counter and ring. */
    method FinishLocked(state: ManagedRun, allowed: set<Status>, status: Status, reason: Reason, retryable: bool,
                        signal: Option<string>, reportId: Option<string>, now: Time) returns (ok: bool)
      modifies state, this`rows, this`events, this`active
      ensures var o := Finish(old(state.Value()), allowed, status, reason, retryable, signal, reportId, cfg, now);
              && state.Value() == o.run && ok == o.ok
              && events == Store(old(events), state.id, o.event)
              && rows == (if o.event.Some? then old(rows)[state.id := RowOf(o.run)] else old(rows))
              && active == if o.event.Some? then old(active) - {state.id} else old(active)
    {
      hide EndedRun, RowOf, Append, Insert;
      if state.status.Terminal() || state.status !in allowed { return false; }
      MarkEnded(state, status, reason, retryable || reason.Retryable(), Completes(status, reason), signal, reportId, now);
      active := active - {state.id};
      EmitTerminal(state, status);
      ok := true;
    }

    /** `_check_expired_locked`. */
    method CheckExpiredLocked(state: ManagedRun, now: Time) returns (ended: bool)
      modifies state, this`rows, this`events, this`active
      ensures var o := Checked(old(state.Value()), cfg, now);
              && state.Value() == o.run && ended == o.ok
              && events == Store(old(events), state.id, o.event)
              && rows == (if o.event.Some? then old(rows)[state.id := RowOf(o.run)] else old(rows))
              && active == if o.event.Some? then old(active) - {state.id} else old(active)
    {
      if !state.status.Waiting() { return false; }
      if state.timeoutAt.Some? && now >= state.timeoutAt.value {
        state.lease := None;
        ended := FinishLocked(state, {Queued, Running}, TimedOut, RunDeadlineExceeded, false, None, None, now);
        return;
      }
      if state.beatTimeout.Some? && state.beatAt.Some? && now - state.beatAt.value >= state.beatTimeout.value {
        state.lease := None;
        ended := FinishLocked(state, {Queued, Running}, Interrupted, WorkerLeaseExpired, false, None, None, now);
        return;
      }
      ended := false;
    }

    // ---- one call on one run ----

    /** What a call wrote beside the run itself: the row, the event row, and the active set. */
    ghost predicate Wrote(m: Manager, r: Run, o: Outcome)
      reads this
    {
      && (rows == m.rows[r.id := RowOf(o.run)] || (rows == m.rows && RowOf(o.run) == RowOf(r)))
      && events == Store(m.events, r.id, o.event)
      && active == (if !r.status.Terminal() && o.run.status.Terminal() then m.active - {r.id} else m.active)
      && setting == m.setting && life == m.life
    }

    ghost predicate StoreIs(m: Manager)
      reads this
    {
      rows == m.rows && events == m.events && active == m.active && setting == m.setting && life == m.life
    }

    /** Putting the pieces together: the other runs and their rows stay as they were. */
    lemma Stored(m: Manager, state: ManagedRun, o: Outcome)
      requires OwnObjects() && Mirror(m.rows, m.records) && state.id in records && records[state.id] == state
      requires m.records.Keys == records.Keys && m.records[state.id].id == state.id
      requires forall i :: i in records && i != state.id ==> records[i].Value() == m.records[i]
      requires state.Value() == o.run && Wrote(m, m.records[state.id], o)
      ensures Valid() && State() == Put(m, state.id, o)
    {
      hide RowOf, Store, ManagedRun.Value;
      assert Runs() == m.records[state.id := o.run];
      assert rows == m.rows[state.id := RowOf(o.run)];
    }

    method MarkRunning(state: ManagedRun, now: Time) returns (ok: bool)
      modifies state, this`rows, this`events
      ensures var o := Publish(old(state.Value()).(status := Running, startedAt := Some(now)), RunStarted, cfg);
              && state.Value() == o.run && ok == o.ok
              && events == Store(old(events), state.id, o.event) && rows == old(rows)[state.id := RowOf(o.run)]
    {
      hide RowOf, Insert, Append;
      ghost var before := rows;
      state.status := Running;
      state.startedAt := Some(now);
      Persist(state);
      ghost var row := RowOf(state.Value());
      ok := PublishLocked(state, RunStarted);
      assert before[state.id := row][state.id := RowOf(state.Value())] == before[state.id := RowOf(state.Value())];
    }

    method ClearLease(state: ManagedRun)
      modifies state
      ensures state.Value() == old(state.Value()).(lease := None)
    {
      state.lease := None;
    }

    method MarkCancelled(state: ManagedRun, phase: Option<string>)
      modifies state
      ensures var r := old(state.Value());
              state.Value() == r.(phase := if phase.Some? then phase else r.phase, cancelled := true)
    {
      state.phase := if phase.Some? then phase else state.phase;
      state.cancelled := true;
    }

    method MarkActive(state: ManagedRun, now: Time)
      modifies state
      ensures var r := old(state.Value());
              state.Value() == r.(activityAt := Some(now), beatAt := if r.beatAt.None? then Some(now) else r.beatAt)
    {
      state.activityAt := Some(now);
      state.beatAt := if state.beatAt.None? then Some(now) else state.beatAt;
    }

    method BeginLocked(state: ManagedRun, now: Time, ghost m: Manager) returns (ok: bool)
      requires StoreIs(m)
      modifies state, this`rows, this`events, this`active
      ensures var o := Step(old(state.Value()), Action.Begin, cfg, now);
              state.Value() == o.run && Wrote(m, old(state.Value()), o) && ok == o.ok
    {
      hide Finish, Publish, RowOf, Insert;
      ghost var r := state.Value();
      CheckedFacts(r, cfg, now);
      ok := CheckExpiredLocked(state, now);
      if state.status.Queued? {
        PublishFacts(r.(status := Running, startedAt := Some(now)), RunStarted, cfg);
        ok := MarkRunning(state, now);
      }
    }

    method BeginRun(id: RunId, now: Time) returns (known: bool, ok: bool)
      requires Valid()
      modifies this`rows, this`events, this`active, records.Values
      ensures Valid() && known == (id in records) && (known ==> ok == Step(old(State()).records[id], Action.Begin, cfg, now).ok)
      ensures State() == Act(old(State()), id, Action.Begin, cfg, now)
    {
      hide Step, RowOf, Insert;
      if id !in records { return false, false; }
      ghost var m := State();
      known := true;
      ok := BeginLocked(records[id], now, m);
      Stored(m, records[id], Step(m.records[id], Action.Begin, cfg, now));
    }

    method BeginPublishingLocked(state: ManagedRun, now: Time, ghost m: Manager) returns (ok: bool)
      requires StoreIs(m)
      modifies state, this`rows, this`events, this`active
      ensures var o := Step(old(state.Value()), Action.BeginPublishing, cfg, now);
              state.Value() == o.run && Wrote(m, old(state.Value()), o) && ok == o.ok
    {
      hide Finish, Publish, RowOf, Insert;
      ghost var r := state.Value();
      CheckedFacts(r, cfg, now);
      var ended := CheckExpiredLocked(state, now);
      if state.status.Publishing? { return true; }
      if !state.status.Running? { return false; }
      state.status := Publishing;
      Persist(state);
      ok := true;
    }

    method BeginPublishing(id: RunId, now: Time) returns (known: bool, ok: bool)
      requires Valid()
      modifies this`rows, this`events, this`active, records.Values
      ensures Valid() && known == (id in records) && (known ==> ok == Step(old(State()).records[id], Action.BeginPublishing, cfg, now).ok)
      ensures State() == Act(old(State()), id, Action.BeginPublishing, cfg, now)
    {
      hide Step, RowOf, Insert;
      if id !in records { return false, false; }
      ghost var m := State();
      known := true;
      ok := BeginPublishingLocked(records[id], now, m);
      Stored(m, records[id], Step(m.records[id], Action.BeginPublishing, cfg, now));
    }

    method CompletePublishingLocked(state: ManagedRun, gateReady: bool, signal: Option<string>, reportId: string, now: Time, ghost m: Manager) returns (ok: bool)
      requires StoreIs(m)
      modifies state, this`rows, this`events, this`active
      ensures var o := Step(old(state.Value()), Action.CompletePublishing(gateReady, signal, reportId), cfg, now);
              state.Value() == o.run && Wrote(m, old(state.Value()), o) && ok == o.ok
    {
      hide Finish, Publish, RowOf, Insert;
      ghost var r := state.Value();
      if state.status.Terminal() { return true; }
      if !state.status.Publishing? { return false; }
      if !gateReady {
        FinishFacts(r, {Publishing}, Failed, PublishIncomplete, false, None, None, cfg, now);
        ok := FinishLocked(state, {Publishing}, Failed, PublishIncomplete, false, None, None, now);
        return;
      }
      FinishFacts(r, {Publishing}, Completed, CompletedReason, false, signal, Some(reportId), cfg, now);
      ok := FinishLocked(state, {Publishing}, Completed, CompletedReason, false, signal, Some(reportId), now);
    }

    method CompletePublishing(id: RunId, gateReady: bool, signal: Option<string>, reportId: string, now: Time) returns (known: bool, ok: bool)
      requires Valid()
      modifies this`rows, this`events, this`active, records.Values
      ensures Valid() && known == (id in records) && (known ==> ok == Step(old(State()).records[id], Action.CompletePublishing(gateReady, signal, reportId), cfg, now).ok)
      ensures State() == Act(old(State()), id, Action.CompletePublishing(gateReady, signal, reportId), cfg, now)
    {
      hide Step, RowOf, Insert;
      if id !in records { return false, false; }
      ghost var m := State();
      known := true;
      ok := CompletePublishingLocked(records[id], gateReady, signal, reportId, now, m);
      Stored(m, records[id], Step(m.records[id], Action.CompletePublishing(gateReady, signal, reportId), cfg, now));
    }

    method CompleteRunLocked(state: ManagedRun, signal: Option<string>, reportId: string, now: Time, ghost m: Manager) returns (ok: bool)
      requires StoreIs(m)
      modifies state, this`rows, this`events, this`active
      ensures var o := Step(old(state.Value()), Action.CompleteRun(signal, reportId), cfg, now);
              state.Value() == o.run && Wrote(m, old(state.Value()), o) && ok == o.ok
    {
      hide Finish, Publish, RowOf, Insert;
      ghost var r := state.Value();
      CheckedFacts(r, cfg, now);
      ok := CheckExpiredLocked(state, now);
      if state.status.Terminal() { return; }
      FinishFacts(r, {Queued, Running, Publishing}, Completed, CompletedReason, false, signal, Some(reportId), cfg, now);
      ok := FinishLocked(state, {Queued, Running, Publishing}, Completed, CompletedReason, false, signal, Some(reportId), now);
    }

    method CompleteRun(id: RunId, signal: Option<string>, reportId: string, now: Time) returns (known: bool, ok: bool)
      requires Valid()
      modifies this`rows, this`events, this`active, records.Values
      ensures Valid() && known == (id in records) && (known ==> ok == Step(old(State()).records[id], Action.CompleteRun(signal, reportId), cfg, now).ok)
      ensures State() == Act(old(State()), id, Action.CompleteRun(signal, reportId), cfg, now)
    {
      hide Step, RowOf, Insert;
      if id !in records { return false, false; }
      ghost var m := State();
      known := true;
      ok := CompleteRunLocked(records[id], signal, reportId, now, m);
      Stored(m, records[id], Step(m.records[id], Action.CompleteRun(signal, reportId), cfg, now));
    }

    method FailRunLocked(state: ManagedRun, reason: Reason, retryable: bool, now: Time, ghost m: Manager) returns (ok: bool)
      requires StoreIs(m)
      modifies state, this`rows, this`events, this`active
      ensures var o := Step(old(state.Value()), Action.FailRun(reason, retryable), cfg, now);
              state.Value() == o.run && Wrote(m, old(state.Value()), o) && ok == o.ok
    {
      hide Finish, Publish, RowOf, Insert;
      ghost var r := state.Value();
      CheckedFacts(r, cfg, now);
      ok := CheckExpiredLocked(state, now);
      if state.status.Terminal() { return; }
      ClearLease(state);
      FinishFacts(r.(lease := None), {Queued, Running, Publishing}, Failed, reason, retryable, None, None, cfg, now);
      ok := FinishLocked(state, {Queued, Running, Publishing}, Failed, reason, retryable, None, None, now);
    }

    method FailRun(id: RunId, reason: Reason, retryable: bool, now: Time) returns (known: bool, ok: bool)
      requires Valid()
      modifies this`rows, this`events, this`active, records.Values
      ensures Valid() && known == (id in records) && (known ==> ok == Step(old(State()).records[id], Action.FailRun(reason, retryable), cfg, now).ok)
      ensures State() == Act(old(State()), id, Action.FailRun(reason, retryable), cfg, now)
    {
      hide Step, RowOf, Insert;
      if id !in records { return false, false; }
      ghost var m := State();
      known := true;
      ok := FailRunLocked(records[id], reason, retryable, now, m);
      Stored(m, records[id], Step(m.records[id], Action.FailRun(reason, retryable), cfg, now));
    }

    method CancelRunLocked(state: ManagedRun, phase: Option<string>, now: Time, ghost m: Manager) returns (ok: bool)
      requires StoreIs(m)
      modifies state, this`rows, this`events, this`active
      ensures var o := Step(old(state.Value()), Action.CancelRun(phase), cfg, now);
              state.Value() == o.run && Wrote(m, old(state.Value()), o) && ok == o.ok
    {
      hide Finish, Publish, RowOf, Insert;
      ghost var r := state.Value();
      CheckedFacts(r, cfg, now);
      ok := CheckExpiredLocked(state, now);
      if state.status.Terminal() || state.status.Publishing? { return; }
      MarkCancelled(state, phase);
      FinishFacts(state.Value(), {Queued, Running}, Cancelled, CancelledReason, false, None, None, cfg, now);
      ok := FinishLocked(state, {Queued, Running}, Cancelled, CancelledReason, false, None, None, now);
    }

    method CancelRun(id: RunId, phase: Option<string>, now: Time) returns (known: bool, ok: bool)
      requires Valid()
      modifies this`rows, this`events, this`active, records.Values
      ensures Valid() && known == (id in records) && (known ==> ok == Step(old(State()).records[id], Action.CancelRun(phase), cfg, now).ok)
      ensures State() == Act(old(State()), id, Action.CancelRun(phase), cfg, now)
    {
      hide Step, RowOf, Insert;
      if id !in records { return false, false; }
      ghost var m := State();
      known := true;
      ok := CancelRunLocked(records[id], phase, now, m);
      Stored(m, records[id], Step(m.records[id], Action.CancelRun(phase), cfg, now));
    }

    method RequestCancelLocked(state: ManagedRun, now: Time, ghost m: Manager) returns (ok: bool)
      requires StoreIs(m)
      modifies state, this`rows, this`events, this`active
      ensures var o := Step(old(state.Value()), Action.RequestCancel, cfg, now);
              state.Value() == o.run && Wrote(m, old(state.Value()), o) && ok == o.ok
    {
      hide Finish, Publish, Insert;
      ghost var r := state.Value();
      CheckedFacts(r, cfg, now);
      ok := CheckExpiredLocked(state, now);
      if state.status.Terminal() || state.status.Publishing? { return; }
      state.cancelled := true;
      Persist(state);
    }

    method RequestCancel(id: RunId, now: Time) returns (known: bool, ok: bool)
      requires Valid()
      modifies this`rows, this`events, this`active, records.Values
      ensures Valid() && known == (id in records) && (known ==> ok == Step(old(State()).records[id], Action.RequestCancel, cfg, now).ok)
      ensures State() == Act(old(State()), id, Action.RequestCancel, cfg, now)
    {
      hide Step, RowOf, Insert;
      if id !in records { return false, false; }
      ghost var m := State();
      known := true;
      ok := RequestCancelLocked(records[id], now, m);
      Stored(m, records[id], Step(m.records[id], Action.RequestCancel, cfg, now));
    }

    method PublishChecked(state: ManagedRun, body: Body, now: Time, ghost m: Manager) returns (ok: bool)
      requires StoreIs(m)
      modifies state, this`rows, this`events, this`active
      ensures var o := Step(old(state.Value()), Action.PublishEvent(body), cfg, now);
              state.Value() == o.run && Wrote(m, old(state.Value()), o) && ok == o.ok
    {
      hide Finish, Publish, RowOf, Insert;
      ghost var r := state.Value();
      CheckedFacts(r, cfg, now);
      var ended := CheckExpiredLocked(state, now);
      if state.status.Terminal() { return false; }
      PublishFacts(r, body, cfg);
      ok := PublishLocked(state, body);
    }

    method PublishEvent(id: RunId, body: Body, now: Time) returns (known: bool, ok: bool)
      requires Valid()
      modifies this`rows, this`events, this`active, records.Values
      ensures Valid() && known == (id in records) && (known ==> ok == Step(old(State()).records[id], Action.PublishEvent(body), cfg, now).ok)
      ensures State() == Act(old(State()), id, Action.PublishEvent(body), cfg, now)
    {
      hide Step, RowOf, Insert;
      if id !in records { return false, false; }
      ghost var m := State();
      known := true;
      ok := PublishChecked(records[id], body, now, m);
      Stored(m, records[id], Step(m.records[id], Action.PublishEvent(body), cfg, now));
    }

    method HeartbeatLocked(state: ManagedRun, now: Time, ghost m: Manager) returns (ok: bool)
      requires StoreIs(m)
      modifies state, this`rows, this`events, this`active
      ensures var o := Step(old(state.Value()), Action.Touch, cfg, now);
              state.Value() == o.run && Wrote(m, old(state.Value()), o) && ok == o.ok
    {
      hide Finish, Publish, RowOf, Insert;
      ghost var r := state.Value();
      CheckedFacts(r, cfg, now);
      ok := CheckExpiredLocked(state, now);
      if !state.status.Waiting() { return; }
      if state.activityAt.None? || now - state.activityAt.value >= state.beatInterval {
        MarkActive(state, now);
        Persist(state);
      }
    }

    method Heartbeat(id: RunId, now: Time) returns (known: bool, ok: bool)
      requires Valid()
      modifies this`rows, this`events, this`active, records.Values
      ensures Valid() && known == (id in records) && (known ==> ok == Step(old(State()).records[id], Action.Touch, cfg, now).ok)
      ensures State() == Act(old(State()), id, Action.Touch, cfg, now)
    {
      hide Step, RowOf, Insert;
      if id !in records { return false, false; }
      ghost var m := State();
      known := true;
      ok := HeartbeatLocked(records[id], now, m);
      Stored(m, records[id], Step(m.records[id], Action.Touch, cfg, now));
    }

    method RenewLocked(state: ManagedRun, token: Token, now: Time, ghost m: Manager) returns (ok: bool)
      requires StoreIs(m)
      modifies state, this`rows, this`events, this`active
      ensures var o := Step(old(state.Value()), Action.Renew(token), cfg, now);
              state.Value() == o.run && Wrote(m, old(state.Value()), o) && ok == o.ok
    {
      hide Finish, Publish, Insert;
      ghost var r := state.Value();
      if !state.status.Waiting() { return false; }
      if state.lease != Some(token) { return false; }
      state.beatAt := Some(now);
      Persist(state);
      ok := true;
    }

    method RenewWorkerLease(id: RunId, token: Token, now: Time) returns (known: bool, ok: bool)
      requires Valid()
      modifies this`rows, this`events, this`active, records.Values
      ensures Valid() && known == (id in records) && (known ==> ok == Step(old(State()).records[id], Action.Renew(token), cfg, now).ok)
      ensures State() == Act(old(State()), id, Action.Renew(token), cfg, now)
    {
      hide Step, RowOf, Insert;
      if id !in records { return false, false; }
      ghost var m := State();
      known := true;
      ok := RenewLocked(records[id], token, now, m);
      Stored(m, records[id], Step(m.records[id], Action.Renew(token), cfg, now));
    }

    method StartLeaseLocked(state: ManagedRun, token: Token, now: Time, ghost m: Manager) returns (ok: bool)
      requires StoreIs(m)
      modifies state, this`rows, this`events, this`active
      ensures var o := Step(old(state.Value()), Action.StartLease(token), cfg, now);
              state.Value() == o.run && Wrote(m, old(state.Value()), o) && ok == o.ok
    {
      hide Finish, Publish, Insert;
      ghost var r := state.Value();
      state.lease := Some(token);
      if !state.status.Waiting() { return false; }
      state.beatAt := Some(now);
      Persist(state);
      ok := true;
    }

    method StartLease(id: RunId, token: Token, now: Time) returns (known: bool, ok: bool)
      requires Valid()
      modifies this`rows, this`events, this`active, records.Values
      ensures Valid() && known == (id in records) && (known ==> ok == Step(old(State()).records[id], Action.StartLease(token), cfg, now).ok)
      ensures State() == Act(old(State()), id, Action.StartLease(token), cfg, now)
    {
      hide Step, RowOf, Insert;
      if id !in records { return false, false; }
      ghost var m := State();
      known := true;
      ok := StartLeaseLocked(records[id], token, now, m);
      Stored(m, records[id], Step(m.records[id], Action.StartLease(token), cfg, now));
    }

    method CheckLocked(state: ManagedRun, now: Time, ghost m: Manager) returns (ok: bool)
      requires StoreIs(m)
      modifies state, this`rows, this`events, this`active
      ensures var o := Step(old(state.Value()), Action.Check, cfg, now);
              state.Value() == o.run && Wrote(m, old(state.Value()), o) && ok == o.ok
    {
      hide Finish, Publish, RowOf, Insert;
      ghost var r := state.Value();
      CheckedFacts(r, cfg, now);
      ok := CheckExpiredLocked(state, now);
    }

    method CheckExpired(id: RunId, now: Time) returns (known: bool, ok: bool)
      requires Valid()
      modifies this`rows, this`events, this`active, records.Values
      ensures Valid() && known == (id in records) && (known ==> ok == Step(old(State()).records[id], Action.Check, cfg, now).ok)
      ensures State() == Act(old(State()), id, Action.Check, cfg, now)
    {
      hide Step, RowOf, Insert;
      if id !in records { return false, false; }
      ghost var m := State();
      known := true;
      ok := CheckLocked(records[id], now, m);
      Stored(m, records[id], Step(m.records[id], Action.Check, cfg, now));
    }

    method SetCheckpointLocked(state: ManagedRun, signature: Option<string>, now: Time, ghost m: Manager) returns (ok: bool)
      requires StoreIs(m)
      modifies state, this`rows, this`events, this`active
      ensures var o := Step(old(state.Value()), Action.SetCheckpoint(signature), cfg, now);
              state.Value() == o.run && Wrote(m, old(state.Value()), o) && ok == o.ok
    {
      hide Finish, Publish, Insert;
      ghost var r := state.Value();
      if signature.Some? { state.checkpoint := signature; }
      Persist(state);
      ok := true;
    }

    method SetCheckpoint(id: RunId, signature: Option<string>, now: Time) returns (known: bool, ok: bool)
      requires Valid()
      modifies this`rows, this`events, this`active, records.Values
      ensures Valid() && known == (id in records) && (known ==> ok == Step(old(State()).records[id], Action.SetCheckpoint(signature), cfg, now).ok)
      ensures State() == Act(old(State()), id, Action.SetCheckpoint(signature), cfg, now)
    {
      hide Step, RowOf, Insert;
      if id !in records { return false, false; }
      ghost var m := State();
      known := true;
      ok := SetCheckpointLocked(records[id], signature, now, m);
      Stored(m, records[id], Step(m.records[id], Action.SetCheckpoint(signature), cfg, now));
    }

    /** `read_events`: the deadline first, then the retained events past the cursor. */
    method ReadEvents(id: RunId, cursor: int, now: Time) returns (known: bool, batch: Streaming.Batch)
      requires Valid()
      modifies this`rows, this`events, this`active, records.Values
      ensures Valid() && State() == Act(old(State()), id, Action.Check, cfg, now) && known == (id in records)
      ensures known ==> batch == Streaming.Read(State().records[id], if cursor > 0 then cursor else 0)
    {
      hide Valid, Act, Streaming.Read;
      batch := Streaming.Batch([], false, false);
      known := id in records;
      if known {
        var _, _ := CheckExpired(id, now);
        batch := Streaming.ReadLocked(records[id].Value(), if cursor > 0 then cursor else 0);
      } else {
        assert State() == Act(State(), id, Action.Check, cfg, now) by { ActUnknown(id, now); }
      }
    }

    lemma ActUnknown(id: RunId, now: Time)
      requires id !in records
      ensures State() == Act(State(), id, Action.Check, cfg, now)
    {}

    // ---- calls over the whole table ----

    lemma GoneIs(m: Manager, gone: set<RunId>, now: Time)
      requires Mirror(m.rows, m.records) && gone <= m.records.Keys
      requires forall i :: i in m.records ==> (i in gone <==> Expired(m.records[i], now))
      requires OwnObjects() && records.Keys == m.records.Keys - gone && rows == m.rows - gone
      requires forall i :: i in records ==> records[i].Value() == m.records[i]
      requires events == m.events && active == m.active && setting == m.setting && life == m.life
      ensures Valid() && State() == ManagerModel.Cleanup(m, now)
    {
      hide RowOf, ManagedRun.Value;
      assert (set i | i in m.records && Expired(m.records[i], now)) == gone;
      assert Runs() == m.records - gone;
    }

    method Drop(gone: set<RunId>)
      modifies this`records, this`rows
      ensures records == old(records) - gone && rows == old(rows) - gone
    {
      var expired := gone;
      while expired != {}
        invariant expired <= gone
        invariant records == old(records) - (gone - expired) && rows == old(rows) - (gone - expired)
      {
        var id :| id in expired;
        records := records - {id};
        rows := rows - {id};
        expired := expired - {id};
      }
      assert gone - expired == gone;
    }

    method ExpiredIds(now: Time) returns (expired: set<RunId>)
      ensures expired <= records.Keys && forall i :: i in records ==> (i in expired <==> Expired(records[i].Value(), now))
    {
      expired := set id | id in records && records[id].expiresAt.Some? && records[id].expiresAt.value <= now;
    }

    /** `cleanup`: ended runs past their expiry go, with their rows. */
    method Cleanup(now: Time)
      requires Valid()
      modifies this`records, this`rows
      ensures Valid() && State() == ManagerModel.Cleanup(old(State()), now) && records.Values <= old(records.Values)
    {
      hide RowOf, ManagerModel.Cleanup, ManagedRun.Value, Expired;
      ghost var m := State();
      var expired := ExpiredIds(now);
      Drop(expired);
      GoneIs(m, expired, now);
    }

    lemma SweepStarts()
      requires Valid()
      ensures State().records.Keys == records.Keys && Over(Untouched(State()), State()) == State()
    {
      hide RowOf, ManagedRun.Value, OwnObjects, Over;
      OverUntouched(State());
    }

    method CheckTurn(id: RunId, now: Time, ghost m: Manager, ghost outs: Outcomes)
      requires Valid() && State() == Over(outs, m)
      requires id in records && id in m.records && id in outs && outs[id] == Outcome(m.records[id], None, false)
      modifies this`rows, this`events, this`active, records.Values
      ensures Valid() && State() == Over(outs[id := Checked(m.records[id], cfg, now)], m)
    {
      hide RowOf, Insert, Checked, ManagedRun.Value, Put, Valid, ActiveOver, RowsOver, EventsOver;
      ghost var c := Checked(m.records[id], cfg, now);
      OverMoves(outs, m, id, c, c);
      var _, _ := CheckExpired(id, now);
    }

    /** `_check_all_expired_locked`. */
    method CheckAllExpired(now: Time)
      requires Valid()
      modifies this`rows, this`events, this`active, records.Values
      ensures Valid() && State() == CheckAll(old(State()), cfg, now)
    {
      hide RowOf, Insert, Checked, ManagedRun.Value, Put, Over, CheckAll, Runs, OwnObjects, Valid, Mirror;
      ghost var m := State();
      SweepStarts();
      ghost var outs := Untouched(m);
      var todo := records.Keys;
      while todo != {}
        invariant Valid() && todo <= records.Keys && outs.Keys == records.Keys && State() == Over(outs, m)
        invariant forall i :: i in todo ==> outs[i] == Outcome(m.records[i], None, false)
        invariant forall i :: i in records && i !in todo ==> outs[i] == Checked(m.records[i], cfg, now)
      {
        var id :| id in todo;
        CheckTurn(id, now, m, outs);
        outs := outs[id := Checked(m.records[id], cfg, now)];
        todo := todo - {id};
      }
      OverChecked(outs, m, cfg, now);
    }

    // ---- new runs ----

    method ConcurrentRunsCap() returns (cap: nat)
      ensures cap == Cap(setting)
    {
      if setting.None? { return DEFAULT_CAP; }
      if setting.value.Unparsable? { return DEFAULT_CAP; }
      var v := setting.value.value;
      if v < MIN_CAP { return MIN_CAP; }
      cap := if v > MAX_CAP then MAX_CAP else v;
    }

    /** `_check_admission_locked`: the capacity first, then every active run's asset. */
    method CheckAdmission(q: Request) returns (refused: Option<Refusal>)
      ensures refused == Admission(State(), q)
    {
      hide AssetKey;
      var cap := ConcurrentRunsCap();
      if |active| >= cap { return Some(Capacity); }
      var todo := active;
      while todo != {}
        invariant todo <= active
        invariant forall i :: i in active && i !in todo && i in records ==> AssetKey(records[i].request) != AssetKey(q)
      {
        var id :| id in todo;
        if id in records && AssetKey(records[id].request) == AssetKey(q) {
          assert id in State().active && id in State().records && AssetKey(State().records[id].request) == AssetKey(q);
          return Some(AssetBusy);
        }
        todo := todo - {id};
      }
      assert !Busy(State(), q);
      refused := None;
    }

    lemma Admitted(m: Manager, state: ManagedRun, r: Run)
      requires OwnObjects() && Mirror(m.rows, m.records) && state.id in records && records[state.id] == state
      requires records.Keys == m.records.Keys + {state.id}
      requires forall i :: i in records && i != state.id ==> records[i].Value() == m.records[i]
      requires state.Value() == r && rows == m.rows[r.id := RowOf(r)]
      requires active == m.active + {r.id} && events == m.events && setting == m.setting && life == m.life
      ensures Valid() && State() == ManagerModel.Admit(m, r)
    {
      hide RowOf;
      assert r.id == state.id;
      assert Runs() == m.records[state.id := r];
    }

    method AdmitLocked(state: ManagedRun)
      requires Valid() && state !in records.Values
      modifies this`records, this`active, this`rows
      ensures Valid() && State() == ManagerModel.Admit(old(State()), state.Value())
      ensures records == old(records)[state.id := state]
    {
      hide RowOf, ManagedRun.Value, ManagerModel.Admit;
      ghost var m := State();
      records := records[state.id := state];
      active := active + {state.id};
      Persist(state);
      Admitted(m, state, state.Value());
    }

    method StartRun(id: RunId, q: Request, now: Time) returns (refused: Option<Refusal>)
      requires Valid()
      modifies this`records, this`active, this`rows
      ensures Valid() && State() == ManagerModel.StartRun(old(State()), id, q, now)
      ensures refused == StartRefusal(ManagerModel.Cleanup(old(State()), now), id, q)
    {
      hide ManagedRun.Value, ManagerModel.Cleanup, ManagerModel.Admit, Admission, OwnObjects, Mirror, RowOf, NewRun;
      Cleanup(now);
      refused := CheckAdmission(q);
      if refused.Some? { return; }
      if id in records { return Some(IdExists); }
      var state := new ManagedRun(NewRun(id, q, life, now));
      AdmitLocked(state);
    }

    method CheckRetry(parent: RunId, q: Request) returns (refused: Option<Refusal>)
      ensures refused == RetryRefusal(State(), parent, q)
    {
      hide Admission;
      refused := CheckAdmission(q);
      if refused.Some? { return; }
      if parent !in records { return Some(RunNotFound); }
      var was := records[parent];
      if !RetryableStatus(was.status) { return Some(NotRetryable); }
      if !was.retryable { return Some(ReasonNotRetryable); }
      if was.checkpoint.None? { return Some(NoCheckpoint); }
    }

    method NewChild(was: ManagedRun, id: RunId, q: Request, now: Time) returns (state: ManagedRun)
      ensures fresh(state) && state.Value() == Child(was.Value(), id, q, life, now)
    {
      var attempt := (if was.attempt == 0 then 1 else was.attempt) + 1;
      state := new ManagedRun(NewRun(id, q, life, now).(parent := Some(was.id), checkpoint := was.checkpoint, attempt := attempt));
    }

    method RetryRun(parent: RunId, id: RunId, q: Request, now: Time) returns (refused: Option<Refusal>)
      requires Valid()
      modifies this`records, this`active, this`rows
      ensures Valid() && State() == ManagerModel.RetryRun(old(State()), parent, id, q, now)
      ensures refused == RetryRefusal(ManagerModel.Cleanup(old(State()), now), parent, q)
    {
      hide ManagedRun.Value, ManagerModel.Cleanup, ManagerModel.Admit, Admission, OwnObjects, Mirror, RowOf, Child;
      Cleanup(now);
      refused := CheckRetry(parent, q);
      if refused.Some? { return; }
      var state := NewChild(records[parent], id, q, now);
      AdmitLocked(state);
    }

    method CanRetry(id: RunId) returns (verdict: Option<Refusal>)
      ensures verdict == RetryVerdict(State(), id)
    {
      hide Admission;
      if id !in records { return Some(RunNotFound); }
      var state := records[id];
      if !RetryableStatus(state.status) { return Some(NotRetryable); }
      if !state.retryable { return Some(ReasonNotRetryable); }
      if state.checkpoint.None? { return Some(NoCheckpoint); }
      verdict := CheckAdmission(state.request);
    }

    method ConfigureConcurrency(setting: Option<Setting>)
      requires Valid()
      modifies this`setting
      ensures Valid() && State() == old(State()).(setting := setting)
    {
      hide ManagedRun.Value, RowOf;
      this.setting := setting;
    }

    /** A value out of its range refuses the whole configuration. */
    method ConfigureLifecycle(life: Lifecycle) returns (accepted: bool)
      requires Valid()
      modifies this`life
      ensures Valid() && accepted == life.InRange()
      ensures accepted <==> !(life.timeout < 300 || life.timeout > 86400 || life.beatInterval < 5 || life.beatInterval > 60
                              || life.beatTimeout < 30 || life.beatTimeout > 600)
      ensures State() == if accepted then old(State()).(life := life) else old(State())
    {
      hide ManagedRun.Value, RowOf;
      if !life.InRange() { return false; }
      this.life := life;
      accepted := true;
    }

    // ---- restart ----

    /** The event rows of one run, read back in order. */
    method ReplayEvents(log: seq<Event>) returns (ring: seq<Event>, next: nat)
      ensures ring == Replayed(log, cfg.limit) && next == MaxNext(log)
    {
      ring, next := [], 1;
      for i := 0 to |log|
        invariant ring == Replayed(log[..i], cfg.limit) && next == MaxNext(log[..i])
      {
        assert log[..i + 1][..i] == log[..i];
        ring := Append(ring, log[i], cfg.limit);
        if log[i].no + 1 > next { next := log[i].no + 1; }
      }
      assert log[..|log|] == log;
    }

    method RecoverLocked(state: ManagedRun, found: Option<Published>, now: Time, ghost m: Manager)
      requires StoreIs(m) && !state.status.Terminal()
      modifies state, this`rows, this`events, this`active
      ensures var o := Recovered(old(state.Value()), found, cfg, now);
              state.Value() == o.run && Wrote(m, old(state.Value()), o)
    {
      hide Finish, RowOf, Insert;
      ghost var r := state.Value();
      if state.status.Publishing? {
        if found.Some? {
          FinishFacts(r, {Publishing}, Completed, CompletedReason, false, found.value.signal, Some(found.value.reportId), cfg, now);
          var _ := FinishLocked(state, {Publishing}, Completed, CompletedReason, false, found.value.signal,
                                Some(found.value.reportId), now);
        } else {
          FinishFacts(r, {Publishing}, Failed, PublishIncomplete, false, None, None, cfg, now);
          var _ := FinishLocked(state, {Publishing}, Failed, PublishIncomplete, false, None, None, now);
        }
      } else {
        FinishFacts(r, {Queued, Running}, Interrupted, ServiceRestarted, true, None, None, cfg, now);
        var _ := FinishLocked(state, {Queued, Running}, Interrupted, ServiceRestarted, true, None, None, now);
      }
    }

    method FillTimes(state: ManagedRun, now: Time)
      modifies state
      ensures var r := old(state.Value());
              state.Value() == r.(finishedAt := if r.finishedAt.None? then Some(now) else r.finishedAt,
                                  expiresAt := if r.expiresAt.None? then Some(now + cfg.ttl) else r.expiresAt)
    {
      state.finishedAt := if state.finishedAt.None? then Some(now) else state.finishedAt;
      state.expiresAt := if state.expiresAt.None? then Some(now + cfg.ttl) else state.expiresAt;
    }

    method FillResult(state: ManagedRun)
      modifies state
      ensures var r := old(state.Value());
              state.Value() == r.(progress := 1.0, reportId := if r.reportId.None? then Some(r.id.text) else r.reportId)
    {
      state.progress := 1.0;
      state.reportId := if state.reportId.None? then Some(state.id.text) else state.reportId;
    }

    method ResetReason(state: ManagedRun, reason: Reason)
      modifies state
      ensures state.Value() == old(state.Value()).(reason := Some(reason), agent := None)
    {
      state.reason := Some(reason);
      state.agent := None;
    }

    method NormalizeRecord(state: ManagedRun, now: Time)
      requires state.status.Terminal()
      modifies state
      ensures state.Value() == Normalized(old(state.Value()), cfg, now)
    {
      var reason := match state.status
        case Failed => if state.reason.Some? then state.reason.value else OtherReason("failed")
        case Cancelled => CancelledReason
        case Interrupted => ServiceRestarted
        case TimedOut => RunDeadlineExceeded
        case _ => CompletedReason;
      ResetReason(state, reason);
      if state.status.Completed? { FillResult(state); }
      FillTimes(state, now);
    }

    method RepairLocked(state: ManagedRun, now: Time, ghost m: Manager)
      requires StoreIs(m) && state.status.Terminal()
      modifies state, this`rows, this`events
      ensures var o := Repair(old(state.Value()), cfg, now);
              state.Value() == o.run && Wrote(m, old(state.Value()), o)
    {
      hide Insert, Append;
      NormalizeRecord(state, now);
      Persist(state);
      if exists e :: e in state.ring && e.body == Ended(state.status) { return; }
      EmitTerminal(state, state.status);
    }

    lemma ReadIn(base: Manager, outs: Outcomes, id: RunId, b: Outcome)
      requires OwnObjects() && id in records && records.Keys == outs.Keys + {id} && id !in outs
      requires id in base.rows && base.active == {} && b.event.None? && base.rows[id] == RowOf(b.run)
      requires records[id].Value() == b.run && forall i :: i in outs ==> records[i].Value() == outs[i].run
      requires rows == RowsOver(outs, base.rows) && events == EventsOver(outs, base.events) && active == {}
      requires setting == base.setting && life == base.life
      ensures State() == Over(outs[id := b], base)
    {
      hide RowOf, ManagedRun.Value, RowsOver, EventsOver, OwnObjects;
      OverReadBack(outs, base, id, b);
      assert Runs() == RecordsOf(outs[id := b]);
      assert ActiveOver(outs, base) == {};
    }

    lemma RunsAre(outs: Outcomes)
      requires Runs() == RecordsOf(outs)
      ensures records.Keys == outs.Keys && forall i :: i in outs ==> records[i].Value() == outs[i].run
    {
      hide ManagedRun.Value;
      assert forall i :: i in records <==> i in Runs();
      assert forall i :: i in outs <==> i in RecordsOf(outs);
    }

    method ReadRecord(id: RunId, ghost b: Outcome) returns (state: ManagedRun)
      requires id in rows && b == ReadBack(rows[id], Log(events, id), cfg)
      ensures fresh(state) && state.id == rows[id].id
      ensures state.Value() == b.run && b.event.None? && RowOf(b.run) == RowOf(rows[id])
    {
      var log := if id in events then events[id] else [];
      var ring, next := ReplayEvents(log);
      state := new ManagedRun(rows[id].(ring := ring, nextNo := next));
    }

    /** One row and its event rows become a record with its ring and counter. */
    method ReadTurn(id: RunId, ghost base: Manager, ghost outs: Outcomes)
      requires OwnObjects() && State() == Over(outs, base) && rows == base.rows && events == base.events
      requires id in base.rows && id !in records && base.active == {}
      requires base.rows[id].id == id && RowOf(base.rows[id]) == base.rows[id]
      modifies this`records
      ensures OwnObjects() && records.Keys == old(records.Keys) + {id}
      ensures id in records && fresh(records[id]) && forall i :: i in old(records) ==> records[i] == old(records[i])
      ensures State() == Over(outs[id := ReadBack(base.rows[id], Log(base.events, id), cfg)], base)
    {
      hide ManagedRun.Value, RowsOver, EventsOver, RowOf, ReadBack, RecordsOf;
      ghost var b := ReadBack(base.rows[id], Log(base.events, id), cfg);
      RunsAre(outs);
      var state := ReadRecord(id, b);
      records := records[id := state];
      ReadIn(base, outs, id, b);
    }

    /** Before a load: nothing in memory, and tables that hold columns only. */
    ghost predicate Blank(base: Manager)
      reads this, records.Values
    {
      && State() == base && records == map[] && base.active == {}
      && forall id :: id in base.rows ==> base.rows[id].id == id && RowOf(base.rows[id]) == base.rows[id]
    }

    lemma ReadStarts(base: Manager)
      requires Blank(base)
      ensures State() == Over(map[], base) && rows == base.rows && events == base.events && records.Keys == {}
    {
      hide ManagedRun.Value, RowOf;
      assert Runs() == map[];
      OverNothing(base);
    }

    method ReadAll(ghost base: Manager) returns (ghost outs: Outcomes)
      requires Blank(base)
      modifies this`records
      ensures OwnObjects() && State() == Over(outs, base) && outs.Keys == base.rows.Keys
      ensures forall i :: i in records ==> fresh(records[i])
      ensures forall id :: id in outs ==> outs[id] == ReadBack(base.rows[id], Log(base.events, id), cfg)
    {
      hide ManagedRun.Value, Over, RowOf, ReadBack, Log, Runs, RecordsOf;
      outs := map[];
      ReadStarts(base);
      var todo := rows.Keys;
      while todo != {}
        invariant OwnObjects() && State() == Over(outs, base) && rows == base.rows && events == base.events
        invariant forall i :: i in records ==> fresh(records[i])
        invariant todo <= rows.Keys && records.Keys == rows.Keys - todo && outs.Keys == records.Keys
        invariant forall id :: id in outs ==> outs[id] == ReadBack(base.rows[id], Log(base.events, id), cfg)
      {
        var id :| id in todo;
        ReadTurn(id, base, outs);
        outs := outs[id := ReadBack(base.rows[id], Log(base.events, id), cfg)];
        todo := todo - {id};
      }
    }

    method RecoverTurn(id: RunId, found: Option<Published>, now: Time, ghost base: Manager, ghost outs: Outcomes)
      requires Valid() && State() == Over(outs, base) && base.records == map[] && base.active == {}
      requires id in records && id in outs && !outs[id].run.status.Terminal() && outs[id].event.None?
      modifies this`rows, this`events, this`active, records.Values
      ensures Valid() && State() == Over(outs[id := Recovered(outs[id].run, found, cfg, now)], base)
    {
      hide RowOf, Insert, Recovered, RowsOver, EventsOver, ActiveOver, Mirror, Put, Store;
      ghost var m := State();
      ghost var o := Recovered(outs[id].run, found, cfg, now);
      OverMoves(outs, base, id, o, o);
      RunsAre(outs);
      RecoverLocked(records[id], found, now, m);
      Stored(m, records[id], o);
    }

    method RepairTurn(id: RunId, now: Time, ghost base: Manager, ghost outs: Outcomes, ghost b: Outcome)
      requires Valid() && State() == Over(outs, base) && base.records == map[] && base.active == {}
      requires id in records && id in outs && outs[id].run.status.Terminal() && Then(outs[id], Repair(outs[id].run, cfg, now), b)
      modifies this`rows, this`events, this`active, records.Values
      ensures Valid() && State() == Over(outs[id := b], base)
    {
      hide RowOf, Insert, Repair, RowsOver, EventsOver, ActiveOver, Mirror, Put, Store;
      ghost var m := State();
      ghost var o := Repair(outs[id].run, cfg, now);
      OverMoves(outs, base, id, o, b);
      RunsAre(outs);
      RepairLocked(records[id], now, m);
      Stored(m, records[id], o);
    }

    /** The ids of the loaded runs that are not over, by their records and by the ghost outcomes alike. */
    method Recoverable(ghost outs: Outcomes, ghost base: Manager) returns (todo: set<RunId>)
      requires State() == Over(outs, base)
      ensures todo <= records.Keys && records.Keys == outs.Keys
      ensures forall i :: i in outs ==> (i in todo <==> !outs[i].run.status.Terminal())
    {
      RunsAre(outs);
      todo := set id | id in records && !records[id].status.Terminal();
    }

    /** The outcome of the recovery pass for every run that was read. */
    ghost function Targets(read: Outcomes, found: map<RunId, Published>, now: Time, base: Manager): Outcomes
      requires read.Keys == base.rows.Keys
    {
      map id | id in read :: Recovery(base.rows[id], Log(base.events, id), Found(found, id), cfg, now)
    }

    lemma TargetsAre(read: Outcomes, found: map<RunId, Published>, now: Time, base: Manager)
      requires read.Keys == base.rows.Keys
      requires forall id :: id in read ==> read[id] == ReadBack(base.rows[id], Log(base.events, id), cfg)
      ensures forall id :: id in read ==>
        read[id].event.None?
        && Targets(read, found, now, base)[id]
           == if read[id].run.status.Terminal() then read[id] else Recovered(read[id].run, Found(found, id), cfg, now)
    {
      hide Recovery, Recovered, ReadBack, Log, Found;
      forall id | id in read {
        RecoveryCases(base.rows[id], Log(base.events, id), Found(found, id), cfg, now);
      }
    }

    /** Runs in `todo` still have their turn to come. */
    ghost predicate Halfway(outs: Outcomes, read: Outcomes, targets: Outcomes, todo: set<RunId>) {
      && outs.Keys == read.Keys == targets.Keys
      && (forall id :: id in todo ==> id in outs && outs[id] == read[id] && !read[id].run.status.Terminal())
      && (forall id :: id in outs && id !in todo ==> outs[id] == targets[id])
    }

    lemma HalfwayStep(outs: Outcomes, read: Outcomes, targets: Outcomes, todo: set<RunId>, id: RunId)
      requires Halfway(outs, read, targets, todo) && id in todo
      ensures id in targets && Halfway(outs[id := targets[id]], read, targets, todo - {id})
      ensures id in outs && outs[id] == read[id] && !read[id].run.status.Terminal()
    {}

    lemma HalfwayDone(outs: Outcomes, read: Outcomes, targets: Outcomes)
      requires Halfway(outs, read, targets, {})
      ensures outs == targets
    {}

    method RecoverAll(found: map<RunId, Published>, now: Time, ghost base: Manager, ghost read: Outcomes)
      returns (ghost outs: Outcomes)
      requires Valid() && State() == Over(read, base) && base.records == map[] && base.active == {} && read.Keys == base.rows.Keys
      requires forall id :: id in read ==> read[id] == ReadBack(base.rows[id], Log(base.events, id), cfg)
      modifies this`rows, this`events, this`active, records.Values
      ensures Valid() && State() == Over(outs, base) && outs.Keys == records.Keys == base.rows.Keys
      ensures outs == Targets(read, found, now, base)
    {
      hide ManagedRun.Value, RowOf, ReadBack, Recovered, OwnObjects, Mirror, Runs, Valid, Over, Found, Targets, Halfway;
      outs := read;
      ghost var targets := Targets(read, found, now, base);
      TargetsAre(read, found, now, base);
      var todo := Recoverable(outs, base);
      assert Halfway(outs, read, targets, todo) by { HalfwayStart(read, found, now, base, todo); }
      while todo != {}
        invariant Valid() && State() == Over(outs, base) && todo <= records.Keys && records.Keys == read.Keys
        invariant Halfway(outs, read, targets, todo)
      {
        var id :| id in todo;
        HalfwayStep(outs, read, targets, todo, id);
        RecoverTurn(id, Found(found, id), now, base, outs);
        outs := outs[id := targets[id]];
        todo := todo - {id};
      }
      HalfwayDone(outs, read, targets);
      TargetsKeys(read, found, now, base);
    }

    lemma HalfwayStart(read: Outcomes, found: map<RunId, Published>, now: Time, base: Manager, todo: set<RunId>)
      requires read.Keys == base.rows.Keys && todo <= read.Keys
      requires forall id :: id in read ==> read[id] == ReadBack(base.rows[id], Log(base.events, id), cfg)
      requires forall i :: i in read ==> (i in todo <==> !read[i].run.status.Terminal())
      ensures Halfway(read, read, Targets(read, found, now, base), todo)
    {
      hide ReadBack, Recovered, Found, Targets;
      TargetsAre(read, found, now, base);
      TargetsKeys(read, found, now, base);
    }

    lemma TargetsKeys(read: Outcomes, found: map<RunId, Published>, now: Time, base: Manager)
      requires read.Keys == base.rows.Keys
      ensures Targets(read, found, now, base).Keys == read.Keys
    {
      hide Recovery;
    }

    method RepairAll(ghost found: map<RunId, Published>, now: Time, ghost base: Manager, ghost recovered: Outcomes)
      requires Valid() && State() == Over(recovered, base) && base.records == map[] && base.active == {} && cfg.limit >= 1
      requires recovered.Keys == records.Keys == base.rows.Keys
      requires forall id :: id in recovered ==>
        recovered[id] == Recovery(base.rows[id], Log(base.events, id), Found(found, id), cfg, now)
      modifies this`rows, this`events, this`active, records.Values
      ensures Valid() && State() == Restart(base.rows, base.events, found, base.setting, base.life, cfg, now)
    {
      hide ManagedRun.Value, RowOf, Log, RecordsOf, Recovery, Restarted, Restart, OwnObjects, Mirror, Runs, Valid, Over, Found,
        Repair, Then;
      ghost var outs := recovered;
      var todo := records.Keys;
      while todo != {}
        invariant Valid() && State() == Over(outs, base) && todo <= outs.Keys && outs.Keys == records.Keys == recovered.Keys
        invariant forall id :: id in todo ==> outs[id] == recovered[id]
        invariant forall id :: id in outs && id !in todo ==>
          outs[id] == Restarted(base.rows[id], Log(base.events, id), Found(found, id), cfg, now)
      {
        var id :| id in todo;
        RecoveryCases(base.rows[id], Log(base.events, id), Found(found, id), cfg, now);
        RepairedOnce(base.rows[id], Log(base.events, id), Found(found, id), cfg, now);
        ghost var b := Restarted(base.rows[id], Log(base.events, id), Found(found, id), cfg, now);
        RepairTurn(id, now, base, outs, b);
        outs := outs[id := b];
        todo := todo - {id};
      }
      OverRestarted(outs, base, found, cfg, now);
    }

    /** `_load_persisted_runs`: read every row, end what was unfinished, then normalize and repair. */
    method LoadPersistedRuns(found: map<RunId, Published>, now: Time)
      requires Blank(State()) && cfg.limit >= 1
      modifies this
      ensures Valid() && forall i :: i in records ==> fresh(records[i])
      ensures State() == Restart(old(rows), old(events), found, old(setting), old(life), cfg, now)
    {
      hide ManagedRun.Value, RowOf, Restart, ReadBack, Recovery, Log;
      ghost var base := State();
      ghost var read := ReadAll(base);
      ReadValid(base, read);
      ghost var recovered := RecoverAll(found, now, base, read);
      RepairAll(found, now, base, recovered);
    }

    lemma ReadValid(base: Manager, read: Outcomes)
      requires OwnObjects() && State() == Over(read, base) && read.Keys == base.rows.Keys
      ensures Valid()
    {
      hide ManagedRun.Value, RowOf, EventsOver, ActiveOver, OwnObjects;
    }
  }
}
