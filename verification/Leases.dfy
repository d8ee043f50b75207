/** The worker's lease: the renewal loop, and why a run whose lease is renewed in time is never interrupted. */
module Leases {
  import opened Basics
  import opened Runs
  import opened RunInvariants
  import opened ManagerModel
  import opened ManagerInvariants
  import opened ManagerTraces
  import opened RunManagers

  // ---- the token of a waiting run ----

  /** Only a lease that starts changes the token of a run that goes on waiting. */
  lemma TokenStays(r: Run, a: Action, cfg: Config, now: Time)
    requires !a.StartLease? && Step(r, a, cfg, now).run.status.Waiting()
    ensures r.status.Waiting() && Step(r, a, cfg, now).run.lease == r.lease
  {
    hide Finish, Publish, Checked;
    CheckedFacts(r, cfg, now);
    var c := Checked(r, cfg, now).run;
    match a
    case Begin => PublishFacts(c.(status := Running, startedAt := Some(now)), RunStarted, cfg);
    case CompletePublishing(gateReady, signal, reportId) =>
      if r.status.Publishing? {
        FinishFacts(r, {Publishing}, Failed, PublishIncomplete, false, None, None, cfg, now);
        FinishFacts(r, {Publishing}, Completed, CompletedReason, false, signal, Some(reportId), cfg, now);
      }
    case CompleteRun(signal, reportId) =>
      if !c.status.Terminal() {
        FinishFacts(c, {Queued, Running, Publishing}, Completed, CompletedReason, false, signal, Some(reportId), cfg, now);
      }
    case FailRun(reason, retryable) =>
      if !c.status.Terminal() {
        FinishFacts(c.(lease := None), {Queued, Running, Publishing}, Failed, reason, retryable, None, None, cfg, now);
      }
    case CancelRun(phase) =>
      if c.status.Waiting() {
        FinishFacts(c.(phase := if phase.Some? then phase else c.phase, cancelled := true), {Queued, Running},
                    Cancelled, CancelledReason, false, None, None, cfg, now);
      }
    case PublishEvent(body) => PublishFacts(c, body, cfg);
    case _ =>
  }

  // ---- a lease over time ----

  predicate IsRenewal(op: Op, id: RunId, token: Token) { op == On(id, Renew(token)) }

  /** Every clock reading lies less than `timeout` after the latest renewal so far; nobody else starts a lease, and the
      process stays up. */
  predicate InTime(tr: seq<Timed>, id: RunId, token: Token, last: Time, timeout: nat)
    decreases |tr|
  {
    tr != [] ==>
      && last <= tr[0].now < last + timeout && !tr[0].op.Reload?
      && !(tr[0].op.On? && tr[0].op.id == id && tr[0].op.action.StartLease?)
      && InTime(tr[1..], id, token, if IsRenewal(tr[0].op, id, token) then tr[0].now else last, timeout)
  }

  /** The run has not been interrupted; while it waits, this lease is its lease and the heartbeat is no older than `last`. */
  ghost predicate Held(r: Run, token: Token, last: Time, timeout: nat) {
    && !r.status.Interrupted? && r.beatTimeout == Some(timeout)
    && (r.status.Waiting() ==> r.lease == Some(token) && r.beatAt.Some? && r.beatAt.value >= last)
  }

  lemma HeldStep(r: Run, a: Action, token: Token, last: Time, timeout: nat, cfg: Config, now: Time)
    requires Held(r, token, last, timeout) && last <= now < last + timeout && !a.StartLease?
    ensures Held(Step(r, a, cfg, now).run, token, if a == Renew(token) then now else last, timeout)
  {
    hide Step;
    var q := Step(r, a, cfg, now).run;
    StepFacts(r, a, cfg, now);
    TerminalStays(r, a, cfg, now);
    NotInterrupted(r, a, cfg, now);
    if q.status.Waiting() {
      TokenStays(r, a, cfg, now);
      HeartbeatMoves(r, a, cfg, now);
    }
  }

  /** Only a waiting run is ever interrupted. */
  lemma NotInterrupted(r: Run, a: Action, cfg: Config, now: Time)
    ensures Step(r, a, cfg, now).run.status.Interrupted? ==> r.status.Waiting() || r.status.Interrupted?
  {
    hide Step, Checked;
    StepMoves(r, a, cfg, now);
    CheckedFacts(r, cfg, now);
    if !r.status.Waiting() { assert Edge(r.status, Step(r, a, cfg, now).run.status) by { StepFacts(r, a, cfg, now); } }
  }

  lemma HeldOp(m: Manager, t: Timed, id: RunId, token: Token, last: Time, timeout: nat, cfg: Config)
    requires Inv(m, cfg) && Legal(m, t.op) && !t.op.Reload? && id in m.records && id in Do(m, t.op, cfg, t.now).records
    requires Held(m.records[id], token, last, timeout) && last <= t.now < last + timeout
    requires !(t.op.On? && t.op.id == id && t.op.action.StartLease?)
    ensures Held(Do(m, t.op, cfg, t.now).records[id], token, if IsRenewal(t.op, id, token) then t.now else last, timeout)
  {
    hide Inv, Do, Legal, Step, Held;
    StartedIsFresh(m, t.op, id, cfg, t.now);
    var a := OwnStep(m, t.op, id, cfg, t.now);
    if a.Some? { HeldStep(m.records[id], a.value, token, last, timeout, cfg, t.now); }
  }

  /** A lease that is renewed in time keeps its run from being interrupted, through any history of other calls, watchdog
      sweeps and publications, for as long as the renewals go on. */
  lemma {:induction false} LeaseKeepsAlive(m: Manager, tr: seq<Timed>, id: RunId, token: Token, last: Time, timeout: nat, cfg: Config)
    requires Inv(m, cfg) && LegalTrace(m, tr, cfg) && id in m.records
    requires Held(m.records[id], token, last, timeout) && InTime(tr, id, token, last, timeout)
    ensures id in Exec(m, tr, cfg).records ==> !Exec(m, tr, cfg).records[id].status.Interrupted?
    decreases |tr|
  {
    if tr != [] {
      hide Inv, Do, Legal;
      var n := Do(m, tr[0].op, cfg, tr[0].now);
      var next := if IsRenewal(tr[0].op, id, token) then tr[0].now else last;
      DoKeepsInv(m, tr[0].op, cfg, tr[0].now);
      if id in n.records {
        HeldOp(m, tr[0], id, token, last, timeout, cfg);
        hide Held;
        LeaseKeepsAlive(n, tr[1..], id, token, next, timeout, cfg);
      } else {
        NoReload(tr[1..], id, token, next, timeout);
        GoneForever(m, tr[0].op, tr[1..], id, cfg, tr[0].now);
      }
    }
  }

  lemma {:induction false} NoReload(tr: seq<Timed>, id: RunId, token: Token, last: Time, timeout: nat)
    requires InTime(tr, id, token, last, timeout)
    ensures forall k :: 0 <= k < |tr| ==> !tr[k].op.Reload?
    decreases |tr|
  {
    if tr != [] {
      NoReload(tr[1..], id, token, if IsRenewal(tr[0].op, id, token) then tr[0].now else last, timeout);
      forall k | 0 <= k < |tr| ensures !tr[k].op.Reload? { if k > 0 { assert tr[k] == tr[1..][k - 1]; } }
    }
  }

  // ---- the loop ----

  /** A tick of the loop: when it wakes, and whether the worker has settled by then. */
  datatype Tick = Tick(now: Time, settled: bool)

  function Renewals(m: Manager, id: RunId, token: Token, ticks: seq<Tick>, cfg: Config): Manager
    decreases |ticks|
  {
    if ticks == [] || ticks[0].settled then m
    else Renewals(Act(m, id, Renew(token), cfg, ticks[0].now), id, token, ticks[1..], cfg)
  }

  /** When the loop renews. */
  function RenewingAt(ticks: seq<Tick>): seq<Time> {
    if ticks == [] || ticks[0].settled then [] else [ticks[0].now] + RenewingAt(ticks[1..])
  }

  /** When a history renews this lease. */
  function RenewedAt(tr: seq<Timed>, id: RunId, token: Token): seq<Time> {
    if tr == [] then []
    else (if IsRenewal(tr[0].op, id, token) then [tr[0].now] else []) + RenewedAt(tr[1..], id, token)
  }

  /** The renewals of the loop as a history of their own. */
  function LoopTrace(times: seq<Time>, id: RunId, token: Token): seq<Timed> {
    seq(|times|, i requires 0 <= i < |times| => At(times[i], On(id, Renew(token))))
  }

  /** What the loop does on its own is the history of its renewals. */
  lemma {:induction false} RenewalsAreTrace(m: Manager, id: RunId, token: Token, ticks: seq<Tick>, cfg: Config)
    ensures var tr := LoopTrace(RenewingAt(ticks), id, token);
            Exec(m, tr, cfg) == Renewals(m, id, token, ticks, cfg) && RenewedAt(tr, id, token) == RenewingAt(ticks)
    decreases |ticks|
  {
    if ticks != [] && !ticks[0].settled {
      hide Act;
      var tr := LoopTrace(RenewingAt(ticks), id, token);
      var rest := LoopTrace(RenewingAt(ticks[1..]), id, token);
      assert tr == [At(ticks[0].now, On(id, Renew(token)))] + rest && tr[1..] == rest;
      RenewalsAreTrace(Act(m, id, Renew(token), cfg, ticks[0].now), id, token, ticks[1..], cfg);
    }
  }

  // ---- renewing often enough ----

  /** The clock never runs back, the process stays up, nobody else starts a lease on the run, and nothing happens after `end`. */
  predicate Undisturbed(tr: seq<Timed>, id: RunId, from: Time, end: Time)
    decreases |tr|
  {
    tr != [] ==>
      && from <= tr[0].now <= end && !tr[0].op.Reload?
      && !(tr[0].op.On? && tr[0].op.id == id && tr[0].op.action.StartLease?)
      && Undisturbed(tr[1..], id, tr[0].now, end)
  }

  /** From `last` on, no two renewals and no renewal and the end lie `timeout` or more apart. */
  predicate Close(last: Time, times: seq<Time>, end: Time, timeout: nat)
    decreases |times|
  {
    if times == [] then end < last + timeout else times[0] < last + timeout && Close(times[0], times[1..], end, timeout)
  }

  lemma {:induction false} CloseIsInTime(tr: seq<Timed>, id: RunId, token: Token, last: Time, from: Time, end: Time, timeout: nat)
    requires last <= from && Undisturbed(tr, id, from, end) && Close(last, RenewedAt(tr, id, token), end, timeout)
    ensures InTime(tr, id, token, last, timeout)
    decreases |tr|
  {
    if tr != [] {
      NextRenewal(tr, id, token, from, end);
      var times, rest := RenewedAt(tr, id, token), RenewedAt(tr[1..], id, token);
      if IsRenewal(tr[0].op, id, token) {
        assert times == [tr[0].now] + rest && times[1..] == rest;
        CloseIsInTime(tr[1..], id, token, tr[0].now, tr[0].now, end, timeout);
      } else {
        assert times == rest;
        CloseIsInTime(tr[1..], id, token, last, tr[0].now, end, timeout);
      }
    }
  }

  /** The next renewal comes no earlier than the next call. */
  lemma {:induction false} NextRenewal(tr: seq<Timed>, id: RunId, token: Token, from: Time, end: Time)
    requires tr != [] && Undisturbed(tr, id, from, end)
    ensures var times := RenewedAt(tr, id, token); times != [] ==> tr[0].now <= times[0]
    decreases |tr|
  {
    if |tr| > 1 { NextRenewal(tr[1..], id, token, tr[0].now, end); }
  }

  /** A lease that starts on a waiting run is held from then on. */
  lemma StartHolds(r: Run, token: Token, timeout: nat, cfg: Config, now: Time)
    requires r.status.Waiting() && r.beatTimeout == Some(timeout)
    ensures Held(Step(r, StartLease(token), cfg, now).run, token, now, timeout)
  {}

  /** A worker that starts its lease on a waiting run and whose loop then renews it often enough keeps the run from being
      interrupted, whatever else is called in between: the calls of the loop are any part of the history. */
  lemma LoopKeepsAlive(m: Manager, id: RunId, token: Token, start: Time, ticks: seq<Tick>, tr: seq<Timed>, end: Time,
                       timeout: nat, cfg: Config)
    requires Inv(m, cfg) && id in m.records && m.records[id].status.Waiting() && m.records[id].beatTimeout == Some(timeout)
    requires var n := Do(m, On(id, StartLease(token)), cfg, start); LegalTrace(n, tr, cfg)
    requires Undisturbed(tr, id, start, end)
    requires RenewedAt(tr, id, token) == RenewingAt(ticks) && Close(start, RenewingAt(ticks), end, timeout)
    ensures var d := Exec(Do(m, On(id, StartLease(token)), cfg, start), tr, cfg);
            id in d.records ==> !d.records[id].status.Interrupted?
  {
    var n := Do(m, On(id, StartLease(token)), cfg, start);
    DoKeepsInv(m, On(id, StartLease(token)), cfg, start);
    StartHolds(m.records[id], token, timeout, cfg, start);
    StartedOnRecord(m, id, token, cfg, start);
    CloseIsInTime(tr, id, token, start, start, end, timeout);
    hide Inv, Do, Held;
    LeaseKeepsAlive(n, tr, id, token, start, timeout, cfg);
  }

  lemma StartedOnRecord(m: Manager, id: RunId, token: Token, cfg: Config, now: Time)
    requires id in m.records && m.records[id].id == id
    ensures var n := Do(m, On(id, StartLease(token)), cfg, now);
            id in n.records && n.records[id] == Step(m.records[id], StartLease(token), cfg, now).run
  {
    hide Step;
  }

  function Accepted(m: Manager, id: RunId, token: Token, ticks: seq<Tick>, cfg: Config): nat
    decreases |ticks|
  {
    if ticks == [] || ticks[0].settled then 0
    else
      (if id in m.records && Step(m.records[id], Renew(token), cfg, ticks[0].now).ok then 1 else 0)
      + Accepted(Act(m, id, Renew(token), cfg, ticks[0].now), id, token, ticks[1..], cfg)
  }

  class WorkerLease {
    const id: RunId
    const token: Token
    const manager: RunManager
    var renewed: nat

    constructor (id: RunId, token: Token, manager: RunManager)
      ensures this.id == id && this.token == token && this.manager == manager && renewed == 0
    {
      this.id, this.token, this.manager, renewed := id, token, manager, 0;
    }

    method RenewOnce(now: Time)
      requires manager.Valid()
      modifies this`renewed, manager`rows, manager`events, manager`active, manager.records.Values
      ensures manager.Valid() && manager.State() == Act(old(manager.State()), id, Action.Renew(token), manager.cfg, now)
      ensures var m := old(manager.State());
              renewed == old(renewed) + if id in m.records && Step(m.records[id], Action.Renew(token), manager.cfg, now).ok then 1 else 0
    {
      hide Step, Act, RunManager.Valid, ManagedRun.Value;
      KnownIff(id);
      var known, accepted := manager.RenewWorkerLease(id, token, now);
      if known && accepted { renewed := renewed + 1; }
    }

    lemma KnownIff(id: RunId)
      ensures id in manager.records <==> id in manager.State().records
    {}

    /** `_loop`: until it is stopped, or finds the worker settled. */
    method Loop(ticks: seq<Tick>)
      requires manager.Valid()
      modifies this`renewed, manager`rows, manager`events, manager`active, manager.records.Values
      ensures manager.Valid() && manager.State() == Renewals(old(manager.State()), id, token, ticks, manager.cfg)
      ensures renewed == old(renewed) + Accepted(old(manager.State()), id, token, ticks, manager.cfg)
    {
      hide Step, Act, RunManager.Valid, RunManager.State;
      ghost var m := manager.State();
      ghost var start := renewed;
      var k := 0;
      while k < |ticks|
        invariant k <= |ticks| && manager.Valid()
        invariant Renewals(m, id, token, ticks, manager.cfg) == Renewals(manager.State(), id, token, ticks[k..], manager.cfg)
        invariant start + Accepted(m, id, token, ticks, manager.cfg)
                  == renewed + Accepted(manager.State(), id, token, ticks[k..], manager.cfg)
      {
        assert ticks[k..][1..] == ticks[k + 1..];
        if ticks[k].settled { break; }
        RenewOnce(ticks[k].now);
        k := k + 1;
      }
    }
  }
}
