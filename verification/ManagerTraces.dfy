/** Whole histories of the run manager: any interleaving of calls, watchdog sweeps and restarts. */
module ManagerTraces {
  import opened Basics
  import opened Runs
  import opened RunInvariants
  import opened ManagerModel
  import opened ManagerInvariants

  datatype Timed = At(now: Time, op: Op)

  function Exec(m: Manager, tr: seq<Timed>, cfg: Config): Manager
    decreases |tr|
  {
    if tr == [] then m else Exec(Do(m, tr[0].op, cfg, tr[0].now), tr[1..], cfg)
  }

  predicate LegalTrace(m: Manager, tr: seq<Timed>, cfg: Config)
    decreases |tr|
  {
    tr != [] ==> Legal(m, tr[0].op) && LegalTrace(Do(m, tr[0].op, cfg, tr[0].now), tr[1..], cfg)
  }

  /** The invariant holds after every history. */
  lemma {:induction false} ExecKeepsInv(m: Manager, tr: seq<Timed>, cfg: Config)
    requires Inv(m, cfg) && LegalTrace(m, tr, cfg)
    ensures Inv(Exec(m, tr, cfg), cfg)
    decreases |tr|
  {
    if tr != [] {
      DoKeepsInv(m, tr[0].op, cfg, tr[0].now);
      ExecKeepsInv(Do(m, tr[0].op, cfg, tr[0].now), tr[1..], cfg);
    }
  }

  // ---- refused starts ----

  /** A start or retry that is refused has only tidied. */
  function Effective(m: Manager, at: Timed): Timed {
    match at.op
    case Start(id, q) => if StartRefusal(Cleanup(m, at.now), id, q).Some? then at.(op := Tidy) else at
    case Retry(p, _, q) => if RetryRefusal(Cleanup(m, at.now), p, q).Some? then at.(op := Tidy) else at
    case _ => at
  }

  function EffectiveTrace(m: Manager, tr: seq<Timed>, cfg: Config): seq<Timed>
    decreases |tr|
  {
    if tr == [] then [] else [Effective(m, tr[0])] + EffectiveTrace(Do(m, tr[0].op, cfg, tr[0].now), tr[1..], cfg)
  }

  predicate LegalOrRefused(m: Manager, tr: seq<Timed>, cfg: Config)
    decreases |tr|
  {
    tr != [] ==> (Legal(m, tr[0].op) || Effective(m, tr[0]) != tr[0]) && LegalOrRefused(Do(m, tr[0].op, cfg, tr[0].now), tr[1..], cfg)
  }

  /** Refused starts may use any id: leaving them out of the legal histories leaves out no state. */
  lemma {:induction false} RefusalsOnlyTidy(m: Manager, tr: seq<Timed>, cfg: Config)
    ensures Exec(m, tr, cfg) == Exec(m, EffectiveTrace(m, tr, cfg), cfg)
    ensures LegalOrRefused(m, tr, cfg) ==> LegalTrace(m, EffectiveTrace(m, tr, cfg), cfg)
    decreases |tr|
  {
    if tr != [] {
      var n, rest := Do(m, tr[0].op, cfg, tr[0].now), EffectiveTrace(Do(m, tr[0].op, cfg, tr[0].now), tr[1..], cfg);
      RefusalsOnlyTidy(n, tr[1..], cfg);
      EffectiveDoes(m, tr[0], cfg);
      assert ([Effective(m, tr[0])] + rest)[1..] == rest;
    }
  }

  lemma EffectiveDoes(m: Manager, at: Timed, cfg: Config)
    ensures var e := Effective(m, at); e.now == at.now && Do(m, e.op, cfg, e.now) == Do(m, at.op, cfg, at.now)
    ensures Legal(m, at.op) || Effective(m, at) != at ==> Legal(m, Effective(m, at).op)
  {
    hide Act, CheckAll, Restart, Cleanup, StartRefusal, RetryRefusal, Admit, NewRun, Child;
  }

  // ---- ended logs ----

  ghost predicate Ended(log: seq<Event>) { |log| > 0 && log[|log| - 1].body.Ended? }

  lemma EndedIsTerminal(m: Manager, id: RunId, cfg: Config)
    requires RunsOk(m, cfg) && id in m.records
    ensures Ended(Log(m.events, id)) <==> m.records[id].status.Terminal()
  {
    assert RunOk(m.records[id], Log(m.events, id), cfg);
  }

  lemma EndedStep(m: Manager, op: Op, id: RunId, cfg: Config, now: Time)
    requires Inv(m, cfg) && Legal(m, op) && Ended(Log(m.events, id))
    ensures Log(Do(m, op, cfg, now).events, id) == Log(m.events, id)
  {
    hide RunOk, Numbered, ActiveOk, LineageOk, Mirrored, Step, Restarted, Checked, RowOf, Insert;
    if id in m.records { EndedIsTerminal(m, id, cfg); }
    match op
    case Start(i, q) => CleanupKeepsInv(m, cfg, now);
    case Retry(p, i, q) => CleanupKeepsInv(m, cfg, now);
    case On(i, a) =>
      if i in m.records {
        if i == id { TerminalAbsorbs(m.records[id], a, cfg, now); }
      }
    case Watchdog =>
      CheckAllKeepsInv(m, cfg, now);
      if id in m.records { CheckedFacts(m.records[id], cfg, now); }
    case Tidy =>
    case Configure(_) =>
    case ConfigureLife(_) =>
    case Reload(found) => EndedReload(m, found, id, cfg, now);
  }

  lemma EndedReload(m: Manager, found: map<RunId, Published>, id: RunId, cfg: Config, now: Time)
    requires Inv(m, cfg) && Ended(Log(m.events, id))
    ensures Log(Do(m, Reload(found), cfg, now).events, id) == Log(m.events, id)
  {
    hide RunOk, ActiveOk, LineageOk, Restarted, StoredOk, RestartedEvents;
    InvStored(m, cfg);
    RestartKeepsInv(m.rows, m.events, found, m.setting, m.life, cfg, now);
    if id in m.records {
      EndedIsTerminal(m, id, cfg);
      RestartedOk(m.rows[id], Log(m.events, id), Found(found, id), cfg, now);
    }
  }

  /** Terminal states absorb: once a run has ended its event log never changes again, whatever happens,
      restarts included; and while its record is retained it shows that status, counter and ring. */
  lemma {:induction false} EndedForever(m: Manager, tr: seq<Timed>, id: RunId, cfg: Config)
    requires Inv(m, cfg) && LegalTrace(m, tr, cfg) && Ended(Log(m.events, id))
    ensures Log(Exec(m, tr, cfg).events, id) == Log(m.events, id)
    ensures id in Exec(m, tr, cfg).records ==>
              var r := Exec(m, tr, cfg).records[id];
              && EndsWith(Log(m.events, id), r.status) && r.nextNo == |Log(m.events, id)| + 1
              && r.ring == Newest(Log(m.events, id), cfg.limit)
    decreases |tr|
  {
    if tr == [] {
      if id in m.records { EndedIsTerminal(m, id, cfg); }
    } else {
      EndedStep(m, tr[0].op, id, cfg, tr[0].now);
      DoKeepsInv(m, tr[0].op, cfg, tr[0].now);
      EndedForever(Do(m, tr[0].op, cfg, tr[0].now), tr[1..], id, cfg);
    }
  }

  // ---- one step seen from one run ----

  /** Between restarts a retained run either stays as it is or takes one of its own steps. */
  lemma OwnStep(m: Manager, op: Op, id: RunId, cfg: Config, now: Time) returns (a: Option<Action>)
    requires Legal(m, op) && !op.Reload? && id in m.records && id in Do(m, op, cfg, now).records
    requires op.Start? ==> op.id != id || StartRefusal(Cleanup(m, now), op.id, op.request).Some?
    ensures Do(m, op, cfg, now).records[id] == if a.Some? then Step(m.records[id], a.value, cfg, now).run else m.records[id]
    ensures a.Some? ==> (op == On(id, a.value)) || (op.Watchdog? && a.value == Check)
    ensures op.On? && op.id == id ==> a == Some(op.action)
  {
    hide Step, Checked, RowOf, Insert, Admission;
    match op
    case On(i, b) => a := if i == id then Some(b) else None;
    case Watchdog => a := Some(Check); StepCheck(m.records[id], cfg, now);
    case Start(_, _) => a := None;
    case Retry(_, _, _) => a := None;
    case Tidy => a := None;
    case Configure(_) => a := None;
    case ConfigureLife(_) => a := None;
  }

  lemma StepCheck(r: Run, cfg: Config, now: Time)
    ensures Step(r, Check, cfg, now) == Checked(r, cfg, now)
  {}

  /** The status diagram, monotone progress and the deadline, for every call of the running manager. */
  lemma RunMoves(m: Manager, op: Op, id: RunId, cfg: Config, now: Time)
    requires Inv(m, cfg) && Legal(m, op) && !op.Reload? && id in m.records && id in Do(m, op, cfg, now).records
    ensures var r, q := m.records[id], Do(m, op, cfg, now).records[id];
            && Edge(r.status, q.status) && r.progress <= q.progress
            && (r.status.Waiting() && q.status != r.status && r.timeoutAt.Some? && now >= r.timeoutAt.value ==> q.status == TimedOut)
            && (!r.status.Terminal() && q.status.Interrupted? ==>
                  r.beatAt.Some? && r.beatTimeout.Some? && now - r.beatAt.value >= r.beatTimeout.value
                  && (r.timeoutAt.Some? ==> now < r.timeoutAt.value))
  {
    hide Inv, Do, Legal, Step;
    ProgressBound(m, id, cfg);
    StartedIsFresh(m, op, id, cfg, now);
    var a := OwnStep(m, op, id, cfg, now);
    if a.Some? { StepFacts(m.records[id], a.value, cfg, now); }
  }

  lemma ProgressBound(m: Manager, id: RunId, cfg: Config)
    requires Inv(m, cfg) && id in m.records
    ensures m.records[id].progress <= 1.0
  {
    hide LineageOk, ActiveOk, Mirrored;
    Unpack(m.records[id], Log(m.events, id), cfg);
  }

  /** An id without events that is retained cannot be started again: it is still in the table after the tidying. */
  lemma StartedIsFresh(m: Manager, op: Op, id: RunId, cfg: Config, now: Time)
    requires Inv(m, cfg) && Legal(m, op) && id in m.records
    ensures op.Start? && op.id == id ==> StartRefusal(Cleanup(m, now), id, op.request).Some?
  {
    if op.Start? && op.id == id {
      Unpack(m.records[id], Log(m.events, id), cfg);
      assert id in Cleanup(m, now).records;
    }
  }

  // ---- leases over time ----

  /** A run renewed at `t0` is not interrupted before `t0` plus its heartbeat timeout, whatever else happens. */
  lemma {:induction false} RenewedIsNotInterrupted(m: Manager, tr: seq<Timed>, id: RunId, t0: Time, cfg: Config)
    requires Inv(m, cfg) && LegalTrace(m, tr, cfg) && id in m.records
    requires !m.records[id].status.Interrupted? && m.records[id].beatTimeout.Some?
    requires m.records[id].beatAt.Some? && m.records[id].beatAt.value >= t0
    requires Between(tr, t0, t0 + m.records[id].beatTimeout.value)
    ensures id in Exec(m, tr, cfg).records ==> !Exec(m, tr, cfg).records[id].status.Interrupted?
    decreases |tr|
  {
    hide Inv, Do, Legal;
    if tr != [] {
      var op, now := tr[0].op, tr[0].now;
      var n := Do(m, op, cfg, now);
      BetweenTail(tr, t0, t0 + m.records[id].beatTimeout.value);
      hide Between;
      DoKeepsInv(m, op, cfg, now);
      if id in n.records {
        RenewedStep(m, op, id, cfg, now);
        RenewedIsNotInterrupted(n, tr[1..], id, t0, cfg);
      } else {
        GoneForever(m, op, tr[1..], id, cfg, now);
      }
    }
  }

  /** No restart, and every clock reading in a half-open interval. */
  ghost predicate Between(tr: seq<Timed>, from: Time, to: Time) {
    forall k :: 0 <= k < |tr| ==> from <= tr[k].now < to && !tr[k].op.Reload?
  }

  lemma BetweenTail(tr: seq<Timed>, from: Time, to: Time)
    requires Between(tr, from, to) && tr != []
    ensures Between(tr[1..], from, to) && from <= tr[0].now < to && !tr[0].op.Reload?
    ensures forall k :: 0 <= k < |tr[1..]| ==> !tr[1..][k].op.Reload?
  {
    forall k | 0 <= k < |tr| - 1 ensures tr[1..][k] == tr[k + 1] {}
  }

  lemma RenewedStep(m: Manager, op: Op, id: RunId, cfg: Config, now: Time)
    requires Inv(m, cfg) && Legal(m, op) && !op.Reload? && id in m.records && id in Do(m, op, cfg, now).records
    requires !m.records[id].status.Interrupted? && m.records[id].beatAt.Some? && m.records[id].beatTimeout.Some?
    requires now - m.records[id].beatAt.value < m.records[id].beatTimeout.value
    ensures var r, q := m.records[id], Do(m, op, cfg, now).records[id];
            && !q.status.Interrupted? && q.beatTimeout == r.beatTimeout && q.beatAt.Some?
            && (q.beatAt == r.beatAt || q.beatAt.value == now)
  {
    hide Inv, Do, Legal, Step;
    StartedIsFresh(m, op, id, cfg, now);
    var a := OwnStep(m, op, id, cfg, now);
    if a.Some? { RenewedOwnStep(m.records[id], a.value, cfg, now); }
  }

  lemma RenewedOwnStep(r: Run, a: Action, cfg: Config, now: Time)
    requires !r.status.Interrupted? && r.beatAt.Some? && r.beatTimeout.Some? && now - r.beatAt.value < r.beatTimeout.value
    ensures var q := Step(r, a, cfg, now).run;
            && !q.status.Interrupted? && q.beatTimeout == r.beatTimeout && q.beatAt.Some?
            && (q.beatAt == r.beatAt || q.beatAt.value == now)
  {
    hide Step;
    StepFacts(r, a, cfg, now);
    HeartbeatMoves(r, a, cfg, now);
    TerminalStays(r, a, cfg, now);
  }

  lemma TerminalStays(r: Run, a: Action, cfg: Config, now: Time)
    ensures r.status.Terminal() ==> Step(r, a, cfg, now).run.status == r.status
  {
    hide Step;
    if r.status.Terminal() { TerminalAbsorbs(r, a, cfg, now); }
  }

  /** An ended run that has been tidied away does not come back. */
  lemma {:induction false} StaysGone(m: Manager, tr: seq<Timed>, id: RunId, cfg: Config)
    requires Inv(m, cfg) && LegalTrace(m, tr, cfg) && id !in m.records && id in m.events
    requires forall k :: 0 <= k < |tr| ==> !tr[k].op.Reload?
    ensures id !in Exec(m, tr, cfg).records
    decreases |tr|
  {
    if tr != [] {
      var n := Do(m, tr[0].op, cfg, tr[0].now);
      DoKeepsInv(m, tr[0].op, cfg, tr[0].now);
      KeysStep(m, tr[0].op, id, cfg, tr[0].now);
      hide Inv, Do, Legal;
      StaysGone(n, tr[1..], id, cfg);
    }
  }

  lemma KeysStep(m: Manager, op: Op, id: RunId, cfg: Config, now: Time)
    requires Legal(m, op) && !op.Reload? && id in m.events
    ensures id in Do(m, op, cfg, now).events
    ensures id in Do(m, op, cfg, now).records ==> id in m.records
  {
    hide Step, Checked, RowOf, Insert, Admission;
  }

  lemma GoneForever(m: Manager, op: Op, tr: seq<Timed>, id: RunId, cfg: Config, now: Time)
    requires Inv(m, cfg) && Legal(m, op) && !op.Reload? && id in m.records && id !in Do(m, op, cfg, now).records
    requires LegalTrace(Do(m, op, cfg, now), tr, cfg) && forall k :: 0 <= k < |tr| ==> !tr[k].op.Reload?
    ensures id !in Exec(Do(m, op, cfg, now), tr, cfg).records
  {
    var n := Do(m, op, cfg, now);
    DoKeepsInv(m, op, cfg, now);
    assert id in m.events by { GoneWasEnded(m, op, id, cfg, now); }
    KeysStep(m, op, id, cfg, now);
    StaysGone(n, tr, id, cfg);
  }

  lemma GoneWasEnded(m: Manager, op: Op, id: RunId, cfg: Config, now: Time)
    requires Inv(m, cfg) && !op.Reload? && id in m.records && id !in Do(m, op, cfg, now).records
    ensures id in m.events
  {
    hide Step, Checked, RowOf, Insert, Admission, ActiveOk, LineageOk, Mirrored;
    Unpack(m.records[id], Log(m.events, id), cfg);
    assert Expired(m.records[id], now);
  }

  /** An accepted renewal protects the run for the length of its heartbeat timeout. */
  lemma RenewalProtects(m: Manager, id: RunId, token: Token, t0: Time, tr: seq<Timed>, cfg: Config)
    requires Inv(m, cfg) && id in m.records && m.records[id].beatAt.Some? && m.records[id].beatTimeout.Some?
    requires Step(m.records[id], Renew(token), cfg, t0).ok
    requires LegalTrace(Do(m, On(id, Renew(token)), cfg, t0), tr, cfg)
    requires Between(tr, t0, t0 + m.records[id].beatTimeout.value)
    ensures var n := Exec(Do(m, On(id, Renew(token)), cfg, t0), tr, cfg);
            id in n.records ==> !n.records[id].status.Interrupted?
  {
    hide Step, Insert, RowOf, RunOk, ActiveOk, LineageOk, Mirrored, LegalTrace;
    ActKeepsInv(m, id, Renew(token), cfg, t0);
    HeartbeatMoves(m.records[id], Renew(token), cfg, t0);
    hide Inv;
    RenewedIsNotInterrupted(Do(m, On(id, Renew(token)), cfg, t0), tr, id, t0, cfg);
  }

  // ---- admission ----

  /** Whatever grows the active set leaves it within the cap then in force, and grows it by one new run. */
  lemma AdmissionWithinCap(m: Manager, op: Op, cfg: Config, now: Time)
    requires Inv(m, cfg) && Legal(m, op)
    ensures var n := Do(m, op, cfg, now);
            !(n.active <= m.active) ==> (op.Start? || op.Retry?) && n.active == m.active + {op.id}
                                        && |n.active| == |m.active| + 1 <= Cap(m.setting)
  {
    hide Inv, RunOk, Step, Checked, RowOf, Insert, Busy, CheckedEvents, Store, RestartedEvents;
    match op
    case Start(id, q) => GrownByOne(m, Cleanup(m, now), NewRun(id, q, m.life, now), cfg, now);
    case Retry(p, id, q) =>
      if p in Cleanup(m, now).records {
        GrownByOne(m, Cleanup(m, now), Child(Cleanup(m, now).records[p], id, q, m.life, now), cfg, now);
      }
      CleanupKeepsInv(m, cfg, now);
    case _ =>
  }

  lemma GrownByOne(m: Manager, n: Manager, r: Run, cfg: Config, now: Time)
    requires Inv(m, cfg) && n == Cleanup(m, now)
    ensures n.active == m.active && n.setting == m.setting
    ensures Admit(n, r).active == m.active + {r.id} && |Admit(n, r).active| <= |m.active| + 1
    ensures r.id !in m.active ==> |Admit(n, r).active| == |m.active| + 1
  {
    hide Inv, Expired, RowOf;
    CleanupKeepsInv(m, cfg, now);
  }
}
