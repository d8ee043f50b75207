/** Restarts, crashes between two durable writes, reused run ids, and retry lineage. */
module ManagerRestart {
  import opened Basics
  import opened Runs
  import opened RunInvariants
  import opened ManagerModel
  import opened ManagerInvariants

  /** What a restart made of one run: the log goes on from the durable one, with at most the missing end. */
  ghost predicate Resumed(rows: map<RunId, Run>, events: map<RunId, seq<Event>>, found: map<RunId, Published>,
                          n: Manager, id: RunId, cfg: Config)
    requires id in rows && id in n.records
  {
    var row, r, log, log' := rows[id], n.records[id], Log(events, id), Log(n.events, id);
    && r.status == (if row.status.Terminal() then row.status else if row.status.Waiting() then Interrupted
                    else if id in found then Completed else Failed)
    && log' == (if row.status.Terminal() then log else log + [Event(|log| + 1, Ended(r.status))])
    && r.nextNo == |log'| + 1 && r.ring == Newest(log', cfg.limit)
  }

  /** A restart from stored tables leaves every run ended, nothing active, and every run resumed from its durable log. */
  lemma RestartRefines(rows: map<RunId, Run>, events: map<RunId, seq<Event>>, found: map<RunId, Published>,
                       setting: Option<Setting>, life: Lifecycle, cfg: Config, now: Time)
    requires StoredAll(rows, events) && cfg.limit >= 1
    ensures var n := Restart(rows, events, found, setting, life, cfg, now);
            && Inv(n, cfg) && n.active == {} && n.records.Keys == rows.Keys
            && forall id :: id in rows ==> n.records[id].status.Terminal() && Resumed(rows, events, found, n, id, cfg)
  {
    hide RunOk, StoredOk, StoredAll, Resumed, Restarted, RowOf, RestartedEvents, RunsOk, Mirrored, LineageOk;
    var n := Restart(rows, events, found, setting, life, cfg, now);
    RestartKeepsInv(rows, events, found, setting, life, cfg, now);
    forall id | id in rows ensures n.records[id].status.Terminal() && Resumed(rows, events, found, n, id, cfg) {
      ResumedOne(rows, events, found, n, id, cfg, now);
    }
  }

  lemma ResumedOne(rows: map<RunId, Run>, events: map<RunId, seq<Event>>, found: map<RunId, Published>, n: Manager, id: RunId, cfg: Config, now: Time)
    requires StoredAll(rows, events) && cfg.limit >= 1 && id in rows && id in n.records
    requires n.records[id] == Restarted(rows[id], Log(events, id), Found(found, id), cfg, now).run
    requires Log(n.events, id) == After(Log(events, id), Restarted(rows[id], Log(events, id), Found(found, id), cfg, now))
    ensures n.records[id].status.Terminal() && Resumed(rows, events, found, n, id, cfg)
  {
    hide Restarted, StoredOk;
    RestartedOk(rows[id], Log(events, id), Found(found, id), cfg, now);
  }

  /** After any completed operation the tables are fit for a restart. */
  lemma RestartAfterOperation(m: Manager, found: map<RunId, Published>, cfg: Config, now: Time)
    requires Inv(m, cfg)
    ensures var n := Do(m, Reload(found), cfg, now);
            && Inv(n, cfg) && n.active == {} && n.records.Keys == m.records.Keys
            && forall id :: id in m.records ==>
                 n.records[id].status.Terminal() && Resumed(m.rows, m.events, found, n, id, cfg)
  {
    hide RunOk, StoredOk, Resumed, Restarted, RowOf;
    InvStored(m, cfg);
    RestartRefines(m.rows, m.events, found, m.setting, m.life, cfg, now);
  }

  /** A begin or a publication writes the row first and the event afterwards. A crash in between leaves tables that
      are still fit for a restart, because only the row of a live run can be ahead of its log. */
  lemma CrashBetweenWrites(m: Manager, id: RunId, a: Action, cfg: Config, now: Time)
    requires Inv(m, cfg) && id in m.records && Proper(a) && !Step(m.records[id], a, cfg, now).run.status.Terminal()
    ensures StoredAll(m.rows[id := RowOf(Step(m.records[id], a, cfg, now).run)], m.events)
  {
    var r, log := m.records[id], Log(m.events, id);
    InvStored(m, cfg);
    hide Inv, StoredOk, Step, RunOk;
    assert RunOk(r, log, cfg) by { RunIsOk(m, id, cfg); }
    StepKeepsRunOk(r, log, a, cfg, now);
    StepFacts(r, a, cfg, now);
    assert SameRun(m.rows[id], RowOf(Step(r, a, cfg, now).run)) by { RowIs(m, id, cfg); }
    HalfWritten(r, log, Step(r, a, cfg, now), cfg);
    StoreRow(m.rows, m.events, id, RowOf(Step(r, a, cfg, now).run));
  }

  lemma RunIsOk(m: Manager, id: RunId, cfg: Config)
    requires Inv(m, cfg) && id in m.records
    ensures RunOk(m.records[id], Log(m.events, id), cfg) && cfg.limit >= 1
  {}

  lemma RowIs(m: Manager, id: RunId, cfg: Config)
    requires Inv(m, cfg) && id in m.records
    ensures id in m.rows && m.rows[id] == RowOf(m.records[id]) && m.rows[id].id == id
  {}

  lemma HalfWritten(r: Run, log: seq<Event>, o: Outcome, cfg: Config)
    requires RunOk(r, log, cfg) && RunOk(o.run, After(log, o), cfg) && !o.run.status.Terminal() && Edge(r.status, o.run.status)
    ensures StoredOk(RowOf(o.run), log)
  {}

  lemma StoreRow(rows: map<RunId, Run>, events: map<RunId, seq<Event>>, id: RunId, row: Run)
    requires StoredAll(rows, events) && id in rows && SameRun(rows[id], row) && StoredOk(row, Log(events, id))
    ensures StoredAll(rows[id := row], events)
  {
    hide StoredOk;
  }

  // ---- reused ids ----

  /** Starting a run under an id is sound for the durable log exactly when no event rows are left under that id. */
  lemma StartSoundIffNoEventRows(m0: Manager, id: RunId, q: Request, cfg: Config, now: Time)
    requires Inv(m0, cfg) && StartRefusal(Cleanup(m0, now), id, q).None?
    ensures RunsOk(StartRun(m0, id, q, now), cfg) <==> Log(m0.events, id) == []
  {
    CleanupKeepsInv(m0, cfg, now);
    var m := Cleanup(m0, now);
    var r := NewRun(id, q, m.life, now);
    var n := StartRun(m0, id, q, now);
    assert n == Admit(m, r) && n.records[id] == r;
    if Log(m0.events, id) == [] {
      NewRunOk(id, q, m.life, cfg, now);
      AdmitRunsEmpty(m, r, cfg);
    } else {
      assert !RunOk(n.records[id], Log(n.events, id), cfg);
    }
  }

  lemma AdmitRunsEmpty(m: Manager, r: Run, cfg: Config)
    requires RunsOk(m, cfg) && Log(m.events, r.id) == [] && RunOk(r, [], cfg)
    ensures RunsOk(Admit(m, r), cfg)
  {
    hide RunOk, RowOf;
  }

  /** With rows left over, the events of the new run that reuse their numbers are silently not stored. */
  lemma {:induction false} ReusedNumberIsLost(log: seq<Event>, e: Event)
    requires Numbered(log) && 1 <= e.no <= |log|
    ensures Insert(log, e) == log
  {
    InsertIgnored(log, e, 1);
  }

  /** The counter read back is one more than the largest number, whatever the numbers are. */
  lemma {:induction false} MaxNextIs(log: seq<Event>)
    ensures MaxNext(log) >= 1 && forall k :: 0 <= k < |log| ==> log[k].no < MaxNext(log)
    ensures MaxNext(log) == 1 || exists k :: 0 <= k < |log| && log[k].no + 1 == MaxNext(log)
  {
    if log != [] {
      var n := |log| - 1;
      MaxNextIs(log[..n]);
      assert log[n].no < MaxNext(log);
      forall k | 0 <= k < |log| ensures log[k].no < MaxNext(log) { if k < n { assert log[..n][k] == log[k]; } }
      if MaxNext(log) != log[n].no + 1 && MaxNext(log) != 1 {
        var k :| 0 <= k < n && log[..n][k].no + 1 == MaxNext(log);
        assert log[k].no + 1 == MaxNext(log);
      }
    }
  }

  /** Numbers strictly increase. */
  ghost predicate Increasing(log: seq<Event>) { forall i, j :: 0 <= i < j < |log| ==> log[i].no < log[j].no }

  /** The event rows of a run stay in the order of their numbers, and one row is added unless its number was taken. */
  lemma {:induction false} InsertIsOrdered(log: seq<Event>, e: Event)
    requires Increasing(log)
    ensures Increasing(Insert(log, e))
    ensures forall x :: x in Insert(log, e) <==> x in log || (x == e && forall k :: 0 <= k < |log| ==> log[k].no != e.no)
  {
    if log != [] {
      InsertIsOrdered(log[1..], e);
      assert log == [log[0]] + log[1..];
      var rest := Insert(log[1..], e);
      if log[0].no < e.no {
        assert forall k :: 0 <= k < |log| ==> log[k] == if k == 0 then log[0] else log[1..][k - 1];
        forall k | 0 <= k < |rest| ensures log[0].no < rest[k].no { assert rest[k] in rest; }
      }
    }
  }

  lemma {:induction false} InsertIgnored(log: seq<Event>, e: Event, first: nat)
    requires forall i :: 0 <= i < |log| ==> log[i].no == first + i
    requires first <= e.no < first + |log|
    ensures Insert(log, e) == log
  {
    if log[0].no != e.no {
      InsertIgnored(log[1..], e, first + 1);
      assert log == [log[0]] + log[1..];
    }
  }

  /** It does happen: run, fail, tidy, run again under the same id. */
  lemma ReuseHappens(id: RunId, q: Request, cfg: Config)
    requires cfg.limit >= 1
    ensures var m := FailedOnce(id, q, cfg);
            Inv(m, cfg) && StartRefusal(Cleanup(m, cfg.ttl), id, q).None? && !RunsOk(StartRun(m, id, q, cfg.ttl), cfg)
  {
    var m0 := Empty(Lifecycle(7200, 15, 180));
    EmptyOk(m0.life, cfg);
    StartKeepsInv(m0, id, q, cfg, 0);
    var m1 := StartRun(m0, id, q, 0);
    assert m1.records[id] == NewRun(id, q, m0.life, 0);
    ActKeepsInv(m1, id, FailRun(WorkerError, false), cfg, 0);
    var m := FailedOnce(id, q, cfg);
    FailedOnceIs(id, q, cfg);
    hide Inv, FailedOnce;
    StartSoundIffNoEventRows(m, id, q, cfg, cfg.ttl);
  }

  function FailedOnce(id: RunId, q: Request, cfg: Config): Manager {
    Act(StartRun(Empty(Lifecycle(7200, 15, 180)), id, q, 0), id, FailRun(WorkerError, false), cfg, 0)
  }

  lemma FailedOnceIs(id: RunId, q: Request, cfg: Config)
    ensures var m := FailedOnce(id, q, cfg);
            && Log(m.events, id) == [Event(1, Ended(Failed))] && m.active == {}
            && StartRefusal(Cleanup(m, cfg.ttl), id, q).None?
  {
    var m1 := StartRun(Empty(Lifecycle(7200, 15, 180)), id, q, 0);
    assert m1.records[id] == NewRun(id, q, Lifecycle(7200, 15, 180), 0);
    var m := FailedOnce(id, q, cfg);
    assert m.records[id].expiresAt == Some(cfg.ttl);
    assert m.active == {};
  }

  // ---- retries ----

  /** `can_retry` answers for `retry_run` with the parent's own request, exactly while the parent has not expired. */
  lemma VerdictDecidesRetry(m: Manager, parent: RunId, cfg: Config, now: Time)
    requires Inv(m, cfg) && parent in m.records
    ensures RetryRefusal(Cleanup(m, now), parent, m.records[parent].request).None?
            <==> RetryVerdict(m, parent).None? && !Expired(m.records[parent], now)
  {
    hide RunOk, AssetKey, LineageOk, Mirrored;
    CleanupKeepsInv(m, cfg, now);
    SameAdmission(m, cfg, m.records[parent].request, now);
  }

  lemma SameAdmission(m: Manager, cfg: Config, q: Request, now: Time)
    requires Inv(m, cfg)
    ensures Admission(Cleanup(m, now), q) == Admission(m, q)
  {
    hide RunOk, AssetKey, LineageOk, Mirrored;
    CleanupKeepsInv(m, cfg, now);
    var n := Cleanup(m, now);
    if Busy(m, q) {
      var id :| id in m.active && id in m.records && AssetKey(m.records[id].request) == AssetKey(q);
      assert id in n.active && id in n.records;
    }
  }

  ghost predicate IsLineage(m: Manager, path: seq<RunId>) {
    && |path| > 0
    && (forall i :: 0 <= i < |path| ==> path[i] in m.records)
    && forall i, j :: 0 <= i && j == i + 1 && j < |path| ==> m.records[path[i]].parent == Some(path[j])
  }

  /** Along retained parents the attempt number drops by one each time, so no run is its own ancestor. */
  lemma {:induction false} LineageAcyclic(m: Manager, path: seq<RunId>)
    requires LineageOk(m) && IsLineage(m, path)
    ensures m.records[path[0]].attempt == m.records[path[|path| - 1]].attempt + |path| - 1
    ensures |path| > 1 ==> path[0] != path[|path| - 1]
  {
    if |path| > 1 {
      assert m.records[path[0]].parent == Some(path[1]);
      assert IsLineage(m, path[1..]);
      LineageAcyclic(m, path[1..]);
    }
  }
}
