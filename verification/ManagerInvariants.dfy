/** Every call, and every restart, keeps the manager's invariant. */
module ManagerInvariants {
  import opened Basics
  import opened Runs
  import opened RunInvariants
  import opened ManagerModel

  lemma StoreLog(events: map<RunId, seq<Event>>, id: RunId, e: Option<Event>)
    requires Numbered(Log(events, id)) && (e.Some? ==> e.value.no == |Log(events, id)| + 1)
    ensures Log(Store(events, id, e), id) == Log(events, id) + if e.Some? then [e.value] else []
    ensures forall i :: i != id ==> Log(Store(events, id, e), i) == Log(events, i)
    ensures events.Keys <= Store(events, id, e).Keys
  {
    if e.Some? { InsertAppends(Log(events, id), e.value); }
  }

  lemma InsertNext(log: seq<Event>, e: Event)
    requires Numbered(log) && e.no == |log| + 1
    ensures Insert(log, e) == log + [e]
  {
    InsertAppends(log, e);
  }

  lemma SmallerSet<T>(a: set<T>, b: set<T>)
    requires a <= b
    ensures |a| <= |b|
  {
    if a != {} {
      var x :| x in a;
      SmallerSet(a - {x}, b - {x});
    }
  }

  /** Runs advance in place: none appears or vanishes, ended ones stay ended, the active set loses exactly the newly ended. */
  ghost predicate Advances(active: set<RunId>, records: map<RunId, Run>, active': set<RunId>, records': map<RunId, Run>) {
    && records'.Keys == records.Keys && active <= records.Keys
    && (forall id :: id in records ==> SameRun(records[id], records'[id]))
    && (forall id :: id in records && records[id].status.Terminal() ==> records'[id].status.Terminal())
    && forall id :: id in active' <==> id in active && !records'[id].status.Terminal()
  }

  lemma AdvanceActive(active: set<RunId>, records: map<RunId, Run>, active': set<RunId>, records': map<RunId, Run>)
    requires ActiveOk(active, records) && Advances(active, records, active', records')
    ensures ActiveOk(active', records')
  {
    hide AssetKey, AssetsApart;
    assert active' <= active;
    SmallerSet(active', active);
    ShrinkApart(active, records, active', records');
  }

  lemma ShrinkApart(active: set<RunId>, records: map<RunId, Run>, active': set<RunId>, records': map<RunId, Run>)
    requires AssetsApart(active, records) && active' <= active && records'.Keys == records.Keys
    requires forall id :: id in records ==> SameRun(records[id], records'[id])
    ensures AssetsApart(active', records')
  {
    hide AssetKey;
  }

  lemma AdvanceLineage(m: Manager, n: Manager)
    requires LineageOk(m) && n.records.Keys == m.records.Keys && m.events.Keys <= n.events.Keys
    requires forall id :: id in m.records ==> SameRun(m.records[id], n.records[id])
    ensures LineageOk(n)
  {}

  lemma ActKeepsInv(m: Manager, id: RunId, a: Action, cfg: Config, now: Time)
    requires Inv(m, cfg) && Proper(a)
    ensures Inv(Act(m, id, a, cfg, now), cfg)
  {
    if id in m.records {
      var r, log := m.records[id], Log(m.events, id);
      var o := Step(r, a, cfg, now);
      StepKeepsRunOk(r, log, a, cfg, now);
      StepFacts(r, a, cfg, now);
      Unpack(r, log, cfg);
      PutKeepsInv(m, id, o, cfg);
    }
  }

  lemma PutKeepsInv(m: Manager, id: RunId, o: Outcome, cfg: Config)
    requires Inv(m, cfg) && id in m.records && SameRun(m.records[id], o.run)
    requires Numbered(Log(m.events, id)) && (o.event.Some? ==> o.event.value.no == |Log(m.events, id)| + 1)
    requires RunOk(o.run, After(Log(m.events, id), o), cfg)
    requires m.records[id].status.Terminal() ==> o.run.status.Terminal()
    ensures Inv(Put(m, id, o), cfg)
  {
    hide RunOk, LineageOk, RunsOk, Mirrored, Numbered, Store;
    var n := Put(m, id, o);
    StoreLog(m.events, id, o.event);
    PutRuns(m, id, o, cfg);
    PutMirror(m, id, o);
    PutActive(m, id, o);
    AdvanceLineage(m, n);
  }

  lemma PutActive(m: Manager, id: RunId, o: Outcome)
    requires ActiveOk(m.active, m.records) && id in m.records && SameRun(m.records[id], o.run)
    requires m.records[id].status.Terminal() ==> o.run.status.Terminal()
    ensures ActiveOk(Put(m, id, o).active, Put(m, id, o).records)
  {
    AdvanceOne(m.active, m.records, id, o.run);
  }

  lemma AdvanceOne(active: set<RunId>, records: map<RunId, Run>, id: RunId, q: Run)
    requires ActiveOk(active, records) && id in records && SameRun(records[id], q)
    requires records[id].status.Terminal() ==> q.status.Terminal()
    ensures ActiveOk(if !records[id].status.Terminal() && q.status.Terminal() then active - {id} else active, records[id := q])
  {
    hide AssetsApart, SameRun;
    var active' := if !records[id].status.Terminal() && q.status.Terminal() then active - {id} else active;
    ApartKeys(active, records);
    forall i | i in records ensures SameRun(records[i], records[id := q][i]) { SameSelf(records[i]); }
    AdvanceActive(active, records, active', records[id := q]);
  }

  lemma PutRuns(m: Manager, id: RunId, o: Outcome, cfg: Config)
    requires RunsOk(m, cfg) && id in m.records && o.run.id == m.records[id].id
    requires Numbered(Log(m.events, id)) && (o.event.Some? ==> o.event.value.no == |Log(m.events, id)| + 1)
    requires RunOk(o.run, After(Log(m.events, id), o), cfg)
    ensures RunsOk(Put(m, id, o), cfg)
  {
    hide RunOk, RowOf, Store, Numbered;
    StoreLog(m.events, id, o.event);
    assert Log(Put(m, id, o).events, id) == After(Log(m.events, id), o);
  }

  lemma PutMirror(m: Manager, id: RunId, o: Outcome)
    requires Mirrored(m) && id in m.records
    ensures Mirrored(Put(m, id, o))
  {
    hide RowOf, Store;
  }

  lemma Unpack(r: Run, log: seq<Event>, cfg: Config)
    requires RunOk(r, log, cfg)
    ensures Numbered(log) && (r.status.Terminal() ==> log != []) && (r.expiresAt.Some? <==> r.status.Terminal())
  {}

  lemma CleanupKeepsInv(m: Manager, cfg: Config, now: Time)
    requires Inv(m, cfg)
    ensures Inv(Cleanup(m, now), cfg)
    ensures Cleanup(m, now).active == m.active && Cleanup(m, now).events == m.events
  {
    var n := Cleanup(m, now);
    forall id | id in m.records && Expired(m.records[id], now) ensures m.records[id].status.Terminal() {
      Unpack(m.records[id], Log(m.events, id), cfg);
    }
    hide RunOk, RowOf, AssetKey;
    Subset(m, n, cfg);
  }

  /** Dropping ended runs with their rows. */
  lemma Subset(m: Manager, n: Manager, cfg: Config)
    requires Inv(m, cfg) && n.records.Keys <= m.records.Keys && n.rows.Keys == n.records.Keys
    requires forall id :: id in n.records ==> n.records[id] == m.records[id]
    requires forall id :: id in n.rows && id in m.rows ==> n.rows[id] == m.rows[id]
    requires n.active == m.active && n.events == m.events
    requires forall id :: id in m.records && id !in n.records ==> m.records[id].status.Terminal()
    ensures Inv(n, cfg)
  {
    hide RunOk, RowOf, AssetKey, LineageOk;
    assert ActiveOk(n.active, n.records) by { hide RunsOk, Mirrored; }
    assert RunsOk(n, cfg) && Mirrored(n);
    SubsetLineage(m, n);
  }

  lemma SubsetLineage(m: Manager, n: Manager)
    requires LineageOk(m) && n.records.Keys <= m.records.Keys && n.events == m.events
    requires forall id :: id in n.records ==> n.records[id] == m.records[id]
    ensures LineageOk(n)
  {}

  lemma NewRunOk(id: RunId, q: Request, life: Lifecycle, cfg: Config, now: Time)
    ensures RunOk(NewRun(id, q, life, now), [], cfg)
  {}

  lemma AdmitActive(m: Manager, r: Run)
    requires ActiveOk(m.active, m.records) && Admission(m, r.request).None? && r.id !in m.records && !r.status.Terminal()
    ensures ActiveOk(Admit(m, r).active, Admit(m, r).records) && |Admit(m, r).active| <= Cap(m.setting)
  {
    hide AssetKey, RowOf, AssetsApart;
    AdmitApart(m.active, m.records, r);
    assert r.id !in m.active by { ApartKeys(m.active, m.records); }
    assert |Admit(m, r).active| == |m.active| + 1;
  }

  lemma ApartKeys(active: set<RunId>, records: map<RunId, Run>)
    requires AssetsApart(active, records)
    ensures active <= records.Keys
  {}

  lemma AdmitApart(active: set<RunId>, records: map<RunId, Run>, r: Run)
    requires AssetsApart(active, records) && r.id !in records
    requires forall i :: i in active && i in records ==> AssetKey(records[i].request) != AssetKey(r.request)
    ensures AssetsApart(active + {r.id}, records[r.id := r])
  {
    hide AssetKey;
  }

  lemma AdmitLineage(m: Manager, r: Run)
    requires LineageOk(m) && r.id !in m.records && r.id !in m.events && r.attempt >= 1
    requires r.parent.Some? ==> r.parent.value in m.events && r.parent.value in m.records && r.attempt == m.records[r.parent.value].attempt + 1
    ensures LineageOk(Admit(m, r))
  {}

  lemma AdmitKeepsInv(m: Manager, r: Run, cfg: Config)
    requires Inv(m, cfg) && Admission(m, r.request).None? && r.id !in m.records && r.id !in m.events
    requires !r.status.Terminal() && r.attempt >= 1 && RunOk(r, [], cfg)
    requires r.parent.Some? ==> r.parent.value in m.events && r.parent.value in m.records && r.attempt == m.records[r.parent.value].attempt + 1
    ensures Inv(Admit(m, r), cfg) && |Admit(m, r).active| <= Cap(m.setting)
  {
    hide RunOk, ActiveOk, LineageOk, Admission, RunsOk, Mirrored;
    AdmitActive(m, r);
    AdmitLineage(m, r);
    AdmitRuns(m, r, cfg);
    AdmitMirror(m, r);
  }

  lemma AdmitRuns(m: Manager, r: Run, cfg: Config)
    requires RunsOk(m, cfg) && r.id !in m.events && RunOk(r, [], cfg)
    ensures RunsOk(Admit(m, r), cfg)
  {
    hide RunOk, RowOf;
  }

  lemma AdmitMirror(m: Manager, r: Run)
    requires Mirrored(m)
    ensures Mirrored(Admit(m, r))
  {
    hide RowOf;
  }

  lemma StartKeepsInv(m0: Manager, id: RunId, q: Request, cfg: Config, now: Time)
    requires Inv(m0, cfg) && id !in m0.events
    ensures var n := StartRun(m0, id, q, now);
            Inv(n, cfg) && (n.active != m0.active ==> |n.active| <= Cap(m0.setting))
  {
    hide RunOk, AssetKey;
    CleanupKeepsInv(m0, cfg, now);
    var m := Cleanup(m0, now);
    if StartRefusal(m, id, q).None? {
      NewRunOk(id, q, m.life, cfg, now);
      AdmitKeepsInv(m, NewRun(id, q, m.life, now), cfg);
    }
  }

  lemma RetryKeepsInv(m0: Manager, parent: RunId, id: RunId, q: Request, cfg: Config, now: Time)
    requires Inv(m0, cfg) && id !in m0.events && id !in m0.records
    ensures var n := RetryRun(m0, parent, id, q, now);
            Inv(n, cfg) && (n.active != m0.active ==> |n.active| <= Cap(m0.setting))
  {
    CleanupKeepsInv(m0, cfg, now);
    var m := Cleanup(m0, now);
    if RetryRefusal(m, parent, q).None? {
      var p := m.records[parent];
      NewRunOk(id, q, m.life, cfg, now);
      Unpack(p, Log(m.events, parent), cfg);
      hide RunOk, AssetKey;
      ChildOk(p, id, q, m.life, cfg, now);
      AdmitKeepsInv(m, Child(p, id, q, m.life, now), cfg);
    }
  }

  lemma ChildOk(p: Run, id: RunId, q: Request, life: Lifecycle, cfg: Config, now: Time)
    ensures RunOk(Child(p, id, q, life, now), [], cfg)
  {}

  lemma CheckAllKeepsInv(m: Manager, cfg: Config, now: Time)
    requires Inv(m, cfg)
    ensures Inv(CheckAll(m, cfg, now), cfg)
    ensures forall id :: id in m.records ==> Log(CheckAll(m, cfg, now).events, id) == After(Log(m.events, id), Checked(m.records[id], cfg, now))
    ensures forall id :: id !in m.records ==> Log(CheckAll(m, cfg, now).events, id) == Log(m.events, id)
  {
    hide RunsOk, Mirrored, ActiveOk, LineageOk, RunOk, Checked, CheckedEvents, SameRun, RowOf;
    CheckOnes(m, cfg, now);
    CheckedKeys(m, cfg, now);
    CheckAllRuns(m, cfg, now);
    CheckAllMirror(m, cfg, now);
    CheckAllActive(m, cfg, now);
    AdvanceLineage(m, CheckAll(m, cfg, now));
  }

  lemma CheckOnes(m: Manager, cfg: Config, now: Time)
    requires Inv(m, cfg)
    ensures forall id :: id in m.records ==> CheckOneOk(m, id, cfg, now)
  {
    hide CheckOneOk, RunOk, Mirrored, ActiveOk, LineageOk;
    forall id | id in m.records ensures CheckOneOk(m, id, cfg, now) { CheckOne(m, id, cfg, now); }
  }

  lemma CheckAllMirror(m: Manager, cfg: Config, now: Time)
    requires Mirrored(m)
    ensures Mirrored(CheckAll(m, cfg, now))
  {
    hide Checked, RowOf, CheckedEvents;
  }

  lemma CheckAllActive(m: Manager, cfg: Config, now: Time)
    requires ActiveOk(m.active, m.records) && forall id :: id in m.records ==> CheckOneOk(m, id, cfg, now)
    ensures ActiveOk(CheckAll(m, cfg, now).active, CheckAll(m, cfg, now).records)
  {
    hide Checked, RowOf, CheckedEvents, RunOk, AssetsApart;
    ApartKeys(m.active, m.records);
    CheckedKeys(m, cfg, now);
    var n := CheckAll(m, cfg, now);
    AdvanceActive(m.active, m.records, n.active, n.records);
  }

  lemma CheckAllRuns(m: Manager, cfg: Config, now: Time)
    requires RunsOk(m, cfg)
    requires forall id :: id in m.records ==> CheckOneOk(m, id, cfg, now)
    ensures RunsOk(CheckAll(m, cfg, now), cfg)
  {
    hide Checked, RunOk, RowOf, CheckedEvents;
  }

  lemma CheckedKeys(m: Manager, cfg: Config, now: Time)
    ensures m.events.Keys <= CheckedEvents(m, cfg, now).Keys
    ensures forall id :: id !in m.records ==> Log(CheckedEvents(m, cfg, now), id) == Log(m.events, id)
  {}

  ghost predicate CheckOneOk(m: Manager, id: RunId, cfg: Config, now: Time)
    requires id in m.records
  {
    var c := Checked(m.records[id], cfg, now);
    && RunOk(c.run, Log(CheckedEvents(m, cfg, now), id), cfg) && SameRun(m.records[id], c.run)
    && (m.records[id].status.Terminal() ==> c.run.status.Terminal())
    && Log(CheckedEvents(m, cfg, now), id) == After(Log(m.events, id), c)
  }

  lemma CheckOne(m: Manager, id: RunId, cfg: Config, now: Time)
    requires id in m.records && RunOk(m.records[id], Log(m.events, id), cfg) && cfg.limit >= 1
    ensures CheckOneOk(m, id, cfg, now)
  {
    hide Checked, RunOk, Insert, Numbered, SameRun;
    var r, log, c := m.records[id], Log(m.events, id), Checked(m.records[id], cfg, now);
    CheckedOk(r, log, cfg, now);
    CheckedFacts(r, cfg, now);
    Unpack(r, log, cfg);
    SameSelf(r);
    if c.event.Some? { InsertNext(log, c.event.value); }
  }

  lemma SameSelf(r: Run)
    ensures SameRun(r, r)
  {}

  /** What a crash between any two durable writes can leave behind. */
  ghost predicate StoredAll(rows: map<RunId, Run>, events: map<RunId, seq<Event>>) {
    && (forall id :: id in rows ==> rows[id].id == id && StoredOk(rows[id], Log(events, id)))
    && forall id :: id in rows ==>
         rows[id].attempt >= 1 &&
         (rows[id].parent.Some? ==>
            var p := rows[id].parent.value;
            p in events && (p in rows ==> rows[id].attempt == rows[p].attempt + 1))
  }

  lemma InvStored(m: Manager, cfg: Config)
    requires Inv(m, cfg)
    ensures StoredAll(m.rows, m.events)
  {}

  lemma RestartKeepsInv(rows: map<RunId, Run>, events: map<RunId, seq<Event>>, found: map<RunId, Published>,
                        setting: Option<Setting>, life: Lifecycle, cfg: Config, now: Time)
    requires StoredAll(rows, events) && cfg.limit >= 1
    ensures Inv(Restart(rows, events, found, setting, life, cfg, now), cfg)
    ensures forall id :: id in rows ==>
              Log(Restart(rows, events, found, setting, life, cfg, now).events, id)
              == After(Log(events, id), Restarted(rows[id], Log(events, id), Found(found, id), cfg, now))
    ensures forall id :: id !in rows ==> Log(Restart(rows, events, found, setting, life, cfg, now).events, id) == Log(events, id)
  {
    hide RunOk, RowOf, Restarted, StoredOk, RestartedEvents, RunsOk, Mirrored;
    var n := Restart(rows, events, found, setting, life, cfg, now);
    forall id | id in rows ensures RestartOneOk(rows, events, found, id, cfg, now) { RestartOne(rows, events, found, id, cfg, now); }
    RestartedKeys(rows, events, found, cfg, now);
    RestartRuns(rows, events, found, setting, life, cfg, now);
    assert ActiveOk(n.active, n.records);
    RestartLineage(rows, events, n);
  }

  lemma RestartRuns(rows: map<RunId, Run>, events: map<RunId, seq<Event>>, found: map<RunId, Published>,
                    setting: Option<Setting>, life: Lifecycle, cfg: Config, now: Time)
    requires forall id :: id in rows ==> rows[id].id == id && RestartOneOk(rows, events, found, id, cfg, now)
    ensures RunsOk(Restart(rows, events, found, setting, life, cfg, now), cfg)
    ensures Mirrored(Restart(rows, events, found, setting, life, cfg, now))
  {
    hide RunOk, RowOf, Restarted, RestartedEvents;
  }

  lemma RestartLineage(rows: map<RunId, Run>, events: map<RunId, seq<Event>>, n: Manager)
    requires StoredAll(rows, events) && n.records.Keys == rows.Keys && events.Keys <= n.events.Keys
    requires forall id :: id in rows ==> SameRun(rows[id], n.records[id])
    ensures LineageOk(n)
  {
    hide StoredOk;
  }

  lemma RestartedKeys(rows: map<RunId, Run>, events: map<RunId, seq<Event>>, found: map<RunId, Published>, cfg: Config, now: Time)
    ensures events.Keys <= RestartedEvents(rows, events, found, cfg, now).Keys
    ensures forall id :: id !in rows ==> Log(RestartedEvents(rows, events, found, cfg, now), id) == Log(events, id)
  {}

  ghost predicate RestartOneOk(rows: map<RunId, Run>, events: map<RunId, seq<Event>>, found: map<RunId, Published>,
                               id: RunId, cfg: Config, now: Time)
    requires id in rows
  {
    var o := Restarted(rows[id], Log(events, id), Found(found, id), cfg, now);
    var log := Log(RestartedEvents(rows, events, found, cfg, now), id);
    && RunOk(o.run, log, cfg) && SameRun(rows[id], o.run) && o.run.status.Terminal()
    && log == After(Log(events, id), o)
  }

  lemma RestartOne(rows: map<RunId, Run>, events: map<RunId, seq<Event>>, found: map<RunId, Published>,
                   id: RunId, cfg: Config, now: Time)
    requires id in rows && StoredOk(rows[id], Log(events, id)) && cfg.limit >= 1
    ensures RestartOneOk(rows, events, found, id, cfg, now)
  {
    hide Restarted, RunOk, Insert, StoredOk, Numbered, SameRun;
    RestartedOk(rows[id], Log(events, id), Found(found, id), cfg, now);
    StoredNumbered(rows[id], Log(events, id));
    var o := Restarted(rows[id], Log(events, id), Found(found, id), cfg, now);
    if o.event.Some? { InsertNext(Log(events, id), o.event.value); }
  }

  lemma StoredNumbered(row: Run, log: seq<Event>)
    requires StoredOk(row, log)
    ensures Numbered(log)
  {}

  /** Every legal step keeps the invariant. */
  lemma DoKeepsInv(m: Manager, op: Op, cfg: Config, now: Time)
    requires Inv(m, cfg) && Legal(m, op)
    ensures Inv(Do(m, op, cfg, now), cfg)
  {
    match op
    case Start(id, q) => StartKeepsInv(m, id, q, cfg, now);
    case Retry(parent, id, q) => RetryKeepsInv(m, parent, id, q, cfg, now);
    case On(id, a) => ActKeepsInv(m, id, a, cfg, now);
    case Watchdog => CheckAllKeepsInv(m, cfg, now);
    case Tidy => CleanupKeepsInv(m, cfg, now);
    case Configure(_) =>
    case ConfigureLife(_) =>
    case Reload(found) =>
      InvStored(m, cfg);
      RestartKeepsInv(m.rows, m.events, found, m.setting, m.life, cfg, now);
  }
}
