/** Recovery after a crash: what survives is the two tables and the disk, and the recovery itself may be cut off anywhere. */
module CrashRecovery {
  import opened Basics
  import opened Runs
  import opened RunInvariants
  import opened ManagerModel
  import opened ManagerInvariants
  import opened ManagerRestart
  import opened ManagerLoops

  // ---- directories ----

  datatype RunJson = NoFile | Unreadable | Metadata(status: string, signal: Option<string>, reportId: Option<string>)
  datatype Dir = Dir(report: bool, committed: bool, json: RunJson)
  datatype Place = Final(ticker: string, date: string, name: string) | Temp(ticker: string, date: string, name: string)
  type Disk = map<Place, Dir>
  datatype Orphan = Orphan(run: RunId, from: Place, dir: Dir)

  /** `is_gate_ready`. */
  predicate GateReady(disk: Disk, p: Place) {
    p in disk && disk[p].report && disk[p].committed && disk[p].json.Metadata? && disk[p].json.status == "completed"
  }

  function ReportId(r: Run): string { if r.reportId.Some? && r.reportId.value != "" then r.reportId.value else r.id.text }

  /** Recovery looks under the names as they are stored. */
  function RecoveryFinal(r: Run): Place { Final(r.request.ticker, r.request.date, ReportId(r)) }

  function RecoveryTemp(r: Run): Place { Temp(r.request.ticker, r.request.date, r.id.text) }

  // ---- recovery ----

  function FoundAt(disk: Disk, row: Run): Option<Published> {
    if !row.status.Publishing? || !GateReady(disk, RecoveryFinal(row)) then None
    else
      var json := disk[RecoveryFinal(row)].json;
      Some(Published(json.signal, if json.reportId.Some? && json.reportId.value != "" then json.reportId.value else ReportId(row)))
  }

  /** What recovery leaves on the disk and among the orphans. */
  datatype Site = Site(disk: Disk, orphans: seq<Orphan>)

  function Quarantine(s: Site, p: Place, id: RunId): Site {
    if p in s.disk then Site(s.disk - {p}, s.orphans + [Orphan(id, p, s.disk[p])]) else s
  }

  function RecoverDir(s: Site, row: Run): Site {
    if !row.status.Publishing? || GateReady(s.disk, RecoveryFinal(row)) then s
    else Quarantine(Quarantine(s, RecoveryFinal(row), row.id), RecoveryTemp(row), row.id)
  }

  /** The runs are recovered one after the other; `order` is the order in which the rows were read. */
  function RecoverDirs(s: Site, rows: map<RunId, Run>, order: seq<RunId>): Site
    requires forall i :: 0 <= i < |order| ==> order[i] in rows
  {
    if order == [] then s else RecoverDir(RecoverDirs(s, rows, order[..|order| - 1]), rows[order[|order| - 1]])
  }

  function FoundInTurn(s: Site, rows: map<RunId, Run>, order: seq<RunId>): map<RunId, Published>
    requires forall i :: 0 <= i < |order| ==> order[i] in rows
  {
    if order == [] then map[]
    else
      var rest, id := order[..|order| - 1], order[|order| - 1];
      var found := FoundAt(RecoverDirs(s, rows, rest).disk, rows[id]);
      if found.Some? then FoundInTurn(s, rows, rest)[id := found.value] else FoundInTurn(s, rows, rest)
  }

  predicate IsOrder(rows: map<RunId, Run>, order: seq<RunId>) {
    && (forall i :: 0 <= i < |order| ==> order[i] in rows) && (forall id :: id in rows ==> id in order)
    && forall i, j :: 0 <= i < j < |order| ==> order[i] != order[j]
  }

  /** The loop over the recoverable runs. */
  method RecoverPublishing(disk0: Disk, orphans0: seq<Orphan>, rows: map<RunId, Run>, order: seq<RunId>)
    returns (disk: Disk, orphans: seq<Orphan>, found: map<RunId, Published>)
    requires IsOrder(rows, order)
    ensures Site(disk, orphans) == RecoverDirs(Site(disk0, orphans0), rows, order)
    ensures found == FoundInTurn(Site(disk0, orphans0), rows, order)
  {
    disk, orphans, found := disk0, orphans0, map[];
    for k := 0 to |order|
      invariant Site(disk, orphans) == RecoverDirs(Site(disk0, orphans0), rows, order[..k])
      invariant found == FoundInTurn(Site(disk0, orphans0), rows, order[..k])
    {
      assert order[..k + 1][..k] == order[..k];
      var row := rows[order[k]];
      if row.status.Publishing? {
        var dir := RecoveryFinal(row);
        if GateReady(disk, dir) {
          var json := disk[dir].json;
          var report := if json.reportId.Some? && json.reportId.value != "" then json.reportId.value else ReportId(row);
          found := found[order[k] := Published(json.signal, report)];
        } else {
          if dir in disk {
            orphans := orphans + [Orphan(row.id, dir, disk[dir])];
            disk := disk - {dir};
          }
          var temp := RecoveryTemp(row);
          if temp in disk {
            orphans := orphans + [Orphan(row.id, temp, disk[temp])];
            disk := disk - {temp};
          }
        }
      }
    }
    assert order[..|order|] == order;
  }

  // ---- what recovery does to the disk ----

  /** Recovery never moves a directory that passes the gate, and creates none. */
  lemma {:induction false} RecoveryKeepsReady(s: Site, rows: map<RunId, Run>, order: seq<RunId>, p: Place)
    requires (forall i :: 0 <= i < |order| ==> order[i] in rows) && p.Final?
    ensures var t := RecoverDirs(s, rows, order);
            && (GateReady(t.disk, p) <==> GateReady(s.disk, p))
            && (GateReady(s.disk, p) ==> t.disk[p] == s.disk[p])
            && (forall q :: q in t.disk ==> q in s.disk && t.disk[q] == s.disk[q])
  {
    if order != [] { RecoveryKeepsReady(s, rows, order[..|order| - 1], p); }
  }

  /** So a run's own turn finds what was there before any turn: the order of recovery does not matter. */
  lemma {:induction false} FoundIsUpFront(s: Site, rows: map<RunId, Run>, order: seq<RunId>, id: RunId)
    requires (forall i :: 0 <= i < |order| ==> order[i] in rows) && id in rows
    requires forall i, j :: 0 <= i < j < |order| ==> order[i] != order[j]
    ensures Found(FoundInTurn(s, rows, order), id) == if id in order then FoundAt(s.disk, rows[id]) else None
  {
    if order != [] {
      var n := |order| - 1;
      FoundIsUpFront(s, rows, order[..n], id);
      assert order == order[..n] + [order[n]];
      RecoveryKeepsReady(s, rows, order[..n], RecoveryFinal(rows[order[n]]));
    }
  }

  /** A quarantined directory is an orphan with its content. */
  lemma {:induction false} NothingLost(s: Site, rows: map<RunId, Run>, order: seq<RunId>, p: Place)
    requires (forall i :: 0 <= i < |order| ==> order[i] in rows) && p in s.disk
    requires forall id :: id in rows ==> rows[id].id == id
    ensures var t := RecoverDirs(s, rows, order);
            && s.orphans <= t.orphans
            && (p !in t.disk ==> exists k :: |s.orphans| <= k < |t.orphans| && t.orphans[k].from == p && t.orphans[k].dir == s.disk[p])
  {
    if order != [] {
      var n := |order| - 1;
      NothingLost(s, rows, order[..n], p);
      RecoveryKeepsReady(s, rows, order[..n], Final("", "", ""));
      var u := RecoverDirs(s, rows, order[..n]);
      OneTurnLosesNothing(u, rows[order[n]], p);
    }
  }

  lemma OneTurnLosesNothing(u: Site, row: Run, p: Place)
    ensures var t := RecoverDir(u, row);
            u.orphans <= t.orphans
            && (p in u.disk && p !in t.disk ==>
                  exists k :: |u.orphans| <= k < |t.orphans| && t.orphans[k].from == p && t.orphans[k].dir == u.disk[p])
  {
    var t := RecoverDir(u, row);
    if p in u.disk && p !in t.disk {
      if p == RecoveryFinal(row) {
        assert t.orphans[|u.orphans|] == Orphan(row.id, p, u.disk[p]);
      } else {
        assert t.orphans[|t.orphans| - 1] == Orphan(row.id, p, u.disk[p]);
      }
    }
  }

  /** After its turn a run without a ready directory has neither a final nor a temporary one. */
  lemma {:induction false} MovedAway(s: Site, rows: map<RunId, Run>, order: seq<RunId>, id: RunId)
    requires (forall i :: 0 <= i < |order| ==> order[i] in rows) && id in order
    requires rows[id].status.Publishing? && !GateReady(s.disk, RecoveryFinal(rows[id]))
    ensures var t := RecoverDirs(s, rows, order); RecoveryFinal(rows[id]) !in t.disk && RecoveryTemp(rows[id]) !in t.disk
  {
    var n := |order| - 1;
    RecoveryKeepsReady(s, rows, order[..n], RecoveryFinal(rows[id]));
    if order[n] != id { MovedAway(s, rows, order[..n], id); }
  }

  lemma SiteAfterCrash(s: Site, rows: map<RunId, Run>, order: seq<RunId>, id: RunId)
    requires IsOrder(rows, order) && id in rows && rows[id].status.Publishing?
    ensures var t, row := RecoverDirs(s, rows, order), rows[id];
            && (id in FoundInTurn(s, rows, order) <==> GateReady(s.disk, RecoveryFinal(row)))
            && if GateReady(s.disk, RecoveryFinal(row))
               then RecoveryFinal(row) in t.disk && t.disk[RecoveryFinal(row)] == s.disk[RecoveryFinal(row)]
               else RecoveryFinal(row) !in t.disk && RecoveryTemp(row) !in t.disk
  {
    var row := rows[id];
    FoundIsUpFront(s, rows, order, id);
    RecoveryKeepsReady(s, rows, order, RecoveryFinal(row));
    if !GateReady(s.disk, RecoveryFinal(row)) { MovedAway(s, rows, order, id); }
  }

  // ---- what survives ----

  datatype Durable = Durable(rows: map<RunId, Run>, events: map<RunId, seq<Event>>, site: Site)

  ghost predicate Fit(d: Durable, cfg: Config) { StoredAll(d.rows, d.events) && cfg.limit >= 1 }

  /** What becomes of a run: ended runs stay, waiting runs are INTERRUPTED, and the gate decides the publishing ones. */
  function Verdict(row: Run, disk: Disk): Status {
    if row.status.Terminal() then row.status
    else if row.status.Waiting() then Interrupted
    else if GateReady(disk, RecoveryFinal(row)) then Completed else Failed
  }

  /** The event log of a run once it has been recovered: the missing end is added, and nothing else. */
  function FinalLog(row: Run, log: seq<Event>, disk: Disk): seq<Event> {
    if row.status.Terminal() then log else log + [Event(|log| + 1, Ended(Verdict(row, disk)))]
  }

  // ---- a whole recovery ----

  function Recover(d: Durable, order: seq<RunId>, setting: Option<Setting>, life: Lifecycle, cfg: Config, now: Time): Manager
    requires IsOrder(d.rows, order)
  {
    Restart(d.rows, d.events, FoundInTurn(d.site, d.rows, order), setting, life, cfg, now)
  }

  lemma RecoverAll(d: Durable, order: seq<RunId>, setting: Option<Setting>, life: Lifecycle, cfg: Config, now: Time)
    requires Fit(d, cfg) && IsOrder(d.rows, order)
    ensures var n := Recover(d, order, setting, life, cfg, now);
            Inv(n, cfg) && n.active == {} && n.records.Keys == d.rows.Keys
  {
    hide StoredAll, Restart, Inv, FoundInTurn, Resumed;
    RestartRefines(d.rows, d.events, FoundInTurn(d.site, d.rows, order), setting, life, cfg, now);
  }

  /** A whole recovery gives every run its verdict and its log. */
  lemma RecoverGives(d: Durable, order: seq<RunId>, id: RunId, setting: Option<Setting>, life: Lifecycle, cfg: Config, now: Time)
    requires Fit(d, cfg) && IsOrder(d.rows, order) && id in d.rows
    ensures var n, row := Recover(d, order, setting, life, cfg, now), d.rows[id];
            && id in n.records && SameRun(row, n.records[id])
            && n.records[id].status == Verdict(row, d.site.disk) && n.records[id].status.Terminal()
            && Log(n.events, id) == FinalLog(row, Log(d.events, id), d.site.disk)
  {
    hide StoredAll, Inv, RestartedEvents, FoundInTurn, Restarted, GateReady, RecoverDirs, StoredOk;
    var found := FoundInTurn(d.site, d.rows, order);
    StoredRow(d, id, cfg);
    RestartKeepsInv(d.rows, d.events, found, setting, life, cfg, now);
    RestartedOk(d.rows[id], Log(d.events, id), Found(found, id), cfg, now);
    if d.rows[id].status.Publishing? { SiteAfterCrash(d.site, d.rows, order, id); }
  }

  lemma StoredRow(d: Durable, id: RunId, cfg: Config)
    requires Fit(d, cfg) && id in d.rows
    ensures d.rows[id].id == id && StoredOk(d.rows[id], Log(d.events, id)) && cfg.limit >= 1
  {}

  // ---- a recovery cut off ----

  /** The steps recovery is made of. A failed publication is cleared of its directories before its end is stored; an ended
      run is normalized and, if its end is missing, given it. */
  datatype RecoveryStep = MoveFinal(id: RunId) | MoveTemp(id: RunId) | End(id: RunId, now: Time) | Mend(id: RunId, now: Time)

  predicate Lost(d: Durable, id: RunId) {
    id in d.rows && d.rows[id].status.Publishing? && !GateReady(d.site.disk, RecoveryFinal(d.rows[id]))
  }

  predicate Gone(disk: Disk, row: Run) { RecoveryFinal(row) !in disk && RecoveryTemp(row) !in disk }

  predicate Can(d: Durable, s: RecoveryStep) {
    && s.id in d.rows
    && match s
       case MoveFinal(id) => Lost(d, id)
       case MoveTemp(id) => Lost(d, id)
       case End(id, _) => !d.rows[id].status.Terminal() && (Lost(d, id) ==> Gone(d.site.disk, d.rows[id]))
       case Mend(id, _) => d.rows[id].status.Terminal()
  }

  function StoreOutcome(d: Durable, id: RunId, o: Outcome): Durable {
    d.(rows := d.rows[id := RowOf(o.run)], events := Store(d.events, id, o.event))
  }

  function Did(d: Durable, s: RecoveryStep, cfg: Config): Durable
    requires Can(d, s)
  {
    var row, log := d.rows[s.id], Log(d.events, s.id);
    match s
    case MoveFinal(id) => d.(site := Quarantine(d.site, RecoveryFinal(row), id))
    case MoveTemp(id) => d.(site := Quarantine(d.site, RecoveryTemp(row), id))
    case End(id, now) => StoreOutcome(d, id, Recovery(row, log, FoundAt(d.site.disk, row), cfg, now))
    case Mend(id, now) => StoreOutcome(d, id, Repair(Loaded(row, log, cfg), cfg, now))
  }

  /** What no step of a recovery changes for a run: who it is, its verdict, and its final log. */
  ghost predicate Kept(d: Durable, e: Durable, id: RunId) {
    && id in d.rows && id in e.rows && SameRun(d.rows[id], e.rows[id])
    && Verdict(e.rows[id], e.site.disk) == Verdict(d.rows[id], d.site.disk)
    && FinalLog(e.rows[id], Log(e.events, id), e.site.disk) == FinalLog(d.rows[id], Log(d.events, id), d.site.disk)
    && (e.rows[id] == d.rows[id] || e.rows[id].status.Terminal())
  }

  /** The disk only loses directories, and none that passes a gate. */
  ghost predicate DiskKept(before: Disk, after: Disk) {
    && (forall p :: p in after ==> p in before && after[p] == before[p])
    && (forall p: Place :: p.Final? && GateReady(before, p) ==> p in after)
  }

  lemma DiskKeptGate(before: Disk, after: Disk, p: Place)
    requires DiskKept(before, after) && p.Final?
    ensures GateReady(after, p) <==> GateReady(before, p)
    ensures GateReady(before, p) ==> p in before && p in after && after[p] == before[p]
  {}

  lemma StoredAgain(rows: map<RunId, Run>, events: map<RunId, seq<Event>>, id: RunId, row: Run, events': map<RunId, seq<Event>>)
    requires StoredAll(rows, events) && id in rows && SameRun(rows[id], row) && events.Keys <= events'.Keys
    requires StoredOk(row, Log(events', id)) && forall i :: i != id ==> Log(events', i) == Log(events, i)
    ensures StoredAll(rows[id := row], events')
  {
    hide StoredOk;
  }

  lemma EndedRow(d: Durable, id: RunId, o: Outcome, cfg: Config)
    requires Fit(d, cfg) && id in d.rows && SameRun(d.rows[id], o.run) && (o.event.Some? ==> o.event.value.no == |Log(d.events, id)| + 1)
    requires RunOk(o.run, After(Log(d.events, id), o), cfg) && o.run.status.Terminal()
    ensures var e := StoreOutcome(d, id, o);
            && Fit(e, cfg) && e.rows.Keys == d.rows.Keys && Log(e.events, id) == After(Log(d.events, id), o)
            && (forall i :: i != id ==> Log(e.events, i) == Log(d.events, i))
  {
    hide StoredAll, RunOk, Numbered, Store;
    var log := Log(d.events, id);
    assert Numbered(log) by { StoredRow(d, id, cfg); StoredNumbered(d.rows[id], log); }
    StoreLog(d.events, id, o.event);
    EndedStored(o.run, After(log, o), cfg);
    assert SameRun(d.rows[id], RowOf(o.run));
    assert Log(Store(d.events, id, o.event), id) == After(log, o);
    StoredAgain(d.rows, d.events, id, RowOf(o.run), Store(d.events, id, o.event));
  }

  lemma StoredNumbered(row: Run, log: seq<Event>)
    requires StoredOk(row, log)
    ensures Numbered(log)
  {}

  lemma EndedStored(r: Run, log: seq<Event>, cfg: Config)
    requires RunOk(r, log, cfg) && r.status.Terminal()
    ensures StoredOk(RowOf(r), log)
  {}

  lemma EndFacts(row: Run, log: seq<Event>, disk: Disk, cfg: Config, now: Time)
    requires StoredOk(row, log) && cfg.limit >= 1 && !row.status.Terminal()
    ensures var o := Recovery(row, log, FoundAt(disk, row), cfg, now);
            && RunOk(o.run, After(log, o), cfg) && SameRun(row, o.run) && o.run.status == Verdict(row, disk)
            && o.event == Some(Event(|log| + 1, Ended(Verdict(row, disk))))
  {
    hide Recovered, Newest, GateReady;
    LoadedRing(row, log, cfg);
    RecoveredOk(Loaded(row, log, cfg), log, FoundAt(disk, row), cfg, now);
  }

  lemma MendFacts(row: Run, log: seq<Event>, cfg: Config, now: Time)
    requires StoredOk(row, log) && cfg.limit >= 1 && row.status.Terminal()
    ensures var o := Repair(Loaded(row, log, cfg), cfg, now);
            RunOk(o.run, log, cfg) && SameRun(row, o.run) && o.run.status == row.status && o.event == None
  {
    hide Repaired, Normalized, Newest;
    LoadedRing(row, log, cfg);
    NormalizedOk(Loaded(row, log, cfg), log, cfg, now);
  }

  lemma PutKeeps(d: Durable, id: RunId, o: Outcome, cfg: Config)
    requires Fit(d, cfg) && id in d.rows && SameRun(d.rows[id], o.run) && (o.event.Some? ==> o.event.value.no == |Log(d.events, id)| + 1)
    requires RunOk(o.run, After(Log(d.events, id), o), cfg) && o.run.status == Verdict(d.rows[id], d.site.disk)
    requires After(Log(d.events, id), o) == FinalLog(d.rows[id], Log(d.events, id), d.site.disk)
    ensures var e := StoreOutcome(d, id, o); Fit(e, cfg) && e.rows.Keys == d.rows.Keys && forall i :: i in d.rows ==> Kept(d, e, i)
  {
    hide Fit, RunOk, Store, GateReady, RecoveryFinal;
    EndedRow(d, id, o, cfg);
    hide StoreOutcome;
    assert StoreOutcome(d, id, o).rows == d.rows[id := RowOf(o.run)] && StoreOutcome(d, id, o).site == d.site by { PutIs(d, id, o); }
    forall i | i in d.rows ensures Kept(d, StoreOutcome(d, id, o), i) {}
  }

  lemma PutIs(d: Durable, id: RunId, o: Outcome)
    ensures StoreOutcome(d, id, o).rows == d.rows[id := RowOf(o.run)] && StoreOutcome(d, id, o).site == d.site
  {}

  lemma MoveKeeps(d: Durable, p: Place, id: RunId, cfg: Config)
    requires Fit(d, cfg) && (p.Final? ==> !GateReady(d.site.disk, p))
    ensures var e := d.(site := Quarantine(d.site, p, id));
            Fit(e, cfg) && DiskKept(d.site.disk, e.site.disk) && forall i :: i in d.rows ==> Kept(d, e, i)
  {
    hide StoredAll;
    var e := d.(site := Quarantine(d.site, p, id));
    forall i | i in d.rows ensures Kept(d, e, i) { DiskKeptGate(d.site.disk, e.site.disk, RecoveryFinal(d.rows[i])); }
  }

  /** Every step of a recovery keeps the tables fit, every verdict and every final log, and every directory that passes a gate. */
  lemma StepKeeps(d: Durable, s: RecoveryStep, cfg: Config)
    requires Fit(d, cfg) && Can(d, s)
    ensures var e := Did(d, s, cfg);
            && Fit(e, cfg) && e.rows.Keys == d.rows.Keys && DiskKept(d.site.disk, e.site.disk)
            && forall id :: id in d.rows ==> Kept(d, e, id)
  {
    hide StoredAll, StoredOk, Recovery, Repair, RunOk, Kept, StoreOutcome;
    var row, log := d.rows[s.id], Log(d.events, s.id);
    StoredRow(d, s.id, cfg);
    match s
    case End(id, now) =>
      EndFacts(row, log, d.site.disk, cfg, now);
      PutKeeps(d, id, Recovery(row, log, FoundAt(d.site.disk, row), cfg, now), cfg);
      PutIs(d, id, Recovery(row, log, FoundAt(d.site.disk, row), cfg, now));
    case Mend(id, now) =>
      MendFacts(row, log, cfg, now);
      PutKeeps(d, id, Repair(Loaded(row, log, cfg), cfg, now), cfg);
      PutIs(d, id, Repair(Loaded(row, log, cfg), cfg, now));
    case MoveFinal(id) => MoveKeeps(d, RecoveryFinal(row), id, cfg);
    case MoveTemp(id) => MoveKeeps(d, RecoveryTemp(row), id, cfg);
  }

  /** One run's turn in the loop is its two moves, when there is something to clear. */
  lemma TurnIsSteps(d: Durable, id: RunId, cfg: Config)
    requires Fit(d, cfg) && Lost(d, id)
    ensures var e := Did(d, MoveFinal(id), cfg);
            Can(e, MoveTemp(id)) && Did(e, MoveTemp(id), cfg).site == RecoverDir(d.site, d.rows[id])
            && Gone(Did(e, MoveTemp(id), cfg).site.disk, d.rows[id])
  {
    StoredRow(d, id, cfg);
  }

  predicate CanAll(d: Durable, steps: seq<RecoveryStep>, cfg: Config)
    decreases |steps|
  {
    steps != [] ==> Can(d, steps[0]) && CanAll(Did(d, steps[0], cfg), steps[1..], cfg)
  }

  function DidAll(d: Durable, steps: seq<RecoveryStep>, cfg: Config): Durable
    requires CanAll(d, steps, cfg)
    decreases |steps|
  {
    if steps == [] then d else DidAll(Did(d, steps[0], cfg), steps[1..], cfg)
  }

  lemma KeptTwice(a: Durable, b: Durable, c: Durable, id: RunId)
    requires Kept(a, b, id) && Kept(b, c, id)
    ensures Kept(a, c, id)
  {
    hide FinalLog, GateReady, RecoveryFinal;
  }

  lemma DiskKeptTwice(a: Disk, b: Disk, c: Disk)
    requires DiskKept(a, b) && DiskKept(b, c)
    ensures DiskKept(a, c)
  {
    forall p: Place | p.Final? && GateReady(a, p) ensures p in c { DiskKeptGate(a, b, p); }
  }

  /** However many recoveries are cut off, and wherever, the tables stay fit and every run keeps its verdict, its final log, and
      the directory that passes its gate. */
  lemma {:induction false} DidAllKeeps(d: Durable, steps: seq<RecoveryStep>, cfg: Config)
    requires Fit(d, cfg) && CanAll(d, steps, cfg)
    ensures var e := DidAll(d, steps, cfg);
            && Fit(e, cfg) && e.rows.Keys == d.rows.Keys && DiskKept(d.site.disk, e.site.disk)
            && forall id :: id in d.rows ==> Kept(d, e, id)
    decreases |steps|
  {
    if steps == [] {
      forall id | id in d.rows ensures Kept(d, d, id) { assert SameRun(d.rows[id], d.rows[id]); }
    } else {
      hide Fit, Kept, DiskKept, Did, Can;
      var b := Did(d, steps[0], cfg);
      StepKeeps(d, steps[0], cfg);
      DidAllKeeps(b, steps[1..], cfg);
      var e := DidAll(b, steps[1..], cfg);
      DiskKeptTwice(d.site.disk, b.site.disk, e.site.disk);
      forall id | id in d.rows ensures Kept(d, e, id) { KeptTwice(d, b, e, id); }
    }
  }

  /** A failed publication keeps its row until its directories are gone; then they stay gone. */
  predicate Clearing(e: Durable, id: RunId, row: Run) { (id in e.rows && e.rows[id] == row && Lost(e, id)) || Gone(e.site.disk, row) }

  lemma ClearedStep(d: Durable, s: RecoveryStep, id: RunId, row: Run, cfg: Config)
    requires Fit(d, cfg) && Can(d, s) && Clearing(d, id, row)
    ensures Clearing(Did(d, s, cfg), id, row)
  {
    hide Fit, Recovery, Repair, GateReady, Kept, FinalLog, Verdict, StoredAll, Loaded, FoundAt, Store, RowOf;
    StepKeeps(d, s, cfg);
    DiskKeptGate(d.site.disk, Did(d, s, cfg).site.disk, RecoveryFinal(row));
  }

  lemma {:induction false} ClearedFirst(d: Durable, steps: seq<RecoveryStep>, id: RunId, row: Run, cfg: Config)
    requires Fit(d, cfg) && CanAll(d, steps, cfg) && Clearing(d, id, row)
    ensures Clearing(DidAll(d, steps, cfg), id, row)
    decreases |steps|
  {
    if steps != [] {
      hide Fit, Did, Can, Clearing, Kept;
      StepKeeps(d, steps[0], cfg);
      ClearedStep(d, steps[0], id, row, cfg);
      ClearedFirst(Did(d, steps[0], cfg), steps[1..], id, row, cfg);
    }
  }

  lemma RecoveredDisk(s: Site, rows: map<RunId, Run>, order: seq<RunId>)
    requires IsOrder(rows, order)
    ensures DiskKept(s.disk, RecoverDirs(s, rows, order).disk)
  {
    RecoveryKeepsReady(s, rows, order, Final("", "", ""));
    forall p: Place | p.Final? && GateReady(s.disk, p) ensures p in RecoverDirs(s, rows, order).disk {
      RecoveryKeepsReady(s, rows, order, p);
    }
  }

  lemma InterruptedDisk(d: Durable, steps: seq<RecoveryStep>, order: seq<RunId>, id: RunId, cfg: Config)
    requires Fit(d, cfg) && CanAll(d, steps, cfg) && IsOrder(d.rows, order) && id in d.rows
    ensures var row, e := d.rows[id], DidAll(d, steps, cfg);
            && IsOrder(e.rows, order)
            && var disk := RecoverDirs(e.site, e.rows, order).disk;
            && DiskKept(d.site.disk, disk) && (Lost(d, id) ==> Gone(disk, row))
  {
    var row, e := d.rows[id], DidAll(d, steps, cfg);
    DidAllKeeps(d, steps, cfg);
    hide Fit, DidAll, CanAll, GateReady, RecoverDirs, RecoveryFinal, RecoveryTemp, Kept;
    RecoveredDisk(e.site, e.rows, order);
    var disk := RecoverDirs(e.site, e.rows, order).disk;
    DiskKeptTwice(d.site.disk, e.site.disk, disk);
    if Lost(d, id) {
      ClearedFirst(d, steps, id, row, cfg);
      if !Gone(e.site.disk, row) { SiteAfterCrash(e.site, e.rows, order, id); }
    }
  }

  /** Crash consistency: after any number of recoveries cut off at any step, a complete one gives every run the verdict and the
      log that an undisturbed recovery would have given it. Directories that pass a gate are as they were, and those of a
      failed publication are gone. */
  lemma InterruptedRecovery(d: Durable, steps: seq<RecoveryStep>, order: seq<RunId>, id: RunId, setting: Option<Setting>, life: Lifecycle,
                            cfg: Config, now: Time)
    requires Fit(d, cfg) && CanAll(d, steps, cfg) && IsOrder(d.rows, order) && id in d.rows
    ensures var row, e := d.rows[id], DidAll(d, steps, cfg);
            && IsOrder(e.rows, order)
            && var n, disk := Recover(e, order, setting, life, cfg, now), RecoverDirs(e.site, e.rows, order).disk;
            && id in n.records && SameRun(row, n.records[id]) && n.records[id].status == Verdict(row, d.site.disk)
            && n.records[id].status.Terminal()
            && Log(n.events, id) == FinalLog(row, Log(d.events, id), d.site.disk)
            && DiskKept(d.site.disk, disk) && (Lost(d, id) ==> Gone(disk, row))
  {
    InterruptedDisk(d, steps, order, id, cfg);
    DidAllKeeps(d, steps, cfg);
    hide Fit, DidAll, CanAll, GateReady, RecoverDirs, Recover, FinalLog, Verdict, DiskKept, Lost, Gone, IsOrder;
    RecoverGives(DidAll(d, steps, cfg), order, id, setting, life, cfg, now);
  }

  /** Nothing is thrown away: a directory that has left the disk is an orphan with its content. */
  ghost predicate Saved(before: Site, after: Site, p: Place) {
    before.orphans <= after.orphans
    && (p in before.disk ==>
          || (p in after.disk && after.disk[p] == before.disk[p])
          || exists k :: |before.orphans| <= k < |after.orphans| && after.orphans[k].from == p && after.orphans[k].dir == before.disk[p])
  }

  lemma {:induction false} StepsLoseNothing(d: Durable, steps: seq<RecoveryStep>, p: Place, cfg: Config)
    requires CanAll(d, steps, cfg)
    ensures Saved(d.site, DidAll(d, steps, cfg).site, p)
    decreases |steps|
  {
    if steps != [] {
      var b := Did(d, steps[0], cfg);
      StepsLoseNothing(b, steps[1..], p, cfg);
      StepLosesNothing(d, steps[0], p, cfg);
      hide Did, Can, DidAll, CanAll;
      SavedTwice(d.site, b.site, DidAll(b, steps[1..], cfg).site, p);
    }
  }

  lemma StepLosesNothing(d: Durable, s: RecoveryStep, p: Place, cfg: Config)
    requires Can(d, s)
    ensures Saved(d.site, Did(d, s, cfg).site, p)
  {
    hide Recovery, Repair;
    var e := Did(d, s, cfg);
    if p in d.site.disk && p !in e.site.disk { assert e.site.orphans[|d.site.orphans|] == Orphan(s.id, p, d.site.disk[p]); }
  }

  lemma SavedTwice(a: Site, b: Site, c: Site, p: Place)
    requires Saved(a, b, p) && Saved(b, c, p)
    ensures Saved(a, c, p)
  {}
}
