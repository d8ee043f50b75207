/** What a crash leaves of a publication, file by file: the gate spelled out, and the result a completed run carries. */
module CrashResults {
  import opened Basics
  import opened Runs
  import opened RunInvariants
  import opened ManagerModel
  import opened ManagerInvariants
  import opened ManagerRestart
  import opened ManagerLoops
  import opened Endings
  import opened CrashRecovery
  import opened Publication

  // ---- files ----

  /** The directory holds the report, the marker, and a run.json that says completed, with this signal and report id. */
  predicate IsPublished(disk: Disk, p: Place, signal: Option<string>, reportId: Option<string>) {
    p in disk && disk[p].report == true && disk[p].committed == true && disk[p].json == Metadata("completed", signal, reportId)
  }

  lemma GateIff(disk: Disk, p: Place)
    ensures GateReady(disk, p) <==> exists signal, reportId :: IsPublished(disk, p, signal, reportId)
  {
    if GateReady(disk, p) { assert IsPublished(disk, p, disk[p].json.signal, disk[p].json.reportId); }
  }

  /** What one file step of a worker needs, and does: the directory is made empty unless it is there; then report, run.json, first
      without content, and marker are written one by one into it; it takes its final place only if nothing stands there; no
      other directory changes. */
  lemma FileStepIs(disk: Disk, temp: Place, final: Place, pc: Pc, signal: Option<string>, id: RunId, p: Place)
    requires temp != final
    ensures Raises(disk, temp, final, pc) <==>
            if pc == MakeDir || pc == Index || pc == Complete then false
            else if pc == CheckFree then final in disk
            else if pc == Rename then temp !in disk || final in disk
            else temp !in disk
    ensures !Raises(disk, temp, final, pc) ==>
            var after := Write(disk, temp, final, pc, signal, id);
            && (p != temp && p != final ==> (p in after <==> p in disk) && (p in disk ==> after[p] == disk[p]))
            && match pc
               case MakeDir => temp in after && after[temp] == if temp in disk then disk[temp] else Dir(false, false, NoFile)
               case WriteReport => after == disk[temp := Dir(true, disk[temp].committed, disk[temp].json)]
               case OpenJson => after == disk[temp := Dir(disk[temp].report, disk[temp].committed, Unreadable)]
               case WriteJson => after == disk[temp := Dir(disk[temp].report, disk[temp].committed, Metadata("completed", signal, Some(id.text)))]
               case Commit => after == disk[temp := Dir(disk[temp].report, true, disk[temp].json)]
               case CheckFree => after == disk
               case Rename => temp !in after && final in after && after[final] == disk[temp]
               case Index => after == disk
               case Complete => after == disk
  {}

  /** Recoveries that were cut off are taken step by step. */
  lemma {:induction false} StepsInTurn(d: Durable, steps: seq<RecoveryStep>, s: RecoveryStep, cfg: Config)
    requires CanAll(d, steps, cfg) && Can(DidAll(d, steps, cfg), s)
    ensures CanAll(d, steps + [s], cfg) && DidAll(d, steps + [s], cfg) == Did(DidAll(d, steps, cfg), s, cfg)
    decreases |steps|
  {
    hide Can, Did;
    if steps == [] {
      assert ([] + [s])[1..] == [];
    } else {
      StepsInTurn(Did(d, steps[0], cfg), steps[1..], s, cfg);
      assert (steps + [s])[1..] == steps[1..] + [s];
    }
  }

  // ---- names ----

  predicate LetterOrDigit(c: char) { var n := c as int; 48 <= n <= 57 || 65 <= n <= 90 || 97 <= n <= 122 }

  /** One to 128 ASCII letters, digits, points, underlines and dashes, a letter or digit first. */
  predicate PlainName(s: string) {
    && 0 < |s| < 129 && LetterOrDigit(s[0])
    && forall i :: 0 <= i < |s| ==> LetterOrDigit(s[i]) || s[i] in "._-"
  }

  lemma PlainNameIff(s: string)
    ensures SafeRunId(s) <==> PlainName(s)
  {
    assert "._-"[0] == '.' && "._-"[1] == '_' && "._-"[2] == '-';
  }

  /** After a crash a report that was already published is found exactly for plain names. */
  lemma FoundIffPlainName(w: World, steps: seq<RecoveryStep>, order: seq<RunId>, id: RunId, cfg: Config, now: Time, digest: string -> string)
    requires Inv(w.m, cfg) && LiveOk(w.m) && CanCrash(w, steps, order, cfg) && PlainDigest(digest)
    requires id in w.m.records && w.m.records[id].status.Publishing?
    requires GateReady(w.disk, WorkerFinal(w.m.records[id], digest))
    requires RecoveryFinal(w.m.records[id]) != WorkerFinal(w.m.records[id], digest) ==> RecoveryFinal(w.m.records[id]) !in w.disk
    ensures id in Crash(w, steps, order, cfg, now).m.records
    ensures Crash(w, steps, order, cfg, now).m.records[id].status == (if PlainName(id.text) then Completed else Failed)
  {
    hide Inv, LiveOk, CanCrash, PlainDigest, GateReady, RecoveryFinal, WorkerFinal, Crash, SafeRunId, PlainName;
    FoundIffSafeId(w, steps, order, id, cfg, now, digest);
    CrashConsistent(w, steps, order, id, cfg, now);
    PlainNameIff(id.text);
  }

  // ---- the result of a run ----

  datatype Result = Result(signal: Option<string>, reportId: Option<string>)

  /** The result a run has in the end: what its row says, unless its publication is found on the disk. */
  function ResultOf(row: Run, disk: Disk): Result {
    var p := RecoveryFinal(row);
    if row.status == Publishing && p in disk && disk[p].report && disk[p].committed && disk[p].json.Metadata? && disk[p].json.status == "completed"
    then Result(disk[p].json.signal,
                if disk[p].json.reportId.Some? && disk[p].json.reportId.value != "" then disk[p].json.reportId else Some(ReportId(row)))
    else Result(row.signal, if row.status == Completed && row.reportId.None? then Some(row.id.text) else row.reportId)
  }

  lemma EndKeepsResult(row: Run, log: seq<Event>, disk: Disk, cfg: Config, now: Time)
    requires !row.status.Terminal()
    ensures ResultOf(RowOf(Recovery(row, log, FoundAt(disk, row), cfg, now).run), disk) == ResultOf(row, disk)
  {
    hide Recovered, Replayed, MaxNext;
    RecoveryCarries(Loaded(row, log, cfg), FoundAt(disk, row), cfg, now);
  }

  lemma MendKeepsResult(row: Run, log: seq<Event>, disk: Disk, cfg: Config, now: Time)
    requires row.status.Terminal()
    ensures ResultOf(RowOf(Repair(Loaded(row, log, cfg), cfg, now).run), disk) == ResultOf(row, disk)
  {
    hide Repaired, Normalized, Replayed, MaxNext;
    var r := Loaded(row, log, cfg);
    NormalCarries(r, cfg, now);
    RepairCarries(Normalized(r, cfg, now), cfg);
    NormalSame(r, cfg, now);
  }

  lemma NormalSame(r: Run, cfg: Config, now: Time)
    ensures Normalized(r, cfg, now).id == r.id
  {}

  lemma DiskKeepsResult(row: Run, before: Disk, after: Disk)
    requires DiskKept(before, after)
    ensures ResultOf(row, after) == ResultOf(row, before)
  {
    DiskKeptGate(before, after, RecoveryFinal(row));
  }

  lemma StepKeepsResult(d: Durable, s: RecoveryStep, id: RunId, cfg: Config)
    requires Fit(d, cfg) && Can(d, s) && id in d.rows
    ensures var e := Did(d, s, cfg); id in e.rows && ResultOf(e.rows[id], e.site.disk) == ResultOf(d.rows[id], d.site.disk)
  {
    hide Fit, ResultOf, DiskKept, Kept, Recovery, Repair, FoundAt, GateReady, Loaded, RowOf, Store;
    StepKeeps(d, s, cfg);
    var row, log := d.rows[s.id], Log(d.events, s.id);
    match s
    case End(i, now) => EndKeepsResult(row, log, d.site.disk, cfg, now);
    case Mend(i, now) => MendKeepsResult(row, log, d.site.disk, cfg, now);
    case MoveFinal(_) => DiskKeepsResult(d.rows[id], d.site.disk, Did(d, s, cfg).site.disk);
    case MoveTemp(_) => DiskKeepsResult(d.rows[id], d.site.disk, Did(d, s, cfg).site.disk);
  }

  lemma {:induction false} StepsKeepResult(d: Durable, steps: seq<RecoveryStep>, id: RunId, cfg: Config)
    requires Fit(d, cfg) && CanAll(d, steps, cfg) && id in d.rows
    ensures var e := DidAll(d, steps, cfg); id in e.rows && ResultOf(e.rows[id], e.site.disk) == ResultOf(d.rows[id], d.site.disk)
    decreases |steps|
  {
    if steps != [] {
      hide Fit, ResultOf, Did, Can, Kept, DiskKept;
      StepKeeps(d, steps[0], cfg);
      StepKeepsResult(d, steps[0], id, cfg);
      StepsKeepResult(Did(d, steps[0], cfg), steps[1..], id, cfg);
    }
  }

  lemma RecoverGivesResult(d: Durable, order: seq<RunId>, id: RunId, setting: Option<Setting>, life: Lifecycle, cfg: Config, now: Time)
    requires Fit(d, cfg) && IsOrder(d.rows, order) && id in d.rows
    ensures var n := Recover(d, order, setting, life, cfg, now);
            id in n.records && Result(n.records[id].signal, n.records[id].reportId) == ResultOf(d.rows[id], d.site.disk)
  {
    hide Fit, FoundInTurn, RestartedEvents, Restarted;
    FoundIsUpFront(d.site, d.rows, order, id);
    assert Recover(d, order, setting, life, cfg, now).records[id]
        == Restarted(d.rows[id], Log(d.events, id), FoundAt(d.site.disk, d.rows[id]), cfg, now).run;
    ReloadCarries(d.rows[id], Log(d.events, id), FoundAt(d.site.disk, d.rows[id]), cfg, now);
  }

  /** Whatever recoveries a crash leads to, cut off or not: in the end every run has the result its row and the disk had. */
  lemma CrashKeepsResult(w: World, steps: seq<RecoveryStep>, order: seq<RunId>, id: RunId, cfg: Config, now: Time)
    requires Inv(w.m, cfg) && CanCrash(w, steps, order, cfg) && id in w.m.records
    ensures var n := Crash(w, steps, order, cfg, now).m;
            && id in w.m.rows && id in n.records
            && Result(n.records[id].signal, n.records[id].reportId) == ResultOf(w.m.rows[id], w.disk)
  {
    hide Inv, Fit, ResultOf, DidAll, CanAll, Recover, RecoverDirs, IsOrder;
    DurableFit(w.m, w.disk, w.orphans, cfg);
    StepsKeepResult(DurableOf(w), steps, id, cfg);
    DidAllKeeps(DurableOf(w), steps, cfg);
    RecoverGivesResult(DidAll(DurableOf(w), steps, cfg), order, id, w.m.setting, w.m.life, cfg, now);
  }

  /** The decision of a crash, file by file: a run that was PUBLISHING is COMPLETED, with that result, exactly if the directory
      under its id holds report, marker and a run.json that says completed; otherwise it is FAILED. */
  lemma CrashDecides(w: World, steps: seq<RecoveryStep>, order: seq<RunId>, id: RunId, cfg: Config, now: Time)
    requires Inv(w.m, cfg) && LiveOk(w.m) && CanCrash(w, steps, order, cfg)
    requires id in w.m.records && w.m.records[id].status == Publishing
    ensures id in Crash(w, steps, order, cfg, now).m.records
    ensures var r := Crash(w, steps, order, cfg, now).m.records[id];
            var q := w.m.records[id].request;
            var p := Final(q.ticker, q.date, id.text);
            && (r.status == Completed <==> exists signal, reportId :: IsPublished(w.disk, p, signal, reportId))
            && (r.status == Completed || r.status == Failed)
            && (forall signal, reportId :: IsPublished(w.disk, p, signal, reportId) ==>
                  r.signal == signal && r.reportId == (if reportId == None || reportId == Some("") then Some(id.text) else reportId))
  {
    hide Inv, LiveOk, CanCrash, Crash, GateReady, ResultOf;
    var place := PublishingRow(w, id, cfg);
    CrashConsistent(w, steps, order, id, cfg, now);
    CrashKeepsResult(w, steps, order, id, cfg, now);
    GateIff(w.disk, place);
    ResultIs(w.m.rows[id], w.disk, place);
  }

  /** A publishing run has no report id yet, so it is looked for under its own. */
  lemma PublishingRow(w: World, id: RunId, cfg: Config) returns (place: Place)
    requires Inv(w.m, cfg) && LiveOk(w.m) && id in w.m.records && w.m.records[id].status == Publishing
    ensures var q := w.m.records[id].request; place == Final(q.ticker, q.date, id.text)
    ensures place == RecoveryFinal(w.m.records[id])
    ensures id in w.m.rows && w.m.rows[id].status == Publishing && RecoveryFinal(w.m.rows[id]) == place && ReportId(w.m.rows[id]) == id.text
  {
    OwnId(w.m, id, cfg);
    RowIs(w.m, id, cfg);
    LiveOne(w.m, id);
    hide Inv, LiveOk;
    place := RecoveryFinal(w.m.records[id]);
  }

  lemma ResultIs(row: Run, disk: Disk, p: Place)
    requires row.status == Publishing && p == RecoveryFinal(row)
    ensures forall signal, reportId :: IsPublished(disk, p, signal, reportId) ==>
              ResultOf(row, disk) == Result(signal, if reportId == None || reportId == Some("") then Some(ReportId(row)) else reportId)
  {}

  /** A worker that had renamed its directory when the process died leaves a COMPLETED run with its signal and id. */
  lemma RenamedKeepsResult(w: World, steps: seq<RecoveryStep>, order: seq<RunId>, id: RunId, cfg: Config, now: Time, digest: string -> string)
    requires Inv(w.m, cfg) && WorkersOk(w, digest) && CanCrash(w, steps, order, cfg) && id in w.workers
    requires w.workers[id].pc == Index || w.workers[id].pc == Complete
    ensures var n := Crash(w, steps, order, cfg, now).m;
            && id in n.records && n.records[id].status == Completed
            && n.records[id].signal == w.workers[id].signal && n.records[id].reportId == Some(id.text)
  {
    hide Inv, CanCrash, Crash, LiveOk;
    assert WorkerOk(w, id, digest) && SafeRunId(id.text) && id.text != "";
    var q := w.m.records[id].request;
    assert IsPublished(w.disk, Final(q.ticker, q.date, id.text), w.workers[id].signal, Some(id.text));
    CrashDecides(w, steps, order, id, cfg, now);
  }

  /** And one that reports its completion itself does the same. */
  lemma ReportedKeepsResult(w: World, id: RunId, cfg: Config, now: Time, digest: string -> string)
    requires WorkersOk(w, digest) && id in w.workers && w.workers[id].pc == Complete
    ensures var n := WorkerStep(w, id, true, cfg, now, digest).m;
            && id in n.records && n.records[id].status == Completed
            && n.records[id].signal == w.workers[id].signal && n.records[id].reportId == Some(id.text)
  {
    assert WorkerOk(w, id, digest);
    OnDiskFacts(w.disk, WorkerTemp(w.m.records[id], digest), WorkerFinal(w.m.records[id], digest), w.workers[id], id);
    hide OnDisk, GateReady, Step, LiveOk, SafeIds, RowOf, Store;
    CompletesNow(w.m.records[id], w.workers[id].signal, id.text, cfg, now);
  }

  lemma CompletesNow(r: Run, signal: Option<string>, reportId: string, cfg: Config, now: Time)
    requires r.status == Publishing
    ensures EndsComplete(Step(r, Action.CompletePublishing(true, signal, reportId), cfg, now).run, signal, reportId)
  {
    hide Finish;
    FinishCarries(r, {Publishing}, Completed, CompletedReason, false, signal, Some(reportId), cfg, now);
  }
}
