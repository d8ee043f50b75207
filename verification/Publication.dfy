/** Crash-safe publication: a worker writes a report next to its final place, marks it committed, renames it and
    reports completion; after a crash the manager decides each publishing run by the gate on its final directory. */
module Publication {
  import opened Basics
  import opened Runs
  import opened RunInvariants
  import opened ManagerModel
  import opened ManagerInvariants
  import opened ManagerRestart
  import opened ManagerTraces
  import opened CrashRecovery

  // ---- names ----

  predicate Alnum(c: char) { 'a' <= c <= 'z' || 'A' <= c <= 'Z' || '0' <= c <= '9' }

  predicate SafeRunId(s: string) {
    1 <= |s| <= 128 && Alnum(s[0]) && forall i :: 0 <= i < |s| ==> Alnum(s[i]) || s[i] == '.' || s[i] == '_' || s[i] == '-'
  }

  /** `_safe_run_id_component`: an id that is no safe path component is replaced by a digest of it. */
  function SafeName(id: string, digest: string -> string): string {
    if SafeRunId(id) then id else "run-" + digest(id)
  }

  function WorkerFinal(r: Run, digest: string -> string): Place {
    Final(r.request.ticker, r.request.date, SafeName(r.id.text, digest))
  }

  function WorkerTemp(r: Run, digest: string -> string): Place {
    Temp(r.request.ticker, r.request.date, SafeName(r.id.text, digest))
  }

  // ---- the worker ----

  datatype Pc = MakeDir | WriteReport | OpenJson | WriteJson | Commit | CheckFree | Rename | Index | Complete
  {
    function Next(): Pc {
      match this
      case MakeDir => WriteReport
      case WriteReport => OpenJson
      case OpenJson => WriteJson
      case WriteJson => Commit
      case Commit => CheckFree
      case CheckFree => Rename
      case Rename => Index
      case Index => Complete
      case Complete => Complete
    }

    function Rank(): nat {
      match this
      case MakeDir => 0
      case WriteReport => 1
      case OpenJson => 2
      case WriteJson => 3
      case Commit => 4
      case CheckFree => 5
      case Rename => 6
      case Index => 7
      case Complete => 8
    }
  }

  datatype Worker = Worker(pc: Pc, signal: Option<string>)

  datatype World = World(m: Manager, disk: Disk, orphans: seq<Orphan>, workers: map<RunId, Worker>)

  /** A step on a missing directory raises, and so do the check for a report that is already there and a rename onto it. */
  predicate Raises(disk: Disk, temp: Place, final: Place, pc: Pc) {
    match pc
    case MakeDir => false
    case CheckFree => final in disk
    case Index => false
    case Complete => false
    case Rename => temp !in disk || final in disk
    case _ => temp !in disk
  }

  function Write(disk: Disk, temp: Place, final: Place, pc: Pc, signal: Option<string>, id: RunId): Disk
    requires !Raises(disk, temp, final, pc)
  {
    match pc
    case MakeDir => if temp in disk then disk else disk[temp := Dir(false, false, NoFile)]
    case WriteReport => disk[temp := disk[temp].(report := true)]
    case OpenJson => disk[temp := disk[temp].(json := Unreadable)]
    case WriteJson => disk[temp := disk[temp].(json := Metadata("completed", signal, Some(id.text)))]
    case Commit => disk[temp := disk[temp].(committed := true)]
    case Rename => (disk - {temp})[final := disk[temp]]
    case _ => disk
  }

  /** One step of the publishing part of `worker`; `ok` is false when the step itself raises. */
  function WorkerStep(w: World, id: RunId, ok: bool, cfg: Config, now: Time, digest: string -> string): World
    requires id in w.workers && id in w.m.records
  {
    var r, pc := w.m.records[id], w.workers[id].pc;
    var temp, final := WorkerTemp(r, digest), WorkerFinal(r, digest);
    if !ok || Raises(w.disk, temp, final, pc) then
      w.(m := Act(w.m, id, FailRun(PublishIncomplete, false), cfg, now), workers := w.workers - {id})
    else if pc.Complete? then
      w.(m := Act(w.m, id, CompletePublishing(GateReady(w.disk, final), w.workers[id].signal, id.text), cfg, now),
         workers := w.workers - {id})
    else
      w.(disk := Write(w.disk, temp, final, pc, w.workers[id].signal, id), workers := w.workers[id := Worker(pc.Next(), w.workers[id].signal)])
  }

  /** `begin_publishing`; the worker goes on only if that made the run PUBLISHING. */
  function BeginWorker(w: World, id: RunId, signal: Option<string>, cfg: Config, now: Time): World
    requires id in w.m.records
  {
    var m := Act(w.m, id, BeginPublishing, cfg, now);
    w.(m := m, workers := if m.records[id].status.Publishing? then w.workers[id := Worker(MakeDir, signal)] else w.workers)
  }

  // ---- crashes ----

  function DurableOf(w: World): Durable { Durable(w.m.rows, w.m.events, Site(w.disk, w.orphans)) }

  /** What may be crashed into: some steps of interrupted recoveries, then a complete one over all rows. */
  predicate CanCrash(w: World, steps: seq<RecoveryStep>, order: seq<RunId>, cfg: Config) {
    CanAll(DurableOf(w), steps, cfg) && IsOrder(w.m.rows, order) && IsOrder(DidAll(DurableOf(w), steps, cfg).rows, order)
  }

  /** The process dies between any two steps; workers are gone, the disk and the tables stay. `steps` are those of recoveries
      that were cut off in their turn, before the one that completes. */
  function Crash(w: World, steps: seq<RecoveryStep>, order: seq<RunId>, cfg: Config, now: Time): World
    requires CanCrash(w, steps, order, cfg)
  {
    var d := DidAll(DurableOf(w), steps, cfg);
    var s := RecoverDirs(d.site, d.rows, order);
    World(Recover(d, order, w.m.setting, w.m.life, cfg, now), s.disk, s.orphans, map[])
  }

  lemma DurableFit(m: Manager, disk: Disk, orphans: seq<Orphan>, cfg: Config)
    requires Inv(m, cfg)
    ensures Fit(Durable(m.rows, m.events, Site(disk, orphans)), cfg) && m.rows.Keys == m.records.Keys
    ensures forall id :: id in m.records ==> m.rows[id] == RowOf(m.records[id]) && m.records[id].id == id
  {
    InvStored(m, cfg);
  }

  lemma CrashInv(w: World, steps: seq<RecoveryStep>, order: seq<RunId>, cfg: Config, now: Time)
    requires Inv(w.m, cfg) && CanCrash(w, steps, order, cfg)
    ensures var v := Crash(w, steps, order, cfg, now);
            Inv(v.m, cfg) && v.m.active == {} && v.m.records.Keys == w.m.records.Keys && DiskKept(w.disk, v.disk)
  {
    hide Inv, Fit, DidAll, CanAll, Recover, RecoverDirs, DiskKept;
    DurableFit(w.m, w.disk, w.orphans, cfg);
    DidAllKeeps(DurableOf(w), steps, cfg);
    var d := DidAll(DurableOf(w), steps, cfg);
    RecoverAll(d, order, w.m.setting, w.m.life, cfg, now);
    RecoveredDisk(d.site, d.rows, order);
    DiskKeptTwice(w.disk, d.site.disk, RecoverDirs(d.site, d.rows, order).disk);
  }

  lemma CrashOne(w: World, steps: seq<RecoveryStep>, order: seq<RunId>, id: RunId, cfg: Config, now: Time)
    requires Inv(w.m, cfg) && CanCrash(w, steps, order, cfg) && id in w.m.records
    ensures var r, v := w.m.records[id], Crash(w, steps, order, cfg, now);
            && id in v.m.records && SameRun(r, v.m.records[id]) && v.m.records[id].status == Verdict(RowOf(r), w.disk)
            && v.m.records[id].status.Terminal()
            && Log(v.m.events, id) == FinalLog(RowOf(r), Log(w.m.events, id), w.disk)
            && (r.status.Publishing? && !GateReady(w.disk, RecoveryFinal(r)) ==> Gone(v.disk, r))
  {
    hide Inv, Fit, DidAll, CanAll, IsOrder, Recover, RecoverDirs, DiskKept, Verdict, FinalLog, GateReady;
    DurableFit(w.m, w.disk, w.orphans, cfg);
    InterruptedRecovery(DurableOf(w), steps, order, id, w.m.setting, w.m.life, cfg, now);
    SamePlaces(w.m.records[id]);
  }

  lemma SamePlaces(r: Run)
    ensures RecoveryFinal(RowOf(r)) == RecoveryFinal(r) && RecoveryTemp(RowOf(r)) == RecoveryTemp(r)
  {}

  /** Crash consistency: whatever step the crash interrupts, and wherever the recoveries after it are cut off, in the end
      every run has ended, nothing is PUBLISHING, and a run that was PUBLISHING is COMPLETED exactly when its final directory
      passes the gate; otherwise it is FAILED and its directories have been moved away. */
  lemma CrashConsistent(w: World, steps: seq<RecoveryStep>, order: seq<RunId>, id: RunId, cfg: Config, now: Time)
    requires Inv(w.m, cfg) && CanCrash(w, steps, order, cfg) && id in w.m.records
    ensures var r, v := w.m.records[id], Crash(w, steps, order, cfg, now);
            && Inv(v.m, cfg) && v.m.active == {} && id in v.m.records && v.m.records[id].status.Terminal()
            && Log(v.m.events, id) == (if r.status.Terminal() then Log(w.m.events, id)
                                       else Log(w.m.events, id) + [Event(|Log(w.m.events, id)| + 1, Ended(v.m.records[id].status))])
            && (r.status.Publishing? ==>
                  if GateReady(w.disk, RecoveryFinal(r))
                  then v.m.records[id].status.Completed? && RecoveryFinal(r) in v.disk
                       && v.disk[RecoveryFinal(r)] == w.disk[RecoveryFinal(r)]
                  else v.m.records[id].status.Failed? && RecoveryFinal(r) !in v.disk && RecoveryTemp(r) !in v.disk)
  {
    hide Inv, Fit, CanCrash, DidAll, CanAll, IsOrder, Crash, GateReady, DiskKept;
    CrashInv(w, steps, order, cfg, now);
    CrashOne(w, steps, order, id, cfg, now);
    SamePlaces(w.m.records[id]);
    DiskKeptGate(w.disk, Crash(w, steps, order, cfg, now).disk, RecoveryFinal(w.m.records[id]));
  }

  // ---- histories ----

  datatype Move =
    | Begin(id: RunId, signal: Option<string>)
    | Advance(id: RunId, ok: bool)
    | Other(op: Op)
    | Die(steps: seq<RecoveryStep>, order: seq<RunId>)
  datatype Clocked = Clocked(now: Time, move: Move)

  /** What the rest of the program may do to a run: a publication is begun and ended by its own worker, and nothing completes a
      run past the gate. Anything else goes, failing a run before it publishes included. */
  predicate QuietAction(s: Status, a: Action) {
    match a
    case BeginPublishing => !s.Running?
    case CompletePublishing(_, _, _) => !s.Publishing?
    case CompleteRun(_, _) => s.Terminal()
    case FailRun(_, _) => !s.Publishing?
    case _ => true
  }

  predicate Quiet(m: Manager, op: Op) {
    !op.Reload? && (op.On? && op.id in m.records ==> QuietAction(m.records[op.id].status, op.action))
  }

  predicate Allowed(w: World, move: Move, cfg: Config) {
    match move
    case Begin(id, _) => id in w.m.records && id !in w.workers && !w.m.records[id].status.Publishing?
    case Advance(id, _) => id in w.workers && id in w.m.records
    case Other(op) => Legal(w.m, op) && Quiet(w.m, op)
    case Die(steps, order) => CanCrash(w, steps, order, cfg)
  }

  function Played(w: World, move: Move, cfg: Config, now: Time, digest: string -> string): World
    requires Allowed(w, move, cfg)
  {
    match move
    case Begin(id, signal) => BeginWorker(w, id, signal, cfg, now)
    case Advance(id, ok) => WorkerStep(w, id, ok, cfg, now, digest)
    case Other(op) => w.(m := Do(w.m, op, cfg, now))
    case Die(steps, order) => Crash(w, steps, order, cfg, now)
  }

  predicate AllowedAll(w: World, moves: seq<Clocked>, cfg: Config, digest: string -> string)
    decreases |moves|
  {
    moves != [] ==>
      Allowed(w, moves[0].move, cfg) && AllowedAll(Played(w, moves[0].move, cfg, moves[0].now, digest), moves[1..], cfg, digest)
  }

  function Play(w: World, moves: seq<Clocked>, cfg: Config, digest: string -> string): World
    requires AllowedAll(w, moves, cfg, digest)
    decreases |moves|
  {
    if moves == [] then w else Play(Played(w, moves[0].move, cfg, moves[0].now, digest), moves[1..], cfg, digest)
  }

  /** A call of the manager on one run: the others stay, this one follows the diagram. */
  lemma ActOne(m: Manager, i: RunId, a: Action, id: RunId, cfg: Config, now: Time)
    requires Inv(m, cfg)
    ensures var n := Act(m, i, a, cfg, now);
            && n.records.Keys == m.records.Keys
            && (id in m.records ==>
                  && n.records[id].id == m.records[id].id && n.records[id].request == m.records[id].request
                  && (i != id ==> n.records[id] == m.records[id])
                  && (i == id ==> n.records[id].status
                                  == NextStatus(if Checks(a) then Checked(m.records[id], cfg, now).run.status else m.records[id].status, a)))
  {
    hide Inv, Step, Checked, NextStatus, RowOf, Store;
    if id in m.records { StepMoves(m.records[id], a, cfg, now); }
  }

  lemma CheckedStatus(r: Run, cfg: Config, now: Time)
    ensures var s := Checked(r, cfg, now).run.status;
            (s.Completed? <==> r.status.Completed?) && (s.Publishing? <==> r.status.Publishing?) && (r.status.Terminal() ==> s == r.status)
  {
    hide Checked;
    CheckedFacts(r, cfg, now);
    if !r.status.Waiting() { CheckedNotWaiting(r, cfg, now); }
  }

  lemma CheckedNotWaiting(r: Run, cfg: Config, now: Time)
    requires !r.status.Waiting()
    ensures Checked(r, cfg, now) == Outcome(r, None, false)
  {}

  lemma CheckedRunning(r: Run, cfg: Config, now: Time)
    ensures Checked(r, cfg, now).run.status.Running? ==> r.status.Running?
  {
    hide Checked;
    CheckedFacts(r, cfg, now);
  }

  /** Nothing the rest of the program does completes a run, or begins or ends a publication. */
  lemma OtherRuns(m: Manager, op: Op, id: RunId, cfg: Config, now: Time)
    requires Inv(m, cfg) && Legal(m, op) && Quiet(m, op) && id in Do(m, op, cfg, now).records
    ensures var q := Do(m, op, cfg, now).records[id];
            if id in m.records
            then q.id == m.records[id].id && q.request == m.records[id].request
                 && (q.status.Completed? <==> m.records[id].status.Completed?)
                 && (q.status.Publishing? <==> m.records[id].status.Publishing?)
            else q.status.Queued?
  {
    hide Inv, Do, Legal, Step, QuietAction;
    if id in m.records {
      StartedIsFresh(m, op, id, cfg, now);
      var a := OwnStep(m, op, id, cfg, now);
      CheckIsQuiet(m.records[id].status);
      if a.Some? { QuietStep(m.records[id], a.value, cfg, now); }
    } else {
      NewIsQueued(m, op, id, cfg, now);
    }
  }

  lemma CheckIsQuiet(s: Status)
    ensures QuietAction(s, Check)
  {}

  lemma QuietStep(r: Run, a: Action, cfg: Config, now: Time)
    requires QuietAction(r.status, a)
    ensures var q := Step(r, a, cfg, now).run;
            q.id == r.id && q.request == r.request && (q.status.Completed? <==> r.status.Completed?)
            && (q.status.Publishing? <==> r.status.Publishing?)
  {
    hide Step, Checked;
    StepMoves(r, a, cfg, now);
    CheckedStatus(r, cfg, now);
    CheckedRunning(r, cfg, now);
  }

  lemma NewIsQueued(m: Manager, op: Op, id: RunId, cfg: Config, now: Time)
    requires !op.Reload? && id !in m.records && id in Do(m, op, cfg, now).records
    ensures Do(m, op, cfg, now).records[id].status.Queued?
  {
    hide Step, Checked, RowOf, Insert, Admission;
  }

  lemma PlayedInv(w: World, move: Move, cfg: Config, now: Time, digest: string -> string)
    requires Inv(w.m, cfg) && Allowed(w, move, cfg)
    ensures Inv(Played(w, move, cfg, now, digest).m, cfg)
  {
    hide Inv, Act, Do, Raises, Write, Crash, CanCrash;
    match move
    case Begin(id, _) => ActKeepsInv(w.m, id, BeginPublishing, cfg, now);
    case Advance(id, ok) =>
      var final := WorkerFinal(w.m.records[id], digest);
      ActKeepsInv(w.m, id, FailRun(PublishIncomplete, false), cfg, now);
      ActKeepsInv(w.m, id, CompletePublishing(GateReady(w.disk, final), w.workers[id].signal, id.text), cfg, now);
    case Other(op) => DoKeepsInv(w.m, op, cfg, now);
    case Die(steps, order) => CrashInv(w, steps, order, cfg, now);
  }

  // ---- report ids ----

  /** Report ids are given on completion only. */
  ghost predicate LiveOk(m: Manager) {
    forall id :: id in m.records && !m.records[id].status.Terminal() ==> m.records[id].reportId.None?
  }

  lemma StepKeepsReportId(r: Run, a: Action, cfg: Config, now: Time)
    requires r.reportId.None?
    ensures var q := Step(r, a, cfg, now).run; q.status.Terminal() || q.reportId.None?
  {
    hide Checked, Finish;
    CheckedFacts(r, cfg, now);
    StepMoves(r, a, cfg, now);
  }

  lemma OtherLive(m: Manager, op: Op, id: RunId, cfg: Config, now: Time)
    requires Inv(m, cfg) && Legal(m, op) && !op.Reload? && LiveOk(m) && id in Do(m, op, cfg, now).records
    ensures var q := Do(m, op, cfg, now).records[id];
            q.status.Terminal() || q.reportId.None?
  {
    if id in m.records {
      hide Do, Legal, Step;
      StartedIsFresh(m, op, id, cfg, now);
      hide Inv;
      var a := OwnStep(m, op, id, cfg, now);
      if a.Some? && !m.records[id].status.Terminal() { StepKeepsReportId(m.records[id], a.value, cfg, now); }
      if a.Some? && m.records[id].status.Terminal() { TerminalStays(m.records[id], a.value, cfg, now); }
    } else {
      NewHasNoReport(m, op, id, cfg, now);
    }
  }

  lemma NewHasNoReport(m: Manager, op: Op, id: RunId, cfg: Config, now: Time)
    requires !op.Reload? && id !in m.records && id in Do(m, op, cfg, now).records
    ensures Do(m, op, cfg, now).records[id].reportId.None? && (op.Start? || op.Retry?) && op.id == id
  {
    hide Step, Checked, RowOf, Insert, Admission;
  }

  lemma ActLive(m: Manager, i: RunId, a: Action, id: RunId, cfg: Config, now: Time)
    requires LiveOk(m)
    ensures var n := Act(m, i, a, cfg, now);
            id in n.records ==> id in m.records && (n.records[id].status.Terminal() || n.records[id].reportId.None?)
  {
    hide Step, RowOf, Store;
    if i == id && id in m.records {
      if m.records[id].status.Terminal() { TerminalStays(m.records[id], a, cfg, now); }
      else { StepKeepsReportId(m.records[id], a, cfg, now); }
    }
  }

  lemma LiveKept(w: World, move: Move, id: RunId, cfg: Config, now: Time, digest: string -> string)
    requires Inv(w.m, cfg) && LiveOk(w.m) && Allowed(w, move, cfg)
    requires id in Played(w, move, cfg, now, digest).m.records
    ensures var q := Played(w, move, cfg, now, digest).m.records[id]; q.status.Terminal() || q.reportId.None?
  {
    hide Inv, Act, Do, Raises, Write, GateReady, LiveOk, Crash, CanCrash;
    match move
    case Begin(i, _) => ActLive(w.m, i, BeginPublishing, id, cfg, now);
    case Advance(i, ok) =>
      var gate := GateReady(w.disk, WorkerFinal(w.m.records[i], digest));
      ActLive(w.m, i, FailRun(PublishIncomplete, false), id, cfg, now);
      ActLive(w.m, i, CompletePublishing(gate, w.workers[i].signal, i.text), id, cfg, now);
      if id in w.m.records { LiveOne(w.m, id); }
    case Other(op) => OtherLive(w.m, op, id, cfg, now);
    case Die(steps, order) =>
      CrashInv(w, steps, order, cfg, now);
      CrashOne(w, steps, order, id, cfg, now);
  }

  lemma LiveAll(w: World, move: Move, cfg: Config, now: Time, digest: string -> string)
    requires Inv(w.m, cfg) && LiveOk(w.m) && Allowed(w, move, cfg)
    ensures LiveOk(Played(w, move, cfg, now, digest).m)
  {
    hide Inv, Played, Allowed;
    var v := Played(w, move, cfg, now, digest);
    forall id | id in v.m.records ensures v.m.records[id].status.Terminal() || v.m.records[id].reportId.None? {
      LiveKept(w, move, id, cfg, now, digest);
    }
  }

  lemma LiveOne(m: Manager, id: RunId)
    requires LiveOk(m) && id in m.records
    ensures m.records[id].status.Terminal() || m.records[id].reportId.None?
  {}

  // ---- a completed run has its report ----

  /** The run's own directory passes the gate: the one its worker publishes into, or, for a run that a recovery completed, the
      one under its stored id. */
  predicate OwnReport(disk: Disk, r: Run, digest: string -> string) {
    GateReady(disk, WorkerFinal(r, digest)) || GateReady(disk, Final(r.request.ticker, r.request.date, r.id.text))
  }

  ghost predicate PublishedOk(w: World, digest: string -> string) {
    forall id :: id in w.m.records && w.m.records[id].status.Completed? ==> OwnReport(w.disk, w.m.records[id], digest)
  }

  /** For a safe id these are one directory. */
  lemma OwnReportIsWorkers(disk: Disk, r: Run, digest: string -> string)
    requires SafeRunId(r.id.text)
    ensures OwnReport(disk, r, digest) <==> GateReady(disk, WorkerFinal(r, digest))
  {}

  /** No step of anyone touches a final directory that passes a gate. */
  lemma FinalStays(w: World, move: Move, p: Place, cfg: Config, now: Time, digest: string -> string)
    requires Inv(w.m, cfg) && Allowed(w, move, cfg) && p.Final? && GateReady(w.disk, p)
    ensures GateReady(Played(w, move, cfg, now, digest).disk, p)
  {
    hide Inv, Act, Do, Crash, CanCrash, DiskKept;
    if move.Die? {
      CrashInv(w, move.steps, move.order, cfg, now);
      DiskKeptGate(w.disk, Crash(w, move.steps, move.order, cfg, now).disk, p);
    }
  }

  lemma ReportStays(w: World, move: Move, r: Run, cfg: Config, now: Time, digest: string -> string)
    requires Inv(w.m, cfg) && Allowed(w, move, cfg) && OwnReport(w.disk, r, digest)
    ensures OwnReport(Played(w, move, cfg, now, digest).disk, r, digest)
  {
    hide Inv, Played, GateReady, Allowed;
    if GateReady(w.disk, WorkerFinal(r, digest)) { FinalStays(w, move, WorkerFinal(r, digest), cfg, now, digest); }
    else { FinalStays(w, move, Final(r.request.ticker, r.request.date, r.id.text), cfg, now, digest); }
  }

  lemma SameReport(disk: Disk, r: Run, q: Run, digest: string -> string)
    requires q.id == r.id && q.request == r.request
    ensures OwnReport(disk, q, digest) <==> OwnReport(disk, r, digest)
  {}

  lemma CompletedHasReport(w: World, move: Move, id: RunId, cfg: Config, now: Time, digest: string -> string)
    requires Inv(w.m, cfg) && LiveOk(w.m) && PublishedOk(w, digest) && Allowed(w, move, cfg)
    requires id in Played(w, move, cfg, now, digest).m.records && Played(w, move, cfg, now, digest).m.records[id].status.Completed?
    ensures OwnReport(Played(w, move, cfg, now, digest).disk, Played(w, move, cfg, now, digest).m.records[id], digest)
  {
    hide Inv, Act, Do, Raises, Write, Checked, GateReady, OwnReport, LiveOk, Crash, CanCrash;
    match move
    case Begin(i, _) =>
      ActOne(w.m, i, BeginPublishing, id, cfg, now);
      CheckedStatus(w.m.records[id], cfg, now);
      SameReport(w.disk, w.m.records[id], Act(w.m, i, BeginPublishing, cfg, now).records[id], digest);
    case Advance(i, ok) => AdvancedHasReport(w, i, ok, id, cfg, now, digest);
    case Other(op) =>
      OtherRuns(w.m, op, id, cfg, now);
      SameReport(w.disk, w.m.records[id], Do(w.m, op, cfg, now).records[id], digest);
    case Die(steps, order) => RecoveredHasReport(w, steps, order, id, cfg, now, digest);
  }

  lemma AdvancedHasReport(w: World, i: RunId, ok: bool, id: RunId, cfg: Config, now: Time, digest: string -> string)
    requires Inv(w.m, cfg) && PublishedOk(w, digest) && Allowed(w, Advance(i, ok), cfg)
    ensures var v := Played(w, Advance(i, ok), cfg, now, digest);
            id in v.m.records && v.m.records[id].status.Completed? ==> OwnReport(v.disk, v.m.records[id], digest)
  {
    hide Inv, Act, Do, Raises, Write, Checked, GateReady, OwnReport, WorkerFinal, WorkerTemp;
    var q := w.m.records[i];
    var gate := GateReady(w.disk, WorkerFinal(q, digest));
    ActOne(w.m, i, FailRun(PublishIncomplete, false), id, cfg, now);
    ActOne(w.m, i, CompletePublishing(gate, w.workers[i].signal, i.text), id, cfg, now);
    if id in w.m.records {
      var v := Played(w, Advance(i, ok), cfg, now, digest);
      CheckedStatus(w.m.records[id], cfg, now);
      SameReport(v.disk, w.m.records[id], v.m.records[id], digest);
      if gate { OwnGate(w.disk, q, digest); }
      if w.m.records[id].status.Completed? { ReportStays(w, Advance(i, ok), w.m.records[id], cfg, now, digest); }
    }
  }

  lemma OwnGate(disk: Disk, r: Run, digest: string -> string)
    requires GateReady(disk, WorkerFinal(r, digest))
    ensures OwnReport(disk, r, digest)
  {}

  lemma RecoveredHasReport(w: World, steps: seq<RecoveryStep>, order: seq<RunId>, id: RunId, cfg: Config, now: Time, digest: string -> string)
    requires Inv(w.m, cfg) && LiveOk(w.m) && PublishedOk(w, digest) && CanCrash(w, steps, order, cfg)
    ensures var v := Crash(w, steps, order, cfg, now);
            id in v.m.records && v.m.records[id].status.Completed? ==> OwnReport(v.disk, v.m.records[id], digest)
  {
    hide Inv, GateReady, OwnReport, LiveOk, Crash, CanCrash, DiskKept;
    CrashInv(w, steps, order, cfg, now);
    if id in w.m.records {
      var r, v := w.m.records[id], Crash(w, steps, order, cfg, now);
      CrashOne(w, steps, order, id, cfg, now);
      SameReport(v.disk, r, v.m.records[id], digest);
      if r.status.Completed? {
        ReportStays(w, Die(steps, order), r, cfg, now, digest);
      } else if r.status.Publishing? && v.m.records[id].status.Completed? {
        LiveOne(w.m, id);
        OwnRecovered(w.disk, v.disk, r, digest);
      }
    }
  }

  lemma OwnRecovered(before: Disk, after: Disk, r: Run, digest: string -> string)
    requires DiskKept(before, after) && r.reportId.None? && GateReady(before, RecoveryFinal(RowOf(r)))
    ensures OwnReport(after, r, digest)
  {
    DiskKeptGate(before, after, RecoveryFinal(RowOf(r)));
  }

  /** Every COMPLETED run has its own directory that passes the gate, after every history of workers, failures at any step,
      runs that fail before they publish, crashes between any two steps, recoveries cut off anywhere, and whatever else the
      program does. */
  lemma PlayedKeepsPublished(w: World, move: Move, cfg: Config, now: Time, digest: string -> string)
    requires Inv(w.m, cfg) && LiveOk(w.m) && PublishedOk(w, digest) && Allowed(w, move, cfg)
    ensures var v := Played(w, move, cfg, now, digest); Inv(v.m, cfg) && LiveOk(v.m) && PublishedOk(v, digest)
  {
    hide Inv, LiveOk, Played, Allowed, OwnReport;
    var v := Played(w, move, cfg, now, digest);
    PlayedInv(w, move, cfg, now, digest);
    LiveAll(w, move, cfg, now, digest);
    forall id | id in v.m.records && v.m.records[id].status.Completed? ensures OwnReport(v.disk, v.m.records[id], digest) {
      CompletedHasReport(w, move, id, cfg, now, digest);
    }
  }

  lemma {:induction false} CompletedHaveReports(w: World, moves: seq<Clocked>, cfg: Config, digest: string -> string)
    requires Inv(w.m, cfg) && LiveOk(w.m) && PublishedOk(w, digest) && AllowedAll(w, moves, cfg, digest)
    ensures var v := Play(w, moves, cfg, digest); Inv(v.m, cfg) && LiveOk(v.m) && PublishedOk(v, digest)
    decreases |moves|
  {
    if moves != [] {
      hide Inv, LiveOk, PublishedOk;
      PlayedKeepsPublished(w, moves[0].move, cfg, moves[0].now, digest);
      CompletedHaveReports(Played(w, moves[0].move, cfg, moves[0].now, digest), moves[1..], cfg, digest);
    }
  }

  // ---- the worker's progress ----

  /** How far a worker has come is what is on the disk. */
  ghost predicate OnDisk(disk: Disk, temp: Place, final: Place, wk: Worker, id: RunId) {
    var n := wk.pc.Rank();
    var done := Metadata("completed", wk.signal, Some(id.text));
    && (1 <= n <= 6 ==> temp in disk)
    && (2 <= n <= 6 ==> disk[temp].report)
    && (4 <= n <= 6 ==> disk[temp].json == done)
    && (5 <= n <= 6 ==> disk[temp].committed)
    && (n <= 6 ==> final !in disk)
    && (n >= 7 ==> final in disk && disk[final] == Dir(true, true, done))
  }

  ghost predicate WorkerOk(w: World, id: RunId, digest: string -> string)
    requires id in w.workers
  {
    && id in w.m.records && w.m.records[id].id == id && w.m.records[id].status.Publishing?
    && OnDisk(w.disk, WorkerTemp(w.m.records[id], digest), WorkerFinal(w.m.records[id], digest), w.workers[id], id)
  }

  ghost predicate SafeIds(m: Manager) { forall id :: id in m.records ==> SafeRunId(id.text) }

  ghost predicate WorkersOk(w: World, digest: string -> string) {
    LiveOk(w.m) && SafeIds(w.m) && forall id :: id in w.workers ==> WorkerOk(w, id, digest)
  }

  /** Generated ids are safe path components, and no report lies yet where a publication begins. */
  predicate Clean(w: World, move: Move, digest: string -> string) {
    match move
    case Begin(id, _) => id in w.m.records && WorkerFinal(w.m.records[id], digest) !in w.disk
    case Other(Start(id, _)) => SafeRunId(id.text)
    case Other(Retry(_, id, _)) => SafeRunId(id.text)
    case _ => true
  }

  // ---- one worker's step on the disk ----

  lemma WriteProgress(disk: Disk, temp: Place, final: Place, wk: Worker, id: RunId)
    requires OnDisk(disk, temp, final, wk, id) && !wk.pc.Complete? && !Raises(disk, temp, final, wk.pc) && temp.Temp? && final.Final?
    ensures OnDisk(Write(disk, temp, final, wk.pc, wk.signal, id), temp, final, Worker(wk.pc.Next(), wk.signal), id)
  {}

  lemma WriteElsewhere(disk: Disk, temp: Place, final: Place, wk: Worker, id: RunId, temp': Place, final': Place, wk': Worker, id': RunId)
    requires OnDisk(disk, temp', final', wk', id') && !Raises(disk, temp, final, wk.pc)
    requires temp.Temp? && final.Final? && temp'.Temp? && final'.Final? && temp != temp' && final != final'
    ensures OnDisk(Write(disk, temp, final, wk.pc, wk.signal, id), temp', final', wk', id')
  {}

  /** On safe ids the places of different runs differ. */
  lemma PlacesApart(r: Run, q: Run, digest: string -> string)
    requires r.id != q.id && SafeRunId(r.id.text) && SafeRunId(q.id.text)
    ensures WorkerTemp(r, digest) != WorkerTemp(q, digest) && WorkerFinal(r, digest) != WorkerFinal(q, digest)
  {
    assert r.id.text != q.id.text;
  }

  /** Nobody else's call moves a publishing run. */
  lemma PublishingStays(m: Manager, op: Op, id: RunId, cfg: Config, now: Time)
    requires Inv(m, cfg) && Legal(m, op) && Quiet(m, op) && id in m.records && m.records[id].status.Publishing?
    ensures var n := Do(m, op, cfg, now);
            id in n.records && n.records[id].status.Publishing? && n.records[id].request == m.records[id].request && n.records[id].id == m.records[id].id
  {
    hide Inv, Do, Legal;
    PublishingRetained(m, op, id, cfg, now);
    OtherRuns(m, op, id, cfg, now);
  }

  lemma PublishingRetained(m: Manager, op: Op, id: RunId, cfg: Config, now: Time)
    requires Inv(m, cfg) && !op.Reload? && id in m.records && m.records[id].status.Publishing?
    ensures id in Do(m, op, cfg, now).records
  {
    hide Inv, Step, Checked, RowOf, Insert, Admission, CheckedEvents, Expired, NewRun, Child, Store, Busy;
    NotExpired(m, id, cfg, now);
  }

  lemma NotExpired(m: Manager, id: RunId, cfg: Config, now: Time)
    requires Inv(m, cfg) && id in m.records && !m.records[id].status.Terminal()
    ensures !Expired(m.records[id], now)
  {
    hide LineageOk, ActiveOk, Mirrored;
    Unpack(m.records[id], Log(m.events, id), cfg);
  }

  // ---- the protocol invariant ----

  lemma WorkerKept(w: World, move: Move, id: RunId, cfg: Config, now: Time, digest: string -> string)
    requires Inv(w.m, cfg) && WorkersOk(w, digest) && Allowed(w, move, cfg) && Clean(w, move, digest)
    requires id in Played(w, move, cfg, now, digest).workers
    ensures WorkerOk(Played(w, move, cfg, now, digest), id, digest)
  {
    hide Inv, Act, Do, OnDisk, Raises, LiveOk;
    match move
    case Begin(i, _) =>
      ActOne(w.m, i, BeginPublishing, id, cfg, now);
      OwnId(w.m, i, cfg);
      if id == i { FirstProgress(w, i, move.signal, digest); }
    case Advance(i, ok) => AdvanceKeeps(w, i, ok, id, cfg, now, digest);
    case Other(op) => PublishingStays(w.m, op, id, cfg, now);
    case Die(_, _) => assert false;
  }

  lemma OwnId(m: Manager, id: RunId, cfg: Config)
    requires Inv(m, cfg) && id in m.records
    ensures m.records[id].id == id
  {}

  lemma FirstProgress(w: World, id: RunId, signal: Option<string>, digest: string -> string)
    requires id in w.m.records && WorkerFinal(w.m.records[id], digest) !in w.disk
    ensures OnDisk(w.disk, WorkerTemp(w.m.records[id], digest), WorkerFinal(w.m.records[id], digest), Worker(MakeDir, signal), id)
  {}

  lemma AdvanceKeeps(w: World, i: RunId, ok: bool, id: RunId, cfg: Config, now: Time, digest: string -> string)
    requires Inv(w.m, cfg) && WorkersOk(w, digest) && i in w.workers && i in w.m.records
    requires id in WorkerStep(w, i, ok, cfg, now, digest).workers
    ensures WorkerOk(WorkerStep(w, i, ok, cfg, now, digest), id, digest)
  {
    hide Inv, Act, OnDisk, Raises, Write, LiveOk, SafeRunId, WorkerTemp, WorkerFinal;
    var gate := GateReady(w.disk, WorkerFinal(w.m.records[i], digest));
    ActOne(w.m, i, FailRun(PublishIncomplete, false), id, cfg, now);
    ActOne(w.m, i, CompletePublishing(gate, w.workers[i].signal, i.text), id, cfg, now);
    assert WorkerOk(w, i, digest) && WorkerOk(w, id, digest);
    var r, q := w.m.records[i], w.m.records[id];
    PlaceKinds(r, digest);
    PlaceKinds(q, digest);
    var temp, final := WorkerTemp(r, digest), WorkerFinal(r, digest);
    if ok && !Raises(w.disk, temp, final, w.workers[i].pc) && !w.workers[i].pc.Complete? {
      if id == i {
        WriteProgress(w.disk, temp, final, w.workers[i], i);
      } else {
        PlacesApart(r, q, digest);
        WriteElsewhere(w.disk, temp, final, w.workers[i], i, WorkerTemp(q, digest), WorkerFinal(q, digest), w.workers[id], id);
      }
    }
  }

  lemma PlaceKinds(r: Run, digest: string -> string)
    ensures WorkerTemp(r, digest).Temp? && WorkerFinal(r, digest).Final?
  {}

  lemma SafeKept(w: World, move: Move, id: RunId, cfg: Config, now: Time, digest: string -> string)
    requires Inv(w.m, cfg) && SafeIds(w.m) && Allowed(w, move, cfg) && Clean(w, move, digest)
    requires id in Played(w, move, cfg, now, digest).m.records
    ensures SafeRunId(id.text)
  {
    hide Inv, Act, Do, Raises, Write, GateReady, SafeRunId, Crash, CanCrash;
    match move
    case Begin(i, _) => ActOne(w.m, i, BeginPublishing, id, cfg, now);
    case Advance(i, ok) =>
      var gate := GateReady(w.disk, WorkerFinal(w.m.records[i], digest));
      ActOne(w.m, i, FailRun(PublishIncomplete, false), id, cfg, now);
      ActOne(w.m, i, CompletePublishing(gate, w.workers[i].signal, i.text), id, cfg, now);
    case Other(op) => if id !in w.m.records { NewHasNoReport(w.m, op, id, cfg, now); }
    case Die(steps, order) => CrashInv(w, steps, order, cfg, now);
  }

  /** On safe ids, with no report in the way, every worker's progress is exactly what is on the disk, in every history. */
  lemma PlayedKeepsWorkers(w: World, move: Move, cfg: Config, now: Time, digest: string -> string)
    requires Inv(w.m, cfg) && WorkersOk(w, digest) && Allowed(w, move, cfg) && Clean(w, move, digest)
    ensures Inv(Played(w, move, cfg, now, digest).m, cfg) && WorkersOk(Played(w, move, cfg, now, digest), digest)
  {
    hide Inv, Played, Allowed, Clean, SafeRunId, WorkerOk, LiveOk;
    var v := Played(w, move, cfg, now, digest);
    PlayedInv(w, move, cfg, now, digest);
    LiveAll(w, move, cfg, now, digest);
    forall id | id in v.m.records ensures SafeRunId(id.text) { SafeKept(w, move, id, cfg, now, digest); }
    forall id | id in v.workers ensures WorkerOk(v, id, digest) { WorkerKept(w, move, id, cfg, now, digest); }
  }

  predicate CleanAll(w: World, moves: seq<Clocked>, cfg: Config, digest: string -> string)
    requires AllowedAll(w, moves, cfg, digest)
    decreases |moves|
  {
    moves != [] ==> Clean(w, moves[0].move, digest) && CleanAll(Played(w, moves[0].move, cfg, moves[0].now, digest), moves[1..], cfg, digest)
  }

  lemma {:induction false} PlayKeepsWorkers(w: World, moves: seq<Clocked>, cfg: Config, digest: string -> string)
    requires Inv(w.m, cfg) && WorkersOk(w, digest) && AllowedAll(w, moves, cfg, digest) && CleanAll(w, moves, cfg, digest)
    ensures Inv(Play(w, moves, cfg, digest).m, cfg) && WorkersOk(Play(w, moves, cfg, digest), digest)
    decreases |moves|
  {
    if moves != [] {
      PlayedKeepsWorkers(w, moves[0].move, cfg, moves[0].now, digest);
      PlayKeepsWorkers(Played(w, moves[0].move, cfg, moves[0].now, digest), moves[1..], cfg, digest);
    }
  }

  /** A crash during a publication: the run is COMPLETED exactly when the rename had happened. */
  lemma CompletedIffRenamed(w: World, steps: seq<RecoveryStep>, order: seq<RunId>, id: RunId, cfg: Config, now: Time, digest: string -> string)
    requires Inv(w.m, cfg) && WorkersOk(w, digest) && CanCrash(w, steps, order, cfg) && id in w.workers
    ensures id in w.m.records && id in Crash(w, steps, order, cfg, now).m.records
    ensures Crash(w, steps, order, cfg, now).m.records[id].status == if w.workers[id].pc.Rank() > Rename.Rank() then Completed else Failed
  {
    hide Inv, Crash, CanCrash;
    assert WorkerOk(w, id, digest);
    CrashConsistent(w, steps, order, id, cfg, now);
  }

  // ---- ids that are no path component ----

  /** A digest is made of characters that are safe in a path. */
  ghost predicate PlainDigest(digest: string -> string) { forall s :: SafeRunId("run-" + digest(s)) }

  lemma ReadyNotAbsent(disk: Disk, p: Place)
    ensures GateReady(disk, p) ==> p in disk
  {}

  lemma NamesAgree(r: Run, digest: string -> string)
    requires PlainDigest(digest) && r.reportId.None?
    ensures RecoveryFinal(r) == WorkerFinal(r, digest) <==> SafeRunId(r.id.text)
  {
    var _ := digest(r.id.text);
    hide SafeRunId;
  }

  /** Worker and recovery agree on the directory exactly for ids that are safe path components: for any other id a report
      that was already published is not found after a crash, and the run is FAILED. */
  lemma FoundIffSafeId(w: World, steps: seq<RecoveryStep>, order: seq<RunId>, id: RunId, cfg: Config, now: Time, digest: string -> string)
    requires Inv(w.m, cfg) && LiveOk(w.m) && CanCrash(w, steps, order, cfg) && PlainDigest(digest)
    requires id in w.m.records && w.m.records[id].status.Publishing?
    requires GateReady(w.disk, WorkerFinal(w.m.records[id], digest))
    requires RecoveryFinal(w.m.records[id]) != WorkerFinal(w.m.records[id], digest) ==> RecoveryFinal(w.m.records[id]) !in w.disk
    ensures id in Crash(w, steps, order, cfg, now).m.records
    ensures Crash(w, steps, order, cfg, now).m.records[id].status.Completed? <==> SafeRunId(id.text)
  {
    hide GateReady, LiveOk, RecoveryTemp, WorkerTemp, Inv, Crash, CanCrash, SafeRunId, PlainDigest, RecoveryFinal, WorkerFinal;
    OwnId(w.m, id, cfg);
    var r := w.m.records[id];
    LiveOne(w.m, id);
    NamesAgree(r, digest);
    ReadyNotAbsent(w.disk, RecoveryFinal(r));
    CrashConsistent(w, steps, order, id, cfg, now);
  }

  // ---- from an empty installation ----

  const LIFE := Lifecycle(7200, 15, 180)

  /** The first run of a new installation, started, begun and being published. */
  function FirstRun(id: RunId, q: Request, cfg: Config): Manager {
    Act(StartRun(Empty(LIFE), id, q, 0), id, Action.Begin, cfg, 0)
  }

  lemma FirstRunIs(id: RunId, q: Request, cfg: Config)
    requires cfg.limit >= 1
    ensures var m := FirstRun(id, q, cfg);
            Inv(m, cfg) && m.records.Keys == {id} && m.records[id].status.Running? && m.records[id].reportId.None?
            && m.records[id].request == q && m.records[id].id == id && m.records[id].timeoutAt == Some(7200)
            && m.records[id].beatTimeout == Some(180) && m.records[id].beatAt == Some(0)
  {
    var m0 := Empty(LIFE);
    EmptyOk(LIFE, cfg);
    StartKeepsInv(m0, id, q, cfg, 0);
    var m1 := StartRun(m0, id, q, 0);
    assert Cleanup(m0, 0).records == map[];
    assert m1.records == map[id := NewRun(id, q, LIFE, 0)];
    hide Inv;
    ActKeepsInv(m1, id, Action.Begin, cfg, 0);
    hide StartRun;
    BegunRun(NewRun(id, q, LIFE, 0), cfg);
  }

  lemma BegunRun(r: Run, cfg: Config)
    requires r.status.Queued? && r.timeoutAt == Some(7200) && r.beatTimeout == Some(180) && r.beatAt == Some(0) && r.reportId.None?
    ensures var q := Step(r, Action.Begin, cfg, 0).run;
            SameRun(r, q) && q.status.Running? && q.reportId.None? && q.beatAt == Some(0)
  {
    hide Finish, Append;
    CheckedFacts(r, cfg, 0);
  }

  /** Publishing under the protocol invariant does happen, so nothing above holds for want of a worker. */
  lemma PublishingHappens(id: RunId, q: Request, signal: Option<string>, cfg: Config, digest: string -> string)
    requires cfg.limit >= 1 && SafeRunId(id.text)
    ensures var w := BeginWorker(World(FirstRun(id, q, cfg), map[], [], map[]), id, signal, cfg, 0);
            Inv(w.m, cfg) && WorkersOk(w, digest) && id in w.workers
  {
    hide Inv, FirstRun, SafeRunId;
    FirstRunIs(id, q, cfg);
    var m := FirstRun(id, q, cfg);
    var w := World(m, map[], [], map[]);
    assert LiveOk(m) && SafeIds(m);
    hide LiveOk, SafeIds;
    assert Clean(w, Move.Begin(id, signal), digest) && Allowed(w, Move.Begin(id, signal), cfg);
    PlayedKeepsWorkers(w, Move.Begin(id, signal), cfg, 0, digest);
    FirstPublishes(m, id, cfg);
  }

  lemma FirstPublishes(m: Manager, id: RunId, cfg: Config)
    requires id in m.records && m.records[id].status.Running? && m.records[id].timeoutAt == Some(7200)
    requires m.records[id].beatTimeout == Some(180) && m.records[id].beatAt == Some(0)
    ensures id in Act(m, id, Action.BeginPublishing, cfg, 0).records
    ensures Act(m, id, Action.BeginPublishing, cfg, 0).records[id].status.Publishing?
  {
    hide Step, Checked, RowOf, Store;
    StepMoves(m.records[id], Action.BeginPublishing, cfg, 0);
    CheckedFacts(m.records[id], cfg, 0);
  }

  // ---- an unsafe id from an empty installation ----

  /** The only run is being published, and nothing else lies on the disk. */
  ghost predicate Lone(w: World, id: RunId, cfg: Config, digest: string -> string) {
    && Inv(w.m, cfg) && LiveOk(w.m) && w.m.records.Keys == {id} && id in w.workers && WorkerOk(w, id, digest)
    && w.disk.Keys <= {WorkerTemp(w.m.records[id], digest), WorkerFinal(w.m.records[id], digest)}
  }

  lemma LoneStep(w: World, id: RunId, cfg: Config, digest: string -> string)
    requires Lone(w, id, cfg, digest) && w.workers[id].pc.Rank() <= Rename.Rank()
    ensures Allowed(w, Advance(id, true), cfg)
    ensures var v := Played(w, Advance(id, true), cfg, 0, digest);
            Lone(v, id, cfg, digest) && v.workers[id].pc.Rank() == w.workers[id].pc.Rank() + 1
  {
    hide Inv, OnDisk, Raises, GateReady, LiveOk, SafeName;
    var r := w.m.records[id];
    OnDiskFacts(w.disk, WorkerTemp(r, digest), WorkerFinal(r, digest), w.workers[id], id);
    WriteProgress(w.disk, WorkerTemp(r, digest), WorkerFinal(r, digest), w.workers[id], id);
  }

  lemma OnDiskFacts(disk: Disk, temp: Place, final: Place, wk: Worker, id: RunId)
    requires OnDisk(disk, temp, final, wk, id)
    ensures !Raises(disk, temp, final, wk.pc) && (GateReady(disk, final) <==> wk.pc.Rank() > Rename.Rank())
  {}

  /** Left alone, the worker gets past its rename. */
  lemma LoneRenames(w: World, id: RunId, cfg: Config, digest: string -> string) returns (moves: seq<Clocked>)
    requires Lone(w, id, cfg, digest) && w.workers[id].pc.Rank() <= Rename.Rank() + 1
    ensures AllowedAll(w, moves, cfg, digest)
    ensures var v := Play(w, moves, cfg, digest); Lone(v, id, cfg, digest) && v.workers[id].pc.Rank() == Rename.Rank() + 1
    decreases Rename.Rank() + 1 - w.workers[id].pc.Rank()
  {
    if w.workers[id].pc.Rank() == Rename.Rank() + 1 {
      moves := [];
    } else {
      hide Lone, Allowed, Played;
      LoneStep(w, id, cfg, digest);
      var rest := LoneRenames(Played(w, Advance(id, true), cfg, 0, digest), id, cfg, digest);
      moves := [Clocked(0, Advance(id, true))] + rest;
      assert moves[1..] == rest;
    }
  }

  lemma LoneOrder(w: World, id: RunId, cfg: Config, digest: string -> string)
    requires Lone(w, id, cfg, digest)
    ensures CanCrash(w, [], [id], cfg)
  {
    hide RunOk, LineageOk, ActiveOk, OnDisk;
    assert w.m.rows.Keys == {id};
  }

  /** Every id that is no path component loses its report: from an empty installation a run is started, begun and published up to
      its rename; its directory passes the gate, and after a crash the run is FAILED. */
  lemma UnsafeIdIsLost(id: RunId, q: Request, signal: Option<string>, cfg: Config, digest: string -> string) returns (moves: seq<Clocked>)
    requires cfg.limit >= 1 && !SafeRunId(id.text) && PlainDigest(digest)
    ensures var w0 := BeginWorker(World(FirstRun(id, q, cfg), map[], [], map[]), id, signal, cfg, 0);
            && AllowedAll(w0, moves, cfg, digest)
            && var w := Play(w0, moves, cfg, digest);
            && id in w.m.records && w.m.records[id].status.Publishing? && GateReady(w.disk, WorkerFinal(w.m.records[id], digest))
            && CanCrash(w, [], [id], cfg) && id in Crash(w, [], [id], cfg, 0).m.records
            && Crash(w, [], [id], cfg, 0).m.records[id].status.Failed?
  {
    hide Inv, FirstRun, SafeRunId, PlainDigest, Crash, CanCrash, Play, AllowedAll, BeginWorker;
    var w0 := LoneStart(id, q, signal, cfg, digest);
    moves := LoneRenames(w0, id, cfg, digest);
    LoneLost(Play(w0, moves, cfg, digest), id, cfg, digest);
  }

  lemma LoneStart(id: RunId, q: Request, signal: Option<string>, cfg: Config, digest: string -> string) returns (w: World)
    requires cfg.limit >= 1
    ensures id in FirstRun(id, q, cfg).records
    ensures w == BeginWorker(World(FirstRun(id, q, cfg), map[], [], map[]), id, signal, cfg, 0)
    ensures Lone(w, id, cfg, digest) && w.workers[id].pc == MakeDir
  {
    hide Inv, FirstRun, SafeRunId, LiveOk, Act;
    FirstRunIs(id, q, cfg);
    var m := FirstRun(id, q, cfg);
    var w0 := World(m, map[], [], map[]);
    assert LiveOk(m) by { FirstLive(m); }
    assert Allowed(w0, Move.Begin(id, signal), cfg);
    w := BeginWorker(w0, id, signal, cfg, 0);
    PlayedInv(w0, Move.Begin(id, signal), cfg, 0, digest);
    LiveAll(w0, Move.Begin(id, signal), cfg, 0, digest);
    FirstPublishes(m, id, cfg);
    ActOne(m, id, Action.BeginPublishing, id, cfg, 0);
    OwnId(w.m, id, cfg);
    FirstProgress(w, id, signal, digest);
  }

  lemma FirstLive(m: Manager)
    requires forall id :: id in m.records ==> m.records[id].reportId.None?
    ensures LiveOk(m)
  {}

  lemma LoneLost(w: World, id: RunId, cfg: Config, digest: string -> string)
    requires Lone(w, id, cfg, digest) && w.workers[id].pc.Rank() == Rename.Rank() + 1 && !SafeRunId(id.text) && PlainDigest(digest)
    ensures id in w.m.records && w.m.records[id].status.Publishing? && GateReady(w.disk, WorkerFinal(w.m.records[id], digest))
    ensures CanCrash(w, [], [id], cfg) && id in Crash(w, [], [id], cfg, 0).m.records
    ensures Crash(w, [], [id], cfg, 0).m.records[id].status.Failed?
  {
    hide Inv, LiveOk, SafeRunId, PlainDigest, Crash, CanCrash, OnDisk, GateReady, SafeName;
    var r := w.m.records[id];
    OnDiskFacts(w.disk, WorkerTemp(r, digest), WorkerFinal(r, digest), w.workers[id], id);
    LoneOrder(w, id, cfg, digest);
    FoundIffSafeId(w, [], [id], id, cfg, 0, digest);
    CrashConsistent(w, [], [id], id, cfg, 0);
  }

  function Zero(s: string): string { "0" }

  /** There are such ids and such digests. */
  lemma UnsafeIdsExist()
    ensures !SafeRunId("a b") && PlainDigest(Zero)
  {
    assert "a b"[1] == ' ';
    assert "run-" + "0" == "run-0";
  }
}
