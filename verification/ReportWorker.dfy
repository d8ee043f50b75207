/** The publishing part of the worker, in place: ordered file steps on the report site, then one call of the manager. */
module ReportWorker {
  import opened Basics
  import opened Runs
  import opened RunInvariants
  import opened ManagerModel
  import opened RunManagers
  import opened CrashRecovery
  import opened Publication

  /** One worker left alone until it has ended; `faults` are the steps that raise by themselves. */
  function RunAlone(w: World, id: RunId, faults: set<Pc>, cfg: Config, now: Time, digest: string -> string): World
    decreases if id in w.workers then 1 + Complete.Rank() - w.workers[id].pc.Rank() else 0
  {
    if id !in w.workers || id !in w.m.records then w
    else
      var v := WorkerStep(w, id, w.workers[id].pc !in faults, cfg, now, digest);
      if id in v.workers then RunAlone(v, id, faults, cfg, now, digest) else v
  }

  /** Some step from here on raises. */
  predicate Doomed(pc: Pc, faults: set<Pc>) { exists f :: f in faults && f.Rank() >= pc.Rank() }

  /** A worker left alone publishes the report and completes the run exactly when none of its steps raises; otherwise the
      run is FAILED. A step that raises after the rename leaves the published directory in place. */
  lemma {:induction false} AloneEnds(w: World, id: RunId, faults: set<Pc>, cfg: Config, now: Time, digest: string -> string)
    requires id in w.workers && id in w.m.records && w.m.records[id].status.Publishing?
    requires var r := w.m.records[id]; OnDisk(w.disk, WorkerTemp(r, digest), WorkerFinal(r, digest), w.workers[id], id)
    ensures var v, final := RunAlone(w, id, faults, cfg, now, digest), WorkerFinal(w.m.records[id], digest);
            && id in v.m.records && v.m.records[id].status == (if Doomed(w.workers[id].pc, faults) then Failed else Completed)
            && (GateReady(v.disk, final) <==> forall f :: f in faults && f.Rank() >= w.workers[id].pc.Rank() ==> f.Rank() > Rename.Rank())
    decreases Complete.Rank() - w.workers[id].pc.Rank()
  {
    hide Step, Write, Raises, OnDisk, GateReady;
    var r, wk := w.m.records[id], w.workers[id];
    var temp, final := WorkerTemp(r, digest), WorkerFinal(r, digest);
    OnDiskFacts(w.disk, temp, final, wk, id);
    if wk.pc in faults {
      FailEnds(w.m, id, cfg, now);
    } else if wk.pc.Complete? {
      CompleteEnds(w.m, id, wk.signal, cfg, now);
    } else {
      WriteProgress(w.disk, temp, final, wk, id);
      var v := WorkerStep(w, id, true, cfg, now, digest);
      AloneEnds(v, id, faults, cfg, now, digest);
      assert forall f: Pc :: f.Rank() >= wk.pc.Rank() <==> f == wk.pc || f.Rank() >= wk.pc.Next().Rank();
    }
  }

  lemma FailEnds(m: Manager, id: RunId, cfg: Config, now: Time)
    requires id in m.records && m.records[id].status.Publishing?
    ensures var n := Act(m, id, Action.FailRun(PublishIncomplete, false), cfg, now); id in n.records && n.records[id].status.Failed?
  {
    hide Step, RowOf, Store, Checked;
    StepMoves(m.records[id], Action.FailRun(PublishIncomplete, false), cfg, now);
    CheckedNotWaiting(m.records[id], cfg, now);
  }

  lemma CompleteEnds(m: Manager, id: RunId, signal: Option<string>, cfg: Config, now: Time)
    requires id in m.records && m.records[id].status.Publishing?
    ensures var n := Act(m, id, Action.CompletePublishing(true, signal, id.text), cfg, now); id in n.records && n.records[id].status.Completed?
  {
    hide Step, RowOf, Store, Checked;
    StepMoves(m.records[id], Action.CompletePublishing(true, signal, id.text), cfg, now);
  }

  class ReportSite {
    const digest: string -> string
    var disk: Disk

    constructor (digest: string -> string, disk: Disk)
      ensures this.digest == digest && this.disk == disk
    {
      this.digest, this.disk := digest, disk;
    }

    /** One file step: it raises on a fault, on a missing directory, and where a report already lies. */
    method FileStep(pc: Pc, temp: Place, final: Place, signal: Option<string>, id: RunId, fault: bool) returns (ok: bool)
      requires temp != final
      modifies this`disk
      ensures ok == (!fault && !Raises(old(disk), temp, final, pc))
      ensures disk == if ok then Write(old(disk), temp, final, pc, signal, id) else old(disk)
    {
      ok := !fault;
      if fault { return; }
      match pc
      case MakeDir => if temp !in disk { disk := disk[temp := Dir(false, false, NoFile)]; }
      case WriteReport => if temp in disk { disk := disk[temp := disk[temp].(report := true)]; } else { ok := false; }
      case OpenJson => if temp in disk { disk := disk[temp := disk[temp].(json := Unreadable)]; } else { ok := false; }
      case WriteJson =>
        if temp in disk { disk := disk[temp := disk[temp].(json := Metadata("completed", signal, Some(id.text)))]; } else { ok := false; }
      case Commit => if temp in disk { disk := disk[temp := disk[temp].(committed := true)]; } else { ok := false; }
      case CheckFree => ok := final !in disk;
      case Rename =>
        if temp in disk && final !in disk {
          var moved := disk[temp];
          disk := disk - {temp};
          disk := disk[final := moved];
        } else { ok := false; }
      case Index =>
      case Complete =>
    }

    ghost predicate Reached(w: World, id: RunId, pc: Pc, ok: bool, faults: set<Pc>, signal: Option<string>)
      reads this
    {
      && w.disk == disk && id in w.workers && id in w.m.records && w.workers[id].signal == signal
      && var r := w.m.records[id];
         var at := w.workers[id].pc;
         if ok then at == pc else !at.Complete? && (at in faults || Raises(disk, WorkerTemp(r, digest), WorkerFinal(r, digest), at))
    }

    /** The next file step, unless an earlier one raised. */
    method Proceed(pc: Pc, was: bool, r: Run, signal: Option<string>, faults: set<Pc>, ghost w: World, ghost cfg: Config, ghost now: Time)
      returns (ok: bool, ghost v: World)
      requires Reached(w, r.id, pc, was, faults, signal) && w.m.records[r.id] == r && !pc.Complete?
      modifies this`disk
      ensures Reached(v, r.id, pc.Next(), ok, faults, signal) && v.m == w.m && v.orphans == w.orphans
      ensures v.workers.Keys == w.workers.Keys
      ensures RunAlone(v, r.id, faults, cfg, now, digest) == RunAlone(w, r.id, faults, cfg, now, digest)
    {
      ok, v := was, w;
      if was {
        v := WorkerStep(w, r.id, pc !in faults, cfg, now, digest);
        ok := FileStep(pc, WorkerTemp(r, digest), WorkerFinal(r, digest), signal, r.id, pc in faults);
        if !ok { v := w; }
      }
    }

    /** The temporary directory, up to its COMMITTED marker. */
    method WriteSteps(r: Run, signal: Option<string>, faults: set<Pc>, ghost w0: World, ghost cfg: Config, ghost now: Time)
      returns (ok: bool, ghost w: World)
      requires Reached(w0, r.id, MakeDir, true, faults, signal) && w0.m.records[r.id] == r
      modifies this`disk
      ensures Reached(w, r.id, CheckFree, ok, faults, signal) && w.m == w0.m && w.orphans == w0.orphans
      ensures w.workers.Keys == w0.workers.Keys
      ensures RunAlone(w, r.id, faults, cfg, now, digest) == RunAlone(w0, r.id, faults, cfg, now, digest)
    {
      hide Reached, RunAlone;
      ok, w := Proceed(MakeDir, true, r, signal, faults, w0, cfg, now);
      ok, w := Proceed(WriteReport, ok, r, signal, faults, w, cfg, now);
      ok, w := Proceed(OpenJson, ok, r, signal, faults, w, cfg, now);
      ok, w := Proceed(WriteJson, ok, r, signal, faults, w, cfg, now);
      ok, w := Proceed(Commit, ok, r, signal, faults, w, cfg, now);
    }

    /** Everything between the two manager calls. */
    method FileSteps(r: Run, signal: Option<string>, faults: set<Pc>, ghost w0: World, ghost cfg: Config, ghost now: Time)
      returns (ok: bool, ghost w: World)
      requires Reached(w0, r.id, MakeDir, true, faults, signal) && w0.m.records[r.id] == r
      modifies this`disk
      ensures Reached(w, r.id, Complete, ok, faults, signal) && w.m == w0.m && w.orphans == w0.orphans
      ensures w.workers.Keys == w0.workers.Keys
      ensures RunAlone(w, r.id, faults, cfg, now, digest) == RunAlone(w0, r.id, faults, cfg, now, digest)
    {
      hide Reached, RunAlone;
      ok, w := WriteSteps(r, signal, faults, w0, cfg, now);
      ok, w := Proceed(CheckFree, ok, r, signal, faults, w, cfg, now);
      ok, w := Proceed(Rename, ok, r, signal, faults, w, cfg, now);
      ok, w := Proceed(Index, ok, r, signal, faults, w, cfg, now);
    }

    lemma LastStep(w: World, id: RunId, ok: bool, faults: set<Pc>, signal: Option<string>, cfg: Config, now: Time)
      requires Reached(w, id, Complete, ok, faults, signal) && w.workers.Keys == {id} && w.orphans == []
      ensures RunAlone(w, id, faults, cfg, now, digest)
              == World(if !ok || Complete in faults then Act(w.m, id, Action.FailRun(PublishIncomplete, false), cfg, now)
                       else Act(w.m, id, Action.CompletePublishing(GateReady(disk, WorkerFinal(w.m.records[id], digest)), signal, id.text), cfg, now),
                       disk, [], map[])
    {
      hide Act, GateReady;
      var v := WorkerStep(w, id, w.workers[id].pc !in faults, cfg, now, digest);
      assert v.workers == map[];
    }

    /** The worker's last call of the manager. */
    method Conclude(manager: RunManager, r: Run, signal: Option<string>, failed: bool, now: Time)
      requires manager.Valid() && r.id in manager.records
      modifies manager`rows, manager`events, manager`active, manager.records.Values
      ensures manager.Valid()
      ensures manager.State()
              == Act(old(manager.State()), r.id,
                     if failed then Action.FailRun(PublishIncomplete, false)
                     else Action.CompletePublishing(GateReady(disk, WorkerFinal(r, digest)), signal, r.id.text), manager.cfg, now)
    {
      hide Act, GateReady, WorkerFinal, ManagedRun.Value, RunManager.Valid;
      if failed {
        var _, _ := manager.FailRun(r.id, PublishIncomplete, false, now);
      } else {
        var gate := GateReady(disk, WorkerFinal(r, digest));
        var _, _ := manager.CompletePublishing(r.id, gate, signal, r.id.text, now);
      }
    }

    /** From `begin_publishing` to `complete_publishing`, or to `fail_run` after the first step that raised. */
    method Publish(manager: RunManager, id: RunId, signal: Option<string>, faults: set<Pc>, now: Time)
      requires manager.Valid() && id in manager.records
      modifies this`disk, manager`rows, manager`events, manager`active, manager.records.Values
      ensures manager.Valid()
      ensures var w := World(old(manager.State()), old(disk), [], map[]);
              World(manager.State(), disk, [], map[])
              == RunAlone(BeginWorker(w, id, signal, manager.cfg, now), id, faults, manager.cfg, now, digest)
    {
      hide Act, RunAlone, GateReady, WorkerFinal, ManagedRun.Value, RunManager.Valid, Reached, RunManager.Runs;
      Known(manager, id);
      ghost var w := BeginWorker(World(manager.State(), disk, [], map[]), id, signal, manager.cfg, now);
      var _, _ := manager.BeginPublishing(id, now);
      var r := RecordOf(manager, id);
      if !r.status.Publishing? {
        Untouched(w, id, faults, manager.cfg, now);
        return;
      }
      Begun(w, r, signal, faults);
      var ok;
      ok, w := FileSteps(r, signal, faults, w, manager.cfg, now);
      LastStep(w, id, ok, faults, signal, manager.cfg, now);
      Conclude(manager, r, signal, !ok || Complete in faults, now);
    }

    lemma Known(manager: RunManager, id: RunId)
      requires id in manager.records
      ensures id in manager.State().records
    {}

    lemma Begun(w: World, r: Run, signal: Option<string>, faults: set<Pc>)
      requires w.disk == disk && r.id in w.m.records && w.m.records[r.id] == r && w.workers == map[r.id := Worker(MakeDir, signal)]
      ensures Reached(w, r.id, MakeDir, true, faults, signal) && w.workers.Keys == {r.id}
    {}

    lemma Untouched(w: World, id: RunId, faults: set<Pc>, cfg: Config, now: Time)
      requires id !in w.workers
      ensures RunAlone(w, id, faults, cfg, now, digest) == w
    {}

    method RecordOf(manager: RunManager, id: RunId) returns (r: Run)
      requires manager.Valid() && id in manager.records
      ensures id in manager.State().records && r == manager.State().records[id] && r.id == id
    {
      r := manager.records[id].Value();
    }
  }
}
