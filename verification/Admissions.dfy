/** Who is admitted, with what deadline, and how long an ended run is kept. */
module Admissions {
  import opened Basics
  import opened Runs
  import opened RunInvariants
  import opened ManagerModel
  import opened ManagerInvariants
  import opened ManagerRestart
  import opened ManagerTraces
  import opened Endings

  // ---- one run for an asset ----

  /** The same asset: its type, and its ticker up to outer blanks and case. */
  ghost predicate SameAsset(p: Request, q: Request) { p.assetType == q.assetType && SameName(p.ticker, q.ticker) }

  lemma KeyIff(p: Request, q: Request)
    ensures AssetKey(p) == AssetKey(q) <==> SameAsset(p, q)
  {
    SameNameIff(p.ticker, q.ticker);
  }

  /** In no state of the manager do two active runs work on one asset. */
  lemma NeverSameAsset(m: Manager, i: RunId, j: RunId, cfg: Config)
    requires Inv(m, cfg) && i in m.active && j in m.active && i != j
    ensures i in m.records && j in m.records && !SameAsset(m.records[i].request, m.records[j].request)
  {
    hide RunsOk, Mirrored, LineageOk;
    KeyIff(m.records[i].request, m.records[j].request);
  }

  /** So after every history, from an empty installation on. */
  lemma NeverSameAssetInHistory(life: Lifecycle, tr: seq<Timed>, i: RunId, j: RunId, cfg: Config)
    requires cfg.limit >= 1 && LegalTrace(Empty(life), tr, cfg)
    ensures var n := Exec(Empty(life), tr, cfg);
            i in n.active && j in n.active && i != j ==>
              i in n.records && j in n.records && !SameAsset(n.records[i].request, n.records[j].request)
  {
    hide Inv, Exec, LegalTrace;
    EmptyOk(life, cfg);
    ExecKeepsInv(Empty(life), tr, cfg);
    var n := Exec(Empty(life), tr, cfg);
    if i in n.active && j in n.active && i != j { NeverSameAsset(n, i, j, cfg); }
  }

  /** Blanks and case do not tell tickers apart, other letters do. */
  lemma TickersCollide()
    ensures SameName("aapl ", "AAPL") && !SameName("MSFT", "AAPL") && !SameName("AAPL", "AAP")
  {
    assert IsCore("aapl ", 0, 4) && IsCore("AAPL", 0, 4);
    assert "aapl "[0..4] == "aapl" && "AAPL"[0..4] == "AAPL";
    assert LetterPair(0, 'a', 'A') && LetterPair(15, 'p', 'P') && LetterPair(11, 'l', 'L');
    assert SameLetters("aapl", "AAPL");
    OneCore("AAPL");
    OneCore("MSFT");
    OneCore("AAP");
    assert !LetterPair(12, 'M', 'A') && "MSFT"[0] == 'M' && "AAPL"[0] == 'A';
  }

  lemma OneCore(s: string)
    requires s != "" && !Blank(s[0]) && !Blank(s[|s| - 1])
    ensures forall i, j :: IsCore(s, i, j) ==> s[i..j] == s
  {
    forall i, j | IsCore(s, i, j) ensures s[i..j] == s {
      assert IsCore(s, 0, |s|) && s[0..|s|] == s;
      CoreIsUnique(s, i, j, 0, |s|);
    }
  }

  /** Below the cap a request is refused exactly when some active run works on its asset. */
  lemma AdmissionIff(m: Manager, q: Request)
    ensures |m.active| >= Cap(m.setting) ==> Admission(m, q) == Some(Capacity)
    ensures |m.active| < Cap(m.setting) ==>
              Admission(m, q) == if exists id :: id in m.active && id in m.records && SameAsset(m.records[id].request, q)
                                 then Some(AssetBusy) else None
  {
    hide Cap;
    forall id | id in m.active && id in m.records
      ensures AssetKey(m.records[id].request) == AssetKey(q) <==> SameAsset(m.records[id].request, q)
    {
      KeyIff(m.records[id].request, q);
    }
  }

  /** The cap is the setting when that is allowed, the nearest allowed number when it is a number, and else three. */
  lemma CapIs(setting: Option<Setting>)
    ensures 1 <= Cap(setting) <= 10
    ensures setting.None? || setting.value.Unparsable? ==> Cap(setting) == 3
    ensures setting.Some? && setting.value.Parsed? ==>
              var v := setting.value.value;
              forall c {:trigger Distance(c, v)} :: 1 <= c <= 10 ==> Distance(Cap(setting), v) <= Distance(c, v)
  {}

  function Distance(a: int, b: int): int { if a < b then b - a else a - b }

  /** Lifecycle values are taken over when all lie in their ranges, and else none is; the concurrency setting always is. */
  lemma ConfigureIs(m: Manager, life: Lifecycle, setting: Option<Setting>, cfg: Config, now: Time)
    ensures Do(m, Configure(setting), cfg, now) == m.(setting := setting)
    ensures var n := Do(m, ConfigureLife(life), cfg, now);
            if life.timeout < 300 || life.timeout > 86400 || life.beatInterval < 5 || life.beatInterval > 60
               || life.beatTimeout < 30 || life.beatTimeout > 600
            then n == m else n == m.(life := life)
  {}

  // ---- what an admitted run starts with ----

  /** A new run waits with a fresh deadline and heartbeat, and has nothing from any run before it. */
  ghost predicate Begins(r: Run, q: Request, life: Lifecycle, now: Time) {
    && r.request == q && r.status == Queued && r.progress == 0.0 && r.phase == None && r.agent == None
    && r.timeoutAt == Some(now + life.timeout) && r.beatTimeout == Some(life.beatTimeout) && r.beatInterval == life.beatInterval
    && r.beatAt == Some(now) && r.startedAt == None && r.finishedAt == None && r.expiresAt == None
    && r.reason == None && !r.retryable && r.signal == None && r.reportId == None
    && r.lease == None && !r.cancelled && r.nextNo == 1 && r.ring == []
  }

  /** A start, after the tidying: refused, or one new run in the table, the active set and the rows. */
  lemma StartIs(m0: Manager, id: RunId, q: Request, now: Time)
    ensures var m, n := Cleanup(m0, now), StartRun(m0, id, q, now);
            if Admission(m, q).Some? || id in m.records then n == m
            else
              && n.records.Keys == m.records.Keys + {id} && n.active == m.active + {id} && n.rows.Keys == m.rows.Keys + {id}
              && (forall i :: i in m.records ==> n.records[i] == m.records[i])
              && Begins(n.records[id], q, m0.life, now) && n.records[id].id == id
              && n.records[id].parent == None && n.records[id].attempt == 1 && n.records[id].checkpoint == None
              && n.events == m0.events && n.setting == m0.setting && n.life == m0.life
  {
    hide Admission, RowOf;
  }

  /** A retry is granted exactly to an ended run of the three kinds that may be retried and has a checkpoint; it begins as any
      run does, with the checkpoint of its parent and one more attempt. */
  lemma RetryIs(m0: Manager, parent: RunId, id: RunId, q: Request, now: Time)
    requires id !in m0.records && (parent in m0.records ==> m0.records[parent].id == parent && m0.records[parent].attempt >= 1)
    ensures var m, n := Cleanup(m0, now), RetryRun(m0, parent, id, q, now);
            if Admission(m, q).None? && parent in m.records
               && (m.records[parent].status == Failed || m.records[parent].status == TimedOut || m.records[parent].status == Interrupted)
               && m.records[parent].retryable && m.records[parent].checkpoint.Some?
            then
              && n.records.Keys == m.records.Keys + {id} && n.active == m.active + {id}
              && (forall i :: i in m.records ==> n.records[i] == m.records[i])
              && Begins(n.records[id], q, m0.life, now)
              && n.records[id].parent == Some(parent) && n.records[id].attempt == m.records[parent].attempt + 1
              && n.records[id].checkpoint == m.records[parent].checkpoint
            else n == m
  {
    hide Admission, RowOf;
  }

  /** `can_retry` says yes under the same conditions, for the run's own request. */
  lemma VerdictIs(m: Manager, id: RunId)
    ensures RetryVerdict(m, id) == None <==>
            && id in m.records
            && (m.records[id].status == Failed || m.records[id].status == TimedOut || m.records[id].status == Interrupted)
            && m.records[id].retryable && m.records[id].checkpoint.Some? && Admission(m, m.records[id].request).None?
  {
    hide Admission;
  }

  // ---- how long ----

  /** Tidying drops exactly the runs whose time is up; only ended runs have one. */
  lemma TidyIs(m: Manager, id: RunId, cfg: Config, now: Time)
    requires Inv(m, cfg) && id in m.records
    ensures var r := m.records[id];
            id !in Cleanup(m, now).records <==> r.status.Terminal() && r.expiresAt.Some? && now >= r.expiresAt.value
  {
    hide Mirrored, ActiveOk, LineageOk;
    assert RunOk(m.records[id], Log(m.events, id), cfg);
  }

  /** The deadline a run was admitted with stands for as long as it is retained, restarts included. */
  lemma {:induction false} DeadlineStands(m: Manager, tr: seq<Timed>, id: RunId, cfg: Config)
    requires Inv(m, cfg) && LegalTrace(m, tr, cfg) && id in m.records && Kept(m, tr, id, cfg)
    ensures id in Exec(m, tr, cfg).records && Exec(m, tr, cfg).records[id].timeoutAt == m.records[id].timeoutAt
    decreases |tr|
  {
    if tr != [] {
      hide Inv, Do, Legal;
      DoKeepsInv(m, tr[0].op, cfg, tr[0].now);
      DeadlineStep(m, tr[0].op, id, cfg, tr[0].now);
      DeadlineStands(Do(m, tr[0].op, cfg, tr[0].now), tr[1..], id, cfg);
    }
  }

  /** The run is in the table all along. */
  predicate Kept(m: Manager, tr: seq<Timed>, id: RunId, cfg: Config)
    decreases |tr|
  {
    tr != [] ==> id in Do(m, tr[0].op, cfg, tr[0].now).records && Kept(Do(m, tr[0].op, cfg, tr[0].now), tr[1..], id, cfg)
  }

  lemma DeadlineStep(m: Manager, op: Op, id: RunId, cfg: Config, now: Time)
    requires Inv(m, cfg) && Legal(m, op) && id in m.records && id in Do(m, op, cfg, now).records
    ensures Do(m, op, cfg, now).records[id].timeoutAt == m.records[id].timeoutAt
  {
    if op.Reload? {
      DeadlineReload(m, op.found, id, cfg, now);
    } else {
      hide Inv, Do, Legal, Step;
      StartedIsFresh(m, op, id, cfg, now);
      var a := OwnStep(m, op, id, cfg, now);
      if a.Some? { StepMoves(m.records[id], a.value, cfg, now); }
    }
  }

  lemma DeadlineReload(m: Manager, found: map<RunId, Published>, id: RunId, cfg: Config, now: Time)
    requires Inv(m, cfg) && id in m.records
    ensures var n := Do(m, Reload(found), cfg, now); id in n.records && n.records[id].timeoutAt == m.records[id].timeoutAt
  {
    RowIs(m, id, cfg);
    StoredOne(m, id, cfg);
    hide Inv, Do, Restarted, StoredOk;
    ReloadIs(m, found, id, cfg, now);
    RestartedOk(m.rows[id], Log(m.events, id), Found(found, id), cfg, now);
  }

  lemma StoredOne(m: Manager, id: RunId, cfg: Config)
    requires Inv(m, cfg) && id in m.rows
    ensures StoredOk(m.rows[id], Log(m.events, id)) && cfg.limit >= 1
  {
    InvStored(m, cfg);
  }

  /** A run started at `t0` does not wait past its timeout: whatever happened in between, the first sweep at or after the
      deadline finds it publishing or ended, or times it out. */
  lemma StartedTimesOut(m: Manager, id: RunId, q: Request, t0: Time, tr: seq<Timed>, cfg: Config, now: Time)
    requires Inv(m, cfg) && Legal(m, Start(id, q)) && StartRefusal(Cleanup(m, t0), id, q).None?
    requires var n := Do(m, Start(id, q), cfg, t0); LegalTrace(n, tr, cfg) && Kept(n, tr, id, cfg)
    requires now >= t0 + m.life.timeout
    ensures var d := Exec(Do(m, Start(id, q), cfg, t0), tr, cfg);
            && id in d.records
            && var r := Do(d, Watchdog, cfg, now).records[id];
            && r.status != Queued && r.status != Running
            && (d.records[id].status == Queued || d.records[id].status == Running ==> r.status == TimedOut)
  {
    var n := Do(m, Start(id, q), cfg, t0);
    DoKeepsInv(m, Start(id, q), cfg, t0);
    StartedDeadline(m, id, q, cfg, t0);
    hide Inv, Do, Exec, LegalTrace, Kept, Cleanup, StartRefusal;
    DeadlineStands(n, tr, id, cfg);
    SweepTimesOut(Exec(n, tr, cfg), id, cfg, now);
  }

  lemma StartedDeadline(m: Manager, id: RunId, q: Request, cfg: Config, t0: Time)
    requires StartRefusal(Cleanup(m, t0), id, q).None?
    ensures var n := Do(m, Start(id, q), cfg, t0); id in n.records && n.records[id].timeoutAt == Some(t0 + m.life.timeout)
  {
    hide Admission, Cleanup;
    StartIs(m, id, q, t0);
  }

  lemma SweepTimesOut(m: Manager, id: RunId, cfg: Config, now: Time)
    requires id in m.records && m.records[id].timeoutAt.Some? && now >= m.records[id].timeoutAt.value
    ensures var n := Do(m, Watchdog, cfg, now);
            && id in n.records && n.records[id].status != Queued && n.records[id].status != Running
            && (m.records[id].status == Queued || m.records[id].status == Running ==> n.records[id].status == TimedOut)
  {
    hide Checked, CheckedEvents, RowOf;
    ExpiryCarries(m.records[id], cfg, now);
  }
}
