/** The run manager as a value: the table of runs, the active set, the settings and the two durable tables.
    `Do` is what one lock-protected call, or one restart, makes of it. */
module ManagerModel {
  import opened Basics
  import opened Runs
  import opened RunInvariants

  const DEFAULT_CAP := 3
  const MIN_CAP := 1
  const MAX_CAP := 10

  datatype Setting = Parsed(value: int) | Unparsable
  datatype Lifecycle = Lifecycle(timeout: nat, beatInterval: nat, beatTimeout: nat)
  {
    /** The ranges `configure_lifecycle` accepts. */
    predicate InRange() { 300 <= timeout <= 86400 && 5 <= beatInterval <= 60 && 30 <= beatTimeout <= 600 }
  }

  datatype Manager = Manager(
    records: map<RunId, Run>, active: set<RunId>, setting: Option<Setting>, life: Lifecycle,
    rows: map<RunId, Run>, events: map<RunId, seq<Event>>)

  datatype Refusal = Capacity | AssetBusy | IdExists | RunNotFound | NotRetryable | ReasonNotRetryable | NoCheckpoint

  // ---- admission ----

  function Cap(setting: Option<Setting>): (cap: nat)
    ensures MIN_CAP <= cap <= MAX_CAP
  {
    match setting
    case None => DEFAULT_CAP
    case Some(Unparsable) => DEFAULT_CAP
    case Some(Parsed(v)) => if v > MAX_CAP then MAX_CAP else if v < MIN_CAP then MIN_CAP else v
  }

  function AssetKey(q: Request): (string, AssetType) { (Upper(Strip(q.ticker)), q.assetType) }

  predicate Busy(m: Manager, q: Request) {
    exists id :: id in m.active && id in m.records && AssetKey(m.records[id].request) == AssetKey(q)
  }

  /** `_check_admission_locked`: capacity is tested first. */
  function Admission(m: Manager, q: Request): Option<Refusal> {
    if |m.active| >= Cap(m.setting) then Some(Capacity)
    else if Busy(m, q) then Some(AssetBusy)
    else None
  }

  // ---- single-run calls ----

  function Log(events: map<RunId, seq<Event>>, id: RunId): seq<Event> { if id in events then events[id] else [] }

  function Store(events: map<RunId, seq<Event>>, id: RunId, e: Option<Event>): map<RunId, seq<Event>> {
    if e.Some? then events[id := Insert(Log(events, id), e.value)] else events
  }

  function Put(m: Manager, id: RunId, o: Outcome): Manager
    requires id in m.records
  {
    m.(records := m.records[id := o.run],
       active := if !m.records[id].status.Terminal() && o.run.status.Terminal() then m.active - {id} else m.active,
       rows := m.rows[id := RowOf(o.run)],
       events := Store(m.events, id, o.event))
  }

  function Act(m: Manager, id: RunId, a: Action, cfg: Config, now: Time): Manager {
    if id in m.records then Put(m, id, Step(m.records[id], a, cfg, now)) else m
  }

  // ---- calls over the whole table ----

  predicate Expired(r: Run, now: Time) { r.expiresAt.Some? && r.expiresAt.value <= now }

  /** `cleanup` drops expired records and their rows; their event rows stay. */
  function Cleanup(m: Manager, now: Time): Manager {
    var gone := set id | id in m.records && Expired(m.records[id], now);
    m.(records := m.records - gone, rows := m.rows - gone)
  }

  function CheckedEvents(m: Manager, cfg: Config, now: Time): map<RunId, seq<Event>> {
    var ended := set id | id in m.records && Checked(m.records[id], cfg, now).event.Some?;
    map id | id in m.events.Keys + ended ::
      if id in ended then Insert(Log(m.events, id), Checked(m.records[id], cfg, now).event.value) else m.events[id]
  }

  /** `_check_all_expired_locked`, the watchdog's sweep. */
  function CheckAll(m: Manager, cfg: Config, now: Time): Manager {
    var records := map id | id in m.records :: Checked(m.records[id], cfg, now).run;
    m.(records := records,
       active := (set id | id in m.active && !(id in records && !m.records[id].status.Terminal() && records[id].status.Terminal())),
       rows := (map id | id in m.rows.Keys + records.Keys :: if id in records then RowOf(records[id]) else m.rows[id]),
       events := CheckedEvents(m, cfg, now))
  }

  // ---- new runs ----

  function NewRun(id: RunId, q: Request, life: Lifecycle, now: Time): Run {
    Run(id, q, Queued, None, None, 0.0, None, None, None,
        Some(now + life.timeout), Some(life.beatTimeout), life.beatInterval, Some(now), Some(now),
        None, false, None, None, None, None, 1, None, false, 1, [])
  }

  function Admit(m: Manager, r: Run): Manager {
    m.(records := m.records[r.id := r], active := m.active + {r.id}, rows := m.rows[r.id := RowOf(r)])
  }

  function StartRefusal(m: Manager, id: RunId, q: Request): Option<Refusal> {
    var refused := Admission(m, q);
    if refused.Some? then refused else if id in m.records then Some(IdExists) else None
  }

  function StartRun(m0: Manager, id: RunId, q: Request, now: Time): Manager {
    var m := Cleanup(m0, now);
    if StartRefusal(m, id, q).Some? then m else Admit(m, NewRun(id, q, m.life, now))
  }

  predicate RetryableStatus(s: Status) { s.Failed? || s.TimedOut? || s.Interrupted? }

  /** `can_retry`. */
  function RetryVerdict(m: Manager, id: RunId): Option<Refusal> {
    if id !in m.records then Some(RunNotFound)
    else if !RetryableStatus(m.records[id].status) then Some(NotRetryable)
    else if !m.records[id].retryable then Some(ReasonNotRetryable)
    else if m.records[id].checkpoint.None? then Some(NoCheckpoint)
    else Admission(m, m.records[id].request)
  }

  /** The checks of `retry_run`, which test admission before the parent. */
  function RetryRefusal(m: Manager, parent: RunId, q: Request): Option<Refusal> {
    var refused := Admission(m, q);
    if refused.Some? then refused
    else if parent !in m.records then Some(RunNotFound)
    else if !RetryableStatus(m.records[parent].status) then Some(NotRetryable)
    else if !m.records[parent].retryable then Some(ReasonNotRetryable)
    else if m.records[parent].checkpoint.None? then Some(NoCheckpoint)
    else None
  }

  function Child(parent: Run, id: RunId, q: Request, life: Lifecycle, now: Time): Run {
    NewRun(id, q, life, now).(parent := Some(parent.id), checkpoint := parent.checkpoint,
                              attempt := (if parent.attempt == 0 then 1 else parent.attempt) + 1)
  }

  function RetryRun(m0: Manager, parent: RunId, id: RunId, q: Request, now: Time): Manager {
    var m := Cleanup(m0, now);
    if RetryRefusal(m, parent, q).Some? then m
    else Admit(m, Child(m.records[parent], id, q, m.life, now))
  }

  // ---- restart ----

  function Found(found: map<RunId, Published>, id: RunId): Option<Published> {
    if id in found then Some(found[id]) else None
  }

  function RestartedEvents(rows: map<RunId, Run>, events: map<RunId, seq<Event>>, found: map<RunId, Published>,
                           cfg: Config, now: Time): map<RunId, seq<Event>>
  {
    var ended := set id | id in rows && Restarted(rows[id], Log(events, id), Found(found, id), cfg, now).event.Some?;
    map id | id in events.Keys + ended ::
      if id in ended then Insert(Log(events, id), Restarted(rows[id], Log(events, id), Found(found, id), cfg, now).event.value)
      else events[id]
  }

  /** The process dies and a new manager loads the two tables; memory starts empty. */
  function Restart(rows: map<RunId, Run>, events: map<RunId, seq<Event>>, found: map<RunId, Published>,
                   setting: Option<Setting>, life: Lifecycle, cfg: Config, now: Time): Manager
  {
    var records := map id | id in rows :: Restarted(rows[id], Log(events, id), Found(found, id), cfg, now).run;
    Manager(records, {}, setting, life, (map id | id in records :: RowOf(records[id])),
            RestartedEvents(rows, events, found, cfg, now))
  }

  // ---- all steps ----

  datatype Op =
    | Start(id: RunId, request: Request)
    | Retry(parent: RunId, id: RunId, request: Request)
    | On(id: RunId, action: Action)
    | Watchdog
    | Tidy
    | Configure(setting: Option<Setting>)
    | ConfigureLife(life: Lifecycle)
    | Reload(found: map<RunId, Published>)

  function Do(m: Manager, op: Op, cfg: Config, now: Time): Manager {
    match op
    case Start(id, q) => StartRun(m, id, q, now)
    case Retry(parent, id, q) => RetryRun(m, parent, id, q, now)
    case On(id, a) => Act(m, id, a, cfg, now)
    case Watchdog => CheckAll(m, cfg, now)
    case Tidy => Cleanup(m, now)
    case Configure(setting) => m.(setting := setting)
    case ConfigureLife(life) => if life.InRange() then m.(life := life) else m
    case Reload(found) => Restart(m.rows, m.events, found, m.setting, m.life, cfg, now)
  }

  /** The callers' side: generated run ids are fresh, and published events are not terminal ones. */
  predicate Legal(m: Manager, op: Op) {
    match op
    case Start(id, _) => id !in m.events
    case Retry(_, id, _) => id !in m.events && id !in m.records
    case On(_, a) => Proper(a)
    case _ => true
  }

  // ---- the invariant ----

  ghost predicate RunsOk(m: Manager, cfg: Config) {
    forall id :: id in m.records ==> m.records[id].id == id && RunOk(m.records[id], Log(m.events, id), cfg)
  }

  ghost predicate Mirrored(m: Manager) { Mirror(m.rows, m.records) }

  ghost predicate Mirror(rows: map<RunId, Run>, records: map<RunId, Run>) {
    rows.Keys == records.Keys && forall id :: id in rows ==> rows[id] == RowOf(records[id])
  }

  /** The active set is exactly the unfinished runs, at most ten, no two of the same asset. */
  ghost predicate ActiveOk(active: set<RunId>, records: map<RunId, Run>) {
    && (forall id :: id in active <==> id in records && !records[id].status.Terminal())
    && AssetsApart(active, records)
    && |active| <= MAX_CAP
  }

  ghost predicate AssetsApart(active: set<RunId>, records: map<RunId, Run>) {
    && active <= records.Keys
    && forall i, j :: i in active && j in active && i != j ==> AssetKey(records[i].request) != AssetKey(records[j].request)
  }

  /** A retry counts one more than its parent, for as long as the parent is retained; a parent has left events. */
  ghost predicate LineageOk(m: Manager) {
    forall id :: id in m.records ==>
      m.records[id].attempt >= 1 &&
      (m.records[id].parent.Some? ==>
         var p := m.records[id].parent.value;
         p in m.events && (p in m.records ==> m.records[id].attempt == m.records[p].attempt + 1))
  }

  ghost predicate Inv(m: Manager, cfg: Config) {
    cfg.limit >= 1 && RunsOk(m, cfg) && Mirrored(m) && ActiveOk(m.active, m.records) && LineageOk(m)
  }

  /** An empty installation. */
  function Empty(life: Lifecycle): Manager { Manager(map[], {}, None, life, map[], map[]) }

  lemma EmptyOk(life: Lifecycle, cfg: Config)
    requires cfg.limit >= 1
    ensures Inv(Empty(life), cfg)
  {}
}
