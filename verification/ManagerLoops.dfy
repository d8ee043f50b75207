/** The manager's loops, half way through: what the table looks like when only some runs have had their turn. */
module ManagerLoops {
  import opened Basics
  import opened Runs
  import opened RunInvariants
  import opened ManagerModel

  /** What has become of each run so far: its record now, and the event it has logged, if any. */
  type Outcomes = map<RunId, Outcome>

  ghost function RecordsOf(outs: Outcomes): map<RunId, Run> { map id | id in outs :: outs[id].run }

  ghost function RowsOver(outs: Outcomes, rows: map<RunId, Run>): map<RunId, Run> {
    map id | id in rows.Keys + outs.Keys :: if id in outs then RowOf(outs[id].run) else rows[id]
  }

  ghost function EventsOver(outs: Outcomes, events: map<RunId, seq<Event>>): map<RunId, seq<Event>> {
    map id | id in events.Keys + (set i | i in outs && outs[i].event.Some?) ::
      if id in outs && outs[id].event.Some? then Insert(Log(events, id), outs[id].event.value) else events[id]
  }

  ghost function ActiveOver(outs: Outcomes, base: Manager): set<RunId> {
    set id | id in base.active && !(id in base.records && id in outs && !base.records[id].status.Terminal() && outs[id].run.status.Terminal())
  }

  ghost function Over(outs: Outcomes, base: Manager): Manager {
    base.(records := RecordsOf(outs), active := ActiveOver(outs, base), rows := RowsOver(outs, base.rows),
          events := EventsOver(outs, base.events))
  }

  /** A second outcome after a first one; at most one of the two logs an event. */
  ghost predicate Then(a: Outcome, o: Outcome, b: Outcome) {
    b.run == o.run && if o.event.Some? then a.event.None? && b.event == o.event else b.event == a.event
  }

  lemma EventsMove(outs: Outcomes, events: map<RunId, seq<Event>>, id: RunId, o: Outcome, b: Outcome)
    requires id in outs && Then(outs[id], o, b)
    ensures EventsOver(outs[id := b], events) == Store(EventsOver(outs, events), id, o.event)
  {
    hide Insert;
    var s, t := EventsOver(outs, events), EventsOver(outs[id := b], events);
    if o.event.Some? { assert Log(s, id) == Log(events, id); }
    assert t.Keys == Store(s, id, o.event).Keys;
  }

  lemma ActiveMoves(outs: Outcomes, base: Manager, id: RunId, o: Outcome, b: Outcome)
    requires id in outs && b.run == o.run
    requires id in base.records ==> base.records[id].status.Terminal() == outs[id].run.status.Terminal()
    requires id in base.active ==> id in base.records
    ensures ActiveOver(outs[id := b], base)
            == if !outs[id].run.status.Terminal() && o.run.status.Terminal() then ActiveOver(outs, base) - {id} else ActiveOver(outs, base)
  {}

  /** One more outcome for one run is one store of that outcome. */
  lemma OverMoves(outs: Outcomes, base: Manager, id: RunId, o: Outcome, b: Outcome)
    requires id in outs && Then(outs[id], o, b)
    requires id in base.records ==> base.records[id].status.Terminal() == outs[id].run.status.Terminal()
    requires id in base.active ==> id in base.records
    ensures Over(outs[id := b], base) == Put(Over(outs, base), id, o)
  {
    hide Insert, RowOf, EventsOver, Store, ActiveOver;
    EventsMove(outs, base.events, id, o, b);
    ActiveMoves(outs, base, id, o, b);
    assert RecordsOf(outs[id := b]) == RecordsOf(outs)[id := o.run];
    assert RowsOver(outs[id := b], base.rows) == RowsOver(outs, base.rows)[id := RowOf(o.run)];
  }

  // ---- the watchdog's sweep ----

  ghost function Untouched(m: Manager): Outcomes { map id | id in m.records :: Outcome(m.records[id], None, false) }

  lemma OverUntouched(m: Manager)
    requires Mirrored(m)
    ensures Over(Untouched(m), m) == m
  {
    hide RowOf, Insert;
    var o := Over(Untouched(m), m);
    assert o.records == m.records && o.active == m.active && o.rows == m.rows && o.events == m.events;
  }

  lemma EventsChecked(outs: Outcomes, m: Manager, cfg: Config, now: Time)
    requires outs.Keys == m.records.Keys && forall id :: id in outs ==> outs[id] == Checked(m.records[id], cfg, now)
    ensures EventsOver(outs, m.events) == CheckedEvents(m, cfg, now)
  {
    hide Checked, Insert;
  }

  lemma OverChecked(outs: Outcomes, m: Manager, cfg: Config, now: Time)
    requires outs.Keys == m.records.Keys && forall id :: id in outs ==> outs[id] == Checked(m.records[id], cfg, now)
    ensures Over(outs, m) == CheckAll(m, cfg, now)
  {
    hide RowOf, Checked, Insert, EventsOver, CheckedEvents;
    var s, c := Over(outs, m), CheckAll(m, cfg, now);
    EventsChecked(outs, m, cfg, now);
    assert s.records == c.records && s.active == c.active && s.rows == c.rows;
  }

  // ---- the three passes of a reload ----

  function ReadBack(row: Run, log: seq<Event>, cfg: Config): Outcome { Outcome(Loaded(row, log, cfg), None, false) }

  function Recovery(row: Run, log: seq<Event>, found: Option<Published>, cfg: Config, now: Time): Outcome {
    var loaded := Loaded(row, log, cfg);
    if loaded.status.Terminal() then Outcome(loaded, None, false) else Recovered(loaded, found, cfg, now)
  }

  function Repair(r: Run, cfg: Config, now: Time): Outcome { Repaired(Normalized(r, cfg, now), cfg) }

  /** Recovery leaves a terminal event in the ring, so a recovered run is never repaired as well. */
  lemma RepairedOnce(row: Run, log: seq<Event>, found: Option<Published>, cfg: Config, now: Time)
    requires cfg.limit >= 1
    ensures var o := Recovery(row, log, found, cfg, now);
            Then(o, Repair(o.run, cfg, now), Restarted(row, log, found, cfg, now))
  {
    var o := Recovery(row, log, found, cfg, now);
    if o.event.Some? {
      assert o.run.ring[|o.run.ring| - 1] == o.event.value;
      assert Normalized(o.run, cfg, now).ring == o.run.ring;
    }
  }

  lemma RecoveryCases(row: Run, log: seq<Event>, found: Option<Published>, cfg: Config, now: Time)
    ensures var b, o := ReadBack(row, log, cfg), Recovery(row, log, found, cfg, now);
            o == (if b.run.status.Terminal() then b else Recovered(b.run, found, cfg, now)) && b.event.None? && o.run.status.Terminal()
  {
    hide EndedRun;
    var r := Loaded(row, log, cfg);
    if r.status.Publishing? {
      FinishFacts(r, {Publishing}, Failed, PublishIncomplete, false, None, None, cfg, now);
      if found.Some? {
        FinishFacts(r, {Publishing}, Completed, CompletedReason, false, found.value.signal, Some(found.value.reportId), cfg, now);
      }
    } else if !r.status.Terminal() {
      FinishFacts(r, {Queued, Running}, Interrupted, ServiceRestarted, true, None, None, cfg, now);
    }
  }

  lemma EventsReadBack(outs: Outcomes, events: map<RunId, seq<Event>>, id: RunId, b: Outcome)
    requires id !in outs && b.event.None?
    ensures EventsOver(outs[id := b], events) == EventsOver(outs, events)
  {
    hide Insert;
  }

  /** Reading back a run adds its record and nothing else. */
  lemma OverReadBack(outs: Outcomes, base: Manager, id: RunId, b: Outcome)
    requires id !in outs && id in base.rows && base.active == {} && b.event.None? && base.rows[id] == RowOf(b.run)
    ensures Over(outs[id := b], base) == Over(outs, base).(records := Over(outs, base).records[id := b.run])
  {
    hide EventsOver, RowOf;
    EventsReadBack(outs, base.events, id, b);
    var s, t := Over(outs, base), Over(outs[id := b], base);
    assert t.records == s.records[id := b.run] && t.active == s.active && t.rows == s.rows;
  }

  lemma OverNothing(base: Manager)
    requires base.records == map[]
    ensures Over(map[], base) == base
  {
    var o := Over(map[], base);
    assert o.records == base.records && o.active == base.active && o.rows == base.rows && o.events == base.events;
  }

  /** Once every run has had its last pass the reload is complete. */
  lemma OverRestarted(outs: Outcomes, base: Manager, found: map<RunId, Published>, cfg: Config, now: Time)
    requires outs.Keys == base.rows.Keys && base.active == {}
    requires forall id :: id in outs ==>
      outs[id] == Restarted(base.rows[id], Log(base.events, id), Found(found, id), cfg, now)
    ensures Over(outs, base) == Restart(base.rows, base.events, found, base.setting, base.life, cfg, now)
  {
    hide RowOf, Insert, Restarted;
    var s, r := Over(outs, base), Restart(base.rows, base.events, found, base.setting, base.life, cfg, now);
    assert s.records == r.records && s.active == r.active;
    assert s.rows == r.rows;
    assert s.events == r.events;
  }
}
