/** What a record and a subscriber's view say, read off the event log by position, and what one publication logs. */
module Readings {
  import opened Basics
  import opened Runs
  import opened RunInvariants
  import opened ManagerModel
  import opened ManagerInvariants
  import opened ManagerTraces
  import opened Streaming

  // ---- the last word on each field ----

  /** The events that name a phase. */
  predicate NamesPhase(b: Body, phase: string) { b == PhaseChanged(phase) || (b.Progress? && b.phase == phase) }

  /** The phase is that of the last phase change or progress event; without one there is none. */
  ghost predicate LastPhase(log: seq<Event>, phase: Option<string>) {
    if phase.None? then forall i :: 0 <= i < |log| ==> !log[i].body.PhaseChanged? && !log[i].body.Progress?
    else exists i :: 0 <= i < |log| && NamesPhase(log[i].body, phase.value)
                     && forall j :: i < j < |log| ==> !log[j].body.PhaseChanged? && !log[j].body.Progress?
  }

  predicate SetsAgent(b: Body) { b.Progress? || (b.AgentStatus? && b.state.InProgress?) }

  predicate NamesAgent(b: Body, agent: Option<string>) {
    (b.Progress? && b.agent == agent) || (agent.Some? && b == AgentStatus(agent.value, InProgress))
  }

  /** The agent is the one last reported in progress or in a progress event. */
  ghost predicate LastAgent(log: seq<Event>, agent: Option<string>) {
    || (agent.None? && forall i :: 0 <= i < |log| ==> !SetsAgent(log[i].body))
    || exists i :: 0 <= i < |log| && NamesAgent(log[i].body, agent) && forall j :: i < j < |log| ==> !SetsAgent(log[j].body)
  }

  ghost predicate LastProgress(log: seq<Event>, progress: real) {
    || (progress == 0.0 && forall i :: 0 <= i < |log| ==> !log[i].body.Progress?)
    || exists i :: 0 <= i < |log| && log[i].body.Progress? && log[i].body.progress == progress
                   && forall j :: i < j < |log| ==> !log[j].body.Progress?
  }

  /** Phase, agent and progress as a log gives them. */
  ghost predicate Says(log: seq<Event>, phase: Option<string>, agent: Option<string>, progress: real) {
    LastPhase(log, phase) && LastAgent(log, agent) && LastProgress(log, progress)
  }

  lemma PhaseSnoc(log: seq<Event>, e: Event, phase: Option<string>)
    requires LastPhase(log, phase)
    ensures LastPhase(log + [e], if e.body.PhaseChanged? || e.body.Progress? then Some(e.body.phase) else phase)
  {
    var next := log + [e];
    if e.body.PhaseChanged? || e.body.Progress? {
      assert NamesPhase(next[|log|].body, e.body.phase);
    } else if phase.Some? {
      var i :| 0 <= i < |log| && NamesPhase(log[i].body, phase.value)
               && forall j :: i < j < |log| ==> !log[j].body.PhaseChanged? && !log[j].body.Progress?;
      assert NamesPhase(next[i].body, phase.value);
    }
  }

  lemma AgentSnoc(log: seq<Event>, e: Event, agent: Option<string>)
    requires LastAgent(log, agent)
    ensures LastAgent(log + [e], if e.body.Progress? then e.body.agent
                                 else if e.body.AgentStatus? && e.body.state.InProgress? then Some(e.body.name) else agent)
  {
    var next := log + [e];
    if SetsAgent(e.body) {
      assert NamesAgent(next[|log|].body, if e.body.Progress? then e.body.agent else Some(e.body.name));
    } else if i :| 0 <= i < |log| && NamesAgent(log[i].body, agent) && forall j :: i < j < |log| ==> !SetsAgent(log[j].body) {
      assert NamesAgent(next[i].body, agent);
    }
  }

  lemma ProgressSnoc(log: seq<Event>, e: Event, progress: real)
    requires LastProgress(log, progress)
    ensures LastProgress(log + [e], if e.body.Progress? then e.body.progress else progress)
  {
    var next := log + [e];
    if e.body.Progress? {
      assert next[|log|].body.progress == e.body.progress;
    } else if i :| 0 <= i < |log| && log[i].body.Progress? && log[i].body.progress == progress
                   && forall j :: i < j < |log| ==> !log[j].body.Progress? {
      assert next[i].body.progress == progress;
    }
  }

  /** The fold of a log is the last word of the log on each field. */
  lemma {:induction false} FoldSays(log: seq<Event>)
    ensures Says(log, Fold(log).phase, Fold(log).agent, Fold(log).progress)
  {
    if log != [] {
      hide LastPhase, LastAgent, LastProgress;
      var n := |log| - 1;
      var v := Fold(log[..n]);
      FoldSays(log[..n]);
      PhaseSnoc(log[..n], log[n], v.phase);
      AgentSnoc(log[..n], log[n], v.agent);
      ProgressSnoc(log[..n], log[n], v.progress);
      assert log == log[..n] + [log[n]];
    }
  }

  /** A log has only one reading. */
  lemma SaysOneThing(log: seq<Event>, phase: Option<string>, agent: Option<string>, progress: real,
                     phase': Option<string>, agent': Option<string>, progress': real)
    requires Says(log, phase, agent, progress) && Says(log, phase', agent', progress')
    ensures phase == phase' && agent == agent' && progress == progress'
  {
    PhaseIsOne(log, phase, phase');
    AgentIsOne(log, agent, agent');
  }

  lemma PhaseIsOne(log: seq<Event>, phase: Option<string>, phase': Option<string>)
    requires LastPhase(log, phase) && LastPhase(log, phase')
    ensures phase == phase'
  {}

  lemma AgentIsOne(log: seq<Event>, agent: Option<string>, agent': Option<string>)
    requires LastAgent(log, agent) && LastAgent(log, agent')
    ensures agent == agent'
  {}

  // ---- records and subscribers ----

  /** In every state of the manager, a live record says what its durable log says last. */
  lemma LiveRecordSays(m: Manager, id: RunId, cfg: Config)
    requires Inv(m, cfg) && id in m.records && !m.records[id].status.Terminal()
    ensures var r := m.records[id]; Says(Log(m.events, id), r.phase, r.agent, r.progress)
  {
    hide Says, Mirrored, ActiveOk, LineageOk;
    assert RunOk(m.records[id], Log(m.events, id), cfg);
    FoldSays(Log(m.events, id));
  }

  /** So it does after every history. */
  lemma LiveAfterHistory(m: Manager, tr: seq<Timed>, id: RunId, cfg: Config)
    requires Inv(m, cfg) && LegalTrace(m, tr, cfg)
    ensures var n := Exec(m, tr, cfg);
            id in n.records && !n.records[id].status.Terminal() ==>
              Says(Log(n.events, id), n.records[id].phase, n.records[id].agent, n.records[id].progress)
  {
    hide Inv, Exec, LegalTrace, Says;
    ExecKeepsInv(m, tr, cfg);
    var n := Exec(m, tr, cfg);
    if id in n.records && !n.records[id].status.Terminal() { LiveRecordSays(n, id, cfg); }
  }

  /** And so does what a subscriber shows once it stands at the end of a live run's log, however its stream was interrupted. */
  lemma SubscriberSays(m: Manager, id: RunId, moves: seq<Streaming.Move>, cfg: Config)
    requires Inv(m, cfg) && LegalPlay(Scene(m, FRESH), id, moves, cfg)
    ensures var d := Play(Scene(m, FRESH), id, moves, cfg);
            id in d.m.records && !d.m.records[id].status.Terminal() && !d.s.stopped && d.s.cursor == |Log(d.m.events, id)| ==>
              Says(Log(d.m.events, id), d.s.view.phase, d.s.view.agent, d.s.view.progress)
  {
    hide Inv, Play, LegalPlay, Says, SubOk;
    FreshReads(m, id, moves, cfg);
    var d := Play(Scene(m, FRESH), id, moves, cfg);
    if id in d.m.records && !d.m.records[id].status.Terminal() {
      LiveRecordSays(d.m, id, cfg);
      NextIsLength(d.m, id, cfg);
    }
  }

  lemma NextIsLength(m: Manager, id: RunId, cfg: Config)
    requires Inv(m, cfg) && id in m.records
    ensures m.records[id].nextNo == |Log(m.events, id)| + 1
  {
    hide Mirrored, ActiveOk, LineageOk;
    assert RunOk(m.records[id], Log(m.events, id), cfg);
  }

  // ---- one publication ----

  /** The number of the unit interval nearest to `p`. */
  ghost predicate Nearest(q: real, p: real) { 0.0 <= q <= 1.0 && forall x: real :: 0.0 <= x <= 1.0 ==> Gap(q, p) <= Gap(x, p) }

  function Gap(x: real, y: real): real { if x < y then y - x else x - y }

  lemma ClampIsNearest(p: real)
    ensures Nearest(Clamp(p), p)
  {}

  lemma NearestIsOne(q: real, x: real, p: real)
    requires Nearest(q, p) && Nearest(x, p)
    ensures q == x
  {
    var h := (q + x) / 2.0;
    assert Gap(q, p) <= Gap(h, p) && Gap(x, p) <= Gap(h, p);
  }

  /** A publication on a live run that is not expired. Progress that would go back, measured within 0 and 1, is dropped and
      changes nothing; everything else is logged as it came, progress moved to the nearest value within 0 and 1. */
  lemma PublicationLogs(r: Run, body: Body, cfg: Config, now: Time)
    requires !r.status.Terminal() && !Checked(r, cfg, now).run.status.Terminal()
    ensures var o := Step(r, Action.PublishEvent(body), cfg, now);
            if body.Progress? && (exists q :: Nearest(q, body.progress) && q < r.progress) then o == Outcome(r, None, false)
            else
              && o.ok && o.event.Some? && o.event.value.no == r.nextNo && o.run.nextNo == r.nextNo + 1
              && (if body.Progress? then o.event.value.body.Progress? && Nearest(o.event.value.body.progress, body.progress)
                                         && o.event.value.body == body.(progress := o.event.value.body.progress)
                  else o.event.value.body == body)
  {
    CheckedFacts(r, cfg, now);
    hide Checked, Append;
    if body.Progress? {
      ClampIsNearest(body.progress);
      hide Nearest;
      if q :| Nearest(q, body.progress) && q < r.progress { NearestIsOne(q, Clamp(body.progress), body.progress); }
    }
  }
}
