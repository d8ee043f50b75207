/** The audit log of write operations and the confirm endpoint: claims, sweepers and queued retries, interleaved. */
module AuditProtocol {
  import opened Basics

  datatype AuditStatus = Pending | Confirmed | Rejected | Executed | Failed | Expired
  /** Rows are stamped with microseconds, cutoffs with whole seconds; both are compared as text. */
  datatype Stamp = Stamp(second: int, micros: nat)
  datatype AuditRow = AuditRow(status: AuditStatus, created: Stamp, confirmedBy: Option<string>, error: Option<string>)
  type Rows = map<nat, AuditRow>

  predicate Older(s: Stamp, cutoff: int) { s.second < cutoff || (s.second == cutoff && s.micros > 0) }

  // ---- statements on the table ----

  function Claimed(rows: Rows, id: nat, approve: bool, who: string): Rows {
    if id in rows && rows[id].status.Pending?
    then rows[id := rows[id].(status := if approve then Confirmed else Rejected, confirmedBy := Some(who))] else rows
  }

  predicate Wins(rows: Rows, id: nat) { id in rows && rows[id].status.Pending? }

  /** `UPDATE ... SET status` and, when given, the error. */
  function Updated(rows: Rows, id: nat, status: AuditStatus, error: Option<string>): Rows {
    if id in rows then rows[id := rows[id].(status := status, error := if error.Some? then error else rows[id].error)] else rows
  }

  function SweptPending(rows: Rows, cutoff: int): Rows {
    map id | id in rows :: if rows[id].status.Pending? && Older(rows[id].created, cutoff)
                           then rows[id].(status := Expired, error := Some("orphan: no confirmation")) else rows[id]
  }

  function SweptConfirmed(rows: Rows, cutoff: int): Rows {
    map id | id in rows :: if rows[id].status.Confirmed? && Older(rows[id].created, cutoff)
                           then rows[id].(status := Expired, error := Some("orphan: confirmed but never executed")) else rows[id]
  }

  // ---- the queue of failed updates ----

  /** Only outcomes are ever queued. */
  datatype Outcome = Ran | Broke(error: string)
  {
    function Status(): AuditStatus { if Ran? then Executed else Failed }
    function Error(): Option<string> { if Ran? then None else Some(error) }
  }

  datatype Update = Update(id: nat, outcome: Outcome, attempts: nat)

  const MAX_ATTEMPTS := 3

  predicate Queued(queue: seq<Update>, id: nat, status: AuditStatus) {
    exists k :: 0 <= k < |queue| && queue[k].id == id && queue[k].outcome.Status() == status
  }

  function Enqueued(queue: seq<Update>, id: nat, outcome: Outcome): seq<Update> {
    if Queued(queue, id, outcome.Status()) then queue else queue + [Update(id, outcome, 0)]
  }

  /** A statement may fail before or after it has taken effect. */
  datatype Fault = Fine | Before | After

  function Effect<T>(fault: Fault, before: T, after: T): T { if fault.Before? then before else after }

  function RetriedRows(rows: Rows, queue: seq<Update>, faults: seq<Fault>): Rows
    requires |faults| == |queue|
  {
    if queue == [] then rows
    else
      var n := |queue| - 1;
      var r := RetriedRows(rows, queue[..n], faults[..n]);
      Effect(faults[n], r, Updated(r, queue[n].id, queue[n].outcome.Status(), queue[n].outcome.Error()))
  }

  /** What stays queued: failed again, with attempts left. */
  function RetriedQueue(queue: seq<Update>, faults: seq<Fault>): seq<Update>
    requires |faults| == |queue|
  {
    if queue == [] then []
    else
      var n := |queue| - 1;
      RetriedQueue(queue[..n], faults[..n])
      + if !faults[n].Fine? && queue[n].attempts + 1 < MAX_ATTEMPTS then [queue[n].(attempts := queue[n].attempts + 1)] else []
  }

  // ---- the confirm endpoint ----

  datatype Pc =
    | Entering(given: Option<nat>)
    | Claiming(id: nat)
    | Granting(id: nat)
    | Preparing(id: nat)      // registry lookup and argument validation
    | Invoking(id: nat)
    | Consuming(id: nat)      // result handling and consume_approval
    | Marking(id: nat, outcome: Outcome)
    | Over
  {
    /** Between the winning claim and the end. */
    predicate Holds() { Granting? || Preparing? || Invoking? || Consuming? || Marking? }
    predicate NotYetInvoked() { Granting? || Preparing? || Invoking? }
  }

  datatype Proc = Proc(approve: bool, pc: Pc)

  /** `won` records the winning claims and `invoked` the tool invocations, in order. */
  datatype Sys = Sys(rows: Rows, last: nat, queue: seq<Update>, procs: map<nat, Proc>, won: map<nat, bool>, invoked: seq<nat>)

  datatype Step =
    | Request(p: nat, given: Option<nat>, approve: bool)
    | LogRow(p: nat, now: Stamp, fault: Fault)
    | Claim(p: nat, fault: Fault)
    | Grant(p: nat, ok: bool)
    | Prepare(p: nat, failure: Option<string>)
    | Invoke(p: nat, failure: Option<string>)
    | Consume(p: nat, failure: Option<string>)
    | Mark(p: nat, fault: Fault)
    | Abandon(p: nat)                                      // the client has gone
    | AgentLogs(now: Stamp)                                // a gated tool asks for confirmation
    | Backfill(id: nat, outcome: Outcome)                  // `_after_execute` on some row
    | SweepPending(cutoff: int)
    | SweepConfirmed(cutoff: int)
    | Retry(faults: seq<Fault>)
    | Restart                                              // memory is lost, rows stay

  function At(s: Sys, p: nat, pc: Pc): Sys
    requires p in s.procs
  {
    s.(procs := s.procs[p := s.procs[p].(pc := pc)])
  }

  function Inserted(s: Sys, now: Stamp): Sys {
    s.(rows := s.rows[s.last + 1 := AuditRow(Pending, now, None, None)], last := s.last + 1)
  }

  predicate Enabled(s: Sys, t: Step) {
    match t
    case Request(p, _, _) => p !in s.procs
    case LogRow(p, _, _) => p in s.procs && s.procs[p].pc.Entering? && s.procs[p].pc.given.None?
    case Claim(p, _) => p in s.procs && (s.procs[p].pc.Claiming? || (s.procs[p].pc.Entering? && s.procs[p].pc.given.Some?))
    case Grant(p, _) => p in s.procs && s.procs[p].pc.Granting?
    case Prepare(p, _) => p in s.procs && s.procs[p].pc.Preparing?
    case Invoke(p, _) => p in s.procs && s.procs[p].pc.Invoking?
    case Consume(p, _) => p in s.procs && s.procs[p].pc.Consuming?
    case Mark(p, _) => p in s.procs && s.procs[p].pc.Marking?
    case Abandon(p) => p in s.procs
    case Retry(faults) => |faults| == |s.queue|
    case _ => true
  }

  function ClaimId(pc: Pc): nat
    requires pc.Claiming? || (pc.Entering? && pc.given.Some?)
  {
    if pc.Claiming? then pc.id else pc.given.value
  }

  function Claims(s: Sys, p: nat, fault: Fault): Sys
    requires Enabled(s, Claim(p, fault))
  {
    var id, approve := ClaimId(s.procs[p].pc), s.procs[p].approve;
    var wins := Wins(s.rows, id) && !fault.Before?;
    var t := s.(rows := Effect(fault, s.rows, Claimed(s.rows, id, approve, "user")),
                won := if wins then s.won[id := approve] else s.won);
    At(t, p, if wins && fault.Fine? && approve then Granting(id) else Over)
  }

  function Marks(s: Sys, p: nat, fault: Fault): Sys
    requires Enabled(s, Mark(p, fault))
  {
    var id, o := s.procs[p].pc.id, s.procs[p].pc.outcome;
    var rows := Effect(fault, s.rows, Updated(s.rows, id, o.Status(), o.Error()));
    At(s.(rows := rows, queue := if fault.Fine? then s.queue else Enqueued(s.queue, id, o)), p, Over)
  }

  function Next(s: Sys, t: Step): Sys
    requires Enabled(s, t)
  {
    match t
    case Request(p, given, approve) => s.(procs := s.procs[p := Proc(approve, Entering(given))])
    case LogRow(p, now, fault) =>
      var r := if fault.Before? then s else Inserted(s, now);
      At(r, p, if fault.Fine? then Claiming(r.last) else Over)
    case Claim(p, fault) => Claims(s, p, fault)
    case Grant(p, ok) => At(s, p, if ok then Preparing(s.procs[p].pc.id) else Over)
    case Prepare(p, failure) =>
      var id := s.procs[p].pc.id; At(s, p, if failure.None? then Invoking(id) else Marking(id, Broke(failure.value)))
    case Invoke(p, failure) =>
      var id := s.procs[p].pc.id;
      At(s.(invoked := s.invoked + [id]), p, if failure.None? then Consuming(id) else Marking(id, Broke(failure.value)))
    case Consume(p, failure) =>
      var id := s.procs[p].pc.id; At(s, p, Marking(id, if failure.None? then Ran else Broke(failure.value)))
    case Mark(p, fault) => Marks(s, p, fault)
    case Abandon(p) => At(s, p, Over)
    case AgentLogs(now) => Inserted(s, now)
    case Backfill(id, outcome) => s.(rows := Updated(s.rows, id, outcome.Status(), outcome.Error()))
    case SweepPending(cutoff) => s.(rows := SweptPending(s.rows, cutoff))
    case SweepConfirmed(cutoff) => s.(rows := SweptConfirmed(s.rows, cutoff))
    case Retry(faults) => s.(rows := RetriedRows(s.rows, s.queue, faults), queue := RetriedQueue(s.queue, faults))
    case Restart => s.(procs := map[], queue := [])
  }

  const START := Sys(map[], 0, [], map[], map[], [])

  // ---- the invariant ----

  ghost predicate Holder(s: Sys, p: nat, id: nat) { p in s.procs && s.procs[p].pc.Holds() && s.procs[p].pc.id == id }

  ghost predicate HoldersOk(s: Sys) {
    && (forall p, q, id :: Holder(s, p, id) && Holder(s, q, id) ==> p == q)
    && (forall p, id :: Holder(s, p, id) ==> id in s.won && s.won[id])
    && (forall p, id :: Holder(s, p, id) && s.procs[p].pc.NotYetInvoked() ==> id !in s.invoked)
  }

  /** A row that was won is never pending again, and every id was won at most once. */
  ghost predicate WonOk(s: Sys) {
    && (forall id :: id in s.rows ==> id <= s.last)
    && (forall id :: id in s.won ==> id in s.rows && !s.rows[id].status.Pending?)
  }

  ghost predicate InvokedOk(s: Sys) {
    && (forall i :: 0 <= i < |s.invoked| ==> s.invoked[i] in s.won && s.won[s.invoked[i]])
    && (forall i, j :: 0 <= i < j < |s.invoked| ==> s.invoked[i] != s.invoked[j])
  }

  ghost predicate Ok(s: Sys) { WonOk(s) && HoldersOk(s) && InvokedOk(s) }

  /** No statement makes a row pending that was not. */
  ghost predicate Monotone(before: Rows, after: Rows) {
    forall id :: id in before ==> id in after && (after[id].status.Pending? ==> before[id].status.Pending?)
  }

  lemma {:induction false} RetryMonotone(rows: Rows, queue: seq<Update>, faults: seq<Fault>)
    requires |faults| == |queue|
    ensures Monotone(rows, RetriedRows(rows, queue, faults)) && RetriedRows(rows, queue, faults).Keys == rows.Keys
  {
    if queue != [] { RetryMonotone(rows, queue[..|queue| - 1], faults[..|queue| - 1]); }
  }

  /** No step of anyone returns a row to pending, and rows are never removed. */
  lemma NeverPendingAgain(s: Sys, t: Step)
    requires Enabled(s, t) && WonOk(s)
    ensures Monotone(s.rows, Next(s, t).rows)
  {
    if t.Retry? { RetryMonotone(s.rows, s.queue, t.faults); }
  }

  lemma NextWon(s: Sys, t: Step)
    requires Ok(s) && Enabled(s, t)
    ensures WonOk(Next(s, t))
  {
    hide HoldersOk, InvokedOk, Queued;
    if t.Retry? { RetryMonotone(s.rows, s.queue, t.faults); }
  }

  lemma NextHolders(s: Sys, t: Step)
    requires Ok(s) && Enabled(s, t)
    ensures HoldersOk(Next(s, t))
  {
    hide Queued, RetriedRows, RetriedQueue, Updated, SweptPending, SweptConfirmed;
    var n := Next(s, t);
    forall p, id | Holder(n, p, id)
      ensures id in n.won && n.won[id] && (n.procs[p].pc.NotYetInvoked() ==> id !in n.invoked)
      ensures Holder(s, p, id) || (t.Claim? && t.p == p && Newly(s, id))
    {
      HolderStep(s, t, p, id);
    }
  }

  /** Nobody has won this row yet, so nobody holds it or has run its tool. */
  ghost predicate Newly(s: Sys, id: nat) { id !in s.won && id !in s.invoked && forall q :: !Holder(s, q, id) }

  lemma InvokedWon(s: Sys, id: nat)
    requires InvokedOk(s)
    ensures id in s.invoked ==> id in s.won && s.won[id]
  {}

  lemma HolderStep(s: Sys, t: Step, p: nat, id: nat)
    requires Ok(s) && Enabled(s, t) && Holder(Next(s, t), p, id)
    ensures var n := Next(s, t); id in n.won && n.won[id] && (n.procs[p].pc.NotYetInvoked() ==> id !in n.invoked)
    ensures Holder(s, p, id) || (t.Claim? && t.p == p && Newly(s, id))
  {
    hide Queued, RetriedRows, RetriedQueue, Updated, SweptPending, SweptConfirmed, Enqueued;
    if t.Invoke? { assert Holder(s, t.p, s.procs[t.p].pc.id); }
    if t.Claim? && t.p == p {
      assert Wins(s.rows, id) && id !in s.won;
      InvokedWon(s, id);
    } else {
      assert p in s.procs && s.procs[p].pc.Holds() && s.procs[p].pc.id == id;
      assert Holder(s, p, id);
    }
  }

  lemma NextInvoked(s: Sys, t: Step)
    requires Ok(s) && Enabled(s, t)
    ensures InvokedOk(Next(s, t))
  {
    hide Queued, RetriedRows, RetriedQueue, Updated, SweptPending, SweptConfirmed;
    if t.Invoke? { assert Holder(s, t.p, s.procs[t.p].pc.id); }
    if t.Claim? && Wins(s.rows, ClaimId(s.procs[t.p].pc)) { assert ClaimId(s.procs[t.p].pc) !in s.won; }
  }

  // ---- every interleaving ----

  predicate Runs(s: Sys, ts: seq<Step>)
    decreases |ts|
  {
    ts != [] ==> Enabled(s, ts[0]) && Runs(Next(s, ts[0]), ts[1..])
  }

  function Final(s: Sys, ts: seq<Step>): Sys
    requires Runs(s, ts)
    decreases |ts|
  {
    if ts == [] then s else Final(Next(s, ts[0]), ts[1..])
  }

  lemma {:induction false} RunKeepsOk(s: Sys, ts: seq<Step>)
    requires Ok(s) && Runs(s, ts)
    ensures Ok(Final(s, ts)) && Monotone(s.rows, Final(s, ts).rows)
    decreases |ts|
  {
    if ts != [] {
      NextWon(s, ts[0]);
      NextHolders(s, ts[0]);
      NextInvoked(s, ts[0]);
      NeverPendingAgain(s, ts[0]);
      RunKeepsOk(Next(s, ts[0]), ts[1..]);
    }
  }

  lemma StartOk()
    ensures Ok(START)
  {}

  /** At most once: over every interleaving of requests, double clicks, sweepers, retries, backfills and restarts, a tool is
      invoked at most once per audit id, only after a winning `confirmed` claim, and never after a winning `rejected` one. */
  lemma AtMostOnce(ts: seq<Step>)
    requires Runs(START, ts)
    ensures var s := Final(START, ts);
            && (forall i, j :: 0 <= i < j < |s.invoked| ==> s.invoked[i] != s.invoked[j])
            && (forall i :: 0 <= i < |s.invoked| ==> s.invoked[i] in s.won && s.won[s.invoked[i]])
            && (forall id :: id in s.won && !s.won[id] ==> id !in s.invoked)
  {
    StartOk();
    RunKeepsOk(START, ts);
  }

  /** A claim is won once: who has won an id, and with what decision, never changes. */
  lemma {:induction false} WonForever(s: Sys, ts: seq<Step>, id: nat)
    requires Ok(s) && Runs(s, ts) && id in s.won
    ensures id in Final(s, ts).won && Final(s, ts).won[id] == s.won[id]
    decreases |ts|
  {
    if ts != [] {
      NextWon(s, ts[0]);
      NextHolders(s, ts[0]);
      NextInvoked(s, ts[0]);
      WonForever(Next(s, ts[0]), ts[1..], id);
    }
  }

  /** An outcome is either in the table after the update or waits in the queue. */
  lemma MarkIsKept(s: Sys, p: nat, fault: Fault)
    requires Ok(s) && Enabled(s, Mark(p, fault))
    ensures var id, status, n := s.procs[p].pc.id, s.procs[p].pc.outcome.Status(), Next(s, Mark(p, fault));
            (id in n.rows && n.rows[id].status == status) || Queued(n.queue, id, status)
  {
    var id, o := s.procs[p].pc.id, s.procs[p].pc.outcome;
    assert Holder(s, p, id);
    var n := Next(s, Mark(p, fault));
    if !fault.Fine? && !Queued(s.queue, id, o.Status()) { assert n.queue[|s.queue|] == Update(id, o, 0); }
  }

  /** A retried update that succeeds, and is the last word in the queue on its row, decides the row. */
  lemma RetryDecides(rows: Rows, queue: seq<Update>, faults: seq<Fault>, k: nat)
    requires |faults| == |queue| && k < |queue| && faults[k].Fine? && queue[k].id in rows
    requires forall j :: k < j < |queue| ==> queue[j].id != queue[k].id
    ensures var id := queue[k].id;
            id in RetriedRows(rows, queue, faults) && RetriedRows(rows, queue, faults)[id].status == queue[k].outcome.Status()
  {
    var n := |queue| - 1;
    RetryMonotone(rows, queue[..n], faults[..n]);
    if k < n { RetryDecides(rows, queue[..n], faults[..n], k); }
  }

  // ---- the sweeper's verdict "confirmed but never executed" ----

  /** Some process has claimed the row and has its tool still ahead of it. */
  ghost predicate UnderWay(s: Sys, id: nat) { exists p :: Holder(s, p, id) && s.procs[p].pc.NotYetInvoked() }

  /** Whatever happens from here on, the tool of this row is not invoked, and was not invoked before. */
  ghost predicate NeverExecuted(s: Sys, id: nat) { forall ts :: Runs(s, ts) ==> id !in Final(s, ts).invoked }

  /** A decided row that nobody carries towards its tool stays one. */
  ghost predicate Stale(s: Sys, id: nat) {
    id in s.rows && !s.rows[id].status.Pending? && id !in s.invoked && forall p :: Holder(s, p, id) ==> !s.procs[p].pc.NotYetInvoked()
  }

  lemma StaleStays(s: Sys, t: Step, id: nat)
    requires Ok(s) && Stale(s, id) && Enabled(s, t)
    ensures Ok(Next(s, t)) && Stale(Next(s, t), id)
  {
    hide Queued, RetriedRows, RetriedQueue, Enqueued;
    NextWon(s, t);
    NextHolders(s, t);
    NextInvoked(s, t);
    NeverPendingAgain(s, t);
    var n := Next(s, t);
    if id in n.invoked { InvokerHeld(s, t, id); }
    forall p | Holder(n, p, id) ensures !n.procs[p].pc.NotYetInvoked() {
      if n.procs[p].pc.NotYetInvoked() { NotYetBefore(s, t, p, id); }
    }
  }

  lemma InvokerHeld(s: Sys, t: Step, id: nat)
    requires Enabled(s, t) && id in Next(s, t).invoked && id !in s.invoked
    ensures UnderWay(s, id)
  {
    assert t.Invoke?;
    assert Holder(s, t.p, id);
  }

  /** Who has its tool ahead of it after a step had it ahead before, or has just won the pending row. */
  lemma NotYetBefore(s: Sys, t: Step, p: nat, id: nat)
    requires Enabled(s, t) && Holder(Next(s, t), p, id) && Next(s, t).procs[p].pc.NotYetInvoked()
    ensures (Holder(s, p, id) && s.procs[p].pc.NotYetInvoked()) || Wins(s.rows, id)
  {
    hide Queued, RetriedRows, RetriedQueue, Updated, SweptPending, SweptConfirmed, Enqueued;
  }

  lemma {:induction false} StaleForever(s: Sys, ts: seq<Step>, id: nat)
    requires Ok(s) && Stale(s, id) && Runs(s, ts)
    ensures id !in Final(s, ts).invoked
    decreases |ts|
  {
    if ts != [] {
      StaleStays(s, ts[0], id);
      StaleForever(Next(s, ts[0]), ts[1..], id);
    }
  }

  /** A process with its tool ahead of it can go on and invoke it. */
  lemma GoesOn(s: Sys, p: nat, id: nat) returns (ts: seq<Step>)
    requires Holder(s, p, id) && s.procs[p].pc.NotYetInvoked()
    ensures Runs(s, ts) && id in Final(s, ts).invoked
    decreases if s.procs[p].pc.Granting? then 2 else if s.procs[p].pc.Preparing? then 1 else 0
  {
    var pc := s.procs[p].pc;
    var t := if pc.Granting? then Grant(p, true) else if pc.Preparing? then Prepare(p, None) else Invoke(p, None);
    var n := Next(s, t);
    var rest := [];
    if pc.Invoking? {
      assert n.invoked[|s.invoked|] == id;
    } else {
      rest := GoesOn(n, p, id);
    }
    RunCons(s, t, rest);
    ts := [t] + rest;
  }

  /** The states that some interleaving leads to from an empty table. */
  ghost predicate Reachable(s: Sys) { exists past :: Runs(START, past) && Final(START, past) == s }

  lemma ReachableOk(s: Sys)
    requires Reachable(s)
    ensures Ok(s)
  {
    var past :| Runs(START, past) && Final(START, past) == s;
    StartOk();
    RunKeepsOk(START, past);
  }

  /** Exactly when the verdict is true. The sweep of an old confirmed row marks it "confirmed but never executed"; its tool has
      not run and never will, in any continuation, if and only if it has not run already and no process has it still ahead. */
  lemma VerdictIff(s: Sys, id: nat, cutoff: int)
    requires Reachable(s)
    requires id in s.rows && s.rows[id].status.Confirmed? && Older(s.rows[id].created, cutoff)
    ensures var n := Next(s, SweepConfirmed(cutoff));
            ExpiredRow(n, id) && (NeverExecuted(n, id) <==> id !in s.invoked && !UnderWay(s, id))
  {
    var n := Next(s, SweepConfirmed(cutoff));
    assert forall p :: Holder(s, p, id) <==> Holder(n, p, id);
    if id in s.invoked {
      assert Runs(n, []) && id in Final(n, []).invoked;
    } else if UnderWay(s, id) {
      var p :| Holder(s, p, id) && s.procs[p].pc.NotYetInvoked();
      var ts := GoesOn(n, p, id);
    } else {
      ReachableOk(s);
      assert Stale(s, id);
      StaleStays(s, SweepConfirmed(cutoff), id);
      forall ts | Runs(n, ts) ensures id !in Final(n, ts).invoked { StaleForever(n, ts, id); }
    }
  }

  /** A click on a pending row up to the point where its tool is to run. */
  const CONFIRMING: seq<Step> :=
    [AgentLogs(Stamp(0, 0)), Request(0, Some(1), true), Claim(0, Fine), Grant(0, true), Prepare(0, None)]

  const CONFIRMED_ROW := AuditRow(Confirmed, Stamp(0, 0), Some("user"), None)

  const ABOUT_TO_RUN := Sys(map[1 := CONFIRMED_ROW], 1, [], map[0 := Proc(true, Invoking(1))], map[1 := true], [])

  /** The state `s` is reached by `ts`. */
  ghost predicate Leads(ts: seq<Step>, s: Sys) { Runs(START, ts) && Final(START, ts) == s }

  lemma LeadsOn(ts: seq<Step>, s: Sys, t: Step)
    requires Leads(ts, s) && Enabled(s, t)
    ensures Leads(ts + [t], Next(s, t))
  {
    RunSnoc(START, ts, t);
  }

  lemma ConfirmingLeads()
    ensures Leads(CONFIRMING, ABOUT_TO_RUN)
  {
    var a := Sys(map[1 := CONFIRMED_ROW.(status := Pending, confirmedBy := None)], 1, [], map[], map[], []);
    var b := a.(procs := map[0 := Proc(true, Entering(Some(1)))]);
    var c := Sys(map[1 := CONFIRMED_ROW], 1, [], map[0 := Proc(true, Granting(1))], map[1 := true], []);
    var d := c.(procs := map[0 := Proc(true, Preparing(1))]);
    var ts1 := [] + [CONFIRMING[0]];
    var ts2 := ts1 + [CONFIRMING[1]];
    var ts3 := ts2 + [CONFIRMING[2]];
    var ts4 := ts3 + [CONFIRMING[3]];
    LeadsOn([], START, CONFIRMING[0]);
    assert Next(START, CONFIRMING[0]) == a;
    LeadsOn(ts1, a, CONFIRMING[1]);
    assert Next(a, CONFIRMING[1]) == b;
    LeadsOn(ts2, b, CONFIRMING[2]);
    assert Next(b, CONFIRMING[2]) == c;
    LeadsOn(ts3, c, CONFIRMING[3]);
    assert Next(c, CONFIRMING[3]) == d;
    LeadsOn(ts4, d, CONFIRMING[4]);
    assert ts4 + [CONFIRMING[4]] == CONFIRMING;
  }

  predicate ExpiredRow(s: Sys, id: nat) {
    id in s.rows && s.rows[id].status.Expired? && s.rows[id].error == Some("orphan: confirmed but never executed")
  }

  /** The verdict does turn out false, from an empty table: a row is swept just before its tool runs. */
  lemma ExpiredThenInvoked()
    ensures exists s :: Leads(CONFIRMING + [SweepConfirmed(1)] + [Invoke(0, None)], s) && s.invoked == [1] && ExpiredRow(s, 1)
  {
    hide Leads;
    ConfirmingLeads();
    var s := ABOUT_TO_RUN;
    LeadsOn(CONFIRMING, s, SweepConfirmed(1));
    LeadsOn(CONFIRMING + [SweepConfirmed(1)], Next(s, SweepConfirmed(1)), Invoke(0, None));
  }

  /** And again: the process dies after the tool has run; the row is swept later, and nothing is left that would correct it. */
  lemma InvokedThenExpired()
    ensures exists s :: Leads(CONFIRMING + [Invoke(0, None)] + [Restart] + [SweepConfirmed(1)], s)
                        && s.invoked == [1] && s.procs == map[] && s.queue == [] && ExpiredRow(s, 1)
  {
    hide Leads;
    ConfirmingLeads();
    var s := ABOUT_TO_RUN;
    LeadsOn(CONFIRMING, s, Invoke(0, None));
    var t := Next(s, Invoke(0, None));
    LeadsOn(CONFIRMING + [Invoke(0, None)], t, Restart);
    var u := Sys(map[1 := CONFIRMED_ROW], 1, [], map[], map[1 := true], [1]);
    assert Next(t, Restart) == u;
    LeadsOn(CONFIRMING + [Invoke(0, None)] + [Restart], u, SweepConfirmed(1));
  }

  lemma {:induction false} RunSnoc(s: Sys, ts: seq<Step>, t: Step)
    requires Runs(s, ts) && Enabled(Final(s, ts), t)
    ensures Runs(s, ts + [t]) && Final(s, ts + [t]) == Next(Final(s, ts), t)
    decreases |ts|
  {
    if ts == [] {
      assert ([] + [t])[1..] == [];
    } else {
      RunSnoc(Next(s, ts[0]), ts[1..], t);
      assert (ts + [t])[1..] == ts[1..] + [t];
    }
  }

  lemma RunCons(s: Sys, t: Step, ts: seq<Step>)
    requires Enabled(s, t) && Runs(Next(s, t), ts)
    ensures Runs(s, [t] + ts) && Final(s, [t] + ts) == Final(Next(s, t), ts)
  {
    assert ([t] + ts)[1..] == ts;
  }
}
