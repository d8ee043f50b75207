/** The audit log and its retry queue in place, and the confirm endpoint as the sequence of steps it is. */
module AuditStores {
  import opened Basics
  import opened AuditProtocol

  datatype Verdict = BadAction | Lost | Won

  /** What goes wrong during one confirm request. */
  datatype Faults = Faults(log: Fault, claim: Fault, grant: bool, prepare: Option<string>, invoke: Option<string>,
                           consume: Option<string>, mark: Fault)

  // ---- one request through the steps of the protocol ----

  /** How many steps a request has ahead of it at most. */
  function Ahead(pc: Pc): nat {
    match pc
    case Entering(_) => 8
    case Claiming(_) => 7
    case Granting(_) => 6
    case Preparing(_) => 5
    case Invoking(_) => 4
    case Consuming(_) => 3
    case Marking(_, _) => 2
    case Over => 0
  }

  /** The step a request takes next, with the faults it meets. */
  function StepOf(p: nat, pc: Pc, now: Stamp, f: Faults): Step
    requires !pc.Over?
  {
    match pc
    case Entering(None) => LogRow(p, now, f.log)
    case Entering(Some(_)) => Claim(p, f.claim)
    case Claiming(_) => Claim(p, f.claim)
    case Granting(_) => Grant(p, f.grant)
    case Preparing(_) => Prepare(p, f.prepare)
    case Invoking(_) => Invoke(p, f.invoke)
    case Consuming(_) => Consume(p, f.consume)
    case Marking(_, _) => Mark(p, f.mark)
  }

  /** The protocol with nobody else at work, until the request is over. */
  function Drive(s: Sys, p: nat, now: Stamp, f: Faults): Sys
    requires p in s.procs
    decreases Ahead(s.procs[p].pc)
  {
    if s.procs[p].pc.Over? then s else Drive(Next(s, StepOf(p, s.procs[p].pc, now, f)), p, now, f)
  }

  /** The protocol state of a store that serves a new request. */
  function Served(rows: Rows, last: nat, queue: seq<Update>, given: Option<nat>, approve: bool): Sys {
    Sys(rows, last, queue, map[0 := Proc(approve, Entering(given))], map[], [])
  }

  ghost predicate Stands(s: Sys, rows: Rows, last: nat, queue: seq<Update>, approve: bool, pc: Pc, invoked: seq<nat>) {
    s.rows == rows && s.last == last && s.queue == queue && 0 in s.procs && s.procs[0] == Proc(approve, pc) && s.invoked == invoked
  }

  lemma OverStays(s: Sys, now: Stamp, f: Faults)
    requires 0 in s.procs && s.procs[0].pc.Over?
    ensures Drive(s, 0, now, f) == s
  {}

  lemma LogOn(s: Sys, approve: bool, now: Stamp, f: Faults) returns (n: Sys)
    requires 0 in s.procs && s.procs[0] == Proc(approve, Entering(None))
    ensures 0 in n.procs && Drive(n, 0, now, f) == Drive(s, 0, now, f)
    ensures if f.log.Before? then Stands(n, s.rows, s.last, s.queue, approve, Over, s.invoked)
            else Stands(n, s.rows[s.last + 1 := AuditRow(Pending, now, None, None)], s.last + 1, s.queue, approve,
                        if f.log.Fine? then Claiming(s.last + 1) else Over, s.invoked)
  {
    n := Next(s, LogRow(0, now, f.log));
  }

  lemma ClaimOn(s: Sys, approve: bool, id: nat, now: Stamp, f: Faults) returns (n: Sys)
    requires 0 in s.procs && (s.procs[0] == Proc(approve, Claiming(id)) || s.procs[0] == Proc(approve, Entering(Some(id))))
    ensures 0 in n.procs && Drive(n, 0, now, f) == Drive(s, 0, now, f)
    ensures Stands(n, if f.claim.Before? then s.rows else Claimed(s.rows, id, approve, "user"), s.last, s.queue, approve,
                   if Wins(s.rows, id) && f.claim.Fine? && approve then Granting(id) else Over, s.invoked)
  {
    hide Claimed, Wins;
    n := Next(s, Claim(0, f.claim));
  }

  lemma GrantOn(s: Sys, approve: bool, id: nat, now: Stamp, f: Faults) returns (n: Sys)
    requires 0 in s.procs && s.procs[0] == Proc(approve, Granting(id))
    ensures 0 in n.procs && Drive(n, 0, now, f) == Drive(s, 0, now, f)
    ensures Stands(n, s.rows, s.last, s.queue, approve, if f.grant then Preparing(id) else Over, s.invoked)
  {
    n := Next(s, Grant(0, f.grant));
  }

  /** From the preparation to the outcome. */
  lemma RunOn(s: Sys, approve: bool, id: nat, now: Stamp, f: Faults) returns (n: Sys)
    requires 0 in s.procs && s.procs[0] == Proc(approve, Preparing(id))
    ensures 0 in n.procs && Drive(n, 0, now, f) == Drive(s, 0, now, f)
    ensures f.prepare.Some? ==> Stands(n, s.rows, s.last, s.queue, approve, Marking(id, Broke(f.prepare.value)), s.invoked)
    ensures f.prepare.None? ==> Stands(n, s.rows, s.last, s.queue, approve,
                                       Marking(id, if f.invoke.Some? then Broke(f.invoke.value)
                                                   else if f.consume.Some? then Broke(f.consume.value) else Ran), s.invoked + [id])
  {
    n := Next(s, Prepare(0, f.prepare));
    assert Drive(n, 0, now, f) == Drive(s, 0, now, f);
    if f.prepare.None? {
      n := Next(n, Invoke(0, f.invoke));
      assert Drive(n, 0, now, f) == Drive(s, 0, now, f);
      if f.invoke.None? { n := Next(n, Consume(0, f.consume)); }
    }
  }

  lemma MarkOn(s: Sys, approve: bool, id: nat, o: Outcome, now: Stamp, f: Faults) returns (n: Sys)
    requires 0 in s.procs && s.procs[0] == Proc(approve, Marking(id, o))
    ensures Drive(s, 0, now, f) == n
    ensures Stands(n, if f.mark.Before? then s.rows else Updated(s.rows, id, o.Status(), o.Error()), s.last,
                   if f.mark.Fine? then s.queue else Enqueued(s.queue, id, o), approve, Over, s.invoked)
  {
    hide Updated, Enqueued;
    n := Next(s, Mark(0, f.mark));
    OverStays(n, now, f);
  }

  class AuditStore {
    var rows: Rows
    var last: nat
    var queue: seq<Update>

    constructor ()
      ensures rows == map[] && last == 0 && queue == []
    {
      rows, last, queue := map[], 0, [];
    }

    method LogWrite(now: Stamp) returns (id: nat)
      modifies this`rows, this`last
      ensures id == last == old(last) + 1 && rows == old(rows)[id := AuditRow(Pending, now, None, None)]
    {
      last := last + 1;
      id := last;
      rows := rows[id := AuditRow(Pending, now, None, None)];
    }

    /** The compare-and-set: true for the one caller that found the row pending. */
    method ClaimWriteAudit(id: nat, action: string, who: string) returns (claim: Verdict)
      modifies this`rows
      ensures claim == (if action != "confirmed" && action != "rejected" then BadAction
                        else if Wins(old(rows), id) then Verdict.Won else Lost)
      ensures rows == if claim.BadAction? then old(rows) else Claimed(old(rows), id, action == "confirmed", who)
      ensures claim.Won? ==> id in old(rows) && old(rows)[id].status == Pending && id in rows
                             && rows[id] == old(rows)[id].(status := if action == "rejected" then Rejected else Confirmed, confirmedBy := Some(who))
    {
      if action != "confirmed" && action != "rejected" { return BadAction; }
      if id !in rows { return Lost; }
      if !rows[id].status.Pending? { return Lost; }
      var status := if action == "confirmed" then Confirmed else Rejected;
      rows := rows[id := rows[id].(status := status, confirmedBy := Some(who))];
      claim := Verdict.Won;
    }

    /** False only when no row has this id. */
    method UpdateWriteStatus(id: nat, outcome: Outcome) returns (changed: bool)
      modifies this`rows
      ensures changed == (id in old(rows)) && rows == Updated(old(rows), id, outcome.Status(), outcome.Error())
    {
      changed := id in rows;
      if changed {
        var row := rows[id].(status := outcome.Status());
        if outcome.Broke? { row := row.(error := Some(outcome.error)); }
        rows := rows[id := row];
      }
    }

    method ExpireStalePending(cutoff: int) returns (n: nat)
      modifies this`rows
      ensures rows == SweptPending(old(rows), cutoff)
      ensures n == |set id | id in old(rows) && old(rows)[id].status.Pending? && Older(old(rows)[id].created, cutoff)|
    {
      var stale := set id | id in rows && rows[id].status.Pending? && Older(rows[id].created, cutoff);
      n := |stale|;
      rows := map id | id in rows ::
        if id in stale then rows[id].(status := Expired, error := Some("orphan: no confirmation")) else rows[id];
    }

    method ExpireStaleConfirmed(cutoff: int) returns (n: nat)
      modifies this`rows
      ensures rows == SweptConfirmed(old(rows), cutoff)
      ensures n == |set id | id in old(rows) && old(rows)[id].status.Confirmed? && Older(old(rows)[id].created, cutoff)|
    {
      var stale := set id | id in rows && rows[id].status.Confirmed? && Older(rows[id].created, cutoff);
      n := |stale|;
      rows := map id | id in rows ::
        if id in stale then rows[id].(status := Expired, error := Some("orphan: confirmed but never executed")) else rows[id];
    }

    /** Entries for the same row and status coalesce. */
    method QueueFailedUpdate(id: nat, outcome: Outcome)
      modifies this`queue
      ensures queue == Enqueued(old(queue), id, outcome)
    {
      for k := 0 to |queue|
        invariant queue == old(queue)
        invariant forall j :: 0 <= j < k ==> !(queue[j].id == id && queue[j].outcome.Status() == outcome.Status())
      {
        if queue[k].id == id && queue[k].outcome.Status() == outcome.Status() { return; }
      }
      queue := queue + [Update(id, outcome, 0)];
    }

    /** Drains the queue; what fails again goes back unless it has had its attempts. */
    method RetryFailedUpdates(faults: seq<Fault>) returns (succeeded: nat)
      requires |faults| == |queue|
      modifies this`rows, this`queue
      ensures rows == RetriedRows(old(rows), old(queue), faults) && queue == RetriedQueue(old(queue), faults)
      ensures succeeded + |queue| <= |old(queue)|
    {
      var drained := queue;
      queue := [];
      succeeded := 0;
      var remaining := [];
      for k := 0 to |drained|
        invariant queue == [] && rows == RetriedRows(old(rows), drained[..k], faults[..k])
        invariant remaining == RetriedQueue(drained[..k], faults[..k]) && succeeded + |remaining| <= k
      {
        assert drained[..k + 1][..k] == drained[..k] && faults[..k + 1][..k] == faults[..k];
        var u := drained[k];
        if !faults[k].Before? { var _ := UpdateWriteStatus(u.id, u.outcome); }
        if faults[k].Fine? {
          succeeded := succeeded + 1;
        } else if u.attempts + 1 < MAX_ATTEMPTS {
          remaining := remaining + [u.(attempts := u.attempts + 1)];
        }
      }
      assert drained[..|drained|] == drained && faults[..|drained|] == faults;
      queue := queue + remaining;
    }

    /** One confirm request left alone does what the steps of the protocol do. It runs the tool exactly when it is an approval, wins
        its claim, and nothing before the tool fails; then the outcome is in the table, or queued when the update failed. A won
        rejection leaves its row rejected, and a lost claim changes nothing. */
    method HarnessConfirm(given: Option<nat>, approve: bool, now: Stamp, f: Faults) returns (invoked: bool)
      modifies this
      ensures var s := Drive(Served(old(rows), old(last), old(queue), given, approve), 0, now, f);
              rows == s.rows && last == s.last && queue == s.queue && (invoked <==> s.invoked != []) && |s.invoked| <= 1
      ensures invoked <==> approve && f.claim.Fine? && f.grant && f.prepare.None?
                           && (if given.Some? then given.value in old(rows) && old(rows)[given.value].status == Pending else f.log.Fine?)
      ensures last == (if given.None? && !f.log.Before? then old(last) + 1 else old(last))
      ensures forall id :: id in old(rows) && id != (if given.Some? then given.value else last) ==> id in rows && rows[id] == old(rows)[id]
      ensures given.Some? && !(given.value in old(rows) && old(rows)[given.value].status == Pending) ==> rows == old(rows)
      ensures !approve ==> queue == old(queue)
      ensures !approve && !f.claim.Before? && (given.None? ==> f.log.Fine?) ==>
                var id := if given.Some? then given.value else last;
                var before := if given.Some? then old(rows) else old(rows)[last := AuditRow(Pending, now, None, None)];
                id in before && before[id].status == Pending ==>
                  id in rows && rows[id] == before[id].(status := Rejected, confirmedBy := Some("user"))
      ensures invoked ==>
                var id := if given.Some? then given.value else last;
                var o := if f.invoke.Some? then Broke(f.invoke.value) else if f.consume.Some? then Broke(f.consume.value) else Ran;
                && (f.mark.Fine? ==>
                      && id in rows && rows[id].confirmedBy == Some("user") && queue == old(queue)
                      && (if o.Ran? then rows[id].status == Executed else rows[id].status == Failed && rows[id].error == Some(o.error)))
                && (!f.mark.Fine? ==> queue == Enqueued(old(queue), id, o))
    {
      hide Next, StepOf, Drive;
      invoked := false;
      ghost var s := Served(rows, last, queue, given, approve);
      var id: nat;
      if given.None? {
        s := LogOn(s, approve, now, f);
        if !f.log.Fine? { OverStays(s, now, f); }
        if f.log.Before? { return; }
        id := LogWrite(now);
        if f.log.After? { return; }
      } else {
        id := given.value;
      }
      s := ClaimOn(s, approve, id, now, f);
      if s.procs[0].pc.Over? { OverStays(s, now, f); }
      if f.claim.Before? { return; }
      var claim := ClaimWriteAudit(id, if approve then "confirmed" else "rejected", "user");
      if f.claim.After? { return; }
      if claim.Lost? { return; }
      if !approve { return; }
      s := GrantOn(s, approve, id, now, f);
      if !f.grant { OverStays(s, now, f); }
      if !f.grant { return; }
      s := RunOn(s, approve, id, now, f);
      var outcome := Ran;
      if f.prepare.Some? {
        outcome := Broke(f.prepare.value);
      } else {
        invoked := true;
        outcome := if f.invoke.Some? then Broke(f.invoke.value) else if f.consume.Some? then Broke(f.consume.value) else Ran;
      }
      s := MarkOn(s, approve, id, outcome, now, f);
      if !f.mark.Before? { var _ := UpdateWriteStatus(id, outcome); }
      if !f.mark.Fine? { QueueFailedUpdate(id, outcome); }
    }
  }
}
