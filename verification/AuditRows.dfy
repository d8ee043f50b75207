/** What the rows of the audit log say: claims, outcomes, sweeps and retries, status by status. */
module AuditRows {
  import opened Basics
  import opened Ordering
  import opened AuditProtocol

  // ---- claims ----

  /** The compare-and-set of a claim: a pending row takes the decision and the name, everything else stays. */
  lemma ClaimDecides(rows: Rows, id: nat, approve: bool, who: string)
    ensures var after := Claimed(rows, id, approve, who);
            && after.Keys == rows.Keys && (forall i :: i in rows && i != id ==> after[i] == rows[i])
            && (id in rows && rows[id].status == Pending ==>
                  && after[id].status == (if approve then Confirmed else Rejected) && after[id].confirmedBy == Some(who)
                  && after[id].error == rows[id].error && after[id].created == rows[id].created)
            && (id in rows && rows[id].status != Pending ==> after[id] == rows[id])
  {}

  // ---- rejections ----

  /** The row reads as the user's rejection. */
  ghost predicate RejectedRow(s: Sys, id: nat) {
    id in s.rows && s.rows[id].status == Rejected && s.rows[id].confirmedBy == Some("user")
  }

  /** Only outcomes of approved rows are ever queued. */
  ghost predicate QueueApproved(s: Sys) { forall k :: 0 <= k < |s.queue| ==> s.queue[k].id in s.won && s.won[s.queue[k].id] }

  lemma {:induction false} RetriedFrom(queue: seq<Update>, faults: seq<Fault>)
    requires |faults| == |queue|
    ensures forall u :: u in RetriedQueue(queue, faults) ==> exists k :: 0 <= k < |queue| && queue[k].id == u.id
  {
    if queue != [] {
      var n := |queue| - 1;
      RetriedFrom(queue[..n], faults[..n]);
      forall u | u in RetriedQueue(queue, faults) ensures exists k :: 0 <= k < |queue| && queue[k].id == u.id {
        if u in RetriedQueue(queue[..n], faults[..n]) {
          var k :| 0 <= k < n && queue[..n][k].id == u.id;
          assert queue[k].id == u.id;
        } else {
          assert queue[n].id == u.id;
        }
      }
    }
  }

  lemma {:induction false} RetriedElsewhere(rows: Rows, queue: seq<Update>, faults: seq<Fault>, id: nat)
    requires |faults| == |queue| && id in rows && forall k :: 0 <= k < |queue| ==> queue[k].id != id
    ensures id in RetriedRows(rows, queue, faults) && RetriedRows(rows, queue, faults)[id] == rows[id]
  {
    if queue != [] { RetriedElsewhere(rows, queue[..|queue| - 1], faults[..|queue| - 1], id); }
  }

  lemma QueueStep(s: Sys, t: Step)
    requires Ok(s) && QueueApproved(s) && Enabled(s, t)
    ensures QueueApproved(Next(s, t))
  {
    hide RetriedRows, SweptPending, SweptConfirmed, Queued;
    var n := Next(s, t);
    if t.Retry? {
      RetriedFrom(s.queue, t.faults);
      forall k | 0 <= k < |n.queue| ensures n.queue[k].id in n.won && n.won[n.queue[k].id] { assert n.queue[k] in n.queue; }
    }
    if t.Mark? { assert Holder(s, t.p, s.procs[t.p].pc.id); }
  }

  lemma RejectedStep(s: Sys, t: Step, id: nat)
    requires Ok(s) && QueueApproved(s) && Enabled(s, t) && id in s.won && !s.won[id] && RejectedRow(s, id)
    requires !(t.Backfill? && t.id == id)
    ensures RejectedRow(Next(s, t), id)
  {
    hide RetriedRows, RetriedQueue, Queued;
    if t.Retry? { RetriedElsewhere(s.rows, s.queue, t.faults, id); }
    if t.Mark? { assert Holder(s, t.p, s.procs[t.p].pc.id); }
  }

  lemma NewlyRejected(s: Sys, t: Step, id: nat)
    requires Ok(s) && Enabled(s, t) && id !in s.won && id in Next(s, t).won && !Next(s, t).won[id]
    ensures RejectedRow(Next(s, t), id)
  {
    hide RetriedRows, RetriedQueue, Queued;
  }

  /** A backfill has updated the row since its claim was won. */
  ghost predicate BackfilledSince(s: Sys, ts: seq<Step>, id: nat)
    requires Runs(s, ts)
    decreases |ts|
  {
    ts != [] && ((ts[0].Backfill? && ts[0].id == id && id in s.won) || BackfilledSince(Next(s, ts[0]), ts[1..], id))
  }

  lemma {:induction false} RejectedThrough(s: Sys, ts: seq<Step>, id: nat)
    requires Ok(s) && QueueApproved(s) && Runs(s, ts)
    requires id in s.won && !s.won[id] ==> RejectedRow(s, id)
    ensures id in Final(s, ts).won && !Final(s, ts).won[id] ==> RejectedRow(Final(s, ts), id) || BackfilledSince(s, ts, id)
    decreases |ts|
  {
    if ts != [] {
      hide RejectedRow, Ok, QueueApproved, Next;
      var n := Next(s, ts[0]);
      NextWon(s, ts[0]);
      NextHolders(s, ts[0]);
      NextInvoked(s, ts[0]);
      assert Ok(n) by { OkIs(n); }
      QueueStep(s, ts[0]);
      OneStep(s, ts[0], id);
      if id in n.won && !n.won[id] && !RejectedRow(n, id) {
        assert BackfilledSince(s, ts, id);
      } else {
        RejectedThrough(n, ts[1..], id);
      }
    }
  }

  lemma OkIs(s: Sys)
    requires WonOk(s) && HoldersOk(s) && InvokedOk(s)
    ensures Ok(s)
  {}

  lemma OneStep(s: Sys, t: Step, id: nat)
    requires Ok(s) && QueueApproved(s) && Enabled(s, t) && (id in s.won && !s.won[id] ==> RejectedRow(s, id))
    ensures var n := Next(s, t);
            id in n.won && !n.won[id] ==> RejectedRow(n, id) || (t.Backfill? && t.id == id && id in s.won)
  {
    hide RejectedRow, QueueApproved, RetriedRows, RetriedQueue, Queued, Enqueued, SweptPending, SweptConfirmed, Updated;
    var n := Next(s, t);
    if id in n.won && !n.won[id] {
      if id !in s.won {
        NewlyRejected(s, t, id);
      } else {
        WonStays(s, t, id);
        if !(t.Backfill? && t.id == id) { RejectedStep(s, t, id); }
      }
    }
  }

  lemma WonStays(s: Sys, t: Step, id: nat)
    requires Ok(s) && Enabled(s, t) && id in s.won
    ensures id in Next(s, t).won && Next(s, t).won[id] == s.won[id]
  {
    RunCons(s, t, []);
    assert [t] + [] == [t];
    WonForever(s, [t], id);
  }

  /** Over every history: a row whose claim was won by a rejection reads rejected by the user, unless a backfill has updated it
      since. Neither sweepers nor retries nor other clicks change it. */
  lemma RejectionsStand(ts: seq<Step>, id: nat)
    requires Runs(START, ts)
    ensures var s := Final(START, ts);
            id in s.won && !s.won[id] ==> RejectedRow(s, id) || BackfilledSince(START, ts, id)
  {
    StartOk();
    RejectedThrough(START, ts, id);
  }

  // ---- outcomes ----

  /** The row tells what the tool did: executed, with the error it had, or failed with its error. */
  ghost predicate Tells(before: AuditRow, after: AuditRow, o: Outcome) {
    && after.created == before.created && after.confirmedBy == before.confirmedBy
    && match o
       case Ran => after.status == Executed && after.error == before.error
       case Broke(e) => after.status == Failed && after.error == Some(e)
  }

  /** The update after the tool: unless its statement failed before it took effect the row tells the outcome; if it failed at
      all, an entry for this row and this kind of outcome waits in the queue. */
  lemma MarkStores(s: Sys, p: nat, fault: Fault)
    requires Ok(s) && Enabled(s, Mark(p, fault))
    ensures var id, o, n := s.procs[p].pc.id, s.procs[p].pc.outcome, Next(s, Mark(p, fault));
            && id in s.rows && id in n.rows
            && (if fault.Before? then n.rows == s.rows else Tells(s.rows[id], n.rows[id], o))
            && (forall i :: i in s.rows && i != id ==> i in n.rows && n.rows[i] == s.rows[i])
            && (if fault.Fine? then n.queue == s.queue
                else s.queue <= n.queue && exists k :: 0 <= k < |n.queue| && n.queue[k].id == id && n.queue[k].outcome.Ran? == o.Ran?)
  {
    var id, o := s.procs[p].pc.id, s.procs[p].pc.outcome;
    assert Holder(s, p, id);
    if !fault.Fine? {
      var n := Next(s, Mark(p, fault));
      if !Queued(s.queue, id, o.Status()) { assert n.queue[|s.queue|] == Update(id, o, 0); }
    }
  }

  /** The last successful entry on a row tells its outcome. */
  lemma {:induction false} RetryTells(rows: Rows, queue: seq<Update>, faults: seq<Fault>, k: nat)
    requires |faults| == |queue| && k < |queue| && faults[k].Fine? && queue[k].id in rows
    requires forall j :: k < j < |queue| ==> queue[j].id != queue[k].id
    ensures var id, after := queue[k].id, RetriedRows(rows, queue, faults);
            && id in after
            && match queue[k].outcome
               case Ran => after[id].status == Executed
               case Broke(e) => after[id].status == Failed && after[id].error == Some(e)
  {
    var n := |queue| - 1;
    RetryMonotone(rows, queue[..n], faults[..n]);
    if k < n { RetryTells(rows, queue[..n], faults[..n], k); }
  }

  /** An entry that keeps failing is tried three times and then dropped. */
  lemma ThreeTries(u: Update, a: Fault, b: Fault, c: Fault)
    requires u.attempts == 0 && !a.Fine? && !b.Fine? && !c.Fine?
    ensures var one := RetriedQueue([u], [a]);
            && one == [u.(attempts := 1)]
            && var two := RetriedQueue(one, [b]);
            two == [u.(attempts := 2)] && RetriedQueue(two, [c]) == []
  {
    OneRetry(u, a);
    OneRetry(u.(attempts := 1), b);
    OneRetry(u.(attempts := 2), c);
  }

  lemma OneRetry(u: Update, f: Fault)
    ensures RetriedQueue([u], [f]) == if !f.Fine? && u.attempts < 2 then [u.(attempts := u.attempts + 1)] else []
  {
    assert [u][..0] == [] && [f][..0] == [];
  }

  /** After a retry the queue holds exactly the entries that failed again, with one more attempt, if that was not the third. */
  lemma {:induction false} RetryKeeps(queue: seq<Update>, faults: seq<Fault>, u: Update)
    requires |faults| == |queue|
    ensures u in RetriedQueue(queue, faults) <==>
            exists k :: 0 <= k < |queue| && !faults[k].Fine? && queue[k].attempts < 2 && u == queue[k].(attempts := queue[k].attempts + 1)
  {
    if queue != [] {
      var n := |queue| - 1;
      RetryKeeps(queue[..n], faults[..n], u);
      if k :| 0 <= k < |queue| && !faults[k].Fine? && queue[k].attempts < 2 && u == queue[k].(attempts := queue[k].attempts + 1) {
        if k < n { assert queue[..n][k] == queue[k] && faults[..n][k] == faults[k]; }
      }
    }
  }

  /** No two entries of the queue are for the same row and the same kind of outcome. */
  ghost predicate Coalesced(queue: seq<Update>) {
    forall i, j :: 0 <= i < j < |queue| && queue[i].id == queue[j].id ==> queue[i].outcome.Ran? != queue[j].outcome.Ran?
  }

  lemma {:induction false} RetryCoalesced(queue: seq<Update>, faults: seq<Fault>)
    requires |faults| == |queue| && Coalesced(queue)
    ensures Coalesced(RetriedQueue(queue, faults))
  {
    if queue != [] {
      var n := |queue| - 1;
      RetryCoalesced(queue[..n], faults[..n]);
      var early := RetriedQueue(queue[..n], faults[..n]);
      forall i | 0 <= i < |early| && early[i].id == queue[n].id ensures early[i].outcome.Ran? != queue[n].outcome.Ran? {
        RetryKeeps(queue[..n], faults[..n], early[i]);
      }
    }
  }

  lemma StepCoalesced(s: Sys, t: Step)
    requires Enabled(s, t) && Coalesced(s.queue)
    ensures Coalesced(Next(s, t).queue)
  {
    hide RetriedRows, RetriedQueue, SweptPending, SweptConfirmed, Claimed, Updated;
    if t.Retry? { RetryCoalesced(s.queue, t.faults); }
    if t.Mark? && !t.fault.Fine? {
      var id, o := s.procs[t.p].pc.id, s.procs[t.p].pc.outcome;
      forall i | 0 <= i < |s.queue| && s.queue[i].id == id && s.queue[i].outcome.Ran? == o.Ran? ensures Queued(s.queue, id, o.Status()) {
        assert s.queue[i].outcome.Status() == o.Status();
      }
    }
  }

  /** Over every history failed updates of one row and kind of outcome wait in one entry only. */
  lemma {:induction false} RunCoalesced(s: Sys, ts: seq<Step>)
    requires Coalesced(s.queue) && Runs(s, ts)
    ensures Coalesced(Final(s, ts).queue)
    decreases |ts|
  {
    if ts != [] {
      StepCoalesced(s, ts[0]);
      RunCoalesced(Next(s, ts[0]), ts[1..]);
    }
  }

  // ---- sweeps ----

  /** Row stamps as they are written: to the second, with the microseconds behind a point unless there are none. */
  function Written(seconds: int -> string, digits: nat -> string, s: Stamp): string {
    seconds(s.second) + if s.micros == 0 then "Z" else "." + digits(s.micros) + "Z"
  }

  /** Two seconds are written with the same width and sort as they follow each other. */
  predicate Calendar(seconds: int -> string, a: int, b: int) {
    && |seconds(a)| == |seconds(b)|
    && (a < b ==> seconds(a) != seconds(b) && Leq(seconds(a), seconds(b)))
    && (b < a ==> seconds(a) != seconds(b) && Leq(seconds(b), seconds(a)))
  }

  lemma {:induction false} LeqJoined(x: string, y: string, u: string, v: string)
    requires |x| == |y|
    ensures Leq(x + u, y + v) <==> if x == y then Leq(u, v) else Leq(x, y)
  {
    if x == "" {
      assert x + u == u && y + v == v;
    } else {
      assert (x + u)[1..] == x[1..] + u && (y + v)[1..] == y[1..] + v;
      LeqJoined(x[1..], y[1..], u, v);
      assert x == [x[0]] + x[1..] && y == [y[0]] + y[1..];
    }
  }

  /** Old is what sorts before the cutoff as text, the cutoff being written without microseconds. So a row of the cutoff's own
      second is old exactly when it has microseconds: a point sorts before the final letter. */
  lemma OlderIsTextual(seconds: int -> string, digits: nat -> string, s: Stamp, cutoff: int)
    requires Calendar(seconds, s.second, cutoff)
    ensures Older(s, cutoff) <==> !Leq(seconds(cutoff) + "Z", Written(seconds, digits, s))
  {
    var rest := if s.micros == 0 then "Z" else "." + digits(s.micros) + "Z";
    LeqJoined(seconds(cutoff), seconds(s.second), "Z", rest);
    if s.second < cutoff {
      if Leq(seconds(cutoff), seconds(s.second)) { LeqAntisymmetric(seconds(cutoff), seconds(s.second)); }
    } else if s.second > cutoff {
      assert seconds(cutoff) != seconds(s.second);
    } else {
      assert Leq("Z", "Z") && ("." + digits(s.micros) + "Z")[0] == '.';
    }
  }

  /** A sweep expires exactly the old rows of its status, with its message, and leaves every other row as it was. */
  lemma SweepsExpire(rows: Rows, cutoff: int, id: nat, seconds: int -> string, digits: nat -> string)
    requires id in rows && Calendar(seconds, rows[id].created.second, cutoff)
    ensures var isOld := !Leq(seconds(cutoff) + "Z", Written(seconds, digits, rows[id].created));
            && SweptPending(rows, cutoff).Keys == rows.Keys == SweptConfirmed(rows, cutoff).Keys
            && SweptPending(rows, cutoff)[id] == (if rows[id].status == Pending && isOld
                                                  then rows[id].(status := Expired, error := Some("orphan: no confirmation")) else rows[id])
            && SweptConfirmed(rows, cutoff)[id] == (if rows[id].status == Confirmed && isOld
                                                    then rows[id].(status := Expired, error := Some("orphan: confirmed but never executed"))
                                                    else rows[id])
  {
    hide Calendar, Leq, Written, Older;
    OlderIsTextual(seconds, digits, rows[id].created, cutoff);
  }

  /** What the steps in the background do to one row, and that they touch nothing else: sweeps expire it when it is old, a backfill
      makes it tell an outcome, a retry those that waited for it, a restart and a new row leave it alone. */
  lemma BackgroundIs(s: Sys, t: Step, id: nat, seconds: int -> string, digits: nat -> string)
    requires Enabled(s, t) && id in s.rows && id <= s.last
    requires t.SweepPending? || t.SweepConfirmed? ==> Calendar(seconds, s.rows[id].created.second, t.cutoff)
    ensures var n := Next(s, t);
            match t
            case SweepPending(cutoff) =>
              && n == s.(rows := n.rows) && id in n.rows
              && n.rows[id] == if s.rows[id].status == Pending && !Leq(seconds(cutoff) + "Z", Written(seconds, digits, s.rows[id].created))
                               then s.rows[id].(status := Expired, error := Some("orphan: no confirmation")) else s.rows[id]
            case SweepConfirmed(cutoff) =>
              && n == s.(rows := n.rows) && id in n.rows
              && n.rows[id] == if s.rows[id].status == Confirmed && !Leq(seconds(cutoff) + "Z", Written(seconds, digits, s.rows[id].created))
                               then s.rows[id].(status := Expired, error := Some("orphan: confirmed but never executed")) else s.rows[id]
            case Backfill(i, o) =>
              n == s.(rows := n.rows) && id in n.rows && if i == id then Tells(s.rows[id], n.rows[id], o) else n.rows[id] == s.rows[id]
            case Retry(faults) =>
              && n == s.(rows := n.rows, queue := n.queue) && id in n.rows
              && (forall k :: 0 <= k < |s.queue| && s.queue[k].id == id && faults[k].Fine? && (forall j :: k < j < |s.queue| ==> s.queue[j].id != id)
                    ==> n.rows[id].status == if s.queue[k].outcome.Ran? then Executed else Failed)
              && ((forall k :: 0 <= k < |s.queue| ==> s.queue[k].id != id) ==> n.rows[id] == s.rows[id])
              && forall u :: u in n.queue <==> exists k :: 0 <= k < |s.queue| && !faults[k].Fine? && s.queue[k].attempts < 2
                                                            && u == s.queue[k].(attempts := s.queue[k].attempts + 1)
            case Restart => n == s.(procs := map[], queue := [])
            case AgentLogs(now) => n == s.(rows := s.rows[s.last + 1 := AuditRow(Pending, now, None, None)], last := s.last + 1)
            case _ => true
  {
    hide RetriedRows, RetriedQueue, SweptPending, SweptConfirmed, Leq, Calendar, Written;
    match t
    case SweepPending(cutoff) => SweepsExpire(s.rows, cutoff, id, seconds, digits);
    case SweepConfirmed(cutoff) => SweepsExpire(s.rows, cutoff, id, seconds, digits);
    case Retry(faults) =>
      RetryMonotone(s.rows, s.queue, faults);
      forall u ensures u in Next(s, t).queue <==> exists k :: 0 <= k < |s.queue| && !faults[k].Fine? && s.queue[k].attempts < 2
                                                                && u == s.queue[k].(attempts := s.queue[k].attempts + 1)
      {
        RetryKeeps(s.queue, faults, u);
      }
      forall k | 0 <= k < |s.queue| && s.queue[k].id == id && faults[k].Fine? && (forall j :: k < j < |s.queue| ==> s.queue[j].id != id)
        ensures Next(s, t).rows[id].status == if s.queue[k].outcome.Ran? then Executed else Failed
      {
        RetryTells(s.rows, s.queue, faults, k);
      }
      if forall k :: 0 <= k < |s.queue| ==> s.queue[k].id != id { RetriedElsewhere(s.rows, s.queue, faults, id); }
    case _ =>
  }
}
