/** One-time approvals: a memory cache in front of a durable table, checked against the plain set of live grants. */
module ApprovalCache {
  import opened Basics

  datatype Key = Key(tool: string, args: string)
  datatype Grant = Grant(session: string, key: Key)

  datatype Op =
    | Ask(grant: Grant)
    | Approve(grant: Grant)
    | Consume(grant: Grant)
    | Revoke(session: string)
    | Expire(grant: Grant)
    | Restart

  /** `rows` is the table, a row telling whether its approval was consumed; `approved` and `loaded` are the memory. */
  datatype Registry = Registry(rows: map<Grant, bool>, approved: set<Grant>, loaded: set<string>)

  const EMPTY := Registry(map[], {}, {})

  function Unconsumed(rows: map<Grant, bool>, session: string): set<Grant> {
    set g | g in rows && g.session == session && !rows[g]
  }

  /** `_load_session_into_cache`: once per session. */
  function Loaded(r: Registry, session: string): Registry {
    if session in r.loaded then r
    else r.(approved := r.approved + Unconsumed(r.rows, session), loaded := r.loaded + {session})
  }

  /** `is_approved`: the cache, then the table, whose answer primes the cache again. */
  function Asked(r: Registry, g: Grant): Registry {
    var l := Loaded(r, g.session);
    if g in l.approved then l
    else if g in l.rows && !l.rows[g] then l.(approved := l.approved + {g}, loaded := l.loaded + {g.session})
    else l
  }

  predicate Answer(r: Registry, g: Grant) { g in Loaded(r, g.session).approved || (g in r.rows && !r.rows[g]) }

  function Step(r: Registry, op: Op): Registry {
    match op
    case Ask(g) => Asked(r, g)
    case Approve(g) =>
      r.(rows := if g in r.rows then r.rows else r.rows[g := false],  // INSERT OR IGNORE
         approved := r.approved + {g}, loaded := r.loaded + {g.session})
    case Consume(g) => r.(rows := if g in r.rows then r.rows[g := true] else r.rows, approved := r.approved - {g})
    case Revoke(s) =>
      Registry((map g | g in r.rows && g.session != s :: r.rows[g]), (set g | g in r.approved && g.session != s), r.loaded - {s})
    case Expire(g) => r.(rows := if g in r.rows && !r.rows[g] then r.rows - {g} else r.rows, approved := r.approved - {g})
    case Restart => r.(approved := {}, loaded := {})
  }

  // ---- the plain meaning ----

  /** The live grants: given, and since then neither consumed, expired nor revoked. */
  function Live(s: set<Grant>, op: Op): set<Grant> {
    match op
    case Ask(_) => s
    case Approve(g) => s + {g}
    case Consume(g) => s - {g}
    case Revoke(session) => set g | g in s && g.session != session
    case Expire(g) => s - {g}
    case Restart => s
  }

  function Run(r: Registry, ops: seq<Op>): Registry {
    if ops == [] then r else Step(Run(r, ops[..|ops| - 1]), ops[|ops| - 1])
  }

  function LiveAfter(ops: seq<Op>): set<Grant> {
    if ops == [] then {} else Live(LiveAfter(ops[..|ops| - 1]), ops[|ops| - 1])
  }

  // ---- what always holds ----

  /** Memory holds live grants only, and the table holds exactly the live grants as unconsumed rows. */
  ghost predicate Agrees(r: Registry, live: set<Grant>) {
    && r.approved <= live
    && (forall g :: g in live <==> g in r.rows && !r.rows[g])
  }

  /** A grant of a key whose row is consumed is not recorded in the table. */
  predicate Regrant(r: Registry, op: Op) { op.Approve? && op.grant in r.rows && r.rows[op.grant] }

  predicate NoRegrant(r: Registry, ops: seq<Op>) {
    ops != [] ==> NoRegrant(r, ops[..|ops| - 1]) && !Regrant(Run(r, ops[..|ops| - 1]), ops[|ops| - 1])
  }

  lemma StepAgrees(r: Registry, op: Op, live: set<Grant>)
    requires Agrees(r, live) && !Regrant(r, op)
    ensures Agrees(Step(r, op), Live(live, op))
  {}

  /** A re-grant of a consumed key is exactly what breaks the agreement. */
  lemma StepAgreesIff(r: Registry, op: Op, live: set<Grant>)
    requires Agrees(r, live)
    ensures Agrees(Step(r, op), Live(live, op)) <==> !Regrant(r, op)
  {
    if Regrant(r, op) { assert op.grant in Live(live, op) && Step(r, op).rows[op.grant]; } else { StepAgrees(r, op, live); }
  }

  /** The keys used up: consumed while live, and not revoked with their session since. */
  function UsedUp(ops: seq<Op>): set<Grant> {
    if ops == [] then {}
    else
      var used := UsedUp(ops[..|ops| - 1]);
      match ops[|ops| - 1]
      case Consume(g) => if g in LiveAfter(ops[..|ops| - 1]) then used + {g} else used
      case Revoke(session) => set g | g in used && g.session != session
      case _ => used
  }

  /** What a caller must not grant again is what it has used up. */
  lemma {:induction false} RegrantIsUsedUp(ops: seq<Op>, g: Grant)
    requires NoRegrant(EMPTY, ops)
    ensures Regrant(Run(EMPTY, ops), Approve(g)) <==> g in UsedUp(ops)
  {
    if ops != [] {
      var n := |ops| - 1;
      RegrantIsUsedUp(ops[..n], g);
      RunAgrees(ops[..n]);
    }
  }

  /** Granted again after use, a key is approved until the process restarts, and then is not, though nothing has used,
      expired or revoked the second grant. */
  lemma RegrantIsLost(ops: seq<Op>, g: Grant)
    requires NoRegrant(EMPTY, ops) && g in UsedUp(ops)
    ensures var r := Step(Run(EMPTY, ops), Approve(g));
            Answer(r, g) && !Answer(Step(r, Restart), g) && g in Live(Live(LiveAfter(ops), Approve(g)), Restart)
  {
    RegrantIsUsedUp(ops, g);
  }

  lemma {:induction false} RunAgrees(ops: seq<Op>)
    requires NoRegrant(EMPTY, ops)
    ensures Agrees(Run(EMPTY, ops), LiveAfter(ops))
  {
    if ops != [] {
      var n := |ops| - 1;
      RunAgrees(ops[..n]);
      StepAgrees(Run(EMPTY, ops[..n]), ops[n], LiveAfter(ops[..n]));
    }
  }

  lemma AnswerIsLive(r: Registry, live: set<Grant>, g: Grant)
    requires Agrees(r, live)
    ensures Answer(r, g) <==> g in live
  {}

  /** Over every history without a re-grant of a consumed key, `is_approved` says exactly which grants are live; asking
      changes no answer, and neither does a restart at any point. */
  lemma AnswersAreLive(ops: seq<Op>, g: Grant, h: Grant)
    requires NoRegrant(EMPTY, ops)
    ensures var r := Run(EMPTY, ops);
            && (Answer(r, g) <==> g in LiveAfter(ops))
            && (forall x :: x in r.approved ==> x in r.rows && !r.rows[x])
            && (Answer(Step(r, Restart), g) <==> Answer(r, g)) && (Answer(Asked(r, h), g) <==> Answer(r, g))
  {
    RunAgrees(ops);
    var r := Run(EMPTY, ops);
    var live := LiveAfter(ops);
    AnswerIsLive(r, live, g);
    StepAgrees(r, Restart, live);
    StepAgrees(r, Ask(h), live);
    AnswerIsLive(Step(r, Restart), live, g);
    AnswerIsLive(Step(r, Ask(h)), live, g);
  }

  // ---- what memory holds ----

  /** Asking leaves the table alone and primes memory: it holds the asked key exactly if that is approved, and, when its session had
      not been loaded, every unconsumed row of the session; what it held of other sessions it still holds, and no more. */
  lemma AskPrimes(r: Registry, g: Grant, h: Grant)
    ensures var n := Asked(r, g);
            && n.rows == r.rows && n.loaded == r.loaded + {g.session}
            && (g in n.approved <==> Answer(r, g))
            && (h in r.approved ==> h in n.approved)
            && (h.session == g.session && g.session !in r.loaded ==> (h in n.approved <==> h in r.approved || (h in r.rows && r.rows[h] == false)))
            && (h.session != g.session ==> (h in n.approved <==> h in r.approved))
            && (h != g && g.session in r.loaded ==> (h in n.approved <==> h in r.approved))
  {}

  /** What the other calls leave in memory. */
  lemma MemoryFollows(r: Registry, op: Op, h: Grant)
    requires !op.Ask?
    ensures var n := Step(r, op);
            match op
            case Approve(g) => n.loaded == r.loaded + {g.session} && (h in n.approved <==> h == g || h in r.approved)
            case Consume(g) => n.loaded == r.loaded && (h in n.approved <==> h != g && h in r.approved)
            case Expire(g) => n.loaded == r.loaded && (h in n.approved <==> h != g && h in r.approved)
            case Revoke(session) => n.loaded == r.loaded - {session} && (h in n.approved <==> h.session != session && h in r.approved)
            case Restart => n.loaded == {} && n.approved == {} && n.rows == r.rows
            case Ask(_) => true
  {}

  // ---- in place ----

  class ApprovalRegistry {
    var rows: map<Grant, bool>
    var approved: set<Grant>
    var loaded: set<string>

    constructor ()
      ensures State() == EMPTY
    {
      rows, approved, loaded := map[], {}, {};
    }

    function State(): Registry
      reads this
    {
      Registry(rows, approved, loaded)
    }

    method LoadSessionIntoCache(session: string)
      modifies this`approved, this`loaded
      ensures State() == Loaded(old(State()), session)
    {
      if session in loaded { return; }
      var todo := rows.Keys;
      ghost var seen: set<Grant> := {};
      while todo != {}
        invariant todo !! seen && todo + seen == rows.Keys && loaded == old(loaded)
        invariant approved == old(approved) + (set g | g in seen && g.session == session && !rows[g])
      {
        var g :| g in todo;
        if g.session == session && !rows[g] { approved := approved + {g}; }
        todo, seen := todo - {g}, seen + {g};
      }
      assert seen == rows.Keys;
      assert (set g | g in seen && g.session == session && !rows[g]) == Unconsumed(rows, session);
      assert approved == old(approved) + Unconsumed(rows, session);
      loaded := loaded + {session};
    }

    method IsApproved(g: Grant) returns (yes: bool)
      modifies this`approved, this`loaded
      ensures yes == Answer(old(State()), g) && State() == Step(old(State()), Ask(g))
    {
      LoadSessionIntoCache(g.session);
      if g in approved { return true; }
      if g !in rows { return false; }
      if rows[g] { return false; }
      approved := approved + {g};
      loaded := loaded + {g.session};
      yes := true;
    }

    method GrantApproval(g: Grant)
      modifies this
      ensures State() == Step(old(State()), Approve(g))
    {
      approved := approved + {g};
      loaded := loaded + {g.session};
      if g !in rows { rows := rows[g := false]; }
    }

    method ConsumeApproval(g: Grant)
      modifies this
      ensures State() == Step(old(State()), Consume(g))
    {
      approved := approved - {g};
      if g in rows && !rows[g] { rows := rows[g := true]; }
    }

    method RevokeSession(session: string)
      modifies this
      ensures State() == Step(old(State()), Revoke(session))
    {
      approved := set g | g in approved && g.session != session;
      loaded := loaded - {session};
      rows := map g | g in rows && g.session != session :: rows[g];
    }

    /** True exactly when an unconsumed row was deleted. */
    method ExpirePending(g: Grant) returns (expired: bool)
      modifies this
      ensures State() == Step(old(State()), Expire(g)) && expired == (g in old(rows) && !old(rows)[g])
    {
      approved := approved - {g};
      expired := g in rows && !rows[g];
      if expired { rows := rows - {g}; }
    }

    /** A new process over the same table. */
    method RestartProcess()
      modifies this
      ensures State() == Step(old(State()), Restart)
    {
      approved, loaded := {}, {};
    }
  }
}
