/** The event stream of one run: what a subscriber is sent and what it has seen, over any interleaving of
    manager calls, polls, dropped connections and restarts. */
module Streaming {
  import opened Basics
  import opened Runs
  import opened RunInvariants
  import opened ManagerModel
  import opened ManagerInvariants
  import opened ManagerTraces

  datatype Item =
    | Replay(event: Event)
    | Snapshot(no: int, run: Run, upTo: int)  // run_snapshot carries the whole record
  {
    function Number(): int { if Replay? then event.no else no }
    function End(): int { if Replay? then event.no else upTo }
  }

  datatype Batch = Batch(items: seq<Item>, stale: bool, terminal: bool)

  // ---- the manager's side ----

  function Later(ring: seq<Event>, cursor: int): seq<Item> {
    if ring == [] then []
    else (if ring[0].no > cursor then [Replay(ring[0])] else []) + Later(ring[1..], cursor)
  }

  /** `_read_locked`. */
  function Read(r: Run, cursor: int): Batch {
    if r.ring == [] then Batch([], false, r.status.Terminal())
    else if cursor < r.ring[0].no - 1 then
      var upTo := r.nextNo - 1;
      Batch([Snapshot(if upTo > 1 then upTo else 1, r, upTo)] + Later(r.ring, upTo), true, r.status.Terminal())
    else Batch(Later(r.ring, cursor), false, r.status.Terminal())
  }

  /** `_read_locked` as the loop it is. */
  method ReadLocked(r: Run, from: int) returns (b: Batch)
    ensures b == Read(r, from)
  {
    var retained := r.ring;
    if retained == [] { return Batch([], false, r.status.Terminal()); }
    var cursor := from;
    var stale := cursor < retained[0].no - 1;
    var items := [];
    if stale {
      var upTo := r.nextNo - 1;
      items := [Snapshot(if upTo > 1 then upTo else 1, r, upTo)];
      cursor := upTo;
    }
    ghost var first := items;
    for i := 0 to |retained|
      invariant items + Later(retained[i..], cursor) == first + Later(retained, cursor)
    {
      ghost var was := items;
      if retained[i].no > cursor { items := items + [Replay(retained[i])]; }
      assert retained[i..][1..] == retained[i + 1..];
      assert items + Later(retained[i + 1..], cursor) == was + Later(retained[i..], cursor);
    }
    assert retained[|retained|..] == [] && items == items + Later([], cursor);
    assert [] + Later(retained, cursor) == Later(retained, cursor);
    b := Batch(items, stale, r.status.Terminal());
  }

  // ---- the subscriber's side ----

  /** One connection. `cursor` is the server loop's; `lastId` is what a browser reconnects with, which a snapshot,
      sent without an id, does not move; `view` is what the client shows. */
  datatype Sub = Sub(from: int, cursor: int, lastId: int, view: View, items: seq<Item>, stopped: bool)

  const FRESH := Sub(0, 0, 0, BLANK_VIEW, [], false)

  function Take(s: Sub, i: Item): Sub {
    var t := s.(items := s.items + [i]);
    match i
    case Replay(e) => t.(cursor := if e.no > s.cursor then e.no else s.cursor, lastId := e.no, view := Seen(s.view, e.body))
    case Snapshot(_, run, upTo) => t.(cursor := upTo, view := ViewOf(run))
  }

  function TakeAll(s: Sub, items: seq<Item>): Sub {
    if items == [] then s else Take(TakeAll(s, items[..|items| - 1]), items[|items| - 1])
  }

  function Taken(s: Sub, b: Batch): Sub { TakeAll(s, b.items).(stopped := b.terminal) }

  /** The body of the stream's loop: send every item, move the cursor, and end after a terminal batch. */
  method SendBatch(b: Batch, s: Sub) returns (cursor: int, sent: seq<Item>, done: bool)
    ensures var t := Taken(s, b); cursor == t.cursor && s.items + sent == t.items && done == t.stopped
  {
    cursor, sent := s.cursor, [];
    for i := 0 to |b.items|
      invariant cursor == TakeAll(s, b.items[..i]).cursor && s.items + sent == TakeAll(s, b.items[..i]).items
    {
      assert b.items[..i + 1][..i] == b.items[..i];
      sent := sent + [b.items[i]];
      match b.items[i]
      case Snapshot(_, _, upTo) => cursor := upTo;
      case Replay(e) => if e.no > cursor { cursor := e.no; }
    }
    assert b.items[..|b.items|] == b.items;
    done := b.terminal;
  }

  function Reconnected(s: Sub): Sub { Sub(s.lastId, s.lastId, s.lastId, s.view, [], false) }

  /** The client has the first items of a batch only. */
  function Part(s: Sub, b: Batch, n: nat): Sub { TakeAll(s, b.items[..if n < |b.items| then n else |b.items|]) }

  // ---- the invariant ----

  /** The ring no longer reaches back to this cursor. */
  predicate Behind(cursor: int, log: seq<Event>, limit: nat) { cursor < |log| - limit }

  function Before(from: int, items: seq<Item>, i: nat): int
    requires i <= |items|
  {
    if i == 0 then from else items[i - 1].End()
  }

  /** An event goes on right after what came before it; a snapshot covers everything up to its end. */
  predicate Follows(before: int, i: Item) { if i.Replay? then i.event.no == before + 1 else i.no == i.upTo > before }

  ghost predicate Chained(from: int, items: seq<Item>) {
    forall i :: 0 <= i < |items| ==> Follows(Before(from, items, i), items[i])
  }

  ghost predicate Logged(items: seq<Item>, log: seq<Event>) {
    forall i :: 0 <= i < |items| && items[i].Replay? ==> 1 <= items[i].event.no <= |log| && log[items[i].event.no - 1] == items[i].event
  }

  /** What was sent on this connection reads the log without a gap, from its start up to the cursor. */
  ghost predicate SentOk(s: Sub, log: seq<Event>) {
    && 0 <= s.from && 0 <= s.cursor <= |log|
    && Chained(s.from, s.items) && s.cursor == Before(s.from, s.items, |s.items|) && Logged(s.items, log)
  }

  /** The view is the fold of the log up to the cursor, unless the next connection or poll starts with a snapshot. */
  ghost predicate SubOk(s: Sub, log: seq<Event>, limit: nat) {
    && SentOk(s, log) && 0 <= s.lastId <= s.cursor
    && (s.lastId == s.cursor || Behind(s.lastId, log, limit))
    && (s.view == Fold(log[..s.cursor]) || Behind(s.cursor, log, limit) || (s.stopped && Behind(s.lastId, log, limit)))
  }

  lemma FreshOk(log: seq<Event>, limit: nat)
    ensures SubOk(FRESH, log, limit)
  {
    assert log[..0] == [];
  }

  ghost function Rejoined(log: seq<Event>, cursor: nat): Sub
    requires cursor <= |log|
  {
    Sub(cursor, cursor, cursor, Fold(log[..cursor]), [], false)
  }

  /** A client may join at any number it reached earlier with the view it had then. */
  lemma JoinOk(log: seq<Event>, cursor: nat, limit: nat)
    requires cursor <= |log|
    ensures SubOk(Rejoined(log, cursor), log, limit)
  {}

  /** The numbers sent on one connection strictly increase, and all lie past its start. */
  lemma {:induction false} NumbersIncrease(from: int, items: seq<Item>, i: nat, j: nat)
    requires Chained(from, items) && i < j < |items|
    ensures from < items[i].Number() < items[j].Number()
    decreases j
  {
    assert Follows(Before(from, items, j), items[j]);
    if i + 1 < j {
      NumbersIncrease(from, items, i, j - 1);
    } else {
      FirstIncreases(from, items, i);
    }
  }

  lemma {:induction false} FirstIncreases(from: int, items: seq<Item>, i: nat)
    requires Chained(from, items) && i < |items|
    ensures from < items[i].Number() && items[i].Number() == items[i].End()
  {
    assert Follows(Before(from, items, i), items[i]);
    if i > 0 { FirstIncreases(from, items, i - 1); }
  }

  // ---- one poll ----

  function Replays(es: seq<Event>): seq<Item> { seq(|es|, i requires 0 <= i < |es| => Replay(es[i])) }

  /** What is left of a ring past a cursor inside it is the log past that cursor. */
  lemma {:induction false} LaterIs(log: seq<Event>, k: nat, cursor: nat)
    requires Numbered(log) && k <= |log| && k <= cursor <= |log|
    ensures Later(log[k..], cursor) == Replays(log[cursor..])
    decreases |log| - k
  {
    if k < |log| {
      assert log[k..][1..] == log[k + 1..];
      if k < cursor {
        LaterIs(log, k + 1, cursor);
      } else {
        LaterAll(log, k, cursor);
      }
    }
  }

  lemma {:induction false} LaterAll(log: seq<Event>, k: nat, cursor: nat)
    requires Numbered(log) && cursor <= k <= |log|
    ensures Later(log[k..], cursor) == Replays(log[k..])
    decreases |log| - k
  {
    if k < |log| {
      assert log[k..][1..] == log[k + 1..];
      LaterAll(log, k + 1, cursor);
      assert Replays(log[k..]) == [Replay(log[k])] + Replays(log[k + 1..]);
    }
  }

  lemma TakeSnoc(s: Sub, items: seq<Item>, i: Item)
    ensures TakeAll(s, items + [i]) == Take(TakeAll(s, items), i)
  {
    assert (items + [i])[..|items|] == items;
  }

  lemma TakeOneOk(s: Sub, log: seq<Event>, i: Item)
    requires SentOk(s, log) && Follows(s.cursor, i) && i.End() <= |log| && (i.Replay? ==> log[i.event.no - 1] == i.event)
    ensures var t := Take(s, i); SentOk(t, log) && t.cursor == i.End() && t.from == s.from && t.stopped == s.stopped
  {
    hide Seen, ViewOf;
    var t := Take(s, i);
    forall k | 0 <= k < |t.items| ensures Follows(Before(t.from, t.items, k), t.items[k]) {
      if k < |s.items| { assert Follows(Before(s.from, s.items, k), s.items[k]); }
    }
  }

  lemma ReplaysSnoc(log: seq<Event>, from: int, n: nat)
    requires 0 <= from < n <= |log|
    ensures Replays(log[from..n]) == Replays(log[from..n - 1]) + [Replay(log[n - 1])]
  {}

  lemma FoldSnoc(log: seq<Event>, n: nat)
    requires 0 < n <= |log|
    ensures Fold(log[..n]) == Seen(Fold(log[..n - 1]), log[n - 1].body)
  {
    assert log[..n] == log[..n - 1] + [log[n - 1]];
    FoldAppend(log[..n - 1], log[n - 1]);
  }

  lemma TakeNext(t: Sub, log: seq<Event>, n: nat)
    requires Numbered(log) && 0 < n <= |log| && SentOk(t, log) && t.cursor == n - 1 && t.view == Fold(log[..n - 1])
    ensures var u := Take(t, Replay(log[n - 1]));
            && SentOk(u, log) && u.cursor == n && u.lastId == n && u.from == t.from && u.view == Fold(log[..n]) && u.stopped == t.stopped
  {
    hide Fold, Seen, Chained, Logged, Before;
    FoldSnoc(log, n);
    TakeOneOk(t, log, Replay(log[n - 1]));
  }

  /** Taking the log from the cursor on keeps the view the fold of what was read. */
  lemma {:induction false} TakeReplays(s: Sub, log: seq<Event>, n: nat)
    requires Numbered(log) && 0 <= s.cursor <= n <= |log| && SentOk(s, log) && s.view == Fold(log[..s.cursor])
    ensures var t := TakeAll(s, Replays(log[s.cursor..n]));
            && SentOk(t, log) && t.cursor == n && t.lastId == (if n == s.cursor then s.lastId else n)
            && t.from == s.from && t.view == Fold(log[..n]) && t.stopped == s.stopped
    decreases n
  {
    if n == s.cursor {
      assert log[s.cursor..n] == [];
    } else {
      hide SentOk, Fold, Seen, Take, TakeAll, Replays, Numbered;
      TakeReplays(s, log, n - 1);
      ReplaysSnoc(log, s.cursor, n);
      TakeSnoc(s, Replays(log[s.cursor..n - 1]), Replay(log[n - 1]));
      TakeNext(TakeAll(s, Replays(log[s.cursor..n - 1])), log, n);
    }
  }

  /** A cursor the ring still reaches gets exactly the missing part of the log. */
  lemma ReadOnTime(r: Run, log: seq<Event>, cursor: nat, cfg: Config)
    requires RunOk(r, log, cfg) && cfg.limit >= 1 && cursor <= |log| && !Behind(cursor, log, cfg.limit)
    ensures Read(r, cursor) == Batch(Replays(log[cursor..]), false, r.status.Terminal())
  {
    hide Fold;
    var k := if |log| > cfg.limit then |log| - cfg.limit else 0;
    assert r.ring == log[k..];
    LaterIs(log, k, cursor);
  }

  /** A cursor the ring has lost gets one snapshot that covers the whole log. */
  lemma ReadLate(r: Run, log: seq<Event>, cursor: nat, cfg: Config)
    requires RunOk(r, log, cfg) && cfg.limit >= 1 && Behind(cursor, log, cfg.limit)
    ensures Read(r, cursor) == Batch([Snapshot(|log|, r, |log|)], true, r.status.Terminal())
  {
    hide Fold;
    var k := |log| - cfg.limit;
    assert r.ring == log[k..] && r.ring[0] == log[k];
    LaterIs(log, k, |log|);
  }

  /** A poll leaves the subscriber well formed and fully caught up: on a live run its view is the record; on an ended
      run it has reached the last number, by the terminal event or by a terminal snapshot, and stops. */
  lemma PollOk(s: Sub, r: Run, log: seq<Event>, cfg: Config)
    requires SubOk(s, log, cfg.limit) && !s.stopped && RunOk(r, log, cfg) && cfg.limit >= 1
    ensures var t := Taken(s, Read(r, s.cursor));
            && SubOk(t, log, cfg.limit) && t.cursor == |log| == r.nextNo - 1 && t.from == s.from
            && t.stopped == r.status.Terminal()
            && (!r.status.Terminal() ==> t.view == ViewOf(r))
            && (r.status.Terminal() && s.cursor < |log| ==> LastSaysEnd(t, r))
  {
    hide ViewOf, Seen;
    if Behind(s.cursor, log, cfg.limit) {
      ReadLate(r, log, s.cursor, cfg);
      SnapshotOk(s, r, log, cfg);
    } else {
      ReadOnTime(r, log, s.cursor, cfg);
      TakeReplays(s, log, |log|);
      EndItem(s, r, log);
      assert log[s.cursor..|log|] == log[s.cursor..] && log[..|log|] == log;
    }
  }

  ghost predicate LastSaysEnd(t: Sub, r: Run) {
    |t.items| > 0 && match t.items[|t.items| - 1]
                     case Replay(e) => e.body == Ended(r.status)
                     case Snapshot(_, run, _) => run == r
  }

  /** The last item of a reading of the whole rest of an ended log is its end. */
  lemma EndItem(s: Sub, r: Run, log: seq<Event>)
    requires 0 <= s.cursor <= |log| && (r.status.Terminal() ==> EndsWith(log, r.status))
    ensures r.status.Terminal() && s.cursor < |log| ==> LastSaysEnd(TakeAll(s, Replays(log[s.cursor..])), r)
  {
    hide Seen, Fold;
  }

  lemma SnapshotOk(s: Sub, r: Run, log: seq<Event>, cfg: Config)
    requires SubOk(s, log, cfg.limit) && RunOk(r, log, cfg) && Behind(s.cursor, log, cfg.limit)
    ensures var i := Snapshot(|log|, r, |log|);
            var t := TakeAll(s, [i]).(stopped := r.status.Terminal());
            SubOk(t, log, cfg.limit) && t.cursor == |log| && t.from == s.from && t.view == ViewOf(r) && LastSaysEnd(t, r)
  {
    var i := Snapshot(|log|, r, |log|);
    assert TakeAll(s, [i]) == Take(s, i) by { TakeSnoc(s, [], i); assert [] + [i] == [i]; }
    TakeOneOk(s, log, i);
    hide SentOk, ViewOf;
    assert SentOk(Take(s, i).(stopped := r.status.Terminal()), log) by { StopOk(Take(s, i), log, r.status.Terminal()); }
    assert log[..|log|] == log;
  }

  lemma StopOk(s: Sub, log: seq<Event>, stopped: bool)
    requires SentOk(s, log)
    ensures SentOk(s.(stopped := stopped), log)
  {}

  /** A longer log keeps every subscriber well formed. */
  lemma GrowOk(s: Sub, log: seq<Event>, log': seq<Event>, limit: nat)
    requires SubOk(s, log, limit) && log <= log'
    ensures SubOk(s, log', limit)
  {
    hide Fold, Chained;
    assert log'[..s.cursor] == log[..s.cursor];
  }

  lemma ReconnectOk(s: Sub, log: seq<Event>, limit: nat)
    requires SubOk(s, log, limit)
    ensures SubOk(Reconnected(s), log, limit)
  {}

  /** A connection lost within a batch: what had arrived is kept, and the next connection resumes behind it. */
  lemma CutOk(s: Sub, r: Run, log: seq<Event>, n: nat, cfg: Config)
    requires SubOk(s, log, cfg.limit) && !s.stopped && RunOk(r, log, cfg) && cfg.limit >= 1
    ensures SubOk(Reconnected(Part(s, Read(r, s.cursor), n)), log, cfg.limit)
  {
    hide ViewOf, Seen, RunOk, Chained, Logged, Fold, TakeAll, Read;
    if Behind(s.cursor, log, cfg.limit) {
      ReadLate(r, log, s.cursor, cfg);
      SnapshotOk(s, r, log, cfg);
      var items := [Snapshot(|log|, r, |log|)];
      var t := TakeAll(s, items).(stopped := r.status.Terminal());
      ReconnectOk(t, log, cfg.limit);
      assert items[..1] == items;
      if n == 0 { TakeNone(s); ReconnectOk(s, log, cfg.limit); }
    } else {
      ReadOnTime(r, log, s.cursor, cfg);
      CutReplaysOk(s, r, log, n, cfg);
    }
  }

  lemma TakeNone(s: Sub)
    ensures TakeAll(s, []) == s
  {}

  lemma CutReplaysOk(s: Sub, r: Run, log: seq<Event>, n: nat, cfg: Config)
    requires SubOk(s, log, cfg.limit) && !s.stopped && RunOk(r, log, cfg) && !Behind(s.cursor, log, cfg.limit)
    ensures SubOk(Reconnected(Part(s, Batch(Replays(log[s.cursor..]), false, r.status.Terminal()), n)), log, cfg.limit)
  {
    hide ViewOf, Seen, Chained, Logged, Fold, TakeAll;
    Unpack(r, log, cfg);
    hide RunOk;
    var end := if s.cursor + n < |log| then s.cursor + n else |log|;
    TakeReplays(s, log, end);
    assert Replays(log[s.cursor..])[..end - s.cursor] == Replays(log[s.cursor..end]);
    var t := TakeAll(s, Replays(log[s.cursor..end]));
    ReconnectOk(t, log, cfg.limit);
  }

  // ---- interleavings ----

  /** `Cut` is a poll whose connection is lost after the first `n` items. */
  datatype Move = Manage(at: Timed) | Poll(now: Time) | Cut(now: Time, n: nat) | Reconnect

  datatype Scene = Scene(m: Manager, s: Sub)

  /** A restart drops the connection. A poll looks at the deadline first; the stream of a vanished run ends. */
  function Played(c: Scene, id: RunId, move: Move, cfg: Config): Scene {
    match move
    case Manage(at) => Scene(Do(c.m, at.op, cfg, at.now), if at.op.Reload? then Reconnected(c.s) else c.s)
    case Reconnect => c.(s := Reconnected(c.s))
    case Poll(now) =>
      if c.s.stopped then c
      else
        var n := Act(c.m, id, Check, cfg, now);
        Scene(n, if id in n.records then Taken(c.s, Read(n.records[id], c.s.cursor)) else c.s.(stopped := true))
    case Cut(now, k) =>
      if c.s.stopped then c
      else
        var n := Act(c.m, id, Check, cfg, now);
        Scene(n, Reconnected(if id in n.records then Part(c.s, Read(n.records[id], c.s.cursor), k) else c.s))
  }

  predicate LegalMove(c: Scene, move: Move) { move.Manage? ==> Legal(c.m, move.at.op) }

  function Play(c: Scene, id: RunId, moves: seq<Move>, cfg: Config): Scene
    decreases |moves|
  {
    if moves == [] then c else Play(Played(c, id, moves[0], cfg), id, moves[1..], cfg)
  }

  predicate LegalPlay(c: Scene, id: RunId, moves: seq<Move>, cfg: Config)
    decreases |moves|
  {
    moves != [] ==> LegalMove(c, moves[0]) && LegalPlay(Played(c, id, moves[0], cfg), id, moves[1..], cfg)
  }

  ghost predicate SceneOk(c: Scene, id: RunId, cfg: Config) {
    Inv(c.m, cfg) && SubOk(c.s, Log(c.m.events, id), cfg.limit)
  }

  lemma StoreGrows(m: Manager, id: RunId, i: RunId, o: Outcome)
    requires Numbered(Log(m.events, i)) && (o.event.Some? ==> o.event.value.no == |Log(m.events, i)| + 1)
    ensures Log(m.events, id) <= Log(Store(m.events, i, o.event), id)
  {
    hide Numbered, Store;
    StoreLog(m.events, i, o.event);
  }

  /** Event logs only grow: nothing a manager does, restarts included, changes a number already given out. */
  lemma LogGrows(m: Manager, op: Op, id: RunId, cfg: Config, now: Time)
    requires Inv(m, cfg) && Legal(m, op)
    ensures Log(m.events, id) <= Log(Do(m, op, cfg, now).events, id)
  {
    hide RunOk, ActiveOk, LineageOk, Mirrored, Step, Restarted, Checked, RowOf, Insert, Store, CheckAll, Restart;
    match op
    case Start(i, q) => CleanupKeepsInv(m, cfg, now);
    case Retry(p, i, q) => CleanupKeepsInv(m, cfg, now);
    case On(i, a) =>
      if i in m.records {
        StepKeepsRunOk(m.records[i], Log(m.events, i), a, cfg, now);
        Unpack(m.records[i], Log(m.events, i), cfg);
        StoreGrows(m, id, i, Step(m.records[i], a, cfg, now));
      }
    case Watchdog => CheckAllKeepsInv(m, cfg, now);
    case Tidy =>
    case Configure(_) =>
    case ConfigureLife(_) =>
    case Reload(found) =>
      InvStored(m, cfg);
      RestartKeepsInv(m.rows, m.events, found, m.setting, m.life, cfg, now);
  }

  lemma PlayedOk(c: Scene, id: RunId, move: Move, cfg: Config)
    requires SceneOk(c, id, cfg) && LegalMove(c, move)
    ensures SceneOk(Played(c, id, move, cfg), id, cfg)
  {
    hide Inv, SubOk, Do, Read, Taken;
    var log := Log(c.m.events, id);
    match move
    case Manage(at) =>
      DoKeepsInv(c.m, at.op, cfg, at.now);
      LogGrows(c.m, at.op, id, cfg, at.now);
      var n := Do(c.m, at.op, cfg, at.now);
      GrowOk(c.s, log, Log(n.events, id), cfg.limit);
      ReconnectOk(c.s, Log(n.events, id), cfg.limit);
    case Reconnect => ReconnectOk(c.s, log, cfg.limit);
    case Poll(now) => if !c.s.stopped { PolledOk(c, id, now, cfg); }
    case Cut(now, n) => if !c.s.stopped { CutPlayed(c, id, now, n, cfg); }
  }

  /** The deadline check of a poll leaves manager and subscriber well formed. */
  lemma CheckedScene(c: Scene, id: RunId, now: Time, cfg: Config)
    requires SceneOk(c, id, cfg)
    ensures var n := Act(c.m, id, Check, cfg, now);
            Inv(n, cfg) && SubOk(c.s, Log(n.events, id), cfg.limit) && (id in n.records <==> id in c.m.records)
  {
    hide SubOk, Step, RowOf, Store;
    var n := Act(c.m, id, Check, cfg, now);
    assert n == Do(c.m, On(id, Check), cfg, now);
    hide Inv;
    DoKeepsInv(c.m, On(id, Check), cfg, now);
    LogGrows(c.m, On(id, Check), id, cfg, now);
    GrowOk(c.s, Log(c.m.events, id), Log(n.events, id), cfg.limit);
  }

  lemma RetainedOk(m: Manager, id: RunId, cfg: Config)
    requires Inv(m, cfg) && id in m.records
    ensures RunOk(m.records[id], Log(m.events, id), cfg) && cfg.limit >= 1
  {}

  /** A poll of a retained run, made at any moment of any history, catches the subscriber up with the record. */
  lemma PolledOk(c: Scene, id: RunId, now: Time, cfg: Config)
    requires SceneOk(c, id, cfg) && !c.s.stopped
    ensures var d := Played(c, id, Poll(now), cfg);
            && SceneOk(d, id, cfg)
            && (id in c.m.records ==>
                  var r := d.m.records[id];
                  && id in d.m.records && d.s.cursor == r.nextNo - 1 && d.s.stopped == r.status.Terminal()
                  && (!r.status.Terminal() ==> d.s.view == ViewOf(r))
                  && (r.status.Terminal() && c.s.cursor < r.nextNo - 1 ==> LastSaysEnd(d.s, r)))
  {
    hide SubOk, Read, Taken, ViewOf, Inv, Act, RunOk, LastSaysEnd;
    CheckedScene(c, id, now, cfg);
    var n := Act(c.m, id, Check, cfg, now);
    if id in n.records {
      RetainedOk(n, id, cfg);
      PollOk(c.s, n.records[id], Log(n.events, id), cfg);
    } else {
      GoneOk(c.s, Log(n.events, id), cfg.limit);
    }
  }

  lemma CutPlayed(c: Scene, id: RunId, now: Time, k: nat, cfg: Config)
    requires SceneOk(c, id, cfg) && !c.s.stopped
    ensures SceneOk(Played(c, id, Cut(now, k), cfg), id, cfg)
  {
    hide SubOk, Read, Part, Reconnected, Inv, Act, RunOk;
    CheckedScene(c, id, now, cfg);
    var n := Act(c.m, id, Check, cfg, now);
    if id in n.records {
      RetainedOk(n, id, cfg);
      CutOk(c.s, n.records[id], Log(n.events, id), k, cfg);
    } else {
      ReconnectOk(c.s, Log(n.events, id), cfg.limit);
    }
  }

  lemma GoneOk(s: Sub, log: seq<Event>, limit: nat)
    requires SubOk(s, log, limit)
    ensures SubOk(s.(stopped := true), log, limit)
  {}

  /** A new connection starts behind the last event id the client has, with the view it had; nothing else touches the stream. */
  lemma ConnectionsRestart(c: Scene, id: RunId, move: Move, cfg: Config)
    requires move.Reconnect? || move.Manage?
    ensures var s := Played(c, id, move, cfg).s;
            if move.Reconnect? || move.at.op.Reload?
            then s.from == s.cursor == s.lastId == c.s.lastId && s.items == [] && !s.stopped && s.view == c.s.view
            else s == c.s
  {
    hide Do;
  }

  /** A history is played move by move. */
  lemma {:induction false} PlayInTurn(c: Scene, id: RunId, moves: seq<Move>, move: Move, cfg: Config)
    ensures Play(c, id, moves + [move], cfg) == Played(Play(c, id, moves, cfg), id, move, cfg)
    decreases |moves|
  {
    hide Played;
    if moves == [] {
      assert ([] + [move])[1..] == [];
    } else {
      PlayInTurn(Played(c, id, moves[0], cfg), id, moves[1..], move, cfg);
      assert (moves + [move])[1..] == moves[1..] + [move];
    }
  }

  /** Lossless resumption: over every interleaving the stream stays a gap-free reading of the log. */
  lemma {:induction false} PlayOk(c: Scene, id: RunId, moves: seq<Move>, cfg: Config)
    requires SceneOk(c, id, cfg) && LegalPlay(c, id, moves, cfg)
    ensures SceneOk(Play(c, id, moves, cfg), id, cfg)
    decreases |moves|
  {
    if moves != [] {
      PlayedOk(c, id, moves[0], cfg);
      PlayOk(Played(c, id, moves[0], cfg), id, moves[1..], cfg);
    }
  }

  /** Whenever a connected subscriber stands at the end of a live run's log, what it shows is the record. */
  lemma CaughtUp(c: Scene, id: RunId, cfg: Config)
    requires SceneOk(c, id, cfg) && id in c.m.records && !c.m.records[id].status.Terminal()
    requires !c.s.stopped && c.s.cursor == c.m.records[id].nextNo - 1
    ensures c.s.view == ViewOf(c.m.records[id])
  {
    var log := Log(c.m.events, id);
    assert RunOk(c.m.records[id], log, cfg);
    assert log[..|log|] == log;
  }

  /** From the first request on: a client that starts with nothing reads the log without a gap over every interleaving, and
      shows the record whenever it has reached the end of a live run. */
  lemma FreshReads(m: Manager, id: RunId, moves: seq<Move>, cfg: Config)
    requires Inv(m, cfg) && LegalPlay(Scene(m, FRESH), id, moves, cfg)
    ensures var d := Play(Scene(m, FRESH), id, moves, cfg); SceneOk(d, id, cfg) && ShowsRecord(d, id)
  {
    FreshOk(Log(m.events, id), cfg.limit);
    ReadsFrom(Scene(m, FRESH), id, moves, cfg);
  }

  /** A client that comes back with any number it has reached, and the view it had there, does the same. */
  lemma RejoinedReads(m: Manager, id: RunId, cursor: nat, moves: seq<Move>, cfg: Config)
    requires Inv(m, cfg) && cursor <= |Log(m.events, id)|
    requires LegalPlay(Scene(m, Rejoined(Log(m.events, id), cursor)), id, moves, cfg)
    ensures var d := Play(Scene(m, Rejoined(Log(m.events, id), cursor)), id, moves, cfg); SceneOk(d, id, cfg) && ShowsRecord(d, id)
  {
    JoinOk(Log(m.events, id), cursor, cfg.limit);
    ReadsFrom(Scene(m, Rejoined(Log(m.events, id), cursor)), id, moves, cfg);
  }

  ghost predicate ShowsRecord(c: Scene, id: RunId) {
    id in c.m.records && !c.m.records[id].status.Terminal() && !c.s.stopped && c.s.cursor == c.m.records[id].nextNo - 1
    ==> c.s.view == ViewOf(c.m.records[id])
  }

  lemma ReadsFrom(c: Scene, id: RunId, moves: seq<Move>, cfg: Config)
    requires SceneOk(c, id, cfg) && LegalPlay(c, id, moves, cfg)
    ensures SceneOk(Play(c, id, moves, cfg), id, cfg) && ShowsRecord(Play(c, id, moves, cfg), id)
  {
    PlayOk(c, id, moves, cfg);
    hide SceneOk, Play;
    var d := Play(c, id, moves, cfg);
    if id in d.m.records && !d.m.records[id].status.Terminal() && !d.s.stopped && d.s.cursor == d.m.records[id].nextNo - 1 {
      CaughtUp(d, id, cfg);
    }
  }
}
