/** The quote circuit breaker: a pruned list of failures and one deadline per key, against the full failure history. */
module CircuitBreaker {
  import opened Basics

  datatype Key = Key(symbol: string, asset: string)
  datatype Limits = Limits(threshold: nat, window: nat, cooldown: nat)

  const DEFAULT_LIMITS := Limits(3, 60, 300)

  function KeyOf(symbol: string, asset: string): Key { Key(Upper(symbol), asset) }

  // ---- what the code keeps ----

  datatype State = State(failures: map<Key, seq<int>>, until: map<Key, int>)

  const CLOSED := State(map[], map[])

  function Recent(s: State, k: Key): seq<int> { if k in s.failures then s.failures[k] else [] }

  function Pruned(recent: seq<int>, cutoff: int): seq<int> {
    if recent != [] && recent[0] < cutoff then Pruned(recent[1..], cutoff) else recent
  }

  function Failed(s: State, k: Key, now: int, l: Limits): State {
    var recent := Pruned(Recent(s, k) + [now], now - l.window);
    State(s.failures[k := recent], if |recent| >= l.threshold then s.until[k := now + l.cooldown] else s.until)
  }

  predicate IsOpen(s: State, k: Key, now: int) { k in s.until && now < s.until[k] }

  /** Looking at an elapsed circuit closes it and forgets its failures. */
  function Looked(s: State, k: Key, now: int): State {
    if k in s.until && now >= s.until[k] then State(s.failures - {k}, s.until - {k}) else s
  }

  predicate Matches(k: Key, symbol: Option<string>, asset: Option<string>) {
    (symbol.Some? ==> k.symbol == Upper(symbol.value)) && (asset.Some? ==> k.asset == asset.value)
  }

  /** `reset_circuit`: without arguments everything goes; otherwise only matching keys that have a deadline. */
  function Reset(s: State, symbol: Option<string>, asset: Option<string>): State {
    if symbol.None? && asset.None? then CLOSED
    else
      var keys := set k | k in s.until && Matches(k, symbol, asset);
      State(s.failures - keys, s.until - keys)
  }

  // ---- the full history ----

  /** All failures of a key since it was last seen closing, or reset, oldest first. */
  type History = seq<int>

  function CountIn(h: History, lo: int, hi: int): nat {
    if h == [] then 0 else CountIn(h[..|h| - 1], lo, hi) + if lo <= h[|h| - 1] <= hi then 1 else 0
  }

  /** The failure at `h[i]` had enough failures in the window that ends with it. */
  predicate Trip(h: History, i: int, l: Limits) { 0 <= i < |h| && CountIn(h, h[i] - l.window, h[i]) >= l.threshold }

  ghost predicate EverTripped(h: History, l: Limits) { exists i :: Trip(h, i, l) }

  ghost predicate OpenAt(h: History, now: int, l: Limits) { exists i :: Trip(h, i, l) && h[i] <= now < h[i] + l.cooldown }

  datatype Event = Failure(key: Key, now: int) | Look(key: Key, now: int) | Clear(symbol: Option<string>, asset: Option<string>)

  function Past(hs: map<Key, History>, k: Key): History { if k in hs then hs[k] else [] }

  ghost function Remember(hs: map<Key, History>, e: Event, l: Limits): map<Key, History> {
    match e
    case Failure(k, now) => hs[k := Past(hs, k) + [now]]
    case Look(k, now) => if EverTripped(Past(hs, k), l) && !OpenAt(Past(hs, k), now, l) then hs - {k} else hs
    case Clear(symbol, asset) =>
      if symbol.None? && asset.None? then map[]
      else hs - (set k | k in hs && Matches(k, symbol, asset) && EverTripped(hs[k], l))
  }

  function Step(s: State, e: Event, l: Limits): State {
    match e
    case Failure(k, now) => Failed(s, k, now, l)
    case Look(k, now) => Looked(s, k, now)
    case Clear(symbol, asset) => Reset(s, symbol, asset)
  }

  // ---- the simulation ----

  ghost predicate Sorted(h: History, clock: int) {
    (forall i, j :: 0 <= i < j < |h| ==> h[i] <= h[j]) && forall i :: 0 <= i < |h| ==> h[i] <= clock
  }

  /** The list that is kept is the part of the history inside the window of the last failure. */
  ghost predicate IsTail(recent: seq<int>, h: History, d: nat, l: Limits) {
    && d <= |h| && recent == h[d..] && (h != [] ==> d < |h|)
    && (forall i :: 0 <= i < d ==> h[i] < h[|h| - 1] - l.window)
    && (forall i :: d <= i < |h| ==> h[i] >= h[|h| - 1] - l.window)
  }

  ghost predicate DeadlineOk(until: Option<int>, h: History, l: Limits) {
    && (until.Some? <==> EverTripped(h, l))
    && (until.Some? ==> (exists i :: Trip(h, i, l) && h[i] + l.cooldown == until.value)
                        && forall i :: Trip(h, i, l) ==> h[i] + l.cooldown <= until.value)
  }

  function UntilOf(s: State, k: Key): Option<int> { if k in s.until then Some(s.until[k]) else None }

  ghost predicate KeyOk(recent: seq<int>, until: Option<int>, h: History, clock: int, l: Limits) {
    Sorted(h, clock) && (exists d :: IsTail(recent, h, d, l)) && DeadlineOk(until, h, l)
  }

  ghost predicate Simulates(s: State, hs: map<Key, History>, clock: int, l: Limits) {
    forall k :: KeyOk(Recent(s, k), UntilOf(s, k), Past(hs, k), clock, l)
  }

  lemma {:induction false} CountTail(h: History, d: nat, lo: int, hi: int)
    requires d <= |h| && (forall i :: 0 <= i < d ==> h[i] < lo) && (forall i :: d <= i < |h| ==> lo <= h[i] <= hi)
    ensures CountIn(h, lo, hi) == |h| - d
  {
    if h != [] {
      if d == |h| { CountTail(h[..|h| - 1], d - 1, lo, hi); } else { CountTail(h[..|h| - 1], d, lo, hi); }
    }
  }

  /** Pruning from the front is cutting at the first element inside the window. */
  lemma {:induction false} PrunedTail(h: History, d: nat, cutoff: int) returns (e: nat)
    requires d < |h| && h[|h| - 1] >= cutoff && Sorted(h, h[|h| - 1])
    ensures d <= e < |h| && Pruned(h[d..], cutoff) == h[e..]
    ensures (forall i :: d <= i < e ==> h[i] < cutoff) && forall i :: e <= i < |h| ==> h[i] >= cutoff
    decreases |h| - d
  {
    if h[d] < cutoff {
      assert h[d..][1..] == h[d + 1..];
      e := PrunedTail(h, d + 1, cutoff);
    } else {
      e := d;
    }
  }

  lemma CountSnoc(h: History, now: int, lo: int, hi: int)
    ensures CountIn(h + [now], lo, hi) == CountIn(h, lo, hi) + if lo <= now <= hi then 1 else 0
  {
    assert (h + [now])[..|h|] == h;
  }

  lemma CutTail(h: History, d: nat, e: nat, now: int, l: Limits)
    requires d <= e <= |h| && IsTail(h[d..], h, d, l) && Sorted(h, now)
    requires forall i :: d <= i < e ==> h[i] < now - l.window
    requires forall i :: e <= i < |h| ==> h[i] >= now - l.window
    ensures IsTail((h + [now])[e..], h + [now], e, l)
  {
    forall i | 0 <= i < e ensures h[i] < now - l.window {
      if i < d { assert h[i] < h[|h| - 1] - l.window; }
    }
  }

  /** A failure trips the circuit exactly when the pruned list is long enough. */
  lemma FailureTail(recent: seq<int>, h: History, d: nat, now: int, l: Limits) returns (e: nat)
    requires IsTail(recent, h, d, l) && Sorted(h, now)
    ensures var g, r := h + [now], Pruned(recent + [now], now - l.window);
            IsTail(r, g, e, l) && (Trip(g, |h|, l) <==> |r| >= l.threshold)
  {
    hide Pruned, CountIn;
    var g := h + [now];
    assert recent + [now] == g[d..];
    assert Sorted(g, now);
    e := PrunedTail(g, d, now - l.window);
    assert forall i :: d <= i < e ==> h[i] == g[i];
    assert forall i :: e <= i < |h| ==> h[i] == g[i];
    CutTail(h, d, e, now, l);
    hide IsTail;
    TailTrips(g, e, now, l);
  }

  lemma TailTrips(g: History, e: nat, now: int, l: Limits)
    requires e <= |g| && IsTail(g[e..], g, e, l) && g != [] && g[|g| - 1] == now && Sorted(g, now)
    ensures Trip(g, |g| - 1, l) <==> |g[e..]| >= l.threshold
  {
    CountTail(g, e, now - l.window, now);
  }

  /** An earlier failure trips in the longer history only if it did before, or stands at the very same time. */
  lemma TripSnoc(h: History, i: nat, now: int, l: Limits)
    requires i < |h| && Sorted(h, now)
    ensures Trip(h, i, l) ==> Trip(h + [now], i, l)
    ensures Trip(h + [now], i, l) ==> Trip(h, i, l) || (h[i] == now && Trip(h + [now], |h|, l))
  {
    CountSnoc(h, now, h[i] - l.window, h[i]);
  }

  lemma FailureDeadline(until: Option<int>, h: History, now: int, l: Limits, trips: bool)
    requires DeadlineOk(until, h, l) && Sorted(h, now) && trips == Trip(h + [now], |h|, l)
    ensures DeadlineOk(if trips then Some(now + l.cooldown) else until, h + [now], l)
  {
    hide CountIn;
    var g := h + [now];
    forall i | 0 <= i < |h|
      ensures Trip(h, i, l) ==> Trip(g, i, l)
      ensures Trip(g, i, l) ==> Trip(h, i, l) || (h[i] == now && trips)
    {
      TripSnoc(h, i, now, l);
    }
    if trips {
      assert Trip(g, |h|, l);
    } else {
      forall i | Trip(g, i, l) ensures Trip(h, i, l) {}
      if until.Some? {
        var i :| Trip(h, i, l) && h[i] + l.cooldown == until.value;
        assert Trip(g, i, l);
      }
    }
  }

  lemma FailureKey(recent: seq<int>, until: Option<int>, h: History, clock: int, now: int, l: Limits)
    requires KeyOk(recent, until, h, clock, l) && clock <= now
    ensures var r := Pruned(recent + [now], now - l.window);
            KeyOk(r, if |r| >= l.threshold then Some(now + l.cooldown) else until, h + [now], now, l)
  {
    hide DeadlineOk, Trip;
    var d :| IsTail(recent, h, d, l);
    var e := FailureTail(recent, h, d, now, l);
    FailureDeadline(until, h, now, l, Trip(h + [now], |h|, l));
  }

  lemma LaterKey(recent: seq<int>, until: Option<int>, h: History, clock: int, now: int, l: Limits)
    requires KeyOk(recent, until, h, clock, l) && clock <= now
    ensures KeyOk(recent, until, h, now, l)
  {}

  /** The deadline says whether some trip is still fresh. */
  lemma OpenIffTrip(recent: seq<int>, until: Option<int>, h: History, clock: int, now: int, l: Limits)
    requires KeyOk(recent, until, h, clock, l) && clock <= now
    ensures (until.Some? && now < until.value) <==> OpenAt(h, now, l)
    ensures until.Some? <==> EverTripped(h, l)
  {
    hide CountIn, IsTail;
    if until.Some? && now < until.value {
      var i :| Trip(h, i, l) && h[i] + l.cooldown == until.value;
      assert h[i] <= now < h[i] + l.cooldown;
    }
  }

  lemma EmptyKey(clock: int, l: Limits)
    ensures KeyOk([], None, [], clock, l)
  {
    assert IsTail([], [], 0, l);
  }

  predicate TimeOk(e: Event, clock: int) { e.Clear? || clock <= e.now }

  function ClockAfter(e: Event, clock: int): int { if e.Clear? then clock else e.now }

  lemma StepSimulates(s: State, hs: map<Key, History>, e: Event, clock: int, l: Limits)
    requires Simulates(s, hs, clock, l) && TimeOk(e, clock)
    ensures Simulates(Step(s, e, l), Remember(hs, e, l), ClockAfter(e, clock), l)
  {
    hide KeyOk, OpenAt, EverTripped, Pruned, Matches;
    var t, gs, now := Step(s, e, l), Remember(hs, e, l), ClockAfter(e, clock);
    forall k ensures KeyOk(Recent(t, k), UntilOf(t, k), Past(gs, k), now, l) {
      assert KeyOk(Recent(s, k), UntilOf(s, k), Past(hs, k), clock, l);
      EmptyKey(now, l);
      LaterKey(Recent(s, k), UntilOf(s, k), Past(hs, k), clock, now, l);
      OpenIffTrip(Recent(s, k), UntilOf(s, k), Past(hs, k), clock, now, l);
      NeverTripped(l);
      if e.Failure? && e.key == k { FailureKey(Recent(s, k), UntilOf(s, k), Past(hs, k), clock, now, l); }
    }
  }

  lemma NeverTripped(l: Limits)
    ensures !EverTripped([], l)
  {}

  function Run(s: State, es: seq<Event>, l: Limits): State {
    if es == [] then s else Step(Run(s, es[..|es| - 1], l), es[|es| - 1], l)
  }

  ghost function RememberAll(hs: map<Key, History>, es: seq<Event>, l: Limits): map<Key, History> {
    if es == [] then hs else Remember(RememberAll(hs, es[..|es| - 1], l), es[|es| - 1], l)
  }

  function ClockOf(es: seq<Event>, start: int): int {
    if es == [] then start else ClockAfter(es[|es| - 1], ClockOf(es[..|es| - 1], start))
  }

  predicate Monotone(es: seq<Event>, start: int) {
    es != [] ==> Monotone(es[..|es| - 1], start) && TimeOk(es[|es| - 1], ClockOf(es[..|es| - 1], start))
  }

  lemma {:induction false} RunSimulates(es: seq<Event>, start: int, l: Limits)
    requires Monotone(es, start)
    ensures Simulates(Run(CLOSED, es, l), RememberAll(map[], es, l), ClockOf(es, start), l)
  {
    if es == [] {
      EmptyKey(start, l);
    } else {
      var n := |es| - 1;
      RunSimulates(es[..n], start, l);
      StepSimulates(Run(CLOSED, es[..n], l), RememberAll(map[], es[..n], l), es[n], ClockOf(es[..n], start), l);
    }
  }

  /** Over every history: the circuit of a key reads open at `now` exactly when, since it was last seen closing or reset,
      some failure less than a cooldown old ended a window with enough failures. */
  lemma OpenIffHistory(es: seq<Event>, start: int, k: Key, now: int, l: Limits)
    requires Monotone(es, start) && ClockOf(es, start) <= now
    ensures IsOpen(Run(CLOSED, es, l), k, now) <==> OpenAt(Past(RememberAll(map[], es, l), k), now, l)
  {
    hide KeyOk, OpenAt;
    RunSimulates(es, start, l);
    var s, h := Run(CLOSED, es, l), Past(RememberAll(map[], es, l), k);
    assert KeyOk(Recent(s, k), UntilOf(s, k), h, ClockOf(es, start), l);
    OpenIffTrip(Recent(s, k), UntilOf(s, k), h, ClockOf(es, start), now, l);
  }

  /** A reset for one symbol forgets its failures exactly when they have tripped the circuit. */
  lemma ResetForgetsIffTripped(s: State, hs: map<Key, History>, clock: int, k: Key, l: Limits)
    requires Simulates(s, hs, clock, l) && Upper(k.symbol) == k.symbol
    ensures Recent(Reset(s, Some(k.symbol), None), k) == (if EverTripped(Past(hs, k), l) then [] else Recent(s, k))
  {
    hide KeyOk, EverTripped;
    assert KeyOk(Recent(s, k), UntilOf(s, k), Past(hs, k), clock, l);
    OpenIffTrip(Recent(s, k), UntilOf(s, k), Past(hs, k), clock, clock, l);
  }

  // ---- keys and limits ----

  /** Two spellings of a symbol that differ in case share one circuit, and no others do. */
  lemma SharedCircuit(a: string, x: string, b: string, y: string)
    ensures KeyOf(a, x) == KeyOf(b, y) <==> SameLetters(a, b) && x == y
  {
    UpperIff(a, b);
  }

  /** Which circuits a reset closes: all of them, or those with a deadline whose symbol and asset are the given ones, as far as
      they are given. The other circuits stay as they were. */
  lemma ResetCloses(s: State, symbol: Option<string>, asset: Option<string>, a: string, x: string)
    ensures var k, t := KeyOf(a, x), Reset(s, symbol, asset);
            var closes := (symbol.None? && asset.None?)
                          || (k in s.until && (symbol.Some? ==> SameLetters(a, symbol.value)) && (asset.Some? ==> x == asset.value));
            && (closes ==> k !in t.until && k !in t.failures)
            && (!closes ==> UntilOf(t, k) == UntilOf(s, k) && (k in t.failures <==> k in s.failures) && Recent(t, k) == Recent(s, k))
  {
    if symbol.Some? { UpperIff(a, symbol.value); }
  }

  /** By default three failures within a minute open a circuit for five minutes from the third; when they lie further apart, or
      are only two, it stays closed. */
  lemma DefaultsTrip(k: Key, a: int, b: int, c: int, now: int)
    requires a <= b <= c <= now
    ensures var es := [Failure(k, a), Failure(k, b), Failure(k, c)];
            IsOpen(Run(CLOSED, es, DEFAULT_LIMITS), k, now) <==> c - a <= 60 && now < c + 300
    ensures !IsOpen(Run(CLOSED, [Failure(k, a), Failure(k, b)], DEFAULT_LIMITS), k, now)
  {
    var l := DEFAULT_LIMITS;
    var one, two, three := [Failure(k, a)], [Failure(k, a), Failure(k, b)], [Failure(k, a), Failure(k, b), Failure(k, c)];
    assert one[..0] == [] && two[..1] == one && three[..2] == two;
    var s1 := Failed(CLOSED, k, a, l);
    assert Pruned([a], a - 60) == [a] && Recent(s1, k) == [a];
    var s2 := Failed(s1, k, b, l);
    assert [a] + [b] == [a, b] && [a, b][1..] == [b];
    assert Pruned([b], b - 60) == [b];
    assert Recent(s2, k) == if a < b - 60 then [b] else [a, b];
    assert [b] + [c] == [b, c] && [a, b] + [c] == [a, b, c] && [a, b, c][1..] == [b, c] && [b, c][1..] == [c];
    assert Pruned([c], c - 60) == [c];
    assert Pruned([b, c], c - 60) == if b < c - 60 then [c] else [b, c];
    assert Pruned([a, b, c], c - 60) == if a < c - 60 then Pruned([b, c], c - 60) else [a, b, c];
    assert Run(CLOSED, one, l) == s1 && Run(CLOSED, two, l) == s2 && Run(CLOSED, three, l) == Failed(s2, k, c, l);
  }

  // ---- in place ----

  class Breaker {
    const limits: Limits
    var failures: map<Key, seq<int>>
    var until: map<Key, int>

    constructor (limits: Limits)
      ensures this.limits == limits && Value() == CLOSED
    {
      this.limits, failures, until := limits, map[], map[];
    }

    function Value(): State
      reads this
    {
      State(failures, until)
    }

    method RecordFailure(symbol: string, asset: string, now: int)
      modifies this
      ensures Value() == Failed(old(Value()), KeyOf(symbol, asset), now, limits)
    {
      var key := KeyOf(symbol, asset);
      var recent := (if key in failures then failures[key] else []) + [now];
      var cutoff := now - limits.window;
      ghost var all := recent;
      while recent != [] && recent[0] < cutoff
        invariant Pruned(recent, cutoff) == Pruned(all, cutoff)
        decreases |recent|
      {
        recent := recent[1..];
      }
      failures := failures[key := recent];
      if |recent| >= limits.threshold { until := until[key := now + limits.cooldown]; }
    }

    /** Whether the circuit is open, and for how long; an elapsed one is closed on the way. */
    method CircuitStatus(symbol: string, asset: string, now: int) returns (open: bool, remaining: int)
      modifies this
      ensures Value() == Looked(old(Value()), KeyOf(symbol, asset), now)
      ensures open == IsOpen(old(Value()), KeyOf(symbol, asset), now)
      ensures remaining == if open then old(until)[KeyOf(symbol, asset)] - now else 0
    {
      var key := KeyOf(symbol, asset);
      if key !in until { return false, 0; }
      if now >= until[key] {
        until := until - {key};
        failures := failures - {key};
        return false, 0;
      }
      return true, until[key] - now;
    }

    method ResetCircuit(symbol: Option<string>, asset: Option<string>) returns (n: nat)
      modifies this
      ensures Value() == Reset(old(Value()), symbol, asset)
      ensures n == if symbol.None? && asset.None? then |old(until)| + |old(failures)|
                   else |set k | k in old(until) && Matches(k, symbol, asset)|
    {
      if symbol.None? && asset.None? {
        n := |until| + |failures|;
        failures, until := map[], map[];
        return;
      }
      var keys := set k | k in until && Matches(k, symbol, asset);
      n := |keys|;
      var todo := keys;
      while todo != {}
        invariant todo <= keys && failures == old(failures) - (keys - todo) && until == old(until) - (keys - todo)
      {
        var k :| k in todo;
        failures, until, todo := failures - {k}, until - {k}, todo - {k};
      }
      assert keys - todo == keys;
    }
  }
}
