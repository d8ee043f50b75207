/** Concurrent quote requests for one key share one fetch: any number of threads, stepping in any order. */
module Singleflight {
  import opened Basics

  datatype Key = Key(symbol: string, asset: string, force: bool)

  function KeyOf(symbol: string, asset: string, force: bool): Key { Key(Upper(symbol), asset, force) }

  /** Requests that differ in the case of the symbol only are for one key, a forced refresh and a plain one are not. */
  lemma SharedKey(a: string, x: string, f: bool, b: string, y: string, g: bool)
    ensures KeyOf(a, x, f) == KeyOf(b, y, g) <==> SameLetters(a, b) && x == y && f == g
  {
    UpperIff(a, b);
  }

  /** What a fetcher puts into its entry: a quote, an error, or, during a cooldown, neither. */
  datatype Published = Quote(text: string) | Error(code: string) | Neither

  const NO_FALLBACK := Error("provider_error: no fallback")

  /** How a fetch ends: a fresh quote, a provider error with or without a cached quote to fall back on, or a crash. */
  datatype Fetch = Fresh(text: string) | Stale(text: string) | NoFallback(code: string) | Crash
  {
    function ToPublish(): Option<Published> {
      match this
      case Fresh(q) => Some(Quote(q))
      case Stale(q) => Some(Quote(q))
      case NoFallback(_) => Some(NO_FALLBACK)
      case Crash => None
    }

    /** What the fetcher itself returns or raises. */
    function Own(): Reply {
      match this
      case Fresh(q) => Got(q)
      case Stale(q) => Got(q)
      case NoFallback(e) => Raised(e)
      case Crash => Raised("crash")
    }
  }

  /** How a fetcher's turn ends: during a cooldown it answers from the cache, otherwise it fetches. */
  datatype Ending = Cooled(text: string) | Fetched(fetch: Fetch)
  {
    function ToPublish(): Option<Published> { if Cooled? then Some(Neither) else fetch.ToPublish() }
    function Own(): Reply { if Cooled? then Got(text) else fetch.Own() }
  }

  datatype Reply = Got(text: string) | Raised(code: string) | AssertionFailed | TimedOut

  function Woken(p: Published): Reply {
    match p
    case Quote(q) => Got(q)
    case Error(e) => Raised(e)
    case Neither => AssertionFailed
  }

  /** One in-flight entry, its fetcher, what has been published in it, and, for the record, how its fetcher's turn ended. */
  datatype Entry = Entry(key: Key, fetcher: nat, published: Option<Published>, ended: Option<Ending>)

  datatype Pc =
    | Waiting(entry: nat)
    | Deciding(entry: nat)                                      // registered; about to look at the circuit
    | Fetching(entry: nat)
    | Publishing(entry: nat, payload: Published, reply: Reply)
    | Leaving(entry: nat, reply: Reply)                         // about to unregister
    | Returned(entry: nat, reply: Reply, waited: bool)
  {
    predicate Fetches() { Deciding? || Fetching? || Publishing? || Leaving? }
  }

  /** Entries are numbered in the order of their creation. */
  datatype State = State(entries: seq<Entry>, inflight: map<Key, nat>, threads: map<nat, Pc>)

  const QUIET := State([], map[], map[])

  datatype Step =
    | Arrive(t: nat, key: Key)             // `_register_inflight`
    | Cooldown(t: nat, text: string)       // the circuit is open
    | Go(t: nat)                           // the circuit is closed
    | Finish(t: nat, fetch: Fetch)
    | Publish(t: nat)                      // `_publish_inflight`
    | Unregister(t: nat)                   // `_unregister_inflight`
    | Wake(t: nat)
    | GiveUp(t: nat)                       // the waiter's timeout

  predicate Enabled(s: State, st: Step) {
    match st
    case Arrive(t, _) => t !in s.threads
    case Cooldown(t, _) => t in s.threads && s.threads[t].Deciding? && s.threads[t].entry < |s.entries|
    case Go(t) => t in s.threads && s.threads[t].Deciding?
    case Finish(t, _) => t in s.threads && s.threads[t].Fetching? && s.threads[t].entry < |s.entries|
    case Publish(t) => t in s.threads && s.threads[t].Publishing? && s.threads[t].entry < |s.entries|
    case Unregister(t) => t in s.threads && s.threads[t].Leaving? && s.threads[t].entry < |s.entries|
    case Wake(t) =>
      t in s.threads && s.threads[t].Waiting? && s.threads[t].entry < |s.entries| && s.entries[s.threads[t].entry].published.Some?
    case GiveUp(t) => t in s.threads && s.threads[t].Waiting?
  }

  function Set(s: State, t: nat, pc: Pc): State { s.(threads := s.threads[t := pc]) }

  /** The fetcher's turn is over: it goes on to publish, or leaves at once when the fetch has crashed. */
  function Ends(s: State, t: nat, ending: Ending): State
    requires t in s.threads && s.threads[t].entry < |s.entries|
  {
    var e := s.threads[t].entry;
    Set(s.(entries := s.entries[e := s.entries[e].(ended := Some(ending))]), t,
        if ending.ToPublish().Some? then Publishing(e, ending.ToPublish().value, ending.Own()) else Leaving(e, ending.Own()))
  }

  function Next(s: State, st: Step): State
    requires Enabled(s, st)
  {
    match st
    case Arrive(t, key) =>
      if key in s.inflight then Set(s, t, Waiting(s.inflight[key]))
      else
        var e := |s.entries|;
        State(s.entries + [Entry(key, t, None, None)], s.inflight[key := e], s.threads[t := Deciding(e)])
    case Cooldown(t, text) => Ends(s, t, Cooled(text))
    case Go(t) => Set(s, t, Fetching(s.threads[t].entry))
    case Finish(t, fetch) => Ends(s, t, Fetched(fetch))
    case Publish(t) =>
      var pc := s.threads[t];
      Set(s.(entries := s.entries[pc.entry := s.entries[pc.entry].(published := Some(pc.payload))]), t, Leaving(pc.entry, pc.reply))
    case Unregister(t) =>
      var pc := s.threads[t];
      var key := s.entries[pc.entry].key;
      Set(if key in s.inflight && s.inflight[key] == pc.entry then s.(inflight := s.inflight - {key}) else s,
          t, Returned(pc.entry, pc.reply, false))
    case Wake(t) =>
      var e := s.threads[t].entry; Set(s, t, Returned(e, Woken(s.entries[e].published.value), true))
    case GiveUp(t) => Set(s, t, Returned(s.threads[t].entry, TimedOut, true))
  }

  // ---- the invariant ----

  /** A thread that is fetching owns its entry, and the entry is the one registered under its key. */
  ghost predicate OwnerOk(s: State, t: nat)
    requires t in s.threads
  {
    var pc := s.threads[t];
    && pc.entry < |s.entries|
    && (pc.Fetches() ==>
          var e := s.entries[pc.entry];
          && e.fetcher == t && e.key in s.inflight && s.inflight[e.key] == pc.entry
          && (!pc.Leaving? ==> e.published.None?))
    && (pc.Returned? && pc.waited ==>
          pc.reply == TimedOut || (s.entries[pc.entry].published.Some? && pc.reply == Woken(s.entries[pc.entry].published.value)))
  }

  /** What a fetcher carries is what its turn ended with, and once it is past publishing so is what its entry holds. */
  ghost predicate TurnOk(s: State, t: nat)
    requires t in s.threads
  {
    var pc := s.threads[t];
    && pc.entry < |s.entries|
    && var e := s.entries[pc.entry];
    && (pc.Deciding? || pc.Fetching? ==> e.ended.None?)
    && (pc.Publishing? ==> e.ended.Some? && e.ended.value.ToPublish() == Some(pc.payload) && pc.reply == e.ended.value.Own())
    && (pc.Leaving? || (pc.Returned? && !pc.waited) ==>
          e.fetcher == t && e.ended.Some? && e.published == e.ended.value.ToPublish() && pc.reply == e.ended.value.Own())
  }

  /** Each thread fetches for at most one entry, and an entry holds nothing that its fetcher's turn did not end with. */
  ghost predicate EntryOk(s: State, e: nat)
    requires e < |s.entries|
  {
    var x := s.entries[e];
    && x.fetcher in s.threads && s.threads[x.fetcher].entry == e
    && (s.threads[x.fetcher].Fetches() || (s.threads[x.fetcher].Returned? && !s.threads[x.fetcher].waited))
    && (x.published.Some? ==> x.ended.Some? && x.published == x.ended.value.ToPublish())
  }

  /** A registered entry carries its key and has a fetcher at work. */
  ghost predicate KeyOk(s: State, key: Key)
    requires key in s.inflight
  {
    var e := s.inflight[key];
    && e < |s.entries| && s.entries[e].key == key && s.entries[e].fetcher in s.threads
    && s.threads[s.entries[e].fetcher].Fetches() && s.threads[s.entries[e].fetcher].entry == e
  }

  ghost predicate Ok(s: State) {
    && (forall t :: t in s.threads ==> OwnerOk(s, t) && TurnOk(s, t))
    && (forall key :: key in s.inflight ==> KeyOk(s, key))
    && (forall e :: 0 <= e < |s.entries| ==> EntryOk(s, e))
  }

  /** Exclusion: at every moment at most one thread fetches for a key. */
  lemma OneFetcher(s: State, t: nat, u: nat)
    requires Ok(s) && t in s.threads && u in s.threads && s.threads[t].Fetches() && s.threads[u].Fetches()
    ensures s.threads[t].entry < |s.entries| && s.threads[u].entry < |s.entries|
    ensures s.entries[s.threads[t].entry].key == s.entries[s.threads[u].entry].key ==> t == u
  {
    assert OwnerOk(s, t) && OwnerOk(s, u);
  }

  lemma NextOwners(s: State, st: Step, u: nat)
    requires Ok(s) && Enabled(s, st) && u in Next(s, st).threads
    ensures OwnerOk(Next(s, st), u)
  {
    if u in s.threads { assert OwnerOk(s, u); }
    if st.t in s.threads { assert OwnerOk(s, st.t); }
    if st.Arrive? && st.key in s.inflight { assert KeyOk(s, st.key); }
  }

  lemma NextTurns(s: State, st: Step, u: nat)
    requires Ok(s) && Enabled(s, st) && u in Next(s, st).threads
    ensures TurnOk(Next(s, st), u)
  {
    if u in s.threads { assert OwnerOk(s, u) && TurnOk(s, u); }
    if st.t in s.threads { assert OwnerOk(s, st.t) && TurnOk(s, st.t); }
    if st.Arrive? && st.key in s.inflight { assert KeyOk(s, st.key); }
  }

  lemma NextEntries(s: State, st: Step, e: nat)
    requires Ok(s) && Enabled(s, st) && e < |Next(s, st).entries|
    ensures EntryOk(Next(s, st), e)
  {
    if e < |s.entries| { assert EntryOk(s, e); }
    if st.t in s.threads { assert OwnerOk(s, st.t) && TurnOk(s, st.t); }
  }

  lemma NextKeys(s: State, st: Step, key: Key)
    requires Ok(s) && Enabled(s, st) && key in Next(s, st).inflight
    ensures KeyOk(Next(s, st), key)
  {
    if key in s.inflight { assert KeyOk(s, key); }
    if st.t in s.threads { assert OwnerOk(s, st.t); }
  }

  lemma NextOk(s: State, st: Step)
    requires Ok(s) && Enabled(s, st)
    ensures Ok(Next(s, st))
  {
    hide OwnerOk, TurnOk, KeyOk, EntryOk;
    forall u | u in Next(s, st).threads ensures OwnerOk(Next(s, st), u) && TurnOk(Next(s, st), u) {
      NextOwners(s, st, u);
      NextTurns(s, st, u);
    }
    forall e | 0 <= e < |Next(s, st).entries| ensures EntryOk(Next(s, st), e) { NextEntries(s, st, e); }
    forall key | key in Next(s, st).inflight ensures KeyOk(Next(s, st), key) { NextKeys(s, st, key); }
  }

  predicate Runs(s: State, sts: seq<Step>)
    decreases |sts|
  {
    sts != [] ==> Enabled(s, sts[0]) && Runs(Next(s, sts[0]), sts[1..])
  }

  function Final(s: State, sts: seq<Step>): State
    requires Runs(s, sts)
    decreases |sts|
  {
    if sts == [] then s else Final(Next(s, sts[0]), sts[1..])
  }

  lemma {:induction false} RunOk(s: State, sts: seq<Step>)
    requires Ok(s) && Runs(s, sts)
    ensures Ok(Final(s, sts))
    decreases |sts|
  {
    if sts != [] {
      NextOk(s, sts[0]);
      RunOk(Next(s, sts[0]), sts[1..]);
    }
  }

  // ---- what is published stays, and who removes what ----

  /** Entries are never removed or re-published, and only their own fetcher publishes in them. */
  lemma EntryStep(s: State, st: Step, e: nat)
    requires Ok(s) && Enabled(s, st) && e < |s.entries|
    ensures var n := Next(s, st);
            && e < |n.entries| && n.entries[e].key == s.entries[e].key && n.entries[e].fetcher == s.entries[e].fetcher
            && (s.entries[e].published.Some? ==> n.entries[e].published == s.entries[e].published)
            && (n.entries[e].published != s.entries[e].published ==> st == Publish(s.entries[e].fetcher))
  {
    if st.Publish? { assert OwnerOk(s, st.t); }
  }

  /** A finishing fetcher removes its own entry and no other; the test for that is never false. */
  lemma UnregisterRemovesOwn(s: State, t: nat)
    requires Ok(s) && Enabled(s, Unregister(t))
    ensures var key := s.entries[s.threads[t].entry].key;
            && key in s.inflight && s.inflight[key] == s.threads[t].entry
            && Next(s, Unregister(t)).inflight == s.inflight - {key}
  {
    assert OwnerOk(s, t);
  }

  lemma {:induction false} PublishedStays(s: State, sts: seq<Step>, e: nat)
    requires Ok(s) && Runs(s, sts) && e < |s.entries| && s.entries[e].published.Some?
    ensures e < |Final(s, sts).entries| && Final(s, sts).entries[e] == s.entries[e]
    decreases |sts|
  {
    if sts != [] {
      EntryStep(s, sts[0], e);
      NextOk(s, sts[0]);
      PublishedStays(Next(s, sts[0]), sts[1..], e);
    }
  }

  /** After the fetcher of an entry has left without publishing, nobody ever publishes in it. */
  lemma {:induction false} CrashIsSilent(s: State, sts: seq<Step>, e: nat)
    requires Ok(s) && Runs(s, sts) && e < |s.entries| && s.entries[e].published.None? && s.entries[e].fetcher in s.threads
    requires var pc := s.threads[s.entries[e].fetcher]; pc.entry == e && (pc.Leaving? || pc.Returned?)
    ensures e < |Final(s, sts).entries| && Final(s, sts).entries[e].published.None?
    decreases |sts|
  {
    if sts != [] {
      EntryStep(s, sts[0], e);
      NextOk(s, sts[0]);
      CrashIsSilent(Next(s, sts[0]), sts[1..], e);
    }
  }

  // ---- how the turns ended ----

  /** The record of how a turn ended agrees with the steps taken so far, whose threads have all arrived. */
  ghost predicate Told(s: State, past: seq<Step>) {
    && (forall k :: 0 <= k < |past| ==> past[k].t in s.threads)
    && (forall e, text :: 0 <= e < |s.entries| ==>
          (s.entries[e].ended == Some(Cooled(text)) <==> Cooldown(s.entries[e].fetcher, text) in past))
    && (forall e, fetch :: 0 <= e < |s.entries| ==>
          (s.entries[e].ended == Some(Fetched(fetch)) <==> Finish(s.entries[e].fetcher, fetch) in past))
  }

  lemma NextTold(s: State, past: seq<Step>, st: Step)
    requires Ok(s) && Told(s, past) && Enabled(s, st)
    ensures Told(Next(s, st), past + [st])
  {
    var n := Next(s, st);
    forall e | 0 <= e < |n.entries|
      ensures forall text :: n.entries[e].ended == Some(Cooled(text)) <==> Cooldown(n.entries[e].fetcher, text) in past + [st]
      ensures forall fetch :: n.entries[e].ended == Some(Fetched(fetch)) <==> Finish(n.entries[e].fetcher, fetch) in past + [st]
    {
      EndedStep(s, past, st, e);
    }
  }

  lemma EndedStep(s: State, past: seq<Step>, st: Step, e: nat)
    requires Ok(s) && Told(s, past) && Enabled(s, st) && e < |Next(s, st).entries|
    ensures var x := Next(s, st).entries[e];
            && (forall text :: x.ended == Some(Cooled(text)) <==> Cooldown(x.fetcher, text) in past + [st])
            && (forall fetch :: x.ended == Some(Fetched(fetch)) <==> Finish(x.fetcher, fetch) in past + [st])
  {
    if e < |s.entries| {
      assert EntryOk(s, e);
      if st.t in s.threads { assert OwnerOk(s, st.t) && TurnOk(s, st.t); }
    }
  }

  lemma {:induction false} RunTold(s: State, past: seq<Step>, sts: seq<Step>)
    requires Ok(s) && Told(s, past) && Runs(s, sts)
    ensures Told(Final(s, sts), past + sts)
    decreases |sts|
  {
    if sts == [] {
      assert past + [] == past;
    } else {
      NextOk(s, sts[0]);
      NextTold(s, past, sts[0]);
      RunTold(Next(s, sts[0]), past + [sts[0]], sts[1..]);
      assert past + [sts[0]] + sts[1..] == past + sts;
    }
  }

  /** The turn of an entry's fetcher ended in a cooldown, or with a fetch, exactly if that thread took that step. */
  lemma EndedIff(sts: seq<Step>, e: nat)
    requires Runs(QUIET, sts) && e < |Final(QUIET, sts).entries|
    ensures var x := Final(QUIET, sts).entries[e];
            && (forall text :: x.ended == Some(Cooled(text)) <==> Cooldown(x.fetcher, text) in sts)
            && (forall fetch :: x.ended == Some(Fetched(fetch)) <==> Finish(x.fetcher, fetch) in sts)
  {
    RunTold(QUIET, [], sts);
    assert [] + sts == sts;
  }

  /** What a waiter that wakes up gets is exactly what its fetcher's turn ended with, whatever happened in between: it fails
      an assertion exactly when its fetcher took the cooldown step, and is never woken by a fetcher that crashed. */
  lemma WaitersGetThePublished(sts: seq<Step>, t: nat)
    requires Runs(QUIET, sts)
    requires t in Final(QUIET, sts).threads && Final(QUIET, sts).threads[t].Returned? && Final(QUIET, sts).threads[t].waited
    ensures var s := Final(QUIET, sts);
            var pc := s.threads[t];
            pc.entry < |s.entries| &&
            var e := s.entries[pc.entry];
            && (pc.reply == TimedOut || (e.ended.Some? && e.ended.value.ToPublish().Some?
                                         && e.published == e.ended.value.ToPublish() && pc.reply == Woken(e.published.value)))
            && (pc.reply != TimedOut ==> (pc.reply == AssertionFailed <==> exists text :: Cooldown(e.fetcher, text) in sts))
            && (pc.reply != TimedOut ==> Finish(e.fetcher, Crash) !in sts)
  {
    RunOk(QUIET, sts);
    var s := Final(QUIET, sts);
    assert OwnerOk(s, t);
    var e := s.threads[t].entry;
    assert EntryOk(s, e);
    EndedIff(sts, e);
  }

  /** What a fetcher returns is what its own turn came to: the quote it fetched, the cached one it fell back on or answered with
      during a cooldown, the provider's error, or the crash. */
  lemma FetcherReturnsItsOwn(sts: seq<Step>, t: nat)
    requires Runs(QUIET, sts)
    requires t in Final(QUIET, sts).threads && Final(QUIET, sts).threads[t].Returned? && !Final(QUIET, sts).threads[t].waited
    ensures var s := Final(QUIET, sts);
            var own := s.threads[t].reply;
            s.threads[t].entry < |s.entries| && var published := s.entries[s.threads[t].entry].published;
            || (exists q :: Finish(t, Fresh(q)) in sts && own == Got(q) && published == Some(Quote(q)))
            || (exists q :: Finish(t, Stale(q)) in sts && own == Got(q) && published == Some(Quote(q)))
            || (exists e :: Finish(t, NoFallback(e)) in sts && own == Raised(e) && published == Some(Error("provider_error: no fallback")))
            || (exists q :: Cooldown(t, q) in sts && own == Got(q) && published == Some(Neither))
            || (Finish(t, Crash) in sts && own == Raised("crash") && published == None)
  {
    RunOk(QUIET, sts);
    var s := Final(QUIET, sts);
    assert TurnOk(s, t);
    EndedIff(sts, s.threads[t].entry);
    match s.entries[s.threads[t].entry].ended.value
    case Cooled(q) => assert Cooldown(t, q) in sts;
    case Fetched(Fresh(q)) => assert Finish(t, Fresh(q)) in sts;
    case Fetched(Stale(q)) => assert Finish(t, Stale(q)) in sts;
    case Fetched(NoFallback(e)) => assert Finish(t, NoFallback(e)) in sts;
    case Fetched(Crash) => assert Finish(t, Crash) in sts;
  }

  /** A waiter that was woken has what was published: the quote, or the published error, or a failed assertion. */
  lemma WaiterReads(sts: seq<Step>, u: nat)
    requires Runs(QUIET, sts)
    requires u in Final(QUIET, sts).threads && Final(QUIET, sts).threads[u].Returned? && Final(QUIET, sts).threads[u].waited
    ensures var s := Final(QUIET, sts);
            var reply := s.threads[u].reply;
            s.threads[u].entry < |s.entries| && var published := s.entries[s.threads[u].entry].published;
            || reply == TimedOut
            || (exists q :: published == Some(Quote(q)) && reply == Got(q))
            || (exists e :: published == Some(Error(e)) && reply == Raised(e))
            || (published == Some(Neither) && reply == AssertionFailed)
  {
    RunOk(QUIET, sts);
    var s := Final(QUIET, sts);
    assert OwnerOk(s, u);
    if s.threads[u].reply != TimedOut {
      match s.entries[s.threads[u].entry].published.value
      case Quote(q) =>
      case Error(e) =>
      case Neither =>
    }
  }

  /** The two ends of one fetch: a fetcher that has returned and a waiter on its entry that was woken have the same quote, the one
      that was fetched or fallen back on; or the one raises the provider's error and the other the fallback error; or, after a
      cooldown, the one has the cached quote and the other fails an assertion. */
  lemma FetcherAndWaitersAgree(sts: seq<Step>, t: nat, u: nat)
    requires Runs(QUIET, sts)
    requires t in Final(QUIET, sts).threads && Final(QUIET, sts).threads[t].Returned? && !Final(QUIET, sts).threads[t].waited
    requires u in Final(QUIET, sts).threads && Final(QUIET, sts).threads[u].Returned? && Final(QUIET, sts).threads[u].waited
    requires Final(QUIET, sts).threads[t].entry == Final(QUIET, sts).threads[u].entry
    requires Final(QUIET, sts).threads[u].reply != TimedOut
    ensures var own, woken := Final(QUIET, sts).threads[t].reply, Final(QUIET, sts).threads[u].reply;
            || (exists q :: (Finish(t, Fresh(q)) in sts || Finish(t, Stale(q)) in sts) && own == woken == Got(q))
            || (exists e :: Finish(t, NoFallback(e)) in sts && own == Raised(e) && woken == Raised("provider_error: no fallback"))
            || (exists q :: Cooldown(t, q) in sts && own == Got(q) && woken == AssertionFailed)
  {
    hide Runs, Final;
    FetcherReturnsItsOwn(sts, t);
    WaiterReads(sts, u);
  }

  // ---- it does happen ----

  /** The state `s` is reached by `sts`. */
  ghost predicate Leads(sts: seq<Step>, s: State) { Runs(QUIET, sts) && Final(QUIET, sts) == s }

  lemma {:induction false} RunSnoc(s: State, sts: seq<Step>, st: Step)
    requires Runs(s, sts) && Enabled(Final(s, sts), st)
    ensures Runs(s, sts + [st]) && Final(s, sts + [st]) == Next(Final(s, sts), st)
    decreases |sts|
  {
    if sts == [] {
      assert ([] + [st])[1..] == [];
    } else {
      RunSnoc(Next(s, sts[0]), sts[1..], st);
      assert (sts + [st])[1..] == sts[1..] + [st];
    }
  }

  lemma LeadsOn(sts: seq<Step>, s: State, st: Step, n: State)
    requires Leads(sts, s) && Enabled(s, st) && n == Next(s, st)
    ensures Leads(sts + [st], n)
  {
    RunSnoc(QUIET, sts, st);
  }

  /** Two requests for one quote: the first one fetches, the second waits, and both get the quote that was fetched once. */
  lemma SharedFetch(t: nat, u: nat, key: Key, q: string)
    requires t != u
    ensures exists sts, s :: Leads(sts, s) && |s.entries| == 1 && s.inflight == map[]
                             && s.threads == map[t := Returned(0, Got(q), false), u := Returned(0, Got(q), true)]
  {
    hide Leads, Enabled, Next;
    var x := Entry(key, t, None, None);
    var y := x.(ended := Some(Fetched(Fresh(q))));
    var z := y.(published := Some(Quote(q)));
    var s1 := State([x], map[key := 0], map[t := Deciding(0)]);
    var s2 := State([x], map[key := 0], map[t := Fetching(0)]);
    var s3 := State([x], map[key := 0], map[t := Fetching(0), u := Waiting(0)]);
    var s4 := State([y], map[key := 0], map[t := Publishing(0, Quote(q), Got(q)), u := Waiting(0)]);
    var s5 := State([z], map[key := 0], map[t := Leaving(0, Got(q)), u := Waiting(0)]);
    var s6 := State([z], map[], map[t := Returned(0, Got(q), false), u := Waiting(0)]);
    var s7 := State([z], map[], map[t := Returned(0, Got(q), false), u := Returned(0, Got(q), true)]);
    FetchSteps(t, u, key, q, x, y);
    ShareSteps(t, u, key, q, y, z);
    WakeStep(t, u, q, z);
    assert Leads([], QUIET) by { LeadsNowhere(); }
    LeadsOn([], QUIET, Arrive(t, key), s1);
    var a := [] + [Arrive(t, key)];
    LeadsOn(a, s1, Go(t), s2);
    LeadsOn(a + [Go(t)], s2, Arrive(u, key), s3);
    var b := a + [Go(t)] + [Arrive(u, key)];
    LeadsOn(b, s3, Finish(t, Fresh(q)), s4);
    LeadsOn(b + [Finish(t, Fresh(q))], s4, Publish(t), s5);
    var c := b + [Finish(t, Fresh(q))] + [Publish(t)];
    LeadsOn(c, s5, Unregister(t), s6);
    LeadsOn(c + [Unregister(t)], s6, Wake(u), s7);
  }

  lemma LeadsNowhere()
    ensures Leads([], QUIET)
  {}

  lemma FetchSteps(t: nat, u: nat, key: Key, q: string, x: Entry, y: Entry)
    requires t != u && x == Entry(key, t, None, None) && y == x.(ended := Some(Fetched(Fresh(q))))
    ensures var s1 := State([x], map[key := 0], map[t := Deciding(0)]);
            var s2 := State([x], map[key := 0], map[t := Fetching(0)]);
            var s3 := State([x], map[key := 0], map[t := Fetching(0), u := Waiting(0)]);
            && Enabled(QUIET, Arrive(t, key)) && Next(QUIET, Arrive(t, key)) == s1
            && Enabled(s1, Go(t)) && Next(s1, Go(t)) == s2
            && Enabled(s2, Arrive(u, key)) && Next(s2, Arrive(u, key)) == s3
            && var s4 := State([y], map[key := 0], map[t := Publishing(0, Quote(q), Got(q)), u := Waiting(0)]);
            Enabled(s3, Finish(t, Fresh(q))) && Next(s3, Finish(t, Fresh(q))) == s4
  {}

  lemma ShareSteps(t: nat, u: nat, key: Key, q: string, y: Entry, z: Entry)
    requires t != u && y.key == key && z == y.(published := Some(Quote(q)))
    ensures var s4 := State([y], map[key := 0], map[t := Publishing(0, Quote(q), Got(q)), u := Waiting(0)]);
            var s5 := State([z], map[key := 0], map[t := Leaving(0, Got(q)), u := Waiting(0)]);
            && Enabled(s4, Publish(t)) && Next(s4, Publish(t)) == s5
            && var s6 := State([z], map[], map[t := Returned(0, Got(q), false), u := Waiting(0)]);
            Enabled(s5, Unregister(t)) && Next(s5, Unregister(t)) == s6
  {}

  lemma WakeStep(t: nat, u: nat, q: string, z: Entry)
    requires t != u && z.published == Some(Quote(q))
    ensures var s6 := State([z], map[], map[t := Returned(0, Got(q), false), u := Waiting(0)]);
            Enabled(s6, Wake(u)) && Next(s6, Wake(u)) == State([z], map[], map[t := Returned(0, Got(q), false), u := Returned(0, Got(q), true)])
  {}

  // ---- in place ----

  class InflightEntry {
    var done: bool
    var published: Published

    constructor ()
      ensures !done
    {
      done, published := false, Neither;
    }
  }

  class Flights {
    var inflight: map<Key, InflightEntry>

    constructor ()
      ensures inflight == map[]
    {
      inflight := map[];
    }

    /** The caller fetches exactly when nobody else was registered under the key. */
    method RegisterInflight(key: Key) returns (entry: InflightEntry, isFetcher: bool)
      modifies this
      ensures isFetcher == (key !in old(inflight)) && key in inflight && inflight == old(inflight)[key := entry]
      ensures !isFetcher ==> entry == old(inflight)[key]
      ensures isFetcher ==> fresh(entry) && !entry.done
    {
      if key in inflight {
        entry, isFetcher := inflight[key], false;
        assert inflight == inflight[key := entry];
      } else {
        entry := new InflightEntry();
        inflight := inflight[key := entry];
        isFetcher := true;
      }
    }

    method PublishInflight(entry: InflightEntry, payload: Published)
      modifies entry
      ensures entry.done && entry.published == payload
    {
      entry.published := payload;
      entry.done := true;
    }

    /** Only the caller's own entry is removed. */
    method UnregisterInflight(key: Key, entry: InflightEntry)
      modifies this
      ensures inflight == if key in old(inflight) && old(inflight)[key] == entry then old(inflight) - {key} else old(inflight)
    {
      if key in inflight {
        if inflight[key] == entry { inflight := inflight - {key}; }
      }
    }

    /** What a waiter does once its wait is over. */
    method WaitInflight(entry: InflightEntry) returns (reply: Reply)
      ensures reply == if entry.done then Woken(entry.published) else TimedOut
    {
      if !entry.done { return TimedOut; }
      match entry.published
      case Error(e) => reply := Raised(e);
      case Quote(q) => reply := Got(q);
      case Neither => reply := AssertionFailed;
    }

    /** `get_quote` behind the cache check, as one caller goes through it: join the fetch of a registered entry, or register,
        answer from the cache during a cooldown or fetch, publish unless the fetch crashes, and unregister in any case. */
    method GetQuote(key: Key, cooldown: Option<string>, fetch: Fetch) returns (reply: Reply, entry: InflightEntry)
      modifies this
      ensures inflight == old(inflight)
      ensures key in old(inflight) ==>
                entry == old(inflight)[key] && reply == if entry.done then Woken(entry.published) else TimedOut
      ensures key !in old(inflight) ==>
                var ending := if cooldown.Some? then Cooled(cooldown.value) else Fetched(fetch);
                && reply == ending.Own() && fresh(entry) && entry.done == ending.ToPublish().Some?
                && (entry.done ==> Some(entry.published) == ending.ToPublish())
    {
      var isFetcher;
      entry, isFetcher := RegisterInflight(key);
      if !isFetcher {
        assert inflight == old(inflight);
        reply := WaitInflight(entry);
        return;
      }
      if cooldown.Some? {
        PublishInflight(entry, Neither);
        reply := Got(cooldown.value);
      } else {
        if fetch.ToPublish().Some? { PublishInflight(entry, fetch.ToPublish().value); }
        reply := fetch.Own();
      }
      UnregisterInflight(key, entry);
    }
  }
}
