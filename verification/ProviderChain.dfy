/** The provider fallback chain: nested loops over providers and attempts, against a declarative reading of the chain. */
module ProviderChain {
  import opened Basics

  datatype Code = NotConfigured | RateLimited | TimedOut | NoData | InvalidSymbol | ProviderError
  {
    /** The codes that let the chain fall through. */
    predicate Transient() { !InvalidSymbol? }
  }

  datatype Error = Error(code: Code, message: string)

  /** What one submitted call does. */
  datatype Attempt<T> = Good(value: T) | Slow | Refused(error: Error) | Crashed(message: string)

  /** What the router finds under a name. `world` gives the outcome of every further attempt. */
  datatype Provider = Missing | SupportsRaises(message: string) | Unsupported | NoMethod | Ready

  datatype Reply<T> = Answer(value: T) | Raise(error: Error)

  datatype Health = Success(name: string) | Failure(name: string, code: Code)

  type World<T> = (nat, nat) -> Attempt<T>

  function Attempts(retries: int): nat { if retries > 0 then retries + 1 else 1 }

  function ErrorOf<T>(a: Attempt<T>): Error
    requires !a.Good?
  {
    match a
    case Slow => Error(TimedOut, "provider request timed out")
    case Refused(e) => e
    case Crashed(m) => Error(ProviderError, m)
  }

  /** Whether a failed attempt may be followed by another one. */
  predicate Retried<T>(a: Attempt<T>) { a.Slow? || (a.Refused? && a.error.code.Transient()) }

  // ---- one provider ----

  /** The attempt that decides: the first that succeeds, must not be retried, or is the last allowed. */
  function Deciding<T>(world: World<T>, i: nat, from: nat, retries: int): (k: nat)
    requires from < Attempts(retries)
    ensures from <= k < Attempts(retries)
    ensures forall a :: from <= a < k ==> Retried(world(i, a))
    ensures !Retried(world(i, k)) || k == Attempts(retries) - 1
    decreases Attempts(retries) - from
  {
    if Retried(world(i, from)) && from + 1 < Attempts(retries) then Deciding(world, i, from + 1, retries) else from
  }

  function Record<T>(name: string, a: Attempt<T>): Health {
    if a.Good? then Success(name) else Failure(name, ErrorOf(a).code)
  }

  function Records<T>(name: string, world: World<T>, i: nat, from: nat, to: nat): seq<Health>
    requires from <= to
  {
    seq(to - from, k requires 0 <= k < to - from => Record(name, world(i, from + k)))
  }

  datatype Turn<T> = Turn(reply: Reply<T>, health: seq<Health>)

  /** What one provider contributes: its reply, and its health records. */
  function TurnOf<T>(name: string, p: Provider, world: World<T>, i: nat, retries: int): Turn<T> {
    match p
    case Missing => Turn(Raise(Error(NotConfigured, "unavailable")), [Failure(name, NotConfigured)])
    case Unsupported => Turn(Raise(Error(NotConfigured, "unsupported")), [Failure(name, NotConfigured)])
    case NoMethod => Turn(Raise(Error(NotConfigured, "unavailable")), [Failure(name, NotConfigured)])
    case SupportsRaises(m) => Turn(Raise(Error(ProviderError, m)), [])
    case Ready =>
      var k := Deciding(world, i, 0, retries);
      Turn(if world(i, k).Good? then Answer(world(i, k).value) else Raise(ErrorOf(world(i, k))), Records(name, world, i, 0, k + 1))
  }

  /** The chain goes on past this turn. */
  predicate FallsThrough<T>(t: Turn<T>) { t.reply.Raise? && t.reply.error.code.Transient() }

  // ---- the chain, read declaratively ----

  datatype Chain = Chain(names: seq<string>, providers: seq<Provider>, retries: int)
  {
    ghost predicate Valid() { |providers| == |names| }
  }

  function TurnAt<T>(c: Chain, world: World<T>, i: nat): Turn<T>
    requires c.Valid() && i < |c.names|
  {
    TurnOf(c.names[i], c.providers[i], world, i, c.retries)
  }

  /** The position of the first provider whose turn ends the chain, or the number of providers. */
  function Stop<T>(c: Chain, world: World<T>, from: nat): (k: nat)
    requires c.Valid() && from <= |c.names|
    ensures from <= k <= |c.names|
    ensures forall i :: from <= i < k ==> FallsThrough(TurnAt(c, world, i))
    ensures k < |c.names| ==> !FallsThrough(TurnAt(c, world, k))
    decreases |c.names| - from
  {
    if from == |c.names| || !FallsThrough(TurnAt(c, world, from)) then from else Stop(c, world, from + 1)
  }

  /** The whole call: the reply of the turn that ends the chain, or the error of the last turn. */
  function ReplyOf<T>(c: Chain, world: World<T>): Reply<T>
    requires c.Valid()
  {
    var k := Stop(c, world, 0);
    if k < |c.names| then TurnAt(c, world, k).reply
    else if k > 0 then TurnAt(c, world, k - 1).reply
    else Raise(Error(NoData, "no provider available"))
  }

  function HealthOf<T>(c: Chain, world: World<T>, n: nat): seq<Health>
    requires c.Valid() && n <= |c.names|
  {
    if n == 0 then [] else HealthOf(c, world, n - 1) + TurnAt(c, world, n - 1).health
  }

  function Asked<T>(c: Chain, world: World<T>): nat
    requires c.Valid()
  {
    var k := Stop(c, world, 0); if k < |c.names| then k + 1 else k
  }

  // ---- the loops ----

  /** The attempt loop of one ready provider. */
  method TryProvider<T>(name: string, world: World<T>, i: nat, retries: int) returns (reply: Reply<T>, health: seq<Health>)
    ensures Turn(reply, health) == TurnOf(name, Ready, world, i, retries)
  {
    health := [];
    var last := if retries > 0 then retries else 0;
    var attempt := 0;
    while attempt <= last
      invariant 0 <= attempt <= last && last + 1 == Attempts(retries)
      invariant health == Records(name, world, i, 0, attempt)
      invariant Deciding(world, i, 0, retries) == Deciding(world, i, attempt, retries)
      decreases last - attempt
    {
      var a := world(i, attempt);
      health := health + [Record(name, a)];
      match a {
        case Good(value) => return Answer(value), health;
        case Slow => if !(attempt < retries) { return Raise(ErrorOf(a)), health; }
        case Refused(e) => if !(attempt < retries && e.code.Transient()) { return Raise(e), health; }
        case Crashed(m) => return Raise(Error(ProviderError, m)), health;
      }
      attempt := attempt + 1;
    }
  }

  /** `_call`: every provider in turn until one answers or fails for good. */
  method Call<T>(c: Chain, world: World<T>) returns (reply: Reply<T>, health: seq<Health>)
    requires c.Valid()
    ensures reply == ReplyOf(c, world) && health == HealthOf(c, world, Asked(c, world))
  {
    var last: Option<Error> := None;
    health := [];
    for i := 0 to |c.names|
      invariant Stop(c, world, 0) == Stop(c, world, i) && health == HealthOf(c, world, i)
      invariant last == if i == 0 then None else Some(TurnAt(c, world, i - 1).reply.error)
    {
      var name := c.names[i];
      match c.providers[i]
      case Missing =>
        last := Some(Error(NotConfigured, "unavailable"));
        health := health + [Failure(name, NotConfigured)];
      case Unsupported =>
        last := Some(Error(NotConfigured, "unsupported"));
        health := health + [Failure(name, NotConfigured)];
      case NoMethod =>
        last := Some(Error(NotConfigured, "unavailable"));
        health := health + [Failure(name, NotConfigured)];
      case SupportsRaises(m) => last := Some(Error(ProviderError, m));
      case Ready =>
        var r, h := TryProvider(name, world, i, c.retries);
        health := health + h;
        if r.Answer? { return r, health; }
        if !r.error.code.Transient() { return r, health; }
        last := Some(r.error);
    }
    reply := Raise(if last.Some? then last.value else Error(NoData, "no provider available"));
  }

  // ---- what a caller gets ----

  /** An answer comes from the first provider that answers, and everything before it failed transiently. */
  lemma AnswerIsFirst<T>(c: Chain, world: World<T>, i: nat)
    requires c.Valid() && i < |c.names|
    requires TurnAt(c, world, i).reply.Answer? && forall j :: 0 <= j < i ==> FallsThrough(TurnAt(c, world, j))
    ensures ReplyOf(c, world) == TurnAt(c, world, i).reply && Asked(c, world) == i + 1
  {
    assert !FallsThrough(TurnAt(c, world, i));
  }

  /** There is an answer exactly when some provider answers after transient failures only. */
  lemma AnswersIff<T>(c: Chain, world: World<T>)
    requires c.Valid()
    ensures ReplyOf(c, world).Answer? <==>
            exists i :: 0 <= i < |c.names| && TurnAt(c, world, i).reply.Answer?
                        && forall j :: 0 <= j < i ==> FallsThrough(TurnAt(c, world, j))
  {
    var k := Stop(c, world, 0);
    if ReplyOf(c, world).Answer? {
      assert k < |c.names| && TurnAt(c, world, k).reply.Answer?;
    } else if i :| 0 <= i < |c.names| && TurnAt(c, world, i).reply.Answer?
                   && forall j :: 0 <= j < i ==> FallsThrough(TurnAt(c, world, j)) {
      AnswerIsFirst(c, world, i);
    }
  }

  /** Without an answer the caller gets the first error that is not transient, or the last one of all. */
  lemma ErrorIs<T>(c: Chain, world: World<T>)
    requires c.Valid() && ReplyOf(c, world).Raise? && c.names != []
    ensures exists i :: 0 <= i < |c.names| && ReplyOf(c, world) == TurnAt(c, world, i).reply
              && (forall j :: 0 <= j < i ==> FallsThrough(TurnAt(c, world, j)))
              && (FallsThrough(TurnAt(c, world, i)) ==> i == |c.names| - 1)
  {
    var k := Stop(c, world, 0);
    var i := if k < |c.names| then k else k - 1;
    assert ReplyOf(c, world) == TurnAt(c, world, i).reply;
  }

  /** Health: at most `retries + 1` records a provider, one for every submission or skip, the last one telling the turn's
      outcome; a provider whose `supports` raises leaves none. */
  lemma TurnHealth<T>(name: string, p: Provider, world: World<T>, i: nat, retries: int)
    ensures var t := TurnOf(name, p, world, i, retries);
            && |t.health| <= Attempts(retries)
            && (t.health == [] <==> p.SupportsRaises?)
            && (t.health != [] ==> t.health[|t.health| - 1] == (if t.reply.Answer? then Success(name) else Failure(name, t.reply.error.code)))
            && (p.Ready? ==> |t.health| == Deciding(world, i, 0, retries) + 1)
            && (forall k :: 0 <= k < |t.health| - 1 ==> t.health[k].Failure? && t.health[k].code.Transient())
  {
    if p.Ready? {
      var k := Deciding(world, i, 0, retries);
      assert forall a :: 0 <= a < k ==> Retried(world(i, a));
    }
  }

  /** So a whole call makes at most `retries + 1` records for each provider it asks. */
  lemma {:induction false} HealthBounded<T>(c: Chain, world: World<T>, n: nat)
    requires c.Valid() && n <= |c.names|
    ensures |HealthOf(c, world, n)| <= n * Attempts(c.retries)
  {
    if n > 0 {
      HealthBounded(c, world, n - 1);
      TurnHealth(c.names[n - 1], c.providers[n - 1], world, n - 1, c.retries);
      assert n * Attempts(c.retries) == (n - 1) * Attempts(c.retries) + Attempts(c.retries);
    }
  }

  // ---- the same, code by code ----

  /** An attempt after which the provider is asked again, as long as there are attempts left. */
  predicate AskedAgain<T>(a: Attempt<T>) {
    || a.Slow?
    || (a.Refused? && (a.error.code == NotConfigured || a.error.code == RateLimited || a.error.code == TimedOut
                       || a.error.code == ProviderError || a.error.code == NoData))
  }

  /** A ready provider gets as far as attempt `k`: all before it timed out or were refused with a code that passes. */
  ghost predicate Reaches<T>(c: Chain, world: World<T>, i: nat, k: nat)
    requires c.Valid() && i < |c.names|
  {
    && c.providers[i].Ready? && k <= (if c.retries > 0 then c.retries else 0)
    && forall a :: 0 <= a < k ==> AskedAgain(world(i, a))
  }

  ghost predicate Answers<T>(c: Chain, world: World<T>, i: nat, k: nat)
    requires c.Valid() && i < |c.names|
  {
    Reaches(c, world, i, k) && world(i, k).Good?
  }

  /** The provider does not know the symbol. */
  ghost predicate Rejects<T>(c: Chain, world: World<T>, i: nat, k: nat)
    requires c.Valid() && i < |c.names|
  {
    Reaches(c, world, i, k) && world(i, k).Refused? && world(i, k).error.code == InvalidSymbol
  }

  /** The provider neither answers nor rejects the symbol. */
  ghost predicate Passes<T>(c: Chain, world: World<T>, i: nat)
    requires c.Valid() && i < |c.names|
  {
    forall k: nat :: !Answers(c, world, i, k) && !Rejects(c, world, i, k)
  }

  lemma AskedAgainIff<T>(a: Attempt<T>)
    ensures AskedAgain(a) <==> Retried(a)
  {}

  /** A turn, code by code: an answer, a rejection, or neither. */
  lemma TurnIs<T>(c: Chain, world: World<T>, i: nat)
    requires c.Valid() && i < |c.names|
    ensures var t := TurnAt(c, world, i);
            && (forall k: nat :: Answers(c, world, i, k) ==> world(i, k).Good? && t.reply == Answer(world(i, k).value))
            && (forall k: nat :: Rejects(c, world, i, k) ==>
                                   world(i, k).Refused? && world(i, k).error.code == InvalidSymbol && t.reply == Raise(world(i, k).error))
            && (t.reply.Answer? ==> exists k: nat :: Answers(c, world, i, k))
            && (t.reply.Raise? && t.reply.error.code == InvalidSymbol ==> exists k: nat :: Rejects(c, world, i, k))
            && (FallsThrough(t) <==> Passes(c, world, i))
  {
    if c.providers[i].Ready? {
      var d := Deciding(world, i, 0, c.retries);
      forall a: nat ensures AskedAgain(world(i, a)) <==> Retried(world(i, a)) { AskedAgainIff(world(i, a)); }
      assert Reaches(c, world, i, d);
      forall k: nat | Reaches(c, world, i, k) && !AskedAgain(world(i, k)) ensures k == d {
        assert k < d ==> Retried(world(i, k));
      }
      if world(i, d).Good? { assert Answers(c, world, i, d); }
      if world(i, d).Refused? && world(i, d).error.code == InvalidSymbol { assert Rejects(c, world, i, d); }
    }
  }

  /** The call answers with `v` exactly if some ready provider has an attempt that is good with `v`, all its earlier attempts
      having timed out or been refused with NOT_CONFIGURED, RATE_LIMITED, TIMEOUT, PROVIDER_ERROR or NO_DATA, and no provider
      before it answers or rejects the symbol. */
  lemma AnswerCodes<T>(c: Chain, world: World<T>, v: T)
    requires c.Valid()
    ensures ReplyOf(c, world) == Answer(v) <==>
            exists i: nat, k: nat :: i < |c.names| && Answers(c, world, i, k) && world(i, k) == Good(v)
                                     && forall j :: 0 <= j < i ==> Passes(c, world, j)
  {
    hide Answers, Rejects, Passes, TurnOf;
    forall i: nat | i < |c.names|
      ensures FallsThrough(TurnAt(c, world, i)) <==> Passes(c, world, i)
      ensures forall k: nat :: Answers(c, world, i, k) ==> world(i, k).Good? && TurnAt(c, world, i).reply == Answer(world(i, k).value)
      ensures TurnAt(c, world, i).reply.Answer? ==> exists k: nat :: Answers(c, world, i, k)
    {
      TurnIs(c, world, i);
    }
    var s := Stop(c, world, 0);
    if ReplyOf(c, world) == Answer(v) {
      assert s < |c.names| && TurnAt(c, world, s).reply == Answer(v);
      var k: nat :| Answers(c, world, s, k);
    } else if i: nat, k: nat :| i < |c.names| && Answers(c, world, i, k) && world(i, k) == Good(v)
                               && forall j :: 0 <= j < i ==> Passes(c, world, j) {
      AnswerIsFirst(c, world, i);
    }
  }

  /** The chain breaks off with an error exactly for INVALID_SYMBOL; every other error is raised after all providers were asked. */
  lemma BreaksOffIff<T>(c: Chain, world: World<T>)
    requires c.Valid() && ReplyOf(c, world).Raise?
    ensures ReplyOf(c, world).error.code == InvalidSymbol <==>
            exists i: nat, k: nat :: i < |c.names| && Rejects(c, world, i, k) && forall j :: 0 <= j < i ==> Passes(c, world, j)
    ensures ReplyOf(c, world).error.code != InvalidSymbol ==>
              Asked(c, world) == |c.names| && forall i: nat :: i < |c.names| ==> Passes(c, world, i)
  {
    hide Answers, Rejects, Passes, TurnOf;
    forall i: nat | i < |c.names|
      ensures FallsThrough(TurnAt(c, world, i)) <==> Passes(c, world, i)
      ensures forall k: nat :: Rejects(c, world, i, k) ==> world(i, k).Refused? && TurnAt(c, world, i).reply == Raise(world(i, k).error)
      ensures TurnAt(c, world, i).reply.Raise? && TurnAt(c, world, i).reply.error.code == InvalidSymbol ==> exists k: nat :: Rejects(c, world, i, k)
      ensures forall k: nat :: Rejects(c, world, i, k) ==> world(i, k).Refused? && world(i, k).error.code == InvalidSymbol
    {
      TurnIs(c, world, i);
    }
    var s := Stop(c, world, 0);
    if s < |c.names| {
      assert TurnAt(c, world, s).reply.Raise?;
      StopsOnlyInvalid(TurnAt(c, world, s));
      var k: nat :| Rejects(c, world, s, k);
    } else {
      forall i: nat, k: nat | i < |c.names| ensures !Rejects(c, world, i, k) {
        if Rejects(c, world, i, k) { PassesRejectsNone(c, world, i, k); }
      }
      if s > 0 { assert FallsThrough(TurnAt(c, world, s - 1)); }
    }
  }

  lemma PassesRejectsNone<T>(c: Chain, world: World<T>, i: nat, k: nat)
    requires c.Valid() && i < |c.names| && Passes(c, world, i)
    ensures !Rejects(c, world, i, k)
  {}

  lemma StopsOnlyInvalid<T>(t: Turn<T>)
    requires t.reply.Raise? && !FallsThrough(t)
    ensures t.reply.error.code == InvalidSymbol
  {}

  /** The error that is raised when nobody answers or rejects: that of the last provider, of its last attempt when it is ready. */
  lemma LastErrorIs<T>(c: Chain, world: World<T>)
    requires c.Valid() && ReplyOf(c, world).Raise? && ReplyOf(c, world).error.code != InvalidSymbol
    ensures c.names == [] ==> ReplyOf(c, world).error == Error(NoData, "no provider available")
    ensures c.names != [] ==>
              var n := |c.names| - 1;
              match c.providers[n]
              case Missing => ReplyOf(c, world).error == Error(NotConfigured, "unavailable")
              case NoMethod => ReplyOf(c, world).error == Error(NotConfigured, "unavailable")
              case Unsupported => ReplyOf(c, world).error == Error(NotConfigured, "unsupported")
              case SupportsRaises(m) => ReplyOf(c, world).error == Error(ProviderError, m)
              case Ready =>
                exists k: nat :: Reaches(c, world, n, k) && match world(n, k)
                                 case Slow => ReplyOf(c, world).error == Error(TimedOut, "provider request timed out")
                                 case Refused(e) => ReplyOf(c, world).error == e
                                 case Crashed(m) => ReplyOf(c, world).error == Error(ProviderError, m)
                                 case Good(_) => false
  {
    var s := Stop(c, world, 0);
    if s < |c.names| { StopsOnlyInvalid(TurnAt(c, world, s)); }
    if c.names != [] {
      var n := |c.names| - 1;
      if c.providers[n].Ready? {
        var d := Deciding(world, n, 0, c.retries);
        forall a: nat ensures AskedAgain(world(n, a)) <==> Retried(world(n, a)) { AskedAgainIff(world(n, a)); }
        assert Reaches(c, world, n, d);
      }
    }
  }

  /** What a provider leaves in the health records: for each of its attempts up to the one that decides, how it went; one skip
      when it is not configured or does not serve the request. */
  lemma TurnRecords<T>(c: Chain, world: World<T>, i: nat)
    requires c.Valid() && i < |c.names|
    ensures var h, name := TurnAt(c, world, i).health, c.names[i];
            match c.providers[i]
            case Missing => h == [Failure(name, NotConfigured)]
            case NoMethod => h == [Failure(name, NotConfigured)]
            case Unsupported => h == [Failure(name, NotConfigured)]
            case SupportsRaises(_) => h == []
            case Ready =>
              && h != [] && Reaches(c, world, i, |h| - 1)
              && (forall k: nat :: Reaches(c, world, i, k) ==> k < |h|)
              && forall k :: 0 <= k < |h| ==>
                   match world(i, k)
                   case Good(_) => h[k] == Success(name)
                   case Slow => h[k] == Failure(name, TimedOut)
                   case Refused(e) => h[k] == Failure(name, e.code)
                   case Crashed(_) => h[k] == Failure(name, ProviderError)
  {
    if c.providers[i].Ready? {
      var d := Deciding(world, i, 0, c.retries);
      forall a: nat ensures AskedAgain(world(i, a)) <==> Retried(world(i, a)) { AskedAgainIff(world(i, a)); }
      assert Reaches(c, world, i, d);
    }
  }

  ghost function RecordsBefore<T>(c: Chain, world: World<T>, i: nat): nat
    requires c.Valid() && i <= |c.names|
  {
    if i == 0 then 0 else RecordsBefore(c, world, i - 1) + |TurnAt(c, world, i - 1).health|
  }

  /** The records of a call are those of the providers it asked, in turn. */
  lemma {:induction false} HealthInTurn<T>(c: Chain, world: World<T>, n: nat, i: nat)
    requires c.Valid() && i < n <= |c.names|
    ensures |HealthOf(c, world, n)| == RecordsBefore(c, world, n)
    ensures RecordsBefore(c, world, i) + |TurnAt(c, world, i).health| <= |HealthOf(c, world, n)|
    ensures HealthOf(c, world, n)[RecordsBefore(c, world, i)..RecordsBefore(c, world, i) + |TurnAt(c, world, i).health|]
            == TurnAt(c, world, i).health
  {
    hide TurnAt;
    if n > 1 { HealthInTurn(c, world, n - 1, if i < n - 1 then i else 0); }
    var before, own := HealthOf(c, world, n - 1), TurnAt(c, world, n - 1).health;
    assert |before| == RecordsBefore(c, world, n - 1);
    if i < n - 1 {
      var a, b := RecordsBefore(c, world, i), RecordsBefore(c, world, i) + |TurnAt(c, world, i).health|;
      assert (before + own)[a..b] == before[a..b];
    }
  }
}
