/** Running a layered PTC program: one flat list of results, wave after wave. */
module PtcExecution {
  import opened PtcWaves

  datatype CallResult = CallResult(groupId: string, name: string, ok: bool, error: string)
  datatype GroupOutcome = Results(results: seq<CallResult>) | Raised(error: string)

  /** What one group adds to the flat result list; a group that raised adds one error entry. */
  function Entries(o: GroupOutcome): seq<CallResult> {
    match o
    case Results(results) => results
    case Raised(error) => [CallResult("?", "(group)", false, error)]
  }

  ghost function FlatWave(wave: seq<Group>, run: Group -> GroupOutcome): seq<CallResult> {
    if wave == [] then [] else FlatWave(wave[..|wave| - 1], run) + Entries(run(wave[|wave| - 1]))
  }

  ghost function Flat(waves: seq<seq<Group>>, run: Group -> GroupOutcome): seq<CallResult> {
    if waves == [] then [] else Flat(waves[..|waves| - 1], run) + FlatWave(waves[|waves| - 1], run)
  }

  method RunWave(wave: seq<Group>, run: Group -> GroupOutcome) returns (results: seq<CallResult>)
    ensures results == FlatWave(wave, run)
  {
    results := [];
    for i := 0 to |wave|
      invariant results == FlatWave(wave[..i], run)
    {
      assert wave[..i + 1][..i] == wave[..i];
      results := results + Entries(run(wave[i]));
    }
    assert wave[..|wave|] == wave;
  }

  method RunWaves(waves: seq<seq<Group>>, run: Group -> GroupOutcome) returns (results: seq<CallResult>)
    ensures results == Flat(waves, run)
  {
    results := [];
    for k := 0 to |waves|
      invariant results == Flat(waves[..k], run)
    {
      var more := RunWave(waves[k], run);
      results := results + more;
      assert waves[..k + 1][..k] == waves[..k];
    }
    assert waves[..|waves|] == waves;
  }

  predicate IsEmpty(groups: seq<Group>) { forall g :: g in groups ==> g.calls == [] }

  /** `execute`: the waves in turn, the results of each wave in the order of its groups. Every group of the program is heard
      once: its results stand in the list as one piece in their own order, or its error as one entry, and nothing else is there. */
  method Execute(groups: seq<Group>, run: Group -> GroupOutcome) returns (r: Outcome, results: seq<CallResult>)
    ensures (forall g :: g in groups ==> g.calls == []) ==> r == Waves([]) && results == []
    ensures (exists g :: g in groups && g.calls != []) && r.Waves? ==>
              && (exists byId :: IsIndex(groups, byId) && Schedule(byId, r.waves))
              && multiset(results) == Heard(groups, run)
              && forall g :: g in groups ==> StandsIn(results, run(g))
    ensures (exists g :: g in groups && g.calls != []) ==> (r.Waves? || r.Cycle? <==> DistinctIds(groups) && KnownDeps(groups))
    ensures results == if r.Waves? then Flat(r.waves, run) else []
  {
    hide IsIndex, Schedule, DistinctIds, KnownDeps, StuckReport, StandsIn, Heard;
    if IsEmpty(groups) { return Waves([]), []; }
    r := TopoWaves(groups);
    results := [];
    if r.Waves? {
      results := RunWaves(r.waves, run);
      EveryGroupIsHeard(groups, r.waves, run);
    }
  }

  lemma {:induction false} WavePrefix(wave: seq<Group>, run: Group -> GroupOutcome, i: nat)
    requires i <= |wave|
    ensures FlatWave(wave[..i], run) <= FlatWave(wave, run)
  {
    var n := |wave| - 1;
    if i == |wave| { assert wave[..i] == wave; } else {
      assert wave[..n][..i] == wave[..i];
      WavePrefix(wave[..n], run, i);
    }
  }

  lemma {:induction false} FlatPrefix(waves: seq<seq<Group>>, run: Group -> GroupOutcome, k: nat)
    requires k <= |waves|
    ensures Flat(waves[..k], run) <= Flat(waves, run)
  {
    var n := |waves| - 1;
    if k == |waves| { assert waves[..k] == waves; } else {
      assert waves[..n][..k] == waves[..k];
      FlatPrefix(waves[..n], run, k);
    }
  }

  /** The results listed before those of group `i` of wave `k`. */
  ghost function Before(waves: seq<seq<Group>>, run: Group -> GroupOutcome, k: nat, i: nat): seq<CallResult>
    requires k < |waves| && i < |waves[k]|
  {
    Flat(waves[..k], run) + FlatWave(waves[k][..i], run)
  }

  lemma ThroughGroup(waves: seq<seq<Group>>, run: Group -> GroupOutcome, k: nat, i: nat)
    requires k < |waves| && i < |waves[k]|
    ensures Before(waves, run, k, i) + Entries(run(waves[k][i])) <= Flat(waves[..k + 1], run)
  {
    var wave := waves[k];
    var early, own, entries := Flat(waves[..k], run), FlatWave(wave[..i], run), Entries(run(wave[i]));
    assert FlatWave(wave[..i + 1], run) == own + entries by { assert wave[..i + 1][..i] == wave[..i]; }
    assert own + entries <= FlatWave(wave, run) by { WavePrefix(wave, run, i + 1); }
    assert Flat(waves[..k + 1], run) == early + FlatWave(wave, run) by { assert waves[..k + 1][..k] == waves[..k]; }
    assert early + own + entries == early + (own + entries);
  }

  /** All results of a dependency stand before all results of its dependent. */
  lemma DependenciesFirst(byId: map<string, Group>, waves: seq<seq<Group>>, level: map<string, nat>,
                          run: Group -> GroupOutcome, a: string, d: string)
    returns (beforeD: seq<CallResult>, beforeA: seq<CallResult>)
    requires Layered(byId, waves, level) && a in level && d in byId[a].dependsOn
    ensures d in byId
    ensures beforeD + Entries(run(byId[d])) <= beforeA
    ensures beforeA + Entries(run(byId[a])) <= Flat(waves, run)
  {
    var k, i, j, l := Positions(byId, waves, level, a, d);
    beforeD, beforeA := Before(waves, run, j, l), Before(waves, run, k, i);
    hide Layered, Flat, FlatWave, Entries, Before;
    ThroughGroup(waves, run, j, l);
    EarlierWave(waves, run, j, k, i);
    PrefixTransitive(beforeD + Entries(run(byId[d])), Flat(waves[..j + 1], run), beforeA);
    ThroughGroup(waves, run, k, i);
    FlatPrefix(waves, run, k + 1);
    PrefixTransitive(beforeA + Entries(run(byId[a])), Flat(waves[..k + 1], run), Flat(waves, run));
  }

  lemma PrefixTransitive(a: seq<CallResult>, b: seq<CallResult>, c: seq<CallResult>)
    requires a <= b <= c
    ensures a <= c
  {}

  lemma EarlierWave(waves: seq<seq<Group>>, run: Group -> GroupOutcome, j: nat, k: nat, i: nat)
    requires j < k < |waves| && i < |waves[k]|
    ensures Flat(waves[..j + 1], run) <= Before(waves, run, k, i)
  {
    assert waves[..k][..j + 1] == waves[..j + 1];
    FlatPrefix(waves[..k], run, j + 1);
  }

  lemma Positions(byId: map<string, Group>, waves: seq<seq<Group>>, level: map<string, nat>, a: string, d: string)
    returns (k: nat, i: nat, j: nat, l: nat)
    requires Layered(byId, waves, level) && a in level && d in byId[a].dependsOn
    ensures d in byId && j < k < |waves| && i < |waves[k]| && l < |waves[j]|
    ensures waves[k][i] == byId[a] && waves[j][l] == byId[d]
  {
    assert PlacedAt(level, level[a], byId[a].dependsOn) && Holds(waves, level[a], byId[a]) && Holds(waves, level[d], byId[d]);
    k, j := level[a], level[d];
    i :| 0 <= i < |waves[k]| && waves[k][i] == byId[a];
    l :| 0 <= l < |waves[j]| && waves[j][l] == byId[d];
  }

  // ---- what the list holds ----

  /** One report for each result of a group that returned, one error entry for a group that raised. */
  ghost function HeardOf(o: GroupOutcome): multiset<CallResult> {
    if o.Results? then multiset(o.results) else multiset{CallResult("?", "(group)", false, o.error)}
  }

  ghost function Heard(groups: seq<Group>, run: Group -> GroupOutcome): multiset<CallResult> {
    if groups == [] then multiset{} else Heard(groups[..|groups| - 1], run) + HeardOf(run(groups[|groups| - 1]))
  }

  /** What a group returned stands there as one piece; what it raised, as one entry. */
  ghost predicate StandsIn(results: seq<CallResult>, o: GroupOutcome) {
    match o
    case Results(own) => exists p :: 0 <= p <= |results| - |own| && StandsAt(results, own, p)
    case Raised(error) => exists p :: 0 <= p < |results| && results[p] == CallResult("?", "(group)", false, error)
  }

  predicate StandsAt(results: seq<CallResult>, own: seq<CallResult>, p: int)
    requires 0 <= p <= |results| - |own|
  {
    results[p..p + |own|] == own
  }

  ghost function Concat(waves: seq<seq<Group>>): seq<Group> {
    if waves == [] then [] else Concat(waves[..|waves| - 1]) + waves[|waves| - 1]
  }

  lemma {:induction false} HeardAppend(a: seq<Group>, b: seq<Group>, run: Group -> GroupOutcome)
    ensures Heard(a + b, run) == Heard(a, run) + Heard(b, run)
  {
    if b == [] {
      assert a + b == a;
    } else {
      hide HeardOf;
      var n := |b| - 1;
      HeardAppend(a, b[..n], run);
      assert (a + b)[..|a + b| - 1] == a + b[..n] && (a + b)[|a + b| - 1] == b[n];
      assert Heard(a + b, run) == Heard(a + b[..n], run) + HeardOf(run(b[n]));
    }
  }

  lemma {:induction false} FlatWaveHeard(wave: seq<Group>, run: Group -> GroupOutcome)
    ensures multiset(FlatWave(wave, run)) == Heard(wave, run)
  {
    if wave != [] { FlatWaveHeard(wave[..|wave| - 1], run); }
  }

  lemma {:induction false} FlatHeard(waves: seq<seq<Group>>, run: Group -> GroupOutcome)
    ensures multiset(Flat(waves, run)) == Heard(Concat(waves), run)
  {
    if waves != [] {
      var n := |waves| - 1;
      FlatHeard(waves[..n], run);
      FlatWaveHeard(waves[n], run);
      HeardAppend(Concat(waves[..n]), waves[n], run);
    }
  }

  lemma SameSize(a: seq<Group>, b: seq<Group>)
    requires multiset(a) == multiset(b)
    ensures |a| == |b|
  {
    assert |multiset(a)| == |a| && |multiset(b)| == |b|;
  }

  lemma WithoutOne(s: seq<Group>, k: nat)
    requires k < |s|
    ensures multiset(s) == multiset(s[..k] + s[k + 1..]) + multiset{s[k]}
  {
    assert s == s[..k] + [s[k]] + s[k + 1..];
  }

  lemma WithoutSame(a: seq<Group>, b: seq<Group>) returns (k: nat)
    requires multiset(a) == multiset(b) && a != []
    ensures k < |b| && b[k] == a[0] && multiset(a[1..]) == multiset(b[..k] + b[k + 1..])
  {
    assert a[0] in multiset(b);
    k :| 0 <= k < |b| && b[k] == a[0];
    WithoutOne(a, 0);
    WithoutOne(b, k);
    assert a[..0] + a[1..] == a[1..];
    var x, y, one := multiset(a[1..]), multiset(b[..k] + b[k + 1..]), multiset{a[0]};
    assert x == (x + one) - one && y == (y + one) - one;
  }

  lemma HeardNext(s: seq<Group>, k: nat, run: Group -> GroupOutcome)
    requires k < |s|
    ensures Heard(s[..k + 1], run) == Heard(s[..k], run) + HeardOf(run(s[k]))
  {
    hide HeardOf;
    assert s[..k + 1][..k] == s[..k];
  }

  lemma HeardWithout(s: seq<Group>, k: nat, run: Group -> GroupOutcome)
    requires k < |s|
    ensures Heard(s, run) == Heard(s[..k] + s[k + 1..], run) + HeardOf(run(s[k]))
  {
    hide HeardOf, Heard;
    assert s == s[..k + 1] + s[k + 1..];
    HeardNext(s, k, run);
    HeardAppend(s[..k + 1], s[k + 1..], run);
    HeardAppend(s[..k], s[k + 1..], run);
  }

  /** The first group, and what is left of both lists without it. */
  lemma HeardFirst(a: seq<Group>, b: seq<Group>, run: Group -> GroupOutcome) returns (rest: seq<Group>)
    requires multiset(a) == multiset(b) && a != []
    ensures multiset(a[1..]) == multiset(rest)
    ensures Heard(a, run) == Heard(a[1..], run) + HeardOf(run(a[0])) && Heard(b, run) == Heard(rest, run) + HeardOf(run(a[0]))
  {
    hide HeardOf, Heard;
    var k := WithoutSame(a, b);
    rest := b[..k] + b[k + 1..];
    HeardWithout(a, 0, run);
    HeardWithout(b, k, run);
    assert a[..0] + a[1..] == a[1..];
  }

  /** The order of the groups does not matter. */
  lemma {:induction false} HeardPermutes(a: seq<Group>, b: seq<Group>, run: Group -> GroupOutcome)
    requires multiset(a) == multiset(b)
    ensures Heard(a, run) == Heard(b, run)
    decreases |a|
  {
    SameSize(a, b);
    if a != [] {
      hide HeardOf, Heard;
      var rest := HeardFirst(a, b, run);
      HeardPermutes(a[1..], rest, run);
    }
  }

  ghost predicate OnceEach(s: seq<Group>) { forall i, j :: 0 <= i < j < |s| ==> s[i].id != s[j].id }

  lemma {:induction false} ConcatHolds(waves: seq<seq<Group>>, g: Group)
    ensures g in Concat(waves) <==> exists k :: 0 <= k < |waves| && g in waves[k]
  {
    if waves != [] {
      var n := |waves| - 1;
      ConcatHolds(waves[..n], g);
      if k :| 0 <= k < |waves| && g in waves[k] { if k < n { assert g in waves[..n][k]; } }
    }
  }

  lemma {:induction false} ConcatOnce(waves: seq<seq<Group>>, level: map<string, nat>)
    requires forall k :: 0 <= k < |waves| ==> OnceEach(waves[k])
    requires forall k, i :: 0 <= k < |waves| && 0 <= i < |waves[k]| ==> waves[k][i].id in level && level[waves[k][i].id] == k
    ensures OnceEach(Concat(waves))
  {
    if waves != [] {
      var n := |waves| - 1;
      ConcatOnce(waves[..n], level);
      var early, last := Concat(waves[..n]), waves[n];
      forall i, j | 0 <= i < |early| && 0 <= j < |last| ensures early[i].id != last[j].id {
        ConcatHolds(waves[..n], early[i]);
        var k :| 0 <= k < n && early[i] in waves[k];
      }
    }
  }

  lemma {:induction false} SameGroups(a: seq<Group>, b: seq<Group>)
    requires OnceEach(a) && OnceEach(b) && forall g :: g in a <==> g in b
    ensures multiset(a) == multiset(b)
  {
    forall g ensures multiset(a)[g] == multiset(b)[g] {
      OnceCount(a, g);
      OnceCount(b, g);
    }
  }

  lemma {:induction false} OnceCount(a: seq<Group>, g: Group)
    requires OnceEach(a)
    ensures multiset(a)[g] == if g in a then 1 else 0
  {
    if a != [] {
      var n := |a| - 1;
      OnceCount(a[..n], g);
      assert a == a[..n] + [a[n]];
      assert a[n] !in a[..n];
    }
  }

  /** A schedule holds every group of the program exactly once. */
  lemma ScheduleHolds(groups: seq<Group>, byId: map<string, Group>, waves: seq<seq<Group>>)
    requires IsIndex(groups, byId) && Schedule(byId, waves) && DistinctIds(groups)
    ensures multiset(Concat(waves)) == multiset(groups)
    ensures forall g :: g in groups ==> exists k, i :: 0 <= k < |waves| && 0 <= i < |waves[k]| && waves[k][i] == g
  {
    var level: map<string, nat> :| level.Keys == byId.Keys && Layered(byId, waves, level);
    ConcatOnce(waves, level);
    forall g ensures g in groups <==> g in Concat(waves) {
      ConcatHolds(waves, g);
      if g in groups { assert Holds(waves, level[g.id], byId[g.id]); }
    }
    SameGroups(Concat(waves), groups);
    forall g | g in groups ensures exists k, i :: 0 <= k < |waves| && 0 <= i < |waves[k]| && waves[k][i] == g {
      assert Holds(waves, level[g.id], byId[g.id]);
      var k := level[g.id];
      var i :| 0 <= i < |waves[k]| && waves[k][i] == g;
    }
  }

  lemma PieceStands(waves: seq<seq<Group>>, run: Group -> GroupOutcome, k: nat, i: nat)
    requires k < |waves| && i < |waves[k]|
    ensures StandsIn(Flat(waves, run), run(waves[k][i]))
  {
    var o, results, before := run(waves[k][i]), Flat(waves, run), Before(waves, run, k, i);
    ThroughGroup(waves, run, k, i);
    FlatPrefix(waves, run, k + 1);
    PrefixTransitive(before + Entries(o), Flat(waves[..k + 1], run), results);
    var p := |before|;
    assert results[p..p + |Entries(o)|] == Entries(o);
    if o.Results? { assert StandsAt(results, o.results, p); } else { assert results[p] == Entries(o)[0]; }
  }

  lemma EveryGroupIsHeard(groups: seq<Group>, waves: seq<seq<Group>>, run: Group -> GroupOutcome)
    requires DistinctIds(groups) && exists byId :: IsIndex(groups, byId) && Schedule(byId, waves)
    ensures multiset(Flat(waves, run)) == Heard(groups, run)
    ensures forall g :: g in groups ==> StandsIn(Flat(waves, run), run(g))
  {
    hide IsIndex, Schedule, DistinctIds, StandsIn, Heard, Flat;
    var byId :| IsIndex(groups, byId) && Schedule(byId, waves);
    ScheduleHolds(groups, byId, waves);
    FlatHeard(waves, run);
    HeardPermutes(Concat(waves), groups, run);
    forall g | g in groups ensures StandsIn(Flat(waves, run), run(g)) {
      var k, i :| 0 <= k < |waves| && 0 <= i < |waves[k]| && waves[k][i] == g;
      PieceStands(waves, run, k, i);
    }
  }

  lemma InOrder(x: seq<CallResult>, first: seq<CallResult>, y: seq<CallResult>, second: seq<CallResult>, results: seq<CallResult>)
    requires x + first <= y && y + second <= results
    ensures exists p, q :: 0 <= p && p + |first| <= q <= |results| - |second| && StandsAt(results, first, p) && StandsAt(results, second, q)
  {
    PrefixTransitive(x + first, y, results);
    var p, q := |x|, |y|;
    assert StandsAt(results, first, p) && StandsAt(results, second, q);
  }

  /** All that a dependency returned stands before all that its dependent returned. */
  lemma ResultsInOrder(byId: map<string, Group>, waves: seq<seq<Group>>, level: map<string, nat>,
                       run: Group -> GroupOutcome, a: string, d: string)
    requires Layered(byId, waves, level) && a in level && d in byId[a].dependsOn
    ensures d in byId
    ensures run(byId[d]).Results? && run(byId[a]).Results? ==>
              var results, first, second := Flat(waves, run), run(byId[d]).results, run(byId[a]).results;
              exists p, q :: 0 <= p && p + |first| <= q <= |results| - |second| && StandsAt(results, first, p) && StandsAt(results, second, q)
  {
    var beforeD, beforeA := DependenciesFirst(byId, waves, level, run, a, d);
    if run(byId[d]).Results? && run(byId[a]).Results? {
      hide Flat, Layered;
      InOrder(beforeD, run(byId[d]).results, beforeA, run(byId[a]).results, Flat(waves, run));
    }
  }
}
