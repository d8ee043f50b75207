/** The wave scheduler of the PTC executor: Kahn layering of `depends_on`, with cycle detection. */
module PtcWaves {
  import opened Ordering

  datatype Call = Call(name: string, args: string)
  datatype Group = Group(id: string, calls: seq<Call>, dependsOn: seq<string>)
  datatype Outcome =
    | Waves(waves: seq<seq<Group>>)
    | DuplicateIds
    | UnknownDeps(missing: seq<(string, string)>)
    | Cycle(ids: seq<string>)

  // ---- the program as a graph ----

  ghost function IdSet(groups: seq<Group>): set<string> { set g | g in groups :: g.id }

  lemma IdSetStep(groups: seq<Group>, i: nat)
    requires i < |groups|
    ensures IdSet(groups[..i + 1]) == IdSet(groups[..i]) + {groups[i].id}
  {
    assert groups[..i + 1] == groups[..i] + [groups[i]];
  }

  ghost predicate DistinctIds(groups: seq<Group>) {
    forall i, j :: 0 <= i < j < |groups| ==> groups[i].id != groups[j].id
  }

  /** All dependencies name a group of the program. */
  ghost predicate KnownDeps(groups: seq<Group>) {
    forall g, d :: g in groups && d in g.dependsOn ==> d in IdSet(groups)
  }

  /** `by_id`: the lookup table of the program. */
  ghost predicate IsIndex(groups: seq<Group>, byId: map<string, Group>) {
    && byId.Keys == IdSet(groups)
    && (forall g :: g in groups ==> byId[g.id] == g)
    && forall a :: a in byId ==> byId[a].id == a && byId[a] in groups
  }

  /** A path runs from dependency to dependent. */
  ghost predicate IsPath(byId: map<string, Group>, p: seq<string>) {
    && |p| > 0
    && (forall i :: 0 <= i < |p| ==> p[i] in byId)
    && forall i, j :: 0 <= i && j == i + 1 && j < |p| ==> p[i] in byId[p[j]].dependsOn
  }

  /** The id is reached by a path that runs through its own start again: it lies on a cycle or behind one. */
  ghost predicate Blocked(byId: map<string, Group>, a: string) {
    exists p, i :: IsPath(byId, p) && p[|p| - 1] == a && 0 < i < |p| && p[i] == p[0]
  }

  /** Some dependency of `b` lies in the set. */
  ghost predicate HasDepIn(byId: map<string, Group>, b: string, ids: set<string>)
    requires b in byId
  {
    exists d :: d in byId[b].dependsOn && d in ids
  }

  /** No id of the set can ever be scheduled before another one of it. */
  ghost predicate Stuck(byId: map<string, Group>, ids: set<string>) {
    ids <= byId.Keys && forall b {:trigger HasDepIn(byId, b, ids)} :: b in ids ==> HasDepIn(byId, b, ids)
  }

  // ---- layerings ----

  /** A group may stand in wave `k`: its dependencies stand earlier, and one of them directly before it. */
  ghost predicate PlacedAt(level: map<string, nat>, k: nat, deps: seq<string>) {
    && (forall d :: d in deps ==> d in level && level[d] < k)
    && (k > 0 ==> exists d :: d in deps && d in level && level[d] == k - 1)
  }

  ghost predicate IsWave(byId: map<string, Group>, wave: seq<Group>) {
    && wave != []
    && (forall i :: 0 <= i < |wave| ==> wave[i].id in byId && byId[wave[i].id] == wave[i])
    && forall i, j :: 0 <= i < j < |wave| ==> wave[i].id != wave[j].id && Leq(wave[i].id, wave[j].id)
  }

  ghost predicate Holds(waves: seq<seq<Group>>, k: nat, g: Group) { k < |waves| && g in waves[k] }

  /** The waves hold the groups with a level exactly once each, at their level, sorted by id in a wave. */
  ghost predicate Layered(byId: map<string, Group>, waves: seq<seq<Group>>, level: map<string, nat>) {
    && level.Keys <= byId.Keys
    && (forall k :: 0 <= k < |waves| ==> IsWave(byId, waves[k]))
    && (forall k, i :: 0 <= k < |waves| && 0 <= i < |waves[k]| ==> waves[k][i].id in level && level[waves[k][i].id] == k)
    && (forall a {:trigger Holds(waves, level[a], byId[a])} :: a in level ==> Holds(waves, level[a], byId[a]))
    && forall a {:trigger PlacedAt(level, level[a], byId[a].dependsOn)} :: a in level ==> PlacedAt(level, level[a], byId[a].dependsOn)
  }

  /** A schedule of the whole program. */
  ghost predicate Schedule(byId: map<string, Group>, waves: seq<seq<Group>>) {
    exists level: map<string, nat> :: level.Keys == byId.Keys && Layered(byId, waves, level)
  }

  /** The ids named by the cycle error: those on a cycle or behind one, sorted. */
  ghost predicate StuckReport(byId: map<string, Group>, ids: seq<string>) {
    ids != [] && Sorted(ids) && NoRepeat(ids) && forall a :: a in ids <==> a in byId && Blocked(byId, a)
  }

  // ---- counting ----

  ghost function Count(s: seq<string>, x: string): nat {
    if s == [] then 0 else Count(s[..|s| - 1], x) + (if s[|s| - 1] == x then 1 else 0)
  }

  lemma CountAppend(s: seq<string>, y: string)
    ensures forall x :: Count(s + [y], x) == Count(s, x) + (if x == y then 1 else 0)
  {
    assert (s + [y])[..|s|] == s;
  }

  /** Entries of a `depends_on` list, repeated ones counted each time, that are not finished. */
  ghost function Unmet(deps: seq<string>, done: set<string>): nat {
    if deps == [] then 0
    else Unmet(deps[..|deps| - 1], done) + (if deps[|deps| - 1] in done then 0 else 1)
  }

  lemma {:induction false} UnmetZero(deps: seq<string>, done: set<string>)
    ensures Unmet(deps, done) == 0 <==> forall d :: d in deps ==> d in done
  {
    if deps != [] {
      UnmetZero(deps[..|deps| - 1], done);
      assert deps == deps[..|deps| - 1] + [deps[|deps| - 1]];
    }
  }

  lemma {:induction false} UnmetFinish(deps: seq<string>, done: set<string>, g: string)
    requires g !in done
    ensures Unmet(deps, done + {g}) == Unmet(deps, done) - Count(deps, g)
  {
    if deps != [] { UnmetFinish(deps[..|deps| - 1], done, g); }
  }

  lemma {:induction false} UnmetNone(deps: seq<string>)
    ensures Unmet(deps, {}) == |deps|
  {
    if deps != [] { UnmetNone(deps[..|deps| - 1]); }
  }

  // ---- checks on the program ----

  method CheckIds(groups: seq<Group>) returns (ok: bool, byId: map<string, Group>)
    ensures ok <==> DistinctIds(groups)
    ensures ok ==> IsIndex(groups, byId)
  {
    byId := map[];
    for i := 0 to |groups|
      invariant DistinctIds(groups[..i])
      invariant IsIndex(groups[..i], byId)
    {
      assert groups[..i + 1] == groups[..i] + [groups[i]];
      if groups[i].id in byId {
        assert groups[i].id in IdSet(groups[..i]);
        return false, map[];
      }
      byId := byId[groups[i].id := groups[i]];
    }
    assert groups[..|groups|] == groups;
    return true, byId;
  }

  /** The dependencies that name no group, in program order. */
  ghost function Missing(groups: seq<Group>, known: set<string>): seq<(string, string)> {
    if groups == [] then []
    else Missing(groups[..|groups| - 1], known)
         + MissingOf(groups[|groups| - 1].id, groups[|groups| - 1].dependsOn, known)
  }

  ghost function MissingOf(id: string, deps: seq<string>, known: set<string>): seq<(string, string)> {
    if deps == [] then []
    else MissingOf(id, deps[..|deps| - 1], known)
         + (if deps[|deps| - 1] in known then [] else [(id, deps[|deps| - 1])])
  }

  lemma {:induction false} MissingOfExact(id: string, deps: seq<string>, known: set<string>)
    ensures forall e :: e in MissingOf(id, deps, known) <==> e.0 == id && e.1 in deps && e.1 !in known
  {
    if deps != [] {
      MissingOfExact(id, deps[..|deps| - 1], known);
      assert deps == deps[..|deps| - 1] + [deps[|deps| - 1]];
    }
  }

  lemma {:induction false} MissingExact(groups: seq<Group>, known: set<string>)
    ensures forall e :: e in Missing(groups, known) <==>
              exists g :: g in groups && g.id == e.0 && e.1 in g.dependsOn && e.1 !in known
  {
    if groups != [] {
      var g := groups[|groups| - 1];
      MissingExact(groups[..|groups| - 1], known);
      MissingOfExact(g.id, g.dependsOn, known);
      assert groups == groups[..|groups| - 1] + [g];
    }
  }

  method FindUnknownDeps(groups: seq<Group>, byId: map<string, Group>) returns (missing: seq<(string, string)>)
    ensures missing == Missing(groups, byId.Keys)
  {
    missing := [];
    for i := 0 to |groups|
      invariant missing == Missing(groups[..i], byId.Keys)
    {
      var deps := groups[i].dependsOn;
      for j := 0 to |deps|
        invariant missing == Missing(groups[..i], byId.Keys) + MissingOf(groups[i].id, deps[..j], byId.Keys)
      {
        assert deps[..j + 1][..j] == deps[..j];
        if deps[j] !in byId { missing := missing + [(groups[i].id, deps[j])]; }
      }
      assert deps[..|deps|] == deps;
      assert groups[..i + 1][..i] == groups[..i];
    }
    assert groups[..|groups|] == groups;
  }

  // ---- the loop over `remaining` ----

  /** `edges[d]` names a dependent among `seen` once for each of its `depends_on` entries equal to `d`. */
  ghost predicate EdgesOf(byId: map<string, Group>, edges: map<string, seq<string>>, seen: set<string>) {
    && edges.Keys == byId.Keys
    && forall d, a {:trigger Count(edges[d], a)} :: d in edges && a in byId ==>
         Count(edges[d], a) == if a in seen then Count(byId[a].dependsOn, d) else 0
  }

  ghost predicate IsEdges(byId: map<string, Group>, edges: map<string, seq<string>>) {
    EdgesOf(byId, edges, byId.Keys)
  }

  method BuildGraph(groups: seq<Group>, byId: map<string, Group>)
    returns (indeg: map<string, int>, edges: map<string, seq<string>>)
    requires DistinctIds(groups) && IsIndex(groups, byId) && KnownDeps(groups)
    ensures IsEdges(byId, edges)
    ensures indeg.Keys == byId.Keys && forall a :: a in byId ==> indeg[a] == |byId[a].dependsOn|
  {
    hide IsIndex, DistinctIds, KnownDeps;
    indeg := map id | id in byId :: 0;
    edges := map id | id in byId :: [];
    ghost var seen: set<string> := {};
    for i := 0 to |groups|
      invariant indeg.Keys == byId.Keys && edges.Keys == byId.Keys
      invariant seen == IdSet(groups[..i])
      invariant forall a {:trigger indeg[a]} :: a in byId ==> indeg[a] == if a in seen then |byId[a].dependsOn| else 0
      invariant EdgesOf(byId, edges, seen)
    {
      var g := groups[i];
      GroupFacts(groups, byId, i);
      ghost var edges0 := edges;
      indeg, edges := AddEdges(byId, g, indeg, edges);
      EdgesStep(byId, edges0, edges, seen, g);
      IdSetStep(groups, i);
      seen := seen + {g.id};
    }
    assert groups[..|groups|] == groups;
    IndexKeys(groups, byId);
  }

  lemma IndexKeys(groups: seq<Group>, byId: map<string, Group>)
    requires IsIndex(groups, byId)
    ensures byId.Keys == IdSet(groups)
  {}

  lemma GroupFacts(groups: seq<Group>, byId: map<string, Group>, i: nat)
    requires DistinctIds(groups) && IsIndex(groups, byId) && KnownDeps(groups) && i < |groups|
    ensures groups[i].id in byId && byId[groups[i].id] == groups[i] && groups[i].id !in IdSet(groups[..i])
    ensures forall d :: d in groups[i].dependsOn ==> d in byId
  {
    assert groups[i] in groups;
  }

  lemma EdgesStep(byId: map<string, Group>, edges0: map<string, seq<string>>, edges: map<string, seq<string>>, seen: set<string>, g: Group)
    requires EdgesOf(byId, edges0, seen) && g.id in byId && byId[g.id] == g && g.id !in seen
    requires edges.Keys == edges0.Keys
    requires forall d, a {:trigger Count(edges[d], a)} :: d in edges ==>
              Count(edges[d], a) == Count(edges0[d], a) + (if a == g.id then Count(g.dependsOn, d) else 0)
    ensures EdgesOf(byId, edges, seen + {g.id})
  {}

  method AddEdges(byId: map<string, Group>, g: Group, indeg0: map<string, int>, edges0: map<string, seq<string>>)
    returns (indeg: map<string, int>, edges: map<string, seq<string>>)
    requires g.id in indeg0 && indeg0[g.id] == 0 && edges0.Keys == byId.Keys
    requires forall d :: d in g.dependsOn ==> d in byId
    ensures indeg == indeg0[g.id := |g.dependsOn|]
    ensures edges.Keys == edges0.Keys
    ensures forall d, a {:trigger Count(edges[d], a)} :: d in edges ==>
              Count(edges[d], a) == Count(edges0[d], a) + (if a == g.id then Count(g.dependsOn, d) else 0)
  {
    indeg, edges := indeg0, edges0;
    var deps := g.dependsOn;
    assert deps[..0] == [];
    assert forall d :: Count(deps[..0], d) == 0;
    for j := 0 to |deps|
      invariant indeg == indeg0[g.id := j]
      invariant edges.Keys == edges0.Keys
      invariant forall d, a {:trigger Count(edges[d], a)} :: d in edges ==>
                  Count(edges[d], a) == Count(edges0[d], a) + (if a == g.id then Count(deps[..j], d) else 0)
    {
      var dep := deps[j];
      assert deps[..j + 1] == deps[..j] + [dep];
      CountAppend(deps[..j], dep);
      CountAppend(edges[dep], g.id);
      indeg := indeg[g.id := indeg[g.id] + 1];
      edges := edges[dep := edges[dep] + [g.id]];
    }
    assert deps[..|deps|] == deps;
  }

  /** Between waves the finished ids are exactly the removed ones, and every counter is the number of unmet entries. */
  ghost predicate Counts(byId: map<string, Group>, remaining: map<string, int>, done: set<string>) {
    && remaining.Keys == byId.Keys - done && done <= byId.Keys
    && forall a :: a in remaining ==> remaining[a] == Unmet(byId[a].dependsOn, done)
  }

  lemma CountsKeys(byId: map<string, Group>, remaining: map<string, int>, done: set<string>)
    requires Counts(byId, remaining, done)
    ensures remaining.Keys == byId.Keys - done && done <= byId.Keys
  {}

  /** Removing one finished group: its counter goes, and each dependent loses one per edge. */
  method Finish(byId: map<string, Group>, edges: map<string, seq<string>>, gid: string,
                remaining0: map<string, int>, ghost done: set<string>)
    returns (remaining: map<string, int>)
    requires IsEdges(byId, edges) && Counts(byId, remaining0, done) && gid in remaining0
    ensures Counts(byId, remaining, done + {gid})
  {
    remaining := map id | id in remaining0 && id != gid :: remaining0[id];
    var out := edges[gid];
    for j := 0 to |out|
      invariant remaining.Keys == remaining0.Keys - {gid}
      invariant forall a :: a in remaining ==> remaining[a] == remaining0[a] - Count(out[..j], a)
    {
      assert out[..j + 1] == out[..j] + [out[j]];
      CountAppend(out[..j], out[j]);
      if out[j] in remaining { remaining := remaining[out[j] := remaining[out[j]] - 1]; }
    }
    assert out[..|out|] == out;
    forall a | a in remaining ensures remaining[a] == Unmet(byId[a].dependsOn, done + {gid}) {
      UnmetFinish(byId[a].dependsOn, done, gid);
    }
  }

  ghost function Elements(s: seq<string>): set<string> { set a | a in s }

  /** Removing the whole wave, one group after the other. */
  method FinishAll(byId: map<string, Group>, edges: map<string, seq<string>>, ready: seq<string>,
                   remaining0: map<string, int>, ghost done: set<string>)
    returns (remaining: map<string, int>)
    requires IsEdges(byId, edges) && Counts(byId, remaining0, done) && NoRepeat(ready)
    requires forall a :: a in ready ==> a in remaining0
    ensures Counts(byId, remaining, done + Elements(ready))
  {
    hide Counts, IsEdges;
    remaining := remaining0;
    assert done + Elements(ready[..0]) == done;
    for i := 0 to |ready|
      invariant Counts(byId, remaining, done + Elements(ready[..i]))
    {
      ghost var gone := done + Elements(ready[..i]);
      CountsKeys(byId, remaining0, done);
      CountsKeys(byId, remaining, gone);
      assert ready[i] in remaining0 && ready[i] !in gone;
      remaining := Finish(byId, edges, ready[i], remaining, gone);
      assert ready[..i + 1] == ready[..i] + [ready[i]];
      assert done + Elements(ready[..i + 1]) == gone + {ready[i]};
    }
    assert ready[..|ready|] == ready;
  }

  /** The ids of `remaining`, in program order; with `ready`, only those whose counter is zero. */
  method Select(groups: seq<Group>, byId: map<string, Group>, remaining: map<string, int>, ready: bool) returns (ids: seq<string>)
    requires DistinctIds(groups) && IsIndex(groups, byId) && remaining.Keys <= byId.Keys
    ensures forall a :: a in ids <==> a in remaining && (ready ==> remaining[a] == 0)
    ensures NoRepeat(ids)
  {
    ids := [];
    for i := 0 to |groups|
      invariant forall a :: a in ids <==> a in remaining && (ready ==> remaining[a] == 0) && a in IdSet(groups[..i])
      invariant NoRepeat(ids)
    {
      assert groups[..i + 1] == groups[..i] + [groups[i]];
      var id := groups[i].id;
      if id in remaining && (!ready || remaining[id] == 0) { ids := ids + [id]; }
    }
    assert groups[..|groups|] == groups;
  }

  /** One more wave: ids that are ready now, none of which was ready one wave ago. */
  lemma ExtendLayers(byId: map<string, Group>, waves: seq<seq<Group>>, level: map<string, nat>, wave: seq<Group>,
                     before: set<string>, ids: set<string>) returns (level': map<string, nat>)
    requires Layered(byId, waves, level) && IsWave(byId, wave)
    requires ids == (set i | 0 <= i < |wave| :: wave[i].id) && ids !! level.Keys
    requires forall a :: a in ids ==> Unmet(byId[a].dependsOn, level.Keys) == 0
    requires forall a :: a in level && a !in before ==> level[a] == |waves| - 1
    requires |waves| > 0 ==> forall a :: a in ids ==> Unmet(byId[a].dependsOn, before) > 0
    ensures level'.Keys == level.Keys + ids && Layered(byId, waves + [wave], level')
    ensures forall a :: a in level' && a !in level.Keys ==> level'[a] == |waves|
  {
    level' := map a | a in level.Keys + ids :: if a in ids then |waves| else level[a];
    var all := waves + [wave];
    assert forall k :: 0 <= k < |all| ==> IsWave(byId, all[k]);
    forall a | a in level' ensures Holds(all, level'[a], byId[a]) {
      if a in ids {
        var i :| 0 <= i < |wave| && wave[i].id == a;
        assert wave[i] in all[|waves|];
      } else {
        assert Holds(waves, level[a], byId[a]) && all[level[a]] == waves[level[a]];
      }
    }
    forall a | a in level ensures level[a] < |waves| { assert Holds(waves, level[a], byId[a]); }
    forall k, i | 0 <= k < |all| && 0 <= i < |all[k]| ensures all[k][i].id in level' && level'[all[k][i].id] == k {
      if k < |waves| { assert waves[k][i].id in level; } else { assert wave[i].id in ids; }
    }
    forall a | a in level' ensures PlacedAt(level', level'[a], byId[a].dependsOn) {
      if a in ids { PlacedNew(level, level', |waves|, before, byId[a].dependsOn); }
      else { PlacedOld(level, level', level[a], byId[a].dependsOn); }
    }
  }

  lemma PlacedNew(level: map<string, nat>, level': map<string, nat>, k: nat, before: set<string>, deps: seq<string>)
    requires forall a :: a in level ==> a in level' && level'[a] == level[a] < k
    requires forall a :: a in level && a !in before ==> level[a] == k - 1
    requires Unmet(deps, level.Keys) == 0 && (k > 0 ==> Unmet(deps, before) > 0)
    ensures PlacedAt(level', k, deps)
  {
    UnmetZero(deps, level.Keys);
    UnmetZero(deps, before);
  }

  lemma PlacedOld(level: map<string, nat>, level': map<string, nat>, k: nat, deps: seq<string>)
    requires forall a :: a in level ==> a in level' && level'[a] == level[a]
    requires PlacedAt(level, k, deps)
    ensures PlacedAt(level', k, deps)
  {}

  /** `_topo_waves`: duplicate ids, then unknown dependencies, then the layers, or the ids stuck on or behind a cycle. */
  method TopoWaves(groups: seq<Group>) returns (r: Outcome)
    ensures r.DuplicateIds? <==> !DistinctIds(groups)
    ensures r.UnknownDeps? <==> DistinctIds(groups) && !KnownDeps(groups)
    ensures r.UnknownDeps? ==> r.missing == Missing(groups, IdSet(groups))
    ensures r.Waves? ==> exists byId :: IsIndex(groups, byId) && Schedule(byId, r.waves)
    ensures r.Cycle? ==> exists byId :: IsIndex(groups, byId) && StuckReport(byId, r.ids)
  {
    var ok, byId := CheckIds(groups);
    if !ok { return DuplicateIds; }
    var missing := FindUnknownDeps(groups, byId);
    MissingExact(groups, byId.Keys);
    if missing != [] {
      assert missing[0] in missing;
      return UnknownDeps(missing);
    }
    assert KnownDeps(groups) by {
      forall g, d | g in groups && d in g.dependsOn ensures d in IdSet(groups) {
        assert (g.id, d) !in missing;
      }
    }
    var indeg, edges := BuildGraph(groups, byId);
    r := Layer(groups, byId, indeg, edges);
  }

  /** The state between two waves. `before` is what was finished one wave ago: nothing left was ready then. */
  ghost predicate Between(byId: map<string, Group>, waves: seq<seq<Group>>, remaining: map<string, int>,
                          level: map<string, nat>, before: set<string>) {
    && Counts(byId, remaining, level.Keys)
    && Layered(byId, waves, level)
    && (forall a :: a in level && a !in before ==> level[a] == |waves| - 1)
    && (|waves| > 0 ==> forall a :: a in remaining ==> Unmet(byId[a].dependsOn, before) > 0)
  }

  /** Kahn's loop: the layers, or the ids that never become ready. */
  method Layer(groups: seq<Group>, byId: map<string, Group>, indeg: map<string, int>, edges: map<string, seq<string>>)
    returns (r: Outcome)
    requires DistinctIds(groups) && IsIndex(groups, byId) && IsEdges(byId, edges)
    requires forall a, d :: a in byId && d in byId[a].dependsOn ==> d in byId
    requires indeg.Keys == byId.Keys && forall a :: a in byId ==> indeg[a] == |byId[a].dependsOn|
    ensures r.Waves? || r.Cycle?
    ensures r.Waves? ==> Schedule(byId, r.waves)
    ensures r.Cycle? ==> StuckReport(byId, r.ids)
  {
    var waves: seq<seq<Group>> := [];
    var remaining := indeg;
    ghost var level: map<string, nat>, before: set<string> := map[], {};
    assert level.Keys == {};
    forall a | a in byId ensures remaining[a] == Unmet(byId[a].dependsOn, {}) { UnmetNone(byId[a].dependsOn); }
    while remaining != map[]
      invariant Between(byId, waves, remaining, level, before)
      decreases remaining.Keys
    {
      var ready := Select(groups, byId, remaining, true);
      if ready == [] {
        var left := Select(groups, byId, remaining, false);
        StuckIds(byId, waves, remaining, level, left);
        return Cycle(Sort(left));
      }
      var wave := MakeWave(byId, ready);
      waves, remaining, level, before := NextWave(byId, edges, ready, wave, waves, remaining, level, before);
    }
    assert level.Keys == byId.Keys;
    r := Waves(waves);
  }

  method NextWave(byId: map<string, Group>, edges: map<string, seq<string>>, ready: seq<string>, wave: seq<Group>,
                  waves0: seq<seq<Group>>, remaining0: map<string, int>, ghost level0: map<string, nat>, ghost before0: set<string>)
    returns (waves: seq<seq<Group>>, remaining: map<string, int>, ghost level: map<string, nat>, ghost before: set<string>)
    requires IsEdges(byId, edges) && Between(byId, waves0, remaining0, level0, before0)
    requires ready != [] && NoRepeat(ready) && forall a :: a in ready <==> a in remaining0 && remaining0[a] == 0
    requires IsWave(byId, wave) && (set i | 0 <= i < |wave| :: wave[i].id) == Elements(ready)
    ensures waves == waves0 + [wave] && Between(byId, waves, remaining, level, before)
    ensures remaining.Keys < remaining0.Keys
  {
    before := level0.Keys;
    remaining := FinishAll(byId, edges, ready, remaining0, before);
    level := ExtendLayers(byId, waves0, level0, wave, before0, Elements(ready));
    waves := waves0 + [wave];
    assert ready[0] in remaining0 && ready[0] !in remaining;
  }

  method MakeWave(byId: map<string, Group>, ready: seq<string>) returns (wave: seq<Group>)
    requires ready != [] && NoRepeat(ready)
    requires forall a :: a in byId ==> byId[a].id == a
    requires forall a :: a in ready ==> a in byId
    ensures IsWave(byId, wave)
    ensures (set i | 0 <= i < |wave| :: wave[i].id) == Elements(ready)
  {
    var names := Sort(ready);
    SortSorted(ready);
    SortMembers(ready);
    SortNoRepeat(ready);
    assert ready[0] in names;
    wave := seq(|names|, i requires 0 <= i < |names| => assert names[i] in names; byId[names[i]]);
    assert forall i :: 0 <= i < |wave| ==> wave[i].id == names[i];
    forall a | a in ready ensures exists i :: 0 <= i < |wave| && wave[i].id == a {
      var i :| 0 <= i < |names| && names[i] == a;
    }
  }

  // ---- cycles ----

  /** A backward walk of `n` steps inside a set where every id has a dependency. */
  lemma {:induction false} BackwardWalk(byId: map<string, Group>, stuck: set<string>, a: string, n: nat)
    returns (p: seq<string>)
    requires Stuck(byId, stuck) && a in stuck
    ensures IsPath(byId, p) && |p| == n + 1 && p[n] == a && forall i :: 0 <= i <= n ==> p[i] in stuck
    decreases n
  {
    if n == 0 {
      p := [a];
    } else {
      assert HasDepIn(byId, a, stuck);
      var d :| d in byId[a].dependsOn && d in stuck;
      var q := BackwardWalk(byId, stuck, d, n - 1);
      p := q + [a];
    }
  }

  lemma {:induction false} Pigeonhole(s: seq<string>, ids: set<string>)
    requires forall i :: 0 <= i < |s| ==> s[i] in ids
    requires |s| > |ids|
    ensures exists i, j :: 0 <= i < j < |s| && s[i] == s[j]
  {
    var n := |s| - 1;
    if i :| 0 <= i < n && s[i] == s[n] {
    } else {
      assert |ids - {s[n]}| == |ids| - 1;
      Pigeonhole(s[..n], ids - {s[n]});
      var i, j :| 0 <= i < j < n && s[..n][i] == s[..n][j];
      assert s[i] == s[j];
    }
  }

  lemma StuckIsBlocked(byId: map<string, Group>, stuck: set<string>, a: string)
    requires Stuck(byId, stuck) && a in stuck
    ensures Blocked(byId, a)
  {
    var p := BackwardWalk(byId, stuck, a, |stuck|);
    Pigeonhole(p, stuck);
    var i, j :| 0 <= i < j < |p| && p[i] == p[j];
    var q := p[i..];
    assert IsPath(byId, q);
    assert q[|q| - 1] == a && 0 < j - i < |q| && q[j - i] == q[0];
  }

  /** Along a path into a finished id everything is finished, and the levels rise. */
  lemma {:induction false} LevelsRise(byId: map<string, Group>, waves: seq<seq<Group>>, level: map<string, nat>, p: seq<string>, i: nat)
    requires Layered(byId, waves, level) && IsPath(byId, p) && i < |p| && p[|p| - 1] in level
    ensures p[i] in level && level[p[i]] + (|p| - 1 - i) <= level[p[|p| - 1]]
    decreases |p| - i
  {
    if i < |p| - 1 {
      LevelsRise(byId, waves, level, p, i + 1);
      assert p[i] in byId[p[i + 1]].dependsOn;
      assert PlacedAt(level, level[p[i + 1]], byId[p[i + 1]].dependsOn);
    }
  }

  lemma FinishedIsNotBlocked(byId: map<string, Group>, waves: seq<seq<Group>>, level: map<string, nat>, a: string)
    requires Layered(byId, waves, level) && a in level
    ensures !Blocked(byId, a)
  {
    if Blocked(byId, a) {
      var p, i :| IsPath(byId, p) && p[|p| - 1] == a && 0 < i < |p| && p[i] == p[0];
      var q := p[..i + 1];
      LevelsRise(byId, waves, level, p, i);
      assert IsPath(byId, q);
      LevelsRise(byId, waves, level, q, 0);
      assert false;
    }
  }

  lemma UnmetIsStuck(byId: map<string, Group>, remaining: map<string, int>, done: set<string>, b: string)
    requires Counts(byId, remaining, done) && b in remaining && remaining[b] != 0
    requires forall d :: d in byId[b].dependsOn ==> d in byId
    ensures HasDepIn(byId, b, remaining.Keys)
  {
    UnmetZero(byId[b].dependsOn, done);
  }

  lemma AllStuck(byId: map<string, Group>, remaining: map<string, int>, done: set<string>)
    requires Counts(byId, remaining, done)
    requires forall a :: a in remaining ==> remaining[a] != 0
    requires forall a, d :: a in byId && d in byId[a].dependsOn ==> d in byId
    ensures Stuck(byId, remaining.Keys)
  {
    CountsKeys(byId, remaining, done);
    hide Counts, HasDepIn;
    forall b | b in remaining ensures HasDepIn(byId, b, remaining.Keys) { UnmetIsStuck(byId, remaining, done, b); }
  }

  /** When nothing is ready, the ids left are exactly the blocked ones. */
  lemma StuckIds(byId: map<string, Group>, waves: seq<seq<Group>>, remaining: map<string, int>, level: map<string, nat>, left: seq<string>)
    requires Layered(byId, waves, level) && Counts(byId, remaining, level.Keys)
    requires forall a :: a in remaining ==> remaining[a] != 0
    requires forall a, d :: a in byId && d in byId[a].dependsOn ==> d in byId
    requires remaining != map[] && NoRepeat(left) && forall a :: a in left <==> a in remaining
    ensures StuckReport(byId, Sort(left))
  {
    hide Layered, Stuck, Counts, Blocked, Sorted, NoRepeat, Unmet, HasDepIn;
    SortSorted(left);
    SortMembers(left);
    SortNoRepeat(left);
    AllStuck(byId, remaining, level.Keys);
    CountsKeys(byId, remaining, level.Keys);
    assert Sort(left) != [] by { var a :| a in remaining; assert a in Sort(left); }
    forall a ensures a in Sort(left) <==> a in byId && Blocked(byId, a) {
      StuckOrFinished(byId, waves, level, remaining.Keys, a);
    }
  }

  lemma StuckOrFinished(byId: map<string, Group>, waves: seq<seq<Group>>, level: map<string, nat>, stuck: set<string>, a: string)
    requires Layered(byId, waves, level) && Stuck(byId, stuck) && stuck == byId.Keys - level.Keys
    ensures a in stuck <==> a in byId && Blocked(byId, a)
  {
    if a in stuck { StuckIsBlocked(byId, stuck, a); }
    else if a in byId { FinishedIsNotBlocked(byId, waves, level, a); }
  }

  /** A wave index is the length of the longest dependency path that ends in the group. */
  lemma {:induction false} LongestPath(byId: map<string, Group>, waves: seq<seq<Group>>, level: map<string, nat>, a: string)
    returns (p: seq<string>)
    requires Layered(byId, waves, level) && a in level
    ensures IsPath(byId, p) && p[|p| - 1] == a && |p| - 1 == level[a]
    ensures forall q :: IsPath(byId, q) && q[|q| - 1] == a ==> |q| - 1 <= level[a]
    decreases level[a]
  {
    forall q | IsPath(byId, q) && q[|q| - 1] == a ensures |q| - 1 <= level[a] {
      LevelsRise(byId, waves, level, q, 0);
    }
    assert PlacedAt(level, level[a], byId[a].dependsOn);
    if level[a] == 0 {
      p := [a];
    } else {
      var d :| d in byId[a].dependsOn && d in level && level[d] == level[a] - 1;
      var q := LongestPath(byId, waves, level, d);
      p := q + [a];
    }
  }

  /** No schedule that respects the dependencies runs any group in an earlier round. */
  lemma {:induction false} Minimal(byId: map<string, Group>, waves: seq<seq<Group>>, level: map<string, nat>,
                                   round: map<string, nat>, a: string)
    requires Layered(byId, waves, level) && a in level && level.Keys == byId.Keys == round.Keys
    requires forall b, d :: b in byId && d in byId[b].dependsOn ==> d in round && round[d] < round[b]
    ensures level[a] <= round[a]
    decreases level[a]
  {
    assert PlacedAt(level, level[a], byId[a].dependsOn);
    if level[a] > 0 {
      var d :| d in byId[a].dependsOn && d in level && level[d] == level[a] - 1;
      Minimal(byId, waves, level, round, d);
    }
  }

  /** The error is raised exactly when the relation has a cycle. */
  lemma CycleIffBlocked(groups: seq<Group>, byId: map<string, Group>, r: Outcome)
    requires DistinctIds(groups) && KnownDeps(groups) && IsIndex(groups, byId)
    requires r.Waves? || r.Cycle?
    requires r.Waves? ==> Schedule(byId, r.waves)
    requires r.Cycle? ==> StuckReport(byId, r.ids)
    ensures r.Cycle? <==> exists p :: IsPath(byId, p) && |p| > 1 && p[0] == p[|p| - 1]
  {
    hide DistinctIds, KnownDeps, IsIndex, Layered, Blocked;
    if r.Cycle? {
      assert r.ids[0] in r.ids;
      BlockedHasCycle(byId, r.ids[0]);
    } else if p :| IsPath(byId, p) && |p| > 1 && p[0] == p[|p| - 1] {
      var level: map<string, nat> :| level.Keys == byId.Keys && Layered(byId, r.waves, level);
      CycleIsBlocked(byId, p);
      FinishedIsNotBlocked(byId, r.waves, level, p[0]);
      assert false;
    }
  }

  lemma BlockedHasCycle(byId: map<string, Group>, a: string)
    requires Blocked(byId, a)
    ensures exists p :: IsPath(byId, p) && |p| > 1 && p[0] == p[|p| - 1]
  {
    var p, i :| IsPath(byId, p) && p[|p| - 1] == a && 0 < i < |p| && p[i] == p[0];
    assert IsPath(byId, p[..i + 1]) && p[..i + 1][0] == p[..i + 1][i];
  }

  lemma CycleIsBlocked(byId: map<string, Group>, p: seq<string>)
    requires IsPath(byId, p) && |p| > 1 && p[0] == p[|p| - 1]
    ensures Blocked(byId, p[0])
  {
    assert 0 < |p| - 1 < |p| && p[|p| - 1] == p[0];
  }
}
