/** The plan check: the three-colour search for cycles, and the translation of a
    validated plan into tasks. */
module Planner {
  import opened Prelude
  import opened Contracts
  import opened Graph

  datatype Color = White | Grey | Black

  /** What the search knows between two steps: the grey nodes are the path being explored,
      the black ones are finished, dependencies first. */
  ghost predicate SearchState(edges: Edges, color: seq<Color>, path: seq<nat>, done: seq<nat>) {
    && (forall x :: 0 <= x < |color| ==> (color[x] == Grey <==> x in path))
    && (forall x :: 0 <= x < |color| ==> (color[x] == Black <==> x in done))
    && (forall x :: x in path || x in done ==> x < |color|)
    && IsWalk(edges, path)
    && NoDuplicates(done) && Ordered(edges, done)
  }

  function Whites(color: seq<Color>): set<nat> {
    set x: nat | x < |color| && color[x] == White
  }

  lemma CycleFound(edges: Edges, path: seq<nat>, v: nat)
    requires IsWalk(edges, path) && |path| > 0 && v in path && v in Succ(edges, path[|path| - 1])
    ensures HasDirectedCycle(edges)
  {
    var i := IndexOf(path, v);
    var p := path[i..] + [v];
    assert IsCycle(edges, p);
  }

  lemma NodeDone(edges: Edges, color: seq<Color>, path: seq<nat>, u: nat, done: seq<nat>)
    requires u < |color| && SearchState(edges, color, path + [u], done) && u !in path
    requires forall v :: v in Succ(edges, u) ==> v in done
    ensures SearchState(edges, color[u := Black], path, done + [u])
  {
    var order := done + [u];
    assert IsWalk(edges, path) by {
      forall i | 0 <= i < |path| - 1 ensures path[i + 1] in Succ(edges, path[i]) {
        assert (path + [u])[i + 1] in Succ(edges, (path + [u])[i]);
      }
    }
    assert u in path + [u];
    assert color[u] == Grey && u !in done;
    forall i, j | 0 <= i < j < |order| ensures order[i] != order[j] {
      if j < |done| { assert done[i] != done[j]; } else { assert done[i] in done; }
    }
    forall i, v | 0 <= i < |order| && v in Succ(edges, order[i]) ensures v in order[..i] {
      assert order[..i] == if i < |done| then done[..i] else done;
    }
    forall x | 0 <= x < |color| ensures (color[u := Black][x] == Grey <==> x in path)
                                        && (color[u := Black][x] == Black <==> x in order) {
      assert x in path + [u] <==> x in path || x == u;
      assert x in order <==> x in done || x == u;
    }
    forall x | x in path || x in order ensures x < |color| {
      assert x in path ==> x in path + [u];
    }
  }

  method Visit(edges: Edges, color: array<Color>, u: nat, ghost path: seq<nat>, ghost done: seq<nat>)
    returns (cyclic: bool, ghost done': seq<nat>)
    requires InRange(edges, color.Length) && u < color.Length && color[u] == White
    requires SearchState(edges, color[..], path, done) && IsWalk(edges, path + [u])
    modifies color
    ensures cyclic ==> HasDirectedCycle(edges)
    ensures !cyclic ==> SearchState(edges, color[..], path, done') && u in done'
    ensures !cyclic ==> forall x :: x in done ==> x in done'
    ensures !cyclic ==> Whites(color[..]) <= old(Whites(color[..]))
    decreases Whites(color[..])
  {
    done' := done;
    assert u in Whites(color[..]);
    color[u] := Grey;
    assert u !in Whites(color[..]) && Whites(color[..]) < old(Whites(color[..]));
    var next := Succ(edges, u);
    ghost var here := path + [u];
    assert SearchState(edges, color[..], here, done');
    for k := 0 to |next|
      invariant SearchState(edges, color[..], here, done')
      invariant forall x :: x in done || x in next[..k] ==> x in done'
      invariant Whites(color[..]) < old(Whites(color[..]))
    {
      var v := next[k];
      assert v in Succ(edges, here[|here| - 1]);
      if color[v] == Grey {
        CycleFound(edges, here, v);
        return true, done';
      }
      if color[v] == White {
        assert IsWalk(edges, here + [v]);
        cyclic, done' := Visit(edges, color, v, here, done');
        if cyclic { return; }
      }
      assert next[..k + 1] == next[..k] + [v];
    }
    assert next[..|next|] == next;
    NodeDone(edges, color[..], path, u, done');
    color[u] := Black;
    done' := done' + [u];
    cyclic := false;
  }

  /** True exactly when the index graph has a directed cycle. When it has none, the order in
      which nodes were finished is a topological order. */
  method HasCycle(edges: Edges, n: nat) returns (cyclic: bool, ghost order: seq<nat>)
    requires InRange(edges, n)
    ensures cyclic <==> HasDirectedCycle(edges)
    ensures !cyclic ==> IsTopological(edges, n, order)
  {
    var color := new Color[n](_ => White);
    order := [];
    for i := 0 to n
      invariant SearchState(edges, color[..], [], order)
      invariant forall x: nat :: x < i ==> x in order
    {
      if color[i] == White {
        cyclic, order := Visit(edges, color, i, [], order);
        if cyclic { return; }
      }
    }
    cyclic := false;
    assert forall x: nat :: x in order ==> x < n;
    TopologicalMeansAcyclic(edges, n, order);
  }

  // ---- validation and translation ------------------------------------------------

  /** One element of a depends_on list as the model returned it. Python's booleans are integers. */
  datatype RawDep = Index(i: int) | NotAnInteger

  datatype RawDeps = NotAList | Deps(ds: seq<RawDep>)

  /** A task of the flattened plan. */
  datatype TaskSpec = TaskSpec(projectId: Uuid, skill: string, payload: Json, dependsOn: RawDeps)

  datatype PlanError = NoTasks | UnknownSkill(task: nat) | BadPayload(task: nat) | BadDependsOn(task: nat) | Cyclic

  /** Tasks by identifier, and their order of creation. */
  datatype Plan = Plan(order: seq<Uuid>, tasks: map<Uuid, PlannedTask>)

  const SEPARATOR := ".skill."

  predicate StartsWith(s: string, t: string) {
    |t| <= |s| && s[..|t|] == t
  }

  predicate EndsWith(s: string, t: string) {
    |t| <= |s| && s[|s| - |t|..] == t
  }

  /** skill.split(".skill.")[-1] */
  function LastSegment(s: string): string {
    FromSegment(s, s)
  }

  /** `rest` is what remains to be scanned of the segment `current`. */
  function FromSegment(current: string, rest: string): string
    decreases |rest|
  {
    if rest == "" then current
    else if StartsWith(rest, SEPARATOR) then FromSegment(rest[|SEPARATOR|..], rest[|SEPARATOR|..])
    else FromSegment(current, rest[1..])
  }

  /** The known skills that an unknown skill could stand for. */
  function Candidates(known: set<string>, skill: string): set<string> {
    set k | k in known && EndsWith(k, SEPARATOR + LastSegment(skill))
  }

  /** `actual` is the skill that task may run as: its own when that is known, else the only candidate. */
  predicate Resolves(known: set<string>, skill: string, actual: string) {
    if skill in known then actual == skill else Candidates(known, skill) == {actual}
  }

  predicate HasKey(payload: Json, key: string)
    requires payload.Dict?
  {
    exists e :: e in payload.entries && e.name == key
  }

  function RequiredOf(required: map<string, seq<string>>, skill: string): seq<string> {
    if skill in required then required[skill] else []
  }

  predicate PayloadOk(payload: Json, keys: seq<string>) {
    payload.Dict? && forall key :: key in keys ==> HasKey(payload, key)
  }

  predicate DepsOk(deps: RawDeps, i: nat, n: nat) {
    deps.Deps? && forall d :: d in deps.ds ==> d.Index? && 0 <= d.i < n && d.i != i
  }

  ghost predicate SpecOk(specs: seq<TaskSpec>, i: nat, known: set<string>, required: map<string, seq<string>>)
    requires i < |specs|
  {
    exists skill ::
      && Resolves(known, specs[i].skill, skill)
      && PayloadOk(specs[i].payload, RequiredOf(required, skill))
      && DepsOk(specs[i].dependsOn, i, |specs|)
  }

  function Indices(deps: RawDeps, i: nat, n: nat): (r: seq<nat>)
    requires DepsOk(deps, i, n)
    ensures |r| == |deps.ds| && forall k :: 0 <= k < |r| ==> deps.ds[k] == Index(r[k]) && r[k] < n && r[k] != i
  {
    seq(|deps.ds|, k requires 0 <= k < |deps.ds| => assert deps.ds[k] in deps.ds; deps.ds[k].i)
  }

  /** The graph over indices: task i depends on the tasks it lists. */
  ghost predicate EdgesOf(edges: Edges, specs: seq<TaskSpec>, n: nat)
    requires n <= |specs|
  {
    && (forall i: nat :: i in edges <==> i < n)
    && forall i :: 0 <= i < n ==> DepsOk(specs[i].dependsOn, i, |specs|)
                                  && edges[i] == Indices(specs[i].dependsOn, i, |specs|)
  }

  /** Every dependency of a task is a task of the plan, of smaller rank. */
  ghost predicate Ranked(tasks: map<Uuid, PlannedTask>, rank: map<Uuid, nat>) {
    && rank.Keys == tasks.Keys
    && forall t, d :: t in tasks && d in tasks[t].dependsOn ==> d in tasks && rank[d] < rank[t]
  }

  /** Task `i` of the plan is what its specification asks for, with indices replaced by identifiers. */
  predicate Translates(spec: TaskSpec, i: nat, n: nat, first: Uuid, known: set<string>, task: PlannedTask) {
    && Resolves(known, spec.skill, task.skill)
    && DepsOk(spec.dependsOn, i, n)
    && |task.dependsOn| == |spec.dependsOn.ds|
    && (forall k :: 0 <= k < |task.dependsOn| ==> task.dependsOn[k] == first + Indices(spec.dependsOn, i, n)[k])
    && task == NewTask(spec, task.skill).(dependsOn := task.dependsOn)
  }

  /** The tasks carry the identifiers first, first + 1, ..., in the order of their specifications. */
  ghost predicate TranslatesAll(specs: seq<TaskSpec>, first: Uuid, known: set<string>, tasks: map<Uuid, PlannedTask>) {
    && (forall t: Uuid :: t in tasks <==> first <= t < first + |specs|)
    && forall t: Uuid :: t in tasks ==> Translates(specs[t - first], t - first, |specs|, first, known, tasks[t])
  }

  /** Validates one specification; the result is its actual skill. */
  method CheckSpec(spec: TaskSpec, i: nat, n: nat, known: set<string>, required: map<string, seq<string>>)
    returns (r: Result<string, PlanError>)
    ensures r.Ok? ==> Resolves(known, spec.skill, r.value) && PayloadOk(spec.payload, RequiredOf(required, r.value))
                      && DepsOk(spec.dependsOn, i, n)
    ensures r == Err(UnknownSkill(i)) ==> forall s :: !Resolves(known, spec.skill, s)
    ensures r == Err(BadPayload(i)) ==>
      forall s :: Resolves(known, spec.skill, s) ==> !PayloadOk(spec.payload, RequiredOf(required, s))
    ensures r == Err(BadDependsOn(i)) ==> !DepsOk(spec.dependsOn, i, n)
    ensures r.Err? ==> r.error in {UnknownSkill(i), BadPayload(i), BadDependsOn(i)}
  {
    var skill := spec.skill;
    if skill !in known {
      var matches := Candidates(known, skill);
      if |matches| != 1 {
        forall s ensures matches != {s} { assert |{s}| == 1; }
        return Err(UnknownSkill(i));
      }
      skill :| skill in matches;
      assert |matches - {skill}| == 0;
      assert matches == {skill};
    }
    if !PayloadOk(spec.payload, RequiredOf(required, skill)) { return Err(BadPayload(i)); }
    if !DepsOk(spec.dependsOn, i, n) { return Err(BadDependsOn(i)); }
    return Ok(skill);
  }

  /** Every task is valid, and their dependency graph has no directed cycle. */
  ghost predicate AcceptablePlan(specs: seq<TaskSpec>, known: set<string>, required: map<string, seq<string>>) {
    && specs != []
    && (forall i :: 0 <= i < |specs| ==> SpecOk(specs, i, known, required))
    && (forall edges :: EdgesOf(edges, specs, |specs|) ==> !HasDirectedCycle(edges))
  }

  lemma EdgesAreUnique(specs: seq<TaskSpec>, e: Edges, f: Edges)
    requires EdgesOf(e, specs, |specs|) && EdgesOf(f, specs, |specs|)
    ensures e == f
  {
    forall i: nat ensures i in e <==> i in f {}
  }

  /** The tasks of a plan, or the reason to reject it. A plan is accepted exactly when it is acceptable;
      `rank` then orders its tasks with dependencies first. An error names the first invalid task. */
  method PlanTasks(specs: seq<TaskSpec>, known: set<string>, required: map<string, seq<string>>, first: Uuid)
    returns (r: Result<Plan, PlanError>, ghost rank: map<Uuid, nat>)
    ensures r.Ok? <==> AcceptablePlan(specs, known, required)
    ensures r.Err? ==> match r.error
      case NoTasks => specs == []
      case Cyclic => specs != [] && forall i :: 0 <= i < |specs| ==> SpecOk(specs, i, known, required)
      case UnknownSkill(k) => k < |specs| && FirstBad(specs, k, known, required)
                              && forall s :: !Resolves(known, specs[k].skill, s)
      case BadPayload(k) => k < |specs| && FirstBad(specs, k, known, required)
                            && forall s :: Resolves(known, specs[k].skill, s) ==>
                                 !PayloadOk(specs[k].payload, RequiredOf(required, s))
      case BadDependsOn(k) => k < |specs| && FirstBad(specs, k, known, required)
                              && !DepsOk(specs[k].dependsOn, k, |specs|)
    ensures r.Ok? ==>
      && |r.value.order| == |specs|
      && (forall i :: 0 <= i < |specs| ==> r.value.order[i] == first + i)
      && TranslatesAll(specs, first, known, r.value.tasks)
    ensures r.Ok? ==> Ranked(r.value.tasks, rank)
  {
    hide Resolves, DepsOk, PayloadOk, HasDirectedCycle, TranslatesAll;
    rank := map[];
    var n := |specs|;
    var edges: Edges := map[];
    if n == 0 { return Err(NoTasks), rank; }
    var skills: seq<string> := [];
    for i := 0 to n
      invariant |skills| == i
      invariant EdgesOf(edges, specs, i)
      invariant forall k :: 0 <= k < i ==> SpecOk(specs, k, known, required) && Resolves(known, specs[k].skill, skills[k])
    {
      var checked := CheckSpec(specs[i], i, n, known, required);
      if checked.Err? {
        assert !SpecOk(specs, i, known, required);
        return Err(checked.error), rank;
      }
      assert SpecOk(specs, i, known, required);
      skills := skills + [checked.value];
      edges := edges[i := Indices(specs[i].dependsOn, i, n)];
    }
    EdgesInRange(edges, specs);
    var cyclic, order := HasCycle(edges, n);
    forall e | EdgesOf(e, specs, n) ensures e == edges { EdgesAreUnique(specs, e, edges); }
    if cyclic { return Err(Cyclic), rank; }
    var plan := Translate(specs, skills, edges, first, known);
    TopologicalOrderRanks(specs, edges, first, known, plan.tasks, order);
    rank := RankOf(plan.tasks, first, order);
    return Ok(plan), rank;
  }

  lemma EdgesInRange(edges: Edges, specs: seq<TaskSpec>)
    requires EdgesOf(edges, specs, |specs|)
    ensures InRange(edges, |specs|)
  {
  }

  /** Task `k` is the first invalid one. */
  ghost predicate FirstBad(specs: seq<TaskSpec>, k: nat, known: set<string>, required: map<string, seq<string>>)
    requires k < |specs|
  {
    !SpecOk(specs, k, known, required) && forall i :: 0 <= i < k ==> SpecOk(specs, i, known, required)
  }

  /** Creates the tasks, then fills in the identifiers they depend on. */
  method Translate(specs: seq<TaskSpec>, skills: seq<string>, edges: Edges, first: Uuid, ghost known: set<string>)
    returns (plan: Plan)
    requires |skills| == |specs| && EdgesOf(edges, specs, |specs|)
    requires forall k :: 0 <= k < |specs| ==> Resolves(known, specs[k].skill, skills[k])
    ensures |plan.order| == |specs|
    ensures forall i :: 0 <= i < |specs| ==> plan.order[i] == first + i
    ensures TranslatesAll(specs, first, known, plan.tasks)
  {
    hide Resolves, Translates, NewTask;
    var n := |specs|;
    var ids := seq(n, i requires 0 <= i < n => first + i);
    var tasks: map<Uuid, PlannedTask> := NewTasks(specs, skills, first);
    for i := 0 to n
      invariant forall t: Uuid :: t in tasks <==> first <= t < first + n
      invariant forall t: Uuid :: first <= t < first + i ==> Translates(specs[t - first], t - first, n, first, known, tasks[t])
      invariant forall t: Uuid :: first + i <= t < first + n ==> tasks[t] == NewTask(specs[t - first], skills[t - first])
    {
      var deps := edges[i];
      var named := seq(|deps|, k requires 0 <= k < |deps| => first + deps[k]);
      var task := tasks[first + i].(dependsOn := named);
      TaskTranslates(specs[i], i, n, first, known, skills[i], task);
      tasks := tasks[first + i := task];
    }
    plan := Plan(ids, tasks);
  }

  method NewTasks(specs: seq<TaskSpec>, skills: seq<string>, first: Uuid) returns (tasks: map<Uuid, PlannedTask>)
    requires |skills| == |specs|
    ensures forall t: Uuid :: t in tasks <==> first <= t < first + |specs|
    ensures forall t: Uuid :: t in tasks ==> tasks[t] == NewTask(specs[t - first], skills[t - first])
  {
    tasks := map[];
    for i := 0 to |specs|
      invariant forall t: Uuid :: t in tasks <==> first <= t < first + i
      invariant forall t: Uuid :: t in tasks ==> tasks[t] == NewTask(specs[t - first], skills[t - first])
    {
      tasks := tasks[first + i := NewTask(specs[i], skills[i])];
    }
  }

  function NewTask(spec: TaskSpec, skill: string): PlannedTask {
    PlannedTask(spec.projectId, skill, spec.payload, [], TPending, None, None, None, None, None)
  }

  lemma TaskTranslates(spec: TaskSpec, i: nat, n: nat, first: Uuid, known: set<string>, skill: string,
                       task: PlannedTask)
    requires DepsOk(spec.dependsOn, i, n) && Resolves(known, spec.skill, skill)
    requires |task.dependsOn| == |spec.dependsOn.ds|
    requires forall k :: 0 <= k < |task.dependsOn| ==> task.dependsOn[k] == first + Indices(spec.dependsOn, i, n)[k]
    requires task == NewTask(spec, skill).(dependsOn := task.dependsOn)
    ensures Translates(spec, i, n, first, known, task)
  {
  }

  /** The position of each task in a topological order of the indices. */
  function RankOf(tasks: map<Uuid, PlannedTask>, first: Uuid, order: seq<nat>): map<Uuid, nat>
    requires forall t :: t in tasks ==> t >= first && t - first in order
  {
    map t | t in tasks :: IndexOf(order, t - first)
  }

  lemma TopologicalOrderRanks(specs: seq<TaskSpec>, edges: Edges, first: Uuid, known: set<string>,
                              tasks: map<Uuid, PlannedTask>, order: seq<nat>)
    requires EdgesOf(edges, specs, |specs|) && IsTopological(edges, |specs|, order)
    requires TranslatesAll(specs, first, known, tasks)
    ensures forall t :: t in tasks ==> t >= first && t - first in order
    ensures Ranked(tasks, RankOf(tasks, first, order))
  {
    hide Translates, EdgesOf, DepsOk;
    forall t, d | t in tasks && d in tasks[t].dependsOn
      ensures d in tasks && t - first in order && d - first in order
              && IndexOf(order, d - first) < IndexOf(order, t - first)
    {
      DependencyIsEarlier(specs, edges, first, known, tasks, order, t, d);
    }
  }

  lemma DependencyIsEarlier(specs: seq<TaskSpec>, edges: Edges, first: Uuid, known: set<string>,
                            tasks: map<Uuid, PlannedTask>, order: seq<nat>, t: Uuid, d: Uuid)
    requires EdgesOf(edges, specs, |specs|) && IsTopological(edges, |specs|, order)
    requires TranslatesAll(specs, first, known, tasks) && t in tasks && d in tasks[t].dependsOn
    ensures d in tasks && d - first in order && t - first in order
    ensures IndexOf(order, d - first) < IndexOf(order, t - first)
  {
    var i := t - first;
    assert Translates(specs[i], i, |specs|, first, known, tasks[t]);
    var k :| 0 <= k < |tasks[t].dependsOn| && tasks[t].dependsOn[k] == d;
    assert d - first == edges[i][k];
    EdgeGoesBack(edges, order, i, d - first);
  }
}
