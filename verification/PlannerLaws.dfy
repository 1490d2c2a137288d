/** What an acceptable plan is and what becomes of its tasks, told from the specifications alone. */
module PlannerLaws {
  import opened Prelude
  import opened Contracts
  import opened Graph
  import opened Planner

  // ---- the last segment of a skill name ------------------------------------------------------

  /** ".skill." stands at position `n` of the text. */
  predicate OccursAt(s: string, n: nat) {
    n + 7 <= |s| && s[n..n + 7] == ".skill."
  }

  predicate FirstOccursAt(s: string, n: nat) {
    OccursAt(s, n) && forall k: nat :: k < n ==> !OccursAt(s, k)
  }

  predicate NeverOccurs(s: string) {
    forall k: nat :: k < |s| ==> !OccursAt(s, k)
  }

  function Joined(parts: seq<string>): string {
    if parts == [] then ""
    else if |parts| == 1 then parts[0]
    else parts[0] + ".skill." + Joined(parts[1..])
  }

  /** The text split at ".skill.", from the left. */
  ghost predicate IsSplit(s: string, parts: seq<string>) {
    && parts != [] && Joined(parts) == s && NeverOccurs(parts[|parts| - 1])
    && forall i :: 0 <= i < |parts| - 1 ==> FirstOccursAt(parts[i] + ".skill.", |parts[i]|)
  }

  ghost predicate IsLastSegment(s: string, segment: string) {
    exists parts :: IsSplit(s, parts) && segment == parts[|parts| - 1]
  }

  /** Nothing occurs in the text before `rest`. */
  lemma {:induction false} SplitFrom(s: string, rest: string) returns (parts: seq<string>)
    requires |rest| <= |s| && rest == s[|s| - |rest|..] && forall k: nat :: k < |s| - |rest| ==> !OccursAt(s, k)
    ensures IsSplit(s, parts) && FromSegment(s, rest) == parts[|parts| - 1]
    decreases |rest|
  {
    var n := |s| - |rest|;
    if rest == "" {
      parts := [s];
    } else if StartsWith(rest, SEPARATOR) {
      var tail := rest[7..];
      assert SEPARATOR == ".skill." && s[n..n + 7] == rest[..7];
      var others := SplitFrom(tail, tail);
      parts := [s[..n]] + others;
      assert s == s[..n] + ".skill." + tail;
      CutBefore(s, n);
      OneMorePart(s[..n], tail, others);
    } else {
      if |rest| >= 7 { assert s[n..n + 7] == rest[..7]; }
      parts := SplitFrom(s, rest[1..]);
    }
  }

  lemma CutBefore(s: string, n: nat)
    requires FirstOccursAt(s, n)
    ensures FirstOccursAt(s[..n] + ".skill.", n)
  {
    var cut := s[..n] + ".skill.";
    assert cut == s[..n + 7] by { assert s[..n + 7] == s[..n] + s[n..n + 7]; }
    forall k: nat | k < n ensures !OccursAt(cut, k) {
      assert !OccursAt(s, k) && |cut| == n + 7;
      assert cut[k..k + 7] == s[k..k + 7];
    }
  }

  lemma OneMorePart(first: string, tail: string, others: seq<string>)
    requires IsSplit(tail, others) && FirstOccursAt(first + ".skill.", |first|)
    ensures IsSplit(first + ".skill." + tail, [first] + others)
  {
    var parts := [first] + others;
    assert parts[1..] == others;
    forall i | 0 <= i < |parts| - 1 ensures FirstOccursAt(parts[i] + ".skill.", |parts[i]|) {
      if i > 0 { assert parts[i] == others[i - 1]; }
    }
  }

  /** A known skill runs as itself. An unknown one runs as the only known skill that ends in its last segment. */
  lemma ResolvesMeans(known: set<string>, skill: string, actual: string)
    ensures Resolves(known, skill, actual) <==>
      actual in known && (skill in known ==> actual == skill)
      && (skill !in known ==> OnlyEnding(known, ".skill." + LastSegment(skill), actual))
    ensures IsLastSegment(skill, LastSegment(skill))
  {
    var parts := SplitFrom(skill, skill);
    assert IsSplit(skill, parts);
    var ending := ".skill." + LastSegment(skill);
    forall k | k in known ensures k in Candidates(known, skill) <==> EndsIn(k, ending) { }
    if skill !in known && OnlyEnding(known, ending, actual) { assert Candidates(known, skill) == {actual}; }
    if skill !in known && Candidates(known, skill) == {actual} {
      assert actual in Candidates(known, skill);
      forall k | k in known && EndsIn(k, ending) ensures k == actual { assert k in Candidates(known, skill); }
    }
  }

  predicate EndsIn(s: string, ending: string) {
    exists i :: 0 <= i <= |s| && s[i..] == ending
  }

  predicate OnlyEnding(known: set<string>, ending: string, actual: string) {
    actual in known && EndsIn(actual, ending) && forall k :: k in known && EndsIn(k, ending) ==> k == actual
  }

  // ---- plans -------------------------------------------------------------------------------------

  /** Task `i` of the plan lists task `d` among its dependencies. */
  predicate Lists(specs: seq<TaskSpec>, i: nat, d: nat) {
    i < |specs| && specs[i].dependsOn.Deps? && Index(d) in specs[i].dependsOn.ds
  }

  /** The dependencies are a list of indices of other tasks. */
  predicate ListsTasks(specs: seq<TaskSpec>, i: nat)
    requires i < |specs|
  {
    && specs[i].dependsOn.Deps?
    && forall d :: d in specs[i].dependsOn.ds ==> d != NotAnInteger && 0 <= d.i && d.i < |specs| && d.i != i
  }

  /** The payload is an object with every key that the schema of the skill requires. */
  predicate HasRequired(payload: Json, required: map<string, seq<string>>, skill: string) {
    && payload.Dict?
    && (skill in required ==> forall key :: key in required[skill] ==> NamesKey(payload.entries, key))
  }

  predicate NamesKey(entries: seq<Entry>, key: string) {
    exists k :: 0 <= k < |entries| && entries[k].name == key
  }

  /** The tasks depend on each other in a circle. */
  ghost predicate Circle(specs: seq<TaskSpec>, p: seq<nat>) {
    |p| >= 2 && p[0] == p[|p| - 1] && forall k :: 0 <= k < |p| - 1 ==> Lists(specs, p[k], p[k + 1])
  }

  ghost predicate ValidTask(specs: seq<TaskSpec>, i: nat, known: set<string>, required: map<string, seq<string>>)
    requires i < |specs|
  {
    && ListsTasks(specs, i)
    && exists skill :: Resolves(known, specs[i].skill, skill) && HasRequired(specs[i].payload, required, skill)
  }

  lemma SpecIsValid(specs: seq<TaskSpec>, i: nat, known: set<string>, required: map<string, seq<string>>)
    requires i < |specs|
    ensures SpecOk(specs, i, known, required) <==> ValidTask(specs, i, known, required)
  {
    hide Resolves;
    var payload := specs[i].payload;
    assert DepsOk(specs[i].dependsOn, i, |specs|) <==> ListsTasks(specs, i);
    forall skill ensures PayloadOk(payload, RequiredOf(required, skill)) <==> HasRequired(payload, required, skill) {
      if payload.Dict? {
        forall key ensures HasKey(payload, key) <==> NamesKey(payload.entries, key) { }
      }
    }
    if SpecOk(specs, i, known, required) {
      var skill :| Resolves(known, specs[i].skill, skill) && PayloadOk(payload, RequiredOf(required, skill));
      assert HasRequired(payload, required, skill);
    }
    if ValidTask(specs, i, known, required) {
      var skill :| Resolves(known, specs[i].skill, skill) && HasRequired(payload, required, skill);
      assert PayloadOk(payload, RequiredOf(required, skill));
    }
  }

  /** The dependency graph of the plan has a cycle exactly when its tasks depend on each other in a circle. */
  lemma CyclesAreCircles(specs: seq<TaskSpec>, edges: Edges, p: seq<nat>)
    requires EdgesOf(edges, specs, |specs|)
    ensures IsCycle(edges, p) <==> Circle(specs, p)
  {
    forall u: nat, v: nat ensures v in Succ(edges, u) <==> Lists(specs, u, v) { EdgeIsListed(specs, edges, u, v); }
  }

  lemma EdgeIsListed(specs: seq<TaskSpec>, edges: Edges, u: nat, v: nat)
    requires EdgesOf(edges, specs, |specs|)
    ensures v in Succ(edges, u) <==> Lists(specs, u, v)
  {
    if u < |specs| {
      var ds, next := specs[u].dependsOn.ds, edges[u];
      assert DepsOk(specs[u].dependsOn, u, |specs|) && next == Indices(specs[u].dependsOn, u, |specs|);
      if v in next { var k :| 0 <= k < |next| && next[k] == v; assert ds[k] == Index(v); }
      if Index(v) in ds { var k :| 0 <= k < |ds| && ds[k] == Index(v); assert next[k] == v; }
    }
  }

  /** A plan is acceptable exactly when it has tasks, each of them is valid, and none depend on each other in a
      circle. */
  lemma AcceptableMeans(specs: seq<TaskSpec>, known: set<string>, required: map<string, seq<string>>)
    ensures AcceptablePlan(specs, known, required) <==>
      && specs != [] && (forall i :: 0 <= i < |specs| ==> ValidTask(specs, i, known, required))
      && forall p :: !Circle(specs, p)
  {
    hide SpecOk, ValidTask, Circle, IsCycle, EdgesOf;
    forall i | 0 <= i < |specs| ensures SpecOk(specs, i, known, required) <==> ValidTask(specs, i, known, required) {
      SpecIsValid(specs, i, known, required);
    }
    forall edges, p | EdgesOf(edges, specs, |specs|) ensures IsCycle(edges, p) <==> Circle(specs, p) {
      CyclesAreCircles(specs, edges, p);
    }
    if forall i :: 0 <= i < |specs| ==> ValidTask(specs, i, known, required) {
      var edges := TheEdges(specs, known, required);
      assert (forall p :: !Circle(specs, p)) <==> !HasDirectedCycle(edges);
    }
  }

  lemma TheEdges(specs: seq<TaskSpec>, known: set<string>, required: map<string, seq<string>>) returns (edges: Edges)
    requires forall i :: 0 <= i < |specs| ==> ValidTask(specs, i, known, required)
    ensures EdgesOf(edges, specs, |specs|)
  {
    hide Resolves, HasRequired;
    forall i: nat | i < |specs| ensures DepsOk(specs[i].dependsOn, i, |specs|) {
      assert ValidTask(specs, i, known, required);
    }
    edges := map i: nat | i < |specs| :: Indices(specs[i].dependsOn, i, |specs|);
  }

  /** A task of a translated plan has the project and the payload of its specification, the skill that this resolves
      to, the identifiers of the tasks it lists, in their order, and nothing yet of a run. */
  lemma TaskIsItsSpec(specs: seq<TaskSpec>, first: Uuid, known: set<string>, tasks: map<Uuid, PlannedTask>, i: nat)
    requires TranslatesAll(specs, first, known, tasks) && i < |specs|
    ensures first + i in tasks && specs[i].dependsOn.Deps?
    ensures var task, spec := tasks[first + i], specs[i];
      && task.projectId == spec.projectId && task.payload == spec.payload && Resolves(known, spec.skill, task.skill)
      && task.status == TPending && task.confidence == None && task.result == None && task.error == None
      && task.jobId == None && task.resolved == None && |task.dependsOn| == |spec.dependsOn.ds|
      && forall k :: 0 <= k < |task.dependsOn| ==> Index(task.dependsOn[k] - first) == spec.dependsOn.ds[k]
  {
    hide Resolves;
    assert Translates(specs[i], i, |specs|, first, known, tasks[first + i]);
  }
}
