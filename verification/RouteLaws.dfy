/** Where a route that policy lets through goes: decided by who is capable and what the agents answer. */
module RouteLaws {
  import opened Prelude
  import opened Routing
  import Policy

  /** The agent is registered for every one of the skills and this origin; no skills, no agent. */
  predicate Able(w: Surroundings, skills: seq<string>, a: Agent) {
    skills != [] && forall i :: 0 <= i < |skills| ==> skills[i] in w.forOrigin && a in w.forOrigin[skills[i]]
  }

  ghost predicate Somebody(w: Surroundings, skills: seq<string>) {
    exists a :: Able(w, skills, a)
  }

  lemma CapableIsAble(w: Surroundings, skills: seq<string>)
    ensures forall a :: Capable(w, skills, a) <==> Able(w, skills, a)
  {
  }

  /** What the confidence of an answer has to meet: the caller's threshold, else the graph's. */
  function Required(c: Setting): real {
    match c.threshold
    case Some(x) => x
    case None => c.completion
  }

  /** The confidence an answer counts with; None when the agent failed. */
  function Measured(answer: Answer): Option<real> {
    match answer
    case Answered(c) => Some(if c.None? then 0.80 else if c.value.None? then 0.0 else c.value.value)
    case _ => None
  }

  /** The failure that an answer leaves. */
  function FailureOf(answer: Answer): Option<Reason> {
    match answer
    case UnknownAgent => Some(AgentFailed("unknown agent"))
    case Raised(text) => Some(AgentFailed(text))
    case SandboxUnavailable => Some(AgentFailed("execution_sandbox_unavailable"))
    case Answered(_) => None
  }

  /** The route visits these nodes from visit `k` on, and ends there. */
  predicate EndsWith(route: seq<Visited>, k: nat, nodes: seq<Node>) {
    |route| == k + |nodes| && forall i :: 0 <= i < |nodes| ==> route[k + i].node == nodes[i]
  }

  /** Visits `k` to `k + 3` match, pick and run an agent. */
  predicate RunsAgent(route: seq<Visited>, k: nat) {
    && |route| > k + 3 && route[k].node == SkillMatch && route[k + 1].node == LoadCheck
    && route[k + 2].node == Assign && route[k + 3].node == Execute
  }

  /** The positions of the skills for which the agent's average is known. */
  function KnownAt(w: Surroundings, required: seq<string>, n: nat, a: Agent): set<nat>
    requires n <= |required|
  {
    set i: nat | i < n && (a, required[i]) in w.averages
  }

  /** The averages at the positions `at`, added up. */
  ghost function Total(w: Surroundings, required: seq<string>, a: Agent, at: set<nat>): real
    requires at <= KnownAt(w, required, |required|, a)
    decreases |at|
  {
    if at != {} then
      var i :| i in at;
      w.averages[(a, required[i])] + Total(w, required, a, at - {i})
    else 0.0
  }

  /** The mean of the agent's known averages over the required skills; 0 when none is known. */
  ghost predicate IsMean(w: Surroundings, required: seq<string>, a: Agent, mean: real) {
    var known := KnownAt(w, required, |required|, a);
    if known == {} then mean == 0.0 else mean * |known| as real == Total(w, required, a, known)
  }

  lemma {:induction false} TotalWithout(w: Surroundings, required: seq<string>, a: Agent, at: set<nat>, i: nat)
    requires at <= KnownAt(w, required, |required|, a) && i in at
    ensures Total(w, required, a, at) == w.averages[(a, required[i])] + Total(w, required, a, at - {i})
    decreases |at|
  {
    var k :| k in at && Total(w, required, a, at) == w.averages[(a, required[k])] + Total(w, required, a, at - {k});
    if k != i {
      TotalWithout(w, required, a, at - {k}, i);
      TotalWithout(w, required, a, at - {i}, k);
      assert at - {i} - {k} == at - {k} - {i};
    }
  }

  lemma OneMoreKnown(w: Surroundings, required: seq<string>, a: Agent, n: nat)
    requires 0 < n <= |required|
    ensures var before, at := KnownAt(w, required, n - 1, a), KnownAt(w, required, n, a);
      && before <= at <= KnownAt(w, required, |required|, a)
      && if (a, required[n - 1]) in w.averages
         then n - 1 in at && at - {n - 1} == before && |at| == |before| + 1 else at == before
  {
    var before, at := KnownAt(w, required, n - 1, a), KnownAt(w, required, n, a);
    if (a, required[n - 1]) in w.averages {
      assert at == before + {n - 1};
    } else {
      assert at == before;
    }
  }

  lemma {:induction false} KnownAddsUp(w: Surroundings, required: seq<string>, a: Agent, n: nat)
    requires n <= |required|
    ensures KnownAt(w, required, n, a) <= KnownAt(w, required, |required|, a)
    ensures var at := KnownAt(w, required, n, a); Known(w, required, n, a) == (Total(w, required, a, at), |at|)
  {
    hide Total, KnownAt;
    if n == 0 {
      NothingTotal(w, required, a);
    } else {
      KnownAddsUp(w, required, a, n - 1);
      OneMoreKnown(w, required, a, n);
      if (a, required[n - 1]) in w.averages {
        TotalWithout(w, required, a, KnownAt(w, required, n, a), n - 1);
      }
    }
  }

  lemma NothingTotal(w: Surroundings, required: seq<string>, a: Agent)
    ensures KnownAt(w, required, 0, a) == {} <= KnownAt(w, required, |required|, a) && Total(w, required, a, {}) == 0.0
  {
  }

  /** The score of an agent is the mean of its known averages over the required skills. */
  lemma ScoreIsTheMean(w: Surroundings, required: seq<string>, a: Agent)
    ensures IsMean(w, required, a, AverageConfidence(w, required, a))
  {
    hide Known, Total, KnownAt;
    KnownAddsUp(w, required, a, |required|);
  }

  /** Why nobody is capable. */
  ghost function NobodyFor(w: Surroundings, skills: seq<string>): Reason {
    if exists i :: 0 <= i < |skills| && (skills[i] !in w.forOrigin || w.forOrigin[skills[i]] == {})
                   && skills[i] in w.forAnyone && w.forAnyone[skills[i]] != {}
    then OriginNotAllowed else NoSkillMatch
  }

  // ---- one visit ----------------------------------------------------------------------------

  lemma Follows(route: seq<Visited>, c: Setting, k: nat)
    requires IsRoute(route, c) && Finished(route, c) && k < |route|
    ensures Effect(route[k].node, route[k].before, route[k].after, c.skills, c.world(k), c.outcome)
    ensures c.After(route[k]) == End ==> |route| == k + 1
    ensures c.After(route[k]) != End ==>
      k + 1 < |route| && route[k + 1].node == c.After(route[k]) && route[k + 1].before == route[k].after
  {
    hide Effect;
    VisitsFollow(route, c, k + 1);
  }

  lemma MatchStep(v: Visited, w: Surroundings, c: Setting)
    requires v.node == SkillMatch && Effect(v.node, v.before, v.after, c.skills, w, c.outcome)
    ensures Somebody(w, c.skills) ==>
      c.After(v) == LoadCheck && v.after.matched != [] && v.after == v.before.(matched := v.after.matched)
    ensures !Somebody(w, c.skills) ==> 
      && c.After(v) == NoAgentFound && v.after.confidence == v.before.confidence
      && v.after.failure == Some(NobodyFor(w, c.skills))
  {
    hide Capable, HasWeights, TotalWeight;
    CapableIsAble(w, c.skills);
  }

  lemma PickStep(v: Visited, w: Surroundings, c: Setting)
    requires v.node == LoadCheck && Effect(v.node, v.before, v.after, c.skills, w, c.outcome) && v.before.matched != []
    ensures c.After(v) == Assign && v.after == v.before.(assignedAgent := v.after.assignedAgent)
  {
    hide AverageConfidence;
  }

  lemma RunStep(v: Visited, w: Surroundings, c: Setting)
    requires v.node == Execute && Effect(v.node, v.before, v.after, c.skills, w, c.outcome)
    requires v.before.threshold == c.threshold
    requires v.before.failure == None
    ensures v.after.threshold == c.threshold && v.after.retryCount == v.before.retryCount
    ensures v.after.failure == FailureOf(w.answer)
    ensures var m := Measured(w.answer);
      && OrZero(v.after.confidence) == OrZero(m)
      && c.After(v) == if m.None? then Escalate else if m.value >= Required(c) then Complete
                       else if m.value >= c.failure then HandleFailure else Escalate
  {
  }

  lemma RetryStep(v: Visited, w: Surroundings, c: Setting)
    requires v.node == HandleFailure && Effect(v.node, v.before, v.after, c.skills, w, c.outcome)
    ensures v.after.threshold == v.before.threshold && v.after.confidence == v.before.confidence
    ensures v.after.failure == v.before.failure
    ensures if v.before.retryCount == 0 && OrZero(v.before.confidence) >= 0.60
      then c.After(v) == SkillMatch && v.after.retryCount == 1
      else c.After(v) == Escalate
  {
  }

  lemma LastStep(v: Visited, w: Surroundings, c: Setting)
    requires v.node in {Escalate, Complete, NoAgentFound} && Effect(v.node, v.before, v.after, c.skills, w, c.outcome)
    ensures c.After(v) == End && v.after.confidence == v.before.confidence && v.after.failure == v.before.failure
    ensures v.after.status == if v.node == Escalate then Escalated else if v.node == Complete then Completed else NoAgent
  {
  }

  // ---- one round ------------------------------------------------------------------------------

  lemma RunsSoFar(route: seq<Visited>, k: nat)
    requires k < |route|
    ensures AgentRuns(route[..k + 1]) == AgentRuns(route[..k]) + if route[k].node == Execute then 1 else 0
  {
    assert route[..k + 1][..k] == route[..k];
  }

  /** What a route ends with. */
  ghost predicate Ended(route: seq<Visited>, status: Status, runs: nat, confidence: real, failure: Option<Reason>) {
    && |route| > 0 && route[|route| - 1].after.failure == failure
    && route[|route| - 1].after.status == status && AgentRuns(route) == runs
    && OrZero(route[|route| - 1].after.confidence) == confidence
  }

  /** The status a route ends with at this node. */
  function StatusAt(node: Node): Status {
    match node
    case Escalate => Escalated
    case Complete => Completed
    case _ => NoAgent
  }

  /** The route is at its last visit. */
  lemma EndsHere(route: seq<Visited>, c: Setting, k: nat)
    requires IsRoute(route, c) && Finished(route, c) && k < |route| && route[k].node in {Escalate, Complete, NoAgentFound}
    ensures |route| == k + 1
    ensures Ended(route, StatusAt(route[k].node), AgentRuns(route[..k]), OrZero(route[k].before.confidence), route[k].before.failure)
  {
    hide Effect, AgentRuns, IsRoute;
    Follows(route, c, k);
    LastStep(route[k], c.world(k), c);
    RunsSoFar(route, k);
    assert route[..k + 1] == route;
  }

  /** From a match on: an agent runs if somebody is capable, otherwise the route ends without an agent. */
  lemma Round(route: seq<Visited>, c: Setting, k: nat)
    requires IsRoute(route, c) && Finished(route, c) && k < |route| && route[k].node == SkillMatch
    requires route[k].before.threshold == c.threshold && route[k].before.failure == None
    ensures Somebody(c.world(k), c.skills) ==>
      && RunsAgent(route, k) && |route| > k + 4 && AgentRuns(route[..k + 4]) == AgentRuns(route[..k]) + 1
      && route[k + 3].after.threshold == c.threshold && route[k + 3].after.retryCount == route[k].before.retryCount
      && route[k + 4].before == route[k + 3].after && route[k + 4].node == c.After(route[k + 3])
      && var m := Measured(c.world(k + 3).answer);
         && OrZero(route[k + 3].after.confidence) == OrZero(m)
         && route[k + 3].after.failure == FailureOf(c.world(k + 3).answer)
         && route[k + 4].node == (if m.None? then Escalate else if m.value >= Required(c) then Complete
                                  else if m.value >= c.failure then HandleFailure else Escalate)
    ensures !Somebody(c.world(k), c.skills) ==>
      EndsWith(route, k, [SkillMatch, NoAgentFound])
      && Ended(route, NoAgent, AgentRuns(route[..k]), OrZero(route[k].before.confidence),
               Some(NobodyFor(c.world(k), c.skills)))
  {
    hide IsRoute, Finished, Effect, AgentRuns, Ended, Somebody;
    Follows(route, c, k);
    MatchStep(route[k], c.world(k), c);
    RunsSoFar(route, k);
    if Somebody(c.world(k), c.skills) {
      Follows(route, c, k + 1);
      PickStep(route[k + 1], c.world(k + 1), c);
      RunsSoFar(route, k + 1);
      Follows(route, c, k + 2);
      AssignStep(route[k + 2], c.world(k + 2), c);
      RunsSoFar(route, k + 2);
      Follows(route, c, k + 3);
      RunStep(route[k + 3], c.world(k + 3), c);
      RunsSoFar(route, k + 3);
    } else {
      EndsHere(route, c, k + 1);
    }
  }

  lemma AssignStep(v: Visited, w: Surroundings, c: Setting)
    requires v.node == Assign && Effect(v.node, v.before, v.after, c.skills, w, c.outcome)
    ensures c.After(v) == Execute && v.after == v.before.(status := Assigned)
  {
  }

  /** How the route goes on after its last agent run, at visit `k`: complete when the answer meets the limit,
      escalated otherwise. */
  ghost predicate Judged(route: seq<Visited>, c: Setting, k: nat, runs: nat) {
    var m := Measured(c.world(k).answer);
    Ended(route, if m.Some? && m.value >= Required(c) then Completed else Escalated, runs, OrZero(m),
          FailureOf(c.world(k).answer))
  }

  /** Worth a second try: the answer misses the limit, but neither the failure threshold nor 0.60. */
  predicate Retried(c: Setting, answer: Answer) {
    var m := Measured(answer);
    m.Some? && m.value < Required(c) && m.value >= c.failure && m.value >= 0.60
  }

  lemma RoundEnds(route: seq<Visited>, c: Setting, k: nat)
    requires IsRoute(route, c) && Finished(route, c) && k < |route| && route[k].node == SkillMatch
    requires route[k].before.threshold == c.threshold && route[k].before.failure == None && Somebody(c.world(k), c.skills)
    requires route[k].before.retryCount > 0 || !Retried(c, c.world(k + 3).answer)
    ensures |route| > k + 3 && Judged(route, c, k + 3, AgentRuns(route[..k]) + 1)
  {
    hide IsRoute, Finished, Effect, AgentRuns, Ended, Somebody;
    Round(route, c, k);
    if route[k + 4].node == HandleFailure {
      Follows(route, c, k + 4);
      RetryStep(route[k + 4], c.world(k + 4), c);
      RunsSoFar(route, k + 4);
      EndsHere(route, c, k + 5);
    } else {
      EndsHere(route, c, k + 4);
    }
  }

  lemma RoundRetries(route: seq<Visited>, c: Setting, k: nat)
    requires IsRoute(route, c) && Finished(route, c) && k < |route| && route[k].node == SkillMatch
    requires route[k].before.threshold == c.threshold && route[k].before.failure == None && Somebody(c.world(k), c.skills)
    requires route[k].before.retryCount == 0 && Retried(c, c.world(k + 3).answer)
    ensures |route| > k + 5 && RunsAgent(route, k) && route[k + 4].node == HandleFailure
    ensures route[k + 5].node == SkillMatch
    ensures route[k + 5].before.threshold == c.threshold && route[k + 5].before.retryCount == 1
    ensures route[k + 5].before.failure == None
    ensures AgentRuns(route[..k + 5]) == AgentRuns(route[..k]) + 1
    ensures OrZero(route[k + 5].before.confidence) == OrZero(Measured(c.world(k + 3).answer))
  {
    hide IsRoute, Finished, Effect, AgentRuns, Ended, Somebody;
    Round(route, c, k);
    Follows(route, c, k + 4);
    RetryStep(route[k + 4], c.world(k + 4), c);
    RunsSoFar(route, k + 4);
  }

  lemma PassedGoesOn(route: seq<Visited>, c: Setting)
    requires IsRoute(route, c) && Finished(route, c) && c.outcome == Policy.Passed
    ensures |route| > 1 && route[0].node == PolicyCheck && route[1].node == SkillMatch
    ensures route[1].before == Initial(c.threshold)
    ensures AgentRuns(route[..1]) == 0
  {
    hide MatchIs, IsFirstBest;
    Follows(route, c, 0);
    RunsSoFar(route, 0);
    assert route[..0] == [];
  }

  /** Main theorem. Where a finished route that passed policy goes and how it ends. Nobody capable at its match:
      it ends without an agent. Otherwise it runs an agent, and ends after this one run, complete exactly when the
      answer meets the limit, unless the answer is worth a second try. Then it matches again, and either ends
      without an agent, or runs an agent a second time and ends by that answer. */
  lemma RouteUnfolds(route: seq<Visited>, c: Setting)
    requires IsRoute(route, c) && Finished(route, c) && c.outcome == Policy.Passed
    ensures !Somebody(c.world(1), c.skills) ==>
      EndsWith(route, 1, [SkillMatch, NoAgentFound]) && Ended(route, NoAgent, 0, 0.0, Some(NobodyFor(c.world(1), c.skills)))
    ensures Somebody(c.world(1), c.skills) ==> RunsAgent(route, 1)
    ensures Somebody(c.world(1), c.skills) && !Retried(c, c.world(4).answer) ==> Judged(route, c, 4, 1)
    ensures Somebody(c.world(1), c.skills) && Retried(c, c.world(4).answer) ==>
      |route| > 6 && route[5].node == HandleFailure && route[6].node == SkillMatch
    ensures Somebody(c.world(1), c.skills) && Retried(c, c.world(4).answer) && Somebody(c.world(6), c.skills) ==>
      RunsAgent(route, 6) && Judged(route, c, 9, 2)
    ensures Somebody(c.world(1), c.skills) && Retried(c, c.world(4).answer) && !Somebody(c.world(6), c.skills) ==>
      EndsWith(route, 6, [SkillMatch, NoAgentFound])
      && Ended(route, NoAgent, 1, OrZero(Measured(c.world(4).answer)), Some(NobodyFor(c.world(6), c.skills)))
  {
    hide IsRoute, Finished, AgentRuns, Somebody, Ended, Retried, Judged;
    PassedGoesOn(route, c);
    Round(route, c, 1);
    if Somebody(c.world(1), c.skills) {
      if Retried(c, c.world(4).answer) {
        RoundRetries(route, c, 1);
        Round(route, c, 6);
        if Somebody(c.world(6), c.skills) { RoundEnds(route, c, 6); }
      } else {
        RoundEnds(route, c, 1);
      }
    }
  }

  // ---- which agent --------------------------------------------------------------------------------

  /** The routing weights of an agent for the skills. */
  function WeightsOf(w: Surroundings, skills: seq<string>, a: Agent): seq<real> {
    seq(|skills|, i requires 0 <= i < |skills| =>
      if skills[i] in w.weights && a in w.weights[skills[i]] then w.weights[skills[i]][a] else 0.0)
  }

  /** Somebody has a routing weight for one of the skills. */
  predicate Weighted(w: Surroundings, skills: seq<string>) {
    exists i :: 0 <= i < |skills| && skills[i] in w.weights && w.weights[skills[i]] != map[]
  }

  lemma {:induction false} WeightsAddUp(w: Surroundings, skills: seq<string>, a: Agent, n: nat)
    requires n <= |skills| && Able(w, skills, a)
    ensures TotalWeight(w, skills, n, a) == Sum(WeightsOf(w, skills, a)[..n])
  {
    if n > 0 {
      WeightsAddUp(w, skills, a, n - 1);
      var xs := WeightsOf(w, skills, a);
      assert xs[..n] == xs[..n - 1] + [xs[n - 1]];
      SumEndsWith(xs[..n - 1], xs[n - 1]);
    } else {
      assert WeightsOf(w, skills, a)[..0] == [];
    }
  }

  lemma AllWeightsAddUp(w: Surroundings, skills: seq<string>, a: Agent)
    requires Able(w, skills, a)
    ensures TotalWeight(w, skills, |skills|, a) == Sum(WeightsOf(w, skills, a))
  {
    WeightsAddUp(w, skills, a, |skills|);
    assert WeightsOf(w, skills, a)[..|skills|] == WeightsOf(w, skills, a);
  }

  /** The first agent is to be preferred: it has the larger value, or the smaller name and the same value. */
  predicate Preferred(a: Agent, x: real, b: Agent, y: real) {
    y < x || (y == x && a <= b)
  }

  /** Of the able agents the one with the largest sum of weights. */
  ghost predicate FavouredByWeight(w: Surroundings, skills: seq<string>, a: Agent) {
    Able(w, skills, a) && forall b :: Able(w, skills, b) ==>
      Preferred(a, Sum(WeightsOf(w, skills, a)), b, Sum(WeightsOf(w, skills, b)))
  }

  /** Of the agents able in `w` the one with the best mean in `later`. */
  ghost predicate FavouredByMean(w: Surroundings, later: Surroundings, skills: seq<string>, a: Agent) {
    Able(w, skills, a) && forall b, x, y :: Able(w, skills, b) && IsMean(later, skills, a, x) && IsMean(later, skills, b, y) ==>
      Preferred(a, x, b, y)
  }

  lemma MeanIsUnique(w: Surroundings, skills: seq<string>, a: Agent, x: real, y: real)
    requires IsMean(w, skills, a, x) && IsMean(w, skills, a, y)
    ensures x == y
  {
    var known := KnownAt(w, skills, |skills|, a);
    if known != {} { Cancel(x, y, |known| as real); }
  }

  lemma Cancel(x: real, y: real, n: real)
    requires n > 0.0 && x * n == y * n
    ensures x == y
  {
    assert (x - y) * n == 0.0;
  }

  /** The agent that a round runs is able when it is matched. With routing weights it is the one they favour,
      without them the one with the best mean of its known averages. */
  lemma RoundRunsTheFavoured(route: seq<Visited>, c: Setting, k: nat)
    requires IsRoute(route, c) && Finished(route, c) && RunsAgent(route, k)
    ensures route[k + 3].before.assignedAgent.Some?
    ensures var a := route[k + 3].before.assignedAgent.value;
      if Weighted(c.world(k), c.skills) then FavouredByWeight(c.world(k), c.skills, a)
      else FavouredByMean(c.world(k), c.world(k + 1), c.skills, a)
  {
    hide IsRoute, Finished, Effect, HasWeights, Weighted, TotalWeight, Capable, Able;
    hide IsMean, AverageConfidence, FavouredByWeight;
    Follows(route, c, k);
    Follows(route, c, k + 1);
    Follows(route, c, k + 2);
    WeightedIs(c.world(k), c.skills);
    MatchedAre(route[k], c.world(k), c);
    var i := PickedIs(route[k + 1], c.world(k + 1), c);
    AssignStep(route[k + 2], c.world(k + 2), c);
    var matched := route[k].after.matched;
    if !Weighted(c.world(k), c.skills) { BestMean(c.world(k), c.world(k + 1), c.skills, matched, i); }
  }

  lemma WeightedIs(w: Surroundings, skills: seq<string>)
    ensures HasWeights(w, skills, |skills|) <==> Weighted(w, skills)
  {
  }

  lemma MatchedAre(v: Visited, w: Surroundings, c: Setting)
    requires v.node == SkillMatch && Effect(v.node, v.before, v.after, c.skills, w, c.outcome) && c.After(v) == LoadCheck
    ensures v.after.matched != [] && forall a :: a in v.after.matched ==> Able(w, c.skills, a)
    ensures HasWeights(w, c.skills, |c.skills|) ==> forall a :: a in v.after.matched ==> FavouredByWeight(w, c.skills, a)
    ensures !HasWeights(w, c.skills, |c.skills|) ==>
      Ascending(v.after.matched) && forall a :: Able(w, c.skills, a) ==> a in v.after.matched
  {
    hide OnlyForOthers, Capable, Able, HasWeights, TotalWeight, Sum, WeightsOf;
    CapableIsAble(w, c.skills);
    forall a | Able(w, c.skills, a)
      ensures TotalWeight(w, c.skills, |c.skills|, a) == Sum(WeightsOf(w, c.skills, a))
    {
      AllWeightsAddUp(w, c.skills, a);
    }
  }

  lemma PickedIs(v: Visited, w: Surroundings, c: Setting) returns (i: nat)
    requires v.node == LoadCheck && Effect(v.node, v.before, v.after, c.skills, w, c.outcome) && v.before.matched != []
    ensures i < |v.before.matched| && IsFirstBest(w, c.skills, v.before.matched, i)
    ensures v.after == v.before.(assignedAgent := Some(v.before.matched[i]))
  {
    hide AverageConfidence;
    i :| IsFirstBest(w, c.skills, v.before.matched, i) && v.after == v.before.(assignedAgent := Some(v.before.matched[i]));
  }

  lemma BestMean(w: Surroundings, later: Surroundings, skills: seq<string>, matched: seq<Agent>, i: nat)
    requires Ascending(matched) && IsFirstBest(later, skills, matched, i)
    requires forall a :: a in matched <==> Able(w, skills, a)
    ensures FavouredByMean(w, later, skills, matched[i])
  {
    hide Able, IsMean, AverageConfidence;
    var a := matched[i];
    forall b, x, y | Able(w, skills, b) && IsMean(later, skills, a, x) && IsMean(later, skills, b, y)
      ensures Preferred(a, x, b, y)
    {
      ScoreIsTheMean(later, skills, a);
      ScoreIsTheMean(later, skills, b);
      MeanIsUnique(later, skills, a, x, AverageConfidence(later, skills, a));
      MeanIsUnique(later, skills, b, y, AverageConfidence(later, skills, b));
      var k :| 0 <= k < |matched| && matched[k] == b;
    }
  }
}
