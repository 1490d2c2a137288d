/** The routing graph: its nodes, its edges, and the loop that runs it. */
module Routing {
  import opened Prelude
  import Policy

  /** Agent identifiers, ordered as their names sort. */
  type Agent = nat

  datatype Node =
    | PolicyCheck | SkillMatch | LoadCheck | Assign | Execute | HandleFailure
    | Escalate | Complete | NoAgentFound | End

  datatype Status = Routing | Assigned | Executed | ExecutionFailed | Completed | Escalated | NoAgent

  datatype Reason =
    | PolicyDenied | PolicyRequiresReview | NoSkillMatch | OriginNotAllowed | NoAgentsAvailable
    | AgentFailed(text: string)

  datatype State = State(
    status: Status,
    matched: seq<Agent>,
    assignedAgent: Option<Agent>,
    confidence: Option<real>,
    threshold: Option<real>,
    retryCount: nat,
    failure: Option<Reason>,
    escalatedToHuman: bool)

  /** What one visit to a node may meet: the registry, the routing weights, and the answer of the agent. */
  datatype Surroundings = Surroundings(
    forOrigin: map<string, set<Agent>>,
    forAnyone: map<string, set<Agent>>,
    weights: map<string, map<Agent, real>>,
    averages: map<(Agent, string), real>,
    answer: Answer)

  /** `Answered(None)` is an answer without a confidence entry, `Answered(Some(None))` one with None. */
  datatype Answer =
    | UnknownAgent
    | Raised(text: string)
    | SandboxUnavailable
    | Answered(confidence: Option<Option<real>>)

  const RETRY_CONFIDENCE := 0.60
  const UNSTATED_CONFIDENCE := 0.80

  // ---- skill match --------------------------------------------------------------

  function AgentsFor(skills: map<string, set<Agent>>, skill: string): set<Agent> {
    if skill in skills then skills[skill] else {}
  }

  /** The agents that have every required skill; none when nothing is required. */
  ghost predicate Capable(w: Surroundings, required: seq<string>, a: Agent) {
    required != [] && forall i :: 0 <= i < |required| ==> a in AgentsFor(w.forOrigin, required[i])
  }

  function WeightOf(w: Surroundings, skill: string, a: Agent): real {
    if skill in w.weights && a in w.weights[skill] then w.weights[skill][a] else 0.0
  }

  /** The weights of the first `n` skills for an agent that has them. */
  function TotalWeight(w: Surroundings, required: seq<string>, n: nat, a: Agent): real
    requires n <= |required|
  {
    if n == 0 then 0.0
    else
      var skill := required[n - 1];
      TotalWeight(w, required, n - 1, a) + if a in AgentsFor(w.forOrigin, skill) then WeightOf(w, skill, a) else 0.0
  }

  predicate HasWeights(w: Surroundings, required: seq<string>, n: nat)
    requires n <= |required|
  {
    exists i :: 0 <= i < n && required[i] in w.weights && w.weights[required[i]] != map[]
  }

  predicate Ascending(s: seq<Agent>) {
    forall i, k :: 0 <= i < k < |s| ==> s[i] < s[k]
  }

  function ScoreIn(scores: map<Agent, real>, a: Agent): real {
    if a in scores then scores[a] else 0.0
  }

  datatype Match = Match(agents: seq<Agent>, blocked: bool)

  /** The skill has agents, but none that may serve this origin. */
  predicate OnlyForOthers(w: Surroundings, skill: string) {
    AgentsFor(w.forOrigin, skill) == {} && AgentsFor(w.forAnyone, skill) != {}
  }

  /** With routing weights the best-weighted capable agent, the first by name among equals; without them
      every capable agent, by name. */
  ghost predicate MatchIs(w: Surroundings, required: seq<string>, m: Match) {
    && (m.blocked <==> exists i :: 0 <= i < |required| && OnlyForOthers(w, required[i]))
    && (forall a :: a in m.agents ==> Capable(w, required, a))
    && (m.agents == [] <==> forall a :: !Capable(w, required, a))
    && (!HasWeights(w, required, |required|) ==>
          Ascending(m.agents) && forall a :: Capable(w, required, a) ==> a in m.agents)
    && (HasWeights(w, required, |required|) && m.agents != [] ==>
          |m.agents| == 1 && forall a :: Capable(w, required, a) ==>
            || TotalWeight(w, required, |required|, a) < TotalWeight(w, required, |required|, m.agents[0])
            || (TotalWeight(w, required, |required|, a) == TotalWeight(w, required, |required|, m.agents[0]) && m.agents[0] <= a))
  }

  method MatchSkills(w: Surroundings, required: seq<string>) returns (m: Match)
    ensures MatchIs(w, required, m)
  {
    hide TotalWeight;
    var capable: set<Agent> := {};
    var scores: map<Agent, real> := map[];
    var weighted, blocked := false, false;
    NoScoreYet(w, required);
    for i := 0 to |required|
      invariant blocked <==> exists k :: 0 <= k < i && OnlyForOthers(w, required[k])
      invariant weighted == HasWeights(w, required, i)
      invariant forall a :: a in capable <==> i > 0 && forall k :: 0 <= k < i ==> a in AgentsFor(w.forOrigin, required[k])
      invariant forall a :: ScoreIn(scores, a) == TotalWeight(w, required, i, a)
    {
      var skill := required[i];
      var agents := AgentsFor(w.forOrigin, skill);
      if OnlyForOthers(w, skill) { blocked := true; }
      capable := if i == 0 then agents else capable * agents;
      var earlier := scores;
      if skill in w.weights && w.weights[skill] != map[] {
        weighted := true;
        scores := map a | a in earlier.Keys + agents ::
          if a in agents then ScoreIn(earlier, a) + WeightOf(w, skill, a) else ScoreIn(earlier, a);
      }
      ScoresAdd(w, required, i, earlier, scores);
    }
    assert forall a :: a in capable <==> Capable(w, required, a);
    if capable == {} { return Match([], blocked); }
    if weighted {
      var best := BestWeighted(capable, scores);
      return Match([best], blocked);
    }
    var agents := SortedAgents(capable);
    assert agents[0] in capable;
    return Match(agents, blocked);
  }

  lemma NoScoreYet(w: Surroundings, required: seq<string>)
    ensures forall a :: TotalWeight(w, required, 0, a) == 0.0
  {
  }

  lemma ScoresAdd(w: Surroundings, required: seq<string>, i: nat, before: map<Agent, real>, after: map<Agent, real>)
    requires i < |required| && forall a :: ScoreIn(before, a) == TotalWeight(w, required, i, a)
    requires var agents := AgentsFor(w.forOrigin, required[i]);
      if required[i] in w.weights && w.weights[required[i]] != map[]
      then after == map a | a in before.Keys + agents ::
             if a in agents then ScoreIn(before, a) + WeightOf(w, required[i], a) else ScoreIn(before, a)
      else after == before
    ensures forall a :: ScoreIn(after, a) == TotalWeight(w, required, i + 1, a)
  {
  }

  /** max(sorted(capable), key=...): the largest score, the smallest name among equals. */
  method BestWeighted(capable: set<Agent>, scores: map<Agent, real>) returns (best: Agent)
    requires capable != {}
    ensures best in capable && forall a :: a in capable ==>
      ScoreIn(scores, a) < ScoreIn(scores, best) || (ScoreIn(scores, a) == ScoreIn(scores, best) && best <= a)
  {
    best :| best in capable;
    var todo := capable - {best};
    while todo != {}
      invariant todo <= capable && best in capable
      invariant forall a :: a in capable && a !in todo ==>
        ScoreIn(scores, a) < ScoreIn(scores, best) || (ScoreIn(scores, a) == ScoreIn(scores, best) && best <= a)
      decreases |todo|
    {
      var a :| a in todo;
      todo := todo - {a};
      if ScoreIn(scores, a) > ScoreIn(scores, best) || (ScoreIn(scores, a) == ScoreIn(scores, best) && a < best) { best := a; }
    }
  }

  method SortedAgents(agents: set<Agent>) returns (s: seq<Agent>)
    ensures Ascending(s) && forall a :: a in s <==> a in agents
    ensures s == [] <==> agents == {}
  {
    s := [];
    var rest := agents;
    while rest != {}
      invariant rest <= agents && Ascending(s)
      invariant forall a :: a in agents <==> a in rest || a in s
      invariant forall i, a :: 0 <= i < |s| && a in rest ==> s[i] < a
      decreases |rest|
    {
      var least := Least(rest);
      rest := rest - {least};
      s := s + [least];
    }
    assert s != [] ==> s[0] in agents;
    assert s == [] ==> agents == {} by { if s == [] { assert forall a :: a in agents ==> a in s; } }
  }

  method Least(agents: set<Agent>) returns (least: Agent)
    requires agents != {}
    ensures least in agents && forall a :: a in agents ==> least <= a
  {
    least :| least in agents;
    var todo := agents - {least};
    while todo != {}
      invariant todo <= agents && least in agents
      invariant forall a :: a in agents && a !in todo ==> least <= a
      decreases |todo|
    {
      var a :| a in todo;
      todo := todo - {a};
      if a < least { least := a; }
    }
  }

  // ---- load check -----------------------------------------------------------------

  /** The known averages of an agent for the first `n` required skills, added up, and how many there are. */
  function Known(w: Surroundings, required: seq<string>, n: nat, a: Agent): (real, nat)
    requires n <= |required|
  {
    if n == 0 then (0.0, 0)
    else
      var before := Known(w, required, n - 1, a);
      if (a, required[n - 1]) in w.averages then (before.0 + w.averages[(a, required[n - 1])], before.1 + 1) else before
  }

  /** _score_agent_for_skills: the mean of the known averages, 0 when none is known. */
  function AverageConfidence(w: Surroundings, required: seq<string>, a: Agent): real {
    var k := Known(w, required, |required|, a);
    if k.1 == 0 then 0.0 else k.0 / k.1 as real
  }

  /** No agent scores better than the one at `i`, and none before it as well. */
  ghost predicate IsFirstBest(w: Surroundings, required: seq<string>, matched: seq<Agent>, i: nat) {
    && i < |matched|
    && (forall k :: 0 <= k < |matched| ==>
          AverageConfidence(w, required, matched[k]) <= AverageConfidence(w, required, matched[i]))
    && (forall k :: 0 <= k < i ==> AverageConfidence(w, required, matched[k]) < AverageConfidence(w, required, matched[i]))
  }

  /** The first agent with the best score. */
  method SelectAgent(w: Surroundings, required: seq<string>, matched: seq<Agent>) returns (selected: Agent)
    requires matched != []
    ensures exists i: nat :: IsFirstBest(w, required, matched, i) && matched[i] == selected
  {
    hide AverageConfidence;
    var best := 0;
    for k := 1 to |matched|
      invariant 0 <= best < k
      invariant forall j :: 0 <= j < k ==>
        AverageConfidence(w, required, matched[j]) <= AverageConfidence(w, required, matched[best])
      invariant forall j :: 0 <= j < best ==>
        AverageConfidence(w, required, matched[j]) < AverageConfidence(w, required, matched[best])
    {
      if AverageConfidence(w, required, matched[k]) > AverageConfidence(w, required, matched[best]) { best := k; }
    }
    assert IsFirstBest(w, required, matched, best);
    selected := matched[best];
  }

  // ---- the other nodes ---------------------------------------------------------------

  function OrZero(c: Option<real>): real {
    if c.Some? then c.value else 0.0
  }

  /** _execute_node: an agent that is unknown, raises or could not be verified has failed. */
  function Execution(s: State, answer: Answer): State {
    match answer
    case UnknownAgent => s.(status := ExecutionFailed, failure := Some(AgentFailed("unknown agent")), confidence := Some(0.0))
    case Raised(text) => s.(status := ExecutionFailed, failure := Some(AgentFailed(text)), confidence := Some(0.0))
    case SandboxUnavailable =>
      s.(status := ExecutionFailed, failure := Some(AgentFailed("execution_sandbox_unavailable")), confidence := Some(0.0))
    case Answered(c) => s.(status := Executed, confidence := if c.Some? then c.value else Some(UNSTATED_CONFIDENCE))
  }

  function HandleFailureNode(s: State): State {
    if s.retryCount < 1 && OrZero(s.confidence) >= RETRY_CONFIDENCE
    then s.(retryCount := s.retryCount + 1, status := Routing)
    else s.(escalatedToHuman := true, status := Escalated)
  }

  function Threshold(s: State, completion: real): real {
    if s.threshold.Some? then s.threshold.value else completion
  }

  // ---- the edges ------------------------------------------------------------------------

  /** The edge selectors, applied to the state a node has left. */
  function Next(node: Node, s: State, completion: real, failure: real): Node {
    match node
    case PolicyCheck =>
      if s.failure == Some(PolicyDenied) then NoAgentFound
      else if s.failure == Some(PolicyRequiresReview) then Escalate else SkillMatch
    case SkillMatch => if s.matched != [] then LoadCheck else if s.status == NoAgent then NoAgentFound else Escalate
    case LoadCheck => if s.assignedAgent.Some? then Assign else if s.status == NoAgent then NoAgentFound else Escalate
    case Assign => Execute
    case Execute =>
      if s.status == ExecutionFailed then Escalate
      else if OrZero(s.confidence) >= Threshold(s, completion) then Complete
      else if OrZero(s.confidence) >= failure then HandleFailure
      else Escalate
    case HandleFailure => if s.status == Routing then SkillMatch else Escalate
    case _ => End
  }

  /** How many visits are left at most when a node is about to be visited: a first failure may send the
      task round once more, a second one may not. */
  function VisitsLeft(node: Node, retryCount: nat): nat {
    var again := if retryCount == 0 then 5 else 0;
    match node
    case PolicyCheck => 7 + again
    case SkillMatch => 6 + again
    case LoadCheck => 5 + again
    case Assign => 4 + again
    case Execute => 3 + again
    case HandleFailure => 2 + again
    case End => 0
    case _ => 1
  }

  function RunsLeft(node: Node, retryCount: nat): nat {
    match node
    case HandleFailure => if retryCount == 0 then 1 else 0
    case Escalate => 0
    case Complete => 0
    case NoAgentFound => 0
    case End => 0
    case _ => if retryCount == 0 then 2 else 1
  }

  // ---- routes: runs of the graph ------------------------------------------------------------

  /** What the policy node makes of its outcome. */
  function Checked(s: State, outcome: Policy.Outcome): State {
    match outcome
    case Passed => s
    case Denied(_) => s.(failure := Some(PolicyDenied))
    case Held(_, _) => s.(failure := Some(PolicyRequiresReview))
  }

  function Matched(s: State, m: Match): State {
    if m.agents == []
    then s.(matched := [], status := NoAgent, failure := Some(if m.blocked then OriginNotAllowed else NoSkillMatch))
    else s.(matched := m.agents)
  }

  ghost predicate Selected(s: State, s': State, w: Surroundings, skills: seq<string>) {
    if s.matched == [] then s' == s.(status := NoAgent, failure := Some(NoAgentsAvailable))
    else exists i: nat :: IsFirstBest(w, skills, s.matched, i) && s' == s.(assignedAgent := Some(s.matched[i]))
  }

  /** What a visit to `node` may make of state `s`, given what it meets and what policy decided. */
  ghost predicate Effect(node: Node, s: State, s': State, skills: seq<string>, w: Surroundings, outcome: Policy.Outcome) {
    match node
    case PolicyCheck => s' == Checked(s, outcome)
    case SkillMatch => exists m :: MatchIs(w, skills, m) && s' == Matched(s, m)
    case LoadCheck => Selected(s, s', w, skills)
    case Assign => s' == s.(status := Assigned)
    case Execute => s' == Execution(s, w.answer)
    case HandleFailure => s' == HandleFailureNode(s)
    case Escalate => s' == s.(status := Escalated, escalatedToHuman := true)
    case Complete => s' == s.(status := Completed)
    case NoAgentFound => s' == s.(status := NoAgent)
    case End => s' == s
  }

  datatype Visited = Visited(node: Node, before: State, after: State)

  /** What a route is about: the task, what its visits meet, and the thresholds of the graph. */
  datatype Setting = Setting(
    skills: seq<string>,
    threshold: Option<real>,
    world: nat -> Surroundings,
    outcome: Policy.Outcome,
    completion: real,
    failure: real)
  {
    function Limit(): real {
      if threshold.Some? then threshold.value else completion
    }

    function After(v: Visited): Node {
      Next(v.node, v.after, completion, failure)
    }
  }

  function Initial(threshold: Option<real>): State {
    State(Routing, [], None, None, threshold, 0, None, false)
  }

  /** A route, finished or not: it enters at the policy node, every visit has the effect of its node, and
      the edges lead from one visit to the next. */
  ghost predicate IsRoute(route: seq<Visited>, c: Setting) {
    && (route != [] ==> route[0].node == PolicyCheck && route[0].before == Initial(c.threshold))
    && (forall k :: 0 <= k < |route| ==>
          Effect(route[k].node, route[k].before, route[k].after, c.skills, c.world(k), c.outcome))
    && (forall k :: 0 < k < |route| ==>
          route[k].node == c.After(route[k - 1]) && route[k].node != End && route[k].before == route[k - 1].after)
  }

  lemma RouteBegins(v: Visited, c: Setting)
    requires v.node == PolicyCheck && v.before == Initial(c.threshold)
    requires Effect(v.node, v.before, v.after, c.skills, c.world(0), c.outcome)
    ensures IsRoute([v], c)
  {
    hide Effect;
  }

  lemma RouteGoesOn(route: seq<Visited>, v: Visited, c: Setting)
    requires IsRoute(route, c) && route != []
    requires v.node == c.After(route[|route| - 1]) && v.node != End && v.before == route[|route| - 1].after
    requires Effect(v.node, v.before, v.after, c.skills, c.world(|route|), c.outcome)
    ensures IsRoute(route + [v], c)
  {
    hide Effect;
  }

  predicate Finished(route: seq<Visited>, c: Setting) {
    route != [] && c.After(route[|route| - 1]) == End
  }

  function AgentRuns(route: seq<Visited>): nat {
    if route == [] then 0 else AgentRuns(route[..|route| - 1]) + if route[|route| - 1].node == Execute then 1 else 0
  }

  lemma EffectKeeps(node: Node, s: State, s': State, skills: seq<string>, w: Surroundings, outcome: Policy.Outcome)
    requires Effect(node, s, s', skills, w, outcome)
    ensures s'.threshold == s.threshold
    ensures s'.retryCount == if node == HandleFailure then HandleFailureNode(s).retryCount else s.retryCount
  {
    hide MatchIs, IsFirstBest;
  }

  /** Each visit uses up what is left. */
  lemma NextHasLessLeft(v: Visited, skills: seq<string>, w: Surroundings, outcome: Policy.Outcome, c: Setting)
    requires Effect(v.node, v.before, v.after, skills, w, outcome) && v.node != End
    ensures VisitsLeft(c.After(v), v.after.retryCount) < VisitsLeft(v.node, v.before.retryCount)
    ensures RunsLeft(c.After(v), v.after.retryCount) + (if v.node == Execute then 1 else 0)
            <= RunsLeft(v.node, v.before.retryCount)
  {
    hide MatchIs, IsFirstBest;
    EffectKeeps(v.node, v.before, v.after, skills, w, outcome);
  }

  lemma {:induction false} RouteUsesUp(route: seq<Visited>, c: Setting)
    requires IsRoute(route, c) && route != []
    ensures var last := route[|route| - 1];
      && last.after.threshold == c.threshold && last.node != End
      && |route| + VisitsLeft(c.After(last), last.after.retryCount) <= 12
      && AgentRuns(route) + RunsLeft(c.After(last), last.after.retryCount) <= 2
    decreases |route|
  {
    hide Effect;
    var n := |route| - 1;
    var last := route[n];
    assert Effect(last.node, last.before, last.after, c.skills, c.world(n), c.outcome);
    EffectKeeps(last.node, last.before, last.after, c.skills, c.world(n), c.outcome);
    NextHasLessLeft(last, c.skills, c.world(n), c.outcome, c);
    if n == 0 {
      assert route[..0] == [];
    } else {
      assert IsRoute(route[..n], c);
      RouteUsesUp(route[..n], c);
    }
  }

  /** Main theorem. No route, whatever the registry and the agents answer, has more than 12 visits or runs
      an agent more than twice. */
  lemma RoutesAreShort(route: seq<Visited>, c: Setting)
    requires IsRoute(route, c)
    ensures |route| <= 12 && AgentRuns(route) <= 2
  {
    if route != [] { RouteUsesUp(route, c); }
  }

  /** The visit before the last ran an agent that answered with a confidence that meets the threshold. */
  ghost predicate LastRunSucceeded(route: seq<Visited>, c: Setting) {
    && |route| >= 2 && route[|route| - 2].node == Execute
    && c.world(|route| - 2).answer.Answered?
    && OrZero(Execution(route[|route| - 2].before, c.world(|route| - 2).answer).confidence) >= c.Limit()
  }

  /** The last two visits of a finished route. */
  lemma LastVisits(u: Visited, v: Visited, w: Surroundings, w': Surroundings, c: Setting)
    requires Effect(u.node, u.before, u.after, c.skills, w, c.outcome) && Effect(v.node, v.before, v.after, c.skills, w', c.outcome)
    requires v.before == u.after && v.node == c.After(u) && v.node != End && c.After(v) == End
    requires u.after.threshold == c.threshold
    ensures v.after.status in {Completed, Escalated, NoAgent}
    ensures v.after.status == Completed <==>
      u.node == Execute && w.answer.Answered? && OrZero(Execution(u.before, w.answer).confidence) >= c.Limit()
  {
    hide MatchIs, IsFirstBest;
  }

  /** Main theorem. A finished route ends complete, escalated or without an agent, and it ends complete
      exactly when its last agent run succeeded and met the caller's threshold. */
  lemma RouteEndings(route: seq<Visited>, c: Setting)
    requires IsRoute(route, c) && Finished(route, c)
    ensures var final := route[|route| - 1].after;
      && final.status in {Completed, Escalated, NoAgent}
      && (final.status == Completed <==> LastRunSucceeded(route, c))
  {
    hide Effect;
    var n := |route| - 1;
    assert Effect(route[n].node, route[n].before, route[n].after, c.skills, c.world(n), c.outcome);
    assert n > 0;
    assert Effect(route[n - 1].node, route[n - 1].before, route[n - 1].after, c.skills, c.world(n - 1), c.outcome);
    assert IsRoute(route[..n], c);
    RouteUsesUp(route[..n], c);
    LastVisits(route[n - 1], route[n], c.world(n - 1), c.world(n), c);
  }

  lemma VisitsFollow(route: seq<Visited>, c: Setting, k: nat)
    requires IsRoute(route, c) && k > 0
    ensures k < |route| ==> route[k].node == c.After(route[k - 1]) && route[k].node != End
  {
    hide Effect;
  }

  lemma RouteStops(route: seq<Visited>, c: Setting, k: nat)
    requires IsRoute(route, c) && k < |route| && c.After(route[k]) == End
    ensures |route| == k + 1
  {
    hide Effect;
    VisitsFollow(route, c, k + 1);
  }

  lemma PolicyDecides(u: Visited, w: Surroundings, c: Setting)
    requires u.node == PolicyCheck && Effect(u.node, u.before, u.after, c.skills, w, c.outcome) && c.outcome != Policy.Passed
    ensures c.After(u) == if c.outcome.Denied? then NoAgentFound else Escalate
  {
    hide MatchIs, IsFirstBest;
  }

  lemma EndingVisit(v: Visited, w: Surroundings, c: Setting)
    requires (v.node == NoAgentFound || v.node == Escalate) && Effect(v.node, v.before, v.after, c.skills, w, c.outcome)
    ensures c.After(v) == End && v.after.status == if v.node == NoAgentFound then NoAgent else Escalated
  {
    hide MatchIs, IsFirstBest;
  }

  /** Main theorem. A denied route goes straight to its end without an agent, a held one straight to
      escalation; neither runs an agent. */
  lemma PolicyStopsRoutes(route: seq<Visited>, c: Setting)
    requires IsRoute(route, c) && Finished(route, c) && c.outcome != Policy.Passed
    ensures |route| == 2 && AgentRuns(route) == 0
    ensures route[1].node == if c.outcome.Denied? then NoAgentFound else Escalate
    ensures route[1].after.status == if c.outcome.Denied? then NoAgent else Escalated
  {
    hide Effect;
    assert Effect(route[0].node, route[0].before, route[0].after, c.skills, c.world(0), c.outcome);
    PolicyDecides(route[0], c.world(0), c);
    assert |route| > 1;
    assert Effect(route[1].node, route[1].before, route[1].after, c.skills, c.world(1), c.outcome);
    EndingVisit(route[1], c.world(1), c);
    RouteStops(route, c, 1);
    NoAgentRuns(route);
  }

  lemma {:induction false} NoAgentRuns(route: seq<Visited>)
    requires forall k :: 0 <= k < |route| ==> route[k].node != Execute
    ensures AgentRuns(route) == 0
    decreases |route|
  {
    if route != [] { NoAgentRuns(route[..|route| - 1]); }
  }

  /** A second agent run happens only after a first one that answered with a confidence of at least 0.60,
      short of the threshold. */
  lemma SecondRunIsARetry(route: seq<Visited>, c: Setting, k: nat)
    requires IsRoute(route, c) && k < |route| && route[k].node == Execute && AgentRuns(route[..k]) >= 1
    ensures exists i: nat ::
      && i + 1 < k && route[i].node == Execute && route[i + 1].node == HandleFailure
      && c.world(i).answer.Answered?
      && RETRY_CONFIDENCE <= OrZero(route[i].after.confidence) < c.Limit()
  {
    hide Effect, AgentRuns;
    assert k > 0 by { NoRunsYet(route); }
    assert IsRoute(route[..k], c);
    RouteUsesUp(route[..k], c);
    RetryFollowsARun(route, c, k);
  }

  lemma NoRunsYet(route: seq<Visited>)
    ensures AgentRuns(route[..0]) == 0
  {
  }

  /** A retry is counted only after such a run. */
  lemma {:induction false} RetryFollowsARun(route: seq<Visited>, c: Setting, k: nat)
    requires IsRoute(route, c) && k < |route| && route[k].before.retryCount > 0
    ensures exists i: nat ::
      && i + 1 < k && route[i].node == Execute && route[i + 1].node == HandleFailure
      && c.world(i).answer.Answered?
      && RETRY_CONFIDENCE <= OrZero(route[i].after.confidence) < c.Limit()
    decreases k
  {
    hide MatchIs, IsFirstBest, Effect;
    var v := route[k - 1];
    assert Effect(v.node, v.before, v.after, c.skills, c.world(k - 1), c.outcome);
    EffectKeeps(v.node, v.before, v.after, c.skills, c.world(k - 1), c.outcome);
    if v.before.retryCount > 0 {
      RetryFollowsARun(route, c, k - 1);
    } else {
      RetryComesFrom(route, c, k - 1);
    }
  }

  lemma RetryComesFrom(route: seq<Visited>, c: Setting, i: nat)
    requires IsRoute(route, c) && 0 < i < |route| && route[i].node == HandleFailure
    requires route[i].before.retryCount == 0 && route[i].after.retryCount > 0
    ensures route[i - 1].node == Execute && c.world(i - 1).answer.Answered?
    ensures RETRY_CONFIDENCE <= OrZero(route[i - 1].after.confidence) < c.Limit()
  {
    hide MatchIs, IsFirstBest;
    assert Effect(route[i].node, route[i].before, route[i].after, c.skills, c.world(i), c.outcome);
    assert Effect(route[i - 1].node, route[i - 1].before, route[i - 1].after, c.skills, c.world(i - 1), c.outcome);
    assert IsRoute(route[..i], c);
    RouteUsesUp(route[..i], c);
  }

  // ---- the router -------------------------------------------------------------------------

  class Andromeda {
    const rules: seq<Policy.Rule>
    const glob: Policy.Glob
    const grants: Policy.GrantStore
    const completion: real
    const failure: real

    constructor (rules: seq<Policy.Rule>, glob: Policy.Glob, grants: Policy.GrantStore, completion: real, failure: real)
      ensures this.rules == rules && this.glob == glob && this.grants == grants
      ensures this.completion == completion && this.failure == failure
    {
      this.rules, this.glob, this.grants := rules, glob, grants;
      this.completion, this.failure := completion, failure;
    }

    /** One visit. Only the policy node touches the grants. */
    method Visit(node: Node, s: State, request: Policy.Request, w: Surroundings, ghost outcome: Policy.Outcome, now: Time)
      returns (s': State)
      requires grants.Valid()
      requires node == PolicyCheck ==> outcome == Policy.NodeTx(request, grants.grants, now).1
      modifies grants
      ensures grants.Valid()
      ensures grants.grants == if node == PolicyCheck then Policy.NodeTx(request, old(grants.grants), now).0
                               else old(grants.grants)
      ensures Effect(node, s, s', request.skills, w, outcome)
    {
      hide MatchIs, IsFirstBest, Policy.NodeTx;
      s' := s;
      match node
      case PolicyCheck =>
        var decided := Policy.PolicyNode(request, grants, now);
        s' := Checked(s, decided);
      case SkillMatch =>
        var m := MatchSkills(w, request.skills);
        s' := Matched(s, m);
      case LoadCheck =>
        if s.matched == [] {
          s' := s.(status := NoAgent, failure := Some(NoAgentsAvailable));
        } else {
          var selected := SelectAgent(w, request.skills, s.matched);
          s' := s.(assignedAgent := Some(selected));
        }
      case Assign => s' := s.(status := Assigned);
      case Execute => s' := Execution(s, w.answer);
      case HandleFailure => s' := HandleFailureNode(s);
      case Escalate => s' := s.(status := Escalated, escalatedToHuman := true);
      case Complete => s' := s.(status := Completed);
      case NoAgentFound => s' := s.(status := NoAgent);
      case End =>
    }

    /** Runs the graph to its end; `route` is what it visited. `world(k)` is what visit `k` meets. */
    method Route(origin: Option<string>, skills: seq<string>, digest: string -> Policy.Hash, threshold: Option<real>,
                 world: nat -> Surroundings, now: Time)
      returns (final: State, ghost route: seq<Visited>)
      requires grants.Valid()
      modifies grants
      ensures grants.Valid()
      ensures var done := Policy.NodeTx(Policy.Request(rules, glob, origin, skills, digest), old(grants.grants), now);
        var c := Setting(skills, threshold, world, done.1, completion, failure);
        && grants.grants == done.0
        && IsRoute(route, c) && Finished(route, c) && final == route[|route| - 1].after
    {
      hide MatchIs, IsFirstBest, Policy.NodeTx, Effect, IsRoute;
      var request := Policy.Request(rules, glob, origin, skills, digest);
      ghost var done := Policy.NodeTx(request, grants.grants, now);
      ghost var c := Setting(skills, threshold, world, done.1, completion, failure);
      final := Initial(threshold);
      var visits := 1;
      ghost var before := final;
      final := Visit(PolicyCheck, final, request, world(0), done.1, now);
      route := [Visited(PolicyCheck, before, final)];
      RouteBegins(route[0], c);
      var node := Next(PolicyCheck, final, completion, failure);
      while node != End
        invariant grants.Valid() && grants.grants == done.0
        invariant IsRoute(route, c) && |route| == visits >= 1
        invariant final == route[visits - 1].after && node == c.After(route[visits - 1]) && node != PolicyCheck
        decreases 12 - visits
      {
        before := final;
        final := Visit(node, final, request, world(visits), done.1, now);
        RouteGoesOn(route, Visited(node, before, final), c);
        route := route + [Visited(node, before, final)];
        RoutesAreShort(route, c);
        visits := visits + 1;
        node := Next(node, final, completion, failure);
      }
    }
  }
}
