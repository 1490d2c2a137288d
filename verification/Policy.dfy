/** PolicyEngine, GrantStore and the policy node: what is denied, held or let through, and what that costs. */
module Policy {
  import opened Prelude

  datatype RuleAction = Allow | RequireReview | Deny

  datatype Rule = Rule(skill: string, origin: string, action: RuleAction, reason: string)

  datatype Decision = Decision(action: RuleAction, reason: string, rule: Option<nat>)

  const ALLOWED := Decision(Allow, "", None)

  function Severity(a: RuleAction): nat {
    match a
    case Allow => 0
    case RequireReview => 1
    case Deny => 2
  }

  /** fnmatchcase: does a name match a pattern. */
  type Glob = (string, string) -> bool

  function OrEmpty(origin: Option<string>): string {
    if origin.Some? then origin.value else ""
  }

  predicate Matches(rule: Rule, skill: string, origin: string, glob: Glob) {
    glob(skill, rule.skill) && glob(origin, rule.origin)
  }

  // ---- the engine -----------------------------------------------------------------

  /** The first rule that matches, from position `i` on. */
  function FirstMatch(rules: seq<Rule>, skill: string, origin: string, glob: Glob, i: nat): Option<nat>
    requires i <= |rules|
    decreases |rules| - i
  {
    if i == |rules| then None
    else if Matches(rules[i], skill, origin, glob) then Some(i)
    else FirstMatch(rules, skill, origin, glob, i + 1)
  }

  function DefaultReason(rule: Rule): string {
    if rule.reason != "" then rule.reason else "policy rule"
  }

  function SkillDecision(rules: seq<Rule>, skill: string, origin: string, glob: Glob): Decision {
    FirstMatchIs(rules, skill, origin, glob, 0);
    match FirstMatch(rules, skill, origin, glob, 0)
    case None => ALLOWED
    case Some(i) => Decision(rules[i].action, DefaultReason(rules[i]), Some(i))
  }

  lemma {:induction false} FirstMatchIs(rules: seq<Rule>, skill: string, origin: string, glob: Glob, i: nat)
    requires i <= |rules|
    ensures var r := FirstMatch(rules, skill, origin, glob, i);
      && (r.Some? ==> i <= r.value < |rules| && Matches(rules[r.value], skill, origin, glob)
                      && forall k :: i <= k < r.value ==> !Matches(rules[k], skill, origin, glob))
      && (r.None? ==> forall k :: i <= k < |rules| ==> !Matches(rules[k], skill, origin, glob))
    decreases |rules| - i
  {
    if i < |rules| { FirstMatchIs(rules, skill, origin, glob, i + 1); }
  }

  /** The first matching rule decides about one skill. */
  method EvaluateSkill(rules: seq<Rule>, skill: string, origin: Option<string>, glob: Glob) returns (d: Decision)
    ensures d == SkillDecision(rules, skill, OrEmpty(origin), glob)
    ensures d.rule.Some? ==> d.rule.value < |rules| && Matches(rules[d.rule.value], skill, OrEmpty(origin), glob)
                             && d.action == rules[d.rule.value].action
                             && forall k :: 0 <= k < d.rule.value ==> !Matches(rules[k], skill, OrEmpty(origin), glob)
    ensures d.rule.None? ==> d == ALLOWED && forall k :: 0 <= k < |rules| ==> !Matches(rules[k], skill, OrEmpty(origin), glob)
  {
    FirstMatchIs(rules, skill, OrEmpty(origin), glob, 0);
    for i := 0 to |rules|
      invariant FirstMatch(rules, skill, OrEmpty(origin), glob, 0) == FirstMatch(rules, skill, OrEmpty(origin), glob, i)
    {
      if Matches(rules[i], skill, OrEmpty(origin), glob) {
        return Decision(rules[i].action, DefaultReason(rules[i]), Some(i));
      }
    }
    return ALLOWED;
  }

  /** Of the decisions about the first `n` skills, the first of the strictest. */
  function Strictest(rules: seq<Rule>, skills: seq<string>, origin: string, glob: Glob, n: nat): Decision
    requires n <= |skills|
  {
    if n == 0 then ALLOWED
    else
      var before := Strictest(rules, skills, origin, glob, n - 1);
      var d := SkillDecision(rules, skills[n - 1], origin, glob);
      if Severity(d.action) > Severity(before.action) then d else before
  }

  method Evaluate(rules: seq<Rule>, skills: seq<string>, origin: Option<string>, glob: Glob) returns (d: Decision)
    ensures d == Strictest(rules, skills, OrEmpty(origin), glob, |skills|)
    ensures forall i :: 0 <= i < |skills| ==>
      Severity(SkillDecision(rules, skills[i], OrEmpty(origin), glob).action) <= Severity(d.action)
    ensures d.action == Allow || exists i :: 0 <= i < |skills| && d == SkillDecision(rules, skills[i], OrEmpty(origin), glob)
  {
    d := ALLOWED;
    for i := 0 to |skills|
      invariant d == Strictest(rules, skills, OrEmpty(origin), glob, i)
      invariant forall k :: 0 <= k < i ==>
        Severity(SkillDecision(rules, skills[k], OrEmpty(origin), glob).action) <= Severity(d.action)
      invariant d.action == Allow || exists k :: 0 <= k < i && d == SkillDecision(rules, skills[k], OrEmpty(origin), glob)
    {
      var decision := EvaluateSkill(rules, skills[i], origin, glob);
      if Severity(decision.action) > Severity(d.action) { d := decision; }
    }
  }

  // ---- grants ---------------------------------------------------------------------------

  type Hash = nat

  datatype GrantKey = GrantKey(origin: string, skill: string, digest: Hash)

  datatype Grant = Grant(key: GrantKey, createdAt: Time, expiresAt: Time, consumedAt: Option<Time>)

  type Grants = map<Uuid, Grant>

  predicate Usable(g: Grant, key: GrantKey, now: Time) {
    g.key == key && g.consumedAt.None? && g.expiresAt > now
  }

  predicate Before(grants: Grants, a: Uuid, b: Uuid)
    requires a in grants && b in grants
  {
    grants[a].createdAt < grants[b].createdAt || (grants[a].createdAt == grants[b].createdAt && a <= b)
  }

  ghost predicate IsOldest(grants: Grants, key: GrantKey, now: Time, id: Uuid) {
    && id in grants && Usable(grants[id], key, now)
    && forall other :: other in grants && Usable(grants[other], key, now) ==> Before(grants, id, other)
  }

  /** The grant a consumption uses: the oldest usable one. */
  ghost function Oldest(grants: Grants, key: GrantKey, now: Time): (id: Option<Uuid>)
    ensures id.Some? ==> IsOldest(grants, key, now, id.value)
  {
    if id :| IsOldest(grants, key, now, id) then Some(id) else None
  }

  lemma OldestIs(grants: Grants, key: GrantKey, now: Time, id: Uuid)
    requires IsOldest(grants, key, now, id)
    ensures Oldest(grants, key, now) == Some(id)
  {
  }

  function Used(grants: Grants, id: Uuid, now: Time): Grants
    requires id in grants
  {
    grants[id := grants[id].(consumedAt := Some(now))]
  }

  ghost function Consumption(grants: Grants, key: GrantKey, now: Time): (Grants, bool) {
    var id := Oldest(grants, key, now);
    if id.Some? then (Used(grants, id.value, now), true) else (grants, false)
  }

  class GrantStore {
    var grants: Grants
    var nextId: Uuid

    ghost predicate Valid()
      reads this
    {
      forall id :: id in grants ==> id < nextId
    }

    constructor ()
      ensures Valid() && grants == map[]
    {
      grants, nextId := map[], 0;
    }

    method Issue(key: GrantKey, ttl: Time, now: Time) returns (id: Uuid)
      requires Valid()
      modifies this
      ensures Valid() && id !in old(grants) && grants == old(grants)[id := Grant(key, now, now + ttl, None)]
    {
      id := nextId;
      nextId := nextId + 1;
      grants := grants[id := Grant(key, now, now + ttl, None)];
    }

    /** Uses one unexpired grant of the key; false, and no change, when there is none. */
    method Consume(key: GrantKey, now: Time) returns (used: bool)
      requires Valid()
      modifies this`grants
      ensures Valid()
      ensures (grants, used) == Consumption(old(grants), key, now)
      ensures !used ==> forall id :: id in grants ==> !Usable(grants[id], key, now)
    {
      var best: Option<Uuid> := None;
      var todo := grants.Keys;
      while todo != {}
        invariant todo <= grants.Keys
        invariant best.Some? ==> best.value in grants && Usable(grants[best.value], key, now)
        invariant forall id :: id in grants && id !in todo && Usable(grants[id], key, now) ==>
          best.Some? && Before(grants, best.value, id)
        decreases |todo|
      {
        var id :| id in todo;
        todo := todo - {id};
        if Usable(grants[id], key, now) && (best.None? || Before(grants, id, best.value)) { best := Some(id); }
      }
      used := best.Some?;
      if used {
        OldestIs(grants, key, now, best.value);
        grants := Used(grants, best.value, now);
      }
    }
  }

  // ---- the policy node ---------------------------------------------------------------------

  datatype Outcome = Passed | Denied(decision: Decision) | Held(key: GrantKey, decision: Decision)

  /** Everything the node knows about a route. */
  datatype Request = Request(rules: seq<Rule>, glob: Glob, origin: Option<string>, skills: seq<string>, digest: string -> Hash)

  function DecisionAt(r: Request, i: nat): Decision
    requires i < |r.skills|
  {
    SkillDecision(r.rules, r.skills[i], OrEmpty(r.origin), r.glob)
  }

  function KeyAt(r: Request, i: nat): GrantKey
    requires i < |r.skills|
  {
    GrantKey(OrEmpty(r.origin), r.skills[i], r.digest(r.skills[i]))
  }

  /** The first denied skill among the first `n`. */
  function FirstDenied(r: Request, n: nat): Option<nat>
    requires n <= |r.skills|
  {
    if n == 0 then None
    else if FirstDenied(r, n - 1).Some? then FirstDenied(r, n - 1)
    else if DecisionAt(r, n - 1).action == Deny then Some(n - 1) else None
  }

  /** The positions of the held skills among the first `n`. */
  function HeldSkills(r: Request, n: nat): (held: seq<nat>)
    requires n <= |r.skills|
    ensures forall k :: 0 <= k < |held| ==> held[k] < n && DecisionAt(r, held[k]).action == RequireReview
  {
    if n == 0 then []
    else HeldSkills(r, n - 1) + if DecisionAt(r, n - 1).action == RequireReview then [n - 1] else []
  }

  /** Uses a grant for each held skill in turn, until one has none. */
  ghost function Spend(r: Request, held: seq<nat>, grants: Grants, now: Time): (Grants, Outcome)
    requires forall k :: 0 <= k < |held| ==> held[k] < |r.skills|
    decreases |held|
  {
    if held == [] then (grants, Passed)
    else
      var c := Consumption(grants, KeyAt(r, held[0]), now);
      if c.1 then Spend(r, held[1..], c.0, now) else (grants, Held(KeyAt(r, held[0]), DecisionAt(r, held[0])))
  }

  /** The effect of the policy node on the grants, and what becomes of the route. */
  ghost function NodeTx(r: Request, grants: Grants, now: Time): (Grants, Outcome) {
    FirstDeniedIs(r, |r.skills|);
    match FirstDenied(r, |r.skills|)
    case Some(i) => (grants, Denied(DecisionAt(r, i)))
    case None => Spend(r, HeldSkills(r, |r.skills|), grants, now)
  }

  lemma {:induction false} FirstDeniedIs(r: Request, n: nat)
    requires n <= |r.skills|
    ensures var d := FirstDenied(r, n);
      && (d.Some? ==> d.value < n && DecisionAt(r, d.value).action == Deny
                      && forall k :: 0 <= k < d.value ==> DecisionAt(r, k).action != Deny)
      && (d.None? ==> forall k :: 0 <= k < n ==> DecisionAt(r, k).action != Deny)
  {
    if n > 0 { FirstDeniedIs(r, n - 1); }
  }

  method PolicyNode(r: Request, store: GrantStore, now: Time) returns (outcome: Outcome)
    requires store.Valid()
    modifies store
    ensures store.Valid()
    ensures (store.grants, outcome) == NodeTx(r, old(store.grants), now)
  {
    hide SkillDecision, Consumption;
    if r.rules == [] {
      NoRulesHoldNothing(r, |r.skills|);
      return Passed;
    }
    var held: seq<nat> := [];
    for i := 0 to |r.skills|
      invariant FirstDenied(r, i) == None && held == HeldSkills(r, i)
      invariant store.grants == old(store.grants) && store.Valid()
    {
      var decision := EvaluateSkill(r.rules, r.skills[i], r.origin, r.glob);
      if decision.action == Deny {
        DeniedStays(r, i + 1, |r.skills|);
        return Denied(decision);
      }
      if decision.action == RequireReview { held := held + [i]; }
    }
    for k := 0 to |held|
      invariant store.Valid()
      invariant Spend(r, held, old(store.grants), now) == Spend(r, held[k..], store.grants, now)
    {
      var i := held[k];
      var key := GrantKey(OrEmpty(r.origin), r.skills[i], r.digest(r.skills[i]));
      ghost var before := store.grants;
      var used := store.Consume(key, now);
      assert held[k..][1..] == held[k + 1..];
      if !used {
        var decision := EvaluateSkill(r.rules, r.skills[i], r.origin, r.glob);
        NothingUsed(before, key, now);
        return Held(key, decision);
      }
    }
    return Passed;
  }

  lemma NothingUsed(grants: Grants, key: GrantKey, now: Time)
    ensures !Consumption(grants, key, now).1 ==> Consumption(grants, key, now).0 == grants
  {
  }

  lemma {:induction false} NoRulesHoldNothing(r: Request, n: nat)
    requires r.rules == [] && n <= |r.skills|
    ensures FirstDenied(r, n) == None && HeldSkills(r, n) == []
  {
    if n > 0 { NoRulesHoldNothing(r, n - 1); }
  }

  lemma {:induction false} DeniedStays(r: Request, n: nat, m: nat)
    requires n <= m <= |r.skills| && FirstDenied(r, n).Some?
    ensures FirstDenied(r, m) == FirstDenied(r, n)
    decreases m
  {
    if n < m { DeniedStays(r, n, m - 1); }
  }

  // ---- what the node guarantees -----------------------------------------------------------------

  /** A route with a denied skill uses no grant and is denied for the first such skill. */
  lemma DeniedUsesNothing(r: Request, grants: Grants, now: Time, i: nat)
    requires i < |r.skills| && DecisionAt(r, i).action == Deny
    ensures NodeTx(r, grants, now).0 == grants && NodeTx(r, grants, now).1.Denied?
  {
    FirstDeniedIs(r, |r.skills|);
  }

  lemma {:induction false} StrictestFindsFirst(r: Request, n: nat)
    requires n <= |r.skills|
    ensures var s := Strictest(r.rules, r.skills, OrEmpty(r.origin), r.glob, n);
      && (FirstDenied(r, n).Some? ==> FirstDenied(r, n).value < n && s == DecisionAt(r, FirstDenied(r, n).value))
      && (FirstDenied(r, n).None? && HeldSkills(r, n) != [] ==> s == DecisionAt(r, HeldSkills(r, n)[0]))
      && (FirstDenied(r, n).None? && HeldSkills(r, n) == [] ==> s == ALLOWED)
  {
    hide SkillDecision, DecisionAt, HeldSkills;
    FirstDeniedIs(r, n);
    FirstHeldIs(r, n);
    if n > 0 {
      FirstDeniedIs(r, n - 1);
      FirstHeldIs(r, n - 1);
      StrictestFindsFirst(r, n - 1);
      OneMoreSkill(r, n);
    }
  }

  lemma OneMoreSkill(r: Request, n: nat)
    requires 0 < n <= |r.skills|
    ensures var before := Strictest(r.rules, r.skills, OrEmpty(r.origin), r.glob, n - 1);
      Strictest(r.rules, r.skills, OrEmpty(r.origin), r.glob, n)
      == if Severity(DecisionAt(r, n - 1).action) > Severity(before.action) then DecisionAt(r, n - 1) else before
  {
    hide SkillDecision;
  }

  lemma FirstHeldIs(r: Request, n: nat)
    requires n <= |r.skills|
    ensures n == 0 ==> HeldSkills(r, n) == []
    ensures n > 0 ==>
      var held, before := HeldSkills(r, n), HeldSkills(r, n - 1);
      if before != [] then held != [] && held[0] == before[0]
      else if DecisionAt(r, n - 1).action == RequireReview then held == [n - 1] else held == []
  {
    hide SkillDecision, DecisionAt;
  }

  /** Main theorem. While no grant is usable, the node decides exactly as the strictest decision says. */
  lemma WithoutGrantsTheStrictestDecides(r: Request, grants: Grants, now: Time)
    requires forall id, i :: id in grants && 0 <= i < |r.skills| ==> !Usable(grants[id], KeyAt(r, i), now)
    ensures var s := Strictest(r.rules, r.skills, OrEmpty(r.origin), r.glob, |r.skills|);
      var done := NodeTx(r, grants, now);
      && done.0 == grants
      && (s.action == Deny <==> done.1 == Denied(s))
      && (s.action == RequireReview <==> done.1.Held? && done.1.decision == s)
      && (s.action == Allow <==> done.1 == Passed)
  {
    hide SkillDecision, Strictest;
    FirstDeniedIs(r, |r.skills|);
    StrictestFindsFirst(r, |r.skills|);
    var held := HeldSkills(r, |r.skills|);
    if held != [] {
      assert Oldest(grants, KeyAt(r, held[0]), now).None?;
    }
  }

  // ---- conservation over runs ----------------------------------------------------------------------

  /** A route in its policy node: it has used a grant for each of its first `at` held skills. */
  datatype Walk = Walk(request: Request, at: nat)

  datatype Office = Office(grants: Grants, walks: map<nat, Walk>)

  /** Routes run on several threads, and every consumption is a transaction of its own. A route enters
      unless a skill is denied, uses its grants one after the other, and leaves: held at the first skill
      without a grant, or passed after the last. */
  datatype GrantOp =
    | Issue(id: Uuid, key: GrantKey, ttl: Time, now: Time)
    | Enter(p: nat, request: Request)
    | Use(p: nat, now: Time)
    | Leave(p: nat)

  function AllHeld(r: Request): (held: seq<nat>)
    ensures forall k :: 0 <= k < |held| ==> held[k] < |r.skills|
  {
    HeldSkills(r, |r.skills|)
  }

  /** An issued grant has a fresh identifier. */
  ghost function ApplyOp(o: Office, op: GrantOp): Office {
    match op
    case Issue(id, key, ttl, now) => if id in o.grants then o else o.(grants := o.grants[id := Grant(key, now, now + ttl, None)])
    case Enter(p, r) => if p in o.walks || FirstDenied(r, |r.skills|).Some? then o else o.(walks := o.walks[p := Walk(r, 0)])
    case Use(p, now) =>
      if p !in o.walks || o.walks[p].at >= |AllHeld(o.walks[p].request)| then o
      else
        var w := o.walks[p];
        var c := Consumption(o.grants, KeyAt(w.request, AllHeld(w.request)[w.at]), now);
        Office(c.0, if c.1 then o.walks[p := w.(at := w.at + 1)] else o.walks - {p})
    case Leave(p) => if Passes(o, op) then o.(walks := o.walks - {p}) else o
  }

  /** The operation lets a route pass. */
  predicate Passes(o: Office, op: GrantOp) {
    op.Leave? && op.p in o.walks && o.walks[op.p].at >= |AllHeld(o.walks[op.p].request)|
  }

  ghost function RunOps(o: Office, ops: seq<GrantOp>): Office
    decreases |ops|
  {
    if ops == [] then o else RunOps(ApplyOp(o, ops[0]), ops[1..])
  }

  function Unused(grants: Grants, key: GrantKey): set<Uuid> {
    set id | id in grants && grants[id].key == key && grants[id].consumedAt.None?
  }

  predicate Issues(o: Office, op: GrantOp, key: GrantKey) {
    op.Issue? && op.key == key && op.id !in o.grants
  }

  ghost function Issued(o: Office, ops: seq<GrantOp>, key: GrantKey): nat
    decreases |ops|
  {
    if ops == [] then 0 else (if Issues(o, ops[0], key) then 1 else 0) + Issued(ApplyOp(o, ops[0]), ops[1..], key)
  }

  /** How many of the first `n` held skills ask for the key. */
  function Asks(r: Request, n: nat, key: GrantKey): nat {
    if n == 0 || n > |AllHeld(r)| then 0 else Asks(r, n - 1, key) + if KeyAt(r, AllHeld(r)[n - 1]) == key then 1 else 0
  }

  /** How often the passing route was held for the key. */
  function PassedHolds(o: Office, op: GrantOp, key: GrantKey): nat {
    if Passes(o, op) then Asks(o.walks[op.p].request, |AllHeld(o.walks[op.p].request)|, key) else 0
  }

  ghost function AllPassedHolds(o: Office, ops: seq<GrantOp>, key: GrantKey): nat
    decreases |ops|
  {
    if ops == [] then 0 else PassedHolds(o, ops[0], key) + AllPassedHolds(ApplyOp(o, ops[0]), ops[1..], key)
  }

  /** What the routes in their policy nodes have used for the key so far. */
  ghost function InHand(walks: map<nat, Walk>, key: GrantKey): nat
    decreases |walks|
  {
    if walks == map[] then 0
    else
      var p :| p in walks;
      Asks(walks[p].request, walks[p].at, key) + InHand(walks - {p}, key)
  }

  lemma {:induction false} InHandWithout(walks: map<nat, Walk>, p: nat, key: GrantKey)
    requires p in walks
    ensures InHand(walks, key) == Asks(walks[p].request, walks[p].at, key) + InHand(walks - {p}, key)
    decreases |walks|
  {
    hide Asks;
    var q :| q in walks && InHand(walks, key) == Asks(walks[q].request, walks[q].at, key) + InHand(walks - {q}, key);
    if q != p {
      InHandWithout(walks - {q}, p, key);
      InHandWithout(walks - {p}, q, key);
      assert walks - {q} - {p} == walks - {p} - {q};
    }
  }

  lemma InHandChanged(walks: map<nat, Walk>, p: nat, w: Walk, key: GrantKey)
    ensures p in walks ==>
      InHand(walks[p := w], key) + Asks(walks[p].request, walks[p].at, key) == InHand(walks, key) + Asks(w.request, w.at, key)
    ensures p !in walks ==> InHand(walks[p := w], key) == InHand(walks, key) + Asks(w.request, w.at, key)
  {
    hide Asks, InHand;
    InHandWithout(walks[p := w], p, key);
    assert walks[p := w] - {p} == walks - {p};
    if p in walks { InHandWithout(walks, p, key); } else { assert walks - {p} == walks; }
  }

  lemma ConsumptionTakesOne(grants: Grants, used: GrantKey, now: Time, key: GrantKey)
    ensures var c := Consumption(grants, used, now);
      |Unused(c.0, key)| + (if c.1 && used == key then 1 else 0) == |Unused(grants, key)|
  {
    var id := Oldest(grants, used, now);
    if id.Some? {
      var after := Used(grants, id.value, now);
      assert Unused(after, key) == Unused(grants, key) - {id.value};
      if used == key { assert id.value in Unused(grants, key); }
      else { assert Unused(after, key) == Unused(grants, key); }
    }
  }

  /** No walk is past its last held skill. */
  predicate WalksOk(o: Office) {
    forall p :: p in o.walks ==> o.walks[p].at <= |AllHeld(o.walks[p].request)|
  }

  lemma UseTakes(o: Office, p: nat, now: Time, key: GrantKey)
    requires WalksOk(o)
    ensures var o' := ApplyOp(o, Use(p, now));
      WalksOk(o') && |Unused(o'.grants, key)| + InHand(o'.walks, key) <= |Unused(o.grants, key)| + InHand(o.walks, key)
  {
    hide Consumption, Unused, InHand, AllHeld;
    if p in o.walks && o.walks[p].at < |AllHeld(o.walks[p].request)| {
      var w := o.walks[p];
      var used := KeyAt(w.request, AllHeld(w.request)[w.at]);
      ConsumptionTakesOne(o.grants, used, now, key);
      InHandChanged(o.walks, p, w.(at := w.at + 1), key);
      InHandWithout(o.walks, p, key);
    }
  }

  lemma OpTakes(o: Office, op: GrantOp, key: GrantKey)
    requires WalksOk(o)
    ensures var o' := ApplyOp(o, op);
      && WalksOk(o')
      && |Unused(o'.grants, key)| + InHand(o'.walks, key) + PassedHolds(o, op, key)
         <= |Unused(o.grants, key)| + InHand(o.walks, key) + if Issues(o, op, key) then 1 else 0
  {
    hide Consumption, InHand, AllHeld, FirstDenied;
    match op
    case Issue(id, k, _, _) =>
      if id !in o.grants {
        assert Unused(ApplyOp(o, op).grants, key) == if k == key then Unused(o.grants, key) + {id} else Unused(o.grants, key);
      }
    case Enter(p, r) => InHandChanged(o.walks, p, Walk(r, 0), key);
    case Use(p, now) => UseTakes(o, p, now, key);
    case Leave(p) => if Passes(o, op) { InHandWithout(o.walks, p, key); }
  }

  lemma {:induction false} RunTakes(o: Office, ops: seq<GrantOp>, key: GrantKey)
    requires WalksOk(o)
    ensures var o' := RunOps(o, ops);
      |Unused(o'.grants, key)| + InHand(o'.walks, key) + AllPassedHolds(o, ops, key)
      <= |Unused(o.grants, key)| + InHand(o.walks, key) + Issued(o, ops, key)
    decreases |ops|
  {
    hide Unused, InHand, ApplyOp, PassedHolds, Issues, WalksOk;
    if ops != [] {
      OpTakes(o, ops[0], key);
      RunTakes(ApplyOp(o, ops[0]), ops[1..], key);
    }
  }

  const CLOSED := Office(map[], map[])

  /** Main theorem. Over any run, with the consumptions of any number of routes interleaved, routes that
      were held for a key and still passed never outnumber the grants issued for it. */
  lemma GrantsAreConserved(ops: seq<GrantOp>, key: GrantKey)
    ensures AllPassedHolds(CLOSED, ops, key) <= Issued(CLOSED, ops, key)
  {
    RunTakes(CLOSED, ops, key);
    assert Unused(map[], key) == {} && InHand(map[], key) == 0;
  }

  /** A grant keeps its key and its dates, is used at most once, and only before it expires. */
  ghost predicate GrantsGrow(before: Grants, after: Grants) {
    forall id :: id in before ==>
      && id in after && after[id] == before[id].(consumedAt := after[id].consumedAt)
      && (before[id].consumedAt.Some? ==> after[id].consumedAt == before[id].consumedAt)
      && (before[id].consumedAt.None? && after[id].consumedAt.Some? ==> after[id].consumedAt.value < after[id].expiresAt)
  }

  lemma GrantsGrowTransitive(a: Grants, b: Grants, c: Grants)
    requires GrantsGrow(a, b) && GrantsGrow(b, c)
    ensures GrantsGrow(a, c)
  {
  }

  lemma OpGrows(o: Office, op: GrantOp)
    ensures GrantsGrow(o.grants, ApplyOp(o, op).grants)
  {
    hide AllHeld, FirstDenied;
  }

  /** Each grant is used at most once over any run, before its expiry. */
  lemma {:induction false} GrantsAreUsedOnce(o: Office, ops: seq<GrantOp>)
    ensures GrantsGrow(o.grants, RunOps(o, ops).grants)
    decreases |ops|
  {
    hide ApplyOp, GrantsGrow;
    if ops == [] {
      GrantsGrowReflexive(o.grants);
    } else {
      OpGrows(o, ops[0]);
      GrantsAreUsedOnce(ApplyOp(o, ops[0]), ops[1..]);
      GrantsGrowTransitive(o.grants, ApplyOp(o, ops[0]).grants, RunOps(o, ops).grants);
    }
  }

  lemma GrantsGrowReflexive(grants: Grants)
    ensures GrantsGrow(grants, grants)
  {
  }

  /** `n` consumptions of route `p`, then its leaving. */
  function UsesOf(p: nat, n: nat, now: Time): seq<GrantOp> {
    if n == 0 then [Leave(p)] else [Use(p, now)] + UsesOf(p, n - 1, now)
  }

  /** The node as one call is a route that nobody interrupts. */
  lemma {:induction false} NodeIsAnUninterruptedRoute(r: Request, at: nat, grants: Grants, p: nat, now: Time)
    requires at <= |AllHeld(r)|
    ensures RunOps(Office(grants, map[p := Walk(r, at)]), UsesOf(p, |AllHeld(r)| - at, now))
            == Office(Spend(r, AllHeld(r)[at..], grants, now).0, map[])
    decreases |AllHeld(r)| - at
  {
    hide Consumption, AllHeld;
    var o := Office(grants, map[p := Walk(r, at)]);
    assert o.walks - {p} == map[];
    if at == |AllHeld(r)| {
      assert RunOps(o, [Leave(p)]) == RunOps(ApplyOp(o, Leave(p)), [Leave(p)][1..]);
    } else {
      var rest := UsesOf(p, |AllHeld(r)| - at - 1, now);
      assert ([Use(p, now)] + rest)[1..] == rest;
      assert AllHeld(r)[at..][1..] == AllHeld(r)[at + 1..];
      var c := Consumption(grants, KeyAt(r, AllHeld(r)[at]), now);
      if c.1 {
        assert o.walks[p := Walk(r, at + 1)] == map[p := Walk(r, at + 1)];
        NodeIsAnUninterruptedRoute(r, at + 1, c.0, p, now);
      } else {
        NothingUsed(grants, KeyAt(r, AllHeld(r)[at]), now);
        IdleOps(c.0, rest, p, |AllHeld(r)| - at - 1, now);
      }
    }
  }

  lemma {:induction false} IdleOps(grants: Grants, ops: seq<GrantOp>, p: nat, n: nat, now: Time)
    requires ops == UsesOf(p, n, now)
    ensures RunOps(Office(grants, map[]), ops) == Office(grants, map[])
    decreases n
  {
    var o := Office(grants, map[]);
    if n == 0 {
      assert RunOps(o, ops) == RunOps(ApplyOp(o, ops[0]), ops[1..]);
    } else {
      assert ops[1..] == UsesOf(p, n - 1, now);
      IdleOps(grants, ops[1..], p, n - 1, now);
    }
  }
}
