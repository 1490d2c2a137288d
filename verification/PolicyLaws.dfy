/** What the policy node decides and which grants it uses, told from the rules and the grant table. */
module PolicyLaws {
  import opened Prelude
  import opened Policy

  // ---- what the rules say -----------------------------------------------------------------

  predicate Applies(r: Request, rule: Rule, s: nat)
    requires s < |r.skills|
  {
    r.glob(r.skills[s], rule.skill) && r.glob(match r.origin case Some(o) => o case None => "", rule.origin)
  }

  /** Rule `i` is the first that applies to skill `s`. */
  predicate Decides(r: Request, s: nat, i: nat) {
    && s < |r.skills| && i < |r.rules| && Applies(r, r.rules[i], s)
    && forall k :: 0 <= k < i ==> !Applies(r, r.rules[k], s)
  }

  /** The rule that decides about skill `s` says `action`. */
  ghost predicate Says(r: Request, s: nat, action: RuleAction) {
    exists i: nat :: Decides(r, s, i) && r.rules[i].action == action
  }

  /** What is reported about a skill that rule `i` decides about. */
  function Verdict(r: Request, i: nat): Decision
    requires i < |r.rules|
  {
    Decision(r.rules[i].action, if r.rules[i].reason == "" then "policy rule" else r.rules[i].reason, Some(i))
  }

  ghost predicate IsVerdict(r: Request, s: nat, d: Decision) {
    exists i: nat :: Decides(r, s, i) && d == Verdict(r, i)
  }

  ghost predicate NoRule(r: Request, s: nat) {
    forall i: nat :: !Decides(r, s, i)
  }

  lemma OneRuleDecides(r: Request, s: nat, i: nat, k: nat)
    requires Decides(r, s, i) && Decides(r, s, k)
    ensures i == k
  {
  }

  lemma SkillDecides(r: Request, s: nat)
    requires s < |r.skills|
    ensures NoRule(r, s) ==> DecisionAt(r, s) == Decision(Allow, "", None)
    ensures !NoRule(r, s) ==> IsVerdict(r, s, DecisionAt(r, s))
    ensures forall action :: Says(r, s, action) ==> DecisionAt(r, s).action == action
    ensures DecisionAt(r, s).action != Allow ==> Says(r, s, DecisionAt(r, s).action)
  {
    FirstMatchIs(r.rules, r.skills[s], OrEmpty(r.origin), r.glob, 0);
    match FirstMatch(r.rules, r.skills[s], OrEmpty(r.origin), r.glob, 0)
    case Some(i) =>
      assert Decides(r, s, i);
      forall action | Says(r, s, action) ensures DecisionAt(r, s).action == action {
        var k: nat :| Decides(r, s, k) && r.rules[k].action == action;
        OneRuleDecides(r, s, i, k);
      }
    case None =>
      forall i: nat | Decides(r, s, i) ensures false { assert Matches(r.rules[i], r.skills[s], OrEmpty(r.origin), r.glob); }
  }

  /** None of the first `n` skills is one for which the rules say `action`. */
  ghost predicate Unsaid(r: Request, n: nat, action: RuleAction) {
    forall s: nat :: s < n ==> !Says(r, s, action)
  }

  /** Of several skills a denied one prevails over a held one, and a held one over the rest; of the denied ones,
      or else of the held ones, the first is reported. */
  lemma StrictestPrevails(r: Request)
    ensures var n := |r.skills|;
      var d := Strictest(r.rules, r.skills, OrEmpty(r.origin), r.glob, n);
      && (forall s: nat :: FirstThat(r, s, n, Deny) ==> IsVerdict(r, s, d))
      && (forall s: nat :: Unsaid(r, n, Deny) && FirstThat(r, s, n, RequireReview) ==> IsVerdict(r, s, d))
      && (Unsaid(r, n, Deny) && Unsaid(r, n, RequireReview) ==> d == Decision(Allow, "", None))
  {
    hide SkillDecision, DecisionAt, Says, Decides, FirstThat, Unsaid, HeldSkills, FirstDenied, Strictest;
    var n := |r.skills|;
    StrictestFindsFirst(r, n);
    FirstDeniedIs(r, n);
    HeldAscend(r, n);
    forall s: nat | FirstThat(r, s, n, Deny) ensures FirstDenied(r, n) == Some(s) && IsVerdict(r, s, DecisionAt(r, s)) {
      FirstThatIs(r, s, n, Deny);
      DenialIsVerdict(r, s);
    }
    forall s: nat | FirstThat(r, s, n, RequireReview)
      ensures HeldSkills(r, n) != [] && HeldSkills(r, n)[0] == s && IsVerdict(r, s, DecisionAt(r, s))
    {
      FirstThatIs(r, s, n, RequireReview);
      DenialIsVerdict(r, s);
    }
    if FirstDenied(r, n).Some? {
      DeniedIsFirst(r, n);
    }
    if HeldSkills(r, n) != [] {
      HeldIsFirst(r, n);
    }
  }

  /** Skill `s` is the first of the first `n` for which the rules say `action`. */
  ghost predicate FirstThat(r: Request, s: nat, n: nat, action: RuleAction) {
    s < n && Says(r, s, action) && forall k: nat :: k < s ==> !Says(r, k, action)
  }

  lemma {:induction false} HeldAscend(r: Request, n: nat)
    requires n <= |r.skills|
    ensures forall i, k :: 0 <= i < k < |HeldSkills(r, n)| ==> HeldSkills(r, n)[i] < HeldSkills(r, n)[k]
    ensures forall s: nat :: s in HeldSkills(r, n) <==> s < n && DecisionAt(r, s).action == RequireReview
  {
    hide DecisionAt;
    if n > 0 {
      HeldAscend(r, n - 1);
      var before := HeldSkills(r, n - 1);
      assert HeldSkills(r, n) == before + if DecisionAt(r, n - 1).action == RequireReview then [n - 1] else [];
    }
  }

  /** Up to the first skill for which the rules say `action`, no decision does. */
  lemma OnlyThen(r: Request, s: nat, n: nat, action: RuleAction, k: nat)
    requires n <= |r.skills| && FirstThat(r, s, n, action) && action != Allow && k <= s
    ensures DecisionAt(r, k).action == action <==> k == s
  {
    hide Says, DecisionAt;
    SkillDecides(r, k);
  }

  lemma FirstThatIs(r: Request, s: nat, n: nat, action: RuleAction)
    requires n <= |r.skills| && FirstThat(r, s, n, action)
    ensures action == Deny ==> FirstDenied(r, n) == Some(s)
    ensures action == RequireReview ==> HeldSkills(r, n) != [] && HeldSkills(r, n)[0] == s
  {
    hide Says, DecisionAt, HeldSkills, FirstDenied;
    assert s < n;
    if action == Deny {
      OnlyThen(r, s, n, action, s);
      FirstDeniedIs(r, n);
      if FirstDenied(r, n).Some? && FirstDenied(r, n).value <= s { OnlyThen(r, s, n, action, FirstDenied(r, n).value); }
    } else if action == RequireReview {
      OnlyThen(r, s, n, action, s);
      HeldAscend(r, n);
      var held := HeldSkills(r, n);
      assert s in held;
      assert held[0] in held;
      var i :| 0 <= i < |held| && held[i] == s;
      OnlyThen(r, s, n, action, held[0]);
    }
  }

  lemma DeniedIsFirst(r: Request, n: nat)
    requires n <= |r.skills| && FirstDenied(r, n).Some?
    ensures FirstThat(r, FirstDenied(r, n).value, n, Deny) && !Unsaid(r, n, Deny)
  {
    hide Says, DecisionAt;
    FirstDeniedIs(r, n);
    var d := FirstDenied(r, n).value;
    forall k: nat | k <= d ensures Says(r, k, Deny) <==> k == d { SkillDecides(r, k); }
  }

  lemma HeldIsFirst(r: Request, n: nat)
    requires n <= |r.skills| && HeldSkills(r, n) != []
    ensures FirstThat(r, HeldSkills(r, n)[0], n, RequireReview) && !Unsaid(r, n, RequireReview)
  {
    hide Says, DecisionAt, HeldSkills;
    HeldAscend(r, n);
    var h := HeldSkills(r, n)[0];
    forall k: nat | k <= h ensures Says(r, k, RequireReview) <==> k == h { SkillDecides(r, k); }
  }

  // ---- what the node does to the grants ---------------------------------------------------------

  /** The grant is for this skill of the route, unused and not expired. */
  predicate Fits(r: Request, g: Grant, s: nat, now: Time)
    requires s < |r.skills|
  {
    && g.key.origin == (match r.origin case Some(o) => o case None => "")
    && g.key.skill == r.skills[s] && g.key.digest == r.digest(r.skills[s])
    && g.consumedAt == None && now < g.expiresAt
  }

  predicate Older(a: Grant, i: Uuid, b: Grant, k: Uuid) {
    a.createdAt < b.createdAt || (a.createdAt == b.createdAt && i <= k)
  }

  /** Grant `id` fits, was not used for one of the skills before, and no other such grant is older. */
  ghost predicate Takes(r: Request, grants: Grants, s: nat, before: seq<Uuid>, id: Uuid, now: Time)
    requires s < |r.skills|
  {
    && id in grants && Fits(r, grants[id], s, now) && id !in before
    && forall k :: k in grants && k !in before && Fits(r, grants[k], s, now) ==> Older(grants[id], id, grants[k], k)
  }

  /** The grants afterwards: those in `used` are used now, all others are as they were. */
  predicate UsedUp(grants: Grants, grants': Grants, used: seq<Uuid>, now: Time) {
    && grants'.Keys == grants.Keys
    && forall id :: id in grants ==>
        grants'[id] == if id in used then grants[id].(consumedAt := Some(now)) else grants[id]
  }

  predicate AllOf(r: Request, held: seq<nat>) {
    forall k :: 0 <= k < |held| ==> held[k] < |r.skills|
  }

  /** The held skills take their grants in turn, until one finds none. */
  ghost predicate Spent(r: Request, held: seq<nat>, grants: Grants, grants': Grants, used: seq<Uuid>, outcome: Outcome,
                        now: Time)
    requires AllOf(r, held)
  {
    && |used| <= |held|
    && (forall k :: 0 <= k < |used| ==> Takes(r, grants, held[k], used[..k], used[k], now))
    && UsedUp(grants, grants', used, now)
    && if |used| == |held| then outcome == Passed
       else
         && (forall id :: id in grants && id !in used ==> !Fits(r, grants[id], held[|used|], now))
         && outcome.Held? && IsVerdict(r, held[|used|], outcome.decision)
         && outcome.key == GrantKey(match r.origin case Some(o) => o case None => "", r.skills[held[|used|]],
                                    r.digest(r.skills[held[|used|]]))
  }

  /** The positions of all held skills, in order. */
  ghost predicate HeldAre(r: Request, held: seq<nat>) {
    && AllOf(r, held) && (forall i, k :: 0 <= i < k < |held| ==> held[i] < held[k])
    && forall s: nat :: s in held <==> Says(r, s, RequireReview)
  }

  /** Main theorem. A route with a denied skill uses no grant and is denied as the rule of the first such skill says.
      Otherwise its held skills, in their order, each use up the oldest grant that fits and that none before them
      took; the route passes exactly when each finds one, and else is held for the first that does not. */
  lemma NodeDecides(r: Request, grants: Grants, now: Time) returns (held: seq<nat>, used: seq<Uuid>)
    ensures var done := NodeTx(r, grants, now);
      && HeldAre(r, held)
      && (forall s: nat :: FirstThat(r, s, |r.skills|, Deny) ==>
            done.0 == grants && done.1.Denied? && IsVerdict(r, s, done.1.decision))
      && (Unsaid(r, |r.skills|, Deny) ==> Spent(r, held, grants, done.0, used, done.1, now))
  {
    hide SkillDecision, DecisionAt, Says, Decides, Spent, FirstThat;
    var n := |r.skills|;
    held, used := HeldSkills(r, n), [];
    HeldAscend(r, n);
    forall s: nat ensures s in held <==> Says(r, s, RequireReview) { WhoIsHeld(r, s); }
    FirstDeniedIs(r, n);
    forall s: nat | FirstThat(r, s, n, Deny)
      ensures var done := NodeTx(r, grants, now); done.0 == grants && done.1.Denied? && IsVerdict(r, s, done.1.decision)
    {
      FirstThatIs(r, s, n, Deny);
      DenialIsVerdict(r, s);
    }
    if FirstDenied(r, n).None? {
      used := HeldSkillsSpend(r, held, grants, now);
    } else {
      DeniedIsFirst(r, n);
    }
  }

  lemma WhoIsHeld(r: Request, s: nat)
    ensures s in HeldSkills(r, |r.skills|) <==> Says(r, s, RequireReview)
  {
    HeldAscend(r, |r.skills|);
    if s < |r.skills| { SkillDecides(r, s); }
  }

  lemma DenialIsVerdict(r: Request, s: nat)
    requires s < |r.skills| && DecisionAt(r, s).action != Allow
    ensures IsVerdict(r, s, DecisionAt(r, s))
  {
    hide DecisionAt, Decides;
    SkillDecides(r, s);
  }

  lemma OneConsumption(r: Request, grants: Grants, s: nat, now: Time)
    requires s < |r.skills|
    ensures var c := Consumption(grants, KeyAt(r, s), now);
      if c.1 then exists id :: Takes(r, grants, s, [], id, now) && UsedUp(grants, c.0, [id], now)
      else forall id :: id in grants ==> !Fits(r, grants[id], s, now)
  {
    var key := KeyAt(r, s);
    forall id | id in grants ensures Usable(grants[id], key, now) <==> Fits(r, grants[id], s, now) { }
    match Oldest(grants, key, now)
    case Some(id) =>
      assert Takes(r, grants, s, [], id, now);
      assert UsedUp(grants, Consumption(grants, key, now).0, [id], now);
    case None => NoneIsOldest(grants, key, now);
  }

  /** When no grant is the oldest usable one, none is usable. */
  lemma NoneIsOldest(grants: Grants, key: GrantKey, now: Time)
    requires Oldest(grants, key, now).None?
    ensures forall id :: id in grants ==> !Usable(grants[id], key, now)
  {
    var usable := set id | id in grants && Usable(grants[id], key, now);
    if usable != {} {
      var id := OldestOf(grants, usable);
      assert IsOldest(grants, key, now, id);
      OldestIs(grants, key, now, id);
    }
    forall id | id in grants ensures !Usable(grants[id], key, now) { assert id !in usable; }
  }

  lemma {:induction false} OldestOf(grants: Grants, ids: set<Uuid>) returns (id: Uuid)
    requires ids != {} && ids <= grants.Keys
    ensures id in ids && forall k :: k in ids ==> Before(grants, id, k)
    decreases |ids|
  {
    id :| id in ids;
    var rest := ids - {id};
    if rest != {} {
      var other := OldestOf(grants, rest);
      assert forall k :: k in ids ==> k == id || k in rest;
      if !Before(grants, id, other) { id := other; }
    } else {
      assert ids == {id};
    }
  }

  lemma {:induction false} HeldSkillsSpend(r: Request, held: seq<nat>, grants: Grants, now: Time)
    returns (used: seq<Uuid>)
    requires AllOf(r, held) && forall k :: 0 <= k < |held| ==> DecisionAt(r, held[k]).action == RequireReview
    ensures Spent(r, held, grants, Spend(r, held, grants, now).0, used, Spend(r, held, grants, now).1, now)
    decreases |held|
  {
    hide DecisionAt, Consumption, Takes, Fits, IsVerdict;
    used := [];
    if held != [] {
      var c := Consumption(grants, KeyAt(r, held[0]), now);
      OneConsumption(r, grants, held[0], now);
      if c.1 {
        var id :| Takes(r, grants, held[0], [], id, now) && UsedUp(grants, c.0, [id], now);
        var rest := HeldSkillsSpend(r, held[1..], c.0, now);
        used := [id] + rest;
        TakesOneMore(r, held, grants, c.0, Spend(r, held[1..], c.0, now).0, id, rest, Spend(r, held[1..], c.0, now).1, now);
      } else {
        NothingUsed(grants, KeyAt(r, held[0]), now);
        DenialIsVerdict(r, held[0]);
      }
    }
  }

  lemma TakesOneMore(r: Request, held: seq<nat>, grants: Grants, mid: Grants, grants': Grants, id: Uuid, rest: seq<Uuid>,
                     outcome: Outcome, now: Time)
    requires AllOf(r, held) && held != [] && UsedUp(grants, mid, [id], now) && Takes(r, grants, held[0], [], id, now)
    requires Spent(r, held[1..], mid, grants', rest, outcome, now)
    ensures Spent(r, held, grants, grants', [id] + rest, outcome, now)
  {
    hide IsVerdict, Takes;
    var used := [id] + rest;
    forall k | 0 <= k < |used| ensures Takes(r, grants, held[k], used[..k], used[k], now) {
      if k == 0 {
        assert used[..0] == [];
      } else {
        assert Takes(r, mid, held[1..][k - 1], rest[..k - 1], rest[k - 1], now);
        assert used[..k] == [id] + rest[..k - 1];
        TakesAfter(r, grants, mid, held[k], id, rest[..k - 1], rest[k - 1], now);
      }
    }
    forall u | u in rest ensures u != id && u in grants {
      var k :| 0 <= k < |rest| && rest[k] == u;
      TakenIsUnused(r, mid, held[1..][k], rest[..k], rest[k], now);
      assert mid[id].consumedAt.Some? by { TakenIsUnused(r, grants, held[0], [], id, now); }
    }
    if |used| < |held| {
      assert held[|used|] == held[1..][|rest|];
      forall k | k in grants && k !in used ensures !Fits(r, grants[k], held[|used|], now) {
        assert mid[k] == grants[k];
      }
    }
  }

  lemma TakenIsUnused(r: Request, grants: Grants, s: nat, before: seq<Uuid>, id: Uuid, now: Time)
    requires s < |r.skills| && Takes(r, grants, s, before, id, now)
    ensures id in grants && grants[id].consumedAt.None?
  {
  }

  lemma TakesAfter(r: Request, grants: Grants, mid: Grants, s: nat, id: Uuid, before: seq<Uuid>, k: Uuid, now: Time)
    requires s < |r.skills| && UsedUp(grants, mid, [id], now) && Takes(r, mid, s, before, k, now)
    ensures Takes(r, grants, s, [id] + before, k, now)
  {
    forall i | i in grants && i !in [id] + before ensures mid[i] == grants[i] { assert i != id && i !in before; }
  }
}
