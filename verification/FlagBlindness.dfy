/** When does it matter to a plan whether the terminal flag is up? Exactly when it reaches a
    terminal action. */
module FlagBlindness {
  import opened RuleModel
  import opened RulePlan
  import opened CrashAbsorption

  predicate Attempt(s: Step) { s.Act? && IsTerminal(s.action) }

  /** A terminal action is reached, executed or not. */
  predicate Attempts(steps: seq<Step>) { exists s :: s in steps && Attempt(s) }

  predicate AllConflict(steps: seq<Step>) { forall s :: s in steps && Attempt(s) ==> s.verdict == Conflict }

  /** `up` and `down` are what is planned with the flag up and with it down. */
  predicate Told(up: Plan, down: Plan) {
    && up.fired && AllConflict(up.steps)
    && if Attempts(up.steps) then !AllConflict(down.steps) else down == up.(fired := false)
  }

  lemma AttemptsJoin(a: seq<Step>, b: seq<Step>)
    ensures Attempts(a + b) <==> Attempts(a) || Attempts(b)
    ensures AllConflict(a + b) <==> AllConflict(a) && AllConflict(b)
  {
    assert forall s :: s in a + b <==> s in a || s in b;
  }

  /** One action's plan, then the rest's; the rest starts with the flag the action left. */
  lemma TellsOn(up: Plan, down: Plan, upRest: Plan, downRest: Plan)
    requires Told(up, down) && (down.fired || Told(upRest, downRest))
    requires upRest.fired && AllConflict(upRest.steps)
    ensures Told(Plan(up.steps + upRest.steps, upRest.fired, up.outcomes + upRest.outcomes),
                 Plan(down.steps + downRest.steps, downRest.fired, down.outcomes + downRest.outcomes))
  {
    AttemptsJoin(up.steps, upRest.steps);
    AttemptsJoin(down.steps, downRest.steps);
  }

  lemma {:induction false} ActionsTell(w: Ctx, rule: RuleRef, base: Path, i: nat, rest: seq<Action>, depth: nat)
    requires depth <= MAX_RULE_CAUSATION_DEPTH
    ensures Told(PlanActions(w, true, rule, base, i, rest, depth), PlanActions(w, false, rule, base, i, rest, depth))
    decreases MAX_RULE_CAUSATION_DEPTH - depth, |rest|
  {
    if rest != [] {
      var site := Site(rule, base + [At(i)]);
      var up, down := PlanAction(w, true, site, rest[0], depth), PlanAction(w, false, site, rest[0], depth);
      ActionTells(w, site, rest[0], depth);
      ActionsTell(w, rule, base, i + 1, rest[1..], depth);
      TellsOn(up, down, PlanActions(w, true, rule, base, i + 1, rest[1..], depth),
              PlanActions(w, down.fired, rule, base, i + 1, rest[1..], depth));
    }
  }

  lemma {:induction false} ActionTells(w: Ctx, site: Site, a: Action, depth: nat)
    requires depth <= MAX_RULE_CAUSATION_DEPTH
    ensures Told(PlanAction(w, true, site, a, depth), PlanAction(w, false, site, a, depth))
    decreases MAX_RULE_CAUSATION_DEPTH - depth, 0
  {
    if RunsNested(w, site, a, depth) {
      NestedSteps(w, true, site, a, depth);
      NestedSteps(w, false, site, a, depth);
      ActionsTell(w, site.rule, NestedBase(site, a), 0, w.automations[a.automationId].actions, depth + 1);
      NestedTells(w, site, a, depth, NestedPlan(w, true, site, a, depth), NestedPlan(w, false, site, a, depth));
    } else {
      SingleTells(w, site, a, depth);
    }
  }

  function Wrapped(w: Ctx, site: Site, a: Action, depth: nat, nested: Plan): Plan {
    var o := NestedOutcome(w, site, nested.outcomes);
    Plan(nested.steps + [Act(site, depth, a, o.verdict, NoEffect)], nested.fired, [o])
  }

  lemma NestedTells(w: Ctx, site: Site, a: Action, depth: nat, up: Plan, down: Plan)
    requires a.RunAutomation? && Told(up, down)
    ensures Told(Wrapped(w, site, a, depth, up), Wrapped(w, site, a, depth, down))
  {
    AttemptsJoin(up.steps, [Act(site, depth, a, NestedOutcome(w, site, up.outcomes).verdict, NoEffect)]);
    AttemptsJoin(down.steps, [Act(site, depth, a, NestedOutcome(w, site, down.outcomes).verdict, NoEffect)]);
  }

  lemma SingleTells(w: Ctx, site: Site, a: Action, depth: nat)
    requires depth <= MAX_RULE_CAUSATION_DEPTH && !RunsNested(w, site, a, depth)
    ensures Told(PlanAction(w, true, site, a, depth), PlanAction(w, false, site, a, depth))
  {
    var up, down := PlanAction(w, true, site, a, depth), PlanAction(w, false, site, a, depth);
    SingleStep(w, true, site, a, depth);
    SingleStep(w, false, site, a, depth);
    assert up.steps[0] in up.steps && down.steps[0] in down.steps;
  }

  lemma RuleTells(w: Ctx, rule: Rule, depth: nat)
    ensures depth <= MAX_RULE_CAUSATION_DEPTH ==> Told(PlanRule(w, true, rule, depth), PlanRule(w, false, rule, depth))
    ensures depth > MAX_RULE_CAUSATION_DEPTH ==> forall fired :: PlanRule(w, fired, rule, depth) == Plan([], fired, [])
  {
    if depth <= MAX_RULE_CAUSATION_DEPTH {
      ActionsTell(w, rule.ref, [], 0, rule.actions, depth);
    }
  }

  /** With the flag up, the pass over these rules reaches a terminal action before it reads the
      row of one that was executed: there it matters that the flag is up. */
  predicate Heeds(w: Ctx, runs: map<RunKey, Run>, rules: seq<Rule>, depth: nat)
    decreases |rules|
  {
    rules != [] &&
      var key := RunKey(rules[0].ref, w.eventId);
      if key in runs then !runs[key].terminal && Heeds(w, runs, rules[1..], depth)
      else
        var p := PlanRule(w, true, rules[0], depth);
        Attempts(p.steps) || Heeds(w, runs[key := RunOf(p, depth)], rules[1..], depth)
  }

  /** Exactly then the pass with the flag down has another plan. */
  lemma {:induction false} HeedsIff(w: Ctx, runs: map<RunKey, Run>, rules: seq<Rule>, depth: nat)
    ensures PlanPass(w, runs, true, rules, depth).steps == PlanPass(w, runs, false, rules, depth).steps
            <==> !Heeds(w, runs, rules, depth)
    decreases |rules|
  {
    if rules != [] {
      var key := RunKey(rules[0].ref, w.eventId);
      if key in runs {
        HeedsIff(w, runs, rules[1..], depth);
      } else {
        var up, down := PlanRule(w, true, rules[0], depth), PlanRule(w, false, rules[0], depth);
        RuleTells(w, rules[0], depth);
        HeedsIff(w, runs[key := RunOf(up, depth)], rules[1..], depth);
        RuleActs(w, true, rules[0], depth);
        RuleActs(w, false, rules[0], depth);
        HeadsSplit(up.steps, down.steps, Record(key, RunOf(up, depth)), Record(key, RunOf(down, depth)),
                   PlanPass(w, runs[key := RunOf(up, depth)], up.fired, rules[1..], depth).steps,
                   PlanPass(w, runs[key := RunOf(down, depth)], down.fired, rules[1..], depth).steps);
      }
    }
  }

  function FirstRow(steps: seq<Step>): nat {
    if steps == [] || steps[0].Record? then 0 else 1 + FirstRow(steps[1..])
  }

  lemma {:induction false} FirstRowIs(a: seq<Step>, r: Step, x: seq<Step>)
    requires ActsOnly(a) && r.Record?
    ensures FirstRow(a + [r] + x) == |a|
  {
    if a != [] {
      assert a[0] in a;
      assert (a + [r] + x)[1..] == a[1..] + [r] + x;
      FirstRowIs(a[1..], r, x);
    }
  }

  /** Where the first row is decides where the actions before it end. */
  lemma HeadsSplit(a: seq<Step>, b: seq<Step>, r: Step, s: Step, x: seq<Step>, y: seq<Step>)
    requires ActsOnly(a) && ActsOnly(b) && r.Record? && s.Record?
    ensures a + [r] + x == b + [s] + y <==> a == b && r == s && x == y
  {
    var left, right := a + [r] + x, b + [s] + y;
    FirstRowIs(a, r, x);
    FirstRowIs(b, s, y);
    assert a == left[..|a|] && b == right[..|b|] && x == left[|a| + 1..] && y == right[|b| + 1..];
    assert left[|a|] == r && right[|b|] == s;
  }
}
