/** First terminal wins: the flag shared by reference across rules, scopes and nested
    automations admits at most one terminal action per pass. */
module TerminalDiscipline {
  import opened RuleModel
  import opened RulePlan
  import CrashAbsorption

  /** The step executed a terminal action. */
  predicate Fires(s: Step) { s.Act? && s.verdict == Applied && IsTerminal(s.action) }

  function Firings(steps: seq<Step>): nat {
    if steps == [] then 0 else (if Fires(steps[0]) then 1 else 0) + Firings(steps[1..])
  }

  lemma {:induction false} FiringsConcat(a: seq<Step>, b: seq<Step>)
    ensures Firings(a + b) == Firings(a) + Firings(b)
  {
    if a == [] {
      assert a + b == b;
    } else {
      assert (a + b)[1..] == a[1..] + b;
      FiringsConcat(a[1..], b);
    }
  }

  lemma TerminalSplit(a: seq<Outcome>, b: seq<Outcome>)
    ensures AnyTerminal(a + b) <==> AnyTerminal(a) || AnyTerminal(b)
  {}

  /** The flag counts: it goes up by exactly the terminal actions executed, of which there
      are none once it is up; an outcome marked terminal implies the flag, and conversely
      when every nested history row could be written. */
  lemma {:induction false} ActionsObeyFlag(w: Ctx, fired: bool, rule: RuleRef, base: Path, i: nat, rest: seq<Action>, depth: nat)
    requires depth <= MAX_RULE_CAUSATION_DEPTH
    ensures var p := PlanActions(w, fired, rule, base, i, rest, depth);
            && Firings(p.steps) == (if p.fired && !fired then 1 else 0)
            && (fired ==> p.fired)
            && (AnyTerminal(p.outcomes) ==> p.fired && !fired)
            && (w.recordFaults == {} ==> (p.fired <==> fired || AnyTerminal(p.outcomes)))
    decreases MAX_RULE_CAUSATION_DEPTH - depth, |rest|
  {
    if rest != [] {
      var site := Site(rule, base + [At(i)]);
      var p := PlanAction(w, fired, site, rest[0], depth);
      OneActionObeysFlag(w, fired, site, rest[0], depth);
      var q := PlanActions(w, p.fired, rule, base, i + 1, rest[1..], depth);
      ActionsObeyFlag(w, p.fired, rule, base, i + 1, rest[1..], depth);
      FiringsConcat(p.steps, q.steps);
      TerminalSplit(p.outcomes, q.outcomes);
    }
  }

  lemma {:induction false} OneActionObeysFlag(w: Ctx, fired: bool, site: Site, a: Action, depth: nat)
    requires depth <= MAX_RULE_CAUSATION_DEPTH
    ensures var p := PlanAction(w, fired, site, a, depth);
            && Firings(p.steps) == (if p.fired && !fired then 1 else 0)
            && (fired ==> p.fired)
            && (AnyTerminal(p.outcomes) ==> p.fired && !fired)
            && (w.recordFaults == {} ==> (p.fired <==> fired || AnyTerminal(p.outcomes)))
    decreases MAX_RULE_CAUSATION_DEPTH - depth, 0
  {
    if RunsNested(w, site, a, depth) {
      var nested := NestedPlan(w, fired, site, a, depth);
      NestedSteps(w, fired, site, a, depth);
      ActionsObeyFlag(w, fired, site.rule, NestedBase(site, a), 0, w.automations[a.automationId].actions, depth + 1);
      NestedKeepsCount(w, site, nested, Act(site, depth, a, NestedOutcome(w, site, nested.outcomes).verdict, NoEffect));
    } else {
      SingleStep(w, fired, site, a, depth);
      SingleCount(PlanAction(w, fired, site, a, depth));
    }
  }

  /** The action that ran a nested list is not terminal itself. */
  lemma NestedKeepsCount(w: Ctx, site: Site, nested: Plan, own: Step)
    requires own.Act? && !IsTerminal(own.action)
    ensures Firings(nested.steps + [own]) == Firings(nested.steps)
    ensures var o := NestedOutcome(w, site, nested.outcomes);
            AnyTerminal([o]) <==> site !in w.recordFaults && AnyTerminal(nested.outcomes)
  {
    var o := NestedOutcome(w, site, nested.outcomes);
    FiringsConcat(nested.steps, [own]);
    assert [own][1..] == [] && o in [o];
  }

  lemma SingleCount(p: Plan)
    requires |p.steps| == 1 && |p.outcomes| == 1
    ensures Firings(p.steps) == (if Fires(p.steps[0]) then 1 else 0) && (AnyTerminal(p.outcomes) <==> p.outcomes[0].terminal)
  {
    assert p.steps[1..] == [] && p.outcomes[0] in p.outcomes;
  }

  lemma RuleObeysFlag(w: Ctx, fired: bool, rule: Rule, depth: nat)
    ensures var p := PlanRule(w, fired, rule, depth);
            && Firings(p.steps) == (if p.fired && !fired then 1 else 0)
            && (fired ==> p.fired)
            && (RunOf(p, depth).terminal ==> p.fired && !fired)
            && (w.recordFaults == {} ==> (p.fired <==> fired || RunOf(p, depth).terminal))
  {
    if depth <= MAX_RULE_CAUSATION_DEPTH {
      ActionsObeyFlag(w, fired, rule.ref, [], 0, rule.actions, depth);
    }
  }

  /** Over a whole pass, whatever is already recorded: at most one terminal action is
      executed and none once the flag is up; when storage calls succeed, the summary's
      terminalFired says exactly whether the flag went up. */
  lemma {:induction false} PassObeysFlag(w: Ctx, runs: map<RunKey, Run>, fired: bool, rules: seq<Rule>, depth: nat)
    ensures var p := PlanPass(w, runs, fired, rules, depth);
            && Firings(p.steps) <= (if p.fired && !fired then 1 else 0)
            && (fired ==> p.fired)
            && (p.terminalFired ==> p.fired)
            && (w.recordFaults == {} ==> (p.fired <==> fired || p.terminalFired))
    decreases |rules|
  {
    if rules != [] {
      var key := RunKey(rules[0].ref, w.eventId);
      if key in runs {
        PassObeysFlag(w, runs, fired || runs[key].terminal, rules[1..], depth);
      } else {
        var p := PlanRule(w, fired, rules[0], depth);
        var run := RunOf(p, depth);
        RuleObeysFlag(w, fired, rules[0], depth);
        PassObeysFlag(w, runs[key := run], p.fired, rules[1..], depth);
        var rest := PlanPass(w, runs[key := run], p.fired, rules[1..], depth);
        FiringsConcat(p.steps + [Record(key, run)], rest.steps);
        FiringsConcat(p.steps, [Record(key, run)]);
      }
    }
  }

  /** Campaign rules then account rules, with the flag handed over, are one pass over the
      concatenated list: first terminal wins across scopes. */
  lemma {:induction false} ScopesShareOnePass(w: Ctx, runs: map<RunKey, Run>, fired: bool, a: seq<Rule>, b: seq<Rule>, depth: nat)
    ensures var p := PlanPass(w, runs, fired, a, depth);
            var q := PlanPass(w, RunsAfter(runs, p.steps), p.fired, b, depth);
            PlanPass(w, runs, fired, a + b, depth) == Pass(p.steps + q.steps, q.fired, p.terminalFired || q.terminalFired)
    decreases |a|
  {
    if a == [] {
      assert a + b == b;
      var q := PlanPass(w, runs, fired, b, depth);
      assert [] + q.steps == q.steps;
    } else {
      var key := RunKey(a[0].ref, w.eventId);
      assert (a + b)[0] == a[0] && (a + b)[1..] == a[1..] + b;
      if key in runs {
        ScopesShareOnePass(w, runs, fired || runs[key].terminal, a[1..], b, depth);
      } else {
        var p := PlanRule(w, fired, a[0], depth);
        var run := RunOf(p, depth);
        var runs' := runs[key := run];
        ScopesShareOnePass(w, runs', p.fired, a[1..], b, depth);
        var rest := PlanPass(w, runs', p.fired, a[1..], depth);
        RunsAfterRule(w, runs, fired, a[0], depth, key, run, rest.steps);
        var q := PlanPass(w, RunsAfter(runs', rest.steps), rest.fired, b, depth);
        Regroup(p.steps + [Record(key, run)], rest.steps, q.steps);
      }
    }
  }

  lemma Regroup(a: seq<Step>, b: seq<Step>, c: seq<Step>)
    ensures a + (b + c) == a + b + c
  {}

  /** The run rows after a sequence of steps. */
  function RunsAfter(runs: map<RunKey, Run>, steps: seq<Step>): map<RunKey, Run>
    decreases |steps|
  {
    if steps == [] then runs
    else RunsAfter(if steps[0].Record? then runs[steps[0].key := steps[0].run] else runs, steps[1..])
  }

  lemma {:induction false} RunsAfterConcat(runs: map<RunKey, Run>, a: seq<Step>, b: seq<Step>)
    ensures RunsAfter(runs, a + b) == RunsAfter(RunsAfter(runs, a), b)
    decreases |a|
  {
    if a == [] {
      assert a + b == b;
    } else {
      assert (a + b)[1..] == a[1..] + b;
      RunsAfterConcat(if a[0].Record? then runs[a[0].key := a[0].run] else runs, a[1..], b);
    }
  }

  lemma {:induction false} ActsLeaveRuns(runs: map<RunKey, Run>, steps: seq<Step>)
    requires CrashAbsorption.ActsOnly(steps)
    ensures RunsAfter(runs, steps) == runs
    decreases |steps|
  {
    if steps != [] {
      assert steps[0] in steps;
      ActsLeaveRuns(runs, steps[1..]);
    }
  }

  lemma RunsAfterRule(w: Ctx, runs: map<RunKey, Run>, fired: bool, rule: Rule, depth: nat, key: RunKey, run: Run, rest: seq<Step>)
    ensures RunsAfter(runs, PlanRule(w, fired, rule, depth).steps + [Record(key, run)] + rest)
            == RunsAfter(runs[key := run], rest)
  {
    var acts := PlanRule(w, fired, rule, depth).steps;
    CrashAbsorption.RuleActs(w, fired, rule, depth);
    ActsLeaveRuns(runs, acts);
    RunsAfterConcat(runs, acts + [Record(key, run)], rest);
    RunsAfterConcat(runs, acts, [Record(key, run)]);
    assert RunsAfter(runs, [Record(key, run)]) == runs[key := run];
  }

  lemma {:induction false} FoldRuns(db: Db, steps: seq<Step>)
    ensures Fold(db, steps).runs == RunsAfter(db.runs, steps)
    decreases |steps|
  {
    if steps != [] {
      FoldRuns(Apply(db, steps[0]), steps[1..]);
    }
  }
}
