/** What the rows and the outcomes of a pass say about the steps it is made of, read off
    the steps' own sites, actions and verdicts. */
module RunRows {
  import opened RuleModel
  import opened RulePlan
  import opened CrashAbsorption
  import opened TerminalDiscipline
  import opened ActionPaths

  /** The step of an action listed directly under `base`, not of one nested deeper. */
  predicate Own(s: Step, rule: RuleRef, base: Path) {
    s.Act? && s.site.rule == rule && |s.site.path| == |base| + 1 && Under(s.site.path, base, 0)
  }

  /** One of the actions listed under `base` ended with verdict v. */
  predicate Ended(steps: seq<Step>, rule: RuleRef, base: Path, v: Verdict) {
    exists s :: s in steps && Own(s, rule, base) && s.verdict == v
  }

  lemma EndedJoin(a: seq<Step>, b: seq<Step>, rule: RuleRef, base: Path, v: Verdict)
    ensures Ended(a + b, rule, base, v) <==> Ended(a, rule, base, v) || Ended(b, rule, base, v)
  {
    assert forall s :: s in a + b <==> s in a || s in b;
  }

  lemma VerdictJoin(a: seq<Outcome>, b: seq<Outcome>, v: Verdict)
    ensures AnyVerdict(a + b, v) <==> AnyVerdict(a, v) || AnyVerdict(b, v)
  {}

  // ---- The outcomes of a list --------------------------------------------------------

  /** The outcomes of a list are those of its own actions, whatever ran below them. */
  lemma {:induction false} OutcomesAreOwn(w: Ctx, fired: bool, rule: RuleRef, base: Path, i: nat, rest: seq<Action>, depth: nat, v: Verdict)
    requires depth <= MAX_RULE_CAUSATION_DEPTH
    ensures var p := PlanActions(w, fired, rule, base, i, rest, depth);
            AnyVerdict(p.outcomes, v) <==> Ended(p.steps, rule, base, v)
    decreases |rest|
  {
    if rest != [] {
      var site := Site(rule, base + [At(i)]);
      var p := PlanAction(w, fired, site, rest[0], depth);
      var q := PlanActions(w, p.fired, rule, base, i + 1, rest[1..], depth);
      OneIsTopped(w, fired, rule, base, i, rest[0], depth);
      ToppedEnds(p, rule, base, i, rest[0], depth, v);
      OutcomesAreOwn(w, p.fired, rule, base, i + 1, rest[1..], depth, v);
      VerdictJoin(p.outcomes, q.outcomes, v);
      EndedJoin(p.steps, q.steps, rule, base, v);
    }
  }

  /** The plan of one listed action: its own step is the last, the others sit deeper. */
  predicate Topped(p: Plan, rule: RuleRef, base: Path, i: nat, a: Action, depth: nat) {
    && |p.steps| > 0 && |p.outcomes| == 1
    && var own, below := p.steps[|p.steps| - 1], p.steps[..|p.steps| - 1];
    && own.Act? && own.site == Site(rule, base + [At(i)]) && own.action == a && own.depth == depth
    && own.verdict == p.outcomes[0].verdict
    && forall s :: s in below ==> s.Act? && s.site.rule == rule && |s.site.path| > |base| + 1
  }

  lemma OneIsTopped(w: Ctx, fired: bool, rule: RuleRef, base: Path, i: nat, a: Action, depth: nat)
    requires depth <= MAX_RULE_CAUSATION_DEPTH
    ensures Topped(PlanAction(w, fired, Site(rule, base + [At(i)]), a, depth), rule, base, i, a, depth)
  {
    var site := Site(rule, base + [At(i)]);
    if RunsNested(w, site, a, depth) {
      var nested := NestedPlan(w, fired, site, a, depth).steps;
      NestedSteps(w, fired, site, a, depth);
      assert PlanAction(w, fired, site, a, depth).steps[..|nested|] == nested;
      PrintsAreDistinct(w, fired, rule, NestedBase(site, a), 0, w.automations[a.automationId].actions, depth + 1);
    } else {
      SingleStep(w, fired, site, a, depth);
    }
  }

  lemma ToppedEnds(p: Plan, rule: RuleRef, base: Path, i: nat, a: Action, depth: nat, v: Verdict)
    requires Topped(p, rule, base, i, a, depth)
    ensures AnyVerdict(p.outcomes, v) <==> Ended(p.steps, rule, base, v)
    ensures OwnActions(p.steps, rule, base) == [(base + [At(i)], a)]
  {
    var own, below := p.steps[|p.steps| - 1], p.steps[..|p.steps| - 1];
    assert p.steps == below + [own];
    assert (base + [At(i)])[..|base|] == base;
    EndedJoin(below, [own], rule, base, v);
    assert p.outcomes[0] in p.outcomes && own in [own];
    DeeperAreNotOwn(below, rule, base);
    OwnActionsJoin(below, [own], rule, base);
    assert [own][1..] == [];
  }

  // ---- The row of a rule -------------------------------------------------------------

  /** A row that says how the rule's own actions ended. */
  predicate Tells(run: Run, steps: seq<Step>, rule: RuleRef, depth: nat) {
    var conflict, refused := Ended(steps, rule, [], Conflict), Ended(steps, rule, [], Refused);
    && run.depth == depth
    && (run.status.Fired? <==>
          depth <= MAX_RULE_CAUSATION_DEPTH && forall s :: s in steps && Own(s, rule, []) ==> s.verdict == Applied)
    && (run.status.SkippedConflict? <==> depth <= MAX_RULE_CAUSATION_DEPTH && conflict)
    && (run.status.RefusedDepth? <==> depth > MAX_RULE_CAUSATION_DEPTH || (refused && !conflict))
    && (run.status.Errored? <==>
          depth <= MAX_RULE_CAUSATION_DEPTH && Ended(steps, rule, [], Failed) && !conflict && !refused)
  }

  lemma RuleTells(w: Ctx, fired: bool, rule: Rule, depth: nat)
    ensures var p := PlanRule(w, fired, rule, depth);
            Tells(RunOf(p, depth), p.steps, rule.ref, depth)
  {
    var p := PlanRule(w, fired, rule, depth);
    if depth <= MAX_RULE_CAUSATION_DEPTH {
      OutcomesAreOwn(w, fired, rule.ref, [], 0, rule.actions, depth, Conflict);
      OutcomesAreOwn(w, fired, rule.ref, [], 0, rule.actions, depth, Refused);
      OutcomesAreOwn(w, fired, rule.ref, [], 0, rule.actions, depth, Failed);
    }
  }

  /** Steps of other rules do not change what a row says. */
  lemma TellsAmong(run: Run, before: seq<Step>, own: seq<Step>, after: seq<Step>, rule: RuleRef, depth: nat)
    requires Tells(run, own, rule, depth)
    requires forall s :: s in before + after && s.Act? ==> s.site.rule != rule
    ensures Tells(run, before + own + after, rule, depth)
  {
    var all := before + own + after;
    assert forall s :: s in all <==> s in own || s in before + after;
    assert forall s :: s in all && Own(s, rule, []) <==> s in own && Own(s, rule, []);
    assert forall v :: Ended(all, rule, [], v) <==> Ended(own, rule, [], v);
  }

  /** A rule whose row is there is passed over. */
  lemma {:induction false} RecordedIsSkipped(w: Ctx, runs: map<RunKey, Run>, fired: bool, rules: seq<Rule>, depth: nat)
    ensures forall s :: s in PlanPass(w, runs, fired, rules, depth).steps ==>
              if s.Act? then RunKey(s.site.rule, w.eventId) !in runs else s.key !in runs && s.key.eventId == w.eventId
    decreases |rules|
  {
    if rules != [] {
      var key := RunKey(rules[0].ref, w.eventId);
      if key in runs {
        RecordedIsSkipped(w, runs, fired || runs[key].terminal, rules[1..], depth);
      } else {
        var p := PlanRule(w, fired, rules[0], depth);
        RuleStepsAreIts(w, fired, rules[0], depth);
        RecordedIsSkipped(w, runs[key := RunOf(p, depth)], p.fired, rules[1..], depth);
      }
    }
  }

  lemma RuleStepsAreIts(w: Ctx, fired: bool, rule: Rule, depth: nat)
    ensures forall s :: s in PlanRule(w, fired, rule, depth).steps ==> s.Act? && s.site.rule == rule.ref
  {
    if depth <= MAX_RULE_CAUSATION_DEPTH {
      PrintsAreDistinct(w, fired, rule.ref, [], 0, rule.actions, depth);
    }
  }

  /** Every row that a pass writes tells how the actions of its rule ended in that pass:
      fired when all were applied, skipped when one met the terminal flag, else refused
      when one went too deep, else an error; and nothing but refused past the limit. */
  lemma {:induction false} RowsTellActions(w: Ctx, runs: map<RunKey, Run>, fired: bool, rules: seq<Rule>, depth: nat)
    ensures var steps := PlanPass(w, runs, fired, rules, depth).steps;
            forall s :: s in steps && s.Record? ==> Tells(s.run, steps, s.key.rule, depth) && s.key.eventId == w.eventId
    decreases |rules|
  {
    if rules != [] {
      var key := RunKey(rules[0].ref, w.eventId);
      if key in runs {
        RowsTellActions(w, runs, fired || runs[key].terminal, rules[1..], depth);
      } else {
        var p := PlanRule(w, fired, rules[0], depth);
        var run := RunOf(p, depth);
        var rest := PlanPass(w, runs[key := run], p.fired, rules[1..], depth).steps;
        RuleTells(w, fired, rules[0], depth);
        RuleStepsAreIts(w, fired, rules[0], depth);
        RecordedIsSkipped(w, runs[key := run], p.fired, rules[1..], depth);
        RowsTellActions(w, runs[key := run], p.fired, rules[1..], depth);
        var block := p.steps + [Record(key, run)];
        TellsAmong(run, [], p.steps, [Record(key, run)] + rest, rules[0].ref, depth);
        assert [] + p.steps + ([Record(key, run)] + rest) == block + rest;
        forall s: Step | s in block + rest && s.Record?
          ensures Tells(s.run, block + rest, s.key.rule, depth) && s.key.eventId == w.eventId
        {
          if s in rest {
            TellsAmong(s.run, block, rest, [], s.key.rule, depth);
            assert block + rest + [] == block + rest;
          }
        }
      }
    }
  }

  /** Every action listed in a rule that is not refused has exactly one step of its own. */
  lemma {:induction false} ListedOnce(w: Ctx, fired: bool, rule: RuleRef, base: Path, i: nat, rest: seq<Action>, depth: nat)
    requires depth <= MAX_RULE_CAUSATION_DEPTH
    ensures OwnActions(PlanActions(w, fired, rule, base, i, rest, depth).steps, rule, base) == Positions(base, i, rest)
    decreases |rest|
  {
    if rest != [] {
      var site := Site(rule, base + [At(i)]);
      var p := PlanAction(w, fired, site, rest[0], depth);
      var q := PlanActions(w, p.fired, rule, base, i + 1, rest[1..], depth);
      OneIsTopped(w, fired, rule, base, i, rest[0], depth);
      ToppedEnds(p, rule, base, i, rest[0], depth, Applied);
      ListedOnce(w, p.fired, rule, base, i + 1, rest[1..], depth);
      OwnActionsJoin(p.steps, q.steps, rule, base);
    }
  }

  lemma {:induction false} DeeperAreNotOwn(steps: seq<Step>, rule: RuleRef, base: Path)
    requires forall s :: s in steps ==> !Own(s, rule, base)
    ensures OwnActions(steps, rule, base) == []
  {
    if steps != [] {
      assert steps[0] in steps;
      DeeperAreNotOwn(steps[1..], rule, base);
    }
  }

  lemma {:induction false} OwnActionsJoin(a: seq<Step>, b: seq<Step>, rule: RuleRef, base: Path)
    ensures OwnActions(a + b, rule, base) == OwnActions(a, rule, base) + OwnActions(b, rule, base)
  {
    if a == [] {
      assert a + b == b;
    } else {
      assert (a + b)[1..] == a[1..] + b;
      OwnActionsJoin(a[1..], b, rule, base);
    }
  }

  function Positions(base: Path, i: nat, rest: seq<Action>): seq<(Path, Action)>
    decreases |rest|
  {
    if rest == [] then [] else [(base + [At(i)], rest[0])] + Positions(base, i + 1, rest[1..])
  }

  function OwnActions(steps: seq<Step>, rule: RuleRef, base: Path): seq<(Path, Action)> {
    if steps == [] then []
    else (if Own(steps[0], rule, base) then [(steps[0].site.path, steps[0].action)] else []) + OwnActions(steps[1..], rule, base)
  }
}
