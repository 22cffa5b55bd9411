/** How every action of a rule ends, kind by kind: what it needs, when it meets the
    terminal flag, and what a run_automation makes of the actions below it. */
module Verdicts {
  import opened RuleModel
  import opened RulePlan
  import opened CrashAbsorption
  import opened TerminalDiscipline
  import opened ActionPaths
  import opened RunRows

  /** The action throws or is refused by what it finds, with nothing to do it on, no seam
      to do it with, or a storage or workflow call that fails. */
  predicate Errs(w: Ctx, site: Site, a: Action) {
    var fault := site in w.faults;
    || (a.MoveToNode? && (w.enrollment.Absent? || !w.moveWired || fault))
    || ((a.EndEnrollment? || a.PauseEnrollment? || a.SetStage?) && (!w.enrollment.Present? || fault))
    || (a.SuppressContact? && (!w.contact.Present? || w.enrollment.Dangling? || fault))
    || (a.AddTag? && (!w.contact.Present? || fault))
    || ((a.SendBookingLink? || a.SendPaymentLink?) && (w.enrollment.Dangling? || (w.enrollment.Present? && fault)))
    || (a.CreateCrmDeal? && !w.contact.Absent? && w.crmWired && fault)
    || (a.UpdateDealStage? && !w.contact.Absent? && !w.enrollment.Absent? && w.crmWired && fault)
  }

  predicate Stops(a: Action) { a.MoveToNode? || a.EndEnrollment? || a.PauseEnrollment? || a.SuppressContact? }

  /** The automation is there, enabled and not empty, and may still go one level deeper. */
  predicate GoesDeeper(w: Ctx, s: Step)
    requires s.Act? && s.action.RunAutomation?
  {
    var id := s.action.automationId;
    && s.site !in w.faults && id in w.automations && w.automations[id].enabled
    && w.automations[id].actions != [] && s.depth < MAX_RULE_CAUSATION_DEPTH
  }

  function Below(s: Step): Path
    requires s.Act? && s.action.RunAutomation?
  {
    s.site.path + [Auto(s.action.automationId)]
  }

  predicate AtDepth(steps: seq<Step>, rule: RuleRef, base: Path, d: nat) {
    forall s :: s in steps && Own(s, rule, base) ==> s.depth == d
  }

  /** A run_automation runs all the automation's actions one level deeper or none, is
      refused past the limit, and fails with them or with its own history row. */
  predicate RunTold(w: Ctx, steps: seq<Step>, s: Step)
    requires s.Act? && s.action.RunAutomation?
  {
    var rule, below, id := s.site.rule, Below(s), s.action.automationId;
    if GoesDeeper(w, s) then
      && OwnActions(steps, rule, below) == Positions(below, 0, w.automations[id].actions)
      && AtDepth(steps, rule, below, s.depth + 1)
      && s.verdict == if s.site in w.recordFaults || Ended(steps, rule, below, Failed) || Ended(steps, rule, below, Refused)
                      then Failed else Applied
    else
      && OwnActions(steps, rule, below) == []
      && s.verdict == if s.site !in w.faults && id in w.automations && w.automations[id].enabled
                         && s.depth == MAX_RULE_CAUSATION_DEPTH && s.site !in w.recordFaults
                      then Refused else Failed
  }

  /** The k-th step ends as it should, given the flag before the list. */
  predicate Told(w: Ctx, fired: bool, steps: seq<Step>, k: nat)
    requires k < |steps|
  {
    var s := steps[k];
    && s.Act? && s.depth <= MAX_RULE_CAUSATION_DEPTH
    && if s.action.RunAutomation? then RunTold(w, steps, s)
       else s.verdict == if Stops(s.action) && (fired || Firings(steps[..k]) > 0) then Conflict
                         else if Errs(w, s.site, s.action) then Failed else Applied
  }

  predicate AllTold(w: Ctx, fired: bool, steps: seq<Step>) {
    forall k :: 0 <= k < |steps| ==> Told(w, fired, steps, k)
  }

  // ---- Steps elsewhere do not matter --------------------------------------------------

  predicate NoneBelow(steps: seq<Step>, s: Step)
    requires s.Act? && s.action.RunAutomation?
  {
    forall t :: t in steps ==> !Own(t, s.site.rule, Below(s))
  }

  lemma RunToldAmong(w: Ctx, before: seq<Step>, part: seq<Step>, after: seq<Step>, s: Step)
    requires s.Act? && s.action.RunAutomation? && RunTold(w, part, s) && NoneBelow(before, s) && NoneBelow(after, s)
    ensures RunTold(w, before + part + after, s)
  {
    var rule, below, all := s.site.rule, Below(s), before + part + after;
    OwnActionsJoin(before + part, after, rule, below);
    OwnActionsJoin(before, part, rule, below);
    DeeperAreNotOwn(before, rule, below);
    DeeperAreNotOwn(after, rule, below);
    assert forall t :: t in all <==> t in before || t in part || t in after;
    assert forall v :: Ended(all, rule, below, v) <==> Ended(part, rule, below, v);
  }

  lemma ToldAmong(w: Ctx, fired: bool, before: seq<Step>, part: seq<Step>, after: seq<Step>, k: nat)
    requires k < |part| && Told(w, fired || Firings(before) > 0, part, k)
    requires part[k].action.RunAutomation? ==> NoneBelow(before, part[k]) && NoneBelow(after, part[k])
    ensures Told(w, fired, before + part + after, |before| + k)
  {
    var all := before + part + after;
    assert all[|before| + k] == part[k];
    assert all[..|before| + k] == before + part[..k];
    FiringsConcat(before, part[..k]);
    if part[k].action.RunAutomation? {
      RunToldAmong(w, before, part, after, part[k]);
    }
  }

  // ---- Lists and rules ------------------------------------------------------------------

  /** Every step of a list of actions, at every depth, ends as told. */
  lemma {:induction false} ListTold(w: Ctx, fired: bool, rule: RuleRef, base: Path, i: nat, rest: seq<Action>, depth: nat)
    requires depth <= MAX_RULE_CAUSATION_DEPTH
    ensures AllTold(w, fired, PlanActions(w, fired, rule, base, i, rest, depth).steps)
    decreases MAX_RULE_CAUSATION_DEPTH - depth, |rest|
  {
    if rest != [] {
      var site := Site(rule, base + [At(i)]);
      var p := PlanAction(w, fired, site, rest[0], depth);
      var q := PlanActions(w, p.fired, rule, base, i + 1, rest[1..], depth);
      OneActionTold(w, fired, site, rest[0], depth);
      OneActionObeysFlag(w, fired, site, rest[0], depth);
      OneActionsSites(w, fired, site, rest[0], depth);
      PrintsAreDistinct(w, p.fired, rule, base, i + 1, rest[1..], depth);
      ListTold(w, p.fired, rule, base, i + 1, rest[1..], depth);
      JoinTold(w, fired, p.steps, q.steps, rule, base, i);
    }
  }

  /** Actions side by side. */
  predicate SideBySide(p: seq<Step>, q: seq<Step>, rule: RuleRef, base: Path, i: nat) {
    && (forall s :: s in p ==> AtOrBelow(s, Site(rule, base + [At(i)])))
    && AllUnder(q, rule, base, i + 1)
  }

  lemma JoinTold(w: Ctx, fired: bool, p: seq<Step>, q: seq<Step>, rule: RuleRef, base: Path, i: nat)
    requires AllTold(w, fired, p) && AllTold(w, fired || Firings(p) > 0, q) && SideBySide(p, q, rule, base, i)
    ensures AllTold(w, fired, p + q)
  {
    forall k | 0 <= k < |p + q|
      ensures Told(w, fired, p + q, k)
    {
      if k < |p| {
        FirstTold(w, fired, p, q, rule, base, i, k);
      } else {
        SecondTold(w, fired, p, q, rule, base, i, k - |p|);
      }
    }
  }

  lemma FirstTold(w: Ctx, fired: bool, p: seq<Step>, q: seq<Step>, rule: RuleRef, base: Path, i: nat, k: nat)
    requires k < |p| && Told(w, fired, p, k) && SideBySide(p, q, rule, base, i)
    ensures Told(w, fired, p + q, k)
  {
    assert [] + p + q == p + q && Firings([]) == 0;
    if p[k].action.RunAutomation? {
      NoneUnderLater(p[k], q, rule, base, i);
    }
    ToldAmong(w, fired, [], p, q, k);
  }

  lemma SecondTold(w: Ctx, fired: bool, p: seq<Step>, q: seq<Step>, rule: RuleRef, base: Path, i: nat, k: nat)
    requires k < |q| && Told(w, fired || Firings(p) > 0, q, k) && SideBySide(p, q, rule, base, i)
    ensures Told(w, fired, p + q, |p| + k)
  {
    assert p + q + [] == p + q;
    if q[k].action.RunAutomation? {
      NoneUnderEarlier(p, q[k], rule, base, i);
    }
    ToldAmong(w, fired, p, q, [], k);
  }

  lemma PrefixAt(p: Path, base: Path, n: nat)
    ensures n < |base| && Under(p, base, 0) ==> p[n] == base[n]
  {}

  lemma NoneUnderLater(s: Step, q: seq<Step>, rule: RuleRef, base: Path, i: nat)
    requires s.Act? && s.action.RunAutomation? && AtOrBelow(s, Site(rule, base + [At(i)])) && AllUnder(q, rule, base, i + 1)
    ensures NoneBelow(q, s)
  {
    assert s.site.path[|base|] == s.site.path[..|base| + 1][|base|] == At(i);
    forall t | t in q
      ensures !Own(t, s.site.rule, Below(s))
    {
      PrefixAt(t.site.path, Below(s), |base|);
    }
  }

  lemma NoneUnderEarlier(p: seq<Step>, t: Step, rule: RuleRef, base: Path, i: nat)
    requires t.Act? && t.action.RunAutomation? && t.site.rule == rule && Under(t.site.path, base, i + 1)
    requires forall s :: s in p ==> AtOrBelow(s, Site(rule, base + [At(i)]))
    ensures NoneBelow(p, t)
  {
    forall s | s in p
      ensures !Own(s, t.site.rule, Below(t))
    {
      assert s.site.path[|base|] == s.site.path[..|base| + 1][|base|] == At(i);
      PrefixAt(s.site.path, Below(t), |base|);
    }
  }

  lemma {:induction false} OneActionTold(w: Ctx, fired: bool, site: Site, a: Action, depth: nat)
    requires depth <= MAX_RULE_CAUSATION_DEPTH
    ensures AllTold(w, fired, PlanAction(w, fired, site, a, depth).steps)
    decreases MAX_RULE_CAUSATION_DEPTH - depth, 0, 1
  {
    if RunsNested(w, site, a, depth) {
      NestedTold(w, fired, site, a, depth);
    } else {
      SingleTold(w, fired, site, a, depth);
    }
  }

  lemma SingleTold(w: Ctx, fired: bool, site: Site, a: Action, depth: nat)
    requires depth <= MAX_RULE_CAUSATION_DEPTH && !RunsNested(w, site, a, depth)
    ensures AllTold(w, fired, PlanAction(w, fired, site, a, depth).steps)
  {
    var steps := PlanAction(w, fired, site, a, depth).steps;
    SingleStep(w, fired, site, a, depth);
    assert steps[..0] == [];
    if a.RunAutomation? {
      assert NoneBelow(steps, steps[0]);
      DeeperAreNotOwn(steps, site.rule, Below(steps[0]));
    }
  }

  lemma {:induction false} NestedTold(w: Ctx, fired: bool, site: Site, a: Action, depth: nat)
    requires depth <= MAX_RULE_CAUSATION_DEPTH && RunsNested(w, site, a, depth)
    ensures AllTold(w, fired, PlanAction(w, fired, site, a, depth).steps)
    decreases MAX_RULE_CAUSATION_DEPTH - depth, 0, 0
  {
    var nested := NestedPlan(w, fired, site, a, depth);
    var own := Act(site, depth, a, NestedOutcome(w, site, nested.outcomes).verdict, NoEffect);
    NestedSteps(w, fired, site, a, depth);
    ListTold(w, fired, site.rule, NestedBase(site, a), 0, w.automations[a.automationId].actions, depth + 1);
    RunnerTold(w, fired, site, a, depth, own);
    WithRunner(w, fired, nested.steps, own);
  }

  lemma RunnerTold(w: Ctx, fired: bool, site: Site, a: Action, depth: nat, own: Step)
    requires depth <= MAX_RULE_CAUSATION_DEPTH && RunsNested(w, site, a, depth)
    requires own == Act(site, depth, a, NestedOutcome(w, site, NestedPlan(w, fired, site, a, depth).outcomes).verdict, NoEffect)
    ensures var nested := NestedPlan(w, fired, site, a, depth);
            RunTold(w, nested.steps, own) && AllUnder(nested.steps, site.rule, Below(own), 0)
  {
    var nested := NestedPlan(w, fired, site, a, depth);
    ListFacts(w, fired, site.rule, Below(own), w.automations[a.automationId].actions, depth + 1);
    RunnerOf(w, nested.steps, nested.outcomes, own);
  }

  /** What is needed of a list as a whole. */
  predicate Listing(p: Plan, rule: RuleRef, base: Path, actions: seq<Action>, depth: nat) {
    && OwnActions(p.steps, rule, base) == Positions(base, 0, actions)
    && AtDepth(p.steps, rule, base, depth)
    && AllUnder(p.steps, rule, base, 0)
    && forall v :: AnyVerdict(p.outcomes, v) <==> Ended(p.steps, rule, base, v)
  }

  lemma ListFacts(w: Ctx, fired: bool, rule: RuleRef, base: Path, actions: seq<Action>, depth: nat)
    requires depth <= MAX_RULE_CAUSATION_DEPTH
    ensures Listing(PlanActions(w, fired, rule, base, 0, actions, depth), rule, base, actions, depth)
  {
    ListUnder(w, fired, rule, base, actions, depth);
    ListedOnce(w, fired, rule, base, 0, actions, depth);
    OwnDepth(w, fired, rule, base, 0, actions, depth);
    forall v
      ensures var p := PlanActions(w, fired, rule, base, 0, actions, depth);
              AnyVerdict(p.outcomes, v) <==> Ended(p.steps, rule, base, v)
    {
      OutcomesAreOwn(w, fired, rule, base, 0, actions, depth, v);
    }
  }

  lemma ListUnder(w: Ctx, fired: bool, rule: RuleRef, base: Path, actions: seq<Action>, depth: nat)
    requires depth <= MAX_RULE_CAUSATION_DEPTH
    ensures AllUnder(PlanActions(w, fired, rule, base, 0, actions, depth).steps, rule, base, 0)
  {
    PrintsAreDistinct(w, fired, rule, base, 0, actions, depth);
  }

  lemma RunnerOf(w: Ctx, steps: seq<Step>, outcomes: seq<Outcome>, own: Step)
    requires own.Act? && own.action.RunAutomation? && GoesDeeper(w, own)
    requires own.verdict == NestedOutcome(w, own.site, outcomes).verdict
    requires OwnActions(steps, own.site.rule, Below(own)) == Positions(Below(own), 0, w.automations[own.action.automationId].actions)
    requires AtDepth(steps, own.site.rule, Below(own), own.depth + 1)
    requires forall v :: AnyVerdict(outcomes, v) <==> Ended(steps, own.site.rule, Below(own), v)
    ensures RunTold(w, steps, own)
  {}

  /** The nested list, then the step of the action that ran it. */
  lemma WithRunner(w: Ctx, fired: bool, nested: seq<Step>, own: Step)
    requires own.Act? && own.action.RunAutomation? && own.depth <= MAX_RULE_CAUSATION_DEPTH
    requires RunTold(w, nested, own) && AllTold(w, fired, nested)
    requires AllUnder(nested, own.site.rule, Below(own), 0)
    ensures AllTold(w, fired, nested + [own])
  {
    RunnerIsTold(w, fired, nested, own);
    forall k | 0 <= k < |nested + [own]|
      ensures Told(w, fired, nested + [own], k)
    {
      if k < |nested| {
        BelowIsTold(w, fired, nested, own, k);
      }
    }
  }

  lemma BelowIsTold(w: Ctx, fired: bool, nested: seq<Step>, own: Step, k: nat)
    requires own.Act? && own.action.RunAutomation? && AllUnder(nested, own.site.rule, Below(own), 0)
    requires k < |nested| && Told(w, fired, nested, k)
    ensures Told(w, fired, nested + [own], k)
  {
    assert [] + nested + [own] == nested + [own] && Firings([]) == 0;
    assert nested[k] in nested;
    ToldAmong(w, fired, [], nested, [own], k);
  }

  lemma RunnerIsTold(w: Ctx, fired: bool, nested: seq<Step>, own: Step)
    requires own.Act? && own.action.RunAutomation? && own.depth <= MAX_RULE_CAUSATION_DEPTH && RunTold(w, nested, own)
    ensures Told(w, fired, nested + [own], |nested|)
  {
    assert [] + nested + [own] == nested + [own];
    assert NoneBelow([own], own);
    RunToldAmong(w, [], nested, [own], own);
  }

  lemma {:induction false} OwnDepth(w: Ctx, fired: bool, rule: RuleRef, base: Path, i: nat, rest: seq<Action>, depth: nat)
    requires depth <= MAX_RULE_CAUSATION_DEPTH
    ensures AtDepth(PlanActions(w, fired, rule, base, i, rest, depth).steps, rule, base, depth)
    decreases |rest|
  {
    if rest != [] {
      var p := PlanAction(w, fired, Site(rule, base + [At(i)]), rest[0], depth);
      OneIsTopped(w, fired, rule, base, i, rest[0], depth);
      assert p.steps == p.steps[..|p.steps| - 1] + [p.steps[|p.steps| - 1]];
      OwnDepth(w, p.fired, rule, base, i + 1, rest[1..], depth);
    }
  }

  /** Every action that a rule executes, directly or through automations at any depth,
      ends as its kind, the rows it finds, the failing calls and the terminal flag say. */
  lemma RuleTold(w: Ctx, fired: bool, rule: Rule, depth: nat)
    ensures AllTold(w, fired, PlanRule(w, fired, rule, depth).steps)
  {
    if depth <= MAX_RULE_CAUSATION_DEPTH {
      ListTold(w, fired, rule.ref, [], 0, rule.actions, depth);
    }
  }
}
