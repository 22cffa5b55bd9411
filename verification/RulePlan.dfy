/** What a pass over matched rules does, as a plan of steps that depends only on stored
    rule content, the event and which calls throw - never on the tags, stages, flags or
    suppressions the steps themselves write. */
module RulePlan {
  import opened Options
  import opened RuleModel

  datatype Verdict = Applied | Conflict | Refused | Failed

  /** One crash-atomic step of a delivery: an action execution or a run row. */
  datatype Step =
    | Act(site: Site, depth: nat, action: Action, verdict: Verdict, effect: Effect)
    | Record(key: RunKey, run: Run)

  datatype Outcome = Outcome(verdict: Verdict, terminal: bool)

  /** The steps, the shared terminal flag after them and one outcome per listed action. */
  datatype Plan = Plan(steps: seq<Step>, fired: bool, outcomes: seq<Outcome>)

  function Apply(db: Db, s: Step): Db {
    match s
    case Act(_, _, _, _, f) => ApplyEffect(db, f)
    case Record(k, run) => db.(runs := db.runs[k := run])
  }

  function Fold(db: Db, steps: seq<Step>): Db
    decreases |steps|
  {
    if steps == [] then db else Fold(Apply(db, steps[0]), steps[1..])
  }

  /** The steps that still run when the worker dies after n of them. */
  function Cut<T>(steps: seq<T>, n: nat): seq<T> {
    if |steps| <= n then steps else steps[..n]
  }

  predicate AnyTerminal(os: seq<Outcome>) { exists o :: o in os && o.terminal }
  predicate AnyVerdict(os: seq<Outcome>, v: Verdict) { exists o :: o in os && o.verdict == v }

  function PlanLeaf(w: Ctx, fired: bool, site: Site, a: Action, depth: nat): Plan
    requires !a.RunAutomation?
  {
    if IsTerminal(a) && fired then
      Plan([Act(site, depth, a, Conflict, NoEffect)], fired, [Outcome(Conflict, false)])
    else
      match EffectOf(w, site, a)
      case None => Plan([Act(site, depth, a, Failed, NoEffect)], fired, [Outcome(Failed, false)])
      case Some(f) =>
        Plan([Act(site, depth, a, Applied, f)], fired || IsTerminal(a), [Outcome(Applied, IsTerminal(a))])
  }

  function PlanAction(w: Ctx, fired: bool, site: Site, a: Action, depth: nat): Plan
    requires depth <= MAX_RULE_CAUSATION_DEPTH
    decreases MAX_RULE_CAUSATION_DEPTH - depth, 0
  {
    if !a.RunAutomation? then PlanLeaf(w, fired, site, a, depth)
    else
      var id := a.automationId;
      if site in w.faults || id !in w.automations || !w.automations[id].enabled then
        Plan([Act(site, depth, a, Failed, NoEffect)], fired, [Outcome(Failed, false)])
      else if depth + 1 > MAX_RULE_CAUSATION_DEPTH then
        var v := if site in w.recordFaults then Failed else Refused;
        Plan([Act(site, depth, a, v, NoEffect)], fired, [Outcome(v, false)])
      else if w.automations[id].actions == [] then
        Plan([Act(site, depth, a, Failed, NoEffect)], fired, [Outcome(Failed, false)])
      else
        var nested := PlanActions(w, fired, site.rule, site.path + [Auto(id)], 0, w.automations[id].actions, depth + 1);
        var o := NestedOutcome(w, site, nested.outcomes);
        Plan(nested.steps + [Act(site, depth, a, o.verdict, NoEffect)], nested.fired, [o])
  }

  /** The run_automation goes on to execute the automation's own actions. */
  predicate RunsNested(w: Ctx, site: Site, a: Action, depth: nat) {
    && a.RunAutomation? && site !in w.faults && depth < MAX_RULE_CAUSATION_DEPTH
    && a.automationId in w.automations && w.automations[a.automationId].enabled
    && w.automations[a.automationId].actions != []
  }

  function NestedBase(site: Site, a: Action): Path
    requires a.RunAutomation?
  {
    site.path + [Auto(a.automationId)]
  }

  function NestedPlan(w: Ctx, fired: bool, site: Site, a: Action, depth: nat): Plan
    requires RunsNested(w, site, a, depth)
  {
    PlanActions(w, fired, site.rule, NestedBase(site, a), 0, w.automations[a.automationId].actions, depth + 1)
  }

  /** Everything but such a run_automation is a single step at its own site. */
  lemma SingleStep(w: Ctx, fired: bool, site: Site, a: Action, depth: nat)
    requires depth <= MAX_RULE_CAUSATION_DEPTH && !RunsNested(w, site, a, depth)
    ensures var p := PlanAction(w, fired, site, a, depth);
            && |p.steps| == 1 && p.steps[0].Act? && p.steps[0].site == site
            && p.steps[0].action == a && p.steps[0].depth == depth
            && p.outcomes == [Outcome(p.steps[0].verdict, p.steps[0].verdict == Applied && IsTerminal(a))]
            && (p.steps[0].verdict == Applied && IsTerminal(a) ==> !fired)
            && p.fired == (fired || (p.steps[0].verdict == Applied && IsTerminal(a)))
  {}

  lemma NestedSteps(w: Ctx, fired: bool, site: Site, a: Action, depth: nat)
    requires depth <= MAX_RULE_CAUSATION_DEPTH && RunsNested(w, site, a, depth)
    ensures var nested := NestedPlan(w, fired, site, a, depth);
            var o := NestedOutcome(w, site, nested.outcomes);
            PlanAction(w, fired, site, a, depth) == Plan(nested.steps + [Act(site, depth, a, o.verdict, NoEffect)], nested.fired, [o])
  {}

  /** A nested failure or refusal makes the run_automation an error; a history row that
      cannot be written loses the nested outcomes, terminal mark included. */
  function NestedOutcome(w: Ctx, site: Site, os: seq<Outcome>): Outcome {
    if site in w.recordFaults then Outcome(Failed, false)
    else Outcome(if AnyVerdict(os, Failed) || AnyVerdict(os, Refused) then Failed else Applied, AnyTerminal(os))
  }

  /** The actions `rest`, the first of which has index i under `base`. */
  function PlanActions(w: Ctx, fired: bool, rule: RuleRef, base: Path, i: nat, rest: seq<Action>, depth: nat): Plan
    requires depth <= MAX_RULE_CAUSATION_DEPTH
    decreases MAX_RULE_CAUSATION_DEPTH - depth, |rest|
  {
    if rest == [] then Plan([], fired, [])
    else
      var p := PlanAction(w, fired, Site(rule, base + [At(i)]), rest[0], depth);
      var q := PlanActions(w, p.fired, rule, base, i + 1, rest[1..], depth);
      Plan(p.steps + q.steps, q.fired, p.outcomes + q.outcomes)
  }

  /** What one matched rule executes; a context past the depth limit executes nothing. */
  function PlanRule(w: Ctx, fired: bool, rule: Rule, depth: nat): Plan {
    if depth > MAX_RULE_CAUSATION_DEPTH then Plan([], fired, [])
    else PlanActions(w, fired, rule.ref, [], 0, rule.actions, depth)
  }

  function RunOf(p: Plan, depth: nat): Run {
    Run(
      if depth > MAX_RULE_CAUSATION_DEPTH then RefusedDepth
      else if AnyVerdict(p.outcomes, Conflict) then SkippedConflict
      else if AnyVerdict(p.outcomes, Refused) then RefusedDepth
      else if AnyVerdict(p.outcomes, Failed) then Errored
      else Fired,
      AnyTerminal(p.outcomes), depth)
  }

  /** A pass over matched rules: steps, final shared flag, and the summary's flag. */
  datatype Pass = Pass(steps: seq<Step>, fired: bool, terminalFired: bool)

  function PlanPass(w: Ctx, runs: map<RunKey, Run>, fired: bool, rules: seq<Rule>, depth: nat): Pass
    decreases |rules|
  {
    if rules == [] then Pass([], fired, false)
    else
      var key := RunKey(rules[0].ref, w.eventId);
      if key in runs then
        var rest := PlanPass(w, runs, fired || runs[key].terminal, rules[1..], depth);
        Pass(rest.steps, rest.fired, runs[key].terminal || rest.terminalFired)
      else
        var p := PlanRule(w, fired, rules[0], depth);
        var run := RunOf(p, depth);
        var rest := PlanPass(w, runs[key := run], p.fired, rules[1..], depth);
        Pass(p.steps + [Record(key, run)] + rest.steps, rest.fired, run.terminal || rest.terminalFired)
  }
}
