/** The tree of action executions below a rule: how large it can get, where each execution
    sits in it, and what that position is printed as in a transport's dedupe key. */
module ActionPaths {
  import opened Options
  import opened RuleModel
  import opened RulePlan
  import opened CrashAbsorption
  import opened TerminalDiscipline
  import opened Text

  // ---- Size ------------------------------------------------------------------------

  /** Executions below a list of at most `width` actions with `levels` levels to go. */
  function Tree(width: nat, levels: nat): nat {
    if levels == 0 then 0 else width * (1 + Tree(width, levels - 1))
  }

  /** Whatever the automations refer to - themselves and each other included - no action
      runs below the depth limit and the number of executions is bounded by the tree. */
  lemma {:induction false} ExecutionsAreBounded(w: Ctx, fired: bool, rule: RuleRef, base: Path, i: nat, rest: seq<Action>, depth: nat, width: nat)
    requires depth <= MAX_RULE_CAUSATION_DEPTH
    requires forall id :: id in w.automations ==> |w.automations[id].actions| <= width
    ensures var steps := PlanActions(w, fired, rule, base, i, rest, depth).steps;
            && |steps| <= |rest| * (1 + Tree(width, MAX_RULE_CAUSATION_DEPTH - depth))
            && (forall s :: s in steps ==> s.Act? && depth <= s.depth <= MAX_RULE_CAUSATION_DEPTH)
    decreases MAX_RULE_CAUSATION_DEPTH - depth, |rest|
  {
    if rest != [] {
      var site := Site(rule, base + [At(i)]);
      var p := PlanAction(w, fired, site, rest[0], depth);
      var below := 1 + Tree(width, MAX_RULE_CAUSATION_DEPTH - depth);
      OneActionIsBounded(w, fired, site, rest[0], depth, width);
      ExecutionsAreBounded(w, p.fired, rule, base, i + 1, rest[1..], depth, width);
      assert |rest| * below == below + |rest[1..]| * below;
    }
  }

  lemma {:induction false} OneActionIsBounded(w: Ctx, fired: bool, site: Site, a: Action, depth: nat, width: nat)
    requires depth <= MAX_RULE_CAUSATION_DEPTH
    requires forall id :: id in w.automations ==> |w.automations[id].actions| <= width
    ensures var steps := PlanAction(w, fired, site, a, depth).steps;
            && |steps| <= 1 + Tree(width, MAX_RULE_CAUSATION_DEPTH - depth)
            && (forall s :: s in steps ==> s.Act? && depth <= s.depth <= MAX_RULE_CAUSATION_DEPTH)
    decreases MAX_RULE_CAUSATION_DEPTH - depth, 0
  {
    if RunsNested(w, site, a, depth) {
      var actions := w.automations[a.automationId].actions;
      NestedSteps(w, fired, site, a, depth);
      ExecutionsAreBounded(w, fired, site.rule, NestedBase(site, a), 0, actions, depth + 1, width);
      MulMonotone(|actions|, width, 1 + Tree(width, MAX_RULE_CAUSATION_DEPTH - depth - 1));
    } else {
      SingleStep(w, fired, site, a, depth);
    }
  }

  lemma MulMonotone(a: nat, b: nat, c: nat)
    requires a <= b
    ensures a * c <= b * c
  {}

  /** A rule with the longest list executes at most width + width^2 + width^3 actions. */
  lemma RuleIsCubic(w: Ctx, fired: bool, rule: Rule, depth: nat, width: nat)
    requires |rule.actions| <= width
    requires forall id :: id in w.automations ==> |w.automations[id].actions| <= width
    ensures |PlanRule(w, fired, rule, depth).steps| <= width + width * width + width * width * width
  {
    if depth <= MAX_RULE_CAUSATION_DEPTH {
      ExecutionsAreBounded(w, fired, rule.ref, [], 0, rule.actions, depth, width);
      var levels := Tree(width, MAX_RULE_CAUSATION_DEPTH - depth);
      TreeGrows(width, MAX_RULE_CAUSATION_DEPTH - depth);
      Cubic(|rule.actions|, levels, width);
    }
  }

  lemma Cubic(n: nat, levels: nat, width: nat)
    requires n <= width && levels <= width + width * width
    ensures n * (1 + levels) <= width + width * width + width * width * width
  {}

  lemma TreeGrows(width: nat, levels: nat)
    requires levels <= 2
    ensures Tree(width, levels) <= width + width * width
  {
    assert Tree(width, 1) == width;
    assert Tree(width, 2) == width * (1 + width) == width + width * width;
  }

  // ---- Dedupe keys -----------------------------------------------------------------

  /** An id without '#', as generated ids are. */
  predicate PlainId(id: Id) { '#' !in id }

  function Label(s: Segment): string {
    match s
    case At(i) => "a:" + Decimal(i)
    case Auto(id) => "auto:" + id
  }

  /** The action path as the transports receive it. */
  function Print(p: Path): string {
    if p == [] then "" else "#" + (Label(p[0]) + Print(p[1..]))
  }

  function RuleTag(ruleId: Id): string { "rule:" + ruleId }

  function SourceKey(eventId: Id, ruleId: Id, p: Path): string {
    eventId + ("#" + (RuleTag(ruleId) + Print(p)))
  }

  /** The printed forms, spelled out: a position is its index behind "#a:", an automation its
      id behind "#auto:", and the key is the event, the rule's id behind "#rule:", and the path. */
  lemma PathSpelled(p: Path, i: nat, id: Id)
    ensures Print(p + [At(i)]) == Print(p) + ("#a:" + Decimal(i))
    ensures Print(p + [Auto(id)]) == Print(p) + ("#auto:" + id)
  {
    PrintConcat(p, [At(i)]);
    PrintConcat(p, [Auto(id)]);
    SegmentSpelled(i, id);
  }

  lemma SegmentSpelled(i: nat, id: Id)
    ensures Print([At(i)]) == "#a:" + Decimal(i) && Print([Auto(id)]) == "#auto:" + id
  {
    assert [At(i)][1..] == [] && [Auto(id)][1..] == [];
  }

  lemma KeySpelled(eventId: Id, ruleId: Id, p: Path)
    ensures SourceKey(eventId, ruleId, p) == eventId + "#rule:" + ruleId + Print(p)
  {}

  predicate PlainPath(p: Path) { forall s :: s in p && s.Auto? ==> PlainId(s.id) }

  lemma LabelInjective(s: Segment, t: Segment)
    requires Label(s) == Label(t)
    ensures s == t
  {
    assert Label(s)[1] == (if s.At? then ':' else 'u');
    assert Label(t)[1] == (if t.At? then ':' else 'u');
    if s.At? {
      assert Label(s)[2..] == Decimal(s.index) && Label(t)[2..] == Decimal(t.index);
      DecimalInjective(s.index, t.index);
    } else {
      assert Label(s)[5..] == s.id && Label(t)[5..] == t.id;
    }
  }

  lemma PrintSplits(p: Path)
    requires PlainPath(p) && p != []
    ensures Print(p)[1..] == Label(p[0]) + Print(p[1..])
    ensures '#' !in Label(p[0])
    ensures Print(p[1..]) == "" || Print(p[1..])[0] == '#'
  {
    assert p[0] in p;
    assert Print(p)[1..] == Label(p[0]) + Print(p[1..]);
  }

  lemma PrintStarts(p: Path)
    ensures Print(p) == "" || Print(p)[0] == '#'
  {}

  lemma PrintFirst(p: Path, q: Path)
    requires PlainPath(p) && PlainPath(q) && p != [] && q != [] && Print(p) == Print(q)
    ensures p[0] == q[0] && Print(p[1..]) == Print(q[1..])
  {
    PrintSplits(p);
    PrintSplits(q);
    FirstPartUnique(Label(p[0]), Print(p[1..]), Label(q[0]), Print(q[1..]), '#');
    LabelInjective(p[0], q[0]);
  }

  lemma {:induction false} PrintInjective(p: Path, q: Path)
    requires PlainPath(p) && PlainPath(q) && Print(p) == Print(q)
    ensures p == q
    decreases |p|
  {
    if p != [] && q != [] {
      PrintFirst(p, q);
      PrintInjective(p[1..], q[1..]);
      assert p == [p[0]] + p[1..] && q == [q[0]] + q[1..];
    }
  }

  // ---- Positions -------------------------------------------------------------------

  /** The path continues `base` with an action index of at least i. */
  predicate Under(p: Path, base: Path, i: nat) {
    |p| > |base| && p[..|base|] == base && p[|base|].At? && p[|base|].index >= i
  }

  predicate AllUnder(steps: seq<Step>, rule: RuleRef, base: Path, i: nat) {
    forall s :: s in steps ==> s.Act? && s.site.rule == rule && Under(s.site.path, base, i)
  }

  /** The steps' printed paths differ, so their positions do. */
  predicate DistinctPrints(steps: seq<Step>) {
    forall j, k :: 0 <= j < k < |steps| && steps[j].Act? && steps[k].Act? ==> Print(steps[j].site.path) != Print(steps[k].site.path)
  }

  lemma {:induction false} PrintConcat(a: Path, b: Path)
    ensures Print(a + b) == Print(a) + Print(b)
  {
    if a == [] {
      assert a + b == b;
    } else {
      assert (a + b)[1..] == a[1..] + b;
      PrintConcat(a[1..], b);
    }
  }

  /** A path that continues base, printed. */
  lemma PrintCons(x: Segment, tail: Path)
    ensures Print([x] + tail) == "#" + (Label(x) + Print(tail))
  {
    assert ([x] + tail)[1..] == tail;
  }

  lemma PrintUnder(p: Path, base: Path)
    requires |p| > |base| && p[..|base|] == base
    ensures Print(p) == Print(base) + ("#" + (Label(p[|base|]) + Print(p[|base| + 1..])))
  {
    SplitPath(p, base);
    PrintConcat(base, [p[|base|]] + p[|base| + 1..]);
    PrintCons(p[|base|], p[|base| + 1..]);
  }

  lemma SplitPath(p: Path, base: Path)
    requires |p| > |base| && p[..|base|] == base
    ensures p == base + ([p[|base|]] + p[|base| + 1..])
  {}

  /** Two positions of a list that part at an action index print differently, whatever ids
      come further down. */
  lemma PrintsPart(p: Path, q: Path, base: Path)
    requires Under(p, base, 0) && Under(q, base, 0) && p[|base|] != q[|base|]
    ensures Print(p) != Print(q)
  {
    PrintUnder(p, base);
    PrintUnder(q, base);
    PrintStarts(p[|base| + 1..]);
    PrintStarts(q[|base| + 1..]);
    if Print(p) == Print(q) {
      LabelsAgree(Print(base), p[|base|], Print(p[|base| + 1..]), q[|base|], Print(q[|base| + 1..]));
    }
  }

  lemma LabelsAgree(front: string, x: Segment, u: string, y: Segment, v: string)
    requires x.At? && y.At? && (u == "" || u[0] == '#') && (v == "" || v[0] == '#')
    requires front + ("#" + (Label(x) + u)) == front + ("#" + (Label(y) + v))
    ensures x == y
  {
    var n := |front| + 1;
    assert (front + ("#" + (Label(x) + u)))[n..] == Label(x) + u && (front + ("#" + (Label(y) + v)))[n..] == Label(y) + v;
    FirstPartUnique(Label(x), u, Label(y), v, '#');
    LabelInjective(x, y);
  }

  lemma {:induction false} PrintsAreDistinct(w: Ctx, fired: bool, rule: RuleRef, base: Path, i: nat, rest: seq<Action>, depth: nat)
    requires depth <= MAX_RULE_CAUSATION_DEPTH
    ensures var steps := PlanActions(w, fired, rule, base, i, rest, depth).steps;
            AllUnder(steps, rule, base, i) && DistinctPrints(steps)
    decreases MAX_RULE_CAUSATION_DEPTH - depth, |rest|
  {
    if rest != [] {
      var site := Site(rule, base + [At(i)]);
      var p := PlanAction(w, fired, site, rest[0], depth);
      OneActionsSites(w, fired, site, rest[0], depth);
      PrintsAreDistinct(w, p.fired, rule, base, i + 1, rest[1..], depth);
      JoinSites(p.steps, PlanActions(w, p.fired, rule, base, i + 1, rest[1..], depth).steps, rule, base, i);
    }
  }

  lemma JoinSites(p: seq<Step>, q: seq<Step>, rule: RuleRef, base: Path, i: nat)
    requires DistinctPrints(p) && forall s :: s in p ==> AtOrBelow(s, Site(rule, base + [At(i)]))
    requires DistinctPrints(q) && AllUnder(q, rule, base, i + 1)
    ensures DistinctPrints(p + q) && AllUnder(p + q, rule, base, i)
  {
    var here := base + [At(i)];
    forall s | s in p
      ensures Under(s.site.path, base, i) && s.site.path[|base|] == At(i)
    {
      assert s.site.path[..|base|] == s.site.path[..|here|][..|base|] == base;
      assert s.site.path[|base|] == s.site.path[..|here|][|base|];
    }
    forall s, t | s in p && t in q
      ensures Print(s.site.path) != Print(t.site.path)
    {
      PrintsPart(s.site.path, t.site.path, base);
    }
    PrintsJoin(p, q);
  }

  lemma PrintsJoin(p: seq<Step>, q: seq<Step>)
    requires DistinctPrints(p) && DistinctPrints(q) && ActsOnly(p) && ActsOnly(q)
    requires forall s, t :: s in p && t in q ==> Print(s.site.path) != Print(t.site.path)
    ensures DistinctPrints(p + q)
  {
    var all := p + q;
    forall j, k | 0 <= j < k < |all|
      ensures all[j].Act? && all[k].Act? && Print(all[j].site.path) != Print(all[k].site.path)
    {
      assert all[j] == if j < |p| then p[j] else q[j - |p|];
      assert all[k] == if k < |p| then p[k] else q[k - |p|];
    }
  }

  predicate AtOrBelow(s: Step, site: Site) {
    && s.Act? && s.site.rule == site.rule
    && |s.site.path| >= |site.path| && s.site.path[..|site.path|] == site.path
  }

  /** One action's steps sit at its own site or below it. */
  lemma {:induction false} OneActionsSites(w: Ctx, fired: bool, site: Site, a: Action, depth: nat)
    requires depth <= MAX_RULE_CAUSATION_DEPTH
    ensures var steps := PlanAction(w, fired, site, a, depth).steps;
            DistinctPrints(steps) && forall s :: s in steps ==> AtOrBelow(s, site)
    decreases MAX_RULE_CAUSATION_DEPTH - depth, 0
  {
    if RunsNested(w, site, a, depth) {
      PrintsAreDistinct(w, fired, site.rule, NestedBase(site, a), 0, w.automations[a.automationId].actions, depth + 1);
      NestedSteps(w, fired, site, a, depth);
      var nested := NestedPlan(w, fired, site, a, depth);
      RunnerSites(nested.steps, Act(site, depth, a, NestedOutcome(w, site, nested.outcomes).verdict, NoEffect));
    } else {
      SingleStep(w, fired, site, a, depth);
      assert site.path[..|site.path|] == site.path;
    }
  }

  lemma RunnerSites(nested: seq<Step>, own: Step)
    requires own.Act? && own.action.RunAutomation?
    requires AllUnder(nested, own.site.rule, NestedBase(own.site, own.action), 0) && DistinctPrints(nested)
    ensures DistinctPrints(nested + [own]) && forall s :: s in nested + [own] ==> AtOrBelow(s, own.site)
  {
    forall s | s in nested
      ensures AtOrBelow(s, own.site) && Print(s.site.path) != Print(own.site.path)
    {
      BelowSite(s, own.site, own.action);
    }
    PrintsJoin(nested, [own]);
    assert own.site.path[..|own.site.path|] == own.site.path;
  }

  lemma BelowSite(s: Step, site: Site, a: Action)
    requires a.RunAutomation? && s.Act? && s.site.rule == site.rule && Under(s.site.path, NestedBase(site, a), 0)
    ensures AtOrBelow(s, site) && Print(s.site.path) != Print(site.path)
  {
    var base := NestedBase(site, a);
    assert base[..|site.path|] == site.path;
    assert s.site.path[..|site.path|] == s.site.path[..|base|][..|site.path|];
    PrintUnder(s.site.path, site.path);
  }

  /** All executions below a rule have different positions, at every depth. */
  lemma SitesAreDistinct(w: Ctx, fired: bool, rule: Rule, depth: nat, j: nat, k: nat)
    requires j < k < |PlanRule(w, fired, rule, depth).steps|
    ensures var steps := PlanRule(w, fired, rule, depth).steps;
            steps[j].Act? && steps[k].Act? && steps[j].site != steps[k].site
  {
    var steps := PlanRule(w, fired, rule, depth).steps;
    PrintsAreDistinct(w, fired, rule.ref, [], 0, rule.actions, depth);
    assert steps[j] in steps && steps[k] in steps;
  }

  /** The sites a rule's pass executes depend on stored rule content and on which automations
      are found, on nothing a delivery has written, not on the terminal flag and not on what
      any other storage, workflow or vendor call answers: a redelivery regenerates the same
      keys. */
  lemma {:induction false} SitesAreReproduced(v: Ctx, w: Ctx, f: bool, g: bool, rule: RuleRef, base: Path, i: nat, rest: seq<Action>, depth: nat)
    requires depth <= MAX_RULE_CAUSATION_DEPTH
    requires v.automations == w.automations && forall s, a, d :: RunsNested(v, s, a, d) == RunsNested(w, s, a, d)
    ensures SameSites(PlanActions(v, f, rule, base, i, rest, depth).steps, PlanActions(w, g, rule, base, i, rest, depth).steps)
    decreases MAX_RULE_CAUSATION_DEPTH - depth, |rest|
  {
    if rest != [] {
      var site := Site(rule, base + [At(i)]);
      var p, q := PlanAction(v, f, site, rest[0], depth), PlanAction(w, g, site, rest[0], depth);
      OneActionReproduced(v, w, f, g, site, rest[0], depth);
      SitesAreReproduced(v, w, p.fired, q.fired, rule, base, i + 1, rest[1..], depth);
    }
  }

  lemma {:induction false} OneActionReproduced(v: Ctx, w: Ctx, f: bool, g: bool, site: Site, a: Action, depth: nat)
    requires depth <= MAX_RULE_CAUSATION_DEPTH
    requires v.automations == w.automations && forall s, a, d :: RunsNested(v, s, a, d) == RunsNested(w, s, a, d)
    ensures SameSites(PlanAction(v, f, site, a, depth).steps, PlanAction(w, g, site, a, depth).steps)
    decreases MAX_RULE_CAUSATION_DEPTH - depth, 0
  {
    if RunsNested(v, site, a, depth) {
      NestedSteps(v, f, site, a, depth);
      NestedSteps(w, g, site, a, depth);
      SitesAreReproduced(v, w, f, g, site.rule, NestedBase(site, a), 0, v.automations[a.automationId].actions, depth + 1);
    } else {
      SingleStep(v, f, site, a, depth);
      SingleStep(w, g, site, a, depth);
    }
  }

  predicate SameSites(a: seq<Step>, b: seq<Step>) {
    && |a| == |b|
    && forall k :: 0 <= k < |a| ==> a[k].Act? && b[k].Act? && a[k].site == b[k].site && a[k].action == b[k].action
  }

  // ---- The terminal mark on a row --------------------------------------------------

  /** No run_automation between `base` and the step lost its history row. */
  predicate Reported(w: Ctx, s: Step, base: nat)
    requires s.Act?
  {
    forall k :: base < k < |s.site.path| && s.site.path[k - 1].At? ==> Site(s.site.rule, s.site.path[..k]) !in w.recordFaults
  }

  /** A list reports a terminal action exactly when it executed one whose chain of
      enclosing run_automation actions all wrote their history rows: the one way in which
      the mark on the row falls behind the shared flag. */
  lemma {:induction false} TerminalMarkExact(w: Ctx, fired: bool, rule: RuleRef, base: Path, i: nat, rest: seq<Action>, depth: nat)
    requires depth <= MAX_RULE_CAUSATION_DEPTH
    ensures var p := PlanActions(w, fired, rule, base, i, rest, depth);
            && ActsOnly(p.steps)
            && (AnyTerminal(p.outcomes) <==> exists s :: s in p.steps && Fires(s) && Reported(w, s, |base|))
    decreases MAX_RULE_CAUSATION_DEPTH - depth, |rest|
  {
    ActionsAct(w, fired, rule, base, i, rest, depth);
    if rest != [] {
      var site := Site(rule, base + [At(i)]);
      var p := PlanAction(w, fired, site, rest[0], depth);
      var q := PlanActions(w, p.fired, rule, base, i + 1, rest[1..], depth);
      OneActionMarkExact(w, fired, site, rest[0], depth);
      OneActionsSites(w, fired, site, rest[0], depth);
      forall s | s in p.steps
        ensures s.Act? && (Reported(w, s, |base|) <==> (s.site.path == site.path || site !in w.recordFaults) && Reported(w, s, |site.path|))
      {
        ReportedBelow(w, s, site);
      }
      TerminalMarkExact(w, p.fired, rule, base, i + 1, rest[1..], depth);
      TerminalSplit(p.outcomes, q.outcomes);
      assert forall s :: s in p.steps + q.steps <==> s in p.steps || s in q.steps;
    }
  }

  lemma ReportedBelow(w: Ctx, s: Step, site: Site)
    requires s.Act? && s.site.rule == site.rule && |site.path| > 0 && site.path[|site.path| - 1].At?
    requires |s.site.path| >= |site.path| && s.site.path[..|site.path|] == site.path
    ensures Reported(w, s, |site.path| - 1) <==> (s.site.path == site.path || site !in w.recordFaults) && Reported(w, s, |site.path|)
  {}

  /** A fired terminal action at or below the site whose enclosing rows were all written. */
  predicate MarkedBelow(w: Ctx, steps: seq<Step>, site: Site)
    requires ActsOnly(steps)
  {
    exists s :: s in steps && Fires(s) && (s.site.path == site.path || site !in w.recordFaults) && Reported(w, s, |site.path|)
  }

  lemma {:induction false} OneActionMarkExact(w: Ctx, fired: bool, site: Site, a: Action, depth: nat)
    requires depth <= MAX_RULE_CAUSATION_DEPTH
    ensures var p := PlanAction(w, fired, site, a, depth);
            ActsOnly(p.steps) && (AnyTerminal(p.outcomes) <==> MarkedBelow(w, p.steps, site))
    decreases MAX_RULE_CAUSATION_DEPTH - depth, 0
  {
    if RunsNested(w, site, a, depth) {
      var actions := w.automations[a.automationId].actions;
      var nested := NestedPlan(w, fired, site, a, depth);
      NestedSteps(w, fired, site, a, depth);
      TerminalMarkExact(w, fired, site.rule, NestedBase(site, a), 0, actions, depth + 1);
      PrintsAreDistinct(w, fired, site.rule, NestedBase(site, a), 0, actions, depth + 1);
      NestedMark(w, site, a, nested, depth);
    } else {
      SingleMark(w, fired, site, a, depth);
    }
  }

  lemma SingleMark(w: Ctx, fired: bool, site: Site, a: Action, depth: nat)
    requires depth <= MAX_RULE_CAUSATION_DEPTH && !RunsNested(w, site, a, depth)
    ensures var p := PlanAction(w, fired, site, a, depth);
            ActsOnly(p.steps) && (AnyTerminal(p.outcomes) <==> MarkedBelow(w, p.steps, site))
  {}

  lemma NestedMark(w: Ctx, site: Site, a: Action, nested: Plan, depth: nat)
    requires a.RunAutomation? && AllUnder(nested.steps, site.rule, NestedBase(site, a), 0)
    requires AnyTerminal(nested.outcomes) <==> exists s :: s in nested.steps && Fires(s) && Reported(w, s, |NestedBase(site, a)|)
    ensures var o := NestedOutcome(w, site, nested.outcomes);
            var all := nested.steps + [Act(site, depth, a, o.verdict, NoEffect)];
            ActsOnly(all) && (AnyTerminal([o]) <==> MarkedBelow(w, all, site))
  {}

  const ENDER: Automation := Automation(true, [EndEnrollment])
  const CALLER: Rule := Rule(RuleRef(Campaign, "r"), [RunAutomation("a")])
  const CALL_SITE: Site := Site(CALLER.ref, [At(0)])
  const UNWRITABLE: Ctx := Ctx("ev", Absent, Present, false, map["a" := ENDER], true, false, map[], {}, {CALL_SITE})

  /** A nested end whose automation history row cannot be written: the flag is up for the
      rest of the pass, the rule's own row says no terminal action fired, and a redelivery
      that reads the row starts with the flag down. */
  lemma LostTerminalMark()
    ensures var p := PlanRule(UNWRITABLE, false, CALLER, 0);
            p.fired && !RunOf(p, 0).terminal && RunOf(p, 0).status == Errored
  {
    assert [] + [At(0)] == [At(0)];
    var nested := NestedPlan(UNWRITABLE, false, CALL_SITE, CALLER.actions[0], 0);
    var inner := Site(CALLER.ref, NestedBase(CALL_SITE, CALLER.actions[0]) + [At(0)]);
    assert EffectOf(UNWRITABLE, inner, EndEnrollment) == Some(EndIt) by {
      assert |inner.path| == 3;
    }
    assert ENDER.actions[1..] == [];
    assert nested.fired;
    NestedSteps(UNWRITABLE, false, CALL_SITE, CALLER.actions[0], 0);
    assert CALLER.actions[1..] == [];
    var p := PlanRule(UNWRITABLE, false, CALLER, 0);
    assert p.outcomes == [Outcome(Failed, false)];
    assert p.outcomes[0] in p.outcomes;
  }

  /** Transport dedupe keys identify the event, the rule and the position in its tree. */
  lemma SourceKeyInjective(e1: Id, r1: Id, p1: Path, e2: Id, r2: Id, p2: Path)
    requires PlainId(e1) && PlainId(r1) && PlainPath(p1)
    requires PlainId(e2) && PlainId(r2) && PlainPath(p2)
    requires SourceKey(e1, r1, p1) == SourceKey(e2, r2, p2)
    ensures e1 == e2 && r1 == r2 && p1 == p2
  {
    var t1, t2 := RuleTag(r1) + Print(p1), RuleTag(r2) + Print(p2);
    FirstPartUnique(e1, "#" + t1, e2, "#" + t2, '#');
    assert ("#" + t1)[1..] == t1 && ("#" + t2)[1..] == t2;
    TagsAgree(r1, p1, r2, p2);
    PrintInjective(p1, p2);
  }

  lemma TagsAgree(r1: Id, p1: Path, r2: Id, p2: Path)
    requires PlainId(r1) && PlainId(r2) && RuleTag(r1) + Print(p1) == RuleTag(r2) + Print(p2)
    ensures r1 == r2 && Print(p1) == Print(p2)
  {
    PrintStarts(p1);
    PrintStarts(p2);
    FirstPartUnique(RuleTag(r1), Print(p1), RuleTag(r2), Print(p2), '#');
    assert RuleTag(r1)[5..] == r1 && RuleTag(r2)[5..] == r2;
  }

  lemma {:induction false} PathsArePlain(w: Ctx, fired: bool, rule: RuleRef, base: Path, i: nat, rest: seq<Action>, depth: nat)
    requires depth <= MAX_RULE_CAUSATION_DEPTH
    requires PlainPath(base) && forall id :: id in w.automations ==> PlainId(id)
    ensures forall s :: s in PlanActions(w, fired, rule, base, i, rest, depth).steps ==> s.Act? && PlainPath(s.site.path)
    decreases MAX_RULE_CAUSATION_DEPTH - depth, |rest|
  {
    if rest != [] {
      var site := Site(rule, base + [At(i)]);
      var p := PlanAction(w, fired, site, rest[0], depth);
      if rest[0].RunAutomation? && depth < MAX_RULE_CAUSATION_DEPTH && rest[0].automationId in w.automations {
        var id := rest[0].automationId;
        PathsArePlain(w, fired, rule, site.path + [Auto(id)], 0, w.automations[id].actions, depth + 1);
      }
      PathsArePlain(w, p.fired, rule, base, i + 1, rest[1..], depth);
    }
  }

  /** Within one rule's pass all transports get pairwise distinct dedupe keys, whatever the
      event, rule and automation ids are: positions of one tree part at an action index. */
  lemma KeysAreDistinct(w: Ctx, fired: bool, rule: Rule, depth: nat, j: nat, k: nat)
    requires j < k < |PlanRule(w, fired, rule, depth).steps|
    ensures var steps := PlanRule(w, fired, rule, depth).steps;
            && steps[j].Act? && steps[k].Act?
            && SourceKey(w.eventId, rule.ref.id, steps[j].site.path) != SourceKey(w.eventId, rule.ref.id, steps[k].site.path)
  {
    var steps := PlanRule(w, fired, rule, depth).steps;
    PrintsAreDistinct(w, fired, rule.ref, [], 0, rule.actions, depth);
    assert steps[j] in steps && steps[k] in steps;
    PrintsInKeys(w.eventId, rule.ref.id, steps[j].site.path, steps[k].site.path);
  }

  lemma PrintsInKeys(eventId: Id, ruleId: Id, p: Path, q: Path)
    ensures SourceKey(eventId, ruleId, p) == SourceKey(eventId, ruleId, q) ==> Print(p) == Print(q)
  {
    var n := |eventId| + 1 + |RuleTag(ruleId)|;
    assert SourceKey(eventId, ruleId, p)[n..] == Print(p) && SourceKey(eventId, ruleId, q)[n..] == Print(q);
  }

  predicate PlainWorld(w: Ctx, rule: Rule) {
    PlainId(w.eventId) && PlainId(rule.ref.id) && forall id :: id in w.automations ==> PlainId(id)
  }

  /** Across events, rules and deliveries, executions with the same key are of the same event
      and rule and at the same position. */
  lemma KeysIdentifyExecutions(v: Ctx, q: Rule, f: bool, c: nat, j: nat, w: Ctx, r: Rule, g: bool, d: nat, k: nat)
    requires PlainWorld(v, q) && j < |PlanRule(v, f, q, c).steps|
    requires PlainWorld(w, r) && k < |PlanRule(w, g, r, d).steps|
    ensures var s, t := PlanRule(v, f, q, c).steps[j], PlanRule(w, g, r, d).steps[k];
            && s.Act? && t.Act?
            && (SourceKey(v.eventId, q.ref.id, s.site.path) == SourceKey(w.eventId, r.ref.id, t.site.path)
                ==> v.eventId == w.eventId && q.ref.id == r.ref.id && s.site.path == t.site.path)
  {
    var s, t := PlanRule(v, f, q, c).steps[j], PlanRule(w, g, r, d).steps[k];
    PathsArePlain(v, f, q.ref, [], 0, q.actions, c);
    PathsArePlain(w, g, r.ref, [], 0, r.actions, d);
    if SourceKey(v.eventId, q.ref.id, s.site.path) == SourceKey(w.eventId, r.ref.id, t.site.path) {
      SourceKeyInjective(v.eventId, q.ref.id, s.site.path, w.eventId, r.ref.id, t.site.path);
    }
  }

  const OUTER: Rule := Rule(RuleRef(Campaign, "r"), [RunAutomation("x")])
  const HASHED: Rule := Rule(RuleRef(Campaign, "r#a:0#auto:x"), [NotifyTeam])
  const NOTIFIER: Ctx := Ctx("ev", Absent, Absent, false, map["x" := Automation(true, [NotifyTeam])], true, false, map[], {}, {})

  /** Between two rules a '#' in a rule id can make keys collide: the nested action of one rule
      and an action of the other get the same key. */
  lemma HashInIdCollides()
    ensures var p, q := PlanRule(NOTIFIER, false, OUTER, 0).steps, PlanRule(NOTIFIER, false, HASHED, 0).steps;
            && |p| > 0 && |q| > 0 && p[0].Act? && q[0].Act? && p[0].site.rule != q[0].site.rule
            && SourceKey("ev", OUTER.ref.id, p[0].site.path) == SourceKey("ev", HASHED.ref.id, q[0].site.path)
  {
    NestedFirst();
    PlainFirst();
    NestedKey([At(0)]);
    assert [At(0), Auto("x"), At(0)] == [At(0)] + ([Auto("x")] + [At(0)]);
  }

  lemma NestedKey(tail: Path)
    ensures SourceKey("ev", "r", [At(0)] + ([Auto("x")] + tail)) == SourceKey("ev", "r#a:0#auto:x", tail)
  {
    PrintCons(At(0), [Auto("x")] + tail);
    PrintCons(Auto("x"), tail);
    TagTakesPath(Print(tail));
  }

  lemma TagTakesPath(rest: string)
    ensures RuleTag("r") + ("#" + (Label(At(0)) + ("#" + (Label(Auto("x")) + rest)))) == RuleTag("r#a:0#auto:x") + rest
  {
    var front := "rule:r#a:0#auto:";
    assert RuleTag("r") + ("#" + (Label(At(0)) + ("#" + Label(Auto("x"))))) == front + "x" by {
      assert Label(At(0)) == "a:0" && Label(Auto("x")) == "auto:x" && RuleTag("r") == "rule:r";
    }
    assert RuleTag("r#a:0#auto:x") == front + "x";
    FiveParts(RuleTag("r"), "#", Label(At(0)), "#", Label(Auto("x")), rest);
  }

  lemma FiveParts(a: string, b: string, c: string, d: string, e: string, rest: string)
    ensures a + (b + (c + (d + (e + rest)))) == (a + (b + (c + (d + e)))) + rest
  {
    assert d + (e + rest) == (d + e) + rest;
    assert c + ((d + e) + rest) == (c + (d + e)) + rest;
    assert b + ((c + (d + e)) + rest) == (b + (c + (d + e))) + rest;
  }

  lemma PlainFirst()
    ensures var q := PlanRule(NOTIFIER, false, HASHED, 0).steps;
            |q| > 0 && q[0].Act? && q[0].site == Site(HASHED.ref, [At(0)])
  {
    assert [] + [At(0)] == [At(0)];
    SingleStep(NOTIFIER, false, Site(HASHED.ref, [At(0)]), NotifyTeam, 0);
  }

  lemma NestedFirst()
    ensures var p := PlanRule(NOTIFIER, false, OUTER, 0).steps;
            |p| > 0 && p[0].Act? && p[0].site == Site(OUTER.ref, [At(0), Auto("x"), At(0)])
  {
    var site := Site(OUTER.ref, [At(0)]);
    assert [] + [At(0)] == [At(0)];
    NestedSteps(NOTIFIER, false, site, OUTER.actions[0], 0);
    var base := NestedBase(site, OUTER.actions[0]);
    assert base + [At(0)] == [At(0), Auto("x"), At(0)];
    SingleStep(NOTIFIER, false, Site(OUTER.ref, base + [At(0)]), NotifyTeam, 1);
    var nested := NestedPlan(NOTIFIER, false, site, OUTER.actions[0], 0).steps;
    assert |nested| > 0 && nested[0].Act? && nested[0].site == Site(OUTER.ref, base + [At(0)]);
    assert PlanAction(NOTIFIER, false, site, OUTER.actions[0], 0).steps[0] == nested[0];
  }
}
