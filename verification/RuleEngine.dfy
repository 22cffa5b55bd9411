/** The executors and the evaluation pass as the worker runs them: rows are read and
    updated in place, the terminal flag is shared, and the worker may die between any two
    actions or before a run row is written. */
module RuleEngine {
  import opened Options
  import opened RuleModel
  import opened RulePlan
  import opened CrashAbsorption
  import opened Redelivery
  import opened EventEvaluation
  import opened TerminalDiscipline

  /** Events the executors publish on the bus. */
  datatype Published =
    | Unsubscribed(channel: Channel)
    | StageChanged(fromStage: string, toStage: string)

  /** How one execution ended. Crashed: the worker died before it took effect. */
  datatype Ending = Executed | Noop | SkippedConflict | Refused | Error | Crashed

  function VerdictOf(e: Ending): Verdict
    requires !e.Crashed?
  {
    match e
    case Executed => Applied
    case Noop => Applied
    case SkippedConflict => Conflict
    case Refused => Verdict.Refused
    case Error => Failed
  }

  datatype ActionResult = ActionResult(ending: Ending, terminal: bool)

  function OutcomeOf(r: ActionResult): Outcome
    requires !r.ending.Crashed?
  {
    Outcome(VerdictOf(r.ending), r.terminal)
  }

  function OutcomesOf(rs: seq<ActionResult>): seq<Outcome>
    requires NoCrash(rs)
  {
    if rs == [] then [] else [OutcomeOf(rs[0])] + OutcomesOf(rs[1..])
  }

  lemma {:induction false} OutcomesOfAppend(rs: seq<ActionResult>, r: ActionResult)
    requires NoCrash(rs)
    requires !r.ending.Crashed?
    ensures OutcomesOf(rs + [r]) == OutcomesOf(rs) + [OutcomeOf(r)]
  {
    if rs == [] {
      assert rs + [r] == [r];
    } else {
      assert (rs + [r])[1..] == rs[1..] + [r];
      OutcomesOfAppend(rs[1..], r);
    }
  }

  lemma {:induction false} OutcomesOfMeans(rs: seq<ActionResult>)
    requires NoCrash(rs)
    ensures AnyTerminal(OutcomesOf(rs)) <==> exists r :: r in rs && r.terminal
    ensures forall v :: AnyVerdict(OutcomesOf(rs), v) <==> exists r :: r in rs && VerdictOf(r.ending) == v
  {
    if rs != [] {
      OutcomesOfMeans(rs[1..]);
      var rest := OutcomesOf(rs[1..]);
      var all := OutcomesOf(rs);
      assert forall o :: o in all <==> o == OutcomeOf(rs[0]) || o in rest;
      assert forall r :: r in rs <==> r == rs[0] || r in rs[1..];
      assert OutcomeOf(rs[0]) in all;
      forall v
        ensures AnyVerdict(all, v) <==> VerdictOf(rs[0].ending) == v || AnyVerdict(rest, v)
      {
        if VerdictOf(rs[0].ending) == v {
          assert OutcomeOf(rs[0]) in all && OutcomeOf(rs[0]).verdict == v;
        }
      }
    }
  }

  /** The event for a row that a suppression creates. */
  function NewlySuppressed(db: Db, channel: Channel, address: Option<string>): seq<Published> {
    if address.Some? && Address(channel, address.value) !in db.suppressions then [Unsubscribed(channel)] else []
  }

  /** What a step publishes, given the rows before it. */
  function PublishedBy(db: Db, s: Step): seq<Published> {
    if s.Act? && s.effect.Suppress? && db.contact.Some? then
      NewlySuppressed(db, Email, db.contact.value.email) + NewlySuppressed(db, Sms, db.contact.value.phone)
    else if s.Act? && s.effect.Stage? && db.enrollment.Some? && db.enrollment.value.stage != s.effect.stage then
      [StageChanged(db.enrollment.value.stage, s.effect.stage)]
    else []
  }

  function PublishedOver(db: Db, steps: seq<Step>): seq<Published>
    decreases |steps|
  {
    if steps == [] then [] else PublishedBy(db, steps[0]) + PublishedOver(Apply(db, steps[0]), steps[1..])
  }

  lemma {:induction false} PublishedConcat(db: Db, a: seq<Step>, b: seq<Step>)
    ensures PublishedOver(db, a + b) == PublishedOver(db, a) + PublishedOver(Fold(db, a), b)
    decreases |a|
  {
    if a == [] {
      assert a + b == b;
    } else {
      assert (a + b)[1..] == a[1..] + b;
      PublishedConcat(Apply(db, a[0]), a[1..], b);
    }
  }

  lemma CutConcat<T>(a: seq<T>, b: seq<T>, n: nat)
    ensures n <= |a| ==> Cut(a + b, n) == Cut(a, n)
    ensures n >= |a| ==> Cut(a + b, n) == a + Cut(b, n - |a|)
  {}

  /** What a worker changes as it goes: the rows, the steps it has left, the bus. */
  datatype Tally = Tally(db: Db, fuel: nat, outbox: seq<Published>)

  /** The tally after steps that all ran. */
  function Moved(t: Tally, done: seq<Step>): Tally
    requires |done| <= t.fuel
  {
    Tally(Fold(t.db, done), t.fuel - |done|, t.outbox + PublishedOver(t.db, done))
  }

  lemma MovedConcat(t: Tally, a: seq<Step>, b: seq<Step>)
    requires |a + b| <= t.fuel
    ensures Moved(t, a + b) == Moved(Moved(t, a), b)
  {
    FoldConcat(t.db, a, b);
    PublishedConcat(t.db, a, b);
    Regroup(t.outbox, PublishedOver(t.db, a), PublishedOver(Fold(t.db, a), b));
  }

  lemma Regroup<T>(a: seq<T>, b: seq<T>, c: seq<T>)
    ensures a + (b + c) == (a + b) + c
  {}

  /** The tally after a run of steps, as far as the fuel lasts. */
  function After(t: Tally, steps: seq<Step>): Tally { Moved(t, Cut(steps, t.fuel)) }

  lemma AfterNothing(t: Tally)
    ensures After(t, []) == t
  {}

  lemma AfterOne(t: Tally, s: Step)
    ensures t.fuel == 0 ==> After(t, [s]) == t
    ensures t.fuel > 0 ==> After(t, [s]) == Tally(Apply(t.db, s), t.fuel - 1, t.outbox + PublishedBy(t.db, s))
  {
    if t.fuel == 0 {
      assert Cut([s], 0) == [];
    } else {
      assert [s][1..] == [];
      assert Cut([s], t.fuel) == [s];
      assert Fold(t.db, [s]) == Apply(t.db, s);
      assert PublishedOver(t.db, [s]) == PublishedBy(t.db, s);
    }
  }

  lemma AfterConcat(t: Tally, a: seq<Step>, b: seq<Step>)
    ensures |a| <= t.fuel ==> After(t, a + b) == After(After(t, a), b)
    ensures |a| >= t.fuel ==> After(t, a + b) == After(t, a)
  {
    CutConcat(a, b, t.fuel);
    if |a| <= t.fuel {
      MovedConcat(t, a, Cut(b, t.fuel - |a|));
    }
  }

  /** A list of steps, then the step of the action that ran the list, which writes nothing. */
  lemma AfterNested(t: Tally, nested: seq<Step>, own: Step)
    requires own.Act? && own.effect.NoEffect?
    ensures var now := After(t, nested);
            After(t, nested + [own]) == if |nested| < t.fuel then now.(fuel := t.fuel - |nested| - 1) else now
  {
    AfterConcat(t, nested, [own]);
    AfterOne(After(t, nested), own);
    if |nested| < t.fuel {
      NoEffectIsSilent(After(t, nested).db, own);
    }
  }

  lemma NoEffectIsSilent(db: Db, s: Step)
    requires s.Act? && s.effect.NoEffect?
    ensures Apply(db, s) == db && PublishedBy(db, s) == []
  {}

  predicate NoCrash(rs: seq<ActionResult>) { forall x :: x in rs ==> !x.ending.Crashed? }

  /** Part of the way through plan p: `done` is behind, plan q is ahead. */
  predicate Along(p: Plan, q: Plan, start: Tally, now: Tally, done: seq<Step>, results: seq<ActionResult>) {
    && |done| <= start.fuel && now == After(start, done)
    && NoCrash(results)
    && p.steps == done + q.steps && p.fired == q.fired
    && p.outcomes == OutcomesOf(results) + q.outcomes
  }

  lemma AlongStart(p: Plan, start: Tally)
    ensures Along(p, p, start, start, [], [])
  {}

  lemma AlongEnd(p: Plan, q: Plan, start: Tally, now: Tally, done: seq<Step>, results: seq<ActionResult>)
    requires Along(p, q, start, now, done, results) && q.steps == [] && q.outcomes == []
    ensures now == After(start, p.steps) && |p.steps| <= start.fuel && p.outcomes == OutcomesOf(results)
  {
    assert p.steps == done;
    assert p.outcomes == OutcomesOf(results);
  }

  /** The worker dies within the next action. */
  lemma AlongDies(p: Plan, q: Plan, one: Plan, rest: Plan, start: Tally, now: Tally, done: seq<Step>, results: seq<ActionResult>)
    requires Along(p, q, start, now, done, results)
    requires q.steps == one.steps + rest.steps && |one.steps| > now.fuel
    ensures |p.steps| > start.fuel && After(start, p.steps) == After(now, one.steps)
  {
    DiesWithin(start, done, one.steps, rest.steps);
  }

  lemma DiesWithin(start: Tally, done: seq<Step>, one: seq<Step>, rest: seq<Step>)
    requires |done| <= start.fuel < |done + one|
    ensures After(start, done + (one + rest)) == After(After(start, done), one)
  {
    Regroup(done, one, rest);
    AfterConcat(start, done, one);
    AfterConcat(start, done + one, rest);
  }

  /** The next action takes us one plan further. */
  lemma AlongStep(p: Plan, q: Plan, one: Plan, rest: Plan, start: Tally, now: Tally, done: seq<Step>, results: seq<ActionResult>, r: ActionResult)
    requires Along(p, q, start, now, done, results)
    requires q == Plan(one.steps + rest.steps, rest.fired, one.outcomes + rest.outcomes)
    requires |one.steps| <= now.fuel && !r.ending.Crashed? && one.outcomes == [OutcomeOf(r)]
    ensures Along(p, rest, start, After(now, one.steps), done + one.steps, results + [r])
  {
    AfterConcat(start, done, one.steps);
    Regroup(done, one.steps, rest.steps);
    OutcomesOfAppend(results, r);
    Regroup(OutcomesOf(results), one.outcomes, rest.outcomes);
  }

  /** Along a list with the actions from the i-th on ahead. */
  predicate ListAt(p: Plan, w: Ctx, fired: bool, rule: RuleRef, base: Path, i: nat, actions: seq<Action>, depth: nat,
                   start: Tally, now: Tally, done: seq<Step>, results: seq<ActionResult>)
    requires depth <= MAX_RULE_CAUSATION_DEPTH
  {
    i <= |actions| && Along(p, PlanActions(w, fired, rule, base, i, actions[i..], depth), start, now, done, results)
  }

  lemma ListStarts(w: Ctx, fired: bool, rule: RuleRef, base: Path, actions: seq<Action>, depth: nat, start: Tally)
    requires depth <= MAX_RULE_CAUSATION_DEPTH
    ensures ListAt(PlanActions(w, fired, rule, base, 0, actions, depth), w, fired, rule, base, 0, actions, depth, start, start, [], [])
  {
    assert actions[0..] == actions;
    AlongStart(PlanActions(w, fired, rule, base, 0, actions, depth), start);
  }

  lemma ListEnds(p: Plan, w: Ctx, fired: bool, rule: RuleRef, base: Path, actions: seq<Action>, depth: nat,
                 start: Tally, now: Tally, done: seq<Step>, results: seq<ActionResult>)
    requires depth <= MAX_RULE_CAUSATION_DEPTH
    requires ListAt(p, w, fired, rule, base, |actions|, actions, depth, start, now, done, results)
    ensures now == After(start, p.steps) && |p.steps| <= start.fuel && p.outcomes == OutcomesOf(results) && p.fired == fired
  {
    AlongEnd(p, PlanActions(w, fired, rule, base, |actions|, actions[|actions|..], depth), start, now, done, results);
  }

  lemma AlongActions(p: Plan, w: Ctx, fired: bool, rule: RuleRef, base: Path, i: nat, actions: seq<Action>, depth: nat,
                     start: Tally, now: Tally, done: seq<Step>, results: seq<ActionResult>, r: ActionResult)
    requires depth <= MAX_RULE_CAUSATION_DEPTH && i < |actions|
    requires ListAt(p, w, fired, rule, base, i, actions, depth, start, now, done, results)
    requires var one := PlanAction(w, fired, Site(rule, base + [At(i)]), actions[i], depth);
             && (r.ending.Crashed? <==> |one.steps| > now.fuel)
             && (!r.ending.Crashed? ==> one.outcomes == [OutcomeOf(r)])
    ensures var one := PlanAction(w, fired, Site(rule, base + [At(i)]), actions[i], depth);
            && (r.ending.Crashed? ==> |p.steps| > start.fuel && After(start, p.steps) == After(now, one.steps))
            && (!r.ending.Crashed? ==>
                  ListAt(p, w, one.fired, rule, base, i + 1, actions, depth, start, After(now, one.steps), done + one.steps, results + [r]))
  {
    var q := PlanActions(w, fired, rule, base, i, actions[i..], depth);
    var one := PlanAction(w, fired, Site(rule, base + [At(i)]), actions[i], depth);
    var rest := PlanActions(w, one.fired, rule, base, i + 1, actions[i + 1..], depth);
    ActionsUnfold(w, fired, rule, base, i, actions, depth);
    if r.ending.Crashed? {
      AlongDies(p, q, one, rest, start, now, done, results);
    } else {
      AlongStep(p, q, one, rest, start, now, done, results, r);
    }
  }

  /** The same along a pass. */
  predicate AlongPass(p: Pass, q: Pass, start: Tally, now: Tally, done: seq<Step>, terminal: bool) {
    && |done| <= start.fuel && now == After(start, done)
    && p.steps == done + q.steps && p.fired == q.fired
    && p.terminalFired == (terminal || q.terminalFired)
  }

  lemma AlongPassStep(p: Pass, q: Pass, block: seq<Step>, marked: bool, rest: Pass, start: Tally, now: Tally, done: seq<Step>, terminal: bool)
    requires AlongPass(p, q, start, now, done, terminal)
    requires q == Pass(block + rest.steps, rest.fired, marked || rest.terminalFired)
    ensures |block| > now.fuel ==> |p.steps| > start.fuel && After(start, p.steps) == After(now, block)
    ensures |block| <= now.fuel ==> AlongPass(p, rest, start, After(now, block), done + block, terminal || marked)
  {
    if |block| > now.fuel {
      DiesWithin(start, done, block, rest.steps);
    } else {
      AfterConcat(start, done, block);
      Regroup(done, block, rest.steps);
    }
  }

  /** What a pass does at one matched rule: nothing but pick up the recorded flag, or the
      actions and then the row. */
  datatype Visit = Visit(steps: seq<Step>, fired: bool, terminal: bool, runs: map<RunKey, Run>)

  function VisitRule(w: Ctx, runs: map<RunKey, Run>, fired: bool, rule: Rule, depth: nat): Visit {
    var key := RunKey(rule.ref, w.eventId);
    if key in runs then Visit([], fired || runs[key].terminal, runs[key].terminal, runs)
    else
      var p := PlanRule(w, fired, rule, depth);
      var run := RunOf(p, depth);
      Visit(p.steps + [Record(key, run)], p.fired, run.terminal, runs[key := run])
  }

  lemma ActionsUnfold(w: Ctx, fired: bool, rule: RuleRef, base: Path, i: nat, actions: seq<Action>, depth: nat)
    requires depth <= MAX_RULE_CAUSATION_DEPTH && i < |actions|
    ensures var p := PlanAction(w, fired, Site(rule, base + [At(i)]), actions[i], depth);
            var q := PlanActions(w, p.fired, rule, base, i + 1, actions[i + 1..], depth);
            PlanActions(w, fired, rule, base, i, actions[i..], depth) == Plan(p.steps + q.steps, q.fired, p.outcomes + q.outcomes)
  {}

  lemma PassUnfold(w: Ctx, runs: map<RunKey, Run>, fired: bool, rules: seq<Rule>, i: nat, depth: nat)
    requires i < |rules|
    ensures var v := VisitRule(w, runs, fired, rules[i], depth);
            var rest := PlanPass(w, v.runs, v.fired, rules[i + 1..], depth);
            PlanPass(w, runs, fired, rules[i..], depth)
            == Pass(v.steps + rest.steps, rest.fired, v.terminal || rest.terminalFired)
  {}

  datatype RuleStatus = Ran(status: RunStatus) | AlreadyRecorded
  datatype Summary = Summary(matched: nat, terminalFired: bool, runs: seq<(RuleRef, RuleStatus)>)

  /** The report of a pass: each rule in order, with the status of the row it wrote, or
      already recorded when the row was there before the pass or from a rule before it. */
  predicate Reported(w: Ctx, before: map<RunKey, Run>, after: map<RunKey, Run>, rules: seq<Rule>, reports: seq<(RuleRef, RuleStatus)>) {
    && |reports| == |rules|
    && forall k :: 0 <= k < |rules| ==> reports[k].0 == rules[k].ref && ReportedAt(w, before, after, rules, reports[k].1, k)
  }

  predicate ReportedAt(w: Ctx, before: map<RunKey, Run>, after: map<RunKey, Run>, rules: seq<Rule>, status: RuleStatus, k: nat)
    requires k < |rules|
  {
    var key := RunKey(rules[k].ref, w.eventId);
    && key in after
    && status == if key in before || Earlier(rules, k) then AlreadyRecorded else Ran(after[key].status)
  }

  predicate Earlier(rules: seq<Rule>, k: nat)
    requires k < |rules|
  {
    exists j :: 0 <= j < k && rules[j].ref == rules[k].ref
  }

  /** Rows stay, and a new one comes from one of the rules. */
  predicate Covers(w: Ctx, before: map<RunKey, Run>, after: map<RunKey, Run>, rules: seq<Rule>) {
    && (forall key :: key in before ==> key in after && after[key] == before[key])
    && (forall key :: key in after && key !in before ==> exists r :: r in rules && key == RunKey(r.ref, w.eventId))
  }

  lemma ReportedNext(w: Ctx, before: map<RunKey, Run>, mid: map<RunKey, Run>, after: map<RunKey, Run>,
                     rules: seq<Rule>, reports: seq<(RuleRef, RuleStatus)>, r: Rule, status: RuleStatus)
    requires Reported(w, before, mid, rules, reports) && Covers(w, before, mid, rules)
    requires Adds(mid, after, RunKey(r.ref, w.eventId), status)
    ensures Reported(w, before, after, rules + [r], reports + [(r.ref, status)]) && Covers(w, before, after, rules + [r])
  {
    forall k | 0 <= k < |rules|
      ensures ReportedAt(w, before, after, rules + [r], reports[k].1, k)
    {
      ReportKept(w, before, mid, after, rules, [r], reports[k].1, k);
    }
    NewReport(w, before, mid, after, rules, r, status);
    CoversNext(w, before, mid, after, rules, r, status);
  }

  predicate Reports(w: Ctx, before: map<RunKey, Run>, after: map<RunKey, Run>, rules: seq<Rule>, reports: seq<(RuleRef, RuleStatus)>) {
    Reported(w, before, after, rules, reports) && Covers(w, before, after, rules)
  }

  /** The report of the rules up to the i-th. */
  predicate ReportedTo(w: Ctx, before: map<RunKey, Run>, now: map<RunKey, Run>, rules: seq<Rule>, i: nat, reports: seq<(RuleRef, RuleStatus)>) {
    i <= |rules| && Reports(w, before, now, rules[..i], reports)
  }

  lemma ReportStarts(w: Ctx, runs: map<RunKey, Run>, rules: seq<Rule>)
    ensures ReportedTo(w, runs, runs, rules, 0, [])
  {}

  lemma ReportEnds(w: Ctx, before: map<RunKey, Run>, after: map<RunKey, Run>, rules: seq<Rule>, reports: seq<(RuleRef, RuleStatus)>)
    requires ReportedTo(w, before, after, rules, |rules|, reports)
    ensures Reports(w, before, after, rules, reports)
  {
    assert rules[..|rules|] == rules;
  }

  lemma ReportNext(w: Ctx, before: map<RunKey, Run>, mid: map<RunKey, Run>, after: map<RunKey, Run>,
                   rules: seq<Rule>, i: nat, reports: seq<(RuleRef, RuleStatus)>, status: RuleStatus)
    requires i < |rules| && ReportedTo(w, before, mid, rules, i, reports)
    requires Adds(mid, after, RunKey(rules[i].ref, w.eventId), status)
    ensures ReportedTo(w, before, after, rules, i + 1, reports + [(rules[i].ref, status)])
  {
    ReportedNext(w, before, mid, after, rules[..i], reports, rules[i], status);
    assert rules[..i + 1] == rules[..i] + [rules[i]];
  }

  lemma CoversNext(w: Ctx, before: map<RunKey, Run>, mid: map<RunKey, Run>, after: map<RunKey, Run>,
                   rules: seq<Rule>, r: Rule, status: RuleStatus)
    requires Covers(w, before, mid, rules) && Adds(mid, after, RunKey(r.ref, w.eventId), status)
    ensures Covers(w, before, after, rules + [r])
  {
    assert forall q :: q in rules + [r] <==> q in rules || q == r;
    assert after.Keys == mid.Keys + {RunKey(r.ref, w.eventId)};
  }

  /** The row of a rule that had none is added, under the reported status. */
  predicate Adds(mid: map<RunKey, Run>, after: map<RunKey, Run>, key: RunKey, status: RuleStatus) {
    if key in mid then after == mid && status == AlreadyRecorded
    else key in after && after == mid[key := after[key]] && status == Ran(after[key].status)
  }

  /** Two passes, one after the other. */
  lemma ReportedJoin(w: Ctx, before: map<RunKey, Run>, mid: map<RunKey, Run>, after: map<RunKey, Run>,
                     a: seq<Rule>, b: seq<Rule>, first: seq<(RuleRef, RuleStatus)>, second: seq<(RuleRef, RuleStatus)>)
    requires Reported(w, before, mid, a, first) && Covers(w, before, mid, a)
    requires Reported(w, mid, after, b, second) && Covers(w, mid, after, b)
    ensures Reported(w, before, after, a + b, first + second)
  {
    forall k | 0 <= k < |a + b|
      ensures (first + second)[k].0 == (a + b)[k].ref && ReportedAt(w, before, after, a + b, (first + second)[k].1, k)
    {
      if k < |a| {
        ReportKept(w, before, mid, after, a, b, first[k].1, k);
      } else {
        LaterReport(w, before, mid, after, a, b, second[k - |a|].1, k - |a|);
      }
    }
  }

  lemma LaterReport(w: Ctx, before: map<RunKey, Run>, mid: map<RunKey, Run>, after: map<RunKey, Run>,
                    a: seq<Rule>, b: seq<Rule>, status: RuleStatus, k: nat)
    requires k < |b| && ReportedAt(w, mid, after, b, status, k) && Covers(w, before, mid, a)
    requires forall j :: 0 <= j < |a| ==> RunKey(a[j].ref, w.eventId) in mid
    ensures ReportedAt(w, before, after, a + b, status, |a| + k)
  {
    var all, key := a + b, RunKey(b[k].ref, w.eventId);
    assert all[|a| + k] == b[k];
    if key in mid && key !in before {
      var q :| q in a && key == RunKey(q.ref, w.eventId);
      var j :| 0 <= j < |a| && a[j] == q;
      assert all[j] == q && Earlier(all, |a| + k);
    }
    if Earlier(b, k) {
      var j :| 0 <= j < k && b[j].ref == b[k].ref;
      assert all[|a| + j] == b[j] && Earlier(all, |a| + k);
    }
    if Earlier(all, |a| + k) && !Earlier(b, k) {
      var j :| 0 <= j < |a| + k && all[j].ref == b[k].ref;
      AmongFirst(a, b, j, k);
      assert RunKey(a[j].ref, w.eventId) in mid;
    }
  }

  lemma AmongFirst(a: seq<Rule>, b: seq<Rule>, j: nat, k: nat)
    requires k < |b| && j < |a| + k && (a + b)[j].ref == b[k].ref && !Earlier(b, k)
    ensures j < |a|
  {}

  lemma ReportKept(w: Ctx, before: map<RunKey, Run>, mid: map<RunKey, Run>, after: map<RunKey, Run>,
                   rules: seq<Rule>, more: seq<Rule>, status: RuleStatus, k: nat)
    requires k < |rules| && ReportedAt(w, before, mid, rules, status, k)
    requires forall key :: key in mid ==> key in after && after[key] == mid[key]
    ensures ReportedAt(w, before, after, rules + more, status, k)
  {
    var all := rules + more;
    assert all[k] == rules[k] && forall j :: 0 <= j < k ==> all[j] == rules[j];
    assert Earlier(all, k) <==> Earlier(rules, k);
  }

  lemma NewReport(w: Ctx, before: map<RunKey, Run>, mid: map<RunKey, Run>, after: map<RunKey, Run>,
                  rules: seq<Rule>, r: Rule, status: RuleStatus)
    requires Covers(w, before, mid, rules) && Adds(mid, after, RunKey(r.ref, w.eventId), status)
    requires forall q :: q in rules ==> RunKey(q.ref, w.eventId) in mid
    ensures ReportedAt(w, before, after, rules + [r], status, |rules|)
  {
    var all, key := rules + [r], RunKey(r.ref, w.eventId);
    assert all[|rules|] == r;
    if key in mid && key !in before {
      var q :| q in rules && key == RunKey(q.ref, w.eventId);
      var j :| 0 <= j < |rules| && rules[j] == q;
      assert all[j] == q && Earlier(all, |rules|);
    }
    if Earlier(all, |rules|) {
      var j :| 0 <= j < |rules| && all[j].ref == r.ref;
      assert rules[j] in rules;
    }
  }

  /** Along a pass with the rules from the i-th on ahead. */
  predicate PassAt(p: Pass, w: Ctx, runs: map<RunKey, Run>, fired: bool, matched: seq<Rule>, i: nat, depth: nat,
                   start: Tally, now: Tally, done: seq<Step>, terminal: bool) {
    i <= |matched| && AlongPass(p, PlanPass(w, runs, fired, matched[i..], depth), start, now, done, terminal)
  }

  lemma PassStarts(w: Ctx, fired: bool, matched: seq<Rule>, depth: nat, start: Tally)
    ensures PassAt(PlanPass(w, start.db.runs, fired, matched, depth), w, start.db.runs, fired, matched, 0, depth, start, start, [], false)
  {
    assert matched[0..] == matched;
    AfterNothing(start);
  }

  lemma PassEnds(p: Pass, w: Ctx, runs: map<RunKey, Run>, fired: bool, matched: seq<Rule>, depth: nat,
                 start: Tally, now: Tally, done: seq<Step>, terminal: bool)
    requires PassAt(p, w, runs, fired, matched, |matched|, depth, start, now, done, terminal)
    ensures now == After(start, p.steps) && |p.steps| <= start.fuel && p.fired == fired && p.terminalFired == terminal
  {
    assert p.steps == done;
  }

  /** The next matched rule takes the pass one rule further, or dies within it. */
  lemma NextRule(p: Pass, w: Ctx, runs: map<RunKey, Run>, fired: bool, matched: seq<Rule>, i: nat, depth: nat,
                 start: Tally, now: Tally, done: seq<Step>, terminal: bool)
    requires i < |matched| && PassAt(p, w, runs, fired, matched, i, depth, start, now, done, terminal)
    ensures var v := VisitRule(w, runs, fired, matched[i], depth);
            && (|v.steps| > now.fuel ==> |p.steps| > start.fuel && After(start, p.steps) == After(now, v.steps))
            && (|v.steps| <= now.fuel ==>
                  PassAt(p, w, v.runs, v.fired, matched, i + 1, depth, start, After(now, v.steps), done + v.steps, terminal || v.terminal))
  {
    var v := VisitRule(w, runs, fired, matched[i], depth);
    PassUnfold(w, runs, fired, matched, i, depth);
    AlongPassStep(p, PlanPass(w, runs, fired, matched[i..], depth), v.steps, v.terminal,
                  PlanPass(w, v.runs, v.fired, matched[i + 1..], depth), start, now, done, terminal);
  }

  /** Along a pass, with the report so far. */
  predicate Passing(p: Pass, w: Ctx, fired: bool, matched: seq<Rule>, i: nat, depth: nat, start: Tally, now: Tally,
                    done: seq<Step>, terminal: bool, reports: seq<(RuleRef, RuleStatus)>) {
    && PassAt(p, w, now.db.runs, fired, matched, i, depth, start, now, done, terminal)
    && ReportedTo(w, start.db.runs, now.db.runs, matched, i, reports)
  }

  lemma PassingStarts(w: Ctx, fired: bool, matched: seq<Rule>, depth: nat, start: Tally)
    ensures Passing(PlanPass(w, start.db.runs, fired, matched, depth), w, fired, matched, 0, depth, start, start, [], false, [])
  {
    PassStarts(w, fired, matched, depth, start);
    ReportStarts(w, start.db.runs, matched);
  }

  lemma PassingNext(p: Pass, w: Ctx, fired: bool, matched: seq<Rule>, i: nat, depth: nat, start: Tally, now: Tally, done: seq<Step>,
                    terminal: bool, reports: seq<(RuleRef, RuleStatus)>, after: Tally, status: RuleStatus)
    requires i < |matched| && Passing(p, w, fired, matched, i, depth, start, now, done, terminal, reports)
    requires var v := VisitRule(w, now.db.runs, fired, matched[i], depth);
             && after == After(now, v.steps)
             && (|v.steps| <= now.fuel ==>
                   after.db.runs == v.runs && Adds(now.db.runs, v.runs, RunKey(matched[i].ref, w.eventId), status))
    ensures var v := VisitRule(w, now.db.runs, fired, matched[i], depth);
            && (|v.steps| > now.fuel ==> |p.steps| > start.fuel && After(start, p.steps) == after)
            && (|v.steps| <= now.fuel ==>
                  Passing(p, w, v.fired, matched, i + 1, depth, start, after, done + v.steps, terminal || v.terminal,
                          reports + [(matched[i].ref, status)]))
  {
    NextRule(p, w, now.db.runs, fired, matched, i, depth, start, now, done, terminal);
    if |VisitRule(w, now.db.runs, fired, matched[i], depth).steps| <= now.fuel {
      ReportNext(w, start.db.runs, now.db.runs, after.db.runs, matched, i, reports, status);
    }
  }

  lemma PassingEnds(p: Pass, w: Ctx, fired: bool, matched: seq<Rule>, depth: nat, start: Tally, now: Tally,
                    done: seq<Step>, terminal: bool, reports: seq<(RuleRef, RuleStatus)>)
    requires Passing(p, w, fired, matched, |matched|, depth, start, now, done, terminal, reports)
    ensures now == After(start, p.steps) && |p.steps| <= start.fuel && p.fired == fired && p.terminalFired == terminal
    ensures Reports(w, start.db.runs, now.db.runs, matched, reports)
  {
    PassEnds(p, w, now.db.runs, fired, matched, depth, start, now, done, terminal);
    ReportEnds(w, start.db.runs, now.db.runs, matched, reports);
  }

  predicate SomeTerminal(rs: seq<ActionResult>) { exists r :: r in rs && r.terminal }
  predicate SomeConflict(rs: seq<ActionResult>) { exists r :: r in rs && r.ending.SkippedConflict? }
  predicate SomeRefused(rs: seq<ActionResult>) { exists r :: r in rs && r.ending.Refused? }
  predicate SomeError(rs: seq<ActionResult>) { exists r :: r in rs && (r.ending.Error? || r.ending.Refused?) }

  /** The run row of a rule whose actions were executed. */
  method RunRow(results: seq<ActionResult>, depth: nat) returns (run: Run)
    requires NoCrash(results)
    requires depth <= MAX_RULE_CAUSATION_DEPTH
    ensures forall p: Plan :: p.outcomes == OutcomesOf(results) ==> run == RunOf(p, depth)
  {
    OutcomesOfMeans(results);
    VerdictsByEnding(results);
    var anyConflict, anyRefused := SomeConflict(results), SomeRefused(results);
    var anyError := exists x :: x in results && x.ending.Error?;
    var status := if anyConflict then RunStatus.SkippedConflict
                  else if anyRefused then RefusedDepth
                  else if anyError then Errored
                  else Fired;
    return RuleModel.Run.Run(status, SomeTerminal(results), depth);
  }

  lemma VerdictsByEnding(rs: seq<ActionResult>)
    requires NoCrash(rs)
    ensures AnyTerminal(OutcomesOf(rs)) <==> SomeTerminal(rs)
    ensures AnyVerdict(OutcomesOf(rs), Conflict) <==> SomeConflict(rs)
    ensures AnyVerdict(OutcomesOf(rs), Verdict.Refused) <==> SomeRefused(rs)
    ensures AnyVerdict(OutcomesOf(rs), Failed) <==> exists x :: x in rs && x.ending.Error?
  {}

  class Engine {
    var db: Db
    /** The terminal flag of this delivery, shared by every rule and nested automation. */
    var fired: bool
    /** Steps the worker still completes before it dies. */
    var fuel: nat
    var outbox: seq<Published>
    const w: Ctx

    constructor (w: Ctx, db: Db, fuel: nat)
      ensures this.w == w && this.db == db && this.fuel == fuel && !fired && outbox == []
    {
      this.w := w;
      this.db := db;
      this.fuel := fuel;
      fired := false;
      outbox := [];
    }

    function State(): Tally
      reads this
    {
      Tally(db, fuel, outbox)
    }

    // ---- One action ------------------------------------------------------------------

    /** All kinds but run_automation; the wrapper's terminal check included. */
    method ExecuteLeaf(site: Site, a: Action, depth: nat) returns (r: ActionResult)
      requires Fits(w, db) && !a.RunAutomation?
      modifies `db, `fired, `fuel, `outbox
      ensures Fits(w, db)
      ensures var p := PlanLeaf(w, old(fired), site, a, depth);
              && State() == After(old(State()), p.steps)
              && (r.ending.Crashed? <==> old(fuel) == 0)
              && (!r.ending.Crashed? ==> fired == p.fired && p.outcomes == [OutcomeOf(r)])
      ensures r.ending.Noop? ==> db == old(db) && outbox == old(outbox)
    {
      ghost var p := PlanLeaf(w, fired, site, a, depth);
      AfterOne(State(), p.steps[0]);
      assert p.steps == [p.steps[0]];
      if fuel == 0 {
        return ActionResult(Crashed, false);
      }
      fuel := fuel - 1;
      if IsTerminal(a) && fired {
        return ActionResult(Ending.SkippedConflict, false);
      }
      var ending := RunLeaf(site, a);
      if IsTerminal(a) && ending == Executed {
        fired := true;
        return ActionResult(Executed, true);
      }
      return ActionResult(ending, false);
    }

    method RunLeaf(site: Site, a: Action) returns (e: Ending)
      requires Fits(w, db) && !a.RunAutomation?
      modifies `db, `outbox
      ensures Fits(w, db)
      ensures var f := EffectOf(w, site, a);
              && (f.None? ==> e == Error && db == old(db) && outbox == old(outbox))
              && (f.Some? ==> && (e == Executed || e == Noop)
                              && db == ApplyEffect(old(db), f.value)
                              && outbox == old(outbox) + PublishedBy(old(db), Act(site, 0, a, Applied, f.value)))
      ensures e == Noop ==> !IsTerminal(a) && db == old(db) && outbox == old(outbox)
    {
      var faulty := site in w.faults;
      match a {
        case MoveToNode(_) =>
          if w.enrollment.Absent? || !w.moveWired || faulty { return Error; }
          return Executed;
        case EndEnrollment =>
          if w.enrollment.Absent? || db.enrollment.None? || faulty { return Error; }
          db := db.(enrollment := Some(db.enrollment.value.(status := DONE)));
          return Executed;
        case PauseEnrollment =>
          if w.enrollment.Absent? || db.enrollment.None? || faulty { return Error; }
          db := db.(enrollment := Some(db.enrollment.value.(status := PAUSED, blocked := Some(site.rule.id))));
          return Executed;
        case SuppressContact =>
          e := SuppressContactRow(site.rule.id, faulty);
        case SetStage(stage) =>
          if w.enrollment.Absent? || db.enrollment.None? || faulty { return Error; }
          var from := db.enrollment.value.stage;
          if from == stage { return Noop; }
          db := db.(enrollment := Some(db.enrollment.value.(stage := stage)));
          outbox := outbox + [StageChanged(from, stage)];
          return Executed;
        case NotifyTeam => return Executed;
        case AddTag(tag) =>
          if w.contact.Absent? || db.contact.None? || faulty { return Error; }
          if tag in db.contact.value.tags { return Noop; }
          db := db.(contact := Some(db.contact.value.(tags := db.contact.value.tags + [tag])));
          return Executed;
        case SendBookingLink =>
          if w.enrollment.Absent? { return Noop; }
          if db.enrollment.None? || faulty { return Error; }
          if db.enrollment.value.bookingLinkRequested { return Noop; }
          db := db.(enrollment := Some(db.enrollment.value.(bookingLinkRequested := true)));
          return Executed;
        case SendPaymentLink =>
          if w.enrollment.Absent? { return Noop; }
          if db.enrollment.None? || faulty { return Error; }
          if db.enrollment.value.paymentLinkRequested { return Noop; }
          db := db.(enrollment := Some(db.enrollment.value.(paymentLinkRequested := true)));
          return Executed;
        case SendWebhook => return Executed;
        case CreateCrmDeal =>
          if w.contact.Absent? { return Noop; }
          if !w.crmWired { return Executed; }
          if faulty { return Error; }
          if db.contact.None? || db.contact.value.email.None? { return Noop; }
          if site in w.deals && db.enrollment.Some? {
            db := db.(enrollment := Some(db.enrollment.value.(crmDealId := Some(w.deals[site]))));
          }
          return Executed;
        case UpdateDealStage(_) =>
          if w.contact.Absent? { return Noop; }
          if !w.crmWired { return Executed; }
          if !w.enrollment.Absent? && faulty { return Error; }
          return Executed;
      }
    }

    /** Create-if-absent per address in one transaction; publishes only for created rows. */
    method SuppressContactRow(ruleId: Id, faulty: bool) returns (e: Ending)
      requires Fits(w, db)
      modifies `db, `outbox
      ensures Fits(w, db)
      ensures if w.contact.Present? && !w.enrollment.Dangling? && !faulty then
                && e == Executed
                && db == ApplyEffect(old(db), Suppress(ruleId, w.enrollment.Present?))
                && outbox == old(outbox) + PublishedBy(old(db),
                     Act(Site(RuleRef(Campaign, ruleId), []), 0, SuppressContact, Applied, Suppress(ruleId, w.enrollment.Present?)))
              else e == Error && db == old(db) && outbox == old(outbox)
    {
      if w.contact.Absent? || db.contact.None? || faulty { return Error; }
      var contact := db.contact.value;
      var suppressions, created, optOut := db.suppressions, [], contact.optOut;
      if contact.email.Some? {
        var a := Address(Email, contact.email.value);
        if a !in suppressions {
          suppressions := suppressions[a := ruleId];
          created := created + [Unsubscribed(Email)];
        }
        optOut := optOut + {Email};
      }
      if contact.phone.Some? {
        var a := Address(Sms, contact.phone.value);
        if a !in suppressions {
          suppressions := suppressions[a := ruleId];
          created := created + [Unsubscribed(Sms)];
        }
        optOut := optOut + {Sms};
      }
      if !w.enrollment.Absent? && db.enrollment.None? { return Error; }  // the transaction rolls back
      assert suppressions == ApplyToSuppressions(db.suppressions, contact, Suppress(ruleId, true));
      assert optOut == contact.optOut + Channels(contact);
      db := db.(contact := Some(contact.(optOut := optOut)), suppressions := suppressions);
      if !w.enrollment.Absent? {
        db := db.(enrollment := Some(db.enrollment.value.(status := UNSUBSCRIBED)));
      }
      outbox := outbox + created;
      return Executed;
    }

    /** Any action; run_automation recurses one level deeper with the same flag. */
    method ExecuteAction(site: Site, a: Action, depth: nat) returns (r: ActionResult)
      requires Fits(w, db) && depth <= MAX_RULE_CAUSATION_DEPTH
      modifies `db, `fired, `fuel, `outbox
      ensures Fits(w, db)
      ensures var p := PlanAction(w, old(fired), site, a, depth);
              && State() == After(old(State()), p.steps)
              && (r.ending.Crashed? <==> |p.steps| > old(fuel))
              && (!r.ending.Crashed? ==> fired == p.fired && p.outcomes == [OutcomeOf(r)])
      decreases MAX_RULE_CAUSATION_DEPTH - depth, 1
    {
      if !a.RunAutomation? {
        r := ExecuteLeaf(site, a, depth);
        return;
      }
      if RunsNested(w, site, a, depth) {
        r := RunAutomationBody(site, a, depth);
        return;
      }
      ghost var p := PlanAction(w, fired, site, a, depth);
      SingleStep(w, fired, site, a, depth);
      AfterOne(State(), p.steps[0]);
      assert p.steps == [p.steps[0]];
      if fuel == 0 {
        return ActionResult(Crashed, false);
      }
      fuel := fuel - 1;
      var id := a.automationId;
      if site in w.faults || id !in w.automations || !w.automations[id].enabled {
        return ActionResult(Error, false);  // MISSING_AUTOMATION or AUTOMATION_DISABLED
      }
      if depth + 1 > MAX_RULE_CAUSATION_DEPTH {
        return ActionResult(if site in w.recordFaults then Error else Ending.Refused, false);
      }
      return ActionResult(Error, false);  // INVALID_ACTIONS
    }

    method RunAutomationBody(site: Site, a: Action, depth: nat) returns (r: ActionResult)
      requires Fits(w, db) && depth <= MAX_RULE_CAUSATION_DEPTH && RunsNested(w, site, a, depth)
      modifies `db, `fired, `fuel, `outbox
      ensures Fits(w, db)
      ensures var p := PlanAction(w, old(fired), site, a, depth);
              && State() == After(old(State()), p.steps)
              && (r.ending.Crashed? <==> |p.steps| > old(fuel))
              && (!r.ending.Crashed? ==> fired == p.fired && p.outcomes == [OutcomeOf(r)])
      decreases MAX_RULE_CAUSATION_DEPTH - depth, 0
    {
      NestedSteps(w, fired, site, a, depth);
      ghost var nested := NestedPlan(w, fired, site, a, depth);
      ghost var own := Act(site, depth, a, NestedOutcome(w, site, nested.outcomes).verdict, NoEffect);
      AfterNested(State(), nested.steps, own);
      var crashed, results := ExecuteActions(site.rule, NestedBase(site, a), w.automations[a.automationId].actions, depth + 1);
      if crashed {
        return ActionResult(Crashed, false);
      }
      if fuel == 0 {
        return ActionResult(Crashed, false);
      }
      fuel := fuel - 1;
      r := NestedEnding(site, results);
    }

    /** What the run_automation itself reports; a row that cannot be written throws. */
    method NestedEnding(site: Site, results: seq<ActionResult>) returns (r: ActionResult)
      requires NoCrash(results)
      ensures !r.ending.Crashed? && OutcomeOf(r) == NestedOutcome(w, site, OutcomesOf(results))
    {
      VerdictsByEnding(results);
      if site in w.recordFaults {
        return ActionResult(Error, false);
      }
      var anyError, anyTerminal := SomeError(results), SomeTerminal(results);
      return ActionResult(if anyError then Error else Executed, anyTerminal);
    }

    /** The loop over a list of actions; stops where the worker dies. */
    method ExecuteActions(rule: RuleRef, base: Path, actions: seq<Action>, depth: nat) returns (crashed: bool, results: seq<ActionResult>)
      requires Fits(w, db) && depth <= MAX_RULE_CAUSATION_DEPTH
      modifies `db, `fired, `fuel, `outbox
      ensures Fits(w, db)
      ensures NoCrash(results)
      ensures var p := PlanActions(w, old(fired), rule, base, 0, actions, depth);
              && State() == After(old(State()), p.steps)
              && (crashed <==> |p.steps| > old(fuel))
              && (!crashed ==> fired == p.fired && p.outcomes == OutcomesOf(results))
      decreases MAX_RULE_CAUSATION_DEPTH - depth, 2
    {
      ghost var p := PlanActions(w, fired, rule, base, 0, actions, depth);
      ghost var start := State();
      ghost var done: seq<Step> := [];
      results := [];
      var i := 0;
      ListStarts(w, fired, rule, base, actions, depth, start);
      while i < |actions|
        invariant 0 <= i <= |actions|
        invariant Fits(w, db)
        invariant ListAt(p, w, fired, rule, base, i, actions, depth, start, State(), done, results) && NoCrash(results)
      {
        ghost var one := PlanAction(w, fired, Site(rule, base + [At(i)]), actions[i], depth);
        ghost var now, before := State(), fired;
        var r := ExecuteAction(Site(rule, base + [At(i)]), actions[i], depth);
        AlongActions(p, w, before, rule, base, i, actions, depth, start, now, done, results, r);
        if r.ending.Crashed? {
          return true, results;
        }
        done := done + one.steps;
        results := results + [r];
        i := i + 1;
      }
      ListEnds(p, w, fired, rule, base, actions, depth, start, State(), done, results);
      return false, results;
    }

    // ---- One pass --------------------------------------------------------------------

    /** Matched rules of either scope in order, one run row per rule, written last. */
    method ExecuteMatchedRules(matched: seq<Rule>, depth: nat) returns (crashed: bool, summary: Summary)
      requires Fits(w, db)
      modifies `db, `fired, `fuel, `outbox
      ensures Fits(w, db)
      ensures var p := PlanPass(w, old(db).runs, old(fired), matched, depth);
              && State() == After(old(State()), p.steps)
              && (crashed <==> |p.steps| > old(fuel))
              && (!crashed ==> && fired == p.fired && summary.terminalFired == p.terminalFired
                               && summary.matched == |matched|
                               && Reports(w, old(db).runs, db.runs, matched, summary.runs))
    {
      ghost var p := PlanPass(w, db.runs, fired, matched, depth);
      ghost var start := State();
      ghost var done: seq<Step> := [];
      var i, terminalFired := 0, false;
      var runs: seq<(RuleRef, RuleStatus)> := [];
      summary := Summary(|matched|, false, []);
      PassingStarts(w, fired, matched, depth, start);
      while i < |matched|
        invariant 0 <= i <= |matched|
        invariant Fits(w, db)
        invariant Passing(p, w, fired, matched, i, depth, start, State(), done, terminalFired, runs)
      {
        ghost var now, before := State(), fired;
        var status, terminal;
        crashed, status, terminal := ExecuteMatchedRule(matched[i], depth);
        PassingNext(p, w, before, matched, i, depth, start, now, done, terminalFired, runs, State(), status);
        if crashed {
          return;
        }
        done := done + VisitRule(w, now.db.runs, before, matched[i], depth).steps;
        terminalFired := terminalFired || terminal;
        runs := runs + [(matched[i].ref, status)];
        i := i + 1;
      }
      PassingEnds(p, w, fired, matched, depth, start, State(), done, terminalFired, runs);
      return false, Summary(|matched|, terminalFired, runs);
    }

    /** One matched rule: the idempotency check, its actions, then - last - its run row. */
    method ExecuteMatchedRule(rule: Rule, depth: nat) returns (crashed: bool, status: RuleStatus, terminal: bool)
      requires Fits(w, db)
      modifies `db, `fired, `fuel, `outbox
      ensures Fits(w, db)
      ensures var v := VisitRule(w, old(db).runs, old(fired), rule, depth);
              && State() == After(old(State()), v.steps)
              && (crashed <==> |v.steps| > old(fuel))
              && (!crashed ==> fired == v.fired && terminal == v.terminal && db.runs == v.runs)
      ensures !crashed ==> Adds(old(db).runs, db.runs, RunKey(rule.ref, w.eventId), status)
    {
      var key := RunKey(rule.ref, w.eventId);
      if key in db.runs {
        AfterNothing(State());
        if db.runs[key].terminal {
          fired := true;
        }
        return false, AlreadyRecorded, db.runs[key].terminal;
      }
      ghost var plan := PlanRule(w, fired, rule, depth);
      ghost var rec := Record(key, RunOf(plan, depth));
      AfterConcat(State(), plan.steps, [rec]);
      var run;
      crashed, run := ExecuteRule(rule, depth);
      if crashed || fuel == 0 {
        return true, AlreadyRecorded, false;
      }
      AfterOne(State(), rec);
      fuel := fuel - 1;
      db := db.(runs := db.runs[key := run]);
      return false, Ran(run.status), run.terminal;
    }

    /** One matched rule up to, not including, its run row. */
    method ExecuteRule(rule: Rule, depth: nat) returns (crashed: bool, run: Run)
      requires Fits(w, db)
      modifies `db, `fired, `fuel, `outbox
      ensures Fits(w, db) && db.runs == old(db.runs)
      ensures var p := PlanRule(w, old(fired), rule, depth);
              && State() == After(old(State()), p.steps)
              && (crashed <==> |p.steps| > old(fuel))
              && (!crashed ==> fired == p.fired && run == RunOf(p, depth))
    {
      ghost var p := PlanRule(w, fired, rule, depth);
      RuleActs(w, fired, rule, depth);
      ActsKeepRuns(db, Cut(p.steps, fuel));
      run := RuleModel.Run.Run(RefusedDepth, false, depth);
      if depth > MAX_RULE_CAUSATION_DEPTH {
        AfterNothing(State());
        return false, run;
      }
      var results;
      crashed, results := ExecuteActions(rule.ref, [], rule.actions, depth);
      if !crashed {
        run := RunRow(results, depth);
      }
    }

    /** The bus entry: the inertness check, then campaign and account rules with one flag.
        Its result is the evaluation the lemmas speak about. */
    method EvaluateEvent(campaign: seq<Rule>, account: seq<Rule>, depth: nat) returns (crashed: bool, summary: Summary)
      requires Fits(w, db) && !fired
      modifies `db, `fired, `fuel, `outbox
      ensures Fits(w, db)
      ensures !Fireable(w, old(db)) ==> !crashed && State() == old(State()) && summary == Summary(0, false, [])
      ensures Fireable(w, old(db)) ==>
                var steps := PlanPass(w, old(db).runs, false, campaign + account, depth).steps;
                && State() == After(old(State()), steps)
                && db == Deliver(w, old(db), campaign + account, depth, old(fuel))
                && (crashed <==> |steps| > old(fuel))
                && (!crashed ==> && summary.matched == |campaign + account|
                                 && Reported(w, old(db).runs, db.runs, campaign + account, summary.runs))
      ensures !crashed ==> db == Evaluate(w, old(db), campaign + account, depth)
      ensures !crashed ==> summary.terminalFired == TerminalFired(w, old(db), campaign + account, depth)
    {
      summary := Summary(0, false, []);
      if !w.enrollment.Absent? && (db.enrollment.None? || !FireableStatus(db.enrollment.value.status)) {
        return false, summary;
      }
      ghost var p := PlanPass(w, db.runs, false, campaign, depth);
      ghost var q := PlanPass(w, RunsAfter(db.runs, p.steps), p.fired, account, depth);
      ScopesShareOnePass(w, db.runs, false, campaign, account, depth);
      AfterConcat(State(), p.steps, q.steps);
      FoldRuns(db, p.steps);
      var first, second: Summary;
      crashed, first := ExecuteMatchedRules(campaign, depth);
      if crashed {
        return true, summary;
      }
      ghost var mid := db.runs;
      crashed, second := ExecuteMatchedRules(account, depth);
      if !crashed {
        ReportedJoin(w, old(db).runs, mid, db.runs, campaign, account, first.runs, second.runs);
      }
      summary := Summary(first.matched + second.matched, first.terminalFired || second.terminalFired, first.runs + second.runs);
    }
  }
}
