/** The bus entry point re-checks the enrollment before it runs the pass, and the graph
    gate asks it again: exactly when do a redelivery and a repeated ask agree with the
    uninterrupted evaluation? */
module EventEvaluation {
  import opened Options
  import opened RuleModel
  import opened RulePlan
  import opened TerminalDiscipline
  import opened Redelivery
  import opened CrashRecovery

  predicate FireableStatus(s: Status) { s.ACTIVE? || s.DONE? }

  /** Rules may fire: the event names no enrollment, or one that is ACTIVE or DONE. */
  predicate Fireable(w: Ctx, db: Db) {
    w.enrollment.Absent? || (db.enrollment.Some? && FireableStatus(db.enrollment.value.status))
  }

  function Evaluate(w: Ctx, db: Db, rules: seq<Rule>, depth: nat): Db {
    if Fireable(w, db) then Complete(w, db, rules, depth) else db
  }

  /** The summary's flag: true closes the gate of the graph continuation. */
  predicate TerminalFired(w: Ctx, db: Db, rules: seq<Rule>, depth: nat) {
    Fireable(w, db) && PlanPass(w, db.runs, false, rules, depth).terminalFired
  }

  lemma {:induction false} PassRecordsAll(w: Ctx, runs: map<RunKey, Run>, fired: bool, rules: seq<Rule>, depth: nat)
    ensures AllRecorded(w, RunsAfter(runs, PlanPass(w, runs, fired, rules, depth).steps), rules)
    decreases |rules|
  {
    if rules != [] {
      var key := KeyOf(w, rules[0]);
      var steps := PlanPass(w, runs, fired, rules, depth).steps;
      assert Cut(steps, |steps|) == steps;
      if key in runs {
        RecordedStays(w, runs, fired, rules, depth, |steps|, key);
        PassRecordsAll(w, runs, fired || runs[key].terminal, rules[1..], depth);
      } else {
        var p := PlanRule(w, fired, rules[0], depth);
        var run := RunOf(p, depth);
        var runs' := runs[key := run];
        var rest := PlanPass(w, runs', p.fired, rules[1..], depth);
        RunsAfterRule(w, runs, fired, rules[0], depth, key, run, rest.steps);
        assert Cut(rest.steps, |rest.steps|) == rest.steps;
        RecordedStays(w, runs', p.fired, rules[1..], depth, |rest.steps|, key);
        PassRecordsAll(w, runs', p.fired, rules[1..], depth);
      }
    }
  }

  /** An evaluation leaves everything as it is exactly when the event names an enrollment that
      is missing, paused, unsubscribed or bounced, or when nothing is left to record; any
      other evaluation leaves a row for every rule. */
  lemma InertIff(w: Ctx, db: Db, rules: seq<Rule>, depth: nat)
    ensures var inert := !w.enrollment.Absent?
                         && (db.enrollment.None? || db.enrollment.value.status in {PAUSED, UNSUBSCRIBED, BOUNCED});
            && (Evaluate(w, db, rules, depth) == db <==> inert || AllRecorded(w, db.runs, rules))
            && (!inert ==> AllRecorded(w, Evaluate(w, db, rules, depth).runs, rules))
  {
    PassRecordsAll(w, db.runs, false, rules, depth);
    FoldRuns(db, PlanPass(w, db.runs, false, rules, depth).steps);
    if AllRecorded(w, db.runs, rules) {
      NothingLeft(w, db.runs, false, rules, depth);
    }
  }

  lemma {:induction false} NothingLeft(w: Ctx, runs: map<RunKey, Run>, fired: bool, rules: seq<Rule>, depth: nat)
    requires AllRecorded(w, runs, rules)
    ensures PlanPass(w, runs, fired, rules, depth).steps == []
    decreases |rules|
  {
    if rules != [] {
      assert KeyOf(w, rules[0]) in runs;
      NothingLeft(w, runs, fired || runs[KeyOf(w, rules[0])].terminal, rules[1..], depth);
    }
  }

  /** A history of evaluations of one event, each dying after so many steps; one that finds the
      enrollment inert does nothing. */
  function Evaluations(w: Ctx, db: Db, rules: seq<Rule>, depth: nat, crashes: seq<nat>): Db
    decreases |crashes|
  {
    if crashes == [] then db
    else Evaluations(w, if Fireable(w, db) then Deliver(w, db, rules, depth, crashes[0]) else db, rules, depth, crashes[1..])
  }

  lemma {:induction false} EvaluationsAbsorbed(w: Ctx, db: Db, rules: seq<Rule>, depth: nat, crashes: seq<nat>)
    requires Steady(w, db.runs, false, rules, depth)
    ensures Complete(w, Evaluations(w, db, rules, depth, crashes), rules, depth) == Complete(w, db, rules, depth)
    decreases |crashes|
  {
    if crashes != [] {
      var next := if Fireable(w, db) then Deliver(w, db, rules, depth, crashes[0]) else db;
      PassAbsorbsCrash(w, db, false, rules, depth, crashes[0]);
      EvaluationsAbsorbed(w, next, rules, depth, crashes[1..]);
    }
  }

  /** After any number of crashed evaluations, one more reaches the state of the uninterrupted
      one if and only if the enrollment they left behind may still fire rules, or every row
      was written. A crash after a pause or a suppression loses the rest. */
  lemma RedeliveryFinishesIff(w: Ctx, db: Db, rules: seq<Rule>, depth: nat, crashes: seq<nat>)
    requires Steady(w, db.runs, false, rules, depth) && Fireable(w, db)
    ensures var mid := Evaluations(w, db, rules, depth, crashes);
            Evaluate(w, mid, rules, depth) == Evaluate(w, db, rules, depth)
            <==> Fireable(w, mid) || AllRecorded(w, mid.runs, rules)
  {
    var steps := PlanPass(w, db.runs, false, rules, depth).steps;
    var mid := Evaluations(w, db, rules, depth, crashes);
    EvaluationsAbsorbed(w, db, rules, depth, crashes);
    if AllRecorded(w, mid.runs, rules) {
      NothingLeft(w, mid.runs, false, rules, depth);
    } else {
      PassRecordsAll(w, db.runs, false, rules, depth);
      FoldRuns(db, steps);
      assert AllRecorded(w, Complete(w, db, rules, depth).runs, rules);
    }
  }

  lemma {:induction false} RowsKeepAnswer(w: Ctx, runs: map<RunKey, Run>, fired: bool, again: bool, rules: seq<Rule>, depth: nat)
    ensures var p := PlanPass(w, runs, fired, rules, depth);
            PlanPass(w, RunsAfter(runs, p.steps), again, rules, depth).terminalFired == p.terminalFired
    decreases |rules|
  {
    if rules != [] {
      var key := KeyOf(w, rules[0]);
      var steps := PlanPass(w, runs, fired, rules, depth).steps;
      assert Cut(steps, |steps|) == steps;
      if key in runs {
        RecordedStays(w, runs, fired, rules, depth, |steps|, key);
        RowsKeepAnswer(w, runs, fired || runs[key].terminal, again || runs[key].terminal, rules[1..], depth);
      } else {
        var p := PlanRule(w, fired, rules[0], depth);
        var run := RunOf(p, depth);
        var runs' := runs[key := run];
        var rest := PlanPass(w, runs', p.fired, rules[1..], depth);
        RunsAfterRule(w, runs, fired, rules[0], depth, key, run, rest.steps);
        assert Cut(rest.steps, |rest.steps|) == rest.steps;
        RecordedStays(w, runs', p.fired, rules[1..], depth, |rest.steps|, key);
        RowsKeepAnswer(w, runs', p.fired, again || run.terminal, rules[1..], depth);
      }
    }
  }

  // ---- What a pass does to the enrollment status ---------------------------------------

  /** The step takes the enrollment out of the statuses rules fire for. */
  predicate Stops(s: Step) {
    s.Act? && (s.effect.PauseIt? || (s.effect.Suppress? && s.effect.alsoEnrollment))
  }

  predicate WritesStatus(s: Step) { Stops(s) || (s.Act? && s.effect.EndIt?) }

  predicate StatusOnlyByFirings(steps: seq<Step>) { forall s :: s in steps && WritesStatus(s) ==> Fires(s) }

  lemma {:induction false} ActionsWriteStatusByFiring(w: Ctx, fired: bool, rule: RuleRef, base: Path, i: nat, rest: seq<Action>, depth: nat)
    requires depth <= MAX_RULE_CAUSATION_DEPTH
    ensures StatusOnlyByFirings(PlanActions(w, fired, rule, base, i, rest, depth).steps)
    decreases MAX_RULE_CAUSATION_DEPTH - depth, |rest|
  {
    if rest != [] {
      var site := Site(rule, base + [At(i)]);
      var p := PlanAction(w, fired, site, rest[0], depth);
      if rest[0].RunAutomation? && depth < MAX_RULE_CAUSATION_DEPTH && rest[0].automationId in w.automations {
        var id := rest[0].automationId;
        ActionsWriteStatusByFiring(w, fired, rule, site.path + [Auto(id)], 0, w.automations[id].actions, depth + 1);
      }
      assert StatusOnlyByFirings(p.steps);
      ActionsWriteStatusByFiring(w, p.fired, rule, base, i + 1, rest[1..], depth);
    }
  }

  lemma {:induction false} PassWritesStatusByFiring(w: Ctx, runs: map<RunKey, Run>, fired: bool, rules: seq<Rule>, depth: nat)
    ensures StatusOnlyByFirings(PlanPass(w, runs, fired, rules, depth).steps)
    decreases |rules|
  {
    if rules != [] {
      var key := KeyOf(w, rules[0]);
      if key in runs {
        PassWritesStatusByFiring(w, runs, fired || runs[key].terminal, rules[1..], depth);
      } else {
        var p := PlanRule(w, fired, rules[0], depth);
        if depth <= MAX_RULE_CAUSATION_DEPTH {
          ActionsWriteStatusByFiring(w, fired, rules[0].ref, [], 0, rules[0].actions, depth);
        }
        PassWritesStatusByFiring(w, runs[key := RunOf(p, depth)], p.fired, rules[1..], depth);
      }
    }
  }

  /** With at most one firing, the enrollment stops being fireable exactly when a pause or
      a suppression was among the steps. */
  lemma {:induction false} StoppedByOneStep(db: Db, steps: seq<Step>)
    requires db.enrollment.Some? && FireableStatus(db.enrollment.value.status)
    requires StatusOnlyByFirings(steps) && Firings(steps) <= 1
    ensures var e := Fold(db, steps).enrollment;
            e.Some? && (FireableStatus(e.value.status) <==> !exists s :: s in steps && Stops(s))
    decreases |steps|
  {
    if steps != [] {
      var next := Apply(db, steps[0]);
      assert steps[0] in steps;
      assert forall s :: s in steps[1..] ==> s in steps;
      assert forall s :: s in steps ==> s == steps[0] || s in steps[1..];
      if Stops(steps[0]) {
        NoFiringsKeepStatus(next, steps[1..]);
      } else {
        StoppedByOneStep(next, steps[1..]);
      }
    }
  }

  lemma {:induction false} NoFiringsKeepStatus(db: Db, steps: seq<Step>)
    requires db.enrollment.Some? && StatusOnlyByFirings(steps) && Firings(steps) == 0
    ensures var e := Fold(db, steps).enrollment; e.Some? && e.value.status == db.enrollment.value.status
    decreases |steps|
  {
    if steps != [] {
      assert steps[0] in steps;
      assert forall s :: s in steps[1..] ==> s in steps;
      NoFiringsKeepStatus(Apply(db, steps[0]), steps[1..]);
    }
  }

  /** Asking again after a complete evaluation gives the same answer if and only if the
      evaluation did not both report a terminal action and stop the event's enrollment by
      a pause or a suppression: then the gate that was closed opens again. */
  lemma RepeatedAskAgreesIff(w: Ctx, db: Db, rules: seq<Rule>, depth: nat)
    requires Fits(w, db) && Fireable(w, db)
    ensures var pass := PlanPass(w, db.runs, false, rules, depth);
            var after := Evaluate(w, db, rules, depth);
            && (TerminalFired(w, after, rules, depth) == TerminalFired(w, db, rules, depth)
                <==> !(pass.terminalFired && !w.enrollment.Absent? && exists s :: s in pass.steps && Stops(s)))
            && Evaluate(w, after, rules, depth) == after
  {
    var pass := PlanPass(w, db.runs, false, rules, depth);
    var after := Fold(db, pass.steps);
    RowsKeepAnswer(w, db.runs, false, false, rules, depth);
    FoldRuns(db, pass.steps);
    PassRecordsAll(w, db.runs, false, rules, depth);
    NothingLeft(w, after.runs, false, rules, depth);
    if !w.enrollment.Absent? {
      PassWritesStatusByFiring(w, db.runs, false, rules, depth);
      PassObeysFlag(w, db.runs, false, rules, depth);
      StoppedByOneStep(db, pass.steps);
    }
  }

  // ---- Where the code parts from its comments ------------------------------------------

  const ENROLLED: Ctx := Ctx("ev", Absent, Present, false, map[], true, false, map[], {}, {})
  const PAUSER: Rule := Rule(RuleRef(Campaign, "r1"), [PauseEnrollment])
  const STAGER: Rule := Rule(RuleRef(Campaign, "r2"), [SetStage("won")])

  /** The worker dies right after a pause: the redelivery is inert, the pausing rule's row
      is never written and the next rule never runs. */
  lemma PauseThenCrashLosesRules()
    ensures var mid := Deliver(ENROLLED, ACTIVE_ROWS, [PAUSER, STAGER], 0, 1);
            && Evaluate(ENROLLED, mid, [PAUSER, STAGER], 0) == mid
            && mid.runs == map[]
            && Evaluate(ENROLLED, mid, [PAUSER, STAGER], 0) != Evaluate(ENROLLED, ACTIVE_ROWS, [PAUSER, STAGER], 0)
  {
    var rules := [PAUSER, STAGER];
    var pause := Act(Site(PAUSER.ref, [At(0)]), 0, PauseEnrollment, Applied, PauseIt("r1"));
    var steps := PlanPass(ENROLLED, map[], false, rules, 0).steps;
    PauserPlan();
    assert steps[0] == pause;
    assert Cut(steps, 1) == [pause];
    var mid := Apply(ACTIVE_ROWS, pause);
    assert Fold(ACTIVE_ROWS, [pause]) == Fold(mid, []) == mid;
    assert PAUSER in rules;
    WrittenRowsAreSteady(ENROLLED, ACTIVE_ROWS.runs, false, rules, 0);
    assert Evaluations(ENROLLED, mid, rules, 0, []) == mid;
    assert [1][1..] == [];
    RedeliveryFinishesIff(ENROLLED, ACTIVE_ROWS, rules, 0, [1]);
  }

  /** Asking the gate again after a pause: closed before, open now. */
  lemma PauseReopensGate()
    ensures var after := Evaluate(ENROLLED, ACTIVE_ROWS, [PAUSER], 0);
            TerminalFired(ENROLLED, ACTIVE_ROWS, [PAUSER], 0) && !TerminalFired(ENROLLED, after, [PAUSER], 0)
  {
    var pass := PlanPass(ENROLLED, map[], false, [PAUSER], 0);
    var pause := Act(Site(PAUSER.ref, [At(0)]), 0, PauseEnrollment, Applied, PauseIt("r1"));
    PauserPlan();
    assert PlanRule(ENROLLED, false, PAUSER, 0).outcomes[0].terminal;
    assert pass.terminalFired;
    assert pass.steps[0] == pause && Stops(pause) && pause in pass.steps;
    RepeatedAskAgreesIff(ENROLLED, ACTIVE_ROWS, [PAUSER], 0);
  }

  lemma PauserPlan()
    ensures PlanRule(ENROLLED, false, PAUSER, 0)
            == Plan([Act(Site(PAUSER.ref, [At(0)]), 0, PauseEnrollment, Applied, PauseIt("r1"))], true, [Outcome(Applied, true)])
  {
    var action := PAUSER.actions[0];
    assert [] + [At(0)] == [At(0)];
    assert PlanActions(ENROLLED, true, PAUSER.ref, [], 1, [], 0) == Plan([], true, []);
    assert PAUSER.actions[1..] == [];
  }
}
