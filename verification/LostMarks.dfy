/** First terminal wins over all the deliveries of one event - exactly when it does, and what a
    lost mark does to the deliveries after it. */
module LostMarks {
  import opened RuleModel
  import opened RulePlan
  import opened CrashAbsorption
  import opened TerminalDiscipline
  import opened ActionPaths
  import opened Redelivery
  import opened CrashRecovery

  /** Every step that a history of crashed deliveries executes, repetitions included. */
  function Trace(w: Ctx, runs: map<RunKey, Run>, rules: seq<Rule>, depth: nat, crashes: seq<nat>): seq<Step>
    decreases |crashes|
  {
    if crashes == [] then []
    else
      var done := Cut(PlanPass(w, runs, false, rules, depth).steps, crashes[0]);
      done + Trace(w, RunsAfter(runs, done), rules, depth, crashes[1..])
  }

  /** All executions of terminal actions are of one and the same action at one site. */
  predicate OneFiring(steps: seq<Step>) { forall s, t :: s in steps && t in steps && Fires(s) && Fires(t) ==> s == t }

  /** However often the event is delivered and wherever the deliveries die. */
  ghost predicate FirstTerminalWins(w: Ctx, runs: map<RunKey, Run>, rules: seq<Rule>, depth: nat) {
    forall crashes :: OneFiring(Trace(w, runs, rules, depth, crashes))
  }

  /** The pass runs a rule that loses its mark, and with the flag down again the rules behind it
      execute a terminal action. */
  predicate Refires(w: Ctx, runs: map<RunKey, Run>, fired: bool, rules: seq<Rule>, depth: nat)
    decreases |rules|
  {
    rules != [] &&
      var key := KeyOf(w, rules[0]);
      if key in runs then Refires(w, runs, fired || runs[key].terminal, rules[1..], depth)
      else
        var p := PlanRule(w, fired, rules[0], depth);
        var after := runs[key := RunOf(p, depth)];
        if MarkKept(w, fired, rules[0], depth) then Refires(w, after, p.fired, rules[1..], depth)
        else Firings(PlanPass(w, after, fired, rules[1..], depth).steps) > 0
  }

  // ---- Without it ------------------------------------------------------------------------

  predicate SameMarks(a: map<RunKey, Run>, b: map<RunKey, Run>) {
    && a.Keys == b.Keys
    && forall k :: k in a && k in b ==> a[k].terminal == b[k].terminal
  }

  /** Of the rows a pass reads only which there are and which are terminal. */
  lemma {:induction false} OnlyMarksMatter(w: Ctx, a: map<RunKey, Run>, b: map<RunKey, Run>, fired: bool, rules: seq<Rule>, depth: nat)
    requires SameMarks(a, b)
    ensures PlanPass(w, a, fired, rules, depth) == PlanPass(w, b, fired, rules, depth)
    decreases |rules|
  {
    if rules != [] {
      var key := KeyOf(w, rules[0]);
      if key in a {
        OnlyMarksMatter(w, a, b, fired || a[key].terminal, rules[1..], depth);
      } else {
        var p := PlanRule(w, fired, rules[0], depth);
        OnlyMarksMatter(w, a[key := RunOf(p, depth)], b[key := RunOf(p, depth)], p.fired, rules[1..], depth);
      }
    }
  }

  predicate Still(w: Ctx, runs: map<RunKey, Run>, fired: bool, rules: seq<Rule>, depth: nat) {
    Firings(PlanPass(w, runs, fired, rules, depth).steps) == 0
  }

  lemma RowFiresNot(a: seq<Step>, key: RunKey, run: Run, b: seq<Step>)
    ensures Firings(a + [Record(key, run)] + b) == Firings(a) + Firings(b)
  {
    FiringsConcat(a + [Record(key, run)], b);
    FiringsConcat(a, [Record(key, run)]);
  }

  /** A pass that executes no terminal action leaves the flag and marks no row. */
  lemma StillRule(w: Ctx, runs: map<RunKey, Run>, fired: bool, rules: seq<Rule>, depth: nat)
    requires rules != [] && KeyOf(w, rules[0]) !in runs && Still(w, runs, fired, rules, depth)
    ensures var p := PlanRule(w, fired, rules[0], depth);
            && p.fired == fired && MarkKept(w, fired, rules[0], depth) && !RunOf(p, depth).terminal
            && Still(w, runs[KeyOf(w, rules[0]) := RunOf(p, depth)], fired, rules[1..], depth)
  {
    var key, p := KeyOf(w, rules[0]), PlanRule(w, fired, rules[0], depth);
    RuleObeysFlag(w, fired, rules[0], depth);
    RowFiresNot(p.steps, key, RunOf(p, depth), PlanPass(w, runs[key := RunOf(p, depth)], p.fired, rules[1..], depth).steps);
  }

  lemma {:induction false} StillNeverRefires(w: Ctx, runs: map<RunKey, Run>, fired: bool, rules: seq<Rule>, depth: nat)
    requires Still(w, runs, fired, rules, depth)
    ensures !Refires(w, runs, fired, rules, depth)
    decreases |rules|
  {
    if rules != [] {
      var key := KeyOf(w, rules[0]);
      if key in runs {
        StillNeverRefires(w, runs, fired || runs[key].terminal, rules[1..], depth);
      } else {
        StillRule(w, runs, fired, rules, depth);
        StillNeverRefires(w, runs[key := RunOf(PlanRule(w, fired, rules[0], depth), depth)], fired, rules[1..], depth);
      }
    }
  }

  /** Rules that execute no terminal action with this flag execute none after a pass over them,
      cut anywhere, that had the flag at least as far up. */
  lemma {:induction false} StillStays(w: Ctx, runs: map<RunKey, Run>, fired: bool, up: bool, rules: seq<Rule>, depth: nat, n: nat)
    requires Still(w, runs, fired, rules, depth) && (fired ==> up)
    ensures Still(w, RunsAfter(runs, Cut(PlanPass(w, runs, up, rules, depth).steps, n)), fired, rules, depth)
    decreases |rules|
  {
    if rules != [] {
      var key := KeyOf(w, rules[0]);
      if key in runs {
        RecordedStays(w, runs, up, rules, depth, n, key);
        StillStays(w, runs, fired || runs[key].terminal, up || runs[key].terminal, rules[1..], depth, n);
      } else {
        var p, q := PlanRule(w, fired, rules[0], depth), PlanRule(w, up, rules[0], depth);
        var run := RunOf(q, depth);
        CrashInRule(w, runs, up, rules, depth, n);
        StillRule(w, runs, fired, rules, depth);
        RuleObeysFlag(w, up, rules[0], depth);
        if n >= |q.steps| + 1 {
          var m := n - |q.steps| - 1;
          OnlyMarksMatter(w, runs[key := RunOf(p, depth)], runs[key := run], fired, rules[1..], depth);
          StillStays(w, runs[key := run], fired, q.fired, rules[1..], depth, m);
          RecordedStays(w, runs[key := run], q.fired, rules[1..], depth, m, key);
        }
      }
    }
  }

  /** What fires later was going to fire. */
  predicate FiresNoOther(some: seq<Step>, steps: seq<Step>) { forall s :: s in some && Fires(s) ==> s in steps }

  lemma {:induction false} DeliveryFiresNoOther(w: Ctx, runs: map<RunKey, Run>, fired: bool, rules: seq<Rule>, depth: nat, n: nat)
    requires !Refires(w, runs, fired, rules, depth)
    ensures var steps := PlanPass(w, runs, fired, rules, depth).steps;
            var mid := RunsAfter(runs, Cut(steps, n));
            FiresNoOther(PlanPass(w, mid, fired, rules, depth).steps, steps) && !Refires(w, mid, fired, rules, depth)
    decreases |rules|
  {
    if rules != [] {
      var key := KeyOf(w, rules[0]);
      if key in runs {
        RecordedStays(w, runs, fired, rules, depth, n, key);
        DeliveryFiresNoOther(w, runs, fired || runs[key].terminal, rules[1..], depth, n);
      } else {
        var p := PlanRule(w, fired, rules[0], depth);
        var run := RunOf(p, depth);
        CrashInRule(w, runs, fired, rules, depth, n);
        if n >= |p.steps| + 1 {
          var m := n - |p.steps| - 1;
          var mid := RunsAfter(runs[key := run], Cut(PlanPass(w, runs[key := run], p.fired, rules[1..], depth).steps, m));
          SameRestIff(w, runs[key := run], fired, rules[0], rules[1..], depth);
          RecordedStays(w, runs[key := run], p.fired, rules[1..], depth, m, key);
          if MarkKept(w, fired, rules[0], depth) {
            DeliveryFiresNoOther(w, runs[key := run], p.fired, rules[1..], depth, m);
          } else {
            StillStays(w, runs[key := run], fired, p.fired, rules[1..], depth, m);
            StillNeverRefires(w, mid, fired, rules[1..], depth);
            FiringsCount(PlanPass(w, mid, fired, rules[1..], depth).steps);
          }
        }
      }
    }
  }

  lemma {:induction false} TraceFiresNoOther(w: Ctx, runs: map<RunKey, Run>, rules: seq<Rule>, depth: nat, crashes: seq<nat>)
    requires !Refires(w, runs, false, rules, depth)
    ensures FiresNoOther(Trace(w, runs, rules, depth, crashes), PlanPass(w, runs, false, rules, depth).steps)
    decreases |crashes|
  {
    if crashes != [] {
      var steps := PlanPass(w, runs, false, rules, depth).steps;
      var mid := RunsAfter(runs, Cut(steps, crashes[0]));
      DeliveryFiresNoOther(w, runs, false, rules, depth, crashes[0]);
      TraceFiresNoOther(w, mid, rules, depth, crashes[1..]);
      PiecesFireNoOther(steps, crashes[0], Trace(w, mid, rules, depth, crashes[1..]), PlanPass(w, mid, false, rules, depth).steps);
    }
  }

  lemma PiecesFireNoOther(steps: seq<Step>, n: nat, more: seq<Step>, later: seq<Step>)
    requires FiresNoOther(more, later) && FiresNoOther(later, steps)
    ensures FiresNoOther(Cut(steps, n) + more, steps)
  {}

  // ---- With it ---------------------------------------------------------------------------

  /** A pass acts for unrecorded rules only. */
  lemma {:induction false} ActsForUnrecorded(w: Ctx, runs: map<RunKey, Run>, fired: bool, rules: seq<Rule>, depth: nat)
    ensures forall s :: s in PlanPass(w, runs, fired, rules, depth).steps && s.Act? ==> RunKey(s.site.rule, w.eventId) !in runs
    decreases |rules|
  {
    if rules != [] {
      var key := KeyOf(w, rules[0]);
      if key in runs {
        ActsForUnrecorded(w, runs, fired || runs[key].terminal, rules[1..], depth);
      } else {
        var p := PlanRule(w, fired, rules[0], depth);
        ActsForUnrecorded(w, runs[key := RunOf(p, depth)], p.fired, rules[1..], depth);
        ActsForRule(w, fired, rules[0], depth);
      }
    }
  }

  lemma ActsForRule(w: Ctx, fired: bool, rule: Rule, depth: nat)
    ensures forall s :: s in PlanRule(w, fired, rule, depth).steps ==> s.Act? && s.site.rule == rule.ref
  {
    if depth <= MAX_RULE_CAUSATION_DEPTH {
      PrintsAreDistinct(w, fired, rule.ref, [], 0, rule.actions, depth);
    }
  }

  /** A firing that was executed and another that is planned next. */
  predicate FiresTwice(done: seq<Step>, next: seq<Step>, s: Step, t: Step) {
    s in done && t in next && Fires(s) && Fires(t) && s.site != t.site
  }

  /** The crash after which a second terminal action is executed, and the two executions. */
  lemma {:induction false} RefiringCrash(w: Ctx, runs: map<RunKey, Run>, fired: bool, rules: seq<Rule>, depth: nat) returns (n: nat, s: Step, t: Step)
    requires Refires(w, runs, fired, rules, depth)
    ensures var done := Cut(PlanPass(w, runs, fired, rules, depth).steps, n);
            FiresTwice(done, PlanPass(w, RunsAfter(runs, done), fired, rules, depth).steps, s, t)
    decreases |rules|
  {
    var key := KeyOf(w, rules[0]);
    if key in runs {
      n, s, t := RefiringCrash(w, runs, fired || runs[key].terminal, rules[1..], depth);
      RecordedStays(w, runs, fired, rules, depth, n, key);
    } else if MarkKept(w, fired, rules[0], depth) {
      var p := PlanRule(w, fired, rules[0], depth);
      var m;
      m, s, t := RefiringCrash(w, runs[key := RunOf(p, depth)], p.fired, rules[1..], depth);
      SameRestIff(w, runs, fired, rules[0], [], depth);
      n := RefiringLater(w, runs, fired, rules, depth, m, s, t);
    } else {
      n, s, t := RefiringNow(w, runs, fired, rules, depth);
    }
  }

  lemma RefiringNow(w: Ctx, runs: map<RunKey, Run>, fired: bool, rules: seq<Rule>, depth: nat) returns (n: nat, s: Step, t: Step)
    requires rules != [] && KeyOf(w, rules[0]) !in runs && !MarkKept(w, fired, rules[0], depth)
    requires !Still(w, runs[KeyOf(w, rules[0]) := RunOf(PlanRule(w, fired, rules[0], depth), depth)], fired, rules[1..], depth)
    ensures var done := Cut(PlanPass(w, runs, fired, rules, depth).steps, n);
            FiresTwice(done, PlanPass(w, RunsAfter(runs, done), fired, rules, depth).steps, s, t)
  {
    var key, p := KeyOf(w, rules[0]), PlanRule(w, fired, rules[0], depth);
    var one := runs[key := RunOf(p, depth)];
    n := |p.steps| + 1;
    s, t := RefiringRule(w, one, fired, rules[0], rules[1..], depth);
    CrashInRule(w, runs, fired, rules, depth, n);
    SkipsRecorded(w, one, fired, rules, depth);
  }

  lemma RefiringLater(w: Ctx, runs: map<RunKey, Run>, fired: bool, rules: seq<Rule>, depth: nat, m: nat, s: Step, t: Step) returns (n: nat)
    requires rules != [] && KeyOf(w, rules[0]) !in runs
    requires var p := PlanRule(w, fired, rules[0], depth);
             var one := runs[KeyOf(w, rules[0]) := RunOf(p, depth)];
             var done := Cut(PlanPass(w, one, p.fired, rules[1..], depth).steps, m);
             && (fired || RunOf(p, depth).terminal) == p.fired
             && FiresTwice(done, PlanPass(w, RunsAfter(one, done), p.fired, rules[1..], depth).steps, s, t)
    ensures var done := Cut(PlanPass(w, runs, fired, rules, depth).steps, n);
            FiresTwice(done, PlanPass(w, RunsAfter(runs, done), fired, rules, depth).steps, s, t)
  {
    var key, p := KeyOf(w, rules[0]), PlanRule(w, fired, rules[0], depth);
    var head := p.steps + [Record(key, RunOf(p, depth))];
    n := |head| + m;
    CrashInRule(w, runs, fired, rules, depth, n);
    RefiringBehindRow(w, runs[key := RunOf(p, depth)], fired, p.fired, rules, depth, head, m, s, t);
  }

  lemma RefiringBehindRow(w: Ctx, runs: map<RunKey, Run>, fired: bool, after: bool, rules: seq<Rule>, depth: nat, head: seq<Step>, m: nat, s: Step, t: Step)
    requires rules != [] && KeyOf(w, rules[0]) in runs && (fired || runs[KeyOf(w, rules[0])].terminal) == after
    requires var done := Cut(PlanPass(w, runs, after, rules[1..], depth).steps, m);
             FiresTwice(done, PlanPass(w, RunsAfter(runs, done), after, rules[1..], depth).steps, s, t)
    ensures var done := Cut(PlanPass(w, runs, after, rules[1..], depth).steps, m);
            FiresTwice(head + done, PlanPass(w, RunsAfter(runs, done), fired, rules, depth).steps, s, t)
  {
    RecordedStays(w, runs, after, rules[1..], depth, m, KeyOf(w, rules[0]));
    SkipsRecorded(w, RunsAfter(runs, Cut(PlanPass(w, runs, after, rules[1..], depth).steps, m)), fired, rules, depth);
  }

  lemma RefiringRule(w: Ctx, runs: map<RunKey, Run>, fired: bool, rule: Rule, rest: seq<Rule>, depth: nat) returns (s: Step, t: Step)
    requires KeyOf(w, rule) in runs && !MarkKept(w, fired, rule, depth) && !Still(w, runs, fired, rest, depth)
    ensures FiresTwice(PlanRule(w, fired, rule, depth).steps, PlanPass(w, runs, fired, rest, depth).steps, s, t)
  {
    var done, next := PlanRule(w, fired, rule, depth).steps, PlanPass(w, runs, fired, rest, depth).steps;
    RuleObeysFlag(w, fired, rule, depth);
    FiringsCount(done);
    FiringsCount(next);
    s :| s in done && Fires(s);
    t :| t in next && Fires(t);
    ActsForRule(w, fired, rule, depth);
    ActsForUnrecorded(w, runs, fired, rest, depth);
  }

  lemma TraceOfTwo(w: Ctx, runs: map<RunKey, Run>, rules: seq<Rule>, depth: nat, a: nat, b: nat)
    ensures var first := Cut(PlanPass(w, runs, false, rules, depth).steps, a);
            Trace(w, runs, rules, depth, [a, b]) == first + Cut(PlanPass(w, RunsAfter(runs, first), false, rules, depth).steps, b)
  {
    assert [a, b][1..] == [b] && [b][1..] == [];
    var first := Cut(PlanPass(w, runs, false, rules, depth).steps, a);
    var second := Cut(PlanPass(w, RunsAfter(runs, first), false, rules, depth).steps, b);
    assert Trace(w, RunsAfter(RunsAfter(runs, first), second), rules, depth, []) == [];
    assert Trace(w, RunsAfter(runs, first), rules, depth, [b]) == second + [];
  }

  /** Exactly when first terminal wins over every history of crashed deliveries. */
  lemma FirstTerminalWinsIff(w: Ctx, runs: map<RunKey, Run>, rules: seq<Rule>, depth: nat)
    ensures FirstTerminalWins(w, runs, rules, depth) <==> !Refires(w, runs, false, rules, depth)
  {
    var steps := PlanPass(w, runs, false, rules, depth).steps;
    if Refires(w, runs, false, rules, depth) {
      var n, s, t := RefiringCrash(w, runs, false, rules, depth);
      var again := PlanPass(w, RunsAfter(runs, Cut(steps, n)), false, rules, depth).steps;
      TraceOfTwo(w, runs, rules, depth, n, |again|);
      assert !OneFiring(Trace(w, runs, rules, depth, [n, |again|]));
    } else {
      PassObeysFlag(w, runs, false, rules, depth);
      FiringsCount(steps);
      forall crashes
        ensures OneFiring(Trace(w, runs, rules, depth, crashes))
      {
        TraceFiresNoOther(w, runs, rules, depth, crashes);
      }
    }
  }

  lemma {:induction false} WrittenRowsNeverRefire(w: Ctx, runs: map<RunKey, Run>, fired: bool, rules: seq<Rule>, depth: nat)
    requires w.recordFaults == {}
    ensures !Refires(w, runs, fired, rules, depth)
    decreases |rules|
  {
    if rules != [] {
      var key := KeyOf(w, rules[0]);
      if key in runs {
        WrittenRowsNeverRefire(w, runs, fired || runs[key].terminal, rules[1..], depth);
      } else {
        var p := PlanRule(w, fired, rules[0], depth);
        RuleObeysFlag(w, fired, rules[0], depth);
        WrittenRowsNeverRefire(w, runs[key := RunOf(p, depth)], p.fired, rules[1..], depth);
      }
    }
  }

  // ---- A history in which it does not ------------------------------------------------------

  const STOPPER: Rule := Rule(RuleRef(Campaign, "s"), [PauseEnrollment])

  /** The worker dies right after the row of a rule whose nested history row could not be
      written; the redelivery lets the next rule pause what the first one ended, where an
      uninterrupted pass lets it skip: a second terminal action, and another state. */
  lemma LostMarkFiresAgain()
    ensures !FirstTerminalWins(UNWRITABLE, map[], [CALLER, STOPPER], 0)
    ensures var rules, n := [CALLER, STOPPER], |PlanRule(UNWRITABLE, false, CALLER, 0).steps| + 1;
            Complete(UNWRITABLE, Deliver(UNWRITABLE, ACTIVE_ROWS, rules, 0, n), rules, 0)
            != Complete(UNWRITABLE, ACTIVE_ROWS, rules, 0)
  {
    var w, rules := UNWRITABLE, [CALLER, STOPPER];
    var n := |PlanRule(w, false, CALLER, 0).steps| + 1;
    var one := CallerRow();
    LostTerminalMark();
    StopperRow(w, one, false);
    StopperRow(w, one, true);
    FirstTerminalWinsIff(w, map[], rules, 0);
    assert rules[1..] == [STOPPER];
    FoldRuns(ACTIVE_ROWS, Cut(PlanPass(w, map[], false, rules, 0).steps, n));
    FoldRuns(Deliver(w, ACTIVE_ROWS, rules, 0, n), PlanPass(w, one, false, rules, 0).steps);
    FoldRuns(ACTIVE_ROWS, PlanPass(w, map[], false, rules, 0).steps);
  }

  /** The row of the caller, and what the two passes make of the stopper behind it. */
  lemma CallerRow() returns (one: map<RunKey, Run>)
    ensures var w, rules, p := UNWRITABLE, [CALLER, STOPPER], PlanRule(UNWRITABLE, false, CALLER, 0);
            var steps := PlanPass(w, map[], false, rules, 0).steps;
            && one == map[][KeyOf(w, CALLER) := RunOf(p, 0)]
            && RunsAfter(map[], Cut(steps, |p.steps| + 1)) == one
            && PlanPass(w, one, false, rules, 0).steps == PlanPass(w, one, false, [STOPPER], 0).steps
            && RunsAfter(map[], steps) == RunsAfter(one, PlanPass(w, one, true, [STOPPER], 0).steps)
  {
    var w, rules, p := UNWRITABLE, [CALLER, STOPPER], PlanRule(UNWRITABLE, false, CALLER, 0);
    one := map[][KeyOf(w, CALLER) := RunOf(p, 0)];
    LostTerminalMark();
    assert rules[1..] == [STOPPER];
    CrashInRule(w, map[], false, rules, 0, |p.steps| + 1);
    SkipsRecorded(w, one, false, rules, 0);
    RunsAfterRule(w, map[], false, CALLER, 0, KeyOf(w, CALLER), RunOf(p, 0), PlanPass(w, one, true, [STOPPER], 0).steps);
  }

  /** The row of the stopper with the flag down, and with it up. */
  lemma StopperRow(w: Ctx, runs: map<RunKey, Run>, fired: bool)
    requires w == UNWRITABLE && KeyOf(w, STOPPER) !in runs
    ensures var pass := PlanPass(w, runs, fired, [STOPPER], 0);
            && (Firings(pass.steps) > 0 <==> !fired)
            && KeyOf(w, STOPPER) in RunsAfter(runs, pass.steps)
            && RunsAfter(runs, pass.steps)[KeyOf(w, STOPPER)].terminal == !fired
  {
    var key, rule := KeyOf(w, STOPPER), PlanRule(w, fired, STOPPER, 0);
    StopperPlan(w, fired);
    RuleObeysFlag(w, fired, STOPPER, 0);
    assert [STOPPER][1..] == [];
    var rest := PlanPass(w, runs[key := RunOf(rule, 0)], rule.fired, [], 0);
    RowFiresNot(rule.steps, key, RunOf(rule, 0), rest.steps);
    RunsAfterRule(w, runs, fired, STOPPER, 0, key, RunOf(rule, 0), rest.steps);
  }

  lemma StopperPlan(w: Ctx, fired: bool)
    requires w == UNWRITABLE
    ensures PlanRule(w, fired, STOPPER, 0).fired && RunOf(PlanRule(w, fired, STOPPER, 0), 0).terminal == !fired
  {
    var site := Site(STOPPER.ref, [] + [At(0)]);
    var p := PlanAction(w, fired, site, PauseEnrollment, 0);
    assert p.fired && p.outcomes == [if fired then Outcome(Conflict, false) else Outcome(Applied, true)];
    var q := PlanActions(w, true, STOPPER.ref, [], 1, [], 0);
    assert STOPPER.actions[0] == PauseEnrollment && STOPPER.actions[1..] == [];
    assert PlanRule(w, fired, STOPPER, 0) == Plan(p.steps + q.steps, q.fired, p.outcomes + q.outcomes);
    assert p.outcomes + q.outcomes == p.outcomes && p.outcomes[0] in p.outcomes;
  }
}
