/** What the delivery after a crash does: exactly when it plans the rest of the interrupted
    plan, and why its state is then that of one uninterrupted pass. */
module CrashRecovery {
  import opened RuleModel
  import opened RulePlan
  import opened CrashAbsorption
  import opened TerminalDiscipline
  import opened ActionPaths
  import opened FlagBlindness
  import opened Redelivery

  // ---- The mark on a row -------------------------------------------------------------------

  /** The rule's row tells of a terminal action that the rule executed. */
  predicate MarkKept(w: Ctx, fired: bool, rule: Rule, depth: nat) {
    var p := PlanRule(w, fired, rule, depth);
    p.fired ==> fired || RunOf(p, depth).terminal
  }

  lemma {:induction false} FiringsCount(steps: seq<Step>)
    ensures Firings(steps) == 0 <==> forall s :: s in steps ==> !Fires(s)
    ensures Firings(steps) <= 1 ==> forall s, t :: s in steps && t in steps && Fires(s) && Fires(t) ==> s == t
  {
    if steps != [] {
      FiringsCount(steps[1..]);
      assert forall s :: s in steps <==> s == steps[0] || s in steps[1..];
    }
  }

  /** Exactly when a row keeps the mark: every terminal action the rule executed is one whose
      enclosing automations all wrote their history rows. */
  lemma MarkKeptIff(w: Ctx, fired: bool, rule: Rule, depth: nat)
    ensures var steps := PlanRule(w, fired, rule, depth).steps;
            && ActsOnly(steps)
            && (MarkKept(w, fired, rule, depth) <==> forall s :: s in steps && Fires(s) ==> Reported(w, s, 0))
  {
    RuleObeysFlag(w, fired, rule, depth);
    RuleActs(w, fired, rule, depth);
    FiringsCount(PlanRule(w, fired, rule, depth).steps);
    if depth <= MAX_RULE_CAUSATION_DEPTH {
      TerminalMarkExact(w, fired, rule.ref, [], 0, rule.actions, depth);
    }
  }

  /** Every rule the pass is going to run keeps its mark, or the rules behind it reach no
      terminal action. */
  predicate Steady(w: Ctx, runs: map<RunKey, Run>, fired: bool, rules: seq<Rule>, depth: nat)
    decreases |rules|
  {
    rules != [] ==>
      var key := KeyOf(w, rules[0]);
      if key in runs then Steady(w, runs, fired || runs[key].terminal, rules[1..], depth)
      else
        var run := RunOf(PlanRule(w, fired, rules[0], depth), depth);
        && (MarkKept(w, fired, rules[0], depth) || !Heeds(w, runs[key := run], rules[1..], depth))
        && Steady(w, runs[key := run], fired || run.terminal, rules[1..], depth)
  }

  lemma {:induction false} WrittenRowsAreSteady(w: Ctx, runs: map<RunKey, Run>, fired: bool, rules: seq<Rule>, depth: nat)
    requires w.recordFaults == {}
    ensures Steady(w, runs, fired, rules, depth)
    decreases |rules|
  {
    if rules != [] {
      var key := KeyOf(w, rules[0]);
      if key in runs {
        WrittenRowsAreSteady(w, runs, fired || runs[key].terminal, rules[1..], depth);
      } else {
        var run := RunOf(PlanRule(w, fired, rules[0], depth), depth);
        RuleObeysFlag(w, fired, rules[0], depth);
        WrittenRowsAreSteady(w, runs[key := run], fired || run.terminal, rules[1..], depth);
      }
    }
  }

  /** The flag that the row restores gives the rules behind it the same plan as the flag that
      the rule left, unless it lost its mark and they heed that. */
  lemma SameRestIff(w: Ctx, runs: map<RunKey, Run>, fired: bool, rule: Rule, rest: seq<Rule>, depth: nat)
    ensures var p := PlanRule(w, fired, rule, depth);
            var after := fired || RunOf(p, depth).terminal;
            && (MarkKept(w, fired, rule, depth) <==> p.fired == after)
            && (PlanPass(w, runs, p.fired, rest, depth).steps == PlanPass(w, runs, after, rest, depth).steps
                <==> MarkKept(w, fired, rule, depth) || !Heeds(w, runs, rest, depth))
  {
    RuleObeysFlag(w, fired, rule, depth);
    HeedsIff(w, runs, rest, depth);
  }

  // ---- Where the next delivery resumes -----------------------------------------------------

  /** From `mid` on, the pass plans the steps from the k-th on, and what it repeats of the n
      steps done are actions only. */
  predicate Resumes(w: Ctx, steps: seq<Step>, n: nat, mid: map<RunKey, Run>, fired: bool, rules: seq<Rule>, depth: nat, k: nat) {
    && k <= |Cut(steps, n)| && ActsOnly(Cut(steps, n)[k..])
    && PlanPass(w, mid, fired, rules, depth).steps == steps[k..]
  }

  /** A crash among the first rule's actions leaves the rows as they were; one behind its row
      leaves that row. */
  lemma CrashInRule(w: Ctx, runs: map<RunKey, Run>, fired: bool, rules: seq<Rule>, depth: nat, n: nat)
    requires rules != [] && KeyOf(w, rules[0]) !in runs
    ensures var key, p, steps := KeyOf(w, rules[0]), PlanRule(w, fired, rules[0], depth), PlanPass(w, runs, fired, rules, depth).steps;
            var run := RunOf(p, depth);
            var head, rest := p.steps + [Record(key, run)], PlanPass(w, runs[key := run], p.fired, rules[1..], depth).steps;
            var mid := RunsAfter(runs, Cut(steps, n));
            && steps == head + rest
            && (n < |head| ==> mid == runs && ActsOnly(Cut(steps, n)))
            && (n >= |head| ==>
                  && Cut(steps, n) == head + Cut(rest, n - |head|)
                  && mid == RunsAfter(runs[key := run], Cut(rest, n - |head|)))
  {
    var key, p := KeyOf(w, rules[0]), PlanRule(w, fired, rules[0], depth);
    var run := RunOf(p, depth);
    CutAtRule(w, runs, fired, rules[0], depth, key, run, PlanPass(w, runs[key := run], p.fired, rules[1..], depth).steps, n);
  }

  lemma Behind<T>(a: seq<T>, b: seq<T>, j: nat)
    requires j <= |b|
    ensures (a + b)[|a| + j..] == b[j..]
  {}

  /** A recorded first rule only sets the flag. */
  lemma SkipsRecorded(w: Ctx, mid: map<RunKey, Run>, fired: bool, rules: seq<Rule>, depth: nat)
    requires rules != [] && KeyOf(w, rules[0]) in mid
    ensures var after := fired || mid[KeyOf(w, rules[0])].terminal;
            && PlanPass(w, mid, fired, rules, depth).steps == PlanPass(w, mid, after, rules[1..], depth).steps
            && Steady(w, mid, fired, rules, depth) == Steady(w, mid, after, rules[1..], depth)
  {}

  /** The heart of redelivery: after a crash the next delivery plans exactly the rest of the
      interrupted plan, from the actions of the rule whose row is missing on. */
  lemma {:induction false} RedeliveryIsSuffix(w: Ctx, runs: map<RunKey, Run>, fired: bool, rules: seq<Rule>, depth: nat, n: nat) returns (k: nat)
    requires Steady(w, runs, fired, rules, depth)
    ensures var steps := PlanPass(w, runs, fired, rules, depth).steps;
            var mid := RunsAfter(runs, Cut(steps, n));
            Resumes(w, steps, n, mid, fired, rules, depth, k) && Steady(w, mid, fired, rules, depth)
    decreases |rules|, 1
  {
    k := 0;
    if rules != [] {
      var key := KeyOf(w, rules[0]);
      if key in runs {
        RecordedStays(w, runs, fired, rules, depth, n, key);
        k := RedeliveryIsSuffix(w, runs, fired || runs[key].terminal, rules[1..], depth, n);
      } else {
        var p := PlanRule(w, fired, rules[0], depth);
        var run := RunOf(p, depth);
        CrashInRule(w, runs, fired, rules, depth, n);
        SameRestIff(w, runs[key := run], fired, rules[0], rules[1..], depth);
        if n > |p.steps| {
          k := SuffixBehindRow(w, runs[key := run], fired, fired || run.terminal, rules, depth, p.steps + [Record(key, run)], n);
        } else {
          Behind([], Cut(PlanPass(w, runs, fired, rules, depth).steps, n), 0);
        }
      }
    }
  }

  lemma {:induction false} SuffixBehindRow(w: Ctx, runs: map<RunKey, Run>, fired: bool, after: bool, rules: seq<Rule>, depth: nat, head: seq<Step>, n: nat) returns (k: nat)
    requires rules != [] && n >= |head| && Steady(w, runs, after, rules[1..], depth)
    requires KeyOf(w, rules[0]) in runs && (fired || runs[KeyOf(w, rules[0])].terminal) == after
    requires var rest := PlanPass(w, runs, after, rules[1..], depth).steps; Cut(head + rest, n) == head + Cut(rest, n - |head|)
    ensures var rest := PlanPass(w, runs, after, rules[1..], depth).steps;
            var mid := RunsAfter(runs, Cut(rest, n - |head|));
            Resumes(w, head + rest, n, mid, fired, rules, depth, k) && Steady(w, mid, fired, rules, depth)
    decreases |rules|, 0
  {
    var rest, m := PlanPass(w, runs, after, rules[1..], depth).steps, n - |head|;
    var j := RedeliveryIsSuffix(w, runs, after, rules[1..], depth, m);
    k := |head| + j;
    RecordedStays(w, runs, after, rules[1..], depth, m, KeyOf(w, rules[0]));
    SkipsRecorded(w, RunsAfter(runs, Cut(rest, m)), fired, rules, depth);
    Behind(head, Cut(rest, m), j);
    Behind(head, rest, j);
  }

  /** Wherever the worker dies, the next delivery resumes the interrupted plan. */
  ghost predicate AlwaysResumes(w: Ctx, runs: map<RunKey, Run>, fired: bool, rules: seq<Rule>, depth: nat) {
    forall n: nat :: ResumesSomewhere(w, runs, fired, rules, depth, n)
  }

  ghost predicate ResumesSomewhere(w: Ctx, runs: map<RunKey, Run>, fired: bool, rules: seq<Rule>, depth: nat, n: nat) {
    var steps := PlanPass(w, runs, fired, rules, depth).steps;
    exists k: nat :: Resumes(w, steps, n, RunsAfter(runs, Cut(steps, n)), fired, rules, depth, k)
  }

  lemma RowIsNoAct(acts: seq<Step>, row: Step, done: seq<Step>, k: nat)
    requires row.Record? && k <= |acts|
    ensures !ActsOnly((acts + [row] + done)[k..])
  {
    var all := acts + [row] + done;
    assert all[k..][|acts| - k] == row;
    assert row in all[k..];
  }

  /** The crash point at which a pass that is not steady fails to resume. */
  lemma {:induction false} Unsteady(w: Ctx, runs: map<RunKey, Run>, fired: bool, rules: seq<Rule>, depth: nat) returns (n: nat)
    requires !Steady(w, runs, fired, rules, depth)
    ensures !ResumesSomewhere(w, runs, fired, rules, depth, n)
    decreases |rules|
  {
    var key := KeyOf(w, rules[0]);
    if key in runs {
      var after := fired || runs[key].terminal;
      n := Unsteady(w, runs, after, rules[1..], depth);
      var steps := PlanPass(w, runs, after, rules[1..], depth).steps;
      var mid := RunsAfter(runs, Cut(steps, n));
      RecordedStays(w, runs, fired, rules, depth, n, key);
      SkipsRecorded(w, mid, fired, rules, depth);
      assert forall k: nat :: Resumes(w, steps, n, mid, fired, rules, depth, k) ==> Resumes(w, steps, n, mid, after, rules[1..], depth, k);
    } else {
      var p := PlanRule(w, fired, rules[0], depth);
      var run := RunOf(p, depth);
      var after, head := fired || run.terminal, p.steps + [Record(key, run)];
      SameRestIff(w, runs[key := run], fired, rules[0], rules[1..], depth);
      if MarkKept(w, fired, rules[0], depth) || !Heeds(w, runs[key := run], rules[1..], depth) {
        var m := Unsteady(w, runs[key := run], after, rules[1..], depth);
        n := |head| + m;
      } else {
        n := |head|;
      }
      CrashInRule(w, runs, fired, rules, depth, n);
      StuckBehindRow(w, runs[key := run], fired, p.fired, rules, depth, p.steps, Record(key, run), n);
    }
  }

  /** What resumes behind the row resumes the plan of the rules behind it. */
  lemma StuckBehindRow(w: Ctx, runs: map<RunKey, Run>, fired: bool, left: bool, rules: seq<Rule>, depth: nat, acts: seq<Step>, row: Step, n: nat)
    requires rules != [] && row.Record? && n >= |acts| + 1
    requires KeyOf(w, rules[0]) in runs
    requires var rest := PlanPass(w, runs, left, rules[1..], depth).steps;
             Cut(acts + [row] + rest, n) == acts + [row] + Cut(rest, n - |acts| - 1)
    requires var after := fired || runs[KeyOf(w, rules[0])].terminal;
             var rest, m := PlanPass(w, runs, left, rules[1..], depth).steps, n - |acts| - 1;
             if rest == PlanPass(w, runs, after, rules[1..], depth).steps
             then !ResumesSomewhere(w, runs, after, rules[1..], depth, m) else m == 0
    ensures var rest, m := PlanPass(w, runs, left, rules[1..], depth).steps, n - |acts| - 1;
            forall k: nat :: !Resumes(w, acts + [row] + rest, n, RunsAfter(runs, Cut(rest, m)), fired, rules, depth, k)
  {
    var after, head := fired || runs[KeyOf(w, rules[0])].terminal, acts + [row];
    var rest, m := PlanPass(w, runs, left, rules[1..], depth).steps, n - |acts| - 1;
    var mid := RunsAfter(runs, Cut(rest, m));
    RecordedStays(w, runs, left, rules[1..], depth, m, KeyOf(w, rules[0]));
    SkipsRecorded(w, mid, fired, rules, depth);
    forall k: nat
      ensures !Resumes(w, head + rest, n, mid, fired, rules, depth, k)
    {
      if k <= |acts| {
        RowIsNoAct(acts, row, Cut(rest, m), k);
      } else if k - |head| <= |Cut(rest, m)| {
        var j := k - |head|;
        Behind(head, Cut(rest, m), j);
        Behind(head, rest, j);
        assert Resumes(w, head + rest, n, mid, fired, rules, depth, k) <==> Resumes(w, rest, m, mid, after, rules[1..], depth, j);
        if m == 0 {
          assert Cut(rest, 0) == [] && j == 0 && rest[0..] == rest && mid == runs;
        }
      }
    }
  }

  /** Exactly when redelivery works on the plan: a crashed pass is resumed where it stopped,
      wherever that was, if and only if no rule that loses its mark has a rule behind it that
      reaches a terminal action. */
  lemma ResumesIff(w: Ctx, runs: map<RunKey, Run>, fired: bool, rules: seq<Rule>, depth: nat)
    ensures AlwaysResumes(w, runs, fired, rules, depth) <==> Steady(w, runs, fired, rules, depth)
  {
    if Steady(w, runs, fired, rules, depth) {
      forall n: nat
        ensures ResumesSomewhere(w, runs, fired, rules, depth, n)
      {
        var k := RedeliveryIsSuffix(w, runs, fired, rules, depth, n);
      }
    } else {
      var n := Unsteady(w, runs, fired, rules, depth);
    }
  }

  // ---- The state -------------------------------------------------------------------------

  /** Whatever is already stored, dying after n steps and then running the pass again reaches
      exactly the state of one uninterrupted pass - contact, enrollment, suppressions and run
      rows alike. */
  lemma PassAbsorbsCrash(w: Ctx, db: Db, fired: bool, rules: seq<Rule>, depth: nat, n: nat)
    requires Steady(w, db.runs, fired, rules, depth)
    ensures var steps := PlanPass(w, db.runs, fired, rules, depth).steps;
            var mid := Fold(db, Cut(steps, n));
            && Fold(mid, PlanPass(w, mid.runs, fired, rules, depth).steps) == Fold(db, steps)
            && Steady(w, mid.runs, fired, rules, depth)
  {
    var steps := PlanPass(w, db.runs, fired, rules, depth).steps;
    FoldRuns(db, Cut(steps, n));
    var k := RedeliveryIsSuffix(w, db.runs, fired, rules, depth, n);
    RepeatAbsorbed(db, steps, Cut(steps, n), k);
  }

  /** Running on from the middle of what was done, with actions only in between. */
  lemma RepeatAbsorbed(db: Db, steps: seq<Step>, done: seq<Step>, k: nat)
    requires done <= steps && k <= |done| && ActsOnly(done[k..])
    ensures Fold(Fold(db, done), steps[k..]) == Fold(db, steps)
  {
    var base, again, rest := Fold(db, done[..k]), done[k..], steps[|done|..];
    assert done == done[..k] + again && steps[k..] == again + rest && steps == done + rest;
    FoldConcat(db, done[..k], again);
    FoldConcat(Fold(db, done), again, rest);
    FoldConcat(db, done, rest);
    ReplayAbsorbed(base, again);
  }

  /** The rows after a history of crashed deliveries. */
  function History(w: Ctx, db: Db, rules: seq<Rule>, depth: nat, crashes: seq<nat>): Db
    decreases |crashes|
  {
    if crashes == [] then db
    else History(w, Deliver(w, db, rules, depth, crashes[0]), rules, depth, crashes[1..])
  }

  /** Any history of crashed deliveries ended by a complete pass converges to the state
      of the single uninterrupted pass. */
  lemma {:induction false} HistoryConverges(w: Ctx, db: Db, rules: seq<Rule>, depth: nat, crashes: seq<nat>)
    requires Steady(w, db.runs, false, rules, depth)
    ensures Complete(w, History(w, db, rules, depth, crashes), rules, depth) == Complete(w, db, rules, depth)
    decreases |crashes|
  {
    if crashes != [] {
      PassAbsorbsCrash(w, db, false, rules, depth, crashes[0]);
      HistoryConverges(w, Deliver(w, db, rules, depth, crashes[0]), rules, depth, crashes[1..]);
    }
  }
}
