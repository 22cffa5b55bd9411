/** Histories of one event delivered again and again, any delivery but the last cut off
    by a crash. */
module Redelivery {
  import opened RuleModel
  import opened RulePlan
  import opened CrashAbsorption
  import opened TerminalDiscipline

  function KeyOf(w: Ctx, r: Rule): RunKey { RunKey(r.ref, w.eventId) }

  predicate AllRecorded(w: Ctx, runs: map<RunKey, Run>, rules: seq<Rule>) {
    forall r :: r in rules ==> KeyOf(w, r) in runs
  }

  /** A delivery that dies after n steps. */
  function Deliver(w: Ctx, db: Db, rules: seq<Rule>, depth: nat, n: nat): Db {
    Fold(db, Cut(PlanPass(w, db.runs, false, rules, depth).steps, n))
  }

  /** A delivery that runs through. */
  function Complete(w: Ctx, db: Db, rules: seq<Rule>, depth: nat): Db {
    Fold(db, PlanPass(w, db.runs, false, rules, depth).steps)
  }

  // ---- Where a delivery can die ----------------------------------------------------------

  /** A recorded row is never touched again. */
  lemma {:induction false} RecordedStays(w: Ctx, runs: map<RunKey, Run>, fired: bool, rules: seq<Rule>, depth: nat, n: nat, key: RunKey)
    requires key in runs
    ensures var after := RunsAfter(runs, Cut(PlanPass(w, runs, fired, rules, depth).steps, n));
            key in after && after[key] == runs[key]
    decreases |rules|
  {
    if rules != [] {
      var k := KeyOf(w, rules[0]);
      if k in runs {
        RecordedStays(w, runs, fired || runs[k].terminal, rules[1..], depth, n, key);
      } else {
        var p := PlanRule(w, fired, rules[0], depth);
        var run := RunOf(p, depth);
        var rest := PlanPass(w, runs[k := run], p.fired, rules[1..], depth);
        CutAtRule(w, runs, fired, rules[0], depth, k, run, rest.steps, n);
        if n > |p.steps| {
          RecordedStays(w, runs[k := run], p.fired, rules[1..], depth, n - |p.steps| - 1, key);
        }
      }
    }
  }

  /** A cut falls among a rule's own actions or after its row. */
  lemma CutAtRule(w: Ctx, runs: map<RunKey, Run>, fired: bool, rule: Rule, depth: nat, key: RunKey, run: Run, rest: seq<Step>, n: nat)
    ensures var acts := PlanRule(w, fired, rule, depth).steps;
            var all := acts + [Record(key, run)] + rest;
            && ActsOnly(acts)
            && (n <= |acts| ==> Cut(all, n) == Cut(acts, n) && RunsAfter(runs, Cut(all, n)) == runs)
            && (n > |acts| ==>
                  && Cut(all, n) == acts + [Record(key, run)] + Cut(rest, n - |acts| - 1)
                  && RunsAfter(runs, Cut(all, n)) == RunsAfter(runs[key := run], Cut(rest, n - |acts| - 1)))
  {
    var acts := PlanRule(w, fired, rule, depth).steps;
    var all := acts + [Record(key, run)] + rest;
    RuleActs(w, fired, rule, depth);
    if n <= |acts| {
      assert Cut(all, n) == Cut(acts, n);
      ActsLeaveRuns(runs, Cut(acts, n));
    } else {
      assert Cut(all, n) == acts + [Record(key, run)] + Cut(rest, n - |acts| - 1);
      RunsAfterRule(w, runs, fired, rule, depth, key, run, Cut(rest, n - |acts| - 1));
    }
  }

  // ---- The run rows --------------------------------------------------------------------

  predicate DistinctRules(rules: seq<Rule>) {
    forall i, j :: 0 <= i < j < |rules| ==> rules[i].ref != rules[j].ref
  }

  /** Recorded rows stop at the first unrecorded rule, and a row is terminal only when
      neither the flag nor an earlier row already was. */
  predicate InOrder(eventId: Id, runs: map<RunKey, Run>, rules: seq<Rule>, fired: bool)
    decreases |rules|
  {
    rules != [] ==>
      var key := RunKey(rules[0].ref, eventId);
      if key in runs then
        && (runs[key].terminal ==> !fired)
        && InOrder(eventId, runs, rules[1..], fired || runs[key].terminal)
      else forall r :: r in rules ==> RunKey(r.ref, eventId) !in runs
  }

  lemma {:induction false} InOrderWeaker(eventId: Id, runs: map<RunKey, Run>, rules: seq<Rule>)
    requires InOrder(eventId, runs, rules, true)
    ensures InOrder(eventId, runs, rules, false)
    decreases |rules|
  {
    if rules != [] && RunKey(rules[0].ref, eventId) in runs {
      InOrderWeaker(eventId, runs, rules[1..]);
    }
  }

  lemma {:induction false} InOrderFrame(eventId: Id, runs: map<RunKey, Run>, rules: seq<Rule>, fired: bool, key: RunKey, run: Run)
    requires InOrder(eventId, runs, rules, fired)
    requires forall r :: r in rules ==> RunKey(r.ref, eventId) != key
    ensures InOrder(eventId, runs[key := run], rules, fired)
    decreases |rules|
  {
    if rules != [] && RunKey(rules[0].ref, eventId) in runs {
      assert rules[0] in rules;
      InOrderFrame(eventId, runs, rules[1..], fired || runs[RunKey(rules[0].ref, eventId)].terminal, key, run);
    }
  }

  /** Every delivery keeps the rows in order, wherever it dies and whatever the stores and
      vendors answer this time (w may differ from one delivery to the next). */
  lemma {:induction false} DeliveryKeepsOrder(w: Ctx, runs: map<RunKey, Run>, fired: bool, rules: seq<Rule>, depth: nat, n: nat)
    requires DistinctRules(rules)
    requires InOrder(w.eventId, runs, rules, fired)
    ensures InOrder(w.eventId, RunsAfter(runs, Cut(PlanPass(w, runs, fired, rules, depth).steps, n)), rules, fired)
    decreases |rules|
  {
    if rules != [] {
      var key := KeyOf(w, rules[0]);
      if key in runs {
        RecordedStays(w, runs, fired, rules, depth, n, key);
        DeliveryKeepsOrder(w, runs, fired || runs[key].terminal, rules[1..], depth, n);
      } else {
        var p := PlanRule(w, fired, rules[0], depth);
        var run := RunOf(p, depth);
        var rest := PlanPass(w, runs[key := run], p.fired, rules[1..], depth);
        CutAtRule(w, runs, fired, rules[0], depth, key, run, rest.steps, n);
        if n > |p.steps| {
          var m := n - |p.steps| - 1;
          RuleObeysFlag(w, fired, rules[0], depth);
          RowKeepsOrder(w.eventId, runs, rules, p.fired, run);
          DeliveryKeepsOrder(w, runs[key := run], p.fired, rules[1..], depth, m);
          RecordedStays(w, runs[key := run], p.fired, rules[1..], depth, m, key);
          InOrderBehind(w.eventId, RunsAfter(runs[key := run], Cut(rest.steps, m)), rules, fired, p.fired);
        }
      }
    }
  }

  /** The first unrecorded rule's row leaves the rules behind it in order. */
  lemma RowKeepsOrder(eventId: Id, runs: map<RunKey, Run>, rules: seq<Rule>, fired: bool, run: Run)
    requires rules != [] && DistinctRules(rules) && forall r :: r in rules ==> RunKey(r.ref, eventId) !in runs
    ensures InOrder(eventId, runs[RunKey(rules[0].ref, eventId) := run], rules[1..], fired)
  {
    NoneRecordedInOrder(eventId, runs, rules[1..], fired);
    InOrderFrame(eventId, runs, rules[1..], fired, RunKey(rules[0].ref, eventId), run);
  }

  lemma InOrderBehind(eventId: Id, runs: map<RunKey, Run>, rules: seq<Rule>, fired: bool, after: bool)
    requires rules != [] && RunKey(rules[0].ref, eventId) in runs && InOrder(eventId, runs, rules[1..], after)
    requires var marked := runs[RunKey(rules[0].ref, eventId)].terminal; (marked ==> !fired) && (fired || marked ==> after)
    ensures InOrder(eventId, runs, rules, fired)
  {
    if after && !(fired || runs[RunKey(rules[0].ref, eventId)].terminal) {
      InOrderWeaker(eventId, runs, rules[1..]);
    }
  }

  lemma NoneRecordedInOrder(eventId: Id, runs: map<RunKey, Run>, rules: seq<Rule>, fired: bool)
    requires forall r :: r in rules ==> RunKey(r.ref, eventId) !in runs
    ensures InOrder(eventId, runs, rules, fired)
  {}

  /** One delivery of a history: what the stores and vendors answer, and where it dies. */
  datatype Attempt = Attempt(world: Ctx, crash: nat)

  function Runs(eventId: Id, runs: map<RunKey, Run>, rules: seq<Rule>, depth: nat, history: seq<Attempt>): map<RunKey, Run>
    requires forall a :: a in history ==> a.world.eventId == eventId
    decreases |history|
  {
    if history == [] then runs
    else
      var a := history[0];
      Runs(eventId, RunsAfter(runs, Cut(PlanPass(a.world, runs, false, rules, depth).steps, a.crash)), rules, depth, history[1..])
  }

  lemma {:induction false} HistoryKeepsOrder(eventId: Id, runs: map<RunKey, Run>, rules: seq<Rule>, depth: nat, history: seq<Attempt>)
    requires forall a :: a in history ==> a.world.eventId == eventId
    requires DistinctRules(rules) && InOrder(eventId, runs, rules, false)
    ensures InOrder(eventId, Runs(eventId, runs, rules, depth, history), rules, false)
    decreases |history|
  {
    if history != [] {
      var a := history[0];
      DeliveryKeepsOrder(a.world, runs, false, rules, depth, a.crash);
      HistoryKeepsOrder(eventId, RunsAfter(runs, Cut(PlanPass(a.world, runs, false, rules, depth).steps, a.crash)), rules, depth, history[1..]);
    }
  }

  lemma {:induction false} InOrderMeans(eventId: Id, runs: map<RunKey, Run>, rules: seq<Rule>, fired: bool) returns (k: nat)
    requires InOrder(eventId, runs, rules, fired)
    ensures k <= |rules|
    ensures forall i :: 0 <= i < |rules| ==> (RunKey(rules[i].ref, eventId) in runs <==> i < k)
    ensures forall i :: 0 <= i < k && fired ==> !runs[RunKey(rules[i].ref, eventId)].terminal
    ensures forall i, j :: 0 <= i < j < k ==>
              !(runs[RunKey(rules[i].ref, eventId)].terminal && runs[RunKey(rules[j].ref, eventId)].terminal)
    decreases |rules|
  {
    k := 0;
    if rules != [] && RunKey(rules[0].ref, eventId) in runs {
      var r := InOrderMeans(eventId, runs, rules[1..], fired || runs[RunKey(rules[0].ref, eventId)].terminal);
      k := r + 1;
      assert forall i :: 0 < i < |rules| ==> rules[i] == rules[1..][i - 1];
    } else {
      assert forall i :: 0 <= i < |rules| ==> rules[i] in rules;
    }
  }

  /** After any history of crashed deliveries of an event nothing was recorded for, the
      recorded rules are a prefix of rule order and at most one row is terminal. */
  lemma RowsArePrefix(eventId: Id, runs: map<RunKey, Run>, rules: seq<Rule>, depth: nat, history: seq<Attempt>) returns (k: nat)
    requires forall a :: a in history ==> a.world.eventId == eventId
    requires DistinctRules(rules)
    requires forall r :: r in rules ==> RunKey(r.ref, eventId) !in runs
    ensures var after := Runs(eventId, runs, rules, depth, history);
            && k <= |rules|
            && (forall i :: 0 <= i < |rules| ==> (RunKey(rules[i].ref, eventId) in after <==> i < k))
            && (forall i, j :: 0 <= i < j < k ==>
                  !(after[RunKey(rules[i].ref, eventId)].terminal && after[RunKey(rules[j].ref, eventId)].terminal))
  {
    NoneRecordedInOrder(eventId, runs, rules, false);
    HistoryKeepsOrder(eventId, runs, rules, depth, history);
    k := InOrderMeans(eventId, Runs(eventId, runs, rules, depth, history), rules, false);
  }
}
