/** First terminal wins - across the passes of a sweep? Each pass starts with the flag down and
    hands over only the rules due by then, so it depends on the order of the rules. */
module SweepTerminals {
  import opened Options
  import opened Text
  import opened RuleModel
  import opened RulePlan
  import opened TerminalDiscipline
  import opened Redelivery
  import opened TimerSweeps

  // ---- The property ----------------------------------------------------------------------

  function RulesOf(rules: seq<TimedRule>): seq<Rule> { seq(|rules|, k requires 0 <= k < |rules| => rules[k].rule) }
  function Spans(rules: seq<TimedRule>): seq<int> { seq(|rules|, k requires 0 <= k < |rules| => rules[k].span) }

  predicate Falling(spans: seq<int>) { forall j, k :: 0 <= j < k < |spans| ==> spans[j] >= spans[k] }
  predicate Rising(spans: seq<int>) { forall j, k :: 0 <= j < k < |spans| ==> spans[j] <= spans[k] }

  /** Nothing of the event is recorded for these rules. */
  predicate Unrecorded(runs: map<RunKey, Run>, rules: seq<TimedRule>, eventId: Id) {
    forall r :: r in rules ==> RunKey(r.rule.ref, eventId) !in runs
  }

  /** At most one of the rules has a terminal row for the event. */
  predicate OneTerminal(runs: map<RunKey, Run>, rules: seq<TimedRule>, eventId: Id) {
    forall j, k :: 0 <= j < k < |rules| && RunKey(rules[j].rule.ref, eventId) in runs && RunKey(rules[k].rule.ref, eventId) in runs ==>
      !(runs[RunKey(rules[j].rule.ref, eventId)].terminal && runs[RunKey(rules[k].rule.ref, eventId)].terminal)
  }

  /** The history is of dispatches of this event by passes over these rules, in time order. */
  ghost predicate MeetingHistory(rules: seq<TimedRule>, history: seq<Handled>, eventId: Id) {
    && InTime(history)
    && forall p :: p in history ==> p.dispatch.eventId == eventId && FromMeetingPass(rules, p.dispatch)
  }

  ghost predicate QuietHistory(rules: seq<TimedRule>, history: seq<Handled>, eventId: Id) {
    && InTime(history)
    && forall p :: p in history ==> p.dispatch.eventId == eventId && FromQuietPass(rules, p.dispatch)
  }

  predicate InTime(history: seq<Handled>) { forall j, k :: 0 <= j < k < |history| ==> history[j].dispatch.at <= history[k].dispatch.at }

  // ---- In the right order every dispatch carries the first so many rules -----------------

  lemma {:induction false} SelectsPrefix(rules: seq<TimedRule>, due: TimedRule -> bool)
    requires forall j, k :: 0 <= j < k < |rules| && due(rules[k]) ==> due(rules[j])
    ensures Selected(rules, due) <= RulesOf(rules)
    ensures (forall r :: r in rules ==> due(r)) ==> Selected(rules, due) == RulesOf(rules)
  {
    if rules != [] {
      var front, last := rules[..|rules| - 1], rules[|rules| - 1];
      SelectsPrefix(front, due);
      assert RulesOf(rules) == RulesOf(front) + [last.rule];
      if due(last) {
        assert forall r :: r in front ==> due(r);
      }
    }
  }

  lemma {:induction false} EachFrom<T(!new)>(items: seq<T>, f: T -> seq<Dispatch>, d: Dispatch)
    requires d in Each(items, f)
    ensures exists k :: 0 <= k < |items| && d in f(items[k])
  {
    var n := |items| - 1;
    if d in f(items[n]) {
    } else {
      EachFrom(items[..n], f, d);
      var k :| 0 <= k < n && d in f(items[..n][k]);
      assert items[..n][k] == items[k];
    }
  }

  lemma MeetingDispatchIsPrefix(rules: seq<TimedRule>, d: Dispatch)
    requires Falling(Spans(rules)) && FromMeetingPass(rules, d)
    ensures d.rules <= RulesOf(rules)
  {
    var meetings, now :| d in Reminders(rules, meetings, now);
    EachFrom(meetings, (m: Meeting) => RemindersOf(rules, m, now), d);
    var k :| 0 <= k < |meetings| && d in RemindersOf(rules, meetings[k], now);
    forall i, j | 0 <= i < j < |rules| && BeforeMeeting(meetings[k], now)(rules[j])
      ensures BeforeMeeting(meetings[k], now)(rules[i])
    {
      assert Spans(rules)[i] >= Spans(rules)[j];
    }
    SelectsPrefix(rules, BeforeMeeting(meetings[k], now));
  }

  lemma QuietDispatchIsPrefix(rules: seq<TimedRule>, d: Dispatch)
    requires Rising(Spans(rules)) && FromQuietPass(rules, d)
    ensures d.rules <= RulesOf(rules)
  {
    var enrollments, now :| d in QuietDispatches(rules, enrollments, now);
    EachFrom(enrollments, (e: Touched) => QuietDispatchesOf(rules, e, now), d);
    var k :| 0 <= k < |enrollments| && d in QuietDispatchesOf(rules, enrollments[k], now);
    forall i, j | 0 <= i < j < |rules| && QuietFor(enrollments[k], now)(rules[j])
      ensures QuietFor(enrollments[k], now)(rules[i])
    {
      assert Spans(rules)[i] <= Spans(rules)[j];
    }
    SelectsPrefix(rules, QuietFor(enrollments[k], now));
  }

  predicate GrowsInOrder(history: seq<Handled>, eventId: Id, rules: seq<Rule>) {
    forall p :: p in history ==> p.dispatch.eventId == eventId && p.dispatch.rules <= rules
  }

  lemma {:induction false} PrefixesKeepOrder(runs: map<RunKey, Run>, history: seq<Handled>, eventId: Id, rules: seq<Rule>)
    requires GrowsInOrder(history, eventId, rules) && DistinctRules(rules) && InOrder(eventId, runs, rules, false)
    ensures InOrder(eventId, RunsOf(runs, history), rules, false)
  {
    if history != [] {
      var front, last := history[..|history| - 1], history[|history| - 1];
      var before := RunsOf(runs, front);
      PrefixesKeepOrder(runs, front, eventId, rules);
      assert last in history;
      PrefixIsCut(last.world.(eventId := eventId), before, last.dispatch.rules, rules, last.cut);
      var n :| StepsOf(before, last) == Cut(PlanPass(last.world.(eventId := eventId), before, false, rules, 0).steps, n);
      DeliveryKeepsOrder(last.world.(eventId := eventId), before, false, rules, 0, n);
    }
  }

  lemma PrefixIsCut(w: Ctx, runs: map<RunKey, Run>, some: seq<Rule>, rules: seq<Rule>, cut: nat)
    requires some <= rules
    ensures exists n: nat :: Cut(PlanPass(w, runs, false, some, 0).steps, cut) == Cut(PlanPass(w, runs, false, rules, 0).steps, n)
  {
    var p := PlanPass(w, runs, false, some, 0).steps;
    ScopesShareOnePass(w, runs, false, some, rules[|some|..], 0);
    assert some + rules[|some|..] == rules;
    var n: nat := if cut < |p| then cut else |p|;
    assert Cut(p, cut) == Cut(PlanPass(w, runs, false, rules, 0).steps, n);
  }

  lemma InOrderIsOneTerminal(runs: map<RunKey, Run>, history: seq<Handled>, eventId: Id, rules: seq<TimedRule>)
    requires GrowsInOrder(history, eventId, RulesOf(rules)) && DistinctRules(RulesOf(rules)) && Unrecorded(runs, rules, eventId)
    ensures OneTerminal(RunsOf(runs, history), rules, eventId)
  {
    forall r | r in RulesOf(rules)
      ensures RunKey(r.ref, eventId) !in runs
    {
      var k :| 0 <= k < |rules| && r == RulesOf(rules)[k];
      assert rules[k] in rules;
    }
    NoneRecordedInOrder(eventId, runs, RulesOf(rules), false);
    PrefixesKeepOrder(runs, history, eventId, RulesOf(rules));
    var k := InOrderMeans(eventId, RunsOf(runs, history), RulesOf(rules), false);
    assert forall i :: 0 <= i < |rules| ==> RulesOf(rules)[i] == rules[i].rule;
  }

  /** Over any history of passes, whatever the rules do, when longer look-aheads come first. */
  lemma FallingHoursFireOnce(runs: map<RunKey, Run>, history: seq<Handled>, eventId: Id, rules: seq<TimedRule>)
    requires Falling(Spans(rules)) && DistinctRules(RulesOf(rules)) && Unrecorded(runs, rules, eventId)
    requires forall p :: p in history ==> p.dispatch.eventId == eventId && FromMeetingPass(rules, p.dispatch)
    ensures OneTerminal(RunsOf(runs, history), rules, eventId)
  {
    forall p | p in history
      ensures p.dispatch.rules <= RulesOf(rules)
    {
      MeetingDispatchIsPrefix(rules, p.dispatch);
    }
    InOrderIsOneTerminal(runs, history, eventId, rules);
  }

  /** The same for quiet rules, when fewer days come first. */
  lemma RisingDaysFireOnce(runs: map<RunKey, Run>, history: seq<Handled>, eventId: Id, rules: seq<TimedRule>)
    requires Rising(Spans(rules)) && DistinctRules(RulesOf(rules)) && Unrecorded(runs, rules, eventId)
    requires forall p :: p in history ==> p.dispatch.eventId == eventId && FromQuietPass(rules, p.dispatch)
    ensures OneTerminal(RunsOf(runs, history), rules, eventId)
  {
    forall p | p in history
      ensures p.dispatch.rules <= RulesOf(rules)
    {
      QuietDispatchIsPrefix(rules, p.dispatch);
    }
    InOrderIsOneTerminal(runs, history, eventId, rules);
  }

  // ---- In another order a rule due later but earlier in order fires again ----------------

  /** Rules with these spans, of which the i-th and the j-th end the enrollment. */
  function Enders(scope: Scope, spans: seq<int>, i: nat, j: nat): seq<TimedRule> {
    seq(|spans|, k requires 0 <= k < |spans| =>
      TimedRule(Rule(RuleRef(scope, Decimal(k)), [if k == i || k == j then EndEnrollment else NotifyTeam]), spans[k]))
  }

  lemma EndersAreDistinct(scope: Scope, spans: seq<int>, i: nat, j: nat)
    ensures Spans(Enders(scope, spans, i, j)) == spans && DistinctRules(RulesOf(Enders(scope, spans, i, j)))
  {
    var rules := RulesOf(Enders(scope, spans, i, j));
    forall a, b | 0 <= a < b < |rules|
      ensures rules[a].ref != rules[b].ref
    {
      if rules[a].ref == rules[b].ref {
        DecimalInjective(a, b);
      }
    }
  }

  /** A known contact with an enrollment, and every call answers. */
  const SWEPT: Ctx := Ctx("", Present, Present, true, map[], true, false, map[], {}, {})

  function Swept(eventId: Id): Ctx { SWEPT.(eventId := eventId) }

  lemma EnderPlan(w: Ctx, rule: Rule)
    requires rule.actions == [EndEnrollment] && w.enrollment.Present? && w.faults == {}
    ensures RunOf(PlanRule(w, false, rule, 0), 0).terminal
  {
    var site := Site(rule.ref, [] + [At(0)]);
    var p := PlanAction(w, false, site, EndEnrollment, 0);
    assert p == Plan([Act(site, 0, EndEnrollment, Applied, EndIt)], true, [Outcome(Applied, true)]);
    var q := PlanActions(w, true, rule.ref, [], 1, [], 0);
    assert q == Plan([], true, []);
    assert rule.actions[0] == EndEnrollment && rule.actions[1..] == [];
    assert PlanRule(w, false, rule, 0) == Plan(p.steps + q.steps, q.fired, p.outcomes + q.outcomes);
    assert (p.outcomes + q.outcomes)[0] == Outcome(Applied, true);
  }

  lemma NotifierPlan(w: Ctx, fired: bool, rule: Rule)
    requires rule.actions == [NotifyTeam]
    ensures !RunOf(PlanRule(w, fired, rule, 0), 0).terminal && PlanRule(w, fired, rule, 0).fired == fired
  {
    var site := Site(rule.ref, [] + [At(0)]);
    var p := PlanAction(w, fired, site, NotifyTeam, 0);
    assert p == Plan([Act(site, 0, NotifyTeam, Applied, NoEffect)], fired, [Outcome(Applied, false)]);
    var q := PlanActions(w, fired, rule.ref, [], 1, [], 0);
    assert q == Plan([], fired, []);
    assert rule.actions[0] == NotifyTeam && rule.actions[1..] == [];
    assert PlanRule(w, fired, rule, 0) == Plan(p.steps + q.steps, q.fired, p.outcomes + q.outcomes);
  }

  function AfterPass(w: Ctx, runs: map<RunKey, Run>, rules: seq<Rule>): map<RunKey, Run> {
    RunsAfter(runs, PlanPass(w, runs, false, rules, 0).steps)
  }

  /** Nothing before the n-th rule fires in this pass or is recorded as having fired. */
  predicate CalmBefore(w: Ctx, runs: map<RunKey, Run>, rules: seq<Rule>, n: nat) {
    forall k :: 0 <= k < n && k < |rules| ==>
      if KeyOf(w, rules[k]) in runs then !runs[KeyOf(w, rules[k])].terminal else rules[k].actions == [NotifyTeam]
  }

  /** A rule that ends the enrollment, not yet recorded and with calm before it, fires. */
  lemma {:induction false} EnderFires(w: Ctx, runs: map<RunKey, Run>, rules: seq<Rule>, n: nat)
    requires n < |rules| && rules[n].actions == [EndEnrollment] && KeyOf(w, rules[n]) !in runs
    requires w.enrollment.Present? && w.faults == {} && DistinctRules(rules) && CalmBefore(w, runs, rules, n)
    ensures KeyOf(w, rules[n]) in AfterPass(w, runs, rules) && AfterPass(w, runs, rules)[KeyOf(w, rules[n])].terminal
    decreases n
  {
    var key, steps := KeyOf(w, rules[0]), PlanPass(w, runs, false, rules, 0).steps;
    assert Cut(steps, |steps|) == steps;
    if key in runs {
      EnderFires(w, runs, rules[1..], n - 1);
    } else {
      var p := PlanRule(w, false, rules[0], 0);
      var run := RunOf(p, 0);
      var runs' := runs[key := run];
      var rest := PlanPass(w, runs', p.fired, rules[1..], 0).steps;
      RunsAfterRule(w, runs, false, rules[0], 0, key, run, rest);
      if n == 0 {
        EnderPlan(w, rules[0]);
        assert Cut(rest, |rest|) == rest;
        RecordedStays(w, runs', p.fired, rules[1..], 0, |rest|, key);
      } else {
        NotifierPlan(w, false, rules[0]);
        assert forall k :: 0 < k < |rules| ==> KeyOf(w, rules[k]) != key;
        EnderFires(w, runs', rules[1..], n - 1);
      }
    }
  }

  /** Where a row of a pass comes from. */
  lemma {:induction false} RowOrigin(w: Ctx, runs: map<RunKey, Run>, fired: bool, rules: seq<Rule>, key: RunKey)
    requires key !in runs
    ensures var after := RunsAfter(runs, PlanPass(w, runs, fired, rules, 0).steps);
            key in after ==> exists r, f :: r in rules && key == KeyOf(w, r) && after[key] == RunOf(PlanRule(w, f, r, 0), 0)
    decreases |rules|
  {
    if rules != [] {
      var k := KeyOf(w, rules[0]);
      if k in runs {
        RowOrigin(w, runs, fired || runs[k].terminal, rules[1..], key);
      } else {
        var p := PlanRule(w, fired, rules[0], 0);
        var run := RunOf(p, 0);
        var rest := PlanPass(w, runs[k := run], p.fired, rules[1..], 0).steps;
        RunsAfterRule(w, runs, fired, rules[0], 0, k, run, rest);
        if k == key {
          assert Cut(rest, |rest|) == rest;
          RecordedStays(w, runs[k := run], p.fired, rules[1..], 0, |rest|, key);
          assert rules[0] in rules;
        } else {
          RowOrigin(w, runs[k := run], p.fired, rules[1..], key);
        }
      }
    }
  }

  lemma {:induction false} SelectedDistinct(rules: seq<TimedRule>, due: TimedRule -> bool)
    requires DistinctRules(RulesOf(rules))
    ensures DistinctRules(Selected(rules, due))
  {
    if rules != [] {
      var front, last := rules[..|rules| - 1], rules[|rules| - 1];
      assert RulesOf(rules) == RulesOf(front) + [last.rule];
      assert forall k :: 0 <= k < |front| ==> RulesOf(rules)[k] == front[k].rule;
      SelectedDistinct(front, due);
      forall r | r in Selected(front, due)
        ensures r.ref != last.rule.ref
      {
        SelectedMeans(front, due, r);
        var x :| x in front && x.rule == r && due(x);
        var k :| 0 <= k < |front| && front[k] == x;
        assert RulesOf(rules)[k].ref != RulesOf(rules)[|front|].ref;
      }
    }
  }

  /** A due rule's place in the dispatch: after the due rules before it. */
  lemma {:induction false} SelectedPlace(rules: seq<TimedRule>, due: TimedRule -> bool, i: nat)
    requires i < |rules| && due(rules[i])
    ensures var n, all := |Selected(rules[..i], due)|, Selected(rules, due);
            n < |all| && all[n] == rules[i].rule && all[..n] == Selected(rules[..i], due)
    decreases |rules|
  {
    if i == |rules| - 1 {
    } else {
      var front := rules[..|rules| - 1];
      SelectedPlace(front, due, i);
      assert front[..i] == rules[..i];
    }
  }

  /** The dispatch runs through in the swept world. */
  function Through(runs: map<RunKey, Run>, d: Dispatch): Handled {
    Handled(d, SWEPT, |PlanPass(Swept(d.eventId), runs, false, d.rules, 0).steps|)
  }

  lemma TwoPasses(first: Dispatch, second: Dispatch)
    requires first.eventId == second.eventId
    ensures var w, one := Swept(first.eventId), AfterPass(Swept(first.eventId), map[], first.rules);
            RunsOf(map[], [Through(map[], first), Through(one, second)]) == AfterPass(w, one, second.rules)
  {
    var one := AfterPass(Swept(first.eventId), map[], first.rules);
    var a, b := Through(map[], first), Through(one, second);
    assert [a, b][..1] == [a] && [a][..0] == [];
    assert RunsOf(map[], []) == map[];
    assert RunsOf(map[], [a]) == one;
  }

  /** Two passes: the j-th rule is due in the first, the i-th before it only in the second. */
  lemma BothEnd(scope: Scope, spans: seq<int>, i: nat, j: nat, early: TimedRule -> bool, late: TimedRule -> bool, w: Ctx)
    requires i < j < |spans| && w.enrollment.Present? && w.faults == {}
    requires var rules := Enders(scope, spans, i, j); early(rules[j]) && !early(rules[i]) && late(rules[i])
    ensures var rules := Enders(scope, spans, i, j);
            var one := AfterPass(w, map[], Selected(rules, early));
            var two := AfterPass(w, one, Selected(rules, late));
            !OneTerminal(two, rules, w.eventId)
  {
    var rules := Enders(scope, spans, i, j);
    var first, second := Selected(rules, early), Selected(rules, late);
    var none: map<RunKey, Run> := map[];
    var one := AfterPass(w, none, first);
    EndersAreDistinct(scope, spans, i, j);
    SelectedDistinct(rules, early);
    SelectedDistinct(rules, late);
    var n := |Selected(rules[..j], early)|;
    SelectedPlace(rules, early, j);
    CalmSelection(scope, spans, i, j, early, j, w, none, first, n);
    EnderFires(w, none, first, n);
    var m := |Selected(rules[..i], late)|;
    SelectedPlace(rules, late, i);
    OthersAreCalm(scope, spans, i, j, early, w);
    CalmSelection(scope, spans, i, j, late, i, w, one, second, m);
    EnderFires(w, one, second, m);
    var two := AfterPass(w, one, second);
    var steps := PlanPass(w, one, false, second, 0).steps;
    assert Cut(steps, |steps|) == steps;
    RecordedStays(w, one, false, second, 0, |steps|, KeyOf(w, rules[j].rule));
    assert two[RunKey(rules[i].rule.ref, w.eventId)].terminal && two[RunKey(rules[j].rule.ref, w.eventId)].terminal;
  }

  /** After the first pass no rule but the j-th is recorded as terminal, and the i-th not at
      all. */
  lemma OthersAreCalm(scope: Scope, spans: seq<int>, i: nat, j: nat, early: TimedRule -> bool, w: Ctx)
    requires i < j < |spans| && var rules := Enders(scope, spans, i, j); !early(rules[i])
    ensures var rules := Enders(scope, spans, i, j);
            var one := AfterPass(w, map[], Selected(rules, early));
            && KeyOf(w, rules[i].rule) !in one
            && forall k :: 0 <= k < |rules| && k != j && KeyOf(w, rules[k].rule) in one ==> !one[KeyOf(w, rules[k].rule)].terminal
  {
    var rules := Enders(scope, spans, i, j);
    var one := AfterPass(w, map[], Selected(rules, early));
    forall k | 0 <= k < |rules| && k != j && KeyOf(w, rules[k].rule) in one
      ensures k != i && !one[KeyOf(w, rules[k].rule)].terminal
    {
      RowOrigin(w, map[], false, Selected(rules, early), KeyOf(w, rules[k].rule));
      var r, f :| r in Selected(rules, early) && KeyOf(w, r) == KeyOf(w, rules[k].rule)
                  && one[KeyOf(w, rules[k].rule)] == RunOf(PlanRule(w, f, r, 0), 0);
      SelectedIs(scope, spans, i, j, early, r, k);
      NotifierPlan(w, f, r);
    }
  }

  /** A selected rule with the k-th rule's id is that rule, and due. */
  lemma SelectedIs(scope: Scope, spans: seq<int>, i: nat, j: nat, due: TimedRule -> bool, r: Rule, k: nat)
    requires k < |spans| && r in Selected(Enders(scope, spans, i, j), due) && r.ref == Enders(scope, spans, i, j)[k].rule.ref
    ensures due(Enders(scope, spans, i, j)[k]) && r == Enders(scope, spans, i, j)[k].rule
  {
    var rules := Enders(scope, spans, i, j);
    SelectedMeans(rules, due, r);
    var x :| x in rules && x.rule == r && due(x);
    var l :| 0 <= l < |rules| && rules[l] == x;
    DecimalInjective(k, l);
  }

  /** Before the place of the e-th rule only other rules than the two enders are selected. */
  lemma CalmSelection(scope: Scope, spans: seq<int>, i: nat, j: nat, due: TimedRule -> bool, e: nat, w: Ctx, runs: map<RunKey, Run>, selected: seq<Rule>, n: nat)
    requires i < j < |spans| && (e == i || (e == j && !due(Enders(scope, spans, i, j)[i])))
    requires var rules := Enders(scope, spans, i, j);
             && n == |Selected(rules[..e], due)| < |selected| && selected[..n] == Selected(rules[..e], due)
             && forall k :: 0 <= k < |rules| && k != j && KeyOf(w, rules[k].rule) in runs ==> !runs[KeyOf(w, rules[k].rule)].terminal
    ensures CalmBefore(w, runs, selected, n)
  {
    var rules := Enders(scope, spans, i, j);
    forall k | 0 <= k < n
      ensures if KeyOf(w, selected[k]) in runs then !runs[KeyOf(w, selected[k])].terminal else selected[k].actions == [NotifyTeam]
    {
      assert selected[k] == selected[..n][k];
      SelectedMeans(rules[..e], due, selected[k]);
      var x :| x in rules[..e] && x.rule == selected[k] && due(x);
      var l :| 0 <= l < e && rules[..e][l] == x;
      assert rules[l] == x;
    }
  }

  /** Whenever a later rule looks further ahead than an earlier one, a real schedule fires two
      terminal actions for one start of one meeting: the first pass reaches the later rule
      only; it ends the enrollment, which stays fireable; the second pass reaches the earlier
      rule, which is run before the other's row is read. */
  lemma SecondTerminalBeforeMeeting(scope: Scope, spans: seq<int>, i: nat, j: nat, meeting: Id, startAt: int) returns (history: seq<Handled>)
    requires i < j < |spans| && 1 <= spans[i] < spans[j]
    ensures var rules, id := Enders(scope, spans, i, j), PremeetEventId(meeting, startAt);
            MeetingHistory(rules, history, id) && !OneTerminal(RunsOf(map[], history), rules, id)
  {
    var rules, id := Enders(scope, spans, i, j), PremeetEventId(meeting, startAt);
    var active := Meeting(meeting, true, true, Some(Some(ACTIVE)), startAt);
    var ended := active.(enrollment := Some(Some(DONE)));
    var first := ReminderAt(rules, active, startAt - spans[j] * HOUR_MS, j);
    var second := ReminderAt(rules, ended, startAt - spans[i] * HOUR_MS, i);
    var one := AfterPass(Swept(id), map[], first.rules);
    history := [Through(map[], first), Through(one, second)];
    assert spans[i] * HOUR_MS < spans[j] * HOUR_MS;
    BothEnd(scope, spans, i, j, BeforeMeeting(active, first.at), BeforeMeeting(ended, second.at), Swept(id));
    TwoPasses(first, second);
  }

  lemma ReminderAt(rules: seq<TimedRule>, m: Meeting, now: int, k: nat) returns (d: Dispatch)
    requires Remindable(m, now) && k < |rules| && BeforeMeeting(m, now)(rules[k])
    ensures d == Dispatch(PremeetEventId(m.id, m.startAt), Selected(rules, BeforeMeeting(m, now)), now) && FromMeetingPass(rules, d)
  {
    d := Dispatch(PremeetEventId(m.id, m.startAt), Selected(rules, BeforeMeeting(m, now)), now);
    SelectedPlace(rules, BeforeMeeting(m, now), k);
    EachOne(m, (m: Meeting) => RemindersOf(rules, m, now));
    assert d in Reminders(rules, [m], now);
  }

  /** The same with quiet rules, whenever an earlier rule asks for more days than a later one:
      the end of the enrollment restarts the quiet, and when it has lasted for the earlier
      rule, that one fires too. */
  lemma SecondTerminalAfterQuiet(scope: Scope, spans: seq<int>, i: nat, j: nat, enrollment: Id, since: nat) returns (history: seq<Handled>)
    requires i < j < |spans| && 1 <= spans[j] < spans[i]
    ensures var rules, id := Enders(scope, spans, i, j), QuietEventId(enrollment);
            QuietHistory(rules, history, id) && !OneTerminal(RunsOf(map[], history), rules, id)
  {
    var rules, id := Enders(scope, spans, i, j), QuietEventId(enrollment);
    var ended := since + spans[j] * DAY_MS;
    var before, after := Touched(enrollment, DONE, since, []), Touched(enrollment, DONE, ended, []);
    DaysQuiet(before, ended, rules[i]);
    DaysQuiet(before, ended, rules[j]);
    DaysQuiet(after, ended + spans[i] * DAY_MS, rules[i]);
    var first := QuietAt(rules, before, ended, j);
    var second := QuietAt(rules, after, ended + spans[i] * DAY_MS, i);
    var one := AfterPass(Swept(id), map[], first.rules);
    history := [Through(map[], first), Through(one, second)];
    BothEnd(scope, spans, i, j, QuietFor(before, first.at), QuietFor(after, second.at), Swept(id));
    TwoPasses(first, second);
  }

  lemma QuietAt(rules: seq<TimedRule>, e: Touched, now: int, k: nat) returns (d: Dispatch)
    requires e.status.DONE? && k < |rules| && QuietFor(e, now)(rules[k])
    ensures d == Dispatch(QuietEventId(e.id), Selected(rules, QuietFor(e, now)), now) && FromQuietPass(rules, d)
  {
    d := Dispatch(QuietEventId(e.id), Selected(rules, QuietFor(e, now)), now);
    SelectedPlace(rules, QuietFor(e, now), k);
    EachOne(e, (e: Touched) => QuietDispatchesOf(rules, e, now));
    assert d in QuietDispatches(rules, [e], now);
  }

  // ---- Exactly when ----------------------------------------------------------------------

  /** Whatever rules of these hours do, no history of passes of one scope gives two of them a
      terminal row for the same start of a meeting. */
  ghost predicate HoursFireOnce(spans: seq<int>) {
    forall rules, runs, history, id ::
      Spans(rules) == spans && DistinctRules(RulesOf(rules)) && Unrecorded(runs, rules, id) && MeetingHistory(rules, history, id) ==>
        OneTerminal(RunsOf(runs, history), rules, id)
  }

  ghost predicate DaysFireOnce(spans: seq<int>) {
    forall rules, runs, history, id ::
      Spans(rules) == spans && DistinctRules(RulesOf(rules)) && Unrecorded(runs, rules, id) && QuietHistory(rules, history, id) ==>
        OneTerminal(RunsOf(runs, history), rules, id)
  }

  /** First terminal wins across before-meeting passes, as far as the rows tell, exactly when the
      rules' hours do not rise in rule order. */
  lemma HoursOrderIff(spans: seq<int>)
    requires forall k :: 0 <= k < |spans| ==> spans[k] >= 1
    ensures HoursFireOnce(spans) <==> Falling(spans)
  {
    if Falling(spans) {
      forall rules, runs, history, id |
        Spans(rules) == spans && DistinctRules(RulesOf(rules)) && Unrecorded(runs, rules, id) && MeetingHistory(rules, history, id)
        ensures OneTerminal(RunsOf(runs, history), rules, id)
      {
        FallingHoursFireOnce(runs, history, id, rules);
      }
    } else {
      var i, j :| 0 <= i < j < |spans| && spans[i] < spans[j];
      var history := SecondTerminalBeforeMeeting(Campaign, spans, i, j, "m", 0);
      EndersAreDistinct(Campaign, spans, i, j);
      assert Unrecorded(map[], Enders(Campaign, spans, i, j), PremeetEventId("m", 0));
    }
  }

  /** And across quiet passes exactly when the rules' days do not fall in rule order. */
  lemma DaysOrderIff(spans: seq<int>)
    requires forall k :: 0 <= k < |spans| ==> spans[k] >= 1
    ensures DaysFireOnce(spans) <==> Rising(spans)
  {
    if Rising(spans) {
      forall rules, runs, history, id |
        Spans(rules) == spans && DistinctRules(RulesOf(rules)) && Unrecorded(runs, rules, id) && QuietHistory(rules, history, id)
        ensures OneTerminal(RunsOf(runs, history), rules, id)
      {
        RisingDaysFireOnce(runs, history, id, rules);
      }
    } else {
      var i, j :| 0 <= i < j < |spans| && spans[i] > spans[j];
      var history := SecondTerminalAfterQuiet(Campaign, spans, i, j, "e", 0);
      EndersAreDistinct(Campaign, spans, i, j);
      assert Unrecorded(map[], Enders(Campaign, spans, i, j), QuietEventId("e"));
    }
  }

  // ---- Across scopes ---------------------------------------------------------------------

  /** The account part of a sweep does what it would do had the campaign part recorded nothing:
      no campaign terminal holds an account terminal back. */
  lemma {:induction false} AccountPartIgnoresCampaign(w: Ctx, runs: map<RunKey, Run>, more: map<RunKey, Run>, fired: bool, account: seq<Rule>, depth: nat)
    requires forall r :: r in account ==> r.ref.scope.Account?
    requires forall k :: k in more && k.rule.scope.Account? ==> k in runs && runs[k] == more[k]
    requires forall k :: k in runs && k.rule.scope.Account? ==> k in more
    ensures PlanPass(w, more, fired, account, depth) == PlanPass(w, runs, fired, account, depth)
    decreases |account|
  {
    if account != [] {
      var key := KeyOf(w, account[0]);
      assert account[0] in account;
      if key in runs {
        AccountPartIgnoresCampaign(w, runs, more, fired || runs[key].terminal, account[1..], depth);
      } else {
        var p := PlanRule(w, fired, account[0], depth);
        var run := RunOf(p, depth);
        AccountPartIgnoresCampaign(w, runs[key := run], more[key := run], p.fired, account[1..], depth);
      }
    }
  }

  /** The campaign rules of a campaign and the account rules of its workspace. */
  predicate TwoScopes(campaign: seq<TimedRule>, account: seq<TimedRule>) {
    && (forall r :: r in campaign ==> r.rule.ref.scope.Campaign?)
    && (forall r :: r in account ==> r.rule.ref.scope.Account?)
    && DistinctRules(RulesOf(campaign)) && DistinctRules(RulesOf(account))
  }

  ghost predicate MeetingHistoryOfBoth(campaign: seq<TimedRule>, account: seq<TimedRule>, history: seq<Handled>, eventId: Id) {
    && InTime(history)
    && forall p :: p in history ==> p.dispatch.eventId == eventId && (FromMeetingPass(campaign, p.dispatch) || FromMeetingPass(account, p.dispatch))
  }

  ghost predicate QuietHistoryOfBoth(campaign: seq<TimedRule>, account: seq<TimedRule>, history: seq<Handled>, eventId: Id) {
    && InTime(history)
    && forall p :: p in history ==> p.dispatch.eventId == eventId && (FromQuietPass(campaign, p.dispatch) || FromQuietPass(account, p.dispatch))
  }

  lemma NoRulesNoDispatch(d: Dispatch)
    ensures !FromMeetingPass([], d) && !FromQuietPass([], d)
  {
    forall meetings, now
      ensures d !in Reminders([], meetings, now)
    {
      if d in Reminders([], meetings, now) {
        EachFrom(meetings, (m: Meeting) => RemindersOf([], m, now), d);
      }
    }
    forall enrollments, now
      ensures d !in QuietDispatches([], enrollments, now)
    {
      if d in QuietDispatches([], enrollments, now) {
        EachFrom(enrollments, (e: Touched) => QuietDispatchesOf([], e, now), d);
      }
    }
  }

  /** Both first rules end the enrollment: the row of the one scope does not hold back the
      other. */
  lemma BothScopesEnd(cs: seq<int>, as_: seq<int>, early: TimedRule -> bool, late: TimedRule -> bool, w: Ctx)
    requires cs != [] && as_ != [] && w.enrollment.Present? && w.faults == {}
    requires early(Enders(Campaign, cs, 0, 0)[0]) && late(Enders(Account, as_, 0, 0)[0])
    ensures var campaign, account := Enders(Campaign, cs, 0, 0), Enders(Account, as_, 0, 0);
            var one := AfterPass(w, map[], Selected(campaign, early));
            !OneTerminal(AfterPass(w, one, Selected(account, late)), campaign + account, w.eventId)
  {
    var campaign, account := Enders(Campaign, cs, 0, 0), Enders(Account, as_, 0, 0);
    var first, second := Selected(campaign, early), Selected(account, late);
    var none: map<RunKey, Run> := map[];
    var one := AfterPass(w, none, first);
    var two := AfterPass(w, one, second);
    FirstEnderFires(Campaign, cs, early, w, none);
    OtherScopeUnrecorded(campaign, early, w, KeyOf(w, account[0].rule));
    FirstEnderFires(Account, as_, late, w, one);
    var steps := PlanPass(w, one, false, second, 0).steps;
    assert Cut(steps, |steps|) == steps;
    RecordedStays(w, one, false, second, 0, |steps|, KeyOf(w, campaign[0].rule));
    var both := campaign + account;
    assert both[0] == campaign[0] && both[|campaign|] == account[0];
    assert two[RunKey(both[0].rule.ref, w.eventId)].terminal && two[RunKey(both[|campaign|].rule.ref, w.eventId)].terminal;
  }

  lemma FirstEnderFires(scope: Scope, spans: seq<int>, due: TimedRule -> bool, w: Ctx, runs: map<RunKey, Run>)
    requires spans != [] && w.enrollment.Present? && w.faults == {} && due(Enders(scope, spans, 0, 0)[0])
    requires KeyOf(w, Enders(scope, spans, 0, 0)[0].rule) !in runs
    ensures var rules := Enders(scope, spans, 0, 0);
            var after, key := AfterPass(w, runs, Selected(rules, due)), KeyOf(w, rules[0].rule);
            key in after && after[key].terminal
  {
    var rules := Enders(scope, spans, 0, 0);
    EndersAreDistinct(scope, spans, 0, 0);
    SelectedDistinct(rules, due);
    SelectedPlace(rules, due, 0);
    assert rules[..0] == [];
    EnderFires(w, runs, Selected(rules, due), 0);
  }

  lemma OtherScopeUnrecorded(rules: seq<TimedRule>, due: TimedRule -> bool, w: Ctx, key: RunKey)
    requires forall r :: r in rules ==> r.rule.ref.scope != key.rule.scope
    ensures key !in AfterPass(w, map[], Selected(rules, due))
  {
    RowOrigin(w, map[], false, Selected(rules, due), key);
    forall r | r in Selected(rules, due)
      ensures KeyOf(w, r) != key
    {
      SelectedMeans(rules, due, r);
    }
  }

  /** In one before-meeting sweep, an hour before the start, both parts fire a terminal action. */
  lemma BothScopesEndBeforeMeeting(cs: seq<int>, as_: seq<int>, meeting: Id, startAt: int) returns (history: seq<Handled>)
    requires cs != [] && as_ != [] && cs[0] >= 1 && as_[0] >= 1
    ensures var campaign, account, id := Enders(Campaign, cs, 0, 0), Enders(Account, as_, 0, 0), PremeetEventId(meeting, startAt);
            && MeetingHistoryOfBoth(campaign, account, history, id)
            && !OneTerminal(RunsOf(map[], history), campaign + account, id)
  {
    var campaign, account, now := Enders(Campaign, cs, 0, 0), Enders(Account, as_, 0, 0), startAt - HOUR_MS;
    var active := Meeting(meeting, true, true, Some(Some(ACTIVE)), startAt);
    var ended := active.(enrollment := Some(Some(DONE)));
    var first := ReminderAt(campaign, active, now, 0);
    var second := ReminderAt(account, ended, now, 0);
    var w := Swept(first.eventId);
    history := [Through(map[], first), Through(AfterPass(w, map[], first.rules), second)];
    BothScopesEnd(cs, as_, BeforeMeeting(active, now), BeforeMeeting(ended, now), w);
    TwoPasses(first, second);
  }

  /** In the quiet sweep the end of the enrollment restarts the quiet; when that has lasted for
      the account rule, it fires too. */
  lemma BothScopesEndAfterQuiet(cs: seq<int>, as_: seq<int>, enrollment: Id, since: nat) returns (history: seq<Handled>)
    requires cs != [] && as_ != [] && cs[0] >= 1 && as_[0] >= 1
    ensures var campaign, account, id := Enders(Campaign, cs, 0, 0), Enders(Account, as_, 0, 0), QuietEventId(enrollment);
            && QuietHistoryOfBoth(campaign, account, history, id)
            && !OneTerminal(RunsOf(map[], history), campaign + account, id)
  {
    var campaign, account := Enders(Campaign, cs, 0, 0), Enders(Account, as_, 0, 0);
    var ended := since + cs[0] * DAY_MS;
    var again := ended + as_[0] * DAY_MS;
    var before, after := Touched(enrollment, DONE, since, []), Touched(enrollment, DONE, ended, []);
    DaysQuiet(before, ended, campaign[0]);
    DaysQuiet(after, again, account[0]);
    var first := QuietAt(campaign, before, ended, 0);
    var second := QuietAt(account, after, again, 0);
    var w := Swept(first.eventId);
    history := [Through(map[], first), Through(AfterPass(w, map[], first.rules), second)];
    BothScopesEnd(cs, as_, QuietFor(before, ended), QuietFor(after, again), w);
    TwoPasses(first, second);
  }

  /** Whatever rules of these hours do, no history of passes of either scope gives two of them a
      terminal row for the same start of a meeting. */
  ghost predicate HoursFireOnceAcross(cs: seq<int>, as_: seq<int>) {
    forall campaign, account, runs, history, id ::
      Spans(campaign) == cs && Spans(account) == as_ && TwoScopes(campaign, account)
      && Unrecorded(runs, campaign + account, id) && MeetingHistoryOfBoth(campaign, account, history, id) ==>
        OneTerminal(RunsOf(runs, history), campaign + account, id)
  }

  ghost predicate DaysFireOnceAcross(cs: seq<int>, as_: seq<int>) {
    forall campaign, account, runs, history, id ::
      Spans(campaign) == cs && Spans(account) == as_ && TwoScopes(campaign, account)
      && Unrecorded(runs, campaign + account, id) && QuietHistoryOfBoth(campaign, account, history, id) ==>
        OneTerminal(RunsOf(runs, history), campaign + account, id)
  }

  /** The one scope that has rules, and both histories read with the other empty. */
  lemma OneScopeOnly(campaign: seq<TimedRule>, account: seq<TimedRule>, history: seq<Handled>, id: Id) returns (rules: seq<TimedRule>)
    requires campaign == [] || account == []
    ensures rules == (if account == [] then campaign else account) == campaign + account
    ensures MeetingHistoryOfBoth(campaign, account, history, id) <==> MeetingHistory(rules, history, id)
    ensures QuietHistoryOfBoth(campaign, account, history, id) <==> QuietHistory(rules, history, id)
  {
    rules := if account == [] then campaign else account;
    assert campaign + account == rules;
    forall p | p in history
      ensures !FromMeetingPass([], p.dispatch) && !FromQuietPass([], p.dispatch)
    {
      NoRulesNoDispatch(p.dispatch);
    }
  }

  lemma HoursFireTwice(campaign: seq<TimedRule>, account: seq<TimedRule>, history: seq<Handled>, id: Id)
    ensures HoursFireOnceAcross(Spans(campaign), Spans(account)) ==>
              TwoScopes(campaign, account) ==>
                MeetingHistoryOfBoth(campaign, account, history, id) ==>
                  OneTerminal(RunsOf(map[], history), campaign + account, id)
  {
    assert Unrecorded(map[], campaign + account, id);
  }

  lemma OrderedHoursOfOneScope(cs: seq<int>, as_: seq<int>)
    requires (as_ == [] && Falling(cs)) || (cs == [] && Falling(as_))
    ensures HoursFireOnceAcross(cs, as_)
  {
    forall campaign, account, runs, history, id |
      Spans(campaign) == cs && Spans(account) == as_ && TwoScopes(campaign, account)
      && Unrecorded(runs, campaign + account, id) && MeetingHistoryOfBoth(campaign, account, history, id)
      ensures OneTerminal(RunsOf(runs, history), campaign + account, id)
    {
      assert |campaign| == |cs| && |account| == |as_|;
      var rules := OneScopeOnly(campaign, account, history, id);
      FallingHoursFireOnce(runs, history, id, rules);
    }
  }

  lemma HoursOfBothScopes(cs: seq<int>, as_: seq<int>)
    requires cs != [] && as_ != [] && cs[0] >= 1 && as_[0] >= 1
    ensures !HoursFireOnceAcross(cs, as_)
  {
    var history := BothScopesEndBeforeMeeting(cs, as_, "m", 0);
    EndersAreApart(cs, as_, 0, 0, 0, 0);
    HoursFireTwice(Enders(Campaign, cs, 0, 0), Enders(Account, as_, 0, 0), history, PremeetEventId("m", 0));
  }

  lemma DisorderedHoursOfOneScope(cs: seq<int>, as_: seq<int>, scope: Scope, spans: seq<int>, i: nat, j: nat)
    requires if scope.Campaign? then as_ == [] && cs == spans else cs == [] && as_ == spans
    requires i < j < |spans| && 1 <= spans[i] && spans[i] < spans[j]
    ensures !HoursFireOnceAcross(cs, as_)
  {
    var history := SecondTerminalBeforeMeeting(scope, spans, i, j, "m", 0);
    EndersAreApart(cs, as_, i, j, i, j);
    EndersOfOne(cs, as_, scope, spans, i, j);
    var rules := OneScopeOnly(Enders(Campaign, cs, i, j), Enders(Account, as_, i, j), history, PremeetEventId("m", 0));
    HoursFireTwice(Enders(Campaign, cs, i, j), Enders(Account, as_, i, j), history, PremeetEventId("m", 0));
  }

  /** First terminal wins across the scopes of the before-meeting sweep, as far as the rows tell,
      exactly when only one scope has rules and their hours do not rise in rule order. */
  lemma HoursAcrossScopesIff(cs: seq<int>, as_: seq<int>)
    requires forall k :: k in cs + as_ ==> k >= 1
    ensures HoursFireOnceAcross(cs, as_) <==> (as_ == [] && Falling(cs)) || (cs == [] && Falling(as_))
  {
    if (as_ == [] && Falling(cs)) || (cs == [] && Falling(as_)) {
      OrderedHoursOfOneScope(cs, as_);
    } else if cs != [] && as_ != [] {
      assert cs[0] in cs + as_ && as_[0] in cs + as_;
      HoursOfBothScopes(cs, as_);
    } else {
      var scope, spans := if as_ == [] then Campaign else Account, if as_ == [] then cs else as_;
      var i, j :| 0 <= i < j < |spans| && spans[i] < spans[j];
      assert spans[i] in cs + as_;
      DisorderedHoursOfOneScope(cs, as_, scope, spans, i, j);
    }
  }

  lemma DaysFireTwice(campaign: seq<TimedRule>, account: seq<TimedRule>, history: seq<Handled>, id: Id)
    ensures DaysFireOnceAcross(Spans(campaign), Spans(account)) ==>
              TwoScopes(campaign, account) ==>
                QuietHistoryOfBoth(campaign, account, history, id) ==>
                  OneTerminal(RunsOf(map[], history), campaign + account, id)
  {
    assert Unrecorded(map[], campaign + account, id);
  }

  lemma OrderedDaysOfOneScope(cs: seq<int>, as_: seq<int>)
    requires (as_ == [] && Rising(cs)) || (cs == [] && Rising(as_))
    ensures DaysFireOnceAcross(cs, as_)
  {
    forall campaign, account, runs, history, id |
      Spans(campaign) == cs && Spans(account) == as_ && TwoScopes(campaign, account)
      && Unrecorded(runs, campaign + account, id) && QuietHistoryOfBoth(campaign, account, history, id)
      ensures OneTerminal(RunsOf(runs, history), campaign + account, id)
    {
      assert |campaign| == |cs| && |account| == |as_|;
      var rules := OneScopeOnly(campaign, account, history, id);
      RisingDaysFireOnce(runs, history, id, rules);
    }
  }

  lemma DaysOfBothScopes(cs: seq<int>, as_: seq<int>)
    requires cs != [] && as_ != [] && cs[0] >= 1 && as_[0] >= 1
    ensures !DaysFireOnceAcross(cs, as_)
  {
    var history := BothScopesEndAfterQuiet(cs, as_, "e", 0);
    EndersAreApart(cs, as_, 0, 0, 0, 0);
    DaysFireTwice(Enders(Campaign, cs, 0, 0), Enders(Account, as_, 0, 0), history, QuietEventId("e"));
  }

  lemma DisorderedDaysOfOneScope(cs: seq<int>, as_: seq<int>, scope: Scope, spans: seq<int>, i: nat, j: nat)
    requires if scope.Campaign? then as_ == [] && cs == spans else cs == [] && as_ == spans
    requires i < j < |spans| && 1 <= spans[j] && spans[i] > spans[j]
    ensures !DaysFireOnceAcross(cs, as_)
  {
    var history := SecondTerminalAfterQuiet(scope, spans, i, j, "e", 0);
    EndersAreApart(cs, as_, i, j, i, j);
    EndersOfOne(cs, as_, scope, spans, i, j);
    var rules := OneScopeOnly(Enders(Campaign, cs, i, j), Enders(Account, as_, i, j), history, QuietEventId("e"));
    DaysFireTwice(Enders(Campaign, cs, i, j), Enders(Account, as_, i, j), history, QuietEventId("e"));
  }

  /** And of the quiet sweep exactly when only one scope has rules and their days do not fall. */
  lemma DaysAcrossScopesIff(cs: seq<int>, as_: seq<int>)
    requires forall k :: k in cs + as_ ==> k >= 1
    ensures DaysFireOnceAcross(cs, as_) <==> (as_ == [] && Rising(cs)) || (cs == [] && Rising(as_))
  {
    if (as_ == [] && Rising(cs)) || (cs == [] && Rising(as_)) {
      OrderedDaysOfOneScope(cs, as_);
    } else if cs != [] && as_ != [] {
      assert cs[0] in cs + as_ && as_[0] in cs + as_;
      DaysOfBothScopes(cs, as_);
    } else {
      var scope, spans := if as_ == [] then Campaign else Account, if as_ == [] then cs else as_;
      var i, j :| 0 <= i < j < |spans| && spans[i] > spans[j];
      assert spans[j] in cs + as_;
      DisorderedDaysOfOneScope(cs, as_, scope, spans, i, j);
    }
  }

  lemma EndersOfOne(cs: seq<int>, as_: seq<int>, scope: Scope, spans: seq<int>, i: nat, j: nat)
    requires if scope.Campaign? then as_ == [] && cs == spans else cs == [] && as_ == spans
    ensures var campaign, account := Enders(Campaign, cs, i, j), Enders(Account, as_, i, j);
            (campaign == [] || account == []) && campaign + account == Enders(scope, spans, i, j)
  {
    if scope.Campaign? {
      assert Enders(Account, as_, i, j) == [];
    } else {
      assert Enders(Campaign, cs, i, j) == [];
    }
  }

  lemma EndersAreApart(cs: seq<int>, as_: seq<int>, i: nat, j: nat, k: nat, l: nat)
    ensures var campaign, account := Enders(Campaign, cs, i, j), Enders(Account, as_, k, l);
            Spans(campaign) == cs && Spans(account) == as_ && TwoScopes(campaign, account)
  {
    EndersAreDistinct(Campaign, cs, i, j);
    EndersAreDistinct(Account, as_, k, l);
  }
}
