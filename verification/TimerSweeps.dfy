/** The two timer triggers: polls that hand due rules to the engine under synthetic event
    ids, so that the run rows make each rule fire once per quiet enrollment and once per
    scheduled second of a meeting. */
module TimerSweeps {
  import opened Options
  import opened Text
  import opened RuleModel
  import opened RulePlan
  import opened CrashAbsorption
  import opened TerminalDiscipline
  import opened Redelivery
  import opened EventEvaluation

  const HOUR_MS := 3_600_000
  const DAY_MS := 86_400_000

  /** A rule with its hours before the meeting, or its days of quiet. */
  datatype TimedRule = TimedRule(rule: Rule, span: int)

  /** `enrollment` is what the meeting's reference finds: no reference, a missing row, or a
      row's status. */
  datatype Meeting = Meeting(id: Id, booked: bool, hasContact: bool, enrollment: Option<Option<Status>>, startAt: int)

  /** `sent` are the times of the enrollment's messages. */
  datatype Touched = Touched(id: Id, status: Status, updatedAt: int, sent: seq<int>)

  /** Rules handed to the engine for one synthetic event at one time. */
  datatype Dispatch = Dispatch(eventId: Id, rules: seq<Rule>, at: int)

  // ---- Event ids -----------------------------------------------------------------------

  function QuietEventId(enrollmentId: Id): Id { "quiet:" + enrollmentId }

  function PremeetEventId(meetingId: Id, startAt: int): Id { "premeet:" + (meetingId + (":" + Numeral(startAt / 1000))) }

  /** The key of a meeting's run is the meeting and the second of its start, no more and no
      less, whatever characters meeting ids hold. */
  lemma PremeetIdIff(a: Id, s: int, b: Id, t: int)
    ensures PremeetEventId(a, s) == PremeetEventId(b, t) <==> a == b && s / 1000 == t / 1000
  {
    if PremeetEventId(a, s) == PremeetEventId(b, t) {
      var x, y := Numeral(s / 1000), Numeral(t / 1000);
      assert PremeetEventId(a, s) == (("premeet:" + a) + ":") + x && PremeetEventId(b, t) == (("premeet:" + b) + ":") + y;
      LastPartUnique(("premeet:" + a) + ":", x, ("premeet:" + b) + ":", y, ':');
      SameMiddle("premeet:", a, b, ":");
      NumeralInjective(s / 1000, t / 1000);
    }
  }

  lemma SameMiddle(head: string, a: string, b: string, tail: string)
    requires (head + a) + tail == (head + b) + tail
    ensures a == b
  {
    assert |a| == |b|;
    assert a == ((head + a) + tail)[|head|..|head| + |a|] && b == ((head + b) + tail)[|head|..|head| + |b|];
  }

  lemma QuietIdIff(a: Id, b: Id, meeting: Id, startAt: int)
    ensures QuietEventId(a) == QuietEventId(b) <==> a == b
    ensures QuietEventId(a) != PremeetEventId(meeting, startAt)
  {
    assert QuietEventId(a)[6..] == a && QuietEventId(b)[6..] == b;
    assert QuietEventId(a)[0] == 'q' && PremeetEventId(meeting, startAt)[0] == 'p';
  }

  // ---- What is due, without any prefilter ----------------------------------------------

  function Selected(rules: seq<TimedRule>, due: TimedRule -> bool): seq<Rule> {
    if rules == [] then [] else
    Selected(rules[..|rules| - 1], due) + (if due(rules[|rules| - 1]) then [rules[|rules| - 1].rule] else [])
  }

  lemma {:induction false} SelectedMeans(rules: seq<TimedRule>, due: TimedRule -> bool, rule: Rule)
    ensures rule in Selected(rules, due) <==> exists r :: r in rules && r.rule == rule && due(r)
  {
    if rules != [] {
      SelectedMeans(rules[..|rules| - 1], due, rule);
      assert rules == rules[..|rules| - 1] + [rules[|rules| - 1]];
    }
  }

  function BeforeMeeting(m: Meeting, now: int): TimedRule -> bool { (r: TimedRule) => now >= m.startAt - r.span * HOUR_MS }

  function FireableRef(m: Meeting): bool {
    m.enrollment.None? || (m.enrollment.value.Some? && FireableStatus(m.enrollment.value.value))
  }

  /** A booked meeting still ahead, of a known contact whose enrollment is not inert. */
  predicate Remindable(m: Meeting, now: int) { m.booked && m.hasContact && now < m.startAt && FireableRef(m) }

  function RemindersOf(rules: seq<TimedRule>, m: Meeting, now: int): seq<Dispatch> {
    var due := Selected(rules, BeforeMeeting(m, now));
    if Remindable(m, now) && due != [] then [Dispatch(PremeetEventId(m.id, m.startAt), due, now)] else []
  }

  function Reminders(rules: seq<TimedRule>, meetings: seq<Meeting>, now: int): seq<Dispatch> {
    Each(meetings, (m: Meeting) => RemindersOf(rules, m, now))
  }

  /** The dispatches for each item in turn. */
  function Each<T>(items: seq<T>, f: T -> seq<Dispatch>): seq<Dispatch> {
    if items == [] then [] else Each(items[..|items| - 1], f) + f(items[|items| - 1])
  }

  lemma EachNext<T>(items: seq<T>, i: nat, f: T -> seq<Dispatch>)
    requires i < |items|
    ensures Each(items[..i + 1], f) == Each(items[..i], f) + f(items[i])
  {
    assert items[..i + 1][..i] == items[..i];
  }

  lemma EachOne<T>(x: T, f: T -> seq<Dispatch>)
    ensures Each([x], f) == f(x)
  {
    assert [x][..0] == [];
  }

  function Later(x: int, y: int): int { if x < y then y else x }

  function Latest(times: seq<int>): int
    requires times != []
  {
    if |times| == 1 then times[0] else Later(Latest(times[..|times| - 1]), times[|times| - 1])
  }

  /** The enrollment's own update or any of its messages, whichever came last. */
  function LastTouch(e: Touched): int { Later(e.updatedAt, if e.sent == [] then 0 else Latest(e.sent)) }

  function QuietFor(e: Touched, now: int): TimedRule -> bool {
    (r: TimedRule) => (now - LastTouch(e)) as real / DAY_MS as real >= r.span as real
  }

  function QuietDispatchesOf(rules: seq<TimedRule>, e: Touched, now: int): seq<Dispatch> {
    var due := Selected(rules, QuietFor(e, now));
    if e.status.DONE? && due != [] then [Dispatch(QuietEventId(e.id), due, now)] else []
  }

  function QuietDispatches(rules: seq<TimedRule>, enrollments: seq<Touched>, now: int): seq<Dispatch> {
    Each(enrollments, (e: Touched) => QuietDispatchesOf(rules, e, now))
  }

  // ---- The sweeps ----------------------------------------------------------------------

  method LargestSpan(rules: seq<TimedRule>) returns (max: int)
    requires rules != []
    ensures Largest(rules, max)
  {
    max := rules[0].span;
    for i := 1 to |rules|
      invariant exists r :: r in rules && r.span == max
      invariant forall k :: 0 <= k < i ==> rules[k].span <= max
    {
      if rules[i].span > max { max := rules[i].span; }
    }
  }

  method SmallestSpan(rules: seq<TimedRule>) returns (min: int)
    requires rules != []
    ensures Smallest(rules, min)
  {
    min := rules[0].span;
    for i := 1 to |rules|
      invariant exists r :: r in rules && r.span == min
      invariant forall k :: 0 <= k < i ==> min <= rules[k].span
    {
      if rules[i].span < min { min := rules[i].span; }
    }
  }

  method FilterDue(rules: seq<TimedRule>, due: TimedRule -> bool) returns (selected: seq<Rule>)
    ensures selected == Selected(rules, due)
  {
    selected := [];
    for i := 0 to |rules|
      invariant selected == Selected(rules[..i], due)
    {
      assert rules[..i + 1][..i] == rules[..i];
      if due(rules[i]) { selected := selected + [rules[i].rule]; }
    }
    assert rules[..|rules|] == rules;
  }

  predicate Largest(rules: seq<TimedRule>, max: int) {
    (exists r :: r in rules && r.span == max) && forall r :: r in rules ==> r.span <= max
  }

  predicate Smallest(rules: seq<TimedRule>, min: int) {
    (exists r :: r in rules && r.span == min) && forall r :: r in rules ==> min <= r.span
  }

  /** Booked meetings of known contacts that start within so many hours. */
  function Ahead(meetings: seq<Meeting>, now: int, hours: int): nat {
    if meetings == [] then 0 else
    var m := meetings[|meetings| - 1];
    Ahead(meetings[..|meetings| - 1], now, hours)
    + (if m.booked && m.hasContact && now < m.startAt <= now + hours * HOUR_MS then 1 else 0)
  }

  /** DONE enrollments that were not updated for so many days. */
  function Untouched(enrollments: seq<Touched>, now: int, days: int): nat {
    if enrollments == [] then 0 else
    var e := enrollments[|enrollments| - 1];
    Untouched(enrollments[..|enrollments| - 1], now, days)
    + (if e.status.DONE? && e.updatedAt <= now - days * DAY_MS then 1 else 0)
  }

  /** One scope's part of a before-meeting pass. `checked` counts the meetings that the
      query with the largest look-ahead returns; no due meeting is outside it. */
  method SweepMeetings(rules: seq<TimedRule>, meetings: seq<Meeting>, now: int) returns (checked: nat, dispatches: seq<Dispatch>)
    requires rules != []
    ensures dispatches == Reminders(rules, meetings, now)
    ensures exists hours :: Largest(rules, hours) && checked == Ahead(meetings, now, hours)
  {
    var maxHours := LargestSpan(rules);
    checked, dispatches := 0, [];
    ghost var each := (m: Meeting) => RemindersOf(rules, m, now);
    for i := 0 to |meetings|
      invariant dispatches == Each(meetings[..i], each)
      invariant checked == Ahead(meetings[..i], now, maxHours)
    {
      assert meetings[..i + 1][..i] == meetings[..i];
      var counted, found := CheckMeeting(rules, maxHours, meetings[i], now);
      EachNext(meetings, i, each);
      dispatches := dispatches + found;
      checked := checked + if counted then 1 else 0;
    }
    assert meetings[..|meetings|] == meetings && Largest(rules, maxHours);
  }

  /** One meeting: whether the query returns it, and what is dispatched for it. */
  method CheckMeeting(rules: seq<TimedRule>, maxHours: int, m: Meeting, now: int) returns (counted: bool, found: seq<Dispatch>)
    requires forall r :: r in rules ==> r.span <= maxHours
    ensures found == RemindersOf(rules, m, now) && |found| <= 1
    ensures counted <==> m.booked && m.hasContact && now < m.startAt <= now + maxHours * HOUR_MS
    ensures !counted ==> found == []
  {
    counted := m.booked && m.hasContact && now < m.startAt <= now + maxHours * HOUR_MS;
    found := [];
    if counted {
      var due := FilterDue(rules, BeforeMeeting(m, now));
      if due != [] && FireableRef(m) {
        found := [Dispatch(PremeetEventId(m.id, m.startAt), due, now)];
      }
    } else if now + maxHours * HOUR_MS < m.startAt {
      NothingDueBeyond(rules, maxHours, m, now);
    }
  }

  lemma NothingDueBeyond(rules: seq<TimedRule>, maxHours: int, m: Meeting, now: int)
    requires forall r :: r in rules ==> r.span <= maxHours
    requires m.startAt > now + maxHours * HOUR_MS
    ensures Selected(rules, BeforeMeeting(m, now)) == []
  {}

  /** One scope's part of a quiet pass, with the smallest number of days as prefilter. */
  method SweepQuiet(rules: seq<TimedRule>, enrollments: seq<Touched>, now: int) returns (checked: nat, dispatches: seq<Dispatch>)
    requires rules != []
    ensures dispatches == QuietDispatches(rules, enrollments, now)
    ensures exists days :: Smallest(rules, days) && checked == Untouched(enrollments, now, days)
  {
    var minDays := SmallestSpan(rules);
    checked, dispatches := 0, [];
    ghost var each := (e: Touched) => QuietDispatchesOf(rules, e, now);
    for i := 0 to |enrollments|
      invariant dispatches == Each(enrollments[..i], each)
      invariant checked == Untouched(enrollments[..i], now, minDays)
    {
      assert enrollments[..i + 1][..i] == enrollments[..i];
      var counted, found := CheckEnrollment(rules, minDays, enrollments[i], now);
      EachNext(enrollments, i, each);
      dispatches := dispatches + found;
      checked := checked + if counted then 1 else 0;
    }
    assert enrollments[..|enrollments|] == enrollments && Smallest(rules, minDays);
  }

  /** One enrollment: whether the query returns it, and what is dispatched for it. */
  method CheckEnrollment(rules: seq<TimedRule>, minDays: int, e: Touched, now: int) returns (counted: bool, found: seq<Dispatch>)
    requires forall r :: r in rules ==> minDays <= r.span
    ensures found == QuietDispatchesOf(rules, e, now) && |found| <= 1
    ensures counted <==> e.status.DONE? && e.updatedAt <= now - minDays * DAY_MS
    ensures !counted ==> found == []
  {
    counted := e.status.DONE? && e.updatedAt <= now - minDays * DAY_MS;
    found := [];
    if counted {
      var due := FilterDue(rules, QuietFor(e, now));
      if due != [] {
        found := [Dispatch(QuietEventId(e.id), due, now)];
      }
    } else if e.status.DONE? {
      NothingQuietBefore(rules, minDays, e, now);
    }
  }

  lemma NothingQuietBefore(rules: seq<TimedRule>, minDays: int, e: Touched, now: int)
    requires forall r :: r in rules ==> minDays <= r.span
    requires e.updatedAt > now - minDays * DAY_MS
    ensures Selected(rules, QuietFor(e, now)) == []
  {}

  lemma DaysQuiet(e: Touched, now: int, r: TimedRule)
    ensures QuietFor(e, now)(r) <==> now - LastTouch(e) >= r.span * DAY_MS
  {}

  // ---- What a dispatch means -------------------------------------------------------------

  /** The rule's hours before a booked meeting that is still ahead, of a known contact whose
      enrollment, if the meeting names one, is there and ACTIVE or DONE. */
  predicate DueBefore(rules: seq<TimedRule>, m: Meeting, now: int, r: TimedRule) {
    && r in rules && m.booked && m.hasContact
    && m.startAt - r.span * 60 * 60 * 1000 <= now < m.startAt
    && (m.enrollment.None? || m.enrollment.value == Some(ACTIVE) || m.enrollment.value == Some(DONE))
  }

  /** Some dispatch hands this rule to the engine under this event id. */
  predicate Hands(dispatches: seq<Dispatch>, eventId: Id, rule: Rule) {
    exists d :: d in dispatches && d.eventId == eventId && rule in d.rules
  }

  lemma HandsOneMore(dispatches: seq<Dispatch>, more: seq<Dispatch>, eventId: Id, rule: Rule)
    ensures Hands(dispatches + more, eventId, rule) <==> Hands(dispatches, eventId, rule) || Hands(more, eventId, rule)
  {}

  predicate SomeHands<T(!new)>(items: seq<T>, f: T -> seq<Dispatch>, eventId: Id, rule: Rule) {
    exists k :: 0 <= k < |items| && Hands(f(items[k]), eventId, rule)
  }

  lemma {:induction false} EachHands<T(!new)>(items: seq<T>, f: T -> seq<Dispatch>, eventId: Id, rule: Rule)
    ensures Hands(Each(items, f), eventId, rule) <==> SomeHands(items, f, eventId, rule)
  {
    if items != [] {
      var n := |items| - 1;
      EachHands(items[..n], f, eventId, rule);
      HandsOneMore(Each(items[..n], f), f(items[n]), eventId, rule);
      assert forall k :: 0 <= k < n ==> items[..n][k] == items[k];
    }
  }

  ghost predicate ReminderDue(rules: seq<TimedRule>, m: Meeting, now: int, eventId: Id, rule: Rule) {
    PremeetEventId(m.id, m.startAt) == eventId && exists r :: DueBefore(rules, m, now, r) && r.rule == rule
  }

  lemma OneMeeting(rules: seq<TimedRule>, m: Meeting, now: int, eventId: Id, rule: Rule)
    ensures Hands(RemindersOf(rules, m, now), eventId, rule) <==> ReminderDue(rules, m, now, eventId, rule)
  {
    var due := Selected(rules, BeforeMeeting(m, now));
    SelectedMeans(rules, BeforeMeeting(m, now), rule);
    assert Remindable(m, now) ==> (rule in due <==> exists r :: DueBefore(rules, m, now, r) && r.rule == rule);
    var d := Dispatch(PremeetEventId(m.id, m.startAt), due, now);
    assert d in [d];
  }

  /** The (rule, meeting) pairs handed to the engine are exactly the due ones. */
  lemma RemindersExact(rules: seq<TimedRule>, meetings: seq<Meeting>, now: int, eventId: Id, rule: Rule)
    ensures Hands(Reminders(rules, meetings, now), eventId, rule)
            <==> exists k :: 0 <= k < |meetings| && ReminderDue(rules, meetings[k], now, eventId, rule)
  {
    EachHands(meetings, (m: Meeting) => RemindersOf(rules, m, now), eventId, rule);
    forall k | 0 <= k < |meetings|
      ensures Hands(RemindersOf(rules, meetings[k], now), eventId, rule) <==> ReminderDue(rules, meetings[k], now, eventId, rule)
    {
      OneMeeting(rules, meetings[k], now, eventId, rule);
    }
  }

  lemma {:induction false} EachAt<T(!new)>(items: seq<T>, f: T -> seq<Dispatch>, now: int)
    requires forall x: T, d :: d in f(x) ==> d.at == now
    ensures forall d :: d in Each(items, f) ==> d.at == now
  {
    if items != [] {
      EachAt(items[..|items| - 1], f, now);
    }
  }

  /** Neither its own update nor any of its messages is less than so long ago; one that never
      got a message counts from the epoch. */
  predicate QuietSince(e: Touched, now: int, ms: int) {
    && now - e.updatedAt >= ms
    && (forall k :: 0 <= k < |e.sent| ==> now - e.sent[k] >= ms)
    && (e.sent == [] ==> now >= ms)
  }

  predicate QuietDue(rules: seq<TimedRule>, e: Touched, now: int, r: TimedRule) {
    r in rules && e.status.DONE? && QuietSince(e, now, r.span * 24 * 60 * 60 * 1000)
  }

  lemma {:induction false} LatestIsLast(times: seq<int>, bound: int)
    requires times != []
    ensures Latest(times) <= bound <==> forall k :: 0 <= k < |times| ==> times[k] <= bound
  {
    if |times| > 1 {
      LatestIsLast(times[..|times| - 1], bound);
    }
  }

  lemma QuietIff(e: Touched, now: int, ms: int)
    ensures now - LastTouch(e) >= ms <==> QuietSince(e, now, ms)
  {
    if e.sent != [] {
      LatestIsLast(e.sent, now - ms);
    }
  }

  ghost predicate QuietRuleDue(rules: seq<TimedRule>, e: Touched, now: int, eventId: Id, rule: Rule) {
    QuietEventId(e.id) == eventId && exists r :: QuietDue(rules, e, now, r) && r.rule == rule
  }

  lemma OneEnrollment(rules: seq<TimedRule>, e: Touched, now: int, eventId: Id, rule: Rule)
    ensures Hands(QuietDispatchesOf(rules, e, now), eventId, rule) <==> QuietRuleDue(rules, e, now, eventId, rule)
  {
    var due := Selected(rules, QuietFor(e, now));
    SelectedMeans(rules, QuietFor(e, now), rule);
    forall r: TimedRule
      ensures QuietFor(e, now)(r) <==> QuietSince(e, now, r.span * DAY_MS)
    {
      DaysQuiet(e, now, r);
      QuietIff(e, now, r.span * DAY_MS);
    }
    assert e.status.DONE? ==> (rule in due <==> exists r :: QuietDue(rules, e, now, r) && r.rule == rule);
    var d := Dispatch(QuietEventId(e.id), due, now);
    assert d in [d];
  }

  /** The (rule, enrollment) pairs found are exactly those of DONE enrollments whose last
      touch - update or message - is at least that rule's days ago. */
  lemma QuietExact(rules: seq<TimedRule>, enrollments: seq<Touched>, now: int, eventId: Id, rule: Rule)
    ensures Hands(QuietDispatches(rules, enrollments, now), eventId, rule)
            <==> exists k :: 0 <= k < |enrollments| && QuietRuleDue(rules, enrollments[k], now, eventId, rule)
  {
    EachHands(enrollments, (e: Touched) => QuietDispatchesOf(rules, e, now), eventId, rule);
    forall k | 0 <= k < |enrollments|
      ensures Hands(QuietDispatchesOf(rules, enrollments[k], now), eventId, rule) <==> QuietRuleDue(rules, enrollments[k], now, eventId, rule)
    {
      OneEnrollment(rules, enrollments[k], now, eventId, rule);
    }
  }

  // ---- Histories of dispatches -----------------------------------------------------------

  /** One dispatch as it went: what the stores and vendors answered, and where it died - by a
      crash of the worker or by an error the sweep logs and leaves to the next pass. */
  datatype Handled = Handled(dispatch: Dispatch, world: Ctx, cut: nat)

  /** A run row and the time it was recorded. */
  datatype Entry = Entry(key: RunKey, at: int)

  function StepsOf(runs: map<RunKey, Run>, p: Handled): seq<Step> {
    Cut(PlanPass(p.world.(eventId := p.dispatch.eventId), runs, false, p.dispatch.rules, 0).steps, p.cut)
  }

  function RunsOf(runs: map<RunKey, Run>, history: seq<Handled>): map<RunKey, Run> {
    if history == [] then runs else
    var before := RunsOf(runs, history[..|history| - 1]);
    RunsAfter(before, StepsOf(before, history[|history| - 1]))
  }

  function Recorded(steps: seq<Step>, at: int): seq<Entry> {
    if steps == [] then [] else
    (if steps[0].Record? then [Entry(steps[0].key, at)] else []) + Recorded(steps[1..], at)
  }

  /** Every row recorded over the history, in order. */
  function Log(runs: map<RunKey, Run>, history: seq<Handled>): seq<Entry> {
    if history == [] then [] else
    var front, last := history[..|history| - 1], history[|history| - 1];
    Log(runs, front) + Recorded(StepsOf(RunsOf(runs, front), last), last.dispatch.at)
  }

  predicate Distinct(log: seq<Entry>) { forall i, j :: 0 <= i < j < |log| ==> log[i].key != log[j].key }

  /** The entries are new, one a key, and afterwards their keys are taken. */
  ghost predicate FreshEntries(runs: map<RunKey, Run>, after: map<RunKey, Run>, log: seq<Entry>) {
    && Distinct(log)
    && (forall e :: e in log ==> e.key !in runs && e.key in after)
    && (forall k :: k in runs ==> k in after)
  }

  lemma {:induction false} ActsRecordNothing(steps: seq<Step>, rest: seq<Step>, at: int)
    requires ActsOnly(steps)
    ensures Recorded(steps + rest, at) == Recorded(rest, at)
  {
    if steps == [] {
      assert steps + rest == rest;
    } else {
      assert steps[0] in steps;
      assert (steps + rest)[1..] == steps[1..] + rest;
      ActsRecordNothing(steps[1..], rest, at);
    }
  }

  lemma FreshThenMore(runs: map<RunKey, Run>, key: RunKey, run: Run, after: map<RunKey, Run>, log: seq<Entry>, at: int)
    requires key !in runs && FreshEntries(runs[key := run], after, log)
    ensures FreshEntries(runs, after, [Entry(key, at)] + log)
  {}

  lemma {:induction false} PassRecordsFresh(w: Ctx, runs: map<RunKey, Run>, fired: bool, rules: seq<Rule>, depth: nat, n: nat, at: int)
    ensures var steps := Cut(PlanPass(w, runs, fired, rules, depth).steps, n);
            && FreshEntries(runs, RunsAfter(runs, steps), Recorded(steps, at))
            && forall e :: e in Recorded(steps, at) ==> e.at == at && e.key.eventId == w.eventId && exists r :: r in rules && e.key == KeyOf(w, r)
    decreases |rules|
  {
    if rules != [] {
      var key := KeyOf(w, rules[0]);
      if key in runs {
        PassRecordsFresh(w, runs, fired || runs[key].terminal, rules[1..], depth, n, at);
      } else {
        var p := PlanRule(w, fired, rules[0], depth);
        var run := RunOf(p, depth);
        var rest := PlanPass(w, runs[key := run], p.fired, rules[1..], depth);
        CutAtRule(w, runs, fired, rules[0], depth, key, run, rest.steps, n);
        if n > |p.steps| {
          var m := n - |p.steps| - 1;
          PassRecordsFresh(w, runs[key := run], p.fired, rules[1..], depth, m, at);
          RowThenRest(p.steps, key, run, Cut(rest.steps, m), at);
          FreshThenMore(runs, key, run, RunsAfter(runs[key := run], Cut(rest.steps, m)), Recorded(Cut(rest.steps, m), at), at);
        } else {
          assert Cut(p.steps, n) + [] == Cut(p.steps, n);
          ActsRecordNothing(Cut(p.steps, n), [], at);
        }
      }
    }
  }

  lemma RowThenRest(acts: seq<Step>, key: RunKey, run: Run, rest: seq<Step>, at: int)
    requires ActsOnly(acts)
    ensures Recorded(acts + [Record(key, run)] + rest, at) == [Entry(key, at)] + Recorded(rest, at)
  {
    assert acts + [Record(key, run)] + rest == acts + ([Record(key, run)] + rest);
    ActsRecordNothing(acts, [Record(key, run)] + rest, at);
    assert ([Record(key, run)] + rest)[1..] == rest;
  }

  lemma FreshJoin(a: map<RunKey, Run>, b: map<RunKey, Run>, c: map<RunKey, Run>, x: seq<Entry>, y: seq<Entry>)
    requires FreshEntries(a, b, x) && FreshEntries(b, c, y)
    ensures FreshEntries(a, c, x + y)
  {}

  /** Over any schedule of passes, crashed, failed or repeated, no rule is recorded twice for
      the same synthetic event. */
  lemma {:induction false} FiresOnce(runs: map<RunKey, Run>, history: seq<Handled>)
    ensures FreshEntries(runs, RunsOf(runs, history), Log(runs, history))
  {
    if history != [] {
      var front, last := history[..|history| - 1], history[|history| - 1];
      var before := RunsOf(runs, front);
      FiresOnce(runs, front);
      PassRecordsFresh(last.world.(eventId := last.dispatch.eventId), before, false, last.dispatch.rules, 0, last.cut, last.dispatch.at);
      FreshJoin(runs, before, RunsOf(runs, history), Log(runs, front), Recorded(StepsOf(before, last), last.dispatch.at));
    }
  }

  lemma {:induction false} LogFromDispatches(runs: map<RunKey, Run>, history: seq<Handled>, e: Entry)
    requires e in Log(runs, history)
    ensures exists p :: p in history && e.at == p.dispatch.at && e.key.eventId == p.dispatch.eventId
                        && exists r :: r in p.dispatch.rules && e.key.rule == r.ref
  {
    var front, last := history[..|history| - 1], history[|history| - 1];
    if e in Log(runs, front) {
      LogFromDispatches(runs, front, e);
    } else {
      PassRecordsFresh(last.world.(eventId := last.dispatch.eventId), RunsOf(runs, front), false, last.dispatch.rules, 0, last.cut, last.dispatch.at);
      assert last in history;
    }
  }

  /** The dispatch came from a before-meeting pass over these rules: the meetings may have
      been any at that time. */
  ghost predicate FromMeetingPass(rules: seq<TimedRule>, d: Dispatch) {
    exists meetings, now :: d in Reminders(rules, meetings, now)
  }

  lemma DispatchInWindow(rules: seq<TimedRule>, d: Dispatch, rule: Rule)
    requires FromMeetingPass(rules, d) && rule in d.rules
    ensures exists m :: ReminderDue(rules, m, d.at, d.eventId, rule)
  {
    var meetings, now :| d in Reminders(rules, meetings, now);
    EachAt(meetings, (m: Meeting) => RemindersOf(rules, m, now), now);
    RemindersExact(rules, meetings, now, d.eventId, rule);
  }

  /** The entry is of rule r for meeting m, made before the start but no earlier than the
      rule's hours before it. */
  predicate InWindow(rules: seq<TimedRule>, m: Meeting, r: TimedRule, e: Entry) {
    && r in rules && r.rule.ref == e.key.rule && e.key.eventId == PremeetEventId(m.id, m.startAt)
    && Remindable(m, e.at) && m.startAt - r.span * HOUR_MS <= e.at < m.startAt
  }

  /** Whenever a before-meeting rule is recorded, that is inside its window: for a
      remindable meeting still ahead, no earlier than the rule's hours before it. */
  lemma RecordedInWindow(rules: seq<TimedRule>, runs: map<RunKey, Run>, history: seq<Handled>, e: Entry)
    requires forall p :: p in history ==> FromMeetingPass(rules, p.dispatch)
    ensures e in Log(runs, history) ==> exists m, r :: InWindow(rules, m, r, e)
  {
    if e in Log(runs, history) {
      LogFromDispatches(runs, history, e);
      var p :| p in history && e.at == p.dispatch.at && e.key.eventId == p.dispatch.eventId
               && exists r :: r in p.dispatch.rules && e.key.rule == r.ref;
      var rule :| rule in p.dispatch.rules && e.key.rule == rule.ref;
      DispatchInWindow(rules, p.dispatch, rule);
      var m :| ReminderDue(rules, m, p.dispatch.at, p.dispatch.eventId, rule);
      var r :| DueBefore(rules, m, p.dispatch.at, r) && r.rule == rule;
      assert InWindow(rules, m, r, e);
    }
  }

  ghost predicate FromQuietPass(rules: seq<TimedRule>, d: Dispatch) {
    exists enrollments, now :: d in QuietDispatches(rules, enrollments, now)
  }

  /** The entry is of rule r for the enrollment, made when it was DONE and last touched at
      least the rule's days before. */
  predicate WhenQuiet(rules: seq<TimedRule>, t: Touched, r: TimedRule, e: Entry) {
    && r in rules && r.rule.ref == e.key.rule && e.key.eventId == QuietEventId(t.id)
    && t.status.DONE? && QuietSince(t, e.at, r.span * 24 * 60 * 60 * 1000)
  }

  lemma DispatchWhenQuiet(rules: seq<TimedRule>, d: Dispatch, rule: Rule)
    requires FromQuietPass(rules, d) && rule in d.rules
    ensures exists t :: QuietRuleDue(rules, t, d.at, d.eventId, rule)
  {
    var enrollments, now :| d in QuietDispatches(rules, enrollments, now);
    EachAt(enrollments, (t: Touched) => QuietDispatchesOf(rules, t, now), now);
    QuietExact(rules, enrollments, now, d.eventId, rule);
  }

  /** Whenever a quiet rule is recorded, the enrollment was DONE and quiet for long enough. */
  lemma RecordedWhenQuiet(rules: seq<TimedRule>, runs: map<RunKey, Run>, history: seq<Handled>, e: Entry)
    requires forall p :: p in history ==> FromQuietPass(rules, p.dispatch)
    ensures e in Log(runs, history) ==> exists t, r :: WhenQuiet(rules, t, r, e)
  {
    if e in Log(runs, history) {
      LogFromDispatches(runs, history, e);
      var p :| p in history && e.at == p.dispatch.at && e.key.eventId == p.dispatch.eventId
               && exists r :: r in p.dispatch.rules && e.key.rule == r.ref;
      var rule :| rule in p.dispatch.rules && e.key.rule == rule.ref;
      DispatchWhenQuiet(rules, p.dispatch, rule);
      var t :| QuietRuleDue(rules, t, p.dispatch.at, p.dispatch.eventId, rule);
      var r :| QuietDue(rules, t, p.dispatch.at, r) && r.rule == rule;
      assert WhenQuiet(rules, t, r, e);
    }
  }

  /** A dispatch that runs through records every rule it carries, unless it was recorded
      before: a meeting moved to another second is another key and is reminded anew, one
      moved within the second is not. */
  lemma CompleteRecordsAll(runs: map<RunKey, Run>, history: seq<Handled>, p: Handled)
    requires p.cut >= |PlanPass(p.world.(eventId := p.dispatch.eventId), RunsOf(runs, history), false, p.dispatch.rules, 0).steps|
    ensures forall r :: r in p.dispatch.rules ==> RunKey(r.ref, p.dispatch.eventId) in RunsOf(runs, history + [p])
  {
    var w := p.world.(eventId := p.dispatch.eventId);
    assert (history + [p])[..|history|] == history;
    PassRecordsAll(w, RunsOf(runs, history), false, p.dispatch.rules, 0);
    forall r | r in p.dispatch.rules
      ensures RunKey(r.ref, p.dispatch.eventId) in RunsOf(runs, history + [p])
    {
      assert KeyOf(w, r) == RunKey(r.ref, p.dispatch.eventId);
    }
  }

  /** Re-arming: after the rule was recorded for one start, a complete dispatch for another
      start of the same meeting, the first for that start, records it again if and only if
      the second differs - whatever else the sweeps dispatched in between. */
  lemma RearmsIff(runs: map<RunKey, Run>, history: seq<Handled>, p: Handled, meeting: Id, old_: int, start: int, rule: Rule)
    requires forall q :: q in history ==> q.dispatch.eventId == PremeetEventId(meeting, start) ==> old_ / 1000 == start / 1000
    requires forall k :: k in runs ==> k.eventId != PremeetEventId(meeting, start)
    requires RunKey(rule.ref, PremeetEventId(meeting, old_)) in RunsOf(runs, history)
    requires p.dispatch.eventId == PremeetEventId(meeting, start) && rule in p.dispatch.rules
    requires p.cut >= |PlanPass(p.world.(eventId := p.dispatch.eventId), RunsOf(runs, history), false, p.dispatch.rules, 0).steps|
    ensures (RunKey(rule.ref, p.dispatch.eventId) !in RunsOf(runs, history) && RunKey(rule.ref, p.dispatch.eventId) in RunsOf(runs, history + [p]))
            <==> old_ / 1000 != start / 1000
  {
    PremeetIdIff(meeting, old_, meeting, start);
    CompleteRecordsAll(runs, history, p);
    if old_ / 1000 != start / 1000 {
      OtherEventsUntouched(runs, history, PremeetEventId(meeting, start));
    }
  }

  lemma {:induction false} OtherEventsUntouched(runs: map<RunKey, Run>, history: seq<Handled>, eventId: Id)
    requires forall k :: k in runs ==> k.eventId != eventId
    requires forall q :: q in history ==> q.dispatch.eventId != eventId
    ensures forall k :: k in RunsOf(runs, history) ==> k.eventId != eventId
  {
    if history != [] {
      var front, last := history[..|history| - 1], history[|history| - 1];
      OtherEventsUntouched(runs, front, eventId);
      assert last in history;
      StepsKeepEvent(last.world.(eventId := last.dispatch.eventId), RunsOf(runs, front), false, last.dispatch.rules, 0, last.cut, eventId);
    }
  }

  lemma {:induction false} StepsKeepEvent(w: Ctx, runs: map<RunKey, Run>, fired: bool, rules: seq<Rule>, depth: nat, n: nat, eventId: Id)
    requires w.eventId != eventId && forall k :: k in runs ==> k.eventId != eventId
    ensures forall k :: k in RunsAfter(runs, Cut(PlanPass(w, runs, fired, rules, depth).steps, n)) ==> k.eventId != eventId
    decreases |rules|
  {
    if rules != [] {
      var key := KeyOf(w, rules[0]);
      if key in runs {
        StepsKeepEvent(w, runs, fired || runs[key].terminal, rules[1..], depth, n, eventId);
      } else {
        var p := PlanRule(w, fired, rules[0], depth);
        var run := RunOf(p, depth);
        var rest := PlanPass(w, runs[key := run], p.fired, rules[1..], depth);
        CutAtRule(w, runs, fired, rules[0], depth, key, run, rest.steps, n);
        if n > |p.steps| {
          StepsKeepEvent(w, runs[key := run], p.fired, rules[1..], depth, n - |p.steps| - 1, eventId);
        }
      }
    }
  }
}
