/** What the stored rows say after any run of a delivery's steps, told from the actions
    that were applied: which action each field comes from. */
module WrittenFields {
  import opened Options
  import opened RuleModel
  import opened RulePlan
  import opened CrashAbsorption
  import opened TerminalDiscipline
  import opened CrashRecovery
  import opened LostMarks

  /** Every step is one that some pass of this event plans: a pass, a part of one cut off by
      a crash, or any number of them one after the other. */
  ghost predicate Planned(w: Ctx, steps: seq<Step>) {
    forall s :: s in steps ==> InSomePass(w, s)
  }

  ghost predicate InSomePass(w: Ctx, s: Step) {
    exists runs, fired, rules, depth :: s in PlanPass(w, runs, fired, rules, depth).steps
  }

  /** The last step for which f holds, if any. */
  function LastOf(steps: seq<Step>, f: Step -> bool): Option<Step> {
    if steps == [] then None
    else if f(steps[|steps| - 1]) then Some(steps[|steps| - 1])
    else LastOf(steps[..|steps| - 1], f)
  }

  lemma LastOfNext(front: seq<Step>, s: Step, f: Step -> bool)
    ensures LastOf(front + [s], f) == if f(s) then Some(s) else LastOf(front, f)
  {
    assert (front + [s])[..|front|] == front;
  }

  predicate IsLast(steps: seq<Step>, k: nat, f: Step -> bool) {
    k < |steps| && f(steps[k]) && forall j :: k < j < |steps| ==> !f(steps[j])
  }

  lemma {:induction false} LastOfMeans(steps: seq<Step>, f: Step -> bool)
    ensures match LastOf(steps, f)
            case None => forall s :: s in steps ==> !f(s)
            case Some(s) => exists k: nat :: IsLast(steps, k, f) && steps[k] == s
  {
    if steps != [] {
      var n := |steps| - 1;
      if f(steps[n]) {
        assert IsLast(steps, n, f);
      } else {
        LastOfMeans(steps[..n], f);
        assert steps == steps[..n] + [steps[n]];
        if LastOf(steps, f).Some? {
          var k: nat :| IsLast(steps[..n], k, f) && steps[..n][k] == LastOf(steps, f).value;
          assert IsLast(steps, k, f);
        }
      }
    }
  }

  /** The first. */
  function FirstOf(steps: seq<Step>, f: Step -> bool): Option<Step> {
    if steps == [] then None else if f(steps[0]) then Some(steps[0]) else FirstOf(steps[1..], f)
  }

  lemma {:induction false} FirstOfNext(front: seq<Step>, s: Step, f: Step -> bool)
    ensures FirstOf(front + [s], f) == if FirstOf(front, f).Some? then FirstOf(front, f) else if f(s) then Some(s) else None
  {
    if front == [] {
      assert [] + [s] == [s] && [s][1..] == [];
    } else {
      assert (front + [s])[1..] == front[1..] + [s];
      FirstOfNext(front[1..], s, f);
    }
  }

  predicate Did(s: Step) { s.Act? && s.verdict == Applied }
  predicate DidStatus(s: Step) { Did(s) && (s.action.EndEnrollment? || s.action.PauseEnrollment? || s.action.SuppressContact?) }
  predicate DidPause(s: Step) { Did(s) && s.action.PauseEnrollment? }
  predicate DidSuppress(s: Step) { Did(s) && s.action.SuppressContact? }
  predicate DidStage(s: Step) { Did(s) && s.action.SetStage? }
  predicate DidBooking(s: Step) { Did(s) && s.action.SendBookingLink? }
  predicate DidPayment(s: Step) { Did(s) && s.action.SendPaymentLink? }

  /** The push reached the CRM, which answered with a deal id. */
  predicate DidDeal(w: Ctx, s: Step) {
    Did(s) && s.action.CreateCrmDeal? && w.contact.Present? && w.hasEmail && w.crmWired && s.site in w.deals
  }

  function DidDealIn(w: Ctx): Step -> bool { s => DidDeal(w, s) }

  predicate DidTag(s: Step, tag: string) { Did(s) && s.action == AddTag(tag) }

  // ---- What a planned step writes -----------------------------------------------------

  predicate Sourced(w: Ctx, s: Step) {
    s.Act? ==> if s.verdict == Applied && !s.action.RunAutomation? then EffectOf(w, s.site, s.action) == Some(s.effect)
               else s.effect == NoEffect
  }

  lemma {:induction false} ListSourced(w: Ctx, fired: bool, rule: RuleRef, base: Path, i: nat, rest: seq<Action>, depth: nat)
    requires depth <= MAX_RULE_CAUSATION_DEPTH
    ensures forall s :: s in PlanActions(w, fired, rule, base, i, rest, depth).steps ==> Sourced(w, s)
    decreases MAX_RULE_CAUSATION_DEPTH - depth, |rest|
  {
    if rest != [] {
      var site, a := Site(rule, base + [At(i)]), rest[0];
      var p := PlanAction(w, fired, site, a, depth);
      if RunsNested(w, site, a, depth) {
        NestedSteps(w, fired, site, a, depth);
        ListSourced(w, fired, rule, NestedBase(site, a), 0, w.automations[a.automationId].actions, depth + 1);
      }
      ListSourced(w, p.fired, rule, base, i + 1, rest[1..], depth);
    }
  }

  lemma {:induction false} PassSourced(w: Ctx, runs: map<RunKey, Run>, fired: bool, rules: seq<Rule>, depth: nat)
    ensures forall s :: s in PlanPass(w, runs, fired, rules, depth).steps ==> Sourced(w, s)
    decreases |rules|
  {
    if rules != [] {
      var key := RunKey(rules[0].ref, w.eventId);
      if key in runs {
        PassSourced(w, runs, fired || runs[key].terminal, rules[1..], depth);
      } else {
        var p := PlanRule(w, fired, rules[0], depth);
        if depth <= MAX_RULE_CAUSATION_DEPTH {
          ListSourced(w, fired, rules[0].ref, [], 0, rules[0].actions, depth);
        }
        PassSourced(w, runs[key := RunOf(p, depth)], p.fired, rules[1..], depth);
      }
    }
  }

  lemma PlannedSourced(w: Ctx, s: Step)
    requires InSomePass(w, s)
    ensures Sourced(w, s)
  {
    var runs, fired, rules, depth :| s in PlanPass(w, runs, fired, rules, depth).steps;
    PassSourced(w, runs, fired, rules, depth);
  }

  // ---- The enrollment -------------------------------------------------------------------

  function StatusBy(a: Action, start: Status): Status {
    if a.EndEnrollment? then DONE else if a.PauseEnrollment? then PAUSED else if a.SuppressContact? then UNSUBSCRIBED else start
  }

  predicate StatusTold(before: Status, after: Status, steps: seq<Step>) {
    match LastOf(steps, DidStatus)
    case None => after == before
    case Some(s) => s.Act? && after == StatusBy(s.action, before)
  }

  predicate BlockedTold(before: Option<Id>, after: Option<Id>, steps: seq<Step>) {
    match LastOf(steps, DidPause)
    case None => after == before
    case Some(s) => s.Act? && after == Some(s.site.rule.id)
  }

  predicate StageTold(before: string, after: string, steps: seq<Step>) {
    match LastOf(steps, DidStage)
    case None => after == before
    case Some(s) => s.Act? && s.action == SetStage(after)
  }

  predicate DealTold(w: Ctx, before: Option<string>, after: Option<string>, steps: seq<Step>) {
    match LastOf(steps, DidDealIn(w))
    case None => after == before
    case Some(s) => s.Act? && s.site in w.deals && after == Some(w.deals[s.site])
  }

  predicate RaisedBy(before: bool, after: bool, steps: seq<Step>, f: Step -> bool) {
    after <==> before || LastOf(steps, f).Some?
  }

  /** Field by field: the last applied action of the kinds that write it decides, and
      without one the field is as it was. */
  predicate EnrollmentTold(w: Ctx, before: Enrollment, after: Enrollment, steps: seq<Step>) {
    && StatusTold(before.status, after.status, steps)
    && BlockedTold(before.blocked, after.blocked, steps)
    && StageTold(before.stage, after.stage, steps)
    && DealTold(w, before.crmDealId, after.crmDealId, steps)
    && RaisedBy(before.bookingLinkRequested, after.bookingLinkRequested, steps, DidBooking)
    && RaisedBy(before.paymentLinkRequested, after.paymentLinkRequested, steps, DidPayment)
  }

  lemma {:induction false} EnrollmentTellsActions(w: Ctx, db: Db, steps: seq<Step>)
    requires Fits(w, db) && Planned(w, steps)
    ensures var after := Fold(db, steps).enrollment;
            if db.enrollment.Some? then after.Some? && EnrollmentTold(w, db.enrollment.value, after.value, steps) else after.None?
    decreases |steps|
  {
    if steps != [] {
      var n := |steps| - 1;
      var front, s := steps[..n], steps[n];
      assert steps == front + [s] && s in steps;
      FoldConcat(db, front, [s]);
      FoldFits(w, db, front);
      EnrollmentTellsActions(w, db, front);
      PlannedSourced(w, s);
      assert Fold(Fold(db, front), [s]) == Apply(Fold(db, front), s);
      if db.enrollment.Some? {
        EnrollmentStep(w, db.enrollment.value, Fold(db, front).enrollment.value, front, s);
      }
    }
  }

  function AfterStep(mid: Enrollment, s: Step): Enrollment { if s.Act? then ApplyToEnrollment(mid, s.effect) else mid }

  lemma EnrollmentStep(w: Ctx, before: Enrollment, mid: Enrollment, front: seq<Step>, s: Step)
    requires EnrollmentTold(w, before, mid, front) && Sourced(w, s) && w.enrollment.Present?
    ensures EnrollmentTold(w, before, AfterStep(mid, s), front + [s])
  {
    StatusStep(w, before.status, mid, front, s);
    BlockedStep(w, before.blocked, mid, front, s);
    StageStep(w, before.stage, mid, front, s);
    DealStep(w, before.crmDealId, mid, front, s);
    BookingStep(w, before.bookingLinkRequested, mid, front, s);
    PaymentStep(w, before.paymentLinkRequested, mid, front, s);
  }

  lemma StatusStep(w: Ctx, before: Status, mid: Enrollment, front: seq<Step>, s: Step)
    requires StatusTold(before, mid.status, front) && Sourced(w, s) && w.enrollment.Present?
    ensures StatusTold(before, AfterStep(mid, s).status, front + [s])
  {
    LastOfNext(front, s, DidStatus);
  }

  lemma BlockedStep(w: Ctx, before: Option<Id>, mid: Enrollment, front: seq<Step>, s: Step)
    requires BlockedTold(before, mid.blocked, front) && Sourced(w, s) && w.enrollment.Present?
    ensures BlockedTold(before, AfterStep(mid, s).blocked, front + [s])
  {
    LastOfNext(front, s, DidPause);
  }

  lemma StageStep(w: Ctx, before: string, mid: Enrollment, front: seq<Step>, s: Step)
    requires StageTold(before, mid.stage, front) && Sourced(w, s) && w.enrollment.Present?
    ensures StageTold(before, AfterStep(mid, s).stage, front + [s])
  {
    LastOfNext(front, s, DidStage);
  }

  lemma DealStep(w: Ctx, before: Option<string>, mid: Enrollment, front: seq<Step>, s: Step)
    requires DealTold(w, before, mid.crmDealId, front) && Sourced(w, s) && w.enrollment.Present?
    ensures DealTold(w, before, AfterStep(mid, s).crmDealId, front + [s])
  {
    LastOfNext(front, s, DidDealIn(w));
  }

  lemma BookingStep(w: Ctx, before: bool, mid: Enrollment, front: seq<Step>, s: Step)
    requires RaisedBy(before, mid.bookingLinkRequested, front, DidBooking) && Sourced(w, s) && w.enrollment.Present?
    ensures RaisedBy(before, AfterStep(mid, s).bookingLinkRequested, front + [s], DidBooking)
  {
    LastOfNext(front, s, DidBooking);
  }

  lemma PaymentStep(w: Ctx, before: bool, mid: Enrollment, front: seq<Step>, s: Step)
    requires RaisedBy(before, mid.paymentLinkRequested, front, DidPayment) && Sourced(w, s) && w.enrollment.Present?
    ensures RaisedBy(before, AfterStep(mid, s).paymentLinkRequested, front + [s], DidPayment)
  {
    LastOfNext(front, s, DidPayment);
  }

  // ---- The contact and the suppression list --------------------------------------------

  /** Tags are the old ones, then each applied one that was not there, once. */
  ghost predicate TagsTold(before: seq<string>, after: seq<string>, steps: seq<Step>) {
    && before <= after
    && (forall t :: t in after <==> t in before || Tagged(steps, t))
    && (forall i, j :: 0 <= i < j < |after| && |before| <= j ==> after[i] != after[j])
  }

  predicate Tagged(steps: seq<Step>, tag: string) { exists s :: s in steps && DidTag(s, tag) }

  ghost predicate ContactTold(before: Contact, after: Contact, steps: seq<Step>) {
    && after.email == before.email && after.phone == before.phone
    && TagsTold(before.tags, after.tags, steps)
    && (Email in after.optOut <==> Email in before.optOut || (before.email.Some? && FirstOf(steps, DidSuppress).Some?))
    && (Sms in after.optOut <==> Sms in before.optOut || (before.phone.Some? && FirstOf(steps, DidSuppress).Some?))
  }

  predicate AddressOf(c: Contact, a: Address) {
    if a.channel.Email? then c.email == Some(a.address) else c.phone == Some(a.address)
  }

  /** Rows stay as they were; the first suppression adds one, in its rule's name, for each of
      the contact's addresses that had none. */
  ghost predicate SuppressionsTold(c: Contact, before: map<Address, Id>, after: map<Address, Id>, steps: seq<Step>) {
    && (forall a :: a in after <==> a in before || (AddressOf(c, a) && FirstOf(steps, DidSuppress).Some?))
    && (forall a :: a in before && a in after ==> after[a] == before[a])
    && (forall a :: a in after && a !in before ==>
          var s := FirstOf(steps, DidSuppress); s.Some? && s.value.Act? && after[a] == s.value.site.rule.id)
  }

  lemma {:induction false} ContactTellsActions(w: Ctx, db: Db, steps: seq<Step>)
    requires Fits(w, db) && Planned(w, steps)
    ensures var after := Fold(db, steps);
            if db.contact.Some? then
              && after.contact.Some? && ContactTold(db.contact.value, after.contact.value, steps)
              && SuppressionsTold(db.contact.value, db.suppressions, after.suppressions, steps)
            else after.contact.None? && after.suppressions == db.suppressions
    decreases |steps|
  {
    if steps != [] {
      var n := |steps| - 1;
      var front, s := steps[..n], steps[n];
      assert steps == front + [s] && s in steps;
      var mid := Fold(db, front);
      FoldConcat(db, front, [s]);
      FoldFits(w, db, front);
      ContactTellsActions(w, db, front);
      PlannedSourced(w, s);
      assert Fold(mid, [s]) == Apply(mid, s);
      if db.contact.Some? && s.Act? {
        ContactStep(w, db.contact.value, mid.contact.value, front, s);
        SuppressionsStep(w, db.contact.value, mid.contact.value, db.suppressions, mid.suppressions, front, s);
      } else if db.contact.Some? {
        RowWritesNothing(db.contact.value, db.suppressions, mid.contact.value, mid.suppressions, front, s);
      }
    }
  }

  lemma RowWritesNothing(c: Contact, m: map<Address, Id>, d: Contact, n: map<Address, Id>, front: seq<Step>, s: Step)
    requires s.Record? && ContactTold(c, d, front) && SuppressionsTold(c, m, n, front)
    ensures ContactTold(c, d, front + [s]) && SuppressionsTold(c, m, n, front + [s])
  {
    FirstOfNext(front, s, DidSuppress);
    forall t
      ensures Tagged(front + [s], t) <==> Tagged(front, t)
    {
      TaggedNext(front, s, t);
    }
  }

  lemma TaggedNext(front: seq<Step>, s: Step, tag: string)
    ensures Tagged(front + [s], tag) <==> Tagged(front, tag) || DidTag(s, tag)
  {
    assert forall t :: t in front + [s] <==> t in front || t == s;
  }

  lemma TagsStep(w: Ctx, before: seq<string>, mid: Contact, front: seq<Step>, s: Step)
    requires s.Act? && TagsTold(before, mid.tags, front) && Sourced(w, s) && w.contact.Present?
    ensures TagsTold(before, ApplyToContact(mid, s.effect).tags, front + [s])
  {
    forall t
      ensures Tagged(front + [s], t) <==> Tagged(front, t) || DidTag(s, t)
    {
      TaggedNext(front, s, t);
    }
  }

  lemma ContactStep(w: Ctx, before: Contact, mid: Contact, front: seq<Step>, s: Step)
    requires s.Act? && ContactTold(before, mid, front) && Sourced(w, s) && w.contact.Present?
    ensures ContactTold(before, ApplyToContact(mid, s.effect), front + [s])
  {
    FirstOfNext(front, s, DidSuppress);
    TagsStep(w, before.tags, mid, front, s);
  }

  lemma SuppressionsStep(w: Ctx, c: Contact, d: Contact, before: map<Address, Id>, mid: map<Address, Id>, front: seq<Step>, s: Step)
    requires s.Act? && SuppressionsTold(c, before, mid, front) && Sourced(w, s) && w.contact.Present?
    requires d.email == c.email && d.phone == c.phone
    ensures SuppressionsTold(c, before, ApplyToSuppressions(mid, d, s.effect), front + [s])
  {
    FirstOfNext(front, s, DidSuppress);
    assert forall a :: a in Addresses(d) <==> AddressOf(c, a);
  }

  // ---- A delivery and what follows it ----------------------------------------------------

  /** A delivery, complete or cut off by a crash, leaves in every row what its applied
      actions say; and so does any number of deliveries of the event, one after the other. */
  lemma DeliveriesTellActions(w: Ctx, db: Db, rules: seq<Rule>, depth: nat, crashes: seq<nat>)
    requires Fits(w, db)
    ensures var steps := Trace(w, db.runs, rules, depth, crashes);
            && Planned(w, steps)
            && var after := Fold(db, steps);
            && after == History(w, db, rules, depth, crashes)
            && (db.enrollment.Some? ==> after.enrollment.Some? && EnrollmentTold(w, db.enrollment.value, after.enrollment.value, steps))
            && (db.contact.Some? ==>
                  && after.contact.Some? && ContactTold(db.contact.value, after.contact.value, steps)
                  && SuppressionsTold(db.contact.value, db.suppressions, after.suppressions, steps))
  {
    var steps := Trace(w, db.runs, rules, depth, crashes);
    TraceIsPlanned(w, db, rules, depth, crashes);
    EnrollmentTellsActions(w, db, steps);
    ContactTellsActions(w, db, steps);
  }

  lemma {:induction false} TraceIsPlanned(w: Ctx, db: Db, rules: seq<Rule>, depth: nat, crashes: seq<nat>)
    ensures var steps := Trace(w, db.runs, rules, depth, crashes);
            Planned(w, steps) && Fold(db, steps) == History(w, db, rules, depth, crashes)
    decreases |crashes|
  {
    if crashes != [] {
      var all := PlanPass(w, db.runs, false, rules, depth).steps;
      var done := Cut(all, crashes[0]);
      var next := Fold(db, done);
      FoldRuns(db, done);
      TraceIsPlanned(w, next, rules, depth, crashes[1..]);
      FoldConcat(db, done, Trace(w, next.runs, rules, depth, crashes[1..]));
      assert forall s :: s in done ==> s in all;
    }
  }
}
