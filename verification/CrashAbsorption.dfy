/** At-least-once delivery: a delivery that dies after any step and is delivered again
    leaves the same rows as one that ran through. */
module CrashAbsorption {
  import opened Options
  import opened RuleModel
  import opened RulePlan

  predicate ActsOnly(steps: seq<Step>) { forall s :: s in steps ==> s.Act? }

  lemma {:induction false} FoldConcat(db: Db, a: seq<Step>, b: seq<Step>)
    ensures Fold(db, a + b) == Fold(Fold(db, a), b)
    decreases |a|
  {
    if a == [] {
      assert a + b == b;
    } else {
      assert (a + b)[1..] == a[1..] + b;
      FoldConcat(Apply(db, a[0]), a[1..], b);
    }
  }

  lemma {:induction false} ActsKeepRuns(db: Db, steps: seq<Step>)
    requires ActsOnly(steps)
    ensures Fold(db, steps).runs == db.runs
    decreases |steps|
  {
    if steps != [] {
      assert steps[0] in steps;
      ActsKeepRuns(Apply(db, steps[0]), steps[1..]);
    }
  }

  lemma {:induction false} FoldFits(w: Ctx, db: Db, steps: seq<Step>)
    requires Fits(w, db)
    ensures Fits(w, Fold(db, steps))
    decreases |steps|
  {
    if steps != [] {
      FoldFits(w, Apply(db, steps[0]), steps[1..]);
    }
  }

  // ---- Each stored component after a run of writes -----------------------------------

  function FoldEnrollment(e: Enrollment, steps: seq<Step>): Enrollment
    decreases |steps|
  {
    if steps == [] then e
    else FoldEnrollment(if steps[0].Act? then ApplyToEnrollment(e, steps[0].effect) else e, steps[1..])
  }

  /** From start values b1, b2 to end values a1, a2: overwritten alike, or untouched. */
  predicate Overwritten<T(==)>(b1: T, b2: T, a1: T, a2: T) {
    a1 == a2 || (a1 == b1 && a2 == b2)
  }

  predicate AllOverwritten(e1: Enrollment, e2: Enrollment, f1: Enrollment, f2: Enrollment) {
    && Overwritten(e1.status, e2.status, f1.status, f2.status)
    && Overwritten(e1.stage, e2.stage, f1.stage, f2.stage)
    && Overwritten(e1.blocked, e2.blocked, f1.blocked, f2.blocked)
    && Overwritten(e1.crmDealId, e2.crmDealId, f1.crmDealId, f2.crmDealId)
    && Overwritten(e1.bookingLinkRequested, e2.bookingLinkRequested, f1.bookingLinkRequested, f2.bookingLinkRequested)
    && Overwritten(e1.paymentLinkRequested, e2.paymentLinkRequested, f1.paymentLinkRequested, f2.paymentLinkRequested)
  }

  lemma OverwrittenTransitive(e1: Enrollment, e2: Enrollment, g1: Enrollment, g2: Enrollment, f1: Enrollment, f2: Enrollment)
    requires AllOverwritten(e1, e2, g1, g2) && AllOverwritten(g1, g2, f1, f2)
    ensures AllOverwritten(e1, e2, f1, f2)
  {}

  /** Every field either is untouched by the run or no longer depends on where it began. */
  lemma {:induction false} FieldsAreOverwritten(e1: Enrollment, e2: Enrollment, steps: seq<Step>)
    ensures AllOverwritten(e1, e2, FoldEnrollment(e1, steps), FoldEnrollment(e2, steps))
    decreases |steps|
  {
    if steps != [] && steps[0].Act? {
      var g1, g2 := ApplyToEnrollment(e1, steps[0].effect), ApplyToEnrollment(e2, steps[0].effect);
      assert AllOverwritten(e1, e2, g1, g2);
      FieldsAreOverwritten(g1, g2, steps[1..]);
      OverwrittenTransitive(e1, e2, g1, g2, FoldEnrollment(g1, steps[1..]), FoldEnrollment(g2, steps[1..]));
    } else if steps != [] {
      FieldsAreOverwritten(e1, e2, steps[1..]);
    }
  }

  function FoldContact(c: Contact, steps: seq<Step>): Contact
    decreases |steps|
  {
    if steps == [] then c
    else FoldContact(if steps[0].Act? then ApplyToContact(c, steps[0].effect) else c, steps[1..])
  }

  /** A contact that has absorbed a write: applying it again changes nothing. */
  predicate HasContact(c: Contact, f: Effect) {
    && (f.Tag? ==> f.tag in c.tags)
    && (f.Suppress? ==> Channels(c) <= c.optOut)
  }

  lemma {:induction false} ContactGrows(c: Contact, steps: seq<Step>)
    ensures var d := FoldContact(c, steps);
            && d.email == c.email && d.phone == c.phone
            && c.optOut <= d.optOut
            && c.tags <= d.tags
            && (forall s :: s in steps && s.Act? ==> HasContact(d, s.effect))
    decreases |steps|
  {
    if steps != [] {
      var s := steps[0];
      var c' := if s.Act? then ApplyToContact(c, s.effect) else c;
      ContactGrows(c', steps[1..]);
      assert forall t :: t in c'.tags ==> t in FoldContact(c, steps).tags;
      forall t | t in steps && t.Act?
        ensures HasContact(FoldContact(c, steps), t.effect)
      {
        if t !in steps[1..] {
          assert HasContact(c', s.effect);
        }
      }
    }
  }

  lemma {:induction false} ContactSettled(c: Contact, steps: seq<Step>)
    requires forall s :: s in steps && s.Act? ==> HasContact(c, s.effect)
    ensures FoldContact(c, steps) == c
    decreases |steps|
  {
    if steps != [] {
      assert steps[0] in steps;
      if steps[0].Act? {
        assert HasContact(c, steps[0].effect);
        assert ApplyToContact(c, steps[0].effect).optOut == c.optOut;
      }
      ContactSettled(c, steps[1..]);
    }
  }

  function FoldSuppressions(m: map<Address, Id>, c: Contact, steps: seq<Step>): map<Address, Id>
    decreases |steps|
  {
    if steps == [] then m
    else FoldSuppressions(if steps[0].Act? then ApplyToSuppressions(m, c, steps[0].effect) else m, c, steps[1..])
  }

  /** Rows are only ever added, and a suppressing step leaves every address covered. */
  lemma {:induction false} SuppressionsGrow(m: map<Address, Id>, c: Contact, steps: seq<Step>)
    ensures var n := FoldSuppressions(m, c, steps);
            && (forall a :: a in m ==> a in n && n[a] == m[a])
            && n.Keys <= m.Keys + Addresses(c)
            && ((exists s :: s in steps && s.Act? && s.effect.Suppress?) ==> Addresses(c) <= n.Keys)
    decreases |steps|
  {
    if steps != [] {
      var s := steps[0];
      var m' := if s.Act? then ApplyToSuppressions(m, c, s.effect) else m;
      SuppressionsGrow(m', c, steps[1..]);
      forall a | a in m
        ensures a in FoldSuppressions(m, c, steps) && FoldSuppressions(m, c, steps)[a] == m[a]
      {
        assert a in m' && m'[a] == m[a];
      }
      if exists t :: t in steps && t.Act? && t.effect.Suppress? {
        var t :| t in steps && t.Act? && t.effect.Suppress?;
        assert t == s || t in steps[1..];
      }
    }
  }

  lemma {:induction false} SuppressionsSettled(m: map<Address, Id>, c: Contact, steps: seq<Step>)
    requires (exists s :: s in steps && s.Act? && s.effect.Suppress?) ==> Addresses(c) <= m.Keys
    ensures FoldSuppressions(m, c, steps) == m
    decreases |steps|
  {
    if steps != [] {
      var s := steps[0];
      assert s in steps;
      if s.Act? && s.effect.Suppress? {
        assert ApplyToSuppressions(m, c, s.effect) == m;
      }
      SuppressionsSettled(m, c, steps[1..]);
    }
  }

  lemma {:induction false} FoldByComponent(db: Db, steps: seq<Step>)
    requires ActsOnly(steps)
    ensures Fold(db, steps) == Db(
              if db.contact.Some? then Some(FoldContact(db.contact.value, steps)) else None,
              if db.enrollment.Some? then Some(FoldEnrollment(db.enrollment.value, steps)) else None,
              if db.contact.Some? then FoldSuppressions(db.suppressions, db.contact.value, steps) else db.suppressions,
              db.runs)
    decreases |steps|
  {
    if steps != [] {
      assert steps[0] in steps;
      var next := Apply(db, steps[0]);
      FoldByComponent(next, steps[1..]);
      if db.contact.Some? {
        SameAddresses(next.suppressions, db.contact.value, next.contact.value, steps[1..]);
      }
    }
  }

  lemma {:induction false} SameAddresses(m: map<Address, Id>, c: Contact, d: Contact, steps: seq<Step>)
    requires c.email == d.email && c.phone == d.phone
    ensures FoldSuppressions(m, c, steps) == FoldSuppressions(m, d, steps)
    decreases |steps|
  {
    if steps != [] {
      assert Addresses(c) == Addresses(d);
      SameAddresses(if steps[0].Act? then ApplyToSuppressions(m, c, steps[0].effect) else m, c, d, steps[1..]);
    }
  }

  /** Replaying a run of writes on the state it produced changes nothing: tags, stage,
      status, suppressions, opt-outs and link flags all absorb it. */
  lemma ReplayAbsorbed(db: Db, steps: seq<Step>)
    requires ActsOnly(steps)
    ensures Fold(Fold(db, steps), steps) == Fold(db, steps)
  {
    var mid := Fold(db, steps);
    FoldByComponent(db, steps);
    FoldByComponent(mid, steps);
    if db.contact.Some? {
      ContactGrows(db.contact.value, steps);
      ContactSettled(mid.contact.value, steps);
      SuppressionsGrow(db.suppressions, db.contact.value, steps);
      SameAddresses(db.suppressions, db.contact.value, mid.contact.value, steps);
      SuppressionsSettled(mid.suppressions, mid.contact.value, steps);
    }
    if db.enrollment.Some? {
      FieldsAreOverwritten(db.enrollment.value, mid.enrollment.value, steps);
    }
  }

  /** A crash after any prefix of an action list, then the whole list: the same state as
      one uninterrupted run. */
  lemma PrefixAbsorbed(db: Db, steps: seq<Step>, n: nat)
    requires ActsOnly(steps)
    ensures Fold(Fold(db, Cut(steps, n)), steps) == Fold(db, steps)
  {
    if |steps| <= n {
      ReplayAbsorbed(db, steps);
    } else {
      var done, left := steps[..n], steps[n..];
      assert steps == done + left;
      ReplayAbsorbed(db, done);
      FoldConcat(db, done, left);
      FoldConcat(Fold(db, done), done, left);
    }
  }

  // ---- Facts about plans -------------------------------------------------------------

  lemma {:induction false} ActionsAct(w: Ctx, fired: bool, rule: RuleRef, base: Path, i: nat, rest: seq<Action>, depth: nat)
    requires depth <= MAX_RULE_CAUSATION_DEPTH
    ensures ActsOnly(PlanActions(w, fired, rule, base, i, rest, depth).steps)
    decreases MAX_RULE_CAUSATION_DEPTH - depth, |rest|
  {
    if rest != [] {
      var site := Site(rule, base + [At(i)]);
      var p := PlanAction(w, fired, site, rest[0], depth);
      if rest[0].RunAutomation? && depth < MAX_RULE_CAUSATION_DEPTH && rest[0].automationId in w.automations {
        var id := rest[0].automationId;
        ActionsAct(w, fired, rule, site.path + [Auto(id)], 0, w.automations[id].actions, depth + 1);
      }
      assert ActsOnly(p.steps);
      ActionsAct(w, p.fired, rule, base, i + 1, rest[1..], depth);
    }
  }

  lemma RuleActs(w: Ctx, fired: bool, rule: Rule, depth: nat)
    ensures ActsOnly(PlanRule(w, fired, rule, depth).steps)
  {
    if depth <= MAX_RULE_CAUSATION_DEPTH {
      ActionsAct(w, fired, rule.ref, [], 0, rule.actions, depth);
    }
  }
}
