/** What the events on the bus tell about the rows: the stage changes are the path the stage
    took, and a channel is announced exactly when its address becomes suppressed. */
module PublishedEvents {
  import opened Options
  import opened RuleModel
  import opened RulePlan
  import opened RuleEngine

  /** The events lead from one stage to the other, each a real change from where the last
      one ended. */
  predicate StagePath(from: string, events: seq<Published>, to: string)
    decreases |events|
  {
    if events == [] then from == to
    else if events[0].Unsubscribed? then StagePath(from, events[1..], to)
    else events[0].fromStage == from && events[0].toStage != from && StagePath(events[0].toStage, events[1..], to)
  }

  lemma {:induction false} StagePathJoin(from: string, a: seq<Published>, mid: string, b: seq<Published>, to: string)
    requires StagePath(from, a, mid) && StagePath(mid, b, to)
    ensures StagePath(from, a + b, to)
    decreases |a|
  {
    if a == [] {
      assert a + b == b;
    } else {
      assert (a + b)[0] == a[0] && (a + b)[1..] == a[1..] + b;
      StagePathJoin(if a[0].Unsubscribed? then from else a[0].toStage, a[1..], mid, b, to);
    }
  }

  lemma OneStepMoves(db: Db, s: Step)
    requires db.enrollment.Some?
    ensures StagePath(db.enrollment.value.stage, PublishedBy(db, s), Apply(db, s).enrollment.value.stage)
  {
    if s.Act? && s.effect.Suppress? && db.contact.Some? {
      var a := NewlySuppressed(db, Email, db.contact.value.email);
      var b := NewlySuppressed(db, Sms, db.contact.value.phone);
      StagePathJoin(db.enrollment.value.stage, a, db.enrollment.value.stage, b, db.enrollment.value.stage);
    }
  }

  /** Over any steps the stage events, in order, are the path of the enrollment's stage. */
  lemma {:induction false} StageEventsArePath(db: Db, steps: seq<Step>)
    requires db.enrollment.Some?
    ensures Fold(db, steps).enrollment.Some?
    ensures StagePath(db.enrollment.value.stage, PublishedOver(db, steps), Fold(db, steps).enrollment.value.stage)
    decreases |steps|
  {
    if steps != [] {
      var next := Apply(db, steps[0]);
      OneStepMoves(db, steps[0]);
      StageEventsArePath(next, steps[1..]);
      StagePathJoin(db.enrollment.value.stage, PublishedBy(db, steps[0]), next.enrollment.value.stage,
                    PublishedOver(next, steps[1..]), Fold(db, steps).enrollment.value.stage);
    }
  }

  function AddressOn(c: Contact, channel: Channel): Option<string> { if channel.Email? then c.email else c.phone }

  predicate Suppressed(db: Db, channel: Channel) {
    && db.contact.Some? && AddressOn(db.contact.value, channel).Some?
    && Address(channel, AddressOn(db.contact.value, channel).value) in db.suppressions
  }

  function Announcements(events: seq<Published>, channel: Channel): nat {
    if events == [] then 0
    else (if events[0] == Unsubscribed(channel) then 1 else 0) + Announcements(events[1..], channel)
  }

  lemma {:induction false} AnnouncementsJoin(a: seq<Published>, b: seq<Published>, channel: Channel)
    ensures Announcements(a + b, channel) == Announcements(a, channel) + Announcements(b, channel)
  {
    if a == [] {
      assert a + b == b;
    } else {
      assert (a + b)[0] == a[0] && (a + b)[1..] == a[1..] + b;
      AnnouncementsJoin(a[1..], b, channel);
    }
  }

  lemma OneStepAnnounces(db: Db, s: Step, channel: Channel)
    ensures Announcements(PublishedBy(db, s), channel) == (if Suppressed(Apply(db, s), channel) && !Suppressed(db, channel) then 1 else 0)
    ensures Suppressed(db, channel) ==> Suppressed(Apply(db, s), channel)
  {
    if s.Act? && s.effect.Suppress? && db.contact.Some? {
      var c := db.contact.value;
      AnnouncementsJoin(NewlySuppressed(db, Email, c.email), NewlySuppressed(db, Sms, c.phone), channel);
      assert forall a :: a in Addresses(c) <==> AddressOn(c, a.channel) == Some(a.address);
    }
  }

  /** Over any steps a channel is announced once if its address was not suppressed at the
      start and is at the end, and not at all otherwise. */
  lemma {:induction false} AnnouncedIffSuppressed(db: Db, steps: seq<Step>, channel: Channel)
    ensures Announcements(PublishedOver(db, steps), channel)
            == (if Suppressed(Fold(db, steps), channel) && !Suppressed(db, channel) then 1 else 0)
    ensures Suppressed(db, channel) ==> Suppressed(Fold(db, steps), channel)
    decreases |steps|
  {
    if steps != [] {
      var next := Apply(db, steps[0]);
      OneStepAnnounces(db, steps[0], channel);
      AnnouncedIffSuppressed(next, steps[1..], channel);
      AnnouncementsJoin(PublishedBy(db, steps[0]), PublishedOver(next, steps[1..]), channel);
    }
  }
}
