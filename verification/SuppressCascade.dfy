/** suppress_contact publishes lead.unsubscribed, which opted-out rules react to by
    suppressing again: why that cascade ends. */
module SuppressCascade {
  import opened Options
  import opened RuleModel
  import opened RulePlan
  import opened RuleEngine

  function Unsubscribes(events: seq<Published>): nat {
    if events == [] then 0 else (if events[0].Unsubscribed? then 1 else 0) + Unsubscribes(events[1..])
  }

  lemma {:induction false} UnsubscribesConcat(a: seq<Published>, b: seq<Published>)
    ensures Unsubscribes(a + b) == Unsubscribes(a) + Unsubscribes(b)
  {
    if a == [] {
      assert a + b == b;
    } else {
      assert (a + b)[1..] == a[1..] + b;
      UnsubscribesConcat(a[1..], b);
    }
  }

  /** Addresses of the event's contact that a suppression would still create a row for. */
  function Open(db: Db): nat { |Unsuppressed(db)| }

  function OpenOn(db: Db, c: Contact, channel: Channel): set<Address> {
    var address := if channel.Email? then c.email else c.phone;
    if address.Some? && Address(channel, address.value) !in db.suppressions then {Address(channel, address.value)} else {}
  }

  lemma OpenByChannel(db: Db, c: Contact)
    requires db.contact == Some(c)
    ensures Open(db) == |OpenOn(db, c, Email)| + |OpenOn(db, c, Sms)|
  {
    var e, p := OpenOn(db, c, Email), OpenOn(db, c, Sms);
    assert Unsuppressed(db) == e + p;
    assert e * p == {};
  }

  lemma OneChannel(db: Db, c: Contact, channel: Channel)
    ensures Unsubscribes(NewlySuppressed(db, channel, if channel.Email? then c.email else c.phone)) == |OpenOn(db, c, channel)|
  {}

  lemma SuppressionPublishesOpen(db: Db, s: Step)
    requires s.Act? && s.effect.Suppress? && db.contact.Some?
    ensures Unsubscribes(PublishedBy(db, s)) == Open(db)
  {
    var c := db.contact.value;
    OpenByChannel(db, c);
    OneChannel(db, c, Email);
    OneChannel(db, c, Sms);
    UnsubscribesConcat(NewlySuppressed(db, Email, c.email), NewlySuppressed(db, Sms, c.phone));
  }

  lemma SuppressionClosesAll(db: Db, s: Step)
    requires s.Act? && s.effect.Suppress?
    ensures Unsuppressed(Apply(db, s)) == {}
  {}

  lemma OthersLeaveOpen(db: Db, s: Step)
    requires !(s.Act? && s.effect.Suppress?)
    ensures Unsuppressed(Apply(db, s)) == Unsuppressed(db) && Unsubscribes(PublishedBy(db, s)) == 0
  {}

  /** Every unsubscribe event pays for one address that was not suppressed before: one
      step, whatever it is, publishes exactly as many as it closes. */
  lemma StepConserves(db: Db, s: Step)
    ensures Unsubscribes(PublishedBy(db, s)) + Open(Apply(db, s)) == Open(db)
  {
    if s.Act? && s.effect.Suppress? {
      SuppressionClosesAll(db, s);
      if db.contact.Some? {
        SuppressionPublishesOpen(db, s);
      }
    } else {
      OthersLeaveOpen(db, s);
    }
  }

  /** Over any run of steps - any rules, any number of deliveries, crashed or not - the
      unsubscribe events plus the addresses still open equal the addresses open at the
      start; so there are never more events than open addresses. */
  lemma {:induction false} EventsPayForAddresses(db: Db, steps: seq<Step>)
    ensures Unsubscribes(PublishedOver(db, steps)) + Open(Fold(db, steps)) == Open(db)
    decreases |steps|
  {
    if steps != [] {
      StepConserves(db, steps[0]);
      EventsPayForAddresses(Apply(db, steps[0]), steps[1..]);
      UnsubscribesConcat(PublishedBy(db, steps[0]), PublishedOver(Apply(db, steps[0]), steps[1..]));
    }
  }

  /** Once a suppression went through, nothing after it publishes another event. */
  lemma RepeatsPublishNothing(db: Db, s: Step, later: seq<Step>)
    requires s.Act? && s.effect.Suppress?
    ensures Unsubscribes(PublishedOver(Apply(db, s), later)) == 0
  {
    SuppressionClosesAll(db, s);
    EventsPayForAddresses(Apply(db, s), later);
  }

  function AfterAll(db: Db, evaluations: seq<seq<Step>>): Db
    decreases |evaluations|
  {
    if evaluations == [] then db else AfterAll(Fold(db, evaluations[0]), evaluations[1..])
  }

  /** The unsubscribe events that a chain of evaluations puts on the bus. */
  function Sent(db: Db, evaluations: seq<seq<Step>>): nat
    decreases |evaluations|
  {
    if evaluations == [] then 0
    else Unsubscribes(PublishedOver(db, evaluations[0])) + Sent(Fold(db, evaluations[0]), evaluations[1..])
  }

  lemma {:induction false} ChainConserves(db: Db, evaluations: seq<seq<Step>>)
    ensures Sent(db, evaluations) + Open(AfterAll(db, evaluations)) == Open(db)
    decreases |evaluations|
  {
    if evaluations != [] {
      EventsPayForAddresses(db, evaluations[0]);
      ChainConserves(Fold(db, evaluations[0]), evaluations[1..]);
    }
  }

  /** A cascade takes one event off the bus per evaluation, first the queued ones and then
      those its own evaluations sent: whatever rules react, it stops after at most as many
      evaluations as there were queued events and open addresses. */
  lemma CascadeEnds(db: Db, queued: nat, evaluations: seq<seq<Step>>)
    requires |evaluations| <= queued + Sent(db, evaluations)
    ensures |evaluations| + Open(AfterAll(db, evaluations)) <= queued + Open(db)
  {
    ChainConserves(db, evaluations);
  }
}
