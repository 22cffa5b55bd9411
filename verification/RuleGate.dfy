/** One evaluation per event for two askers: the bus consumer and the graph gate share a memo
    of evaluations in flight, under every interleaving of asks and settlements. */
module RuleGate {
  type Id = string

  /** How an evaluation ends. */
  datatype Outcome = Resolved(terminalFired: bool) | Rejected

  /** An ask of the gate or of the consumer, and the evaluation it awaits. */
  datatype Ask = Ask(ofGate: bool, event: Id, evaluation: nat)

  /** Evaluations are numbered as they start; `started[k]` is the event of evaluation k. One
      that has ended keeps its memo entry until its clean-up callback has run. */
  datatype State = State(inflight: map<Id, nat>, started: seq<Id>, outcomes: map<nat, Outcome>, cleaned: set<nat>, asks: seq<Ask>)

  const EMPTY := State(map[], [], map[], {}, [])

  datatype Event = Asks(ofGate: bool, event: Id) | Settles(evaluation: nat, outcome: Outcome) | CleansUp(evaluation: nat)

  // ---- The memo --------------------------------------------------------------------------

  predicate Pending(s: State, k: nat) { k < |s.started| && k !in s.outcomes }
  predicate Uncleaned(s: State, k: nat) { k < |s.started| && k !in s.cleaned }

  function Awaited(s: State, event: Id): nat { if event in s.inflight then s.inflight[event] else |s.started| }

  function Evaluated(s: State, event: Id): State {
    if event in s.inflight then s
    else s.(inflight := s.inflight[event := |s.started|], started := s.started + [event])
  }

  function Asked(s: State, ofGate: bool, event: Id): State {
    Evaluated(s, event).(asks := s.asks + [Ask(ofGate, event, Awaited(s, event))])
  }

  /** The clean-up deletes by event id, whatever evaluation is stored there. */
  function Cleaned(s: State, k: nat): State
    requires k < |s.started|
  {
    s.(inflight := s.inflight - {s.started[k]}, cleaned := s.cleaned + {k})
  }

  /** Only a pending evaluation settles, and only a settled one is cleaned up, once. */
  function Step(s: State, e: Event): State {
    match e
    case Asks(ofGate, event) => Asked(s, ofGate, event)
    case Settles(k, outcome) => if Pending(s, k) then s.(outcomes := s.outcomes[k := outcome]) else s
    case CleansUp(k) => if Uncleaned(s, k) && k in s.outcomes then Cleaned(s, k) else s
  }

  function Run(s: State, events: seq<Event>): State {
    if events == [] then s else Step(Run(s, events[..|events| - 1]), events[|events| - 1])
  }

  /** What an asker gets: the consumer always returns, the gate answers or throws. */
  datatype Answer = Waiting | Returned | Continue(go: bool) | Thrown

  function AnswerOf(s: State, a: Ask): Answer {
    if a.evaluation !in s.outcomes then Waiting
    else if !a.ofGate then Returned
    else match s.outcomes[a.evaluation]
      case Resolved(terminalFired) => Continue(!terminalFired)
      case Rejected => Thrown
  }

  class PerAgentRules {
    var inflight: map<Id, nat>
    var started: seq<Id>
    var outcomes: map<nat, Outcome>
    var cleaned: set<nat>
    var asks: seq<Ask>

    constructor ()
      ensures Now() == EMPTY
    {
      inflight, started, outcomes, cleaned, asks := map[], [], map[], {}, [];
    }

    function Now(): State
      reads this
    {
      State(inflight, started, outcomes, cleaned, asks)
    }

    method Evaluate(event: Id) returns (k: nat)
      modifies `inflight, `started
      ensures Now() == Evaluated(old(Now()), event) && k == Awaited(old(Now()), event)
    {
      if event in inflight { return inflight[event]; }
      k := |started|;
      started := started + [event];
      inflight := inflight[event := k];
    }

    method Handle(event: Id)
      modifies this
      ensures Now() == Step(old(Now()), Asks(false, event))
    {
      var k := Evaluate(event);
      asks := asks + [Ask(false, event, k)];
    }

    method ShouldContinueGraph(event: Id)
      modifies this
      ensures Now() == Step(old(Now()), Asks(true, event))
    {
      var k := Evaluate(event);
      asks := asks + [Ask(true, event, k)];
    }

    method Settle(k: nat, outcome: Outcome)
      requires Pending(Now(), k)
      modifies `outcomes
      ensures Now() == Step(old(Now()), Settles(k, outcome))
    {
      outcomes := outcomes[k := outcome];
    }

    method CleanUp(k: nat)
      requires Uncleaned(Now(), k) && k in outcomes
      modifies `inflight, `cleaned
      ensures Now() == Step(old(Now()), CleansUp(k))
    {
      inflight := inflight - {started[k]};
      cleaned := cleaned + {k};
    }
  }

  /** A whole interleaving through the object: what every ask, in order, gets by the end. */
  method Serve(events: seq<Event>) returns (answers: seq<Answer>)
    ensures var s := Run(EMPTY, events);
            |answers| == |s.asks| && forall i :: 0 <= i < |s.asks| ==> answers[i] == AnswerOf(s, s.asks[i])
  {
    var rules := new PerAgentRules();
    for i := 0 to |events|
      invariant fresh(rules) && rules.Now() == Run(EMPTY, events[..i])
    {
      assert events[..i + 1][..i] == events[..i];
      match events[i] {
        case Asks(ofGate, event) => if ofGate { rules.ShouldContinueGraph(event); } else { rules.Handle(event); }
        case Settles(k, outcome) => if k < |rules.started| && k !in rules.outcomes { rules.Settle(k, outcome); }
        case CleansUp(k) => if k < |rules.started| && k !in rules.cleaned && k in rules.outcomes { rules.CleanUp(k); }
      }
    }
    assert events[..|events|] == events;
    answers := [];
    for i := 0 to |rules.asks|
      invariant |answers| == i && forall j :: 0 <= j < i ==> answers[j] == AnswerOf(rules.Now(), rules.asks[j])
    {
      answers := answers + [AnswerOf(rules.Now(), rules.asks[i])];
    }
  }

  // ---- What every interleaving keeps -----------------------------------------------------

  /** The memo holds exactly the evaluations not yet cleaned up, each under its own event. */
  ghost predicate Memoized(s: State) {
    && (forall e :: e in s.inflight ==> Uncleaned(s, s.inflight[e]) && s.started[s.inflight[e]] == e)
    && (forall k: nat :: Uncleaned(s, k) ==> s.started[k] in s.inflight && s.inflight[s.started[k]] == k)
    && (forall k :: k in s.cleaned ==> k in s.outcomes)
    && (forall k :: k in s.outcomes ==> k < |s.started|)
    && (forall a :: a in s.asks ==> a.evaluation < |s.started| && s.started[a.evaluation] == a.event)
  }

  lemma AskKeeps(s: State, ofGate: bool, event: Id)
    requires Memoized(s)
    ensures Memoized(Asked(s, ofGate, event))
  {}

  lemma CleanUpKeeps(s: State, k: nat)
    requires Memoized(s) && Uncleaned(s, k) && k in s.outcomes
    ensures Memoized(Cleaned(s, k))
  {}

  lemma {:induction false} RunKeeps(s: State, events: seq<Event>)
    requires Memoized(s)
    ensures Memoized(Run(s, events))
  {
    if events != [] {
      var before, last := Run(s, events[..|events| - 1]), events[|events| - 1];
      RunKeeps(s, events[..|events| - 1]);
      match last {
        case Asks(ofGate, event) => AskKeeps(before, ofGate, event);
        case Settles(k, outcome) =>
        case CleansUp(k) => if Uncleaned(before, k) && k in before.outcomes { CleanUpKeeps(before, k); }
      }
    }
  }

  /** At most one evaluation of an event is in flight, in every reachable state. */
  lemma OneInFlight(events: seq<Event>, j: nat, k: nat)
    requires var s := Run(EMPTY, events); Pending(s, j) && Pending(s, k) && s.started[j] == s.started[k]
    ensures j == k
  {
    var s := Run(EMPTY, events);
    RunKeeps(EMPTY, events);
    assert Uncleaned(s, j) && Uncleaned(s, k);
  }

  /** A clean-up, though it deletes by event id, removes only the evaluation's own entry. */
  lemma CleanUpIsOwn(events: seq<Event>, k: nat)
    requires var s := Run(EMPTY, events); Uncleaned(s, k) && k in s.outcomes
    ensures var s, t := Run(EMPTY, events), Run(EMPTY, events + [CleansUp(k)]);
            && s.started[k] in s.inflight && s.inflight[s.started[k]] == k
            && t.inflight == map e | e in s.inflight && s.inflight[e] != k :: s.inflight[e]
  {
    var s := Run(EMPTY, events);
    RunKeeps(EMPTY, events);
    assert (events + [CleansUp(k)])[..|events|] == events;
  }

  // ---- Overlapping asks --------------------------------------------------------------------

  lemma StepKeepsPast(s: State, e: Event)
    ensures var t := Step(s, e);
            && s.started <= t.started && s.asks <= t.asks
            && forall k :: k in s.outcomes ==> k in t.outcomes && t.outcomes[k] == s.outcomes[k]
  {}

  lemma {:induction false} RunKeepsPast(s: State, events: seq<Event>)
    ensures var t := Run(s, events);
            && s.started <= t.started && s.asks <= t.asks
            && forall k :: k in s.outcomes ==> k in t.outcomes && t.outcomes[k] == s.outcomes[k]
  {
    if events != [] {
      RunKeepsPast(s, events[..|events| - 1]);
      StepKeepsPast(Run(s, events[..|events| - 1]), events[|events| - 1]);
    }
  }

  /** An ask that comes while an evaluation of its event is in flight starts no other; and
      whatever happens next, once that evaluation has ended every such gate ask answers the
      negation of its one terminal flag (or throws if it failed), and the consumer's asks
      return. */
  lemma OverlapsAnswerAlike(events: seq<Event>, k: nat, ofGate: bool, more: seq<Event>)
    requires Pending(Run(EMPTY, events), k)
    ensures var s := Run(EMPTY, events);
            var asked := Step(s, Asks(ofGate, s.started[k]));
            var later := Run(asked, more);
            && asked.started == s.started
            && |s.asks| < |later.asks| && later.asks[|s.asks|] == Ask(ofGate, s.started[k], k)
            && (k in later.outcomes ==>
                  AnswerOf(later, later.asks[|s.asks|])
                  == if !ofGate then Returned
                     else match later.outcomes[k] case Resolved(terminalFired) => Continue(!terminalFired) case Rejected => Thrown)
  {
    var s := Run(EMPTY, events);
    RunKeeps(EMPTY, events);
    assert Uncleaned(s, k);
    var asked := Step(s, Asks(ofGate, s.started[k]));
    RunKeepsPast(asked, more);
    assert asked.asks[|s.asks|] == Ask(ofGate, s.started[k], k);
  }

  /** All asks of an event that await the same evaluation are of that event, and any two gate
      asks among them never disagree. */
  lemma GatesAgree(events: seq<Event>, a: Ask, b: Ask)
    requires var s := Run(EMPTY, events); a in s.asks && b in s.asks
    requires a.ofGate && b.ofGate && a.evaluation == b.evaluation
    ensures a.event == b.event && AnswerOf(Run(EMPTY, events), a) == AnswerOf(Run(EMPTY, events), b)
  {
    RunKeeps(EMPTY, events);
  }

  // ---- One evaluation a delivery -------------------------------------------------------------

  /** As long as an event's evaluation has not been cleaned up, however often both askers ask,
      no other is started for the event. */
  lemma {:induction false} NoSecondEvaluation(s: State, k: nat, events: seq<Event>)
    requires Memoized(s) && k < |s.started| && Uncleaned(Run(s, events), k)
    ensures var t := Run(s, events);
            s.started <= t.started && forall j :: |s.started| <= j < |t.started| ==> t.started[j] != s.started[k]
  {
    if events != [] {
      var front, last := events[..|events| - 1], events[|events| - 1];
      var before := Run(s, front);
      RunKeepsPast(s, front);
      RunKeeps(s, front);
      NoSecondEvaluation(s, k, front);
      assert before.started[k] in before.inflight;
    }
  }
}
