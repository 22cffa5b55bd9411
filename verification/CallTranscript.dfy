/** The session's transcript, told from the call's events: which words each caller turn
    carries, which line each agent turn, when and why, and which were cut off. */
module CallTranscript {
  import opened Options
  import opened Text
  import opened TranscriptPersist
  import opened SilenceLadder

  // ---- What was said -----------------------------------------------------------------------

  /** One thing said in the call; `cut` when a barge-in stopped it. */
  datatype Entry = Entry(role: Role, text: string, cut: bool, at: int, source: Option<string>, refusal: Option<string>)

  /** A call so far: when it began, whether it is over, the fragments heard since the caller
      last came to an end, what was said, in order, how many speeches of the agent's began,
      and whether the newest of them is still going on. */
  datatype Tale = Tale(began: int, over: bool, heard: seq<string>, said: seq<Entry>, speeches: nat, talking: bool)

  /** Fragments with single spaces between them. */
  function Spaced(parts: seq<string>): string {
    if parts == [] then ""
    else if |parts| == 1 then parts[0]
    else Spaced(parts[..|parts| - 1]) + " " + parts[|parts| - 1]
  }

  function Add(t: Tale, x: Entry): Tale { t.(said := t.said + [x]) }

  function Agent(t: Tale, line: string, at: int, refusal: Option<string>): Tale {
    Add(t, Entry(Assistant, line, false, at - t.began, None, refusal))
  }

  /** The caller came to an end: what was heard is one thing said, if anything was. */
  function Caller(t: Tale, at: int, source: Option<string>): Tale {
    if t.heard == [] then t else Add(t.(heard := []), Entry(User, Spaced(t.heard), false, at - t.began, source, None))
  }

  /** The agent was cut off in what was said last, unless the caller said it. */
  function CutOff(t: Tale): Tale {
    var n := |t.said|;
    if n > 0 && t.said[n - 1].role.Assistant? then t.(said := t.said[..n - 1] + [t.said[n - 1].(cut := true)]) else t
  }

  function LineOf(c: Setup, p: Prompt): string { if p.Bridge? then c.bridgeLine else c.reengageLine }

  function Begin(t: Tale): Tale { t.(speeches := t.speeches + 1, talking := true) }

  /** A speech comes to its end; one that is not the newest has nothing left to end. */
  function Finish(t: Tale, speech: nat): Tale { if speech == t.speeches then t.(talking := false) else t }

  /** The tale goes on; `spoken` are the prompts that a tick of the ladder speaks. */
  function Next(c: Setup, t: Tale, e: Timed, spoken: seq<Prompt>): Tale {
    match e.event
    case Start(disclosure) => Begin(Add(t.(began := e.at), Entry(Assistant, disclosure, false, 0, None, None)))
    case Onset => if t.talking then CutOff(t).(talking := false) else t
    case Final(text) => if Trim(text) != "" then t.(heard := t.heard + [Trim(text)]) else t
    case UtteranceEnd =>
      if t.over || t.heard == [] then t.(heard := []) else Begin(Caller(t, e.at, Some("utterance_end")))
    case ReplyEnd(speech, content) => Finish(Agent(t, content, e.at, None), speech)
    case Refused(reason) => Begin(Agent(t, c.fallbackLine, e.at, Some(reason))).(talking := t.talking)
    case Farewell(line) => if t.over then t else Begin(Agent(t, line, e.at, None))
    case Tick(_) => if spoken == [] then t else Begin(Agent(t, LineOf(c, spoken[0]), e.at, None))
    case Close => if t.over then t else Caller(t.(over := true), e.at, None)
    case DisclosureEnd(speech) => Finish(t, speech)
    case LineEnd(speech) => Finish(t, speech)
    case WireSend => t
  }

  const NOTHING := Tale(0, false, [], [], 0, false)

  /** The tale of a run; of the session itself only the prompts are asked. */
  function TaleOf(c: Setup, events: seq<Timed>): Tale {
    if events == [] then NOTHING else
    var front, e := events[..|events| - 1], events[|events| - 1];
    var s := Run(c, front);
    Next(c, TaleOf(c, front), e, NewPrompts(s, Step(c, s, e)))
  }

  function NewPrompts(s: Call, t: Call): seq<Prompt> {
    if s.rungs.prompts <= t.rungs.prompts then t.rungs.prompts[|s.rungs.prompts|..] else []
  }

  function TurnOf(x: Entry): Turn {
    Turn(x.role, if x.cut then x.text + INTERRUPTED else x.text, Some(x.at), x.source, x.refusal)
  }

  function TurnsOf(entries: seq<Entry>): seq<Turn> {
    seq(|entries|, i requires 0 <= i < |entries| => TurnOf(entries[i]))
  }

  // ---- The transcript is that ------------------------------------------------------------

  predicate AllWorded(parts: seq<string>) { forall t :: t in parts ==> t != "" }

  /** Nothing cut off is still being spoken. */
  predicate Uncut(said: seq<Entry>) { said == [] || !said[|said| - 1].cut }

  /** The session's state, as far as its transcript depends on it. */
  predicate Follows(s: Call, t: Tale) {
    && s.closed == t.over && s.clocks.startedAt == t.began
    && AllWorded(t.heard) && s.pending == Spaced(t.heard)
    && s.turns == TurnsOf(t.said)
    && s.floor.begun == t.speeches && s.floor.speaking == t.talking
    && (s.floor.owner == 0 || s.floor.owner == t.speeches)
    && (t.talking ==> s.floor.owner > 0 && Uncut(t.said))
  }

  lemma SpacedNext(parts: seq<string>, t: string)
    ensures Spaced(parts + [t]) == if parts == [] then t else Spaced(parts) + " " + t
  {
    assert (parts + [t])[..|parts|] == parts;
  }

  lemma SpacedEmpty(parts: seq<string>)
    requires AllWorded(parts)
    ensures Spaced(parts) == "" <==> parts == []
  {
    if parts != [] {
      assert parts[|parts| - 1] in parts;
    }
  }

  lemma TurnsNext(said: seq<Entry>, x: Entry)
    ensures TurnsOf(said + [x]) == TurnsOf(said) + [TurnOf(x)]
  {}

  lemma CutTurns(t: Tale)
    requires Uncut(t.said)
    ensures TurnsOf(CutOff(t).said) == Marked(TurnsOf(t.said))
  {
    var n := |t.said|;
    if n > 0 {
      var front, last := t.said[..n - 1], t.said[n - 1];
      assert t.said == front + [last];
      TurnsNext(front, last);
      TurnsNext(front, last.(cut := true));
    }
  }

  lemma OnsetFollows(c: Setup, s: Call, t: Tale, e: Timed)
    requires Follows(s, t) && e.event.Onset?
    ensures Follows(Step(c, s, e), Next(c, t, e, []))
  {
    if s.floor.speaking {
      CutTurns(t);
    }
  }

  lemma FinalFollows(c: Setup, s: Call, t: Tale, e: Timed)
    requires Follows(s, t) && e.event.Final?
    ensures Follows(Step(c, s, e), Next(c, t, e, []))
  {
    SpacedEmpty(t.heard);
    SpacedNext(t.heard, Trim(e.event.text));
  }

  lemma UtteranceFollows(c: Setup, s: Call, t: Tale, e: Timed)
    requires Follows(s, t) && e.event.UtteranceEnd?
    ensures Follows(Step(c, s, e), Next(c, t, e, []))
  {
    SpacedEmpty(t.heard);
    if !s.closed && s.pending != "" {
      TurnsNext(t.said, Entry(User, Spaced(t.heard), false, e.at - t.began, Some("utterance_end"), None));
    }
  }

  lemma CloseFollows(c: Setup, s: Call, t: Tale, e: Timed)
    requires Follows(s, t) && e.event.Close?
    ensures Follows(Step(c, s, e), Next(c, t, e, []))
  {
    SpacedEmpty(t.heard);
    if !s.closed && s.pending != "" {
      TurnsNext(t.said, Entry(User, Spaced(t.heard), false, e.at - t.began, None, None));
    }
  }

  /** A speech that takes the floor and pushes its line. */
  predicate Spoke(s: Call, after: Call, x: Entry) {
    && after.closed == s.closed && after.clocks.startedAt == s.clocks.startedAt && after.pending == s.pending
    && after.turns == s.turns + [TurnOf(x)] && after.floor == Taken(s.floor)
  }

  lemma SpeechFollows(s: Call, t: Tale, after: Call, x: Entry)
    requires Follows(s, t) && Spoke(s, after, x) && !x.cut
    ensures Follows(after, Begin(Add(t, x)))
  {
    TurnsNext(t.said, x);
  }

  lemma AgentFollows(c: Setup, s: Call, t: Tale, e: Timed)
    requires Follows(s, t) && (e.event.Start? || e.event.ReplyEnd? || e.event.Refused?)
    ensures Follows(Step(c, s, e), Next(c, t, e, []))
  {
    match e.event {
      case Start(disclosure) => TurnsNext(t.said, Entry(Assistant, disclosure, false, 0, None, None));
      case ReplyEnd(speech, content) => TurnsNext(t.said, Entry(Assistant, content, false, e.at - t.began, None, None));
      case Refused(reason) => TurnsNext(t.said, Entry(Assistant, c.fallbackLine, false, e.at - t.began, None, Some(reason)));
    }
  }

  lemma FarewellFollows(c: Setup, s: Call, t: Tale, e: Timed)
    requires Follows(s, t) && e.event.Farewell?
    ensures Follows(Step(c, s, e), Next(c, t, e, []))
  {
    if !s.closed {
      SpeechFollows(s, t, Step(c, s, e), Entry(Assistant, e.event.line, false, e.at - t.began, None, None));
    }
  }

  /** A tick speaks one line at most, and pushes what it speaks. */
  predicate SpeaksOne(c: Setup, s: Call, t: Call, now: int) {
    var spoken := NewPrompts(s, t);
    && t.closed == s.closed && t.clocks.startedAt == s.clocks.startedAt && t.pending == s.pending
    && |spoken| <= 1
    && (spoken == [] ==> t.turns == s.turns && t.floor == s.floor)
    && (spoken != [] ==> Spoke(s, t, Entry(Assistant, LineOf(c, spoken[0]), false, now - s.clocks.startedAt, None, None)))
  }

  lemma LadderSpeaks(c: Setup, s: Call, now: int)
    ensures SpeaksOne(c, s, MaybeReengage(c, MaybeBridge(c, s, now), now), now)
  {
    var u := MaybeBridge(c, s, now);
    assert u.rungs.prompts != s.rungs.prompts ==> u.floor.speaking;
  }

  lemma TickSpeaks(c: Setup, s: Call, e: Timed)
    requires e.event.Tick?
    ensures SpeaksOne(c, s, Step(c, s, e), e.at)
  {
    LadderSpeaks(c, Stamped(s, e.at, e.event.outstandingMs), e.at);
  }

  lemma TickFollows(c: Setup, s: Call, after: Call, t: Tale, e: Timed)
    requires Follows(s, t) && e.event.Tick? && SpeaksOne(c, s, after, e.at)
    ensures Follows(after, Next(c, t, e, NewPrompts(s, after)))
  {
    var spoken := NewPrompts(s, after);
    if spoken != [] {
      SpeechFollows(s, t, after, Entry(Assistant, LineOf(c, spoken[0]), false, e.at - t.began, None, None));
    }
  }

  lemma OthersFollow(c: Setup, s: Call, t: Tale, e: Timed)
    requires Follows(s, t) && (e.event.WireSend? || e.event.DisclosureEnd? || e.event.LineEnd?)
    ensures Follows(Step(c, s, e), Next(c, t, e, []))
  {}

  lemma StepFollows(c: Setup, s: Call, t: Tale, e: Timed)
    requires Follows(s, t)
    ensures Follows(Step(c, s, e), Next(c, t, e, NewPrompts(s, Step(c, s, e))))
  {
    if e.event.Tick? {
      TickSpeaks(c, s, e);
      TickFollows(c, s, Step(c, s, e), t, e);
    } else {
      OnlyTicksPrompt(c, s, e);
      assert NewPrompts(s, Step(c, s, e)) == [];
      match e.event {
        case Onset => OnsetFollows(c, s, t, e);
        case Final(text) => FinalFollows(c, s, t, e);
        case UtteranceEnd => UtteranceFollows(c, s, t, e);
        case Close => CloseFollows(c, s, t, e);
        case Start(disclosure) => AgentFollows(c, s, t, e);
        case ReplyEnd(speech, content) => AgentFollows(c, s, t, e);
        case Refused(reason) => AgentFollows(c, s, t, e);
        case Farewell(line) => FarewellFollows(c, s, t, e);
        case _ => OthersFollow(c, s, t, e);
      }
    }
  }

  /** Over any run the transcript is the tale: every caller turn the words heard since the one
      before, with single spaces, every agent turn its line, at its time and with its reason,
      marked once when a barge-in cut it off and not otherwise. */
  lemma {:induction false} TranscriptIsTale(c: Setup, events: seq<Timed>)
    ensures Follows(Run(c, events), TaleOf(c, events))
  {
    if events != [] {
      var front := events[..|events| - 1];
      TranscriptIsTale(c, front);
      StepFollows(c, Run(c, front), TaleOf(c, front), events[|events| - 1]);
    }
  }

  // ---- The agent's clocks ------------------------------------------------------------------

  /** The caller came to the end of an utterance with words in it, in an open call. */
  predicate Asked(c: Setup, front: seq<Timed>, e: Event) {
    e.UtteranceEnd? && !TaleOf(c, front).over && TaleOf(c, front).heard != []
  }

  function Replies(c: Setup, events: seq<Timed>): nat {
    if events == [] then 0 else
    var front := events[..|events| - 1];
    Replies(c, front) + (if Asked(c, front, events[|events| - 1].event) then 1 else 0)
  }

  /** Time of the last frame that left, or of the last reply that began. */
  function LastAudio(c: Setup, events: seq<Timed>): int {
    if events == [] then 0 else
    var front, e := events[..|events| - 1], events[|events| - 1];
    if e.event.WireSend? || Asked(c, front, e.event) then e.at else LastAudio(c, front)
  }

  predicate Disclosed(events: seq<Timed>) { exists k :: 0 <= k < |events| && events[k].event.DisclosureEnd? }

  /** Time of the first tick that finds the disclosure over and nothing outstanding. */
  function HeardOut(events: seq<Timed>): int {
    if events == [] then 0 else
    var front, e := events[..|events| - 1], events[|events| - 1];
    if HeardOut(front) == 0 && Disclosed(front) && e.event == Tick(0) then e.at else HeardOut(front)
  }

  predicate ClocksTold(c: Setup, s: Call, events: seq<Timed>) {
    && s.turnCount == Replies(c, events) && s.clocks.audioAt == LastAudio(c, events)
    && (s.disclosureDone <==> Disclosed(events)) && s.clocks.wireEndAt == HeardOut(events)
  }

  lemma DisclosedNext(front: seq<Timed>, e: Timed)
    ensures Disclosed(front + [e]) <==> Disclosed(front) || e.event.DisclosureEnd?
  {
    assert (front + [e])[|front|] == e;
    assert forall k :: 0 <= k < |front| ==> (front + [e])[k] == front[k];
  }

  lemma StepCounts(c: Setup, s: Call, e: Timed)
    ensures var t := Step(c, s, e);
            && t.turnCount == s.turnCount + (if e.event.UtteranceEnd? && !s.closed && s.pending != "" then 1 else 0)
            && (t.disclosureDone <==> s.disclosureDone || e.event.DisclosureEnd?)
            && t.clocks.wireEndAt == (if s.clocks.wireEndAt == 0 && s.disclosureDone && e.event == Tick(0) then e.at else s.clocks.wireEndAt)
  {
    if e.event.Tick? {
      LadderLeaves(c, Stamped(s, e.at, e.event.outstandingMs), e.at);
    }
  }

  lemma LadderLeaves(c: Setup, s: Call, now: int)
    ensures var t := MaybeReengage(c, MaybeBridge(c, s, now), now);
            t.turnCount == s.turnCount && t.disclosureDone == s.disclosureDone && t.clocks == s.clocks
  {}

  /** The clocks of the agent's side, too, are what happened: frames and replies, and the end
      of the disclosure at the caller's ear. */
  lemma {:induction false} AgentClocksAreHistory(c: Setup, events: seq<Timed>)
    ensures ClocksTold(c, Run(c, events), events)
  {
    if events != [] {
      var front, e := events[..|events| - 1], events[|events| - 1];
      var s := Run(c, front);
      assert events == front + [e];
      AgentClocksAreHistory(c, front);
      TranscriptIsTale(c, front);
      SpacedEmpty(TaleOf(c, front).heard);
      DisclosedNext(front, e);
      StepCounts(c, s, e);
      StepClocks(c, s, e);
    }
  }

  // ---- No word is lost -------------------------------------------------------------------

  /** The caller's turns, joined. */
  function CallerText(turns: seq<Turn>): string {
    if turns == [] then ""
    else CallerText(turns[..|turns| - 1]) + (if turns[|turns| - 1].role.User? then turns[|turns| - 1].content else "")
  }

  function TextOf(e: Event): string { if e.Final? then e.text else "" }

  /** The texts of all finals, joined. */
  function FinalText(events: seq<Timed>): string {
    if events == [] then "" else FinalText(events[..|events| - 1]) + TextOf(events[|events| - 1].event)
  }

  predicate Over(events: seq<Timed>) { exists k :: 0 <= k < |events| && events[k].event.Close? }

  lemma SpacedSolid(parts: seq<string>, t: string)
    ensures Solid(Spaced(parts + [t])) == Solid(Spaced(parts)) + Solid(t)
  {
    SpacedNext(parts, t);
    if parts != [] {
      var head := Spaced(parts);
      SolidConcat(head + " ", t);
      SolidConcat(head, " ");
      assert " "[1..] == "";
    }
  }

  lemma CallerTextNext(said: seq<Entry>, x: Entry)
    ensures CallerText(TurnsOf(said + [x])) == CallerText(TurnsOf(said)) + (if x.role.User? then TurnOf(x).content else "")
  {
    TurnsNext(said, x);
    assert (TurnsOf(said) + [TurnOf(x)])[..|said|] == TurnsOf(said);
  }

  lemma CutKeepsCaller(t: Tale)
    ensures CallerText(TurnsOf(CutOff(t).said)) == CallerText(TurnsOf(t.said))
  {
    var n := |t.said|;
    if n > 0 && t.said[n - 1].role.Assistant? {
      assert t.said == t.said[..n - 1] + [t.said[n - 1]];
      CallerTextNext(t.said[..n - 1], t.said[n - 1]);
      CallerTextNext(t.said[..n - 1], t.said[n - 1].(cut := true));
    }
  }

  function Told(t: Tale): string { CallerText(TurnsOf(t.said)) }

  lemma AgentAddsNone(t: Tale, x: Entry)
    requires x.role.Assistant?
    ensures Told(Add(t, x)) == Told(t)
  {
    CallerTextNext(t.said, x);
  }

  lemma CallerIsTold(t: Tale, at: int, source: Option<string>)
    ensures Caller(t, at, source).heard == [] && Told(Caller(t, at, source)) == Told(t) + Spaced(t.heard)
  {
    if t.heard != [] {
      CallerTextNext(t.said, Entry(User, Spaced(t.heard), false, at - t.began, source, None));
    }
  }

  /** The words told and those heard since. */
  function Words(t: Tale): string { Solid(Told(t)) + Solid(Spaced(t.heard)) }

  lemma FinalAdds(c: Setup, t: Tale, e: Timed, spoken: seq<Prompt>)
    requires e.event.Final?
    ensures Words(Next(c, t, e, spoken)) == Words(t) + Solid(TextOf(e.event))
  {
    TrimKeepsSolid(e.event.text);
    if Trim(e.event.text) != "" {
      SpacedSolid(t.heard, Trim(e.event.text));
    }
  }

  lemma CallerMoves(t: Tale, at: int, source: Option<string>)
    ensures Words(Caller(t, at, source)) == Words(t) && Caller(t, at, source).heard == []
  {
    CallerIsTold(t, at, source);
    SolidConcat(Told(t), Spaced(t.heard));
  }

  /** One event moves words from what is heard to what is told, or adds its own. */
  lemma WordsMove(c: Setup, t: Tale, e: Timed, spoken: seq<Prompt>)
    requires !t.over
    ensures var u := Next(c, t, e, spoken);
            && Words(u) == Words(t) + Solid(TextOf(e.event))
            && (e.event.Close? ==> u.heard == [])
  {
    match e.event {
      case Final(text) => FinalAdds(c, t, e, spoken);
      case UtteranceEnd => CallerMoves(t, e.at, Some("utterance_end"));
      case Close => CallerMoves(t.(over := true), e.at, None);
      case _ => AgentsTurn(c, t, e, spoken);
    }
  }

  /** The agent and the ladder leave the caller's words alone; after the end so does everything. */
  lemma AgentsTurn(c: Setup, t: Tale, e: Timed, spoken: seq<Prompt>)
    requires t.over || !(e.event.Final? || e.event.UtteranceEnd? || e.event.Close?)
    ensures var u := Next(c, t, e, spoken);
            Told(u) == Told(t) && (!e.event.Final? && !e.event.UtteranceEnd? ==> u.heard == t.heard)
  {
    match e.event {
      case Start(disclosure) => AgentAddsNone(t.(began := e.at), Entry(Assistant, disclosure, false, 0, None, None));
      case Onset => CutKeepsCaller(t);
      case ReplyEnd(_, content) => AgentAddsNone(t, Entry(Assistant, content, false, e.at - t.began, None, None));
      case Refused(reason) => AgentAddsNone(t, Entry(Assistant, c.fallbackLine, false, e.at - t.began, None, Some(reason)));
      case Farewell(line) => AgentAddsNone(t, Entry(Assistant, line, false, e.at - t.began, None, None));
      case Tick(_) => LadderAddsNone(c, t, e, spoken);
      case _ =>
    }
  }

  lemma LadderAddsNone(c: Setup, t: Tale, e: Timed, spoken: seq<Prompt>)
    requires e.event.Tick?
    ensures var u := Next(c, t, e, spoken); Told(u) == Told(t) && u.heard == t.heard
  {
    if spoken != [] {
      AgentAddsNone(t, Entry(Assistant, LineOf(c, spoken[0]), false, e.at - t.began, None, None));
    }
  }

  lemma OverNext(front: seq<Timed>, e: Timed)
    ensures Over(front + [e]) <==> Over(front) || e.event.Close?
  {
    assert (front + [e])[|front|] == e;
    assert forall k :: 0 <= k < |front| ==> (front + [e])[k] == front[k];
  }

  lemma OverStep(c: Setup, t: Tale, e: Timed, spoken: seq<Prompt>)
    ensures Next(c, t, e, spoken).over <==> t.over || e.event.Close?
  {}

  lemma TaleNext(c: Setup, front: seq<Timed>, e: Timed)
    ensures var s := Run(c, front);
            TaleOf(c, front + [e]) == Next(c, TaleOf(c, front), e, NewPrompts(s, Step(c, s, e)))
  {
    assert (front + [e])[..|front|] == front;
  }

  /** The caller's words, told or still heard, are this text's. */
  predicate Keeps(t: Tale, text: string) { Words(t) == Solid(text) }

  lemma KeepsNext(c: Setup, t: Tale, text: string, e: Timed, spoken: seq<Prompt>)
    requires !t.over && Keeps(t, text)
    ensures var u := Next(c, t, e, spoken);
            && Keeps(u, text + TextOf(e.event))
            && (e.event.Close? ==> Solid(Told(u)) == Solid(text))
  {
    WordsMove(c, t, e, spoken);
    SolidConcat(text, TextOf(e.event));
  }

  lemma {:induction false} TaleKeepsWords(c: Setup, events: seq<Timed>)
    requires !Over(events)
    ensures Keeps(TaleOf(c, events), FinalText(events)) && !TaleOf(c, events).over
  {
    if events != [] {
      var front, e := events[..|events| - 1], events[|events| - 1];
      var s := Run(c, front);
      assert events == front + [e];
      OverNext(front, e);
      TaleKeepsWords(c, front);
      TaleNext(c, front, e);
      KeepsNext(c, TaleOf(c, front), FinalText(front), e, NewPrompts(s, Step(c, s, e)));
      OverStep(c, TaleOf(c, front), e, NewPrompts(s, Step(c, s, e)));
    }
  }

  /** As long as the call is open, everything heard in it is in the caller's turns or still
      pending, character for character and in order, white space aside. */
  lemma WordsAreKept(c: Setup, events: seq<Timed>)
    requires !Over(events)
    ensures var s := Run(c, events);
            Solid(CallerText(s.turns)) + Solid(s.pending) == Solid(FinalText(events))
  {
    TranscriptIsTale(c, events);
    TaleKeepsWords(c, events);
  }

  lemma {:induction false} ToldStays(c: Setup, t: Tale, closed: seq<Timed>, later: seq<Timed>)
    requires StillTold(t, TaleOf(c, closed))
    ensures StillTold(t, TaleOf(c, closed + later))
    decreases |later|
  {
    if later == [] {
      assert closed + later == closed;
    } else {
      assert closed + later == (closed + [later[0]]) + later[1..];
      LaterIsNotTold(c, closed, later[0]);
      ToldStays(c, t, closed + [later[0]], later[1..]);
    }
  }

  /** The caller's words are what they were, and the call is over. */
  predicate StillTold(t: Tale, u: Tale) { Told(u) == Told(t) && u.over }

  lemma LaterIsNotTold(c: Setup, front: seq<Timed>, e: Timed)
    requires TaleOf(c, front).over
    ensures StillTold(TaleOf(c, front), TaleOf(c, front + [e]))
  {
    var s := Run(c, front);
    TaleNext(c, front, e);
    AgentsTurn(c, TaleOf(c, front), e, NewPrompts(s, Step(c, s, e)));
    OverStep(c, TaleOf(c, front), e, NewPrompts(s, Step(c, s, e)));
  }

  lemma TailIsTold(c: Setup, events: seq<Timed>, at: int)
    requires !Over(events)
    ensures var t := TaleOf(c, events + [Timed(Close, at)]); Solid(Told(t)) == Solid(FinalText(events)) && t.over
  {
    var s, e := Run(c, events), Timed(Close, at);
    TaleKeepsWords(c, events);
    TaleNext(c, events, e);
    KeepsNext(c, TaleOf(c, events), FinalText(events), e, NewPrompts(s, Step(c, s, e)));
    OverStep(c, TaleOf(c, events), e, NewPrompts(s, Step(c, s, e)));
  }

  /** The end of the call turns what is pending into the caller's last turn: then all that
      was heard is in the turns, and nothing heard later gets in. */
  lemma CloseKeepsWords(c: Setup, events: seq<Timed>, at: int, later: seq<Timed>)
    requires !Over(events)
    ensures Solid(CallerText(Run(c, events + [Timed(Close, at)] + later).turns)) == Solid(FinalText(events))
  {
    TailIsTold(c, events, at);
    ToldStays(c, TaleOf(c, events + [Timed(Close, at)]), events + [Timed(Close, at)], later);
    TranscriptIsTale(c, events + [Timed(Close, at)] + later);
  }

  // ---- From the line to the store ----------------------------------------------------------

  /** Over any run of the session, any writes of transcripts it had on the way and a finalize
      store, for each thing audibly said, a row at its place with its words, its speaker, its
      time and its reason, and nothing else for the call. */
  lemma SessionIsStored(c: Setup, events: seq<Timed>, base: Store, writes: seq<Write>, target: Target)
    requires Unstarted(base, target.callSid)
    requires forall w :: w in writes ==> WasTranscript(c, events, w.turns)
    ensures var final := TurnsOf(TaleOf(c, events).said);
            var db := Finalize(PerformAll(base, writes, target), RowsFrom(final, target));
            && final == Run(c, events).turns
            && (forall n :: 0 <= n < |final| && Audible(final[n]) ==>
                  var place := Audibles(final[..n]);
                  Key(target.callSid, place) in db && Records(db[Key(target.callSid, place)], final[n], place, target))
            && (forall i: nat :: i >= Audibles(final) ==> Key(target.callSid, i) !in db)
  {
    TranscriptIsTale(c, events);
    forall w | w in writes
      ensures Grows(w.turns, Run(c, events).turns)
    {
      var n :| 0 <= n <= |events| && w.turns == Run(c, events[..n]).turns;
      TranscriptGrows(c, events, n);
    }
    CallIsStored(base, writes, Run(c, events).turns, target);
  }
}
