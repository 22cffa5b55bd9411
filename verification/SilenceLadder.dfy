/** The call session's silence ladder - one bridge line, one re-engage line - and the
    discipline of its transcript, over every order of onsets, finals, sends and ticks. */
module SilenceLadder {
  import opened Options
  import opened Text
  import opened TranscriptPersist

  const INTERRUPTED := " [interrupted]"

  /** The rungs' delays in milliseconds - one that is not positive is off - the grace given to
      an onset without words, and the constant lines. */
  datatype Setup = Setup(bridgeAfterMs: int, reengageAfterMs: int, graceMs: int,
                         bridgeLine: string, reengageLine: string, fallbackLine: string)

  /** A line the ladder spoke; the bridge with the number of replies begun before it. */
  datatype Prompt = Bridge(replies: nat) | Reengage

  /** Times, 0 until first stamped: of the call's start, the end of the disclosure at the
      ear, the last audio, the last words, the last onset and the start of the current streak
      of onsets without words. */
  datatype Clocks = Clocks(startedAt: int, wireEndAt: int, audioAt: int, wordsAt: int, onsetAt: int, streakAt: int)

  datatype Rungs = Rungs(bridged: bool, reengaged: bool, prompts: seq<Prompt>)

  /** `owner` is the speech that holds the floor, 0 for none, of the `begun` ones. */
  datatype Floor = Floor(speaking: bool, owner: nat, begun: nat)

  datatype Call = Call(clocks: Clocks, rungs: Rungs, floor: Floor, closed: bool, turnCount: nat, disclosureDone: bool,
                       pending: string, turns: seq<Turn>)

  const FRESH := Call(Clocks(0, 0, 0, 0, 0, 0), Rungs(false, false, []), Floor(false, 0, 0), false, 0, false, "", [])

  /** What happens to a session: its start, the recogniser's callbacks, a frame leaving for
      the transport, the end of a speech, a refused sentence, a constant goodbye, the
      ladder's tick with the pacer's outstanding audio, and the end of the call. */
  datatype Event =
    | Start(disclosure: string)
    | Onset
    | Final(text: string)
    | UtteranceEnd
    | WireSend
    | DisclosureEnd(speech: nat)
    | ReplyEnd(speech: nat, content: string)
    | LineEnd(speech: nat)
    | Refused(reason: string)
    | Farewell(line: string)
    | Tick(outstandingMs: int)
    | Close

  datatype Timed = Timed(event: Event, at: int)

  function Max(x: int, y: int): int { if x < y then y else x }

  // ---- One event -----------------------------------------------------------------------

  function Say(s: Call, role: Role, content: string, now: int, source: Option<string>, refusal: Option<string>): Call {
    s.(turns := s.turns + [Turn(role, content, Some(now - s.clocks.startedAt), source, refusal)])
  }

  function Taken(f: Floor): Floor { Floor(true, f.begun + 1, f.begun + 1) }

  function Yielded(f: Floor, speech: nat): Floor {
    if speech != 0 && f.owner == speech then f.(speaking := false, owner := 0) else f
  }

  /** A speech of a constant line begins. */
  function Speak(s: Call, line: string, now: int): Call {
    Say(s.(floor := Taken(s.floor)), Assistant, line, now, None, None)
  }

  function Marked(turns: seq<Turn>): seq<Turn> {
    var n := |turns|;
    if n > 0 && turns[n - 1].role.Assistant?
    then turns[n - 1 := turns[n - 1].(content := turns[n - 1].content + INTERRUPTED)] else turns
  }

  /** A barge-in: the floor is lost and a last turn of the agent's is marked. */
  function BargedIn(s: Call): Call { s.(floor := s.floor.(speaking := false), turns := Marked(s.turns)) }

  function Began(s: Call, disclosure: string, now: int): Call {
    s.(clocks := s.clocks.(startedAt := now), floor := Taken(s.floor),
       turns := s.turns + [Turn(Assistant, disclosure, Some(0), None, None)])
  }

  function Onsetted(s: Call, now: int): Call {
    var t := s.(clocks := s.clocks.(onsetAt := now, streakAt := if s.clocks.streakAt == 0 then now else s.clocks.streakAt));
    if t.floor.speaking then BargedIn(t) else t
  }

  function Merge(pending: string, text: string): string {
    if Trim(text) == "" then pending else if pending == "" then Trim(text) else pending + " " + Trim(text)
  }

  function Heard(s: Call, text: string, now: int): Call {
    if Trim(text) == "" then s else
    s.(clocks := s.clocks.(wordsAt := now, streakAt := 0), pending := Merge(s.pending, text))
  }

  function Committed(s: Call, text: string, now: int): Call {
    if s.closed || text == "" then s else
    var t := Say(s, User, text, now, Some("utterance_end"), None);
    t.(floor := Taken(t.floor), turnCount := t.turnCount + 1, clocks := t.clocks.(audioAt := now))
  }

  function RefusedWith(c: Setup, s: Call, reason: string, now: int): Call {
    Say(s.(floor := Taken(s.floor).(speaking := s.floor.speaking)), Assistant, c.fallbackLine, now, None, Some(reason))
  }

  function Ended(s: Call, now: int): Call {
    if s.closed then s else
    var t := s.(closed := true, pending := "");
    if s.pending == "" then t else Say(t, User, s.pending, now, None, None)
  }

  function CallerActivity(c: Setup, k: Clocks, now: int): int {
    var onsetLive := k.onsetAt > 0 && now - k.onsetAt < c.graceMs && !(k.streakAt > 0 && now - k.streakAt >= c.graceMs);
    Max(k.wordsAt, if onsetLive then k.onsetAt else 0)
  }

  function SpeakBridge(c: Setup, s: Call, now: int): Call {
    Speak(s.(rungs := s.rungs.(bridged := true, prompts := s.rungs.prompts + [Bridge(s.turnCount)])), c.bridgeLine, now)
  }

  function SpeakReengage(c: Setup, s: Call, now: int): Call {
    Speak(s.(rungs := s.rungs.(reengaged := true, prompts := s.rungs.prompts + [Reengage])), c.reengageLine, now)
  }

  function MaybeBridge(c: Setup, s: Call, now: int): Call {
    if s.closed || s.rungs.bridged || s.rungs.reengaged || s.floor.speaking then s
    else if s.turnCount > 0 then s.(rungs := s.rungs.(bridged := true))
    else if c.bridgeAfterMs <= 0 || s.clocks.wireEndAt == 0 || s.pending != "" then s
    else if now - Max(Max(s.clocks.wireEndAt, s.clocks.audioAt), CallerActivity(c, s.clocks, now)) < c.bridgeAfterMs then s
    else SpeakBridge(c, s, now)
  }

  function MaybeReengage(c: Setup, s: Call, now: int): Call {
    if s.closed || s.rungs.reengaged || s.floor.speaking || s.pending != "" || c.reengageAfterMs <= 0 then s else
    var base := Max(s.clocks.audioAt, CallerActivity(c, s.clocks, now));
    if base == 0 || now - base < c.reengageAfterMs then s else SpeakReengage(c, s, now)
  }

  function Stamped(s: Call, now: int, outstandingMs: int): Call {
    if s.disclosureDone && s.clocks.wireEndAt == 0 && outstandingMs == 0
    then s.(clocks := s.clocks.(wireEndAt := now)) else s
  }

  function Ticked(c: Setup, s: Call, now: int, outstandingMs: int): Call {
    MaybeReengage(c, MaybeBridge(c, Stamped(s, now, outstandingMs), now), now)
  }

  function Step(c: Setup, s: Call, e: Timed): Call {
    var now := e.at;
    match e.event
    case Start(disclosure) => Began(s, disclosure, now)
    case Onset => Onsetted(s, now)
    case Final(text) => Heard(s, text, now)
    case UtteranceEnd => Committed(s.(pending := ""), s.pending, now)
    case WireSend => s.(clocks := s.clocks.(audioAt := now))
    case DisclosureEnd(speech) => s.(disclosureDone := true, floor := Yielded(s.floor, speech))
    case ReplyEnd(speech, content) => Say(s, Assistant, content, now, None, None).(floor := Yielded(s.floor, speech))
    case LineEnd(speech) => s.(floor := Yielded(s.floor, speech))
    case Refused(reason) => RefusedWith(c, s, reason, now)
    case Farewell(line) => if s.closed then s else Speak(s, line, now)
    case Tick(outstandingMs) => Ticked(c, s, now, outstandingMs)
    case Close => Ended(s, now)
  }

  function Run(c: Setup, events: seq<Timed>): Call {
    if events == [] then FRESH else Step(c, Run(c, events[..|events| - 1]), events[|events| - 1])
  }

  // ---- The source's object ---------------------------------------------------------------

  class CallSession {
    const setup: Setup
    var startedAtMs: int
    var speaking: bool
    var closed: bool
    var bridged: bool
    var reengaged: bool
    var turnCount: nat
    var disclosureDone: bool
    var disclosureWireEndAt: int
    var turnLastAudioAt: int
    var lastCallerFinalAt: int
    var speechStartedAt: int
    var wordlessOnsetSince: int
    var pending: string
    var turns: seq<Turn>
    var ttsAbort: nat
    var speeches: nat
    var prompts: seq<Prompt>

    constructor (setup: Setup)
      ensures this.setup == setup && Now() == FRESH
    {
      this.setup := setup;
      startedAtMs, speaking, closed, bridged, reengaged, turnCount := 0, false, false, false, false, 0;
      disclosureDone, disclosureWireEndAt, turnLastAudioAt := false, 0, 0;
      lastCallerFinalAt, speechStartedAt, wordlessOnsetSince := 0, 0, 0;
      pending, turns, ttsAbort, speeches, prompts := "", [], 0, 0, [];
    }

    function Now(): Call
      reads this
    {
      Call(Clocks(startedAtMs, disclosureWireEndAt, turnLastAudioAt, lastCallerFinalAt, speechStartedAt, wordlessOnsetSince),
           Rungs(bridged, reengaged, prompts), Floor(speaking, ttsAbort, speeches), closed, turnCount, disclosureDone, pending, turns)
    }

    method PushTurn(turn: Turn)
      modifies this`turns
      ensures turns == old(turns) + [turn]
    {
      turns := turns + [turn];
    }

    method OnSpeechStarted(now: int)
      modifies this
      ensures Now() == Step(setup, old(Now()), Timed(Onset, now))
    {
      speechStartedAt := now;
      if wordlessOnsetSince == 0 { wordlessOnsetSince := now; }
      if speaking { BargeIn(); }
    }

    method BargeIn()
      modifies this
      ensures Now() == BargedIn(old(Now()))
    {
      speaking := false;
      if |turns| > 0 && turns[|turns| - 1].role.Assistant? {
        var current := turns[|turns| - 1];
        turns := turns[|turns| - 1 := current.(content := current.content + INTERRUPTED)];
      }
    }

    method OnCallerFinal(text: string, now: int)
      modifies this
      ensures Now() == Step(setup, old(Now()), Timed(Final(text), now))
    {
      if Trim(text) != "" {
        lastCallerFinalAt := now;
        wordlessOnsetSince := 0;
      }
      var t := Trim(text);
      if t != "" { pending := if pending != "" then pending + " " + t else t; }
    }

    method OnUtteranceEnd(now: int)
      modifies this
      ensures Now() == Step(setup, old(Now()), Timed(UtteranceEnd, now))
    {
      if pending == "" { return; }
      var text := pending;
      pending := "";
      OnTurnCommit(text, now);
    }

    method OnTurnCommit(text: string, now: int)
      modifies this
      ensures Now() == Committed(old(Now()), text, now)
    {
      if closed || text == "" { return; }
      PushTurn(Turn(User, text, Some(now - startedAtMs), Some("utterance_end"), None));
      turnCount := turnCount + 1;
      NewSpeech();
      speaking := true;
      turnLastAudioAt := now;
    }

    method NewSpeech()
      modifies this`ttsAbort, this`speeches
      ensures speeches == old(speeches) + 1 && ttsAbort == speeches
    {
      speeches := speeches + 1;
      ttsAbort := speeches;
    }

    method RecordAudioSend(now: int)
      modifies this
      ensures Now() == Step(setup, old(Now()), Timed(WireSend, now))
    {
      turnLastAudioAt := now;
    }

    method BeginDisclosure(disclosure: string, now: int)
      modifies this
      ensures Now() == Step(setup, old(Now()), Timed(Start(disclosure), now))
    {
      startedAtMs := now;
      NewSpeech();
      speaking := true;
      PushTurn(Turn(Assistant, disclosure, Some(0), None, None));
    }

    method EndDisclosure(speech: nat, now: int)
      modifies this
      ensures Now() == Step(setup, old(Now()), Timed(DisclosureEnd(speech), now))
    {
      disclosureDone := true;
      EndSpeech(speech);
    }

    method EndSpeech(speech: nat)
      modifies this`speaking, this`ttsAbort
      ensures Now() == old(Now()).(floor := Yielded(old(Now()).floor, speech))
    {
      if speech != 0 && ttsAbort == speech {
        speaking := false;
        ttsAbort := 0;
      }
    }

    method EndReply(speech: nat, content: string, now: int)
      modifies this
      ensures Now() == Step(setup, old(Now()), Timed(ReplyEnd(speech, content), now))
    {
      PushTurn(Turn(Assistant, content, Some(now - startedAtMs), None, None));
      EndSpeech(speech);
    }

    method Refuse(reason: string, now: int)
      modifies this
      ensures Now() == Step(setup, old(Now()), Timed(Refused(reason), now))
    {
      NewSpeech();
      PushTurn(Turn(Assistant, setup.fallbackLine, Some(now - startedAtMs), None, Some(reason)));
    }

    method SayConstantAndEnd(line: string, now: int)
      modifies this
      ensures Now() == Step(setup, old(Now()), Timed(Farewell(line), now))
    {
      if closed { return; }
      SpeakLine(line, now);
    }

    method SpeakLine(line: string, now: int)
      modifies this`ttsAbort, this`speeches, this`speaking, this`turns
      ensures Now() == Speak(old(Now()), line, now)
    {
      NewSpeech();
      speaking := true;
      PushTurn(Turn(Assistant, line, Some(now - startedAtMs), None, None));
    }

    method CallerActivityAt(now: int) returns (at: int)
      ensures at == CallerActivity(setup, Now().clocks, now)
    {
      var onsetLive := speechStartedAt > 0 && now - speechStartedAt < setup.graceMs
                       && !(wordlessOnsetSince > 0 && now - wordlessOnsetSince >= setup.graceMs);
      at := Max(lastCallerFinalAt, if onsetLive then speechStartedAt else 0);
    }

    method SilenceLadderTick(now: int, outstandingMs: int)
      modifies this
      ensures Now() == Step(setup, old(Now()), Timed(Tick(outstandingMs), now))
    {
      if disclosureDone && disclosureWireEndAt == 0 && outstandingMs == 0 {
        disclosureWireEndAt := now;
      }
      TryBridge(now);
      TryReengage(now);
    }

    method TryBridge(now: int)
      modifies this
      ensures Now() == MaybeBridge(setup, old(Now()), now)
    {
      if closed || bridged || reengaged || speaking { return; }
      if turnCount > 0 {
        bridged := true;
        return;
      }
      if setup.bridgeAfterMs <= 0 { return; }
      if disclosureWireEndAt == 0 { return; }
      if pending != "" { return; }
      var activity := CallerActivityAt(now);
      var base := Max(Max(disclosureWireEndAt, turnLastAudioAt), activity);
      if now - base < setup.bridgeAfterMs { return; }
      SpeakBridgeLine(now);
    }

    method SpeakBridgeLine(now: int)
      modifies this
      ensures Now() == if closed || old(speaking || bridged || reengaged) then old(Now()) else SpeakBridge(setup, old(Now()), now)
    {
      if closed || speaking || bridged || reengaged { return; }
      bridged := true;
      prompts := prompts + [Bridge(turnCount)];
      SpeakLine(setup.bridgeLine, now);
    }

    method TryReengage(now: int)
      modifies this
      ensures Now() == MaybeReengage(setup, old(Now()), now)
    {
      if closed || reengaged || speaking { return; }
      if pending != "" { return; }
      if setup.reengageAfterMs <= 0 { return; }
      var activity := CallerActivityAt(now);
      var base := Max(turnLastAudioAt, activity);
      if base == 0 { return; }
      if now - base < setup.reengageAfterMs { return; }
      SpeakReengageLine(now);
    }

    method SpeakReengageLine(now: int)
      modifies this
      ensures Now() == if closed || old(speaking || reengaged) then old(Now()) else SpeakReengage(setup, old(Now()), now)
    {
      if closed || speaking || reengaged { return; }
      reengaged := true;
      prompts := prompts + [Reengage];
      SpeakLine(setup.reengageLine, now);
    }

    method Shutdown(now: int)
      modifies this
      ensures Now() == Step(setup, old(Now()), Timed(Close, now))
    {
      if closed { return; }
      closed := true;
      var tail := pending;
      pending := "";
      if tail != "" { PushTurn(Turn(User, tail, Some(now - startedAtMs), None, None)); }
    }
  }

  /** A whole call: every event in turn through the object's handlers. */
  method PlayCall(setup: Setup, events: seq<Timed>) returns (turns: seq<Turn>, prompts: seq<Prompt>)
    ensures turns == Run(setup, events).turns && prompts == Run(setup, events).rungs.prompts
  {
    var session := new CallSession(setup);
    for i := 0 to |events|
      invariant session.setup == setup && fresh(session) && session.Now() == Run(setup, events[..i])
    {
      assert events[..i + 1][..i] == events[..i];
      Handle(session, events[i]);
    }
    assert events[..|events|] == events;
    return session.turns, session.prompts;
  }

  method Handle(session: CallSession, e: Timed)
    modifies session
    ensures session.Now() == Step(session.setup, old(session.Now()), e)
  {
    match e.event {
      case Start(disclosure) => session.BeginDisclosure(disclosure, e.at);
      case Onset => session.OnSpeechStarted(e.at);
      case Final(text) => session.OnCallerFinal(text, e.at);
      case UtteranceEnd => session.OnUtteranceEnd(e.at);
      case WireSend => session.RecordAudioSend(e.at);
      case DisclosureEnd(speech) => session.EndDisclosure(speech, e.at);
      case ReplyEnd(speech, content) => session.EndReply(speech, content, e.at);
      case LineEnd(speech) => session.EndSpeech(speech);
      case Refused(reason) => session.Refuse(reason, e.at);
      case Farewell(line) => session.SayConstantAndEnd(line, e.at);
      case Tick(outstandingMs) => session.SilenceLadderTick(e.at, outstandingMs);
      case Close => session.Shutdown(e.at);
    }
  }

  // ---- Each prompt once ------------------------------------------------------------------

  /** The bridge at most once and before any reply, the re-engage at most once, and never the
      bridge after the re-engage; the flags say which were spoken. */
  predicate Laddered(r: Rungs) {
    || (r.prompts == [] && !r.reengaged)
    || (r.prompts == [Bridge(0)] && r.bridged && !r.reengaged)
    || (r.prompts == [Reengage] && r.reengaged)
    || (r.prompts == [Bridge(0), Reengage] && r.bridged && r.reengaged)
  }

  /** Only a tick touches the rungs. */
  lemma OnlyTicksPrompt(c: Setup, s: Call, e: Timed)
    requires !e.event.Tick?
    ensures Step(c, s, e).rungs == s.rungs
  {}

  lemma BridgeLadders(c: Setup, s: Call, now: int)
    requires Laddered(s.rungs)
    ensures Laddered(MaybeBridge(c, s, now).rungs)
  {}

  lemma ReengageLadders(c: Setup, s: Call, now: int)
    requires Laddered(s.rungs)
    ensures Laddered(MaybeReengage(c, s, now).rungs)
  {}

  lemma StepLadders(c: Setup, s: Call, e: Timed)
    requires Laddered(s.rungs)
    ensures Laddered(Step(c, s, e).rungs)
  {
    if e.event.Tick? {
      var t := Stamped(s, e.at, e.event.outstandingMs);
      BridgeLadders(c, t, e.at);
      ReengageLadders(c, MaybeBridge(c, t, e.at), e.at);
    } else {
      OnlyTicksPrompt(c, s, e);
    }
  }

  lemma {:induction false} PromptsOnce(c: Setup, events: seq<Timed>)
    ensures Laddered(Run(c, events).rungs)
  {
    if events != [] {
      PromptsOnce(c, events[..|events| - 1]);
      StepLadders(c, Run(c, events[..|events| - 1]), events[|events| - 1]);
    }
  }

  // ---- The clocks are the history --------------------------------------------------------

  /** Time runs forward from a positive start. */
  predicate Clocked(events: seq<Timed>) {
    && (forall k :: 0 <= k < |events| ==> events[k].at > 0)
    && forall j, k :: 0 <= j <= k < |events| ==> events[j].at <= events[k].at
  }

  function Latest(events: seq<Timed>): int { if events == [] then 0 else events[|events| - 1].at }

  predicate IsWords(e: Event) { e.Final? && Trim(e.text) != "" }

  /** Time of the last final that had words. */
  function LastWords(events: seq<Timed>): int {
    if events == [] then 0
    else if IsWords(events[|events| - 1].event) then events[|events| - 1].at
    else LastWords(events[..|events| - 1])
  }

  function LastOnset(events: seq<Timed>): int {
    if events == [] then 0
    else if events[|events| - 1].event.Onset? then events[|events| - 1].at
    else LastOnset(events[..|events| - 1])
  }

  /** Time of the first onset after the last words, 0 when there was none. */
  function StreakStart(events: seq<Timed>): int {
    if events == [] then 0 else
    var last, before := events[|events| - 1], StreakStart(events[..|events| - 1]);
    if IsWords(last.event) then 0 else if last.event.Onset? && before == 0 then last.at else before
  }

  lemma TickKeepsCaller(c: Setup, s: Call, now: int, outstandingMs: int)
    ensures var t := Ticked(c, s, now, outstandingMs);
            t.clocks == s.clocks.(wireEndAt := t.clocks.wireEndAt) && t.turnCount == s.turnCount
  {}

  lemma StepClocks(c: Setup, s: Call, e: Timed)
    ensures var k := Step(c, s, e).clocks;
            && k.wordsAt == (if IsWords(e.event) then e.at else s.clocks.wordsAt)
            && k.onsetAt == (if e.event.Onset? then e.at else s.clocks.onsetAt)
            && k.audioAt == (if e.event.WireSend? || Step(c, s, e).turnCount > s.turnCount then e.at else s.clocks.audioAt)
            && k.streakAt == (if IsWords(e.event) then 0 else if e.event.Onset? && s.clocks.streakAt == 0 then e.at else s.clocks.streakAt)
  {
    if e.event.Tick? {
      TickKeepsCaller(c, s, e.at, e.event.outstandingMs);
    }
  }

  lemma {:induction false} ClocksAreHistory(c: Setup, events: seq<Timed>)
    ensures var k := Run(c, events).clocks;
            k.wordsAt == LastWords(events) && k.onsetAt == LastOnset(events) && k.streakAt == StreakStart(events)
  {
    if events != [] {
      ClocksAreHistory(c, events[..|events| - 1]);
      StepClocks(c, Run(c, events[..|events| - 1]), events[|events| - 1]);
    }
  }

  lemma ClockedFront(events: seq<Timed>)
    requires Clocked(events) && events != []
    ensures Clocked(events[..|events| - 1]) && Latest(events[..|events| - 1]) <= events[|events| - 1].at
  {}

  lemma {:induction false} StreakFollowsWords(events: seq<Timed>)
    requires Clocked(events)
    ensures 0 <= LastWords(events) <= Latest(events) && 0 <= LastOnset(events) <= Latest(events)
    ensures if StreakStart(events) == 0 then LastOnset(events) <= LastWords(events)
            else LastWords(events) <= StreakStart(events) <= LastOnset(events)
  {
    if events != [] {
      ClockedFront(events);
      StreakFollowsWords(events[..|events| - 1]);
    }
  }

  /** While a streak of wordless onsets is younger than the grace, its latest onset; otherwise
      only the last words. */
  function HeldBy(c: Setup, events: seq<Timed>, now: int): int {
    if StreakStart(events) > 0 && now - StreakStart(events) < c.graceMs then LastOnset(events) else LastWords(events)
  }

  /** What holds the ladder, exactly. */
  lemma HoldIsBounded(c: Setup, events: seq<Timed>, now: int)
    requires Clocked(events) && Latest(events) <= now
    ensures CallerActivity(c, Run(c, events).clocks, now) == HeldBy(c, events, now)
  {
    ClocksAreHistory(c, events);
    StreakFollowsWords(events);
  }

  // ---- Only in quiet, and then surely ----------------------------------------------------

  /** The line is spoken from s to t, into quiet: no live caller activity and no audio for
      `ms`, nobody speaking and nothing being merged. */
  predicate SpokenInQuiet(c: Setup, s: Call, t: Call, prompt: Prompt, line: string, ms: int, now: int) {
    && ms > 0 && !s.closed && !s.floor.speaking && s.pending == ""
    && now - CallerActivity(c, s.clocks, now) >= ms && now - s.clocks.audioAt >= ms
    && t.rungs.prompts == s.rungs.prompts + [prompt] && t.floor.speaking
    && t.turns == s.turns + [Turn(Assistant, line, Some(now - s.clocks.startedAt), None, None)]
  }

  /** The bridge, moreover, before any reply and after the end of the disclosure. */
  predicate BridgedInQuiet(c: Setup, s: Call, t: Call, now: int) {
    && SpokenInQuiet(c, s, t, Bridge(0), c.bridgeLine, c.bridgeAfterMs, now)
    && s.turnCount == 0 && s.clocks.wireEndAt != 0 && now - s.clocks.wireEndAt >= c.bridgeAfterMs
  }

  lemma QuietBridge(c: Setup, s: Call, now: int)
    ensures var t := MaybeBridge(c, s, now);
            t == s.(rungs := s.rungs.(bridged := t.rungs.bridged)) || BridgedInQuiet(c, s, t, now)
  {}

  lemma QuietReengage(c: Setup, s: Call, now: int)
    ensures var t := MaybeReengage(c, s, now);
            t == s || SpokenInQuiet(c, s, t, Reengage, c.reengageLine, c.reengageAfterMs, now)
  {}

  lemma QuietTick(c: Setup, s: Call, now: int, outstandingMs: int)
    ensures var t := Ticked(c, s, now, outstandingMs);
            || t.rungs.prompts == s.rungs.prompts
            || SpokenInQuiet(c, s, t, Reengage, c.reengageLine, c.reengageAfterMs, now)
            || BridgedInQuiet(c, s, t, now)
  {
    var t := Stamped(s, now, outstandingMs);
    QuietBridge(c, t, now);
    QuietReengage(c, MaybeBridge(c, t, now), now);
  }

  /** A tick speaks at most one prompt, and one only into mutual quiet of that prompt's own
      length: nothing said or sent, and no onset that still counts, for so long; the bridge
      moreover only that long after the disclosure was over, and before any reply. */
  lemma PromptsNeedQuiet(c: Setup, events: seq<Timed>, tick: Timed)
    requires tick.event.Tick? && Clocked(events) && Latest(events) <= tick.at
    ensures var s, t := Run(c, events), Step(c, Run(c, events), tick);
            && CallerActivity(c, s.clocks, tick.at) == HeldBy(c, events, tick.at)
            && (|| t.rungs.prompts == s.rungs.prompts
                || SpokenInQuiet(c, s, t, Reengage, c.reengageLine, c.reengageAfterMs, tick.at)
                || (BridgedInQuiet(c, s, t, tick.at) && s.disclosureDone))
  {
    HoldIsBounded(c, events, tick.at);
    WireEndNeedsDisclosure(c, events);
    QuietTick(c, Run(c, events), tick.at, tick.event.outstandingMs);
  }

  lemma StepWireEnd(c: Setup, s: Call, e: Timed)
    ensures var t := Step(c, s, e); (t.clocks.wireEndAt == s.clocks.wireEndAt || t.disclosureDone) && (s.disclosureDone ==> t.disclosureDone)
  {
    if e.event.Tick? {
      QuietTick(c, s, e.at, e.event.outstandingMs);
    }
  }

  lemma {:induction false} WireEndNeedsDisclosure(c: Setup, events: seq<Timed>)
    ensures Run(c, events).clocks.wireEndAt != 0 ==> Run(c, events).disclosureDone
  {
    if events != [] {
      WireEndNeedsDisclosure(c, events[..|events| - 1]);
      StepWireEnd(c, Run(c, events[..|events| - 1]), events[|events| - 1]);
    }
  }

  /** Onsets, finals without words, and ticks: what a line makes on its own. */
  predicate IsNoise(e: Event) { e.Onset? || (e.Final? && Trim(e.text) == "") || e.UtteranceEnd? || e.Tick? }

  /** The agent is idle, nothing is being merged and the re-engage is still to come. */
  predicate Idle(c: Setup, s: Call) {
    && !s.closed && !s.floor.speaking && s.pending == "" && !s.rungs.reengaged && c.reengageAfterMs > 0
  }

  /** And something was said or heard before. */
  predicate Waiting(c: Setup, s: Call) { Idle(c, s) && (s.clocks.audioAt > 0 || s.clocks.wordsAt > 0) }

  predicate SameWait(s: Call, t: Call) {
    && t.clocks.audioAt == s.clocks.audioAt && t.clocks.wordsAt == s.clocks.wordsAt && t.rungs.prompts == s.rungs.prompts
  }

  lemma NoiseStep(c: Setup, s: Call, e: Timed)
    requires Waiting(c, s) && IsNoise(e.event)
    ensures var t := Step(c, s, e);
            (Waiting(c, t) && SameWait(s, t)) || |t.rungs.prompts| > |s.rungs.prompts|
  {
    if e.event.Tick? {
      var t := Stamped(s, e.at, e.event.outstandingMs);
      QuietBridge(c, t, e.at);
      QuietReengage(c, MaybeBridge(c, t, e.at), e.at);
    }
  }

  lemma PromptsKept(c: Setup, s: Call, e: Timed)
    ensures |Step(c, s, e).rungs.prompts| >= |s.rungs.prompts|
  {
    if e.event.Tick? {
      QuietTick(c, s, e.at, e.event.outstandingMs);
    } else {
      OnlyTicksPrompt(c, s, e);
    }
  }

  lemma {:induction false} NoiseKeepsWaiting(c: Setup, events: seq<Timed>, noise: seq<Timed>)
    requires Waiting(c, Run(c, events)) && forall e :: e in noise ==> IsNoise(e.event)
    ensures var s, t := Run(c, events), Run(c, events + noise);
            (Waiting(c, t) && SameWait(s, t)) || |t.rungs.prompts| > |s.rungs.prompts|
  {
    if noise == [] {
      assert events + noise == events;
    } else {
      var front, last := noise[..|noise| - 1], noise[|noise| - 1];
      assert (events + noise)[..|events + noise| - 1] == events + front;
      NoiseKeepsWaiting(c, events, front);
      PromptsKept(c, Run(c, events + front), last);
      if Waiting(c, Run(c, events + front)) {
        NoiseStep(c, Run(c, events + front), last);
      }
    }
  }

  lemma TickSpeaks(c: Setup, s: Call, now: int, outstandingMs: int)
    requires Waiting(c, s) && CallerActivity(c, s.clocks, now) == s.clocks.wordsAt
    requires now - Max(s.clocks.audioAt, s.clocks.wordsAt) >= c.reengageAfterMs
    ensures |Ticked(c, s, now, outstandingMs).rungs.prompts| > |s.rungs.prompts|
  {
    var t := Stamped(s, now, outstandingMs);
    var u := MaybeBridge(c, t, now);
    QuietBridge(c, t, now);
    if u.rungs.prompts == t.rungs.prompts {
      assert MaybeReengage(c, u, now) == SpeakReengage(c, u, now);
    } else {
      QuietReengage(c, u, now);
    }
  }

  predicate BridgeOpen(c: Setup, s: Call) {
    !s.rungs.bridged && s.turnCount == 0 && c.bridgeAfterMs > 0 && s.clocks.wireEndAt != 0
  }

  /** An idle tick past both deadlines speaks one of the two lines, with one exception: when
      nothing was ever said or heard and the bridge is not open, it stays silent. */
  lemma IdleTickIff(c: Setup, s: Call, now: int, outstandingMs: int)
    requires Idle(c, s) && CallerActivity(c, s.clocks, now) == s.clocks.wordsAt && s.clocks.audioAt >= 0 && s.clocks.wordsAt >= 0
    requires now - Max(s.clocks.audioAt, s.clocks.wordsAt) >= Max(c.reengageAfterMs, c.bridgeAfterMs)
    requires now - Stamped(s, now, outstandingMs).clocks.wireEndAt >= c.bridgeAfterMs
    ensures |Ticked(c, s, now, outstandingMs).rungs.prompts| > |s.rungs.prompts|
            <==> s.clocks.audioAt > 0 || s.clocks.wordsAt > 0 || BridgeOpen(c, Stamped(s, now, outstandingMs))
  {}

  /** Noise cannot hold the ladder: whatever noise follows an idle moment, the first tick
      after the re-engage delay from the last words and audio, and after the grace from the
      start of the running streak of onsets, finds a prompt spoken or speaks it. */
  lemma NoiseCannotHold(c: Setup, events: seq<Timed>, noise: seq<Timed>, tick: Timed)
    requires Clocked(events + noise) && Latest(events + noise) <= tick.at && tick.event.Tick?
    requires Waiting(c, Run(c, events)) && forall e :: e in noise ==> IsNoise(e.event)
    requires tick.at - Max(Run(c, events).clocks.audioAt, LastWords(events)) >= c.reengageAfterMs
    requires StreakStart(events + noise) == 0 || tick.at - StreakStart(events + noise) >= c.graceMs
    ensures |Step(c, Run(c, events + noise), tick).rungs.prompts| > |Run(c, events).rungs.prompts|
  {
    NoiseKeepsWaiting(c, events, noise);
    ClocksAreHistory(c, events);
    OldNoiseIsOver(c, events + noise, tick.at);
    TickAfterNoise(c, Run(c, events), Run(c, events + noise), tick);
  }

  lemma TickAfterNoise(c: Setup, s: Call, t: Call, tick: Timed)
    requires tick.event.Tick? && ((Waiting(c, t) && SameWait(s, t)) || |t.rungs.prompts| > |s.rungs.prompts|)
    requires CallerActivity(c, t.clocks, tick.at) == t.clocks.wordsAt
    requires tick.at - Max(s.clocks.audioAt, s.clocks.wordsAt) >= c.reengageAfterMs
    ensures |Step(c, t, tick).rungs.prompts| > |s.rungs.prompts|
  {
    PromptsKept(c, t, tick);
    if |t.rungs.prompts| == |s.rungs.prompts| {
      TickSpeaks(c, t, tick.at, tick.event.outstandingMs);
    }
  }

  lemma OldNoiseIsOver(c: Setup, events: seq<Timed>, now: int)
    requires Clocked(events) && Latest(events) <= now && (StreakStart(events) == 0 || now - StreakStart(events) >= c.graceMs)
    ensures CallerActivity(c, Run(c, events).clocks, now) == Run(c, events).clocks.wordsAt
  {
    ClocksAreHistory(c, events);
    HoldIsBounded(c, events, now);
  }

  // ---- Silence for good ------------------------------------------------------------------

  /** Nothing was ever said or sent. */
  predicate Unheard(s: Call) { s.clocks.audioAt == 0 && s.clocks.wordsAt == 0 }

  /** No tick can open the bridge. */
  predicate BridgeShut(c: Setup, s: Call) {
    c.bridgeAfterMs <= 0 || s.rungs.bridged || s.turnCount > 0 || (!s.disclosureDone && s.clocks.wireEndAt == 0)
  }

  predicate AllNoise(events: seq<Timed>) { forall e :: e in events ==> IsNoise(e.event) }

  predicate Mute(c: Setup, s: Call) { Idle(c, s) && Unheard(s) && BridgeShut(c, s) }

  lemma MuteStep(c: Setup, s: Call, e: Timed)
    requires Mute(c, s) && IsNoise(e.event) && !e.event.Tick?
    ensures Mute(c, Step(c, s, e)) && Step(c, s, e).rungs.prompts == s.rungs.prompts
  {}

  lemma MuteTick(c: Setup, s: Call, now: int, outstandingMs: int)
    requires Mute(c, s) && (CallerActivity(c, s.clocks, now) == 0 || now - CallerActivity(c, s.clocks, now) < c.reengageAfterMs)
    ensures var t := Ticked(c, s, now, outstandingMs); Mute(c, t) && t.rungs.prompts == s.rungs.prompts
  {
    var t := Stamped(s, now, outstandingMs);
    assert CallerActivity(c, t.clocks, now) == CallerActivity(c, s.clocks, now);
    var u := MaybeBridge(c, t, now);
    assert u == t.(rungs := u.rungs) && u.rungs.prompts == t.rungs.prompts && !u.rungs.reengaged;
    assert MaybeReengage(c, u, now) == u;
  }

  /** No tick from now on can find an onset that is still counted and as old as the re-engage
      delay: a new streak ends with the grace, and the running one ends before its latest
      onset is that old. */
  predicate NoWindow(c: Setup, events: seq<Timed>) {
    if StreakStart(events) == 0 then c.graceMs <= c.reengageAfterMs
    else Max(Latest(events), LastOnset(events) + c.reengageAfterMs) >= StreakStart(events) + c.graceMs
  }

  lemma NoiseOpensNoWindow(c: Setup, events: seq<Timed>, e: Timed)
    requires Clocked(events + [e]) && IsNoise(e.event) && c.reengageAfterMs > 0 && NoWindow(c, events)
    ensures NoWindow(c, events + [e])
  {
    assert (events + [e])[..|events|] == events;
    ClockedFront(events + [e]);
    StreakFollowsWords(events);
  }

  lemma YoungOnsetHolds(c: Setup, events: seq<Timed>, now: int)
    requires Clocked(events) && Latest(events) <= now && Run(c, events).clocks.wordsAt == 0 && c.reengageAfterMs > 0 && NoWindow(c, events)
    ensures var at := CallerActivity(c, Run(c, events).clocks, now); at == 0 || now - at < c.reengageAfterMs
  {
    HoldIsBounded(c, events, now);
    ClocksAreHistory(c, events);
    StreakFollowsWords(events);
  }

  /** A call in which nothing was said or sent and the bridge is shut never speaks a line,
      however long the noise on the line lasts, when there is no such window. */
  lemma {:induction false} NoiseStaysUnanswered(c: Setup, events: seq<Timed>, noise: seq<Timed>)
    requires Clocked(events + noise) && AllNoise(noise) && Mute(c, Run(c, events)) && NoWindow(c, events)
    ensures Mute(c, Run(c, events + noise)) && Run(c, events + noise).rungs.prompts == Run(c, events).rungs.prompts
    ensures NoWindow(c, events + noise)
  {
    if noise == [] {
      assert events + noise == events;
    } else {
      var front, last := noise[..|noise| - 1], noise[|noise| - 1];
      assert events + noise == (events + front) + [last];
      ClockedFront((events + front) + [last]);
      assert ((events + front) + [last])[..|events + front|] == events + front;
      NoiseStaysUnanswered(c, events, front);
      NoiseOpensNoWindow(c, events + front, last);
      MuteNoise(c, events + front, last);
    }
  }

  lemma MuteNoise(c: Setup, events: seq<Timed>, e: Timed)
    requires Clocked(events) && Latest(events) <= e.at && IsNoise(e.event) && Mute(c, Run(c, events)) && NoWindow(c, events)
    ensures Mute(c, Run(c, events + [e])) && Run(c, events + [e]).rungs.prompts == Run(c, events).rungs.prompts
  {
    assert (events + [e])[..|events|] == events;
    if e.event.Tick? {
      YoungOnsetHolds(c, events, e.at);
      MuteTick(c, Run(c, events), e.at, e.event.outstandingMs);
    } else {
      MuteStep(c, Run(c, events), e);
    }
  }

  lemma RunTwo(c: Setup, events: seq<Timed>, a: Timed, b: Timed)
    ensures Run(c, events + [a, b]) == Step(c, Step(c, Run(c, events), a), b)
  {
    assert (events + [a, b])[..|events| + 1] == events + [a] && (events + [a])[..|events|] == events;
  }

  lemma ClockedTwo(events: seq<Timed>, a: Timed, b: Timed)
    requires Clocked(events) && 0 < a.at <= b.at && Latest(events) <= a.at
    ensures Clocked(events + [a, b])
  {
    if events != [] {
      assert forall k :: 0 <= k < |events| ==> events[k].at <= events[|events| - 1].at;
    }
  }

  /** A tick with an onset that still counts and is as old as the re-engage delay speaks. */
  lemma OldOnsetIsAnswered(c: Setup, s: Call, now: int)
    requires Idle(c, s) && Unheard(s)
    requires CallerActivity(c, s.clocks, now) > 0 && now - CallerActivity(c, s.clocks, now) >= c.reengageAfterMs
    ensures |Ticked(c, s, now, 1).rungs.prompts| > |s.rungs.prompts|
  {
    var t := Stamped(s, now, 1);
    var u := MaybeBridge(c, t, now);
    assert CallerActivity(c, t.clocks, now) == CallerActivity(c, s.clocks, now);
    QuietBridge(c, t, now);
    if u.rungs.prompts == s.rungs.prompts {
      assert MaybeReengage(c, u, now) == SpeakReengage(c, u, now);
    } else {
      QuietReengage(c, u, now);
    }
  }

  /** Through a window the noise is answered: the tick comes while the running streak counts,
      or an onset begins one and is let grow old enough. */
  lemma WindowIsAnswered(c: Setup, events: seq<Timed>) returns (noise: seq<Timed>)
    requires Clocked(events) && Idle(c, Run(c, events)) && Unheard(Run(c, events)) && !NoWindow(c, events)
    ensures Clocked(events + noise) && AllNoise(noise) && |Run(c, events + noise).rungs.prompts| > |Run(c, events).rungs.prompts|
  {
    var s := Run(c, events);
    ClocksAreHistory(c, events);
    StreakFollowsWords(events);
    if StreakStart(events) == 0 {
      var t := Max(Latest(events), 1);
      var a, b := Timed(Onset, t), Timed(Tick(1), t + c.reengageAfterMs);
      noise := [a, b];
      ClockedTwo(events, a, b);
      RunTwo(c, events, a, b);
      OldOnsetIsAnswered(c, Step(c, s, a), b.at);
    } else {
      var now := Max(Latest(events), LastOnset(events) + c.reengageAfterMs);
      var b := Timed(Tick(1), now);
      noise := [b];
      ClockedOne(events, b);
      assert (events + [b])[..|events|] == events;
      HoldIsBounded(c, events, now);
      OldOnsetIsAnswered(c, s, now);
    }
  }

  lemma ClockedOne(events: seq<Timed>, a: Timed)
    requires Clocked(events) && 0 < a.at && Latest(events) <= a.at
    ensures Clocked(events + [a])
  {
    if events != [] {
      assert forall k :: 0 <= k < |events| ==> events[k].at <= events[|events| - 1].at;
    }
  }

  /** With the bridge not shut two ticks speak it, once no onset counts any more. */
  lemma BridgeIsSpoken(c: Setup, events: seq<Timed>) returns (noise: seq<Timed>)
    requires Clocked(events) && Idle(c, Run(c, events)) && Unheard(Run(c, events)) && !BridgeShut(c, Run(c, events))
    ensures Clocked(events + noise) && AllNoise(noise) && |Run(c, events + noise).rungs.prompts| > |Run(c, events).rungs.prompts|
  {
    var s, t := Run(c, events), Max(Latest(events), 1);
    var a := Timed(Tick(0), t);
    ClocksAreHistory(c, events);
    StreakFollowsWords(events);
    var u := Step(c, s, a);
    var old_ := Max(StreakStart(events), 0) + Max(c.graceMs, 0);
    var b := Timed(Tick(0), Max(Max(t, u.clocks.wireEndAt) + c.bridgeAfterMs, old_));
    noise := [a, b];
    ClockedTwo(events, a, b);
    RunTwo(c, events, a, b);
    PromptsKept(c, s, a);
    PromptsKept(c, u, b);
    if |u.rungs.prompts| == |s.rungs.prompts| {
      FirstTickStamps(c, s, t);
      BridgeTick(c, u, b.at);
    }
  }

  lemma FirstTickStamps(c: Setup, s: Call, now: int)
    requires Idle(c, s) && !BridgeShut(c, s) && now > 0 && |Ticked(c, s, now, 0).rungs.prompts| == |s.rungs.prompts|
    ensures var t := Ticked(c, s, now, 0);
            Idle(c, t) && t.clocks == s.clocks.(wireEndAt := t.clocks.wireEndAt) && BridgeOpen(c, t)
  {
    QuietBridge(c, Stamped(s, now, 0), now);
    QuietReengage(c, MaybeBridge(c, Stamped(s, now, 0), now), now);
  }

  lemma BridgeTick(c: Setup, s: Call, now: int)
    requires Idle(c, s) && Unheard(s) && CallerActivity(c, s.clocks, now) == 0
    requires BridgeOpen(c, s) && now - Max(s.clocks.wireEndAt, 0) >= c.bridgeAfterMs
    ensures |Ticked(c, s, now, 0).rungs.prompts| > |s.rungs.prompts|
  {
    assert Stamped(s, now, 0) == s;
    assert MaybeBridge(c, s, now) == SpeakBridge(c, s, now);
    QuietReengage(c, SpeakBridge(c, s, now), now);
  }

  ghost predicate SilentForever(c: Setup, events: seq<Timed>) {
    forall noise :: Clocked(events + noise) && AllNoise(noise) ==> Run(c, events + noise).rungs.prompts == Run(c, events).rungs.prompts
  }

  /** Exactly when an idle call in which nothing was said or sent stays silent for good. */
  lemma SilentForeverIff(c: Setup, events: seq<Timed>)
    requires Clocked(events) && Idle(c, Run(c, events)) && Unheard(Run(c, events))
    ensures SilentForever(c, events) <==> BridgeShut(c, Run(c, events)) && NoWindow(c, events)
  {
    if !BridgeShut(c, Run(c, events)) {
      var noise := BridgeIsSpoken(c, events);
    } else if !NoWindow(c, events) {
      var noise := WindowIsAnswered(c, events);
    } else {
      forall noise | Clocked(events + noise) && AllNoise(noise)
        ensures Run(c, events + noise).rungs.prompts == Run(c, events).rungs.prompts
      {
        NoiseStaysUnanswered(c, events, noise);
      }
    }
  }

  const BRIDGELESS: Setup := Setup(0, 6000, 4000, "", "", "")
  const UNPLAYED: seq<Timed> := [Timed(Start("hello"), 1), Timed(Onset, 2), Timed(DisclosureEnd(1), 3)]

  /** A real one: an onset cuts the disclosure off before its first frame, nobody says a word,
      and no noise and no tick ever brings the call back. */
  lemma UnplayedCallIsSilent()
    ensures SilentForever(BRIDGELESS, UNPLAYED) && Run(BRIDGELESS, UNPLAYED).rungs.prompts == []
    ensures LastOnset(UNPLAYED) > 0
  {
    var c := BRIDGELESS;
    var one := [UNPLAYED[0]];
    OneMore(c, [], UNPLAYED[0]);
    OneMore(c, one, UNPLAYED[1]);
    OneMore(c, one + [UNPLAYED[1]], UNPLAYED[2]);
    assert [] + one == one && one + [UNPLAYED[1]] + [UNPLAYED[2]] == UNPLAYED;
    SilentForeverIff(c, UNPLAYED);
  }

  lemma OneMore(c: Setup, events: seq<Timed>, e: Timed)
    ensures Run(c, events + [e]) == Step(c, Run(c, events), e)
    ensures LastOnset(events + [e]) == if e.event.Onset? then e.at else LastOnset(events)
    ensures StreakStart(events + [e])
            == if IsWords(e.event) then 0 else if e.event.Onset? && StreakStart(events) == 0 then e.at else StreakStart(events)
  {
    assert (events + [e])[..|events|] == events;
  }

  // ---- The transcript --------------------------------------------------------------------

  lemma SayGrows(s: Call, role: Role, content: string, now: int, source: Option<string>, refusal: Option<string>)
    ensures Grows(s.turns, Say(s, role, content, now, source, refusal).turns)
  {}

  lemma MarkGrows(turns: seq<Turn>)
    ensures Grows(turns, Marked(turns))
  {}

  lemma TickGrows(c: Setup, s: Call, now: int, outstandingMs: int)
    ensures Grows(s.turns, Ticked(c, s, now, outstandingMs).turns)
  {
    var t := Stamped(s, now, outstandingMs);
    var u := MaybeBridge(c, t, now);
    QuietBridge(c, t, now);
    QuietReengage(c, u, now);
    PushGrows(s.turns, Turn(Assistant, c.bridgeLine, Some(now - s.clocks.startedAt), None, None));
    PushGrows(u.turns, Turn(Assistant, c.reengageLine, Some(now - s.clocks.startedAt), None, None));
    GrowsOn(s.turns, u.turns, MaybeReengage(c, u, now).turns);
  }

  /** Whatever happens, the transcript only gains turns or text at the end of its last one. */
  lemma StepGrows(c: Setup, s: Call, e: Timed)
    ensures Grows(s.turns, Step(c, s, e).turns)
  {
    match e.event {
      case Start(disclosure) => PushGrows(s.turns, Turn(Assistant, disclosure, Some(0), None, None));
      case Onset => MarkGrows(s.turns);
      case UtteranceEnd => SayGrows(s, User, s.pending, e.at, Some("utterance_end"), None);
      case ReplyEnd(speech, content) => SayGrows(s, Assistant, content, e.at, None, None);
      case Refused(reason) => SayGrows(s, Assistant, c.fallbackLine, e.at, None, Some(reason));
      case Farewell(line) => SayGrows(s, Assistant, line, e.at, None, None);
      case Close => SayGrows(s, User, s.pending, e.at, None, None);
      case Tick(outstandingMs) => TickGrows(c, s, e.at, outstandingMs);
      case _ =>
    }
  }

  lemma {:induction false} TranscriptGrows(c: Setup, events: seq<Timed>, n: nat)
    requires n <= |events|
    ensures Grows(Run(c, events[..n]).turns, Run(c, events).turns)
  {
    if n == |events| {
      assert events[..n] == events;
    } else {
      var front := events[..|events| - 1];
      assert front[..n] == events[..n];
      TranscriptGrows(c, front, n);
      StepGrows(c, Run(c, front), events[|events| - 1]);
      GrowsOn(Run(c, events[..n]).turns, Run(c, front).turns, Run(c, events).turns);
    }
  }

  /** A transcript the session had at some moment of the run. */
  ghost predicate WasTranscript(c: Setup, events: seq<Timed>, turns: seq<Turn>) {
    exists n :: 0 <= n <= |events| && turns == Run(c, events[..n]).turns
  }

  /** From the line to the store: over any run of the session, any writes of transcripts it
      had on the way, and then finalize, store exactly the rows of the final transcript. */
  lemma CallIsRecorded(c: Setup, events: seq<Timed>, base: Store, writes: seq<Write>, target: Target)
    requires Unstarted(base, target.callSid)
    requires forall w :: w in writes ==> WasTranscript(c, events, w.turns)
    ensures var rows := RowsFrom(Run(c, events).turns, target);
            Finalize(PerformAll(base, writes, target), rows) == Stored(base, rows)
  {
    forall w | w in writes
      ensures Grows(w.turns, Run(c, events).turns)
    {
      var n :| 0 <= n <= |events| && w.turns == Run(c, events[..n]).turns;
      TranscriptGrows(c, events, n);
    }
    FinalizeConverges(base, writes, Run(c, events).turns, target);
  }
}
