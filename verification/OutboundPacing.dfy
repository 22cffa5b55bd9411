/** Just-in-time delivery of outbound audio: a frame queue that is sent against an estimate
    of the transport's playout buffer, for which the transport gives no feedback. */
module OutboundPacing {
  type Frame = seq<bv8>
  type Duration = n: nat | n > 0 witness 20

  const BYTES_PER_MS := 8

  /** Frame length and the most audio that may be in flight beyond real time. */
  datatype Pace = Pace(frameMs: Duration, leadCapMs: real)

  /** What reaches the transport. */
  datatype Wire = Sent(frame: Frame, at: real) | Wiped(at: real)

  datatype State = State(queue: seq<Frame>, queuedMs: real, playheadAt: real, armed: bool, closed: bool, wire: seq<Wire>)

  const IDLE := State([], 0.0, 0.0, false, false, [])

  datatype Event = Audio(chunk: Frame) | Silence(ms: real) | Tick | Clear | Close
  datatype Timed = Timed(event: Event, at: real)

  function Max(x: real, y: real): real { if x < y then y else x }
  function Round(x: real): int { (x + 0.5).Floor }
  function Ms(f: Frame): real { |f| as real / 8.0 }

  function Flat(q: seq<Frame>): Frame { if q == [] then [] else q[0] + Flat(q[1..]) }
  function QueueMs(q: seq<Frame>): real { if q == [] then 0.0 else Ms(q[0]) + QueueMs(q[1..]) }

  /** The chunk sliced into full frames and a shorter last one. */
  function Frames(chunk: Frame, size: Duration): seq<Frame> {
    if chunk == [] then []
    else if |chunk| <= size then [chunk]
    else [chunk[..size]] + Frames(chunk[size..], size)
  }

  function Quiet(ms: nat): Frame { seq(ms * BYTES_PER_MS, _ => 0xff) }

  // ---- The operations ----------------------------------------------------------------

  function SendNext(s: State, now: real): State
    requires s.queue != []
  {
    var f := s.queue[0];
    s.(queue := s.queue[1..], queuedMs := s.queuedMs - Ms(f),
       playheadAt := Max(now, s.playheadAt) + Ms(f), wire := s.wire + [Sent(f, now)])
  }

  predicate MaySend(c: Pace, s: State, now: real) { s.queue != [] && s.playheadAt - now < c.leadCapMs }

  function SendAll(c: Pace, s: State, now: real): State
    decreases |s.queue|
  {
    if MaySend(c, s, now) then SendAll(c, SendNext(s, now), now) else s
  }

  function Pump(c: Pace, s: State, now: real): State {
    if s.closed then s else
    var t := SendAll(c, s, now);
    t.(queuedMs := Max(0.0, t.queuedMs), armed := t.armed || t.queue != [])
  }

  function Push(s: State, frames: seq<Frame>): State {
    s.(queue := s.queue + frames, queuedMs := s.queuedMs + QueueMs(frames))
  }

  function Step(c: Pace, s: State, e: Timed): State {
    match e.event
    case Audio(chunk) =>
      if s.closed || chunk == [] then s else Pump(c, Push(s, Frames(chunk, c.frameMs * BYTES_PER_MS)), e.at)
    case Silence(ms) =>
      if s.closed || ms <= 0.0 then s else Pump(c, Push(s, Frames(Quiet(Round(ms)), c.frameMs * BYTES_PER_MS)), e.at)
    case Tick =>
      if !s.armed then s else
      var t := Pump(c, s, e.at);
      t.(armed := t.armed && t.queue != [])
    case Clear => s.(queue := [], queuedMs := 0.0, playheadAt := e.at, wire := s.wire + [Wiped(e.at)])
    case Close => s.(queue := [], queuedMs := 0.0, armed := false, closed := true)
  }

  function Run(c: Pace, events: seq<Timed>): State {
    if events == [] then IDLE else Step(c, Run(c, events[..|events| - 1]), events[|events| - 1])
  }

  /** The clock: not before its origin, never backwards. */
  predicate Clocked(events: seq<Timed>) {
    && (forall k :: 0 <= k < |events| ==> events[k].at >= 0.0)
    && forall j, k :: 0 <= j <= k < |events| ==> events[j].at <= events[k].at
  }

  function Latest(events: seq<Timed>): real { if events == [] then 0.0 else events[|events| - 1].at }

  // ---- The source's object -----------------------------------------------------------

  class OutboundPacer {
    const pace: Pace
    var queue: seq<Frame>
    var queuedMs: real
    var playheadAt: real
    var timer: bool
    var closed: bool
    var wire: seq<Wire>

    constructor (pace: Pace)
      ensures this.pace == pace && Now() == IDLE
    {
      this.pace := pace;
      queue, queuedMs, playheadAt := [], 0.0, 0.0;
      timer, closed, wire := false, false, [];
    }

    function Now(): State
      reads this
    {
      State(queue, queuedMs, playheadAt, timer, closed, wire)
    }

    method EnqueueAudio(chunk: Frame, now: real)
      modifies this
      ensures Now() == Step(pace, old(Now()), Timed(Audio(chunk), now))
    {
      if closed || chunk == [] { return; }
      var frameBytes: Duration := pace.frameMs * BYTES_PER_MS;
      var off := 0;
      ghost var todo := chunk;
      while off < |chunk|
        invariant 0 <= off && todo == chunk[Cap(off, |chunk|)..]
        invariant Slicing(old(Now()), Now(), chunk, todo, frameBytes)
      {
        var frame := chunk[off..Cap(off + frameBytes, |chunk|)];
        Slice(old(Now()), Now(), chunk, todo, frameBytes);
        assert frame == todo[..Cap(frameBytes, |todo|)];
        todo := todo[Cap(frameBytes, |todo|)..];
        queue := queue + [frame];
        queuedMs := queuedMs + Ms(frame);
        off := off + frameBytes;
      }
      Sliced(old(Now()), Now(), chunk, todo, frameBytes);
      PumpQueue(now);
    }

    method EnqueueSilence(ms: real, now: real)
      modifies this
      ensures Now() == Step(pace, old(Now()), Timed(Silence(ms), now))
    {
      if closed || ms <= 0.0 { return; }
      var frameBytes: Duration := pace.frameMs * BYTES_PER_MS;
      var rest: nat := Round(ms);
      while rest > 0
        invariant Slicing(old(Now()), Now(), Quiet(Round(ms)), Quiet(rest), frameBytes)
      {
        var frameLen := if pace.frameMs < rest then pace.frameMs else rest;
        var frame := seq(frameLen * BYTES_PER_MS, _ => 0xff as bv8);
        Slice(old(Now()), Now(), Quiet(Round(ms)), Quiet(rest), frameBytes);
        assert Quiet(rest)[..Cap(frameBytes, |Quiet(rest)|)] == frame;
        assert Quiet(rest)[Cap(frameBytes, |Quiet(rest)|)..] == Quiet(rest - frameLen);
        queue := queue + [frame];
        queuedMs := queuedMs + frameLen as real;
        rest := rest - frameLen;
      }
      Sliced(old(Now()), Now(), Quiet(Round(ms)), Quiet(rest), frameBytes);
      PumpQueue(now);
    }

    method InFlightMs(now: real) returns (ms: real)
      ensures ms == Max(0.0, playheadAt - now)
      ensures Tracks(pace, Now(), now) ==> ms == Level(wire, now)
    {
      ms := Max(0.0, playheadAt - now);
    }

    method OutstandingMs(now: real) returns (ms: int)
      ensures ms == Round(queuedMs + Max(0.0, playheadAt - now))
      ensures Tracks(pace, Now(), now) ==> ms == Round(|Flat(queue)| as real / 8.0 + Level(wire, now))
    {
      MsCountsBytes(queue);
      var inFlight := InFlightMs(now);
      ms := Round(queuedMs + inFlight);
    }

    method ClearNow(now: real) returns (droppedMs: int, inFlightMs: int)
      modifies this
      ensures Now() == Step(pace, old(Now()), Timed(Clear, now))
      ensures droppedMs == Round(old(queuedMs)) && inFlightMs == Round(Max(0.0, old(playheadAt) - now))
    {
      droppedMs := Round(queuedMs);
      var inFlight := InFlightMs(now);
      inFlightMs := Round(inFlight);
      queue, queuedMs, playheadAt := [], 0.0, now;
      wire := wire + [Wiped(now)];
    }

    method Shutdown()
      modifies this
      ensures forall now :: Now() == Step(pace, old(Now()), Timed(Close, now))
    {
      closed, queue, queuedMs, timer := true, [], 0.0, false;
    }

    method PumpQueue(now: real)
      modifies this
      ensures Now() == Pump(pace, old(Now()), now)
    {
      if closed { return; }
      while queue != [] && playheadAt - now < pace.leadCapMs
        invariant SendAll(pace, Now(), now) == SendAll(pace, old(Now()), now)
        decreases |queue|
      {
        var frame := queue[0];
        queue := queue[1..];
        queuedMs := queuedMs - Ms(frame);
        playheadAt := Max(now, playheadAt) + Ms(frame);
        wire := wire + [Sent(frame, now)];
      }
      if queuedMs < 0.0 { queuedMs := 0.0; }
      if queue != [] && !timer { timer := true; }
    }

    /** The interval's callback. */
    method OnInterval(now: real)
      requires timer
      modifies this
      ensures Now() == Step(pace, old(Now()), Timed(Tick, now))
    {
      PumpQueue(now);
      if queue == [] && timer { timer := false; }
    }
  }

  /** A whole run: every event through the object; a tick comes only while the timer is armed. */
  method PlayOut(pace: Pace, events: seq<Timed>) returns (wire: seq<Wire>)
    ensures wire == Run(pace, events).wire
  {
    var pacer := new OutboundPacer(pace);
    for i := 0 to |events|
      invariant pacer.pace == pace && fresh(pacer) && pacer.Now() == Run(pace, events[..i])
    {
      assert events[..i + 1][..i] == events[..i];
      Handle(pacer, events[i]);
    }
    assert events[..|events|] == events;
    return pacer.wire;
  }

  method Handle(pacer: OutboundPacer, e: Timed)
    modifies pacer
    ensures pacer.Now() == Step(pacer.pace, old(pacer.Now()), e)
  {
    match e.event {
      case Audio(chunk) => pacer.EnqueueAudio(chunk, e.at);
      case Silence(ms) => pacer.EnqueueSilence(ms, e.at);
      case Tick => if pacer.timer { pacer.OnInterval(e.at); }
      case Clear => var droppedMs, inFlightMs := pacer.ClearNow(e.at);
      case Close => pacer.Shutdown();
    }
  }

  function Cap(k: int, n: int): int { if k < n then k else n }

  // ---- Slicing -----------------------------------------------------------------------

  lemma FirstFrame(chunk: Frame, size: Duration)
    requires chunk != []
    ensures var k := Cap(size, |chunk|);
            && Frames(chunk, size) == [chunk[..k]] + Frames(chunk[k..], size)
            && QueueMs(Frames(chunk, size)) == Ms(chunk[..k]) + QueueMs(Frames(chunk[k..], size))
  {
    if |chunk| <= size {
      assert chunk[..|chunk|] == chunk;
    }
  }

  /** Part of the way through pushing a chunk from s to now: the queue and its count, with the
      frames still to come, are what pushing all of it gives. */
  predicate Slicing(s: State, now: State, chunk: Frame, todo: Frame, size: Duration) {
    && now == s.(queue := now.queue, queuedMs := now.queuedMs)
    && now.queue + Frames(todo, size) == s.queue + Frames(chunk, size)
    && now.queuedMs + QueueMs(Frames(todo, size)) == s.queuedMs + QueueMs(Frames(chunk, size))
  }

  lemma Slice(s: State, now: State, chunk: Frame, todo: Frame, size: Duration)
    requires Slicing(s, now, chunk, todo, size) && todo != []
    ensures var k := Cap(size, |todo|);
            Slicing(s, now.(queue := now.queue + [todo[..k]], queuedMs := now.queuedMs + Ms(todo[..k])), chunk, todo[k..], size)
  {
    var k := Cap(size, |todo|);
    FirstFrame(todo, size);
    assert now.queue + ([todo[..k]] + Frames(todo[k..], size)) == (now.queue + [todo[..k]]) + Frames(todo[k..], size);
  }

  lemma Sliced(s: State, now: State, chunk: Frame, todo: Frame, size: Duration)
    requires Slicing(s, now, chunk, todo, size) && todo == []
    ensures now == Push(s, Frames(chunk, size))
  {
    assert now.queue + [] == now.queue;
  }

  predicate Sized(q: seq<Frame>, size: nat) { forall f :: f in q ==> 0 < |f| <= size }

  lemma SizedPrepend(f: Frame, q: seq<Frame>, size: nat)
    requires 0 < |f| <= size && Sized(q, size)
    ensures Sized([f] + q, size)
  {}

  lemma FlatPrepend(f: Frame, q: seq<Frame>)
    ensures Flat([f] + q) == f + Flat(q)
  {}

  lemma {:induction false} FramesJoin(chunk: Frame, size: Duration)
    ensures Flat(Frames(chunk, size)) == chunk && Sized(Frames(chunk, size), size)
  {
    if chunk != [] {
      var k := Cap(size, |chunk|);
      var first, rest := chunk[..k], Frames(chunk[k..], size);
      FirstFrame(chunk, size);
      FramesJoin(chunk[k..], size);
      FlatPrepend(first, rest);
      SizedPrepend(first, rest, size);
      assert first + chunk[k..] == chunk;
    }
  }

  lemma {:induction false} FlatConcat(a: seq<Frame>, b: seq<Frame>)
    ensures Flat(a + b) == Flat(a) + Flat(b)
    ensures QueueMs(a + b) == QueueMs(a) + QueueMs(b)
  {
    if a == [] {
      assert a + b == b;
    } else {
      assert (a + b)[1..] == a[1..] + b;
      FlatConcat(a[1..], b);
    }
  }

  lemma {:induction false} MsCountsBytes(q: seq<Frame>)
    ensures QueueMs(q) * 8.0 == |Flat(q)| as real
  {
    if q != [] {
      MsCountsBytes(q[1..]);
    }
  }

  // ---- The transport, on its own -----------------------------------------------------

  /** Audio the transport still holds at `now`: it plays in real time and never below empty. */
  function Level(wire: seq<Wire>, now: real): real {
    if wire == [] then 0.0 else
    var last := wire[|wire| - 1];
    match last
    case Sent(f, at) => Max(0.0, Level(wire[..|wire| - 1], at) + Ms(f) - (now - at))
    case Wiped(_) => 0.0
  }

  lemma LevelAfter(wire: seq<Wire>, w: Wire, now: real)
    ensures Level(wire + [w], now) == match w case Sent(f, at) => Max(0.0, Level(wire, at) + Ms(f) - (now - at)) case Wiped(_) => 0.0
  {}

  // ---- What every run keeps ----------------------------------------------------------

  /** The estimate equals the transport's level, the lead is within the window, the
      millisecond count is the queue's, and only an open pacer with its timer armed holds
      frames. */
  predicate Tracks(c: Pace, s: State, now: real) {
    && s.queuedMs == QueueMs(s.queue)
    && (s.queue != [] ==> s.armed)
    && (s.closed ==> s.queue == [] && !s.armed)
    && Sized(s.queue, c.frameMs * BYTES_PER_MS)
    && Level(s.wire, now) == Max(0.0, s.playheadAt - now)
    && InWindow(c, s.playheadAt - now)
  }

  predicate InWindow(c: Pace, lead: real) { lead <= c.frameMs as real || lead < c.leadCapMs + c.frameMs as real }

  predicate Filled(c: Pace, s: State, now: real) { s.queue == [] || s.playheadAt - now >= c.leadCapMs }

  lemma TracksLater(c: Pace, s: State, now: real, later: real)
    requires Tracks(c, s, now) && now <= later
    ensures Tracks(c, s, later)
  {}

  /** The part of Tracks that sending does not wait for the pump to restore. */
  predicate Sending(c: Pace, s: State, now: real) {
    && !s.closed
    && s.queuedMs == QueueMs(s.queue)
    && Sized(s.queue, c.frameMs * BYTES_PER_MS)
    && Level(s.wire, now) == Max(0.0, s.playheadAt - now)
    && InWindow(c, s.playheadAt - now)
  }

  lemma SendNextTracks(c: Pace, s: State, now: real)
    requires Sending(c, s, now) && MaySend(c, s, now)
    ensures Sending(c, SendNext(s, now), now)
  {}

  lemma {:induction false} SendAllTracks(c: Pace, s: State, now: real)
    requires Sending(c, s, now)
    ensures var t := SendAll(c, s, now); Sending(c, t, now) && Filled(c, t, now) && t.armed == s.armed
    decreases |s.queue|
  {
    if MaySend(c, s, now) {
      SendNextTracks(c, s, now);
      SendAllTracks(c, SendNext(s, now), now);
    }
  }

  lemma QueueMsIsNat(q: seq<Frame>)
    ensures QueueMs(q) >= 0.0
  {}

  lemma PumpTracks(c: Pace, s: State, now: real)
    requires Sending(c, s, now)
    ensures var t := Pump(c, s, now); Tracks(c, t, now) && Filled(c, t, now) && !t.closed
    ensures Pump(c, s, now).queuedMs == SendAll(c, s, now).queuedMs
  {
    SendAllTracks(c, s, now);
    QueueMsIsNat(SendAll(c, s, now).queue);
  }

  lemma PushTracks(c: Pace, s: State, chunk: Frame, now: real)
    requires Tracks(c, s, now) && !s.closed
    ensures Sending(c, Push(s, Frames(chunk, c.frameMs * BYTES_PER_MS)), now)
  {
    FramesJoin(chunk, c.frameMs * BYTES_PER_MS);
    FlatConcat(s.queue, Frames(chunk, c.frameMs * BYTES_PER_MS));
  }

  predicate Ignored(e: Event) { (e.Audio? && e.chunk == []) || (e.Silence? && e.ms <= 0.0) }

  /** Any step keeps the relation; unless it is ignored, afterwards the queue is empty or the
      lead has reached the cap. */
  lemma StepTracks(c: Pace, s: State, e: Timed)
    requires Tracks(c, s, e.at)
    ensures Tracks(c, Step(c, s, e), e.at)
    ensures Ignored(e.event) || Filled(c, Step(c, s, e), e.at)
  {
    match e.event {
      case Audio(chunk) =>
        if !s.closed {
          PushTracks(c, s, chunk, e.at);
          PumpTracks(c, Push(s, Frames(chunk, c.frameMs * BYTES_PER_MS)), e.at);
        }
      case Silence(ms) =>
        if !s.closed && ms > 0.0 {
          PushTracks(c, s, Quiet(Round(ms)), e.at);
          PumpTracks(c, Push(s, Frames(Quiet(Round(ms)), c.frameMs * BYTES_PER_MS)), e.at);
        }
      case Tick =>
        if s.armed {
          PumpTracks(c, s, e.at);
        }
      case Clear => LevelAfter(s.wire, Wiped(e.at), e.at);
      case Close =>
    }
  }

  /** Over any run, at any later moment: the estimate is the simulated transport's level and
      the lead stays in the window. */
  lemma {:induction false} RunTracks(c: Pace, events: seq<Timed>, now: real)
    requires Clocked(events) && now >= Latest(events)
    ensures Tracks(c, Run(c, events), now)
  {
    if events != [] {
      var e := events[|events| - 1];
      RunTracks(c, events[..|events| - 1], e.at);
      StepTracks(c, Run(c, events[..|events| - 1]), e);
      TracksLater(c, Run(c, events), e.at, now);
    }
  }

  predicate WithinLead(c: Pace, events: seq<Timed>, now: real) {
    Run(c, events).playheadAt - now < c.leadCapMs + c.frameMs as real
  }

  /** The strict bound of one frame beyond the cap holds over all runs exactly when the cap
      is positive; with any other cap the first frame of an idle pacer already exceeds it. */
  lemma LeadBoundExact(c: Pace)
    ensures c.leadCapMs > 0.0
            <==> forall events, now :: Clocked(events) && now >= Latest(events) ==> WithinLead(c, events, now)
  {
    if c.leadCapMs > 0.0 {
      forall events, now | Clocked(events) && now >= Latest(events)
        ensures WithinLead(c, events, now)
      {
        RunTracks(c, events, now);
      }
    } else {
      var at, frame := 1.0 - c.leadCapMs, Quiet(c.frameMs);
      var events := [Timed(Audio(frame), at)];
      assert Frames(frame, |frame|) == [frame];
      var pushed := Push(IDLE, [frame]);
      assert events[..0] == [] && pushed.queue == [frame];
      assert SendAll(c, pushed, at) == SendNext(pushed, at) by {
        assert SendAll(c, SendNext(pushed, at), at) == SendNext(pushed, at);
      }
      assert Run(c, events) == Step(c, Run(c, events[..0]), events[0]);
      assert !WithinLead(c, events, at);
    }
  }

  // ---- Bytes -------------------------------------------------------------------------

  /** Bytes the transport was given since its buffer was last wiped. */
  function Delivered(wire: seq<Wire>): Frame {
    if wire == [] then [] else
    var last := wire[|wire| - 1];
    match last
    case Sent(f, _) => Delivered(wire[..|wire| - 1]) + f
    case Wiped(_) => []
  }

  predicate IsClosed(events: seq<Timed>) { exists e :: e in events && e.event.Close? }

  /** Bytes that callers handed in since the last clear, while the pacer was open. */
  function Offered(events: seq<Timed>): Frame {
    if events == [] then [] else
    var before, last := events[..|events| - 1], events[|events| - 1].event;
    if last.Clear? then []
    else if last.Audio? && !IsClosed(before) then Offered(before) + last.chunk
    else if last.Silence? && last.ms > 0.0 && !IsClosed(before) then Offered(before) + Quiet(Round(last.ms))
    else Offered(before)
  }

  lemma DeliveredAfter(wire: seq<Wire>, f: Frame, at: real)
    ensures Delivered(wire + [Sent(f, at)]) == Delivered(wire) + f
    ensures Delivered(wire + [Wiped(at)]) == []
  {}

  /** Everything between the last clear and the end of the queue. */
  function Held(s: State): Frame { Delivered(s.wire) + Flat(s.queue) }

  lemma {:induction false} SendAllHolds(c: Pace, s: State, now: real)
    ensures Held(SendAll(c, s, now)) == Held(s) && SendAll(c, s, now).closed == s.closed
    decreases |s.queue|
  {
    if MaySend(c, s, now) {
      var f := s.queue[0];
      DeliveredAfter(s.wire, f, now);
      assert (Delivered(s.wire) + f) + Flat(s.queue[1..]) == Delivered(s.wire) + (f + Flat(s.queue[1..]));
      SendAllHolds(c, SendNext(s, now), now);
    }
  }

  lemma PushHolds(s: State, chunk: Frame, size: Duration)
    ensures Held(Push(s, Frames(chunk, size))) == Held(s) + chunk
  {
    FlatConcat(s.queue, Frames(chunk, size));
    FramesJoin(chunk, size);
    Regroup(Delivered(s.wire), Flat(s.queue), chunk);
  }

  lemma Regroup(a: Frame, b: Frame, c: Frame)
    ensures a + (b + c) == (a + b) + c
  {}

  lemma EnqueueHolds(c: Pace, s: State, chunk: Frame, now: real)
    ensures Held(Pump(c, Push(s, Frames(chunk, c.frameMs * BYTES_PER_MS)), now)) == Held(s) + chunk
  {
    PushHolds(s, chunk, c.frameMs * BYTES_PER_MS);
    SendAllHolds(c, Push(s, Frames(chunk, c.frameMs * BYTES_PER_MS)), now);
  }

  /** Rounding is to the nearest whole number, halves up. */
  lemma RoundsHalfUp(x: real)
    ensures Round(x) as real - 0.5 <= x < Round(x) as real + 0.5
  {}

  /** A pause adds nothing but mulaw silence, of its length in milliseconds to the nearest. */
  lemma SilenceAddsPause(c: Pace, s: State, ms: real, at: real)
    requires !s.closed && ms > 0.0
    ensures var before, after := Held(s), Held(Step(c, s, Timed(Silence(ms), at)));
            && before <= after
            && var pause := after[|before|..];
            && (forall k :: 0 <= k < |pause| ==> pause[k] == 0xff)
            && |pause| % 8 == 0 && (|pause| / 8) as real - 0.5 <= ms < (|pause| / 8) as real + 0.5
  {
    EnqueueHolds(c, s, Quiet(Round(ms)), at);
    RoundsHalfUp(ms);
  }

  lemma {:induction false} ClosedAfter(events: seq<Timed>)
    requires events != []
    ensures IsClosed(events) <==> IsClosed(events[..|events| - 1]) || events[|events| - 1].event.Close?
  {}

  lemma StepCloses(c: Pace, s: State, e: Timed)
    ensures Step(c, s, e).closed <==> s.closed || e.event.Close?
  {
    match e.event {
      case Audio(chunk) => SendAllHolds(c, Push(s, Frames(chunk, c.frameMs * BYTES_PER_MS)), e.at);
      case Silence(ms) =>
        if ms > 0.0 { SendAllHolds(c, Push(s, Frames(Quiet(Round(ms)), c.frameMs * BYTES_PER_MS)), e.at); }
      case Tick => SendAllHolds(c, s, e.at);
      case _ =>
    }
  }

  /** No byte is lost, invented or reordered: what the transport got since the last clear,
      followed by the queue, is what callers offered; once closed, the transport has a
      prefix of it. */
  lemma {:induction false} BytesAreConserved(c: Pace, events: seq<Timed>)
    requires Clocked(events)
    ensures var s := Run(c, events);
            && s.closed == IsClosed(events)
            && (!s.closed ==> Delivered(s.wire) + Flat(s.queue) == Offered(events))
            && (s.closed ==> s.queue == [] && Delivered(s.wire) <= Offered(events))
  {
    if events != [] {
      var before, e := events[..|events| - 1], events[|events| - 1];
      var s := Run(c, before);
      BytesAreConserved(c, before);
      ClosedAfter(events);
      StepCloses(c, s, e);
      RunTracks(c, before, Latest(before));
      StepConserves(c, s, e, Offered(before));
    }
  }

  /** The millisecond count is an eighth of the queued bytes. */
  lemma QueuedMsCountsBytes(c: Pace, events: seq<Timed>)
    requires Clocked(events)
    ensures var s := Run(c, events); s.queuedMs * 8.0 == |Flat(s.queue)| as real
  {
    RunTracks(c, events, Latest(events));
    MsCountsBytes(Run(c, events).queue);
  }

  /** What is reported as outstanding, over any run: the queued bytes' duration and the audio
      the simulated transport still holds. */
  lemma OutstandingIsAudio(c: Pace, events: seq<Timed>, now: real)
    requires Clocked(events) && now >= Latest(events)
    ensures var s := Run(c, events);
            Round(s.queuedMs + Max(0.0, s.playheadAt - now)) == Round(|Flat(s.queue)| as real / 8.0 + Level(s.wire, now))
  {
    RunTracks(c, events, now);
    MsCountsBytes(Run(c, events).queue);
  }

  lemma StepConserves(c: Pace, s: State, e: Timed, offered: Frame)
    requires !s.closed ==> Held(s) == offered
    requires s.closed ==> s.queue == [] && !s.armed && Delivered(s.wire) <= offered
    ensures var t, still := Step(c, s, e), match e.event
              case Clear => []
              case Audio(chunk) => if s.closed then offered else offered + chunk
              case Silence(ms) => if s.closed || ms <= 0.0 then offered else offered + Quiet(Round(ms))
              case _ => offered;
            && (!t.closed ==> Held(t) == still)
            && (t.closed ==> Delivered(t.wire) <= still)
  {
    StepCloses(c, s, e);
    match e.event {
      case Audio(chunk) => EnqueueHolds(c, s, chunk, e.at);
      case Silence(ms) => if ms > 0.0 { EnqueueHolds(c, s, Quiet(Round(ms)), e.at); }
      case Tick => SendAllHolds(c, s, e.at);
      case Clear => DeliveredAfter(s.wire, [], e.at);
      case Close =>
    }
  }

  // ---- Draining ----------------------------------------------------------------------

  function Ticks(c: Pace, s: State, times: seq<real>): State
    decreases |times|
  {
    if times == [] then s else Ticks(c, Step(c, s, Timed(Tick, times[0])), times[1..])
  }

  /** Gaps between consecutive ticks, counted from `now`. */
  predicate Apart(now: real, times: seq<real>, least: real, most: real)
    decreases |times|
  {
    times != [] ==> least <= times[0] - now <= most && Apart(times[0], times[1..], least, most)
  }

  lemma {:induction false} SendAllShrinks(c: Pace, s: State, now: real)
    ensures |SendAll(c, s, now).queue| <= |s.queue|
    ensures MaySend(c, s, now) ==> |SendAll(c, s, now).queue| < |s.queue|
    decreases |s.queue|
  {
    if MaySend(c, s, now) {
      SendAllShrinks(c, SendNext(s, now), now);
    }
  }

  /** Ticks at least a frame apart send at least one frame each: a queue of n frames is empty
      after n of them, and then the timer is off. */
  lemma {:induction false} TicksDrain(c: Pace, s: State, now: real, times: seq<real>, most: real)
    requires Tracks(c, s, now) && c.leadCapMs > 0.0 && Apart(now, times, c.frameMs as real, most)
    ensures var t := Ticks(c, s, times);
            && (|t.queue| + |times| <= |s.queue| || t.queue == [])
            && (times != [] && t.queue == [] ==> !t.armed)
    decreases |times|
  {
    if times != [] {
      var e := Timed(Tick, times[0]);
      TracksLater(c, s, now, e.at);
      StepTracks(c, s, e);
      SendAllShrinks(c, s, e.at);
      TicksDrain(c, Step(c, s, e), e.at, times[1..], most);
      if times[1..] == [] {
        assert Ticks(c, s, times) == Step(c, s, e);
      }
    }
  }

  lemma {:induction false} SendAllKeepsEnd(c: Pace, s: State, now: real)
    requires s.queue == [] || now <= s.playheadAt
    ensures var t := SendAll(c, s, now); t.playheadAt + QueueMs(t.queue) == s.playheadAt + QueueMs(s.queue)
    decreases |s.queue|
  {
    if MaySend(c, s, now) {
      SendAllKeepsEnd(c, SendNext(s, now), now);
    }
  }

  /** Pacing is seamless: ticks at most the cap apart never let the transport run dry while
      frames wait, so all that is queued finishes playing at the moment it would have if it
      had been sent at once. */
  lemma {:induction false} PacingIsSeamless(c: Pace, s: State, now: real, times: seq<real>, least: real)
    requires Tracks(c, s, now) && Filled(c, s, now) && least >= 0.0 && Apart(now, times, least, c.leadCapMs)
    ensures var t := Ticks(c, s, times); t.playheadAt + QueueMs(t.queue) == s.playheadAt + QueueMs(s.queue)
    decreases |times|
  {
    if times != [] {
      var e := Timed(Tick, times[0]);
      TracksLater(c, s, now, e.at);
      StepTracks(c, s, e);
      SendAllKeepsEnd(c, s, e.at);
      PacingIsSeamless(c, Step(c, s, e), e.at, times[1..], least);
    }
  }

  /** Both together: a queue drained by n ticks leaves the transport playing until exactly
      the end of the audio. */
  lemma DrainedOnTime(c: Pace, s: State, now: real, times: seq<real>)
    requires Tracks(c, s, now) && Filled(c, s, now) && c.leadCapMs > 0.0
    requires Apart(now, times, c.frameMs as real, c.leadCapMs) && |s.queue| <= |times|
    ensures var t := Ticks(c, s, times); t.queue == [] && t.playheadAt == s.playheadAt + QueueMs(s.queue)
  {
    TicksDrain(c, s, now, times, c.leadCapMs);
    PacingIsSeamless(c, s, now, times, c.frameMs as real);
  }
}
