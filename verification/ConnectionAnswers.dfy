/** What each turn of the run loop says to the backend, and what it does to the session, for every run. */
module ConnectionAnswers {
  import opened Bytes
  import opened RequestIds
  import opened Retry
  import opened Connection
  import opened SessionTrace
  import opened SessionIds
  import opened SessionAnswers
  import opened ConnectionLog
  import opened ConnectionInvariant

  // ---------------------------------------------------------------------------
  // The reference: what is said in answer to an input, given what was said before
  // ---------------------------------------------------------------------------

  function Goodbye(open: Option<Device>): seq<Entry> {
    if open.Some? then [Emitted(EvDisconnected(open.value))] else []
  }

  /** A lost connection; with no attempts allowed, given up at once. */
  function Loss(d: Device, max: nat): seq<Entry> {
    [Emitted(EvDisconnected(d))] + if max == 0 then [Emitted(EvError(ReconnectExhausted(d, 0)))] else []
  }

  /** Connected, CONNECT written, reader started. */
  predicate Up(io: Io) {
    io.connects && io.first && io.readerStarts
  }

  /** An attempt to connect: the certificate warning, if it got that far, and success, if it was one. */
  function Attempt(d: Device, io: Io): seq<Entry> {
    (if io.connects && io.mismatch then [Emitted(EvCertificateMismatch(d))] else [])
    + if Up(io) then [Emitted(EvConnected(d))] else []
  }

  function FirstFailure(d: Device, io: Io): seq<Entry> {
    if Up(io) then [] else [Emitted(EvError(if io.connects && io.first then ReaderThread else Tls(d)))]
  }

  /** A failed retry, the last one allowed reported as such. */
  function RetryFailure(d: Device, n: nat, max: nat, io: Io): seq<Entry> {
    if Up(io) then []
    else [Retried] + if n + 1 == max then [Emitted(EvError(ReconnectExhausted(d, n + 1)))] else []
  }

  function Entries(events: seq<Event>): seq<Entry> {
    seq(|events|, i requires 0 <= i < |events| => Emitted(events[i]))
  }

  function LossUnless(ok: bool, d: Device, max: nat): seq<Entry> {
    if ok then [] else Loss(d, max)
  }

  /** What an input adds to the log, when `max` attempts are allowed, `s` sums up the log so far, and the session,
      if there is one, has the history `t` and the LOAD `waiting`. */
  function Said(max: nat, s: Story, t: seq<Item>, waiting: Option<Media>, input: Input, io: Io): seq<Entry> {
    match input
    case Commanded(None) => []
    case Commanded(Some(Shutdown)) => Goodbye(s.open)
    case Commanded(Some(Select(d))) => Goodbye(s.open) + [Selected(d)] + Attempt(d, io) + FirstFailure(d, io)
    case Commanded(Some(c)) => if s.open.None? then [] else LossUnless(Written(Wanted(c, t), io), s.open.value, max)
    case Framed(None) => if s.open.None? then [] else Loss(s.open.value, max)
    case Framed(Some(frame)) =>
      if s.open.None? then []
      else
        (if frame == PongFrame then [Ponged] else []) + Entries(Reports(frame, t))
        + LossUnless(Written(WantedBy(frame, t, waiting), io), s.open.value, max)
    case HeartbeatFires => if s.open.None? then [] else [Pinged] + LossUnless(io.first, s.open.value, max)
    case WatchdogFires => if s.open.None? then [] else Loss(s.open.value, max)
    case ReconnectFires =>
      if s.trying.None? then []
      else Attempt(s.trying.value.0, io) + RetryFailure(s.trying.value.0, s.trying.value.1, max, io)
    case ShutdownRequested => Goodbye(s.open)
  }

  function TraceOf(r: Run): seq<Item> {
    if r.session.Some? then r.session.value.trace else []
  }

  function WaitingIn(r: Run): Option<Media> {
    if r.session.Some? then r.session.value.queued else None
  }

  // ---------------------------------------------------------------------------
  // Each operation says its part
  // ---------------------------------------------------------------------------

  lemma EmitSays(r: Run, events: seq<Event>)
    ensures Emit(r, events) == r.(log := r.log + Entries(events))
    ensures forall e :: Entries([e]) == [Emitted(e)]
  {
  }

  lemma TeardownSays(r: Run, now: nat)
    requires r.session.Some? ==> IsId(r.session.value.ids.next)
    ensures TeardownSession(r, now).log == r.log + Goodbye(DeviceOf(r))
    ensures TeardownSession(r, now).desired == r.desired && TeardownSession(r, now).running == r.running
    ensures TeardownSession(r, now).clock == r.clock
  {
    hide Take;
    if r.session.Some? {
      EmitSays(r, [EvDisconnected(r.session.value.device)]);
    } else {
      assert r.log + [] == r.log;
    }
  }

  lemma LostSays(r: Run, config: Config, now: nat)
    requires r.session.Some? && IsId(r.session.value.ids.next) && r.desired == Some(r.session.value.device)
    ensures ConnectionLost(r, config, now).log == r.log + Loss(r.session.value.device, config.backoff.remaining)
    ensures ConnectionLost(r, config, now).running == r.running && ConnectionLost(r, config, now).clock == r.clock
  {
    hide TeardownSession, Emit, Entries;
    TeardownSays(r, now);
    var d := r.session.value.device;
    var t := TeardownSession(r, now);
    EmitSays(t, [EvError(ReconnectExhausted(d, 0))]);
    assert r.log + [Emitted(EvDisconnected(d))] + [] == r.log + [Emitted(EvDisconnected(d))];
  }

  lemma EstablishSays(r: Run, d: Device, config: Config, io: Io)
    ensures var (t, error) := Establish(r, d, config, io);
            && t.log == r.log + Attempt(d, io)
            && (error.None? <==> Up(io)) && t.running == r.running && t.clock == r.clock
            && (error.Some? ==> FirstFailure(d, io) == [Emitted(EvError(error.value))])
  {
    hide Emit, Entries;
    EmitSays(r, [EvCertificateMismatch(d)]);
    var t := if io.connects && io.mismatch then Emit(r, [EvCertificateMismatch(d)]) else r;
    EmitSays(t.(session := Some(NewSession(d)), inbound := true, heartbeat := Some(io.now + config.heartbeat),
                watchdog := Some(io.now + config.watchdog)), [EvConnected(d)]);
    assert r.log + [] == r.log;
  }

  lemma SelectSays(r: Run, d: Device, config: Config, io: Io)
    requires r.session.Some? ==> IsId(r.session.value.ids.next)
    ensures SelectDevice(r, d, config, io).log ==
            r.log + (Goodbye(DeviceOf(r)) + [Selected(d)] + Attempt(d, io) + FirstFailure(d, io))
    ensures SelectDevice(r, d, config, io).running == r.running && SelectDevice(r, d, config, io).clock == r.clock
  {
    hide TeardownSession, Establish, Emit, Entries, Attempt, Goodbye;
    TeardownSays(r, io.now);
    var t := TeardownSession(r, io.now).(reconnect := None, desired := Some(d));
    var u := t.(log := t.log + [Selected(d)]);
    EstablishSays(u, d, config, io);
    var (v, error) := Establish(u, d, config, io);
    var a, b := Goodbye(DeviceOf(r)), Attempt(d, io);
    assert v.log == r.log + (a + [Selected(d)] + b);
    if error.Some? {
      EmitSays(v, [EvError(error.value)]);
    } else {
      assert a + [Selected(d)] + b + [] == a + [Selected(d)] + b;
    }
  }

  lemma RetrySays(r: Run, config: Config, io: Io)
    requires r.reconnect.Some? && OnSchedule(config.backoff, r.reconnect.value)
    ensures var c := r.reconnect.value;
            RetryConnect(r, config, io).log ==
            r.log + (Attempt(c.device, io) + RetryFailure(c.device, c.attempts, config.backoff.remaining, io))
    ensures RetryConnect(r, config, io).running == r.running && RetryConnect(r, config, io).clock == r.clock
  {
    hide Establish, Emit, Entries, Attempt, Advance, After;
    var c := r.reconnect.value;
    NextStep(config.backoff, c);
    EstablishSays(r.(reconnect := None), c.device, config, io);
    var (t, error) := Establish(r.(reconnect := None), c.device, config, io);
    var a := Attempt(c.device, io);
    if error.Some? {
      var u := t.(log := t.log + [Retried]);
      EmitSays(u, [EvError(ReconnectExhausted(c.device, c.attempts + 1))]);
      assert r.log + a + [Retried] == r.log + (a + ([Retried] + []));
    } else {
      assert a + [] == a;
    }
  }

  lemma SettleSays(r: Run, s: Session, ok: bool, config: Config, now: nat)
    requires IsId(s.ids.next) && r.desired == Some(s.device)
    ensures Settle(r, s, ok, config, now).log == r.log + LossUnless(ok, s.device, config.backoff.remaining)
    ensures Settle(r, s, ok, config, now).running == r.running && Settle(r, s, ok, config, now).clock == r.clock
  {
    hide ConnectionLost;
    if ok {
      assert r.log + [] == r.log;
    } else {
      LostSays(r.(session := Some(s)), config, now);
    }
  }

  // ---------------------------------------------------------------------------
  // Each branch says what the reference says
  // ---------------------------------------------------------------------------

  lemma CommandSays(config: Config, r: Run, c: Command, io: Io)
    requires RunOk(config, r) && r.running && r.session.Some? && !c.Select? && !c.Shutdown?
    ensures SessionUsable(r)
    ensures OnCommand(r, c, config, io).log ==
            r.log + LossUnless(Written(Wanted(c, TraceOf(r)), io), r.session.value.device, config.backoff.remaining)
    ensures OnCommand(r, c, config, io).running && OnCommand(r, c, config, io).clock == r.clock
  {
    hide LogOk, StoryOf, HandleCommand, Settle, Wanted, SessionOk, PastOk, Answers;
    HistoriesAreUsable(r);
    var s := r.session.value;
    CommandAnswered(s, c, io);
    var (u, ok) := HandleCommand(s, c, io);
    SettleSays(r, u, ok, config, io.now);
  }

  lemma FrameSays(config: Config, r: Run, frame: Inbound, io: Io)
    requires RunOk(config, r) && r.running && r.session.Some?
    ensures Usable(r.session.value)
    ensures OnFrame(r, frame, config, io).log ==
            r.log + ((if frame == PongFrame then [Ponged] else []) + Entries(Reports(frame, TraceOf(r)))
                     + LossUnless(Written(WantedBy(frame, TraceOf(r), WaitingIn(r)), io), r.session.value.device,
                                  config.backoff.remaining))
    ensures OnFrame(r, frame, config, io).running && OnFrame(r, frame, config, io).clock == r.clock
  {
    hide LogOk, StoryOf, RouteInbound, DispatchQueued, Settle, SessionOk, PastOk, Recorded, Reports, WantedBy;
    hide Emit, Entries, LossUnless;
    HistoriesAreUsable(r);
    var s := r.session.value;
    FrameAnswered(s, frame, io);
    var (v, events, pong) := RouteInbound(s, frame);
    var q := if pong then Pong(r, io.now + config.watchdog) else r;
    EmitSays(q, events);
    var (u, ok) := DispatchQueued(v, io);
    SettleSays(Emit(q, events), u, ok, config, io.now);
    var a := if frame == PongFrame then [Ponged] else [];
    var b, c := Entries(events), LossUnless(ok, s.device, config.backoff.remaining);
    assert q.log == r.log + a;
    assert r.log + a + b + c == r.log + (a + b + c);
  }

  lemma HeartbeatSays(config: Config, r: Run, io: Io)
    requires RunOk(config, r) && Enabled(r, HeartbeatFires, io) && r.session.Some?
    ensures SessionUsable(r)
    ensures Branch(r, HeartbeatFires, config, io).log ==
            r.log + ([Pinged] + LossUnless(io.first, r.session.value.device, config.backoff.remaining))
    ensures Branch(r, HeartbeatFires, config, io).running && Branch(r, HeartbeatFires, config, io).clock == r.clock
  {
    hide LogOk, StoryOf, Settle, SessionOk, PastOk, LossUnless;
    HistoriesAreUsable(r);
    var s := Write(r.session.value, TRANSPORT_ID, PING);
    var beat := if io.first then Some(io.now + config.heartbeat) else r.heartbeat;
    SettleSays(r.(heartbeat := beat, log := r.log + [Pinged]), s, io.first, config, io.now);
  }

  predicate Quits(input: Input) {
    input == Commanded(None) || input == Commanded(Some(Shutdown)) || input == ShutdownRequested
  }

  /** The device connected, per log and per state. */
  lemma OpenIsSession(config: Config, r: Run)
    requires RunOk(config, r)
    ensures StoryOf(r.log).open == DeviceOf(r) && SessionUsable(r)
    ensures r.running && r.session.Some? ==> r.desired == Some(r.session.value.device)
    ensures r.running && r.reconnect.Some? ==>
              && r.session.None? && OnSchedule(config.backoff, r.reconnect.value)
              && StoryOf(r.log).trying == Some((r.reconnect.value.device, r.reconnect.value.attempts))
    ensures r.running ==> (r.inbound <==> r.session.Some?) && (r.heartbeat.Some? <==> r.session.Some?)
                          && (r.watchdog.Some? <==> r.session.Some?)
  {
    hide LogOk, StoryOf, SessionOk, PastOk, OnSchedule;
    HistoriesAreUsable(r);
  }

  ghost predicate SaysRightly(config: Config, r: Run, input: Input, io: Io, t: Run) {
    && t.log == r.log + Said(config.backoff.remaining, StoryOf(r.log), TraceOf(r), WaitingIn(r), input, io)
    && (t.running <==> !Quits(input))
  }

  lemma CommandedSays(config: Config, r: Run, command: Option<Command>, io: Io)
    requires RunOk(config, r) && r.running
    ensures SessionUsable(r)
    ensures var t := Branch(r, Commanded(command), config, io);
            SaysRightly(config, r, Commanded(command), io, t) && t.clock == r.clock
  {
    hide LogOk, StoryOf, SessionOk, PastOk, RunOk, TeardownSession, SelectDevice, Settle, HandleCommand, Wanted;
    hide Attempt, FirstFailure;
    OpenIsSession(config, r);
    assert r.log + [] == r.log;
    if command.Some? {
      var c := command.value;
      if c.Shutdown? {
        TeardownSays(r, io.now);
      } else if c.Select? {
        SelectSays(r, c.device, config, io);
      } else if r.session.Some? {
        CommandSays(config, r, c, io);
      }
    }
  }

  lemma OtherSays(config: Config, r: Run, input: Input, io: Io)
    requires RunOk(config, r) && Enabled(r, input, io) && !input.Commanded?
    ensures SessionUsable(r) && SaysRightly(config, r, input, io, Branch(r, input, config, io))
    ensures Branch(r, input, config, io).clock == r.clock
  {
    hide LogOk, StoryOf, SessionOk, PastOk, RunOk, TeardownSession, ConnectionLost, RetryConnect, OnFrame, Settle;
    hide Attempt, RetryFailure, Reports, WantedBy, OnSchedule;
    OpenIsSession(config, r);
    match input
    case Framed(Some(frame)) => FrameSays(config, r, frame, io);
    case Framed(None) => LostSays(r, config, io.now);
    case HeartbeatFires => HeartbeatSays(config, r, io);
    case WatchdogFires => LostSays(r, config, io.now);
    case ReconnectFires => RetrySays(r, config, io);
    case ShutdownRequested => TeardownSays(r, io.now);
  }

  /** Every turn says exactly what the reference says, and ends the loop exactly if it is told to. */
  lemma TurnSays(config: Config, r: Run, input: Input, io: Io)
    requires RunOk(config, r) && Enabled(r, input, io)
    ensures SessionUsable(r) && SaysRightly(config, r, input, io, Iterate(r, input, config, io))
  {
    hide RunOk, Branch, Said, StoryOf;
    if input.Commanded? {
      CommandedSays(config, r, input.command, io);
    } else {
      OtherSays(config, r, input, io);
    }
  }

  // ---------------------------------------------------------------------------
  // What a turn does to the session
  // ---------------------------------------------------------------------------

  /** What the session of `r` did up to the turn's end, or up to its teardown if the turn ended it. */
  function SoFar(r: Run, q: Run): seq<Item> {
    if |r.past| < |q.past| then
      var p := q.past[|r.past|];
      if p.end <= |p.trace| then p.trace[..p.end] else []
    else TraceOf(q)
  }

  /** What an input adds to the session's history `t`. */
  ghost predicate Sends(input: Input, t: seq<Item>, waiting: Option<Media>, io: Io, tail: seq<Item>) {
    match input
    case Commanded(Some(Select(_))) => tail == []
    case Commanded(Some(Shutdown)) => tail == []
    case Commanded(Some(c)) => Answers(c, t, io.first, tail)
    case Framed(Some(frame)) => Recorded(frame, t, waiting, io.first, tail)
    case HeartbeatFires => tail == [Sent(TRANSPORT_ID, PING)]
    case _ => tail == []
  }

  lemma GoodbyePrefix(s: Session, now: nat)
    requires IsId(s.ids.next)
    ensures |s.trace| <= |SayGoodbye(s, now).trace| && SayGoodbye(s, now).trace[..|s.trace|] == s.trace
  {
    hide Take;
  }

  lemma TeardownKeeps(r: Run, now: nat)
    requires r.session.Some? && IsId(r.session.value.ids.next)
    ensures var q := TeardownSession(r, now);
            |q.past| == |r.past| + 1 && q.past[..|r.past|] == r.past && SoFar(r, q) == r.session.value.trace
  {
    hide SayGoodbye;
    GoodbyePrefix(r.session.value, now);
  }

  lemma LostKeeps(r: Run, config: Config, now: nat)
    requires r.session.Some? && IsId(r.session.value.ids.next)
    ensures var q := ConnectionLost(r, config, now);
            |q.past| == |r.past| + 1 && SoFar(r, q) == r.session.value.trace
  {
    hide TeardownSession, Advance;
    TeardownKeeps(r, now);
  }

  lemma SettleKeeps(r: Run, s: Session, ok: bool, config: Config, now: nat)
    requires IsId(s.ids.next)
    ensures SoFar(r, Settle(r, s, ok, config, now)) == s.trace
    ensures ok ==> Settle(r, s, ok, config, now) == r.(session := Some(s))
    ensures !ok ==> |Settle(r, s, ok, config, now).past| > |r.past|
  {
    hide ConnectionLost;
    if !ok {
      LostKeeps(r.(session := Some(s)), config, now);
    }
  }

  lemma SelectKeeps(r: Run, d: Device, config: Config, io: Io)
    requires r.session.Some? && IsId(r.session.value.ids.next)
    ensures |SelectDevice(r, d, config, io).past| > |r.past|
    ensures SoFar(r, SelectDevice(r, d, config, io)) == r.session.value.trace
  {
    hide TeardownSession;
    TeardownKeeps(r, io.now);
  }

  /** Keeping the session, and all of what a turn does to it, depends on the branch alone. */
  lemma IterateSoFar(r: Run, input: Input, config: Config, io: Io)
    requires Enabled(r, input, io) && SessionUsable(r)
    ensures SoFar(r, Iterate(r, input, config, io)) == SoFar(r, Branch(r, input, config, io))
  {
    hide Branch, Release;
  }

  ghost predicate ActsRightly(r: Run, input: Input, io: Io, q: Run) {
    && TraceOf(r) <= SoFar(r, q)
    && Sends(input, TraceOf(r), WaitingIn(r), io, Added(TraceOf(r), SoFar(r, q)))
  }

  lemma CommandActs(config: Config, r: Run, c: Command, io: Io)
    requires RunOk(config, r) && r.running && r.session.Some? && SessionUsable(r)
    ensures ActsRightly(r, Commanded(Some(c)), io, OnCommand(r, c, config, io))
  {
    hide Told, PastOk, SessionOk, HandleCommand, Settle, Answers, SelectDevice, TeardownSession;
    var s := r.session.value;
    if c.Select? {
      SelectKeeps(r, c.device, config, io);
    } else if c.Shutdown? {
      TeardownKeeps(r, io.now);
    } else {
      CommandAnswered(s, c, io);
      var (u, ok) := HandleCommand(s, c, io);
      SettleKeeps(r, u, ok, config, io.now);
    }
  }

  lemma FrameActs(config: Config, r: Run, frame: Inbound, io: Io)
    requires RunOk(config, r) && r.running && r.session.Some? && SessionUsable(r)
    ensures ActsRightly(r, Framed(Some(frame)), io, OnFrame(r, frame, config, io))
  {
    hide Told, PastOk, SessionOk, RouteInbound, DispatchQueued, Settle, Recorded, Reports, WantedBy, Emit;
    var s := r.session.value;
    FrameAnswered(s, frame, io);
    var (v, events, pong) := RouteInbound(s, frame);
    var q := if pong then Pong(r, io.now + config.watchdog) else r;
    EmitFrame(q, events);
    var (u, ok) := DispatchQueued(v, io);
    SettleKeeps(Emit(q, events), u, ok, config, io.now);
  }

  lemma HeartbeatActs(config: Config, r: Run, io: Io)
    requires Enabled(r, HeartbeatFires, io) && r.session.Some? && SessionUsable(r)
    ensures ActsRightly(r, HeartbeatFires, io, Branch(r, HeartbeatFires, config, io))
  {
    hide Settle;
    var s := r.session.value;
    var beat := if io.first then Some(io.now + config.heartbeat) else r.heartbeat;
    SettleKeeps(r.(heartbeat := beat, log := r.log + [Pinged]), Write(s, TRANSPORT_ID, PING), io.first, config, io.now);
    OneAdded(s.trace, Sent(TRANSPORT_ID, PING));
  }

  /** Every turn adds to the session's history exactly what its input calls for. */
  lemma TurnActs(config: Config, r: Run, input: Input, io: Io)
    requires RunOk(config, r) && Enabled(r, input, io) && r.session.Some?
    ensures SessionUsable(r) && ActsRightly(r, input, io, Iterate(r, input, config, io))
  {
    hide RunOk, LogOk, StoryOf, Settle, OnFrame, OnCommand, ConnectionLost, TeardownSession, RetryConnect;
    hide Answers, Recorded, OnSchedule;
    OpenIsSession(config, r);
    IterateSoFar(r, input, config, io);
    match input
    case Commanded(Some(c)) => CommandActs(config, r, c, io);
    case Commanded(None) =>
    case Framed(Some(frame)) => FrameActs(config, r, frame, io);
    case Framed(None) => LostKeeps(r, config, io.now);
    case HeartbeatFires => HeartbeatActs(config, r, io);
    case WatchdogFires => LostKeeps(r, config, io.now);
    case ShutdownRequested => TeardownKeeps(r, io.now);
  }

  // ---------------------------------------------------------------------------
  // What a turn does to the pending requests
  // ---------------------------------------------------------------------------

  predicate SettledBy(input: Input, id: nat) {
    input.Framed? && input.frame.Some? && Settles(input.frame.value, id)
  }

  function Pending(r: Run): map<nat, nat> {
    if r.session.Some? then r.session.value.ids.pending else map[]
  }

  /** The session of `r` goes on in `q`. */
  predicate SameSession(r: Run, q: Run) {
    r.session.Some? && q.session.Some? && |q.past| == |r.past|
  }

  lemma BranchPending(config: Config, r: Run, input: Input, io: Io, id: nat)
    requires RunOk(config, r) && Enabled(r, input, io) && SessionUsable(r)
    requires SameSession(r, Branch(r, input, config, io))
    ensures Carried(Pending(r), Pending(Branch(r, input, config, io)), id, SettledBy(input, id), io.now)
  {
    hide Told, PastOk, SessionOk, HandleCommand, RouteInbound, DispatchQueued, Emit, SelectDevice, TeardownSession;
    hide Settle, ConnectionLost, Settles;
    var s := r.session.value;
    if input.Commanded? && input.command.Some? {
      var c := input.command.value;
      if c.Select? {
        SelectKeeps(r, c.device, config, io);
      } else if !c.Shutdown? {
        CommandPending(s, c, io, id);
        var (u, ok) := HandleCommand(s, c, io);
        SettleKeeps(r, u, ok, config, io.now);
      } else {
        TeardownKeeps(r, io.now);
      }
    } else if input.Framed? && input.frame.Some? {
      FramePending(s, input.frame.value, io, id);
      var (v, events, pong) := RouteInbound(s, input.frame.value);
      var q := if pong then Pong(r, io.now + config.watchdog) else r;
      EmitFrame(q, events);
      var (u, ok) := DispatchQueued(v, io);
      SettleKeeps(Emit(q, events), u, ok, config, io.now);
    } else if input.Framed? || input.WatchdogFires? {
      LostKeeps(r, config, io.now);
    } else if input.HeartbeatFires? {
      var beat := if io.first then Some(io.now + config.heartbeat) else r.heartbeat;
      var q := r.(heartbeat := beat, log := r.log + [Pinged]);
      SettleKeeps(q, Write(s, TRANSPORT_ID, PING), io.first, config, io.now);
    } else if input.ShutdownRequested? {
      TeardownKeeps(r, io.now);
    } else if input.ReconnectFires? {
      OpenIsSession(config, r);
    }
  }

  /** A request stays pending exactly until it is answered or has waited too long; one that came up in this turn
      was sent in it; and none that waited too long is left. */
  lemma TurnPending(config: Config, r: Run, input: Input, io: Io, id: nat)
    requires RunOk(config, r) && Enabled(r, input, io) && SessionUsable(r)
    requires SameSession(r, Iterate(r, input, config, io)) && Iterate(r, input, config, io).running
    ensures var (before, after) := (Pending(r), Pending(Iterate(r, input, config, io)));
            && (id in before && !SettledBy(input, id) ==>
                  (id in after <==> io.end < before[id] + config.requestTimeout))
            && (id in before && id in after && !SettledBy(input, id) ==> after[id] == before[id])
            && (id in after && (SettledBy(input, id) || id !in before) ==> after[id] == io.now)
            && (id in after ==> io.end < after[id] + config.requestTimeout)
  {
    hide RunOk, Branch, SettledBy;
    BranchPending(config, r, input, io, id);
  }
}
