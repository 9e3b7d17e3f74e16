/** What holds at the head of every iteration of the run loop. */
module ConnectionInvariant {
  import opened Bytes
  import opened RequestIds
  import opened Retry
  import opened Connection
  import opened SessionTrace
  import opened SessionIds
  import opened ConnectionLog

  function DeviceOf(r: Run): Option<Device> {
    if r.session.Some? then Some(r.session.value.device) else None
  }

  /** Session, inbound channel, heartbeat and watchdog come and go together; a session and a scheduled
      reconnect exclude each other; a device is desired exactly if there is either, and is that device. */
  predicate Shape(r: Run) {
    && (r.inbound <==> r.session.Some?)
    && (r.heartbeat.Some? <==> r.session.Some?)
    && (r.watchdog.Some? <==> r.session.Some?)
    && !(r.session.Some? && r.reconnect.Some?)
    && r.desired == if r.session.Some? then Some(r.session.value.device)
                    else if r.reconnect.Some? then Some(r.reconnect.value.device) else None
  }

  /** The scheduled attempt is number `attempts + 1`: the policy has been advanced that often, and the wait
      is what the last advance gave. */
  ghost predicate OnSchedule(policy: Policy, c: Reconnect) {
    && c.attempts < policy.remaining
    && c.backoff == After(policy, c.attempts + 1)
    && Advance(After(policy, c.attempts)).0 == Some(c.wait)
  }

  /** The log is in order and tells the same as the state. */
  ghost predicate Chronicle(config: Config, r: Run) {
    && LogOk(config.backoff.remaining, r.log)
    && StoryOf(r.log).open == DeviceOf(r)
    && (r.session.Some? ==> StoryOf(r.log).ready == Live(r.session.value.phase))
  }

  ghost predicate Current(config: Config, r: Run) {
    && Shape(r)
    && StoryOf(r.log).wanted == r.desired
    && (r.reconnect.Some? ==>
          && OnSchedule(config.backoff, r.reconnect.value)
          && StoryOf(r.log).trying == Some((r.reconnect.value.device, r.reconnect.value.attempts)))
  }

  /** The log part of the invariant. */
  ghost predicate Told(config: Config, r: Run) {
    Chronicle(config, r) && (r.running ==> Current(config, r))
  }

  /** The session part: the live session is in order and so are all that are over. */
  ghost predicate Histories(r: Run) {
    (r.session.Some? ==> SessionOk(r.session.value)) && forall i :: 0 <= i < |r.past| ==> PastOk(r.past[i])
  }

  /** The same, after a failed write. */
  ghost predicate BrokenHistories(r: Run) {
    (r.session.Some? ==> BrokenOk(r.session.value)) && forall i :: 0 <= i < |r.past| ==> PastOk(r.past[i])
  }

  ghost predicate RunOk(config: Config, r: Run) {
    Told(config, r) && Histories(r)
  }

  lemma StartOk(config: Config)
    ensures RunOk(config, START)
  {
  }

  // ---------------------------------------------------------------------------
  // The session part
  // ---------------------------------------------------------------------------

  lemma HistoriesAreBroken(r: Run)
    requires Histories(r)
    ensures BrokenHistories(r)
  {
    hide SessionOk, BrokenOk, PastOk;
    if r.session.Some? {
      SessionIsBroken(r.session.value);
    }
  }

  lemma BrokenIsCallable(r: Run)
    requires BrokenHistories(r)
    ensures r.session.Some? ==> IsId(r.session.value.ids.next)
  {
    hide PastOk, BrokenOk;
    if r.session.Some? {
      SessionIsUsable(r.session.value);
    }
  }

  lemma HistoriesAreUsable(r: Run)
    requires Histories(r)
    ensures SessionUsable(r)
  {
    hide PastOk, SessionOk, BrokenOk;
    if r.session.Some? {
      SessionIsBroken(r.session.value);
      SessionIsUsable(r.session.value);
    }
  }

  lemma TeardownHistories(r: Run, now: nat)
    requires BrokenHistories(r)
    ensures r.session.Some? ==> IsId(r.session.value.ids.next)
    ensures Histories(TeardownSession(r, now)) && TeardownSession(r, now).session.None?
  {
    BrokenIsCallable(r);
    hide SessionOk, BrokenOk, PastOk, SayGoodbye;
    if r.session.Some? {
      GoodbyeOk(r.session.value, now);
    }
  }

  lemma LostHistories(r: Run, config: Config, now: nat)
    requires BrokenHistories(r)
    ensures r.session.Some? ==> IsId(r.session.value.ids.next)
    ensures Histories(ConnectionLost(r, config, now))
  {
    hide SessionOk, BrokenOk, PastOk, TeardownSession;
    TeardownHistories(r, now);
  }

  lemma EstablishHistories(r: Run, d: Device, config: Config, io: Io)
    requires Histories(r)
    ensures Histories(Establish(r, d, config, io).0)
  {
    hide SessionOk, PastOk;
    NewSessionOk(d);
    FailedAttemptOk(d);
  }

  lemma SelectHistories(r: Run, d: Device, config: Config, io: Io)
    requires Histories(r)
    ensures SessionUsable(r) && Histories(SelectDevice(r, d, config, io))
  {
    hide SessionOk, BrokenOk, PastOk, TeardownSession, Establish;
    HistoriesAreUsable(r);
    HistoriesAreBroken(r);
    TeardownHistories(r, io.now);
    var t := TeardownSession(r, io.now).(reconnect := None, desired := Some(d));
    EstablishHistories(t.(log := t.log + [Selected(d)]), d, config, io);
  }

  lemma RetryHistories(r: Run, config: Config, io: Io)
    requires Histories(r) && r.reconnect.Some?
    ensures Histories(RetryConnect(r, config, io))
  {
    hide SessionOk, PastOk, Establish;
    EstablishHistories(r.(reconnect := None), r.reconnect.value.device, config, io);
  }

  lemma SettleHistories(r: Run, s: Session, ok: bool, config: Config, now: nat)
    requires Histories(r) && OutcomeOk((s, ok))
    ensures IsId(s.ids.next) && Histories(Settle(r, s, ok, config, now))
  {
    hide SessionOk, BrokenOk, PastOk, ConnectionLost, OutcomeOk;
    var t := r.(session := Some(s));
    OutcomeMeans((s, ok));
    if ok {
      SessionIsBroken(s);
    }
    BrokenIsCallable(t);
    LostHistories(t, config, now);
  }

  lemma CommandHistories(r: Run, c: Command, config: Config, io: Io)
    requires Histories(r)
    ensures SessionUsable(r) && Histories(OnCommand(r, c, config, io))
  {
    hide SessionOk, BrokenOk, OutcomeOk, PastOk, SelectDevice, TeardownSession, Settle, HandleCommand;
    HistoriesAreUsable(r);
    HistoriesAreBroken(r);
    if c.Shutdown? {
      TeardownHistories(r, io.now);
    } else if c.Select? {
      SelectHistories(r, c.device, config, io);
    } else if r.session.Some? {
      CommandOk(r.session.value, c, io);
      var (s, ok) := HandleCommand(r.session.value, c, io);
      SettleHistories(r, s, ok, config, io.now);
    }
  }

  lemma FrameHistories(r: Run, frame: Inbound, config: Config, io: Io)
    requires Histories(r) && r.session.Some?
    ensures Usable(r.session.value) && Histories(OnFrame(r, frame, config, io))
  {
    hide SessionOk, BrokenOk, OutcomeOk, PastOk, Settle, RouteInbound, DispatchQueued;
    HistoriesAreUsable(r);
    FrameOk(r.session.value, frame, io);
    var (s, events, pong) := RouteInbound(r.session.value, frame);
    var t := Emit(if pong then Pong(r, io.now + config.watchdog) else r, events);
    var (u, ok) := DispatchQueued(s, io);
    SettleHistories(t, u, ok, config, io.now);
  }

  lemma BranchHistories(r: Run, input: Input, config: Config, io: Io)
    requires Histories(r) && Enabled(r, input, io)
    ensures SessionUsable(r) && Histories(Branch(r, input, config, io))
  {
    hide SessionOk, BrokenOk, OutcomeOk, PastOk;
    hide OnCommand, OnFrame, Settle, ConnectionLost, TeardownSession, RetryConnect;
    HistoriesAreUsable(r);
    HistoriesAreBroken(r);
    match input
    case Commanded(command) =>
      if command.Some? {
        CommandHistories(r, command.value, config, io);
      }
    case Framed(frame) =>
      if frame.Some? && r.session.Some? {
        FrameHistories(r, frame.value, config, io);
      }
      LostHistories(r, config, io.now);
    case HeartbeatFires =>
      if r.session.Some? {
        PingOk(r.session.value, io.first);
        var beat := if io.first then Some(io.now + config.heartbeat) else r.heartbeat;
        SettleHistories(r.(heartbeat := beat, log := r.log + [Pinged]),
                        Write(r.session.value, TRANSPORT_ID, PING), io.first, config, io.now);
      }
    case WatchdogFires => LostHistories(r, config, io.now);
    case ReconnectFires => RetryHistories(r, config, io);
    case ShutdownRequested => TeardownHistories(r, io.now);
  }

  lemma ReapHistories(r: Run, config: Config, now: nat)
    requires Histories(r)
    ensures Histories(Reap(r, config, now))
  {
    hide PastOk, SessionOk;
    if r.session.Some? {
      var s := r.session.value;
      ReapOk(s, Overdue(s.ids.pending, now, config.requestTimeout));
    }
  }

  // ---------------------------------------------------------------------------
  // The log part
  // ---------------------------------------------------------------------------

  lemma EmitOne(r: Run, e: Event)
    ensures Emit(r, [e]).log == r.log + [Emitted(e)]
  {
  }

  lemma TeardownTold(config: Config, r: Run, now: nat)
    requires Chronicle(config, r) && (r.session.Some? ==> IsId(r.session.value.ids.next))
    ensures Chronicle(config, TeardownSession(r, now))
    ensures r.session.Some? ==>
              StoryOf(TeardownSession(r, now).log) ==
              Tell(StoryOf(r.log), Emitted(EvDisconnected(r.session.value.device)))
  {
    hide LogOk, StoryOf, Take;
    if r.session.Some? {
      var e := EvDisconnected(r.session.value.device);
      EmitOne(r, e);
      LogSnoc(config.backoff.remaining, r.log, Emitted(e));
    }
  }

  lemma LostTold(config: Config, r: Run, now: nat)
    requires Chronicle(config, r) && Current(config, r) && r.session.Some? && IsId(r.session.value.ids.next)
    ensures Told(config, ConnectionLost(r, config, now))
  {
    hide LogOk, StoryOf, SayGoodbye, Advance;
    TeardownTold(config, r, now);
    var d := r.session.value.device;
    var t := TeardownSession(r, now);
    FirstStep(config.backoff);
    if Advance(config.backoff).0.None? {
      var e := EvError(ReconnectExhausted(d, 0));
      EmitOne(t, e);
      LogSnoc(config.backoff.remaining, t.log, Emitted(e));
    }
  }

  lemma FirstStep(p: Policy)
    ensures Advance(p).0.None? <==> p.remaining == 0
    ensures After(p, 0) == p && After(p, 1) == Advance(p).1
  {
  }

  /** The attempt after a scheduled one: either it is on schedule too, or the policy has run out. */
  lemma NextStep(p: Policy, c: Reconnect)
    requires OnSchedule(p, c)
    ensures match Advance(c.backoff)
            case (Some(wait), backoff) => c.attempts + 1 < p.remaining && backoff == After(p, c.attempts + 2)
            case (None, _) => c.attempts + 1 == p.remaining
  {
    DelayExactly(p, c.attempts + 1);
  }

  /** An attempt to connect to the device that is wanted, with nothing connected. */
  lemma EstablishTold(config: Config, r: Run, d: Device, io: Io)
    requires Chronicle(config, r) && r.session.None? && StoryOf(r.log).wanted == Some(d)
    ensures var (t, error) := Establish(r, d, config, io);
            && Chronicle(config, t)
            && t.session.Some? == error.None?
            && t.desired == r.desired && t.reconnect == r.reconnect && t.running == r.running
            && StoryOf(t.log).wanted == Some(d)
            && (error.None? ==> t.session.value.device == d && t.inbound && t.heartbeat.Some? && t.watchdog.Some?)
            && (error.Some? ==> StoryOf(t.log) == StoryOf(r.log) && !error.value.ReconnectExhausted?
                                && t.inbound == r.inbound && t.heartbeat == r.heartbeat && t.watchdog == r.watchdog)
  {
    hide LogOk, StoryOf;
    var max := config.backoff.remaining;
    var warning := EvCertificateMismatch(d);
    LogSnoc(max, r.log, Emitted(warning));
    EmitOne(r, warning);
    var t := if io.mismatch then Emit(r, [warning]) else r;
    LogSnoc(max, t.log, Emitted(EvConnected(d)));
    EmitOne(t, EvConnected(d));
  }

  lemma SelectTold(config: Config, r: Run, d: Device, io: Io)
    requires Told(config, r) && r.running && (r.session.Some? ==> IsId(r.session.value.ids.next))
    ensures Told(config, SelectDevice(r, d, config, io))
  {
    hide LogOk, StoryOf, SayGoodbye, Establish;
    TeardownTold(config, r, io.now);
    var t := TeardownSession(r, io.now).(reconnect := None, desired := Some(d));
    var max := config.backoff.remaining;
    LogSnoc(max, t.log, Selected(d));
    var u := t.(log := t.log + [Selected(d)]);
    EstablishTold(config, u, d, io);
    var (v, error) := Establish(u, d, config, io);
    if error.Some? {
      LogSnoc(max, v.log, Emitted(EvError(error.value)));
      EmitOne(v, EvError(error.value));
    }
  }

  lemma RetryTold(config: Config, r: Run, io: Io)
    requires Told(config, r) && r.running && r.reconnect.Some?
    ensures Told(config, RetryConnect(r, config, io))
  {
    hide LogOk, StoryOf, Establish, Advance, After;
    var c := r.reconnect.value;
    var max := config.backoff.remaining;
    EstablishTold(config, r.(reconnect := None), c.device, io);
    NextStep(config.backoff, c);
    var (t, error) := Establish(r.(reconnect := None), c.device, config, io);
    if error.Some? {
      LogSnoc(max, t.log, Retried);
      var u := t.(log := t.log + [Retried]);
      if Advance(c.backoff).0.None? {
        var e := EvError(ReconnectExhausted(c.device, c.attempts + 1));
        LogSnoc(max, u.log, Emitted(e));
        EmitOne(u, e);
      }
    }
  }

  lemma SettleTold(config: Config, r: Run, s: Session, ok: bool, now: nat)
    requires Told(config, r.(session := Some(s))) && r.running && IsId(s.ids.next)
    ensures Told(config, Settle(r, s, ok, config, now))
  {
    hide LogOk, StoryOf, ConnectionLost;
    if !ok {
      LostTold(config, r.(session := Some(s)), now);
    }
  }

  /** A command neither changes the device nor makes a session live that was not, nor the other way. */
  lemma CommandKeepsLiveness(s: Session, c: Command, io: Io)
    requires Usable(s) && !c.Select? && !c.Shutdown?
    ensures HandleCommand(s, c, io).0.device == s.device
    ensures Live(HandleCommand(s, c, io).0.phase) == Live(s.phase)
  {
    hide Take;
  }

  lemma DispatchKeepsLiveness(s: Session, io: Io)
    requires Usable(s)
    ensures DispatchQueued(s, io).0.device == s.device
    ensures Live(DispatchQueued(s, io).0.phase) == Live(s.phase)
  {
    hide Take;
  }

  lemma CommandTold(config: Config, r: Run, c: Command, io: Io)
    requires Told(config, r) && r.running && SessionUsable(r)
    ensures Told(config, OnCommand(r, c, config, io))
  {
    hide LogOk, StoryOf, SelectDevice, TeardownSession, Settle, HandleCommand, OnSchedule;
    if c.Shutdown? {
      TeardownTold(config, r, io.now);
    } else if c.Select? {
      SelectTold(config, r, c.device, io);
    } else if r.session.Some? {
      CommandKeepsLiveness(r.session.value, c, io);
      var (s, ok) := HandleCommand(r.session.value, c, io);
      SettleTold(config, r, s, ok, io.now);
    }
  }

  /** The events of a frame may be told, and leave the log agreeing with the routed session. */
  lemma RouteTold(config: Config, r: Run, frame: Inbound)
    requires Chronicle(config, r) && r.session.Some? && Usable(r.session.value)
    ensures var (s, events, _) := RouteInbound(r.session.value, frame);
            && s.device == r.session.value.device
            && Chronicle(config, Emit(r, events).(session := Some(s)))
            && StoryOf(Emit(r, events).log).(ready := false) == StoryOf(r.log).(ready := false)
  {
    hide LogOk, StoryOf, Release;
    var (s, events, _) := RouteInbound(r.session.value, frame);
    EventsOf(r.session.value, frame);
    var max := config.backoff.remaining;
    if events == [] {
      assert Emit(r, events).log == r.log;
    } else {
      LogSnoc(max, r.log, Emitted(events[0]));
      if |events| == 2 {
        LogSnoc(max, r.log + [Emitted(events[0])], Emitted(events[1]));
        assert Emit(r, events).log == r.log + [Emitted(events[0])] + [Emitted(events[1])];
      } else {
        assert Emit(r, events).log == r.log + [Emitted(events[0])];
      }
    }
  }

  /** A frame yields at most a Ready, exactly if it makes the session live, and one status event after it. */
  lemma EventsOf(s: Session, frame: Inbound)
    requires Usable(s)
    ensures var (t, events, _) := RouteInbound(s, frame);
            && t.device == s.device
            && (Live(s.phase) ==> Live(t.phase))
            && |events| <= 2
            && (|events| > 0 && Live(t.phase) && !Live(s.phase) ==> events[0].EvReady?)
            && (|events| == 0 ==> Live(t.phase) == Live(s.phase))
            && (|events| > 0 && Live(t.phase) == Live(s.phase) ==>
                  |events| == 1 && (events[0].EvVolume? || events[0].EvMediaStatus?))
            && (|events| == 2 ==> events[1].EvVolume?)
  {
    hide Release;
  }

  lemma PongTold(config: Config, r: Run, due: nat)
    requires Told(config, r) && r.running && r.session.Some?
    ensures Told(config, Pong(r, due))
  {
    hide LogOk, StoryOf, OnSchedule;
    LogSnoc(config.backoff.remaining, r.log, Ponged);
  }

  lemma FrameTold(config: Config, r: Run, frame: Inbound, io: Io)
    requires Told(config, r) && r.running && r.session.Some? && Usable(r.session.value)
    ensures Told(config, OnFrame(r, frame, config, io))
  {
    hide LogOk, StoryOf, RouteInbound, Settle, DispatchQueued, OnSchedule, Emit;
    var (s, events, pong) := RouteInbound(r.session.value, frame);
    PongTold(config, r, io.now + config.watchdog);
    var q := if pong then Pong(r, io.now + config.watchdog) else r;
    RouteTold(config, q, frame);
    EmitFrame(q, events);
    DispatchKeepsLiveness(s, io);
    var (u, ok) := DispatchQueued(s, io);
    SettleTold(config, Emit(q, events), u, ok, io.now);
  }

  lemma EmitFrame(r: Run, events: seq<Event>)
    ensures Emit(r, events) == r.(log := Emit(r, events).log)
  {
  }

  lemma HeartbeatTold(config: Config, r: Run, io: Io)
    requires Told(config, r) && Enabled(r, HeartbeatFires, io) && SessionUsable(r)
    ensures Told(config, Branch(r, HeartbeatFires, config, io))
  {
    hide LogOk, StoryOf, Settle, OnSchedule;
    LogSnoc(config.backoff.remaining, r.log, Pinged);
    var beat := if io.first then Some(io.now + config.heartbeat) else r.heartbeat;
    SettleTold(config, r.(heartbeat := beat, log := r.log + [Pinged]),
               Write(r.session.value, TRANSPORT_ID, PING), io.first, io.now);
  }

  lemma BranchTold(config: Config, r: Run, input: Input, io: Io)
    requires Told(config, r) && Enabled(r, input, io) && SessionUsable(r)
    ensures Told(config, Branch(r, input, config, io))
  {
    hide LogOk, StoryOf, OnCommand, OnFrame, Settle, ConnectionLost, TeardownSession, RetryConnect, OnSchedule;
    match input
    case Commanded(command) =>
      if command.Some? {
        CommandTold(config, r, command.value, io);
      }
    case Framed(frame) =>
      if frame.Some? {
        FrameTold(config, r, frame.value, io);
      } else {
        LostTold(config, r, io.now);
      }
    case HeartbeatFires =>
      HeartbeatTold(config, r, io);
    case WatchdogFires => LostTold(config, r, io.now);
    case ReconnectFires => RetryTold(config, r, io);
    case ShutdownRequested => TeardownTold(config, r, io.now);
  }

  // ---------------------------------------------------------------------------
  // One iteration
  // ---------------------------------------------------------------------------

  lemma IterateOk(config: Config, r: Run, input: Input, io: Io)
    requires RunOk(config, r) && Enabled(r, input, io)
    ensures SessionUsable(r) && RunOk(config, Iterate(r, input, config, io))
  {
    hide LogOk, StoryOf, SessionOk, PastOk, Branch, Release;
    BranchHistories(r, input, config, io);
    BranchTold(config, r, input, io);
    ReapHistories(Branch(r, input, config, io), config, io.end);
  }
}
