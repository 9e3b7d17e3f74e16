/** The connection as the program runs it: a session and a loop that update their fields in place, proved
    to do what the step functions of `Connection` say. */
module ConnectionLoop {
  import opened Bytes
  import opened RequestIds
  import opened Retry
  import opened Connection
  import opened SessionTrace
  import opened ConnectionInvariant
  import opened ConnectionTheorems

  lemma FirstFreeOnce(start: nat, pending: map<nat, nat>, j: nat, k: nat)
    requires IsId(start) && FirstFree(start, pending, j) && FirstFree(start, pending, k)
    ensures j == k
  {
  }

  /** What the allocator's answer and the insert after it amount to. */
  lemma TakeExactly(ids: Ids, now: nat, k: nat)
    requires IsId(ids.next) && FirstFree(ids.next, ids.pending, k)
    ensures var id := Cyclic(ids.next, k);
            Take(ids, now) == (id, Ids(Cyclic(ids.next, k + 1), ids.pending[id := now], ids.log + [Took(id)]))
  {
    var j: nat :| FirstFree(ids.next, ids.pending, j)
                  && Take(ids, now).0 == Cyclic(ids.next, j)
                  && Take(ids, now).1 == Ids(Cyclic(ids.next, j + 1), ids.pending[Cyclic(ids.next, j) := now],
                                             ids.log + [Took(Cyclic(ids.next, j))]);
    FirstFreeOnce(ids.next, ids.pending, j, k);
  }

  class ActiveSession {
    var phase: Phase
    const device: Device
    const requestId: RequestId
    const pending: PendingMap
    var transportId: Option<string>
    var sessionId: Option<string>
    var queued: Option<Media>
    ghost var taken: seq<IdEvent>
    ghost var trace: seq<Item>
    ghost var accepted: seq<Media>

    ghost function Repr(): set<object> {
      {this, requestId, pending}
    }

    ghost function View(): Session
      reads Repr()
    {
      var ids := Ids(requestId.next, pending.pending, taken);
      Session(phase, device, ids, transportId, sessionId, queued, trace, accepted)
    }

    constructor (d: Device, requestTimeout: nat)
      ensures View() == NewSession(d) && pending.timeout == requestTimeout
      ensures fresh(requestId) && fresh(pending)
    {
      phase, device := Connected, d;
      requestId := new RequestId();
      pending := new PendingMap(requestTimeout);
      transportId, sessionId, queued := None, None, None;
      taken, trace, accepted := [], [Sent(RECEIVER_ID, CONNECT)], [];
    }

    method Send(dest: string, body: Body)
      modifies this
      ensures View() == Write(old(View()), dest, body)
    {
      trace := trace + [Sent(dest, body)];
    }

    method Request(now: nat) returns (id: nat)
      requires IsId(requestId.next)
      modifies Repr()
      ensures (id, View()) == NextRequest(old(View()), now)
    {
      ghost var ids := View().ids;
      var candidate := requestId.Allocate(pending);
      match candidate
      case None =>
        id := 0;
        AllPending(ids);
      case Some(i) =>
        id := i;
        ghost var k: nat :| FirstFree(ids.next, ids.pending, k) && i == Cyclic(ids.next, k)
                            && requestId.next == Cyclic(ids.next, k + 1);
        TakeExactly(ids, now, k);
        var _ := pending.Insert(id, now);
        taken := taken + [Took(id)];
    }

    method Launch(io: Io) returns (ok: bool)
      requires Usable(View())
      modifies Repr()
      ensures (View(), ok) == LaunchNow(old(View()), io)
    {
      var id := Request(io.now);
      phase := Launching;
      Send(RECEIVER_ID, LAUNCH(id));
      ok := io.first;
    }

    method LoadMedia(media: Media, io: Io) returns (ok: bool)
      requires Usable(View()) && Live(phase)
      modifies Repr()
      ensures (View(), ok) == SendLoad(old(View()), media, io)
    {
      var dest := Destination();
      Send(dest, CONNECT);
      if !io.first {
        return false;
      }
      var id := Request(io.now);
      phase := Streaming;
      Send(dest, LOAD(id, sessionId.value, media));
      ok := io.second;
    }

    method Destination() returns (dest: string)
      ensures dest == MediaDestination(View())
    {
      dest := if transportId.Some? then MediaDestinationId(transportId.value) else TRANSPORT_ID;
    }

    method Handle(c: Command, io: Io) returns (ok: bool)
      requires Usable(View()) && !c.Select? && !c.Shutdown?
      modifies Repr()
      ensures (View(), ok) == HandleCommand(old(View()), c, io)
    {
      hide Take;
      match c
      case LaunchDefaultReceiver =>
        if phase != Connected {
          return true;
        }
        ok := Launch(io);
      case Load(media) =>
        if Live(phase) {
          accepted := accepted + [media];
          ok := LoadMedia(media, io);
        } else if phase == Connected {
          accepted := accepted + [media];
          queued := Some(media);
          ok := Launch(io);
        } else {
          ok := true;
        }
      case SetVolume(level, muted) =>
        var id := Request(io.now);
        Send(RECEIVER_ID, SET_VOLUME(id, level, muted));
        ok := io.first;
      case GetStatus =>
        var id := Request(io.now);
        Send(RECEIVER_ID, GET_STATUS(id));
        ok := io.first;
      case Play => ok := HandleTransport(c, io);
      case Pause => ok := HandleTransport(c, io);
      case Stop => ok := HandleTransport(c, io);
    }

    method HandleTransport(c: Command, io: Io) returns (ok: bool)
      requires Usable(View()) && (c.Play? || c.Pause? || c.Stop?)
      modifies Repr()
      ensures (View(), ok) == Transport(old(View()), c, io)
    {
      hide Take;
      if !Live(phase) {
        return true;
      }
      var id := Request(io.now);
      var dest := Destination();
      if c.Stop? {
        phase := Ready;
      }
      Send(dest, if c.Play? then PLAY(id) else if c.Pause? then PAUSE(id) else STOP(id));
      ok := io.first;
    }

    method Resolve(requestId: Option<nat>)
      modifies Repr()
      ensures View() == Correlate(old(View()), requestId)
    {
      if requestId.Some? {
        var id := requestId.value % 0x1_0000_0000;
        var _ := pending.Resolve(id);
        taken := taken + [Freed({id})];
      }
    }

    method ApplyStatus(st: ReceiverStatus) returns (events: seq<Event>)
      modifies this
      ensures View() == ApplyReceiverStatus(old(View()), st).0
      ensures events == ApplyReceiverStatus(old(View()), st).1
    {
      events := [];
      if st.transport.Some? {
        transportId := st.transport;
      }
      if st.session.Some? {
        sessionId := st.session;
      }
      trace := trace + [Status(st.transport, st.session)];
      if phase == Launching && transportId.Some? && sessionId.Some? {
        phase := Ready;
        trace := trace + [Announced];
        events := [EvReady(transportId.value, sessionId.value)];
      }
      if st.volume.Some? {
        events := events + [EvVolume(st.volume.value.0, st.volume.value.1)];
      }
    }

    method Route(frame: Inbound) returns (events: seq<Event>, pong: bool)
      requires Usable(View())
      modifies Repr()
      ensures View() == RouteInbound(old(View()), frame).0
      ensures events == RouteInbound(old(View()), frame).1 && pong == RouteInbound(old(View()), frame).2
    {
      hide Release;
      events, pong := [], false;
      match frame
      case PongFrame => pong := true;
      case ReceiverStatusFrame(requestId, status) =>
        Resolve(requestId);
        if status.Some? {
          events := ApplyStatus(status.value);
        }
      case MediaStatusFrame(requestId, player) =>
        Resolve(requestId);
        if player.Some? {
          var state := player.value;
          events := [EvMediaStatus(state == Playing || state == Buffering, state == Buffering)];
        }
      case Unusable =>
    }

    method DispatchWaiting(io: Io) returns (ok: bool)
      requires Usable(View())
      modifies Repr()
      ensures (View(), ok) == DispatchQueued(old(View()), io)
    {
      hide Take;
      if phase != Ready || queued.None? {
        return true;
      }
      var media := queued.value;
      queued := None;
      ok := LoadMedia(media, io);
    }

    method Goodbye(now: nat)
      requires IsId(requestId.next)
      modifies Repr()
      ensures View() == SayGoodbye(old(View()), now)
    {
      hide Take;
      if sessionId.None? {
        return;
      }
      if phase == Streaming {
        var id := Request(now);
        var dest := Destination();
        Send(dest, STOP(id));
      }
      var id := Request(now);
      Send(RECEIVER_ID, STOP_APP(id, sessionId.value));
    }

    /** Drop the requests that waited too long. */
    method Expire(now: nat)
      modifies Repr()
      ensures var ids := old(View()).ids;
              View() == old(View()).(ids := Release(ids, Overdue(ids.pending, now, pending.timeout)))
    {
      var expired := pending.Expire(now);
      taken := taken + [Freed(expired)];
    }
  }

  lemma AllPending(ids: Ids)
    requires IsId(ids.next) && forall i: nat :: IsId(i) ==> i in ids.pending
    ensures forall k: nat :: !FirstFree(ids.next, ids.pending, k)
  {
  }

  lemma ShapeOf(config: Config, r: Run)
    requires RunOk(config, r) && r.running
    ensures Shape(r)
  {
  }

  /** Started afresh and offered these inputs in turn, taking each that is enabled, the loop is at `r`. */
  ghost predicate Plays(config: Config, turns: seq<Turn>, r: Run) {
    if turns == [] then r == START
    else
      exists q ::
        && Plays(config, Front(turns), q) && SessionUsable(q)
        && r == if Enabled(q, Last(turns).input, Last(turns).io)
                then Iterate(q, Last(turns).input, config, Last(turns).io) else q
  }

  lemma PlaysStart(config: Config)
    ensures Plays(config, [], START)
  {
  }

  lemma PlaysNext(config: Config, turns: seq<Turn>, q: Run, next: Turn)
    requires Plays(config, turns, q) && RunOk(config, q)
    ensures SessionUsable(q)
    ensures Plays(config, turns + [next],
                  if Enabled(q, next.input, next.io) then Iterate(q, next.input, config, next.io) else q)
  {
    hide RunOk, Iterate;
    RunIsUsable(config, q);
    var ts := turns + [next];
    assert Front(ts) == turns && Last(ts) == next;
  }

  lemma RunIsUsable(config: Config, r: Run)
    requires RunOk(config, r)
    ensures SessionUsable(r)
  {
    hide Told, Histories;
    HistoriesAreUsable(r);
  }

  /** Wherever the loop gets, it gets by iterations of the model, so all that holds of every run holds there. */
  lemma {:induction false} PlaysIsARun(config: Config, turns: seq<Turn>, r: Run)
    requires Plays(config, turns, r)
    ensures exists taken :: Reaches(config, taken, r) && |taken| <= |turns|
  {
    hide Iterate;
    if turns == [] {
      assert Reaches(config, [], r);
    } else {
      var next := Last(turns);
      var q :| Plays(config, Front(turns), q) && SessionUsable(q)
               && r == if Enabled(q, next.input, next.io) then Iterate(q, next.input, config, next.io) else q;
      PlaysIsARun(config, Front(turns), q);
      var taken :| Reaches(config, taken, q) && |taken| <= |turns| - 1;
      if Enabled(q, next.input, next.io) {
        NeverStuck(config, taken, q, next);
        assert |taken + [next]| <= |turns|;
      }
    }
  }

  lemma StampFrame(r: Run, now: nat)
    ensures Stamp(r, now) == r.(clock := Stamp(r, now).clock)
  {
  }

  class RunLoop {
    const config: Config
    var session: ActiveSession?
    var desired: Option<Device>
    var inbound: bool
    var heartbeat: Option<nat>
    var watchdog: Option<nat>
    var reconnect: Option<Reconnect>
    var running: bool
    ghost var log: seq<Entry>
    ghost var clock: seq<nat>
    ghost var past: seq<Past>

    ghost function Repr(): set<object>
      reads this
    {
      {this} + if session == null then {} else session.Repr()
    }

    ghost function View(): Run
      reads this, Repr()
    {
      Run(if session == null then None else Some(session.View()), desired, inbound, heartbeat, watchdog, reconnect,
          log, clock, past, running)
    }

    /** Sessions are created with the configured request timeout, and can always take a request ID. */
    ghost predicate Valid()
      reads this, Repr()
    {
      session != null ==> session.pending.timeout == config.requestTimeout && IsId(session.requestId.next)
    }

    constructor (config: Config)
      ensures Valid() && View() == START && this.config == config && session == null
    {
      this.config := config;
      session, desired, inbound, heartbeat, watchdog, reconnect := null, None, false, None, None, None;
      running, log, clock, past := true, [], [], [];
    }

    method Teardown(now: nat)
      requires Valid()
      modifies Repr()
      ensures session == null
      ensures View() == TeardownSession(old(View()), now)
    {
      hide SayGoodbye;
      if session == null {
        return;
      }
      var s := session;
      session := null;
      ghost var end := |s.trace|;
      s.Goodbye(now);
      past := past + [Past(s.trace, s.accepted, end, s.taken)];
      inbound, heartbeat, watchdog := false, None, None;
      Announce([EvDisconnected(s.device)]);
    }

    ghost method Announce(events: seq<Event>)
      modifies this
      ensures View() == Emit(old(View()), events)
      ensures session == old(session)
    {
      log := Emit(View(), events).log;
    }

    method Lost(now: nat)
      requires Valid()
      modifies Repr()
      ensures session == null
      ensures View() == ConnectionLost(old(View()), config, now)
    {
      hide TeardownSession, Advance, Emit;
      Teardown(now);
      if desired.None? {
        return;
      }
      var d := desired.value;
      var (delay, backoff) := Advance(config.backoff);
      if delay.Some? {
        reconnect := Some(Reconnect(delay.value, now + delay.value, d, backoff, 0));
      } else {
        Abandon(ReconnectExhausted(d, 0));
      }
    }

    method Connect(d: Device, io: Io) returns (error: Option<ConnectionError>)
      requires session == null
      modifies this
      ensures Valid() && fresh(Repr() - {this})
      ensures (View(), error) == Establish(old(View()), d, config, io)
    {
      if !io.connects {
        return Some(Tls(d));
      }
      if io.mismatch {
        Announce([EvCertificateMismatch(d)]);
      }
      if !io.first {
        past := past + [Past(NewSession(d).trace, [], |NewSession(d).trace|, [])];
        return Some(Tls(d));
      }
      if !io.readerStarts {
        past := past + [Past(NewSession(d).trace, [], |NewSession(d).trace|, [])];
        return Some(ReaderThread);
      }
      Open(d, io.now);
      error := None;
    }

    method Open(d: Device, now: nat)
      requires session == null
      modifies this
      ensures Valid() && fresh(Repr() - {this})
      ensures View() == Emit(old(View()).(session := Some(NewSession(d)), inbound := true,
                                          heartbeat := Some(now + config.heartbeat),
                                          watchdog := Some(now + config.watchdog)),
                             [EvConnected(d)])
    {
      inbound := true;
      session := new ActiveSession(d, config.requestTimeout);
      heartbeat, watchdog := Some(now + config.heartbeat), Some(now + config.watchdog);
      Announce([EvConnected(d)]);
    }

    method SelectReceiver(d: Device, io: Io)
      requires Valid()
      modifies Repr()
      ensures Valid() && fresh(Repr() - {this})
      ensures View() == SelectDevice(old(View()), d, config, io)
    {
      hide TeardownSession, Establish, Emit;
      Teardown(io.now);
      Adopt(d, io);
    }

    /** The new choice replaces any reconnect; a failed first attempt is final. */
    method Adopt(d: Device, io: Io)
      requires session == null
      modifies this
      ensures Valid() && fresh(Repr() - {this})
      ensures var t := old(View()).(reconnect := None, desired := Some(d));
              var (u, error) := Establish(t.(log := t.log + [Selected(d)]), d, config, io);
              View() == if error.None? then u else Emit(u, [EvError(error.value)]).(desired := None)
    {
      hide Establish, Emit;
      reconnect, desired := None, Some(d);
      log := log + [Selected(d)];
      var error := Connect(d, io);
      if error.Some? {
        Abandon(error.value);
      }
    }

    /** Report the error and forget the device. */
    method Abandon(error: ConnectionError)
      modifies this
      ensures View() == Emit(old(View()), [EvError(error)]).(desired := None)
      ensures session == old(session)
    {
      Announce([EvError(error)]);
      desired := None;
    }

    method Retry(io: Io)
      requires session == null && reconnect.Some?
      modifies this
      ensures Valid() && fresh(Repr() - {this})
      ensures View() == RetryConnect(old(View()), config, io)
    {
      hide Establish, Advance, Emit;
      var c := reconnect.value;
      reconnect := None;
      var error := Connect(c.device, io);
      if error.None? {
        return;
      }
      log := log + [Retried];
      var (delay, backoff) := Advance(c.backoff);
      if delay.Some? {
        reconnect := Some(Reconnect(delay.value, io.now + delay.value, c.device, backoff, c.attempts + 1));
      } else {
        Abandon(ReconnectExhausted(c.device, c.attempts + 1));
      }
    }

    /** The end of a step on the session: if a write failed, the connection is lost. */
    method Conclude(ok: bool, now: nat)
      requires Valid() && session != null
      modifies Repr()
      ensures Valid() && Repr() <= old(Repr())
      ensures View() == Settle(old(View()), old(session.View()), ok, config, now)
    {
      hide ConnectionLost;
      if !ok {
        Lost(now);
      }
    }

    /** Route a frame, restart the watchdog on a PONG, and pass its events on. */
    method Accept(frame: Inbound, io: Io)
      requires Valid() && session != null && Usable(session.View())
      modifies Repr()
      ensures Valid() && session == old(session) && Usable(session.View())
      ensures var (s, events, pong) := RouteInbound(old(session.View()), frame);
              var r := if pong then Pong(old(View()), io.now + config.watchdog) else old(View());
              View() == Emit(r, events).(session := Some(s))
    {
      hide RouteInbound;
      var events, pong := session.Route(frame);
      if pong {
        log := log + [Ponged];
        if watchdog.Some? {
          watchdog := Some(io.now + config.watchdog);
        }
      }
      Announce(events);
    }

    method HandleFrame(frame: Inbound, io: Io)
      requires Valid() && session != null && Usable(session.View())
      modifies Repr()
      ensures Valid() && Repr() <= old(Repr())
      ensures View() == OnFrame(old(View()), frame, config, io)
    {
      hide RouteInbound, DispatchQueued, ConnectionLost;
      Accept(frame, io);
      var ok := session.DispatchWaiting(io);
      Conclude(ok, io.now);
    }

    method Execute(c: Command, io: Io)
      requires Valid() && (session != null ==> Usable(session.View()))
      modifies Repr()
      ensures Valid() && fresh(Repr() - old(Repr()))
      ensures View() == OnCommand(old(View()), c, config, io)
    {
      hide HandleCommand, ConnectionLost, TeardownSession, SelectDevice;
      if c.Shutdown? {
        Teardown(io.now);
        running := false;
      } else if c.Select? {
        SelectReceiver(c.device, io);
      } else if session != null {
        var ok := session.Handle(c, io);
        Conclude(ok, io.now);
      }
    }

    method Heartbeat(io: Io)
      requires Valid() && session != null
      modifies Repr()
      ensures Valid() && Repr() <= old(Repr())
      ensures var beat := if io.first then Some(io.now + config.heartbeat) else old(heartbeat);
              View() == Settle(old(View()).(heartbeat := beat, log := old(log) + [Pinged]),
                               Write(old(session.View()), TRANSPORT_ID, PING), io.first, config, io.now)
    {
      hide ConnectionLost;
      session.Send(TRANSPORT_ID, PING);
      log := log + [Pinged];
      if io.first {
        heartbeat := Some(io.now + config.heartbeat);
      }
      Conclude(io.first, io.now);
    }

    /** One branch of the select. */
    method React(input: Input, io: Io)
      requires Valid() && Enabled(View(), input, io) && SessionUsable(View()) && Shape(View())
      modifies Repr()
      ensures Valid() && fresh(Repr() - old(Repr()))
      ensures View() == Branch(old(View()), input, config, io)
    {
      hide OnCommand, OnFrame, Settle, ConnectionLost, RetryConnect, TeardownSession;
      match input
      case Commanded(None) => running := false;
      case Commanded(Some(c)) => Execute(c, io);
      case Framed(Some(frame)) => HandleFrame(frame, io);
      case Framed(None) => Lost(io.now);
      case HeartbeatFires => Heartbeat(io);
      case WatchdogFires => Lost(io.now);
      case ReconnectFires => Retry(io);
      case ShutdownRequested =>
        Teardown(io.now);
        running := false;
    }

    method Guard(input: Input, io: Io) returns (enabled: bool)
      ensures enabled <==> Enabled(View(), input, io)
    {
      enabled := running &&
        match input
        case Framed(_) => inbound
        case HeartbeatFires => Elapsed(heartbeat, io.now)
        case WatchdogFires => Elapsed(watchdog, io.now)
        case ReconnectFires => reconnect.Some? && reconnect.value.due <= io.now
        case _ => true;
    }

    /** One iteration: the branch, then the requests that waited too long. */
    method Step(input: Input, io: Io)
      requires Valid() && RunOk(config, View()) && Enabled(View(), input, io)
      modifies Repr()
      ensures Valid() && fresh(Repr() - old(Repr()))
      ensures SessionUsable(old(View())) && View() == Iterate(old(View()), input, config, io)
      ensures RunOk(config, View())
    {
      hide Branch, Told, Histories, Stamp;
      ghost var before := View();
      IterateOk(config, before, input, io);
      assert Shape(before) by {
        ShapeOf(config, before);
      }
      React(input, io);
      if running && session != null {
        session.Expire(io.end);
      }
      StampFrame(View(), io.now);
      clock := Stamp(View(), io.now).clock;
    }

    /** The loop: it takes the inputs as they come and stops when told; `n` of them were looked at. */
    method Drive(turns: seq<Turn>) returns (n: nat)
      requires Valid() && View() == START
      modifies Repr()
      ensures Valid() && n <= |turns| && (n == |turns| || !running)
      ensures Plays(config, turns[..n], View()) && RunOk(config, View())
    {
      hide Plays, RunOk, Iterate;
      n := 0;
      StartOk(config);
      PlaysStart(config);
      assert turns[..0] == [];
      while n < |turns| && running
        invariant n <= |turns|
        invariant Valid() && fresh(Repr() - old(Repr()))
        invariant Plays(config, turns[..n], View()) && RunOk(config, View())
      {
        var turn := turns[n];
        assert turns[..n + 1] == turns[..n] + [turn];
        var enabled := Guard(turn.input, turn.io);
        PlaysNext(config, turns[..n], View(), turn);
        if enabled {
          Step(turn.input, turn.io);
        }
        n := n + 1;
      }
    }
  }
}
