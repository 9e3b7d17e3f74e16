/** Model of src/cast/connection/state_machine.rs and teardown.rs: one step per branch of the run loop.
    Every write, connect and thread start succeeds or fails as the step's `Io` says. */
module Connection {
  import opened Bytes
  import opened RequestIds
  import opened Retry

  const RECEIVER_ID := "receiver-0"
  const TRANSPORT_ID := "transport-0"

  datatype Device = Device(id: string, name: string, addr: nat)

  datatype Phase = Disconnected | Connecting | Connected | Launching | Ready | Streaming | Teardown

  /** What a LOAD command asks for. */
  datatype Media = Media(contentId: string, contentType: string, live: bool)

  datatype Command =
    | Select(device: Device) | LaunchDefaultReceiver | Load(media: Media) | Play | Pause | Stop
    | SetVolume(level: real, muted: bool) | GetStatus | Shutdown

  /** The messages of src/cast/namespaces.rs, with the request ID and session ID they carry. */
  datatype Body =
    | CONNECT | PING | LAUNCH(id: nat) | GET_STATUS(id: nat) | SET_VOLUME(id: nat, level: real, muted: bool)
    | LOAD(id: nat, session: string, media: Media) | PLAY(id: nat) | PAUSE(id: nat) | STOP(id: nat)
    | STOP_APP(id: nat, session: string)

  /** One entry of a session's history: a message handed to the transport, a receiver status applied, or
      the Ready event. */
  datatype Item =
    | Sent(dest: string, body: Body)
    | Status(transport: Option<string>, session: Option<string>)
    | Announced

  /** A receiver status, as parsed. */
  datatype ReceiverStatus = ReceiverStatus(
    transport: Option<string>,
    session: Option<string>,
    volume: Option<(real, bool)>)

  datatype PlayerState = Idle | Playing | Paused | Buffering | OtherState

  /** An inbound frame, as classified; `requestId` is the 64-bit number it carries, if any. */
  datatype Inbound =
    | PongFrame
    | ReceiverStatusFrame(requestId: Option<nat>, status: Option<ReceiverStatus>)
    | MediaStatusFrame(requestId: Option<nat>, player: Option<PlayerState>)
    | Unusable

  datatype ConnectionError = Tls(device: Device) | ReaderThread | ReconnectExhausted(device: Device, attempts: nat)

  datatype Event =
    | EvConnected(device: Device) | EvDisconnected(device: Device) | EvError(error: ConnectionError)
    | EvReady(transport: string, session: string) | EvMediaStatus(playing: bool, buffering: bool)
    | EvVolume(level: real, muted: bool) | EvCertificateMismatch(device: Device)

  /** The run's history: events sent to the backend, plus Select commands, failed reconnect attempts, PINGs sent
      and PONGs received. */
  datatype Entry = Selected(device: Device) | Retried | Pinged | Ponged | Emitted(event: Event)

  datatype Session = Session(
    phase: Phase,
    device: Device,
    ids: Ids,
    transportId: Option<string>,
    sessionId: Option<string>,
    queued: Option<Media>,
    trace: seq<Item>,
    accepted: seq<Media>)

  datatype Reconnect = Reconnect(wait: Duration, due: nat, device: Device, backoff: Policy, attempts: nat)

  datatype Config = Config(heartbeat: nat, watchdog: nat, requestTimeout: nat, backoff: Policy)

  /** A session that is over: what it did, which LOADs it had accepted, how much of its history came before
      the teardown, and how it used request IDs. */
  datatype Past = Past(trace: seq<Item>, accepted: seq<Media>, end: nat, uses: seq<IdEvent>)

  /** `clock` says when each entry of `log` was made. */
  datatype Run = Run(
    session: Option<Session>,
    desired: Option<Device>,
    inbound: bool,
    heartbeat: Option<nat>,
    watchdog: Option<nat>,
    reconnect: Option<Reconnect>,
    log: seq<Entry>,
    clock: seq<nat>,
    past: seq<Past>,
    running: bool)

  const START := Run(None, None, false, None, None, None, [], [], [], true)

  /** The outcome of the I/O of one step: the time at its start and at its end, connect and pin check, first
      and second write, reader start. */
  datatype Io = Io(now: nat, end: nat, connects: bool, mismatch: bool, first: bool, second: bool, readerStarts: bool)

  // ---------------------------------------------------------------------------
  // Session
  // ---------------------------------------------------------------------------

  function NewSession(d: Device): Session {
    Session(Connected, d, NO_IDS, None, None, None, [Sent(RECEIVER_ID, CONNECT)], [])
  }

  function Write(s: Session, dest: string, body: Body): Session {
    s.(trace := s.trace + [Sent(dest, body)])
  }

  ghost function NextRequest(s: Session, now: nat): (r: (nat, Session))
    requires IsId(s.ids.next)
    ensures IsId(r.1.ids.next)
  {
    var (id, ids) := Take(s.ids, now);
    (id, s.(ids := ids))
  }

  predicate IsHex(c: char) {
    '0' <= c <= '9' || 'a' <= c <= 'f' || 'A' <= c <= 'F'
  }

  predicate IsUuid(id: string) {
    |id| == 36 && forall i :: 0 <= i < 36 ==> if i in {8, 13, 18, 23} then id[i] == '-' else IsHex(id[i])
  }

  function MediaDestinationId(transportId: string): string {
    if IsUuid(transportId) then transportId else "transport-" + transportId
  }

  function MediaDestination(s: Session): string {
    match s.transportId
    case Some(id) => MediaDestinationId(id)
    case None => TRANSPORT_ID
  }

  predicate Live(p: Phase) {
    p == Ready || p == Streaming
  }

  /** What the code relies on when it unwraps the session ID. */
  predicate Usable(s: Session) {
    IsId(s.ids.next) && (Live(s.phase) ==> s.transportId.Some? && s.sessionId.Some?)
  }

  ghost function LaunchNow(s: Session, io: Io): (Session, bool)
    requires Usable(s)
  {
    var (id, t) := NextRequest(s, io.now);
    (Write(t.(phase := Launching), RECEIVER_ID, LAUNCH(id)), io.first)
  }

  /** CONNECT to the media channel, then LOAD. */
  ghost function SendLoad(s: Session, media: Media, io: Io): (Session, bool)
    requires Usable(s) && Live(s.phase)
  {
    var dest := MediaDestination(s);
    var t := Write(s, dest, CONNECT);
    if !io.first then (t, false)
    else
      var (id, u) := NextRequest(t, io.now);
      (Write(u.(phase := Streaming), dest, LOAD(id, s.sessionId.value, media)), io.second)
  }

  /** PLAY, PAUSE and STOP, sent to the media channel once there is one. */
  ghost function Transport(s: Session, c: Command, io: Io): (r: (Session, bool))
    requires Usable(s) && (c.Play? || c.Pause? || c.Stop?)
    ensures IsId(r.0.ids.next)
  {
    if !Live(s.phase) then (s, true)
    else
      var (id, t) := NextRequest(s, io.now);
      var body := if c.Play? then PLAY(id) else if c.Pause? then PAUSE(id) else STOP(id);
      (Write(t.(phase := if c.Stop? then Ready else s.phase), MediaDestination(s), body), io.first)
  }

  /** Handle one command of a live session; the flag says whether every write succeeded. */
  ghost function HandleCommand(s: Session, c: Command, io: Io): (r: (Session, bool))
    requires Usable(s) && !c.Select? && !c.Shutdown?
    ensures IsId(r.0.ids.next)
  {
    match c
    case LaunchDefaultReceiver => if s.phase != Connected then (s, true) else LaunchNow(s, io)
    case Load(media) =>
      if Live(s.phase) then SendLoad(s.(accepted := s.accepted + [media]), media, io)
      else if s.phase == Connected then
        LaunchNow(s.(queued := Some(media), accepted := s.accepted + [media]), io)
      else (s, true)
    case SetVolume(level, muted) =>
      var (id, t) := NextRequest(s, io.now);
      (Write(t, RECEIVER_ID, SET_VOLUME(id, level, muted)), io.first)
    case GetStatus =>
      var (id, t) := NextRequest(s, io.now);
      (Write(t, RECEIVER_ID, GET_STATUS(id)), io.first)
    case Play => Transport(s, c, io)
    case Pause => Transport(s, c, io)
    case Stop => Transport(s, c, io)
  }

  function OrElse<T>(a: Option<T>, b: Option<T>): Option<T> {
    if a.Some? then a else b
  }

  function ApplyReceiverStatus(s: Session, st: ReceiverStatus): (Session, seq<Event>) {
    var t := s.(transportId := OrElse(st.transport, s.transportId), sessionId := OrElse(st.session, s.sessionId),
                trace := s.trace + [Status(st.transport, st.session)]);
    var volume := if st.volume.Some? then [EvVolume(st.volume.value.0, st.volume.value.1)] else [];
    if t.phase == Launching && t.transportId.Some? && t.sessionId.Some? then
      (t.(phase := Ready, trace := t.trace + [Announced]), [EvReady(t.transportId.value, t.sessionId.value)] + volume)
    else
      (t, volume)
  }

  /** A response resolves the pending request whose ID equals the low 32 bits of the number it carries. */
  ghost function Correlate(s: Session, requestId: Option<nat>): Session {
    if requestId.Some? then s.(ids := Release(s.ids, {requestId.value % 0x1_0000_0000})) else s
  }

  /** Route one frame: the session after it, the events, and whether it was a PONG. */
  ghost function RouteInbound(s: Session, frame: Inbound): (r: (Session, seq<Event>, bool))
    requires Usable(s)
    ensures Usable(r.0)
  {
    match frame
    case PongFrame => (s, [], true)
    case ReceiverStatusFrame(requestId, status) =>
      var t := Correlate(s, requestId);
      if status.None? then (t, [], false)
      else var (u, events) := ApplyReceiverStatus(t, status.value); (u, events, false)
    case MediaStatusFrame(requestId, player) =>
      var t := Correlate(s, requestId);
      (t, if player.None? then [] else
        [EvMediaStatus(player.value == Playing || player.value == Buffering, player.value == Buffering)], false)
    case Unusable => (s, [], false)
  }

  /** Dispatch a queued LOAD as soon as the session is Ready. */
  ghost function DispatchQueued(s: Session, io: Io): (r: (Session, bool))
    requires Usable(s)
    ensures IsId(r.0.ids.next)
  {
    if s.phase == Ready && s.queued.Some? then SendLoad(s.(queued := None), s.queued.value, io) else (s, true)
  }

  /** Media STOP if streaming, then STOP_APP; both only with a session ID, both best effort. */
  ghost function SayGoodbye(s: Session, now: nat): Session
    requires IsId(s.ids.next)
  {
    if s.sessionId.None? then s
    else
      var (id, t) := NextRequest(s, now);
      if s.phase != Streaming then Write(t, RECEIVER_ID, STOP_APP(id, s.sessionId.value))
      else
        var u := Write(t, MediaDestination(s), STOP(id));
        var (id2, v) := NextRequest(u, now);
        Write(v, RECEIVER_ID, STOP_APP(id2, s.sessionId.value))
  }

  // ---------------------------------------------------------------------------
  // Run loop
  // ---------------------------------------------------------------------------

  function Emit(r: Run, events: seq<Event>): Run {
    r.(log := r.log + seq(|events|, i requires 0 <= i < |events| => Emitted(events[i])))
  }

  ghost function TeardownSession(r: Run, now: nat): Run
    requires r.session.Some? ==> IsId(r.session.value.ids.next)
  {
    if r.session.None? then r
    else
      var s := SayGoodbye(r.session.value, now);
      Emit(r.(session := None, inbound := false, heartbeat := None, watchdog := None,
              past := r.past + [Past(s.trace, s.accepted, |r.session.value.trace|, s.ids.log)]),
           [EvDisconnected(s.device)])
  }

  ghost function ConnectionLost(r: Run, config: Config, now: nat): Run
    requires r.session.Some? ==> IsId(r.session.value.ids.next)
  {
    var t := TeardownSession(r, now);
    if t.desired.None? then t
    else
      var d := t.desired.value;
      match Advance(config.backoff)
      case (Some(delay), backoff) => t.(reconnect := Some(Reconnect(delay, now + delay, d, backoff, 0)))
      case (None, _) => Emit(t, [EvError(ReconnectExhausted(d, 0))]).(desired := None)
  }

  /** Connect, send CONNECT, start the reader; the error, if any, leaves everything but history as it was. */
  function Establish(r: Run, d: Device, config: Config, io: Io): (Run, Option<ConnectionError>) {
    if !io.connects then (r, Some(Tls(d)))
    else
      var t := if io.mismatch then Emit(r, [EvCertificateMismatch(d)]) else r;
      var s := NewSession(d);
      if !io.first then (t.(past := t.past + [Past(s.trace, [], |s.trace|, [])]), Some(Tls(d)))
      else if !io.readerStarts then (t.(past := t.past + [Past(s.trace, [], |s.trace|, [])]), Some(ReaderThread))
      else
        (Emit(t.(session := Some(s), inbound := true, heartbeat := Some(io.now + config.heartbeat),
                 watchdog := Some(io.now + config.watchdog)),
              [EvConnected(d)]),
         None)
  }

  ghost function SelectDevice(r: Run, d: Device, config: Config, io: Io): Run
    requires r.session.Some? ==> IsId(r.session.value.ids.next)
  {
    var t := TeardownSession(r, io.now).(reconnect := None, desired := Some(d));
    var (u, error) := Establish(t.(log := t.log + [Selected(d)]), d, config, io);
    if error.None? then u else Emit(u, [EvError(error.value)]).(desired := None)
  }

  ghost function RetryConnect(r: Run, config: Config, io: Io): Run
    requires r.reconnect.Some?
  {
    var c := r.reconnect.value;
    var (t, error) := Establish(r.(reconnect := None), c.device, config, io);
    if error.None? then t
    else
      var u := t.(log := t.log + [Retried]);
      match Advance(c.backoff)
      case (Some(delay), backoff) =>
        u.(reconnect := Some(Reconnect(delay, io.now + delay, c.device, backoff, c.attempts + 1)))
      case (None, _) => Emit(u, [EvError(ReconnectExhausted(c.device, c.attempts + 1))]).(desired := None)
  }

  /** A session after a step, with the connection lost if a write failed. */
  ghost function Settle(r: Run, s: Session, ok: bool, config: Config, now: nat): Run
    requires IsId(s.ids.next)
  {
    var t := r.(session := Some(s));
    if ok then t else ConnectionLost(t, config, now)
  }

  datatype Input =
    | Commanded(command: Option<Command>)
    | Framed(frame: Option<Inbound>)
    | HeartbeatFires | WatchdogFires | ReconnectFires | ShutdownRequested

  predicate Elapsed(timer: Option<nat>, now: nat) {
    timer.Some? && timer.value <= now
  }

  predicate Enabled(r: Run, input: Input, io: Io) {
    r.running &&
    match input
    case Framed(_) => r.inbound
    case HeartbeatFires => Elapsed(r.heartbeat, io.now)
    case WatchdogFires => Elapsed(r.watchdog, io.now)
    case ReconnectFires => r.reconnect.Some? && r.reconnect.value.due <= io.now
    case _ => true
  }

  ghost predicate SessionUsable(r: Run) {
    r.session.Some? ==> Usable(r.session.value)
  }

  /** A PONG restarts the watchdog. */
  function Pong(r: Run, due: nat): Run {
    r.(watchdog := if r.watchdog.Some? then Some(due) else None, log := r.log + [Ponged])
  }

  ghost function OnFrame(r: Run, frame: Inbound, config: Config, io: Io): Run
    requires r.session.Some? && Usable(r.session.value)
  {
    var (s, events, pong) := RouteInbound(r.session.value, frame);
    var t := Emit(if pong then Pong(r, io.now + config.watchdog) else r, events);
    var (u, ok) := DispatchQueued(s, io);
    Settle(t, u, ok, config, io.now)
  }

  ghost function OnCommand(r: Run, c: Command, config: Config, io: Io): Run
    requires SessionUsable(r)
  {
    match c
    case Shutdown => TeardownSession(r, io.now).(running := false)
    case Select(d) => SelectDevice(r, d, config, io)
    case _ =>
      if r.session.None? then r
      else
        var (s, ok) := HandleCommand(r.session.value, c, io);
        Settle(r, s, ok, config, io.now)
  }

  ghost function Branch(r: Run, input: Input, config: Config, io: Io): Run
    requires Enabled(r, input, io) && SessionUsable(r)
  {
    match input
    case Commanded(None) => r.(running := false)
    case Commanded(Some(c)) => OnCommand(r, c, config, io)
    case Framed(Some(frame)) => if r.session.None? then r else OnFrame(r, frame, config, io)
    case Framed(None) => if r.session.Some? then ConnectionLost(r, config, io.now) else r.(inbound := false)
    case HeartbeatFires =>
      if r.session.None? then r.(heartbeat := None)
      else
        var s := Write(r.session.value, TRANSPORT_ID, PING);
        var beat := if io.first then Some(io.now + config.heartbeat) else r.heartbeat;
        Settle(r.(heartbeat := beat, log := r.log + [Pinged]), s, io.first, config, io.now)
    case WatchdogFires => if r.session.Some? then ConnectionLost(r, config, io.now) else r.(watchdog := None)
    case ReconnectFires => RetryConnect(r, config, io)
    case ShutdownRequested => TeardownSession(r, io.now).(running := false)
  }

  /** At the end of an iteration, drop the requests that waited too long. */
  ghost function Reap(r: Run, config: Config, now: nat): Run {
    if !r.running || r.session.None? then r
    else
      var ids := r.session.value.ids;
      r.(session := Some(r.session.value.(ids := Release(ids, Overdue(ids.pending, now, config.requestTimeout)))))
  }

  /** The time of what an iteration added to the log. */
  function Stamp(r: Run, now: nat): Run {
    if |r.log| < |r.clock| then r else r.(clock := r.clock + seq(|r.log| - |r.clock|, _ => now))
  }

  ghost function Iterate(r: Run, input: Input, config: Config, io: Io): Run
    requires Enabled(r, input, io) && SessionUsable(r)
  {
    Stamp(Reap(Branch(r, input, config, io), config, io.end), io.now)
  }
}
