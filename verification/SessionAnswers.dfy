/** What a session sends and tells in answer to each command and each frame, read off its history alone. */
module SessionAnswers {
  import opened Bytes
  import opened RequestIds
  import opened Connection
  import opened SessionTrace
  import opened SessionIds

  /** The media channel, as last reported. */
  function Channel(t: seq<Item>): string {
    if TransportOf(t).Some? then MediaDestinationId(TransportOf(t).value) else ""
  }

  /** Exactly one message, to that destination. */
  predicate OneTo(tail: seq<Item>, dest: string) {
    |tail| == 1 && tail[0].Sent? && tail[0].dest == dest
  }

  /** CONNECT to the media channel and, if that was written, LOAD of this media into the session last reported. */
  predicate LoadSent(t: seq<Item>, media: Media, written: bool, tail: seq<Item>) {
    && |tail| == (if written then 2 else 1)
    && tail[0] == Sent(Channel(t), CONNECT)
    && (written ==> tail[1].Sent? && tail[1].dest == Channel(t) && tail[1].body.LOAD?
                    && tail[1].body.media == media && SessionOf(t) == Some(tail[1].body.session))
  }

  /** The messages `tail` that a command adds to the history `t`; `written` is the fate of the first. */
  predicate Answers(c: Command, t: seq<Item>, written: bool, tail: seq<Item>) {
    var p := PhaseOf(t);
    match c
    case LaunchDefaultReceiver =>
      if p == Connected then OneTo(tail, RECEIVER_ID) && tail[0].body.LAUNCH? else tail == []
    case Load(media) =>
      if p == Ready || p == Streaming then LoadSent(t, media, written, tail)
      else if p == Connected then OneTo(tail, RECEIVER_ID) && tail[0].body.LAUNCH?
      else tail == []
    case Play => if p == Ready || p == Streaming then OneTo(tail, Channel(t)) && tail[0].body.PLAY? else tail == []
    case Pause => if p == Ready || p == Streaming then OneTo(tail, Channel(t)) && tail[0].body.PAUSE? else tail == []
    case Stop => if p == Ready || p == Streaming then OneTo(tail, Channel(t)) && tail[0].body.STOP? else tail == []
    case SetVolume(level, muted) =>
      OneTo(tail, RECEIVER_ID) && tail[0].body.SET_VOLUME? && tail[0].body.level == level && tail[0].body.muted == muted
    case GetStatus => OneTo(tail, RECEIVER_ID) && tail[0].body.GET_STATUS?
    case Select(_) => true
    case Shutdown => true
  }

  /** How many messages a command wants to send. */
  function Wanted(c: Command, t: seq<Item>): nat {
    var p := PhaseOf(t);
    match c
    case LaunchDefaultReceiver => if p == Connected then 1 else 0
    case Load(_) => if p == Ready || p == Streaming then 2 else if p == Connected then 1 else 0
    case Play => if p == Ready || p == Streaming then 1 else 0
    case Pause => if p == Ready || p == Streaming then 1 else 0
    case Stop => if p == Ready || p == Streaming then 1 else 0
    case SetVolume(_, _) => 1
    case GetStatus => 1
    case Select(_) => 0
    case Shutdown => 0
  }

  /** Whether so many writes all succeed. */
  predicate Written(n: nat, io: Io) {
    (n >= 1 ==> io.first) && (n >= 2 ==> io.second)
  }

  /** The LOAD a command makes the session responsible for. */
  function Takes(c: Command, t: seq<Item>): seq<Media> {
    if c.Load? && PhaseOf(t) != Launching then [c.media] else []
  }

  function Added(before: seq<Item>, after: seq<Item>): seq<Item> {
    if |before| <= |after| then after[|before|..] else []
  }

  /** What handling a command amounts to. */
  ghost predicate Handled(s: Session, c: Command, io: Io, u: Session, ok: bool) {
    && s.trace <= u.trace
    && Answers(c, s.trace, io.first, Added(s.trace, u.trace))
    && ok == Written(Wanted(c, s.trace), io)
    && u.accepted == s.accepted + Takes(c, s.trace)
    && u.device == s.device
  }

  /** A command is answered by its own message to the right place, or ignored in the right phases; the connection
      is kept exactly if all its writes succeed; and a LOAD is accepted unless the app is being launched. */
  lemma CommandAnswered(s: Session, c: Command, io: Io)
    requires SessionOk(s) && !c.Select? && !c.Shutdown?
    ensures Usable(s) && Handled(s, c, io, HandleCommand(s, c, io).0, HandleCommand(s, c, io).1)
  {
    hide SessionOk, HandleCommand, Handled;
    if c.Load? {
      LoadAnswered(s, c.media, io);
    } else if c.Play? || c.Pause? || c.Stop? {
      TransportAnswered(s, c, io);
    } else {
      RequestAnswered(s, c, io);
    }
  }

  lemma OneAdded(t: seq<Item>, x: Item)
    ensures t <= t + [x] && Added(t, t + [x]) == [x] && Added(t, t) == []
  {
  }

  lemma RequestAnswered(s: Session, c: Command, io: Io)
    requires SessionOk(s) && (c.LaunchDefaultReceiver? || c.SetVolume? || c.GetStatus?)
    ensures Usable(s) && Handled(s, c, io, HandleCommand(s, c, io).0, HandleCommand(s, c, io).1)
  {
    hide SessionOk, Take, PhaseOf, TransportOf, SessionOf, Added;
    SessionFacts(s);
    assert s.accepted + [] == s.accepted;
    var id := NextRequest(s, io.now).0;
    OneAdded(s.trace, Sent(RECEIVER_ID, match c
                                        case SetVolume(level, muted) => SET_VOLUME(id, level, muted)
                                        case GetStatus => GET_STATUS(id)
                                        case LaunchDefaultReceiver => LAUNCH(id)));
  }

  lemma TransportAnswered(s: Session, c: Command, io: Io)
    requires SessionOk(s) && (c.Play? || c.Pause? || c.Stop?)
    ensures Usable(s) && Handled(s, c, io, HandleCommand(s, c, io).0, HandleCommand(s, c, io).1)
  {
    hide SessionOk, Take, PhaseOf, TransportOf, SessionOf, Added;
    SessionFacts(s);
    assert s.accepted + [] == s.accepted;
    var id := NextRequest(s, io.now).0;
    var body := match c case Play => PLAY(id) case Pause => PAUSE(id) case Stop => STOP(id);
    OneAdded(s.trace, Sent(MediaDestination(s), body));
  }

  lemma LoadAnswered(s: Session, media: Media, io: Io)
    requires SessionOk(s)
    ensures var c := Load(media); Usable(s) && Handled(s, c, io, HandleCommand(s, c, io).0, HandleCommand(s, c, io).1)
  {
    SessionFacts(s);
    hide SessionOk, Take, PhaseOf, TransportOf, SessionOf;
    assert s.accepted + [] == s.accepted;
  }

  /** What the history says of a session in order. */
  lemma SessionFacts(s: Session)
    requires SessionOk(s)
    ensures Usable(s) && s.phase == PhaseOf(s.trace) && s.trace != []
    ensures s.transportId == TransportOf(s.trace) && s.sessionId == SessionOf(s.trace)
    ensures s.queued.Some? ==> s.phase == Launching
    ensures s.phase == Connected || s.phase == Launching || s.phase == Ready || s.phase == Streaming
  {
    PhaseTells(s.trace);
    hide PhaseOf, TransportOf, SessionOf, Allowed, IdsOk, Synced;
  }

  // ---------------------------------------------------------------------------
  // Frames
  // ---------------------------------------------------------------------------

  /** The status completes a launch: both IDs are known with it, and the app was being launched. */
  predicate Completes(t: seq<Item>, st: ReceiverStatus) {
    && PhaseOf(t) == Launching
    && (st.transport.Some? || TransportOf(t).Some?)
    && (st.session.Some? || SessionOf(t).Some?)
  }

  function Newer(new': Option<string>, before: Option<string>): string {
    if new'.Some? then new'.value else if before.Some? then before.value else ""
  }

  /** The events of a frame: Ready with the latest IDs if it completes a launch, then the volume it reports; the
      playing and buffering state of a media status. */
  function Reports(frame: Inbound, t: seq<Item>): seq<Event> {
    match frame
    case ReceiverStatusFrame(_, Some(st)) =>
      (if Completes(t, st)
       then [EvReady(Newer(st.transport, TransportOf(t)), Newer(st.session, SessionOf(t)))] else [])
      + (match st.volume case Some((level, muted)) => [EvVolume(level, muted)] case None => [])
    case MediaStatusFrame(_, Some(player)) =>
      (match player
       case Idle => [EvMediaStatus(false, false)]
       case Playing => [EvMediaStatus(true, false)]
       case Paused => [EvMediaStatus(false, false)]
       case Buffering => [EvMediaStatus(true, true)]
       case OtherState => [EvMediaStatus(false, false)])
    case _ => []
  }

  /** The history a frame adds: the status as it came, then, if it completes a launch, the announcement and the
      LOAD that was waiting for it. */
  predicate Recorded(frame: Inbound, t: seq<Item>, waiting: Option<Media>, written: bool, tail: seq<Item>) {
    match frame
    case ReceiverStatusFrame(_, Some(st)) =>
      && tail != [] && tail[0] == Status(st.transport, st.session)
      && if !Completes(t, st) then |tail| == 1
         else
           && |tail| >= 2 && tail[1] == Announced
           && if waiting.None? then |tail| == 2
              else LoadSent(t + [tail[0], Announced], waiting.value, written, tail[2..])
    case _ => tail == []
  }

  function WantedBy(frame: Inbound, t: seq<Item>, waiting: Option<Media>): nat {
    if frame.ReceiverStatusFrame? && frame.status.Some? && Completes(t, frame.status.value) && waiting.Some? then 2
    else 0
  }

  /** The request a frame answers: the low 32 bits of the number a status carries. */
  predicate Settles(frame: Inbound, id: nat) {
    match frame
    case ReceiverStatusFrame(Some(number), _) => id == number % 0x1_0000_0000
    case MediaStatusFrame(Some(number), _) => id == number % 0x1_0000_0000
    case _ => false
  }

  lemma StatusHistory(t: seq<Item>, st: ReceiverStatus)
    ensures var x := Status(st.transport, st.session);
            && PhaseOf(t + [x]) == PhaseOf(t)
            && TransportOf(t + [x]) == OrElse(st.transport, TransportOf(t))
            && SessionOf(t + [x]) == OrElse(st.session, SessionOf(t))
            && TransportOf(t + [x, Announced]) == TransportOf(t + [x])
            && SessionOf(t + [x, Announced]) == SessionOf(t + [x])
  {
    var x := Status(st.transport, st.session);
    assert Front(t + [x]) == t && Front(t + [x, Announced]) == t + [x];
  }

  /** A frame tells, records, settles and releases exactly what its content calls for. */
  lemma FrameAnswered(s: Session, frame: Inbound, io: Io)
    requires SessionOk(s)
    ensures Usable(s)
    ensures var (r, events, pong) := RouteInbound(s, frame);
            var (u, ok) := DispatchQueued(r, io);
            && events == Reports(frame, s.trace) && (pong <==> frame == PongFrame)
            && s.trace <= u.trace
            && Recorded(frame, s.trace, s.queued, io.first, Added(s.trace, u.trace))
            && ok == Written(WantedBy(frame, s.trace, s.queued), io)
            && u.accepted == s.accepted && u.device == s.device
  {
    SessionFacts(s);
    if frame.ReceiverStatusFrame? && frame.status.Some? {
      StatusAnswered(s, frame, io);
    } else {
      OtherFrameAnswered(s, frame, io);
    }
    hide SessionOk, RouteInbound, DispatchQueued, Recorded, Reports, Added, Written, WantedBy;
  }

  lemma OtherFrameAnswered(s: Session, frame: Inbound, io: Io)
    requires SessionOk(s) && !(frame.ReceiverStatusFrame? && frame.status.Some?)
    ensures Usable(s)
    ensures var (r, events, pong) := RouteInbound(s, frame);
            && events == Reports(frame, s.trace) && (pong <==> frame == PongFrame)
            && DispatchQueued(r, io) == (r, true)
            && r.trace == s.trace && r.accepted == s.accepted && r.device == s.device
  {
    hide SessionOk, Release, PhaseOf, TransportOf, SessionOf;
    SessionFacts(s);
  }

  lemma StatusRouted(s: Session, frame: Inbound)
    requires SessionOk(s) && frame.ReceiverStatusFrame? && frame.status.Some?
    ensures Usable(s)
    ensures var (r, events, pong) := RouteInbound(s, frame);
            var st := frame.status.value;
            var x := Status(st.transport, st.session);
            && events == Reports(frame, s.trace) && !pong
            && r.trace == s.trace + (if Completes(s.trace, st) then [x, Announced] else [x])
            && r.phase == (if Completes(s.trace, st) then Ready else s.phase)
            && r.transportId == TransportOf(r.trace) && r.sessionId == SessionOf(r.trace)
            && r.queued == s.queued && r.accepted == s.accepted && r.device == s.device
  {
    hide SessionOk, Release, PhaseOf, TransportOf, SessionOf;
    SessionFacts(s);
    StatusHistory(s.trace, frame.status.value);
  }

  lemma StatusAnswered(s: Session, frame: Inbound, io: Io)
    requires SessionOk(s) && frame.ReceiverStatusFrame? && frame.status.Some?
    ensures Usable(s)
    ensures var (r, events, pong) := RouteInbound(s, frame);
            var (u, ok) := DispatchQueued(r, io);
            && events == Reports(frame, s.trace) && !pong
            && s.trace <= u.trace
            && Recorded(frame, s.trace, s.queued, io.first, Added(s.trace, u.trace))
            && ok == Written(WantedBy(frame, s.trace, s.queued), io)
            && u.accepted == s.accepted && u.device == s.device
  {
    hide SessionOk, RouteInbound, SendLoad, Reports, PhaseOf, TransportOf, SessionOf, LoadSent;
    SessionFacts(s);
    StatusRouted(s, frame);
    var r := RouteInbound(s, frame).0;
    if Completes(s.trace, frame.status.value) && s.queued.Some? {
      ReleasedLoad(r, s.queued.value, s.trace, io);
    }
  }

  lemma ReleasedLoad(r: Session, media: Media, t: seq<Item>, io: Io)
    requires Usable(r) && Live(r.phase) && t <= r.trace
    requires r.transportId == TransportOf(r.trace) && r.sessionId == SessionOf(r.trace)
    ensures var (u, ok) := SendLoad(r.(queued := None), media, io);
            && r.trace <= u.trace
            && LoadSent(r.trace, media, io.first, Added(r.trace, u.trace))
            && ok == Written(2, io)
            && u.accepted == r.accepted && u.device == r.device
            && Added(t, u.trace) == Added(t, r.trace) + Added(r.trace, u.trace)
  {
    hide Take, PhaseOf, TransportOf, SessionOf;
  }

  // ---------------------------------------------------------------------------
  // Requests
  // ---------------------------------------------------------------------------

  /** What happens to the request `id`: it stays as it was, or, if it is new or settled, was sent just now. */
  predicate Carried(before: map<nat, nat>, after: map<nat, nat>, id: nat, settled: bool, now: nat) {
    && (id in before && !settled ==> id in after && after[id] == before[id])
    && (id in after && (settled || id !in before) ==> after[id] == now)
  }

  /** A frame releases the pending request it answers, and no other. */
  lemma FramePending(s: Session, frame: Inbound, io: Io, id: nat)
    requires SessionOk(s)
    ensures Usable(s)
    ensures Carried(s.ids.pending, DispatchQueued(RouteInbound(s, frame).0, io).0.ids.pending, id,
                    Settles(frame, id), io.now)
  {
    hide SessionOk, Take, PhaseOf, TransportOf, SessionOf, RouteInbound;
    SessionFacts(s);
    var r := RouteInbound(s, frame).0;
    RoutePending(s, frame, id);
    if r.phase == Ready && r.queued.Some? {
      TakeAdds(r.ids, io.now, id);
    }
  }

  lemma RoutePending(s: Session, frame: Inbound, id: nat)
    requires Usable(s)
    ensures var r := RouteInbound(s, frame).0;
            && (id in s.ids.pending && !Settles(frame, id) ==>
                  id in r.ids.pending && r.ids.pending[id] == s.ids.pending[id])
            && (id in r.ids.pending ==> id in s.ids.pending && !Settles(frame, id))
  {
  }

  lemma TakeAdds(ids: Ids, now: nat, id: nat)
    requires IsId(ids.next)
    ensures id in ids.pending ==> id in Take(ids, now).1.pending && Take(ids, now).1.pending[id] == ids.pending[id]
    ensures id !in ids.pending && id in Take(ids, now).1.pending ==> Take(ids, now).1.pending[id] == now
  {
  }

  /** A command releases none. */
  lemma CommandPending(s: Session, c: Command, io: Io, id: nat)
    requires SessionOk(s) && !c.Select? && !c.Shutdown?
    ensures Usable(s)
    ensures Carried(s.ids.pending, HandleCommand(s, c, io).0.ids.pending, id, false, io.now)
  {
    hide SessionOk, Take, PhaseOf, TransportOf, SessionOf;
    SessionFacts(s);
    TakeAdds(s.ids, io.now, id);
  }
}
