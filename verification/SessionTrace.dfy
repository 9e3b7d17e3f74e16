/** The history of one session: which messages may follow which, and that every operation respects it. */
module SessionTrace {
  import opened Bytes
  import opened RequestIds
  import opened Connection

  // ---------------------------------------------------------------------------
  // Reading a session's state off its history
  // ---------------------------------------------------------------------------

  function Front<T>(t: seq<T>): seq<T>
    requires t != []
  {
    t[..|t| - 1]
  }

  function Last<T>(t: seq<T>): T
    requires t != []
  {
    t[|t| - 1]
  }

  /** LAUNCH begins launching, the Ready event ends it, LOAD begins streaming, STOP ends it. */
  function PhaseAfter(p: Phase, x: Item): Phase {
    match x
    case Announced => Ready
    case Status(_, _) => p
    case Sent(_, body) =>
      if body.LAUNCH? then Launching else if body.LOAD? then Streaming else if body.STOP? then Ready else p
  }

  function PhaseOf(t: seq<Item>): Phase {
    if t == [] then Connected else PhaseAfter(PhaseOf(Front(t)), Last(t))
  }

  /** The last transport ID the receiver reported. */
  function TransportOf(t: seq<Item>): Option<string> {
    if t == [] then None
    else if Last(t).Status? then OrElse(Last(t).transport, TransportOf(Front(t)))
    else TransportOf(Front(t))
  }

  /** The last session ID the receiver reported. */
  function SessionOf(t: seq<Item>): Option<string> {
    if t == [] then None
    else if Last(t).Status? then OrElse(Last(t).session, SessionOf(Front(t)))
    else SessionOf(Front(t))
  }

  /** The LOADs sent, in order. */
  function Loads(t: seq<Item>): seq<Media> {
    if t == [] then []
    else Loads(Front(t)) + if Last(t).Sent? && Last(t).body.LOAD? then [Last(t).body.media] else []
  }

  // ---------------------------------------------------------------------------
  // What may come next
  // ---------------------------------------------------------------------------

  predicate IsMedia(x: Item) {
    x.Sent? && (x.body.LOAD? || x.body.PLAY? || x.body.PAUSE? || x.body.STOP?)
  }

  /** The app is launched and announced, and `dest` is its media channel. */
  predicate MediaReady(t: seq<Item>, dest: string) {
    Live(PhaseOf(t)) && TransportOf(t).Some? && dest == MediaDestinationId(TransportOf(t).value)
  }

  predicate Allowed(t: seq<Item>, x: Item) {
    if t == [] then x == Sent(RECEIVER_ID, CONNECT)
    else
      match x
      case Status(_, _) => true
      case Announced => PhaseOf(t) == Launching && TransportOf(t).Some? && SessionOf(t).Some?
      case Sent(dest, body) =>
        match body
        case CONNECT => MediaReady(t, dest)
        case PING => dest == TRANSPORT_ID
        case LAUNCH(_) => PhaseOf(t) == Connected && dest == RECEIVER_ID
        case GET_STATUS(_) => dest == RECEIVER_ID
        case SET_VOLUME(_, _, _) => dest == RECEIVER_ID
        case LOAD(_, session, _) =>
          MediaReady(t, dest) && SessionOf(t) == Some(session) && Last(t) == Sent(dest, CONNECT)
        case PLAY(_) => MediaReady(t, dest)
        case PAUSE(_) => MediaReady(t, dest)
        case STOP(_) => MediaReady(t, dest)
        case STOP_APP(_, _) => false
  }

  ghost predicate Stepwise(t: seq<Item>) {
    t != [] && forall i :: 0 <= i < |t| ==> Allowed(t[..i], t[i])
  }

  /** A session's history once it is over: STOP_APP last exactly if a session ID was ever reported, and
      never while still streaming. */
  ghost predicate Finished(t: seq<Item>) {
    || (Stepwise(t) && SessionOf(t) == None)
    || (&& |t| > 1 && Stepwise(Front(t)) && PhaseOf(Front(t)) != Streaming
        && Last(t).Sent? && Last(t).dest == RECEIVER_ID && Last(t).body.STOP_APP?
        && SessionOf(Front(t)) == Some(Last(t).body.session))
  }

  lemma Snoc(t: seq<Item>, x: Item)
    requires Stepwise(t) && Allowed(t, x)
    ensures Stepwise(t + [x])
    ensures PhaseOf(t + [x]) == PhaseAfter(PhaseOf(t), x)
    ensures Loads(t + [x]) == Loads(t) + if x.Sent? && x.body.LOAD? then [x.body.media] else []
    ensures TransportOf(t + [x]) == if x.Status? then OrElse(x.transport, TransportOf(t)) else TransportOf(t)
    ensures SessionOf(t + [x]) == if x.Status? then OrElse(x.session, SessionOf(t)) else SessionOf(t)
  {
    var u := t + [x];
    hide Allowed;
    assert Front(u) == t && Last(u) == x;
    forall i | 0 <= i < |u| ensures Allowed(u[..i], u[i]) {
      assert u[..i] == if i < |t| then t[..i] else t;
    }
  }

  // ---------------------------------------------------------------------------
  // Every operation respects it
  // ---------------------------------------------------------------------------

  /** The session's fields are what its history says, and the request IDs are in order. */
  ghost predicate Base(s: Session) {
    && Stepwise(s.trace)
    && s.phase == PhaseOf(s.trace)
    && s.transportId == TransportOf(s.trace)
    && s.sessionId == SessionOf(s.trace)
    && Usable(s)
    && IdsOk(s.ids)
  }

  function Waiting(s: Session): seq<Media> {
    if s.queued.Some? then [s.queued.value] else []
  }

  /** Accepted LOADs are sent exactly once, in order, or still waiting, and one waits only while launching. */
  ghost predicate Booked(s: Session) {
    && (s.queued.Some? ==> s.phase == Launching)
    && Loads(s.trace) + Waiting(s) == s.accepted
  }

  ghost predicate Orderly(s: Session) {
    Base(s) && Booked(s)
  }

  /** What still holds when a write failed in the middle of an operation. */
  ghost predicate Salvageable(s: Session) {
    Base(s) && Loads(s.trace) <= s.accepted
  }

  /** The result of an operation: in order, or, after a failed write, fit to be torn down. */
  ghost predicate OutcomeOrderly(r: (Session, bool)) {
    (if r.1 then Orderly(r.0) else Salvageable(r.0))
  }

  lemma RequestKeepsBase(s: Session, now: nat)
    requires Base(s)
    ensures Base(NextRequest(s, now).1)
  {
    TakeOk(s.ids, now);
    hide Take, IdsOk;
  }

  lemma WriteKeepsBase(s: Session, dest: string, body: Body, phase: Phase)
    requires Base(s) && Allowed(s.trace, Sent(dest, body)) && phase == PhaseAfter(s.phase, Sent(dest, body))
    requires Live(phase) ==> s.transportId.Some? && s.sessionId.Some?
    ensures Base(Write(s.(phase := phase), dest, body))
  {
    Snoc(s.trace, Sent(dest, body));
    hide Stepwise, Allowed, PhaseOf, TransportOf, SessionOf, IdsOk;
  }

  lemma LaunchOk(s: Session, io: Io)
    requires Base(s) && s.phase == Connected
    ensures Base(LaunchNow(s, io).0) && LaunchNow(s, io).0.phase == Launching
    ensures Loads(LaunchNow(s, io).0.trace) == Loads(s.trace)
  {
    RequestKeepsBase(s, io.now);
    hide Take, IdsOk;
    var (id, t) := NextRequest(s, io.now);
    var x := Sent(RECEIVER_ID, LAUNCH(id));
    Snoc(s.trace, x);
    WriteKeepsBase(t, RECEIVER_ID, LAUNCH(id), Launching);
  }

  lemma LoadOk(s: Session, media: Media, io: Io)
    requires Base(s) && Live(s.phase) && s.queued == None && s.accepted == Loads(s.trace) + [media]
    ensures OutcomeOrderly(SendLoad(s, media, io))
  {
    var dest := MediaDestination(s);
    var t := Write(s, dest, CONNECT);
    Snoc(s.trace, Sent(dest, CONNECT));
    WriteKeepsBase(s, dest, CONNECT, s.phase);
    if io.first {
      RequestKeepsBase(t, io.now);
      LoadAfterConnect(t, dest, media, io);
    }
    hide Stepwise, IdsOk, Take, PhaseOf, TransportOf, SessionOf;
  }

  lemma LoadAfterConnect(t: Session, dest: string, media: Media, io: Io)
    requires Base(t) && Live(t.phase) && t.queued == None && t.accepted == Loads(t.trace) + [media]
    requires Last(t.trace) == Sent(dest, CONNECT) && MediaReady(t.trace, dest)
    ensures var (id, u) := NextRequest(t, io.now);
            Orderly(Write(u.(phase := Streaming), dest, LOAD(id, t.sessionId.value, media)))
  {
    RequestKeepsBase(t, io.now);
    var (id, u) := NextRequest(t, io.now);
    var body := LOAD(id, t.sessionId.value, media);
    assert u.trace == t.trace && Allowed(u.trace, Sent(dest, body));
    Snoc(u.trace, Sent(dest, body));
    WriteKeepsBase(u, dest, body, Streaming);
    hide Stepwise, IdsOk, Take, PhaseOf, TransportOf, SessionOf;
  }

  /** A message that changes neither phase nor books. */
  lemma PlainWriteOk(s: Session, dest: string, body: Body)
    requires Orderly(s) && Allowed(s.trace, Sent(dest, body))
    requires !body.LAUNCH? && !body.LOAD? && !body.STOP?
    ensures Orderly(Write(s, dest, body))
  {
    Snoc(s.trace, Sent(dest, body));
    WriteKeepsBase(s, dest, body, s.phase);
    hide Base;
  }

  lemma RequestKeepsSession(s: Session, now: nat)
    requires Orderly(s)
    ensures Orderly(NextRequest(s, now).1)
  {
    RequestKeepsBase(s, now);
    hide Base, Take;
  }

  lemma TransportOk(s: Session, c: Command, io: Io)
    requires Orderly(s) && (c.Play? || c.Pause? || c.Stop?)
    ensures Orderly(Transport(s, c, io).0)
  {
    hide Stepwise, Take, IdsOk;
    if Live(s.phase) {
      RequestKeepsSession(s, io.now);
      var (id, t) := NextRequest(s, io.now);
      PlaybackOk(t, if c.Play? then PLAY(id) else if c.Pause? then PAUSE(id) else STOP(id));
    }
  }

  lemma PlaybackOk(t: Session, body: Body)
    requires Orderly(t) && Live(t.phase) && (body.PLAY? || body.PAUSE? || body.STOP?)
    ensures Orderly(Write(t.(phase := if body.STOP? then Ready else t.phase), MediaDestination(t), body))
  {
    hide Stepwise, IdsOk;
    var x := Sent(MediaDestination(t), body);
    assert Allowed(t.trace, x);
    Snoc(t.trace, x);
    WriteKeepsBase(t, x.dest, body, if body.STOP? then Ready else t.phase);
  }

  lemma OrderlyIsSalvageable(s: Session)
    requires Orderly(s)
    ensures Salvageable(s)
  {
    hide Base;
  }

  lemma CommandOrderly(s: Session, c: Command, io: Io)
    requires Orderly(s) && !c.Select? && !c.Shutdown?
    ensures OutcomeOrderly(HandleCommand(s, c, io))
  {
    match c
    case Load(media) =>
      LoadCommandOrderly(s, media, io);
    case LaunchDefaultReceiver =>
      LaunchCommandOrderly(s, io);
    case SetVolume(level, muted) =>
      PlainRequestOk(s, SET_VOLUME(NextRequest(s, io.now).0, level, muted), io.now);
    case GetStatus =>
      PlainRequestOk(s, GET_STATUS(NextRequest(s, io.now).0), io.now);
    case Play => TransportCommandOrderly(s, c, io);
    case Pause => TransportCommandOrderly(s, c, io);
    case Stop => TransportCommandOrderly(s, c, io);
  }

  lemma TransportCommandOrderly(s: Session, c: Command, io: Io)
    requires Orderly(s) && (c.Play? || c.Pause? || c.Stop?)
    ensures OutcomeOrderly(HandleCommand(s, c, io))
  {
    TransportOk(s, c, io);
    OrderlyIsSalvageable(Transport(s, c, io).0);
  }

  lemma PlainRequestOk(s: Session, body: Body, now: nat)
    requires Orderly(s) && (body.SET_VOLUME? || body.GET_STATUS?)
    ensures Orderly(Write(NextRequest(s, now).1, RECEIVER_ID, body))
    ensures Salvageable(Write(NextRequest(s, now).1, RECEIVER_ID, body))
  {
    RequestKeepsSession(s, now);
    PlainWriteOk(NextRequest(s, now).1, RECEIVER_ID, body);
    OrderlyIsSalvageable(Write(NextRequest(s, now).1, RECEIVER_ID, body));
  }

  lemma LaunchCommandOrderly(s: Session, io: Io)
    requires Orderly(s)
    ensures OutcomeOrderly(HandleCommand(s, LaunchDefaultReceiver, io))
  {
    if s.phase == Connected {
      LaunchOk(s, io);
    }
    hide Base, Take;
  }

  lemma LoadCommandOrderly(s: Session, media: Media, io: Io)
    requires Orderly(s)
    ensures OutcomeOrderly(HandleCommand(s, Load(media), io))
  {
    var t := s.(accepted := s.accepted + [media]);
    if Live(s.phase) {
      assert Base(t) && Waiting(s) == [];
      assert Loads(s.trace) + [] == Loads(s.trace);
      LoadOk(t, media, io);
    } else if s.phase == Connected {
      var u := t.(queued := Some(media));
      assert Base(u) && Waiting(s) == [];
      assert Loads(s.trace) + [] == Loads(s.trace);
      LaunchOk(u, io);
    }
    hide Base, Take;
  }

  // ---------------------------------------------------------------------------
  // Inbound frames
  // ---------------------------------------------------------------------------

  lemma StatusKeepsBase(s: Session, st: ReceiverStatus)
    requires Base(s)
    ensures Base(ApplyReceiverStatus(s, st).0)
    ensures Loads(ApplyReceiverStatus(s, st).0.trace) == Loads(s.trace)
  {
    var x := Status(st.transport, st.session);
    Snoc(s.trace, x);
    var t := s.trace + [x];
    if s.phase == Launching && TransportOf(t).Some? && SessionOf(t).Some? {
      Snoc(t, Announced);
    }
    hide Stepwise, PhaseOf, TransportOf, SessionOf, IdsOk, Allowed;
  }

  lemma ReleaseKeepsBase(s: Session, gone: set<nat>)
    requires Base(s)
    ensures Base(s.(ids := Release(s.ids, gone)))
  {
    ReleaseOk(s.ids, gone);
    hide IdsOk, Stepwise;
  }

  lemma RouteKeepsBase(s: Session, frame: Inbound)
    requires Base(s)
    ensures Base(RouteInbound(s, frame).0)
    ensures Loads(RouteInbound(s, frame).0.trace) == Loads(s.trace)
    ensures RouteInbound(s, frame).0.queued == s.queued && RouteInbound(s, frame).0.accepted == s.accepted
    ensures var phase := RouteInbound(s, frame).0.phase; phase == s.phase || (s.phase == Launching && phase == Ready)
  {
    if frame.ReceiverStatusFrame? || frame.MediaStatusFrame? {
      if frame.requestId.Some? {
        ReleaseKeepsBase(s, {frame.requestId.value % 0x1_0000_0000});
      }
      if frame.ReceiverStatusFrame? && frame.status.Some? {
        StatusKeepsBase(Correlate(s, frame.requestId), frame.status.value);
      }
    }
    hide Base, Loads;
  }

  /** A frame, and the queued LOAD it may release. */
  lemma FrameOrderly(s: Session, frame: Inbound, io: Io)
    requires Orderly(s)
    ensures OutcomeOrderly(DispatchQueued(RouteInbound(s, frame).0, io))
  {
    RouteKeepsBase(s, frame);
    var t := RouteInbound(s, frame).0;
    if t.phase == Ready && t.queued.Some? {
      var u := t.(queued := None);
      assert Base(u);
      LoadOk(u, t.queued.value, io);
    }
    hide Base, RouteInbound, SendLoad, Loads;
  }

  // ---------------------------------------------------------------------------
  // Teardown
  // ---------------------------------------------------------------------------

  /** How a history ends whose first `end` entries came before the teardown: with nothing more if the receiver
      named no session, otherwise with a STOP to the media channel if and only if a LOAD was still running,
      then STOP_APP for that session, and nothing after it. */
  ghost predicate Ending(t: seq<Item>, end: nat) {
    && 0 < end <= |t| && Stepwise(t[..end])
    && match SessionOf(t[..end])
       case None => end == |t|
       case Some(id) =>
         && |t| == end + (if Streams(t[..end]) then 2 else 1)
         && IsStopApp(Last(t)) && Last(t).dest == RECEIVER_ID && Last(t).body.session == id
         && (Streams(t[..end]) ==>
               && IsStop(t[end]) && TransportOf(t[..end]).Some?
               && t[end].dest == MediaDestinationId(TransportOf(t[..end]).value))
  }

  lemma GoodbyeExactly(s: Session, now: nat)
    requires Base(s)
    ensures Ending(SayGoodbye(s, now).trace, |s.trace|)
  {
    hide Take, Allowed, IdsOk, PhaseOf, TransportOf, SessionOf, Streams;
    assert SayGoodbye(s, now).trace[..|s.trace|] == s.trace;
    StreamingTells(s.trace);
  }

  lemma StreamingGoodbyeFinishes(s: Session, now: nat)
    requires Base(s) && s.phase == Streaming
    ensures Finished(SayGoodbye(s, now).trace) && Loads(SayGoodbye(s, now).trace) == Loads(s.trace)
  {
    hide Take, Stepwise, IdsOk, PhaseOf, TransportOf, SessionOf, Loads, Finished;
    var (id, t) := NextRequest(s, now);
    var x := Sent(MediaDestination(s), STOP(id));
    assert Allowed(s.trace, x) by {
      StopAllowed(s, id);
    }
    Snoc(s.trace, x);
    var (id2, v) := NextRequest(Write(t, MediaDestination(s), STOP(id)), now);
    EndsFinished(s.trace + [x], STOP_APP(id2, s.sessionId.value));
  }

  lemma StopAllowed(s: Session, id: nat)
    requires Base(s) && s.phase == Streaming
    ensures Allowed(s.trace, Sent(MediaDestination(s), STOP(id)))
  {
    hide PhaseOf, TransportOf, SessionOf, IdsOk;
  }

  lemma OtherGoodbyeFinishes(s: Session, now: nat)
    requires Base(s) && s.phase != Streaming
    ensures Finished(SayGoodbye(s, now).trace) && Loads(SayGoodbye(s, now).trace) == Loads(s.trace)
  {
    hide Take, Stepwise, IdsOk, PhaseOf, TransportOf, SessionOf, Loads;
    if s.sessionId.Some? {
      EndsFinished(s.trace, STOP_APP(NextRequest(s, now).0, s.sessionId.value));
    }
  }

  /** The history of a torn-down session is a finished one, and it sent no LOAD that was not accepted. */
  lemma GoodbyeFinishes(s: Session, now: nat)
    requires Salvageable(s)
    ensures Finished(SayGoodbye(s, now).trace)
    ensures Loads(SayGoodbye(s, now).trace) <= s.accepted && SayGoodbye(s, now).accepted == s.accepted
    ensures SayGoodbye(s, now).device == s.device && Ending(SayGoodbye(s, now).trace, |s.trace|)
  {
    hide Take, Stepwise, IdsOk, PhaseOf, TransportOf, SessionOf, Loads, Ending, Finished;
    GoodbyeExactly(s, now);
    if s.phase == Streaming {
      StreamingGoodbyeFinishes(s, now);
    } else {
      OtherGoodbyeFinishes(s, now);
    }
  }

  lemma EndsFinished(t: seq<Item>, body: Body)
    requires Stepwise(t) && PhaseOf(t) != Streaming && body.STOP_APP? && SessionOf(t) == Some(body.session)
    ensures Finished(t + [Sent(RECEIVER_ID, body)])
    ensures Loads(t + [Sent(RECEIVER_ID, body)]) == Loads(t)
  {
    assert Front(t + [Sent(RECEIVER_ID, body)]) == t;
  }

  lemma NewSessionOrderly(d: Device)
    ensures Orderly(NewSession(d))
  {
    var t := [Sent(RECEIVER_ID, CONNECT)];
    assert Front(t) == [] && t[..0] == [];
    assert Outstanding([]) == {};
  }

  lemma FailedAttemptFinished(d: Device)
    ensures Finished(NewSession(d).trace) && Loads(NewSession(d).trace) == []
    ensures Ending(NewSession(d).trace, |NewSession(d).trace|)
  {
    NewSessionOrderly(d);
    var t := NewSession(d).trace;
    assert Front(t) == [] && t[..|t|] == t;
  }

  // ---------------------------------------------------------------------------
  // What every history obeys, said without the state machine
  // ---------------------------------------------------------------------------

  predicate IsLaunch(x: Item) {
    x.Sent? && x.body.LAUNCH?
  }

  predicate IsLoad(x: Item) {
    x.Sent? && x.body.LOAD?
  }

  predicate IsStop(x: Item) {
    x.Sent? && x.body.STOP?
  }

  predicate IsStopApp(x: Item) {
    x.Sent? && x.body.STOP_APP?
  }

  lemma StepwiseFront(t: seq<Item>)
    requires Stepwise(t) && |t| > 1
    ensures Stepwise(Front(t)) && Allowed(Front(t), Last(t))
  {
    hide Allowed;
    forall i | 0 <= i < |t| - 1 ensures Allowed(Front(t)[..i], Front(t)[i]) {
      assert Front(t)[..i] == t[..i];
    }
  }

  /** Before the launch there was none, and no announcement; before the announcement, no announcement. */
  lemma {:induction false} PhaseTells(t: seq<Item>)
    requires Stepwise(t)
    ensures PhaseOf(t) in {Connected, Launching, Ready, Streaming}
    ensures PhaseOf(t) == Connected ==> forall i :: 0 <= i < |t| ==> !IsLaunch(t[i])
    ensures PhaseOf(t) in {Connected, Launching} ==> forall i :: 0 <= i < |t| ==> !t[i].Announced? && !IsLoad(t[i])
    ensures Live(PhaseOf(t)) ==> exists i :: 0 <= i < |t| && t[i].Announced?
  {
    if |t| == 1 {
      assert t[..0] == [];
      assert Allowed(t[..0], t[0]);
      assert Front(t) == [];
    } else {
      StepwiseFront(t);
      PhaseTells(Front(t));
    }
  }

  /** Some LOAD has no STOP after it. */
  ghost predicate Streams(t: seq<Item>) {
    exists i :: 0 <= i < |t| && IsLoad(t[i]) && forall j :: i < j < |t| ==> !IsStop(t[j])
  }

  lemma {:induction false} StreamingTells(t: seq<Item>)
    requires Stepwise(t)
    ensures PhaseOf(t) == Streaming <==> Streams(t)
  {
    if |t| == 1 {
      assert t[..0] == [];
      assert Allowed(t[..0], t[0]);
      assert Front(t) == [];
    } else {
      StepwiseFront(t);
      StreamingTells(Front(t));
      PhaseTells(Front(t));
      StreamingStep(t);
    }
  }

  lemma StreamingStep(t: seq<Item>)
    requires |t| > 1
    ensures Streams(t) <==> IsLoad(Last(t)) || (Streams(Front(t)) && !IsStop(Last(t)))
  {
    var f := Front(t);
    if Streams(f) && !IsStop(Last(t)) {
      var i :| 0 <= i < |f| && IsLoad(f[i]) && forall j :: i < j < |f| ==> !IsStop(f[j]);
      assert IsLoad(t[i]);
    }
    if Streams(t) && !IsLoad(Last(t)) {
      var i :| 0 <= i < |t| && IsLoad(t[i]) && forall j :: i < j < |t| ==> !IsStop(t[j]);
      assert IsLoad(f[i]) && forall j :: i < j < |f| ==> f[j] == t[j];
    }
    if IsLoad(Last(t)) {
      assert IsLoad(t[|t| - 1]);
    }
  }

  /** The law for one entry of a history: LAUNCH and the Ready event come once; a media message comes after
      Ready and goes to the media channel; a LOAD directly follows a CONNECT to the same place and names the
      session last reported; STOP_APP is last. */
  ghost predicate LegalAt(t: seq<Item>, i: nat)
    requires i < |t|
  {
    && (IsLaunch(t[i]) ==> forall k :: 0 <= k < i ==> !IsLaunch(t[k]))
    && (t[i].Announced? ==> forall k :: 0 <= k < i ==> !t[k].Announced?)
    && (IsMedia(t[i]) ==>
          && (exists k :: 0 <= k < i && t[k].Announced?)
          && TransportOf(t[..i]).Some? && t[i].dest == MediaDestinationId(TransportOf(t[..i]).value))
    && (IsLoad(t[i]) ==>
          i > 0 && t[i - 1] == Sent(t[i].dest, CONNECT) && SessionOf(t[..i]) == Some(t[i].body.session))
    && (IsStopApp(t[i]) ==> i == |t| - 1)
  }

  /** Wire legality, for every session, live or over. */
  ghost predicate WireLegal(t: seq<Item>) {
    t != [] && t[0] == Sent(RECEIVER_ID, CONNECT) && forall i: nat :: i < |t| ==> LegalAt(t, i)
  }

  lemma AllowedIsLegal(t: seq<Item>, i: nat)
    requires Stepwise(t) && i < |t|
    ensures LegalAt(t, i) && !IsStopApp(t[i])
  {
    var p := t[..i];
    assert Allowed(p, t[i]);
    if i > 0 {
      PrefixStepwise(t, i);
      PhaseTells(p);
    }
  }

  lemma PrefixStepwise(t: seq<Item>, n: nat)
    requires Stepwise(t) && 0 < n <= |t|
    ensures Stepwise(t[..n])
  {
    hide Allowed;
    forall i | 0 <= i < n ensures Allowed(t[..n][..i], t[..n][i]) {
      assert t[..n][..i] == t[..i];
    }
  }

  lemma StepwiseIsLegal(t: seq<Item>)
    requires Stepwise(t)
    ensures WireLegal(t)
  {
    hide LegalAt;
    assert Allowed(t[..0], t[0]) && t[..0] == [];
    forall i: nat | i < |t| ensures LegalAt(t, i) {
      AllowedIsLegal(t, i);
    }
  }

  /** If the receiver ever named a session, the history ends in STOP_APP for it and every LOAD has been
      followed by a STOP; otherwise there is no STOP_APP. */
  ghost predicate Closed(t: seq<Item>) {
    match SessionOf(t)
    case Some(id) =>
      && t != [] && IsStopApp(Last(t)) && Last(t).dest == RECEIVER_ID && Last(t).body.session == id
      && !Streams(t)
    case None => forall i :: 0 <= i < |t| ==> !IsStopApp(t[i])
  }

  /** The history of a session that is over is legal and closed. */
  lemma FinishedIsLegal(t: seq<Item>)
    requires Finished(t)
    ensures WireLegal(t) && Closed(t)
  {
    hide Stepwise, PhaseOf, WireLegal, Streams, TransportOf;
    if Stepwise(t) && SessionOf(t).None? {
      StepwiseIsLegal(t);
      NoStopApp(t);
    } else {
      EndIsLegal(t);
      DoneStreaming(t);
    }
  }

  lemma NoStopApp(t: seq<Item>)
    requires Stepwise(t)
    ensures forall i :: 0 <= i < |t| ==> !IsStopApp(t[i])
  {
    hide Stepwise, IsStopApp;
    forall i | 0 <= i < |t| ensures !IsStopApp(t[i]) {
      AllowedIsLegal(t, i);
    }
  }

  lemma DoneStreaming(t: seq<Item>)
    requires |t| > 1 && Stepwise(Front(t)) && PhaseOf(Front(t)) != Streaming && IsStopApp(Last(t))
    ensures !Streams(t)
  {
    hide Stepwise, PhaseOf;
    StreamingTells(Front(t));
    StreamingStep(t);
  }

  lemma EndIsLegal(t: seq<Item>)
    requires |t| > 1 && Stepwise(Front(t)) && IsStopApp(Last(t))
    ensures WireLegal(t)
  {
    hide Stepwise, LegalAt;
    StepwiseIsLegal(Front(t));
    forall i: nat | i < |t| ensures LegalAt(t, i) {
      if i < |t| - 1 {
        LegalBeforeEnd(t, i);
      } else {
        EndLegalAt(t);
      }
    }
  }

  lemma EndLegalAt(t: seq<Item>)
    requires t != [] && IsStopApp(Last(t))
    ensures LegalAt(t, |t| - 1)
  {
  }

  lemma LegalBeforeEnd(t: seq<Item>, i: nat)
    requires i < |t| - 1 && Stepwise(Front(t))
    ensures LegalAt(t, i)
  {
    hide Stepwise, TransportOf, SessionOf, IsLoad, IsLaunch, MediaDestinationId;
    var f := Front(t);
    AllowedIsLegal(f, i);
    assert t[..i] == f[..i];
    if IsMedia(t[i]) {
      var k :| 0 <= k < i && f[k].Announced?;
      assert t[k].Announced?;
    }
  }

  /** The media channel is the heartbeat's fallback address only for a receiver that calls itself "0". */
  lemma FallbackExactly(transportId: string)
    ensures MediaDestinationId(transportId) == TRANSPORT_ID <==> transportId == "0"
  {
    assert "transport-0" == "transport-" + "0";
    if !IsUuid(transportId) && MediaDestinationId(transportId) == TRANSPORT_ID {
      assert ("transport-" + transportId)[10..] == "transport-0"[10..];
    }
  }

  /** The transport in use is the one the receiver reported last, and likewise the session. */
  lemma {:induction false} LastReported(t: seq<Item>)
    ensures match TransportOf(t)
            case Some(id) => exists i :: 0 <= i < |t| && t[i].Status? && t[i].transport == Some(id)
                                   && forall j :: i < j < |t| && t[j].Status? ==> t[j].transport.None?
            case None => forall j :: 0 <= j < |t| && t[j].Status? ==> t[j].transport.None?
    ensures match SessionOf(t)
            case Some(id) => exists i :: 0 <= i < |t| && t[i].Status? && t[i].session == Some(id)
                                   && forall j :: i < j < |t| && t[j].Status? ==> t[j].session.None?
            case None => forall j :: 0 <= j < |t| && t[j].Status? ==> t[j].session.None?
  {
    if t != [] {
      LastReported(Front(t));
    }
  }

  /** A transport ID is its own media channel exactly if it has the form of a UUID, and different IDs have
      different channels. */
  lemma ChannelsDiffer(a: string, b: string)
    ensures MediaDestinationId(a) == a <==> IsUuid(a)
    ensures MediaDestinationId(a) == MediaDestinationId(b) ==> a == b
  {
    if !IsUuid(a) && !IsUuid(b) && MediaDestinationId(a) == MediaDestinationId(b) {
      assert ("transport-" + a)[10..] == a && ("transport-" + b)[10..] == b;
    }
    if IsUuid(a) && !IsUuid(b) {
      PrefixIsNoUuid(a, b);
    }
    if IsUuid(b) && !IsUuid(a) {
      PrefixIsNoUuid(b, a);
    }
    assert |"transport-" + a| == 10 + |a|;
  }

  lemma PrefixIsNoUuid(a: string, b: string)
    requires IsUuid(a)
    ensures a != "transport-" + b
  {
    assert IsHex(a[0]);
    assert ("transport-" + b)[0] == 't';
  }

  predicate AllHex(s: string) {
    forall i :: 0 <= i < |s| ==> IsHex(s[i])
  }

  /** Five groups of hexadecimal digits, of 8, 4, 4, 4 and 12, with dashes between. */
  function Dashed(a: string, b: string, c: string, d: string, e: string): string {
    a + "-" + b + "-" + c + "-" + d + "-" + e
  }

  ghost predicate FiveGroups(id: string, a: string, b: string, c: string, d: string, e: string) {
    && |a| == 8 && |b| == 4 && |c| == 4 && |d| == 4 && |e| == 12
    && AllHex(a) && AllHex(b) && AllHex(c) && AllHex(d) && AllHex(e)
    && id == Dashed(a, b, c, d, e)
  }

  lemma UuidForm(id: string)
    ensures IsUuid(id) <==> exists a, b, c, d, e :: FiveGroups(id, a, b, c, d, e)
  {
    if IsUuid(id) {
      var a, b, c, d, e := id[..8], id[9..13], id[14..18], id[19..23], id[24..];
      assert id[8] == '-' && id[13] == '-' && id[18] == '-' && id[23] == '-';
      assert id == Dashed(a, b, c, d, e);
      assert FiveGroups(id, a, b, c, d, e);
    }
    if a, b, c, d, e :| FiveGroups(id, a, b, c, d, e) {
      GroupsAreUuid(a, b, c, d, e);
    }
  }

  lemma GroupsAreUuid(a: string, b: string, c: string, d: string, e: string)
    requires FiveGroups(Dashed(a, b, c, d, e), a, b, c, d, e)
    ensures IsUuid(Dashed(a, b, c, d, e))
  {
    var id := Dashed(a, b, c, d, e);
    assert id[..8] == a && id[9..13] == b && id[14..18] == c && id[19..23] == d && id[24..] == e;
    forall i | 0 <= i < 36 ensures if i in {8, 13, 18, 23} then id[i] == '-' else IsHex(id[i]) {
      if i < 8 {
        assert id[i] == a[i];
      } else if 8 < i < 13 {
        assert id[i] == b[i - 9];
      } else if 13 < i < 18 {
        assert id[i] == c[i - 14];
      } else if 18 < i < 23 {
        assert id[i] == d[i - 19];
      } else if 23 < i {
        assert id[i] == e[i - 24];
      }
    }
  }
}
