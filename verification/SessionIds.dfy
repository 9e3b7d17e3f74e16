/** The request IDs a session puts on the wire are those it takes, and what follows for a session as a whole. */
module SessionIds {
  import opened Bytes
  import opened RequestIds
  import opened Connection
  import opened SessionTrace

  /** The request ID a message carries. Zero is never one: it stands for an exhausted allocator. */
  function IdOf(x: Item): Option<nat> {
    if !x.Sent? || x.body.CONNECT? || x.body.PING? || x.body.id == 0 then None else Some(x.body.id)
  }

  /** The request IDs sent, in order. */
  function WireIds(t: seq<Item>): seq<nat> {
    if t == [] then []
    else WireIds(Front(t)) + if IdOf(Last(t)).Some? then [IdOf(Last(t)).value] else []
  }

  /** The request IDs taken, in order. */
  function TakenIds(log: seq<IdEvent>): seq<nat> {
    if log == [] then [] else TakenIds(Front(log)) + if Last(log).Took? then [Last(log).id] else []
  }

  predicate Synced(t: seq<Item>, uses: seq<IdEvent>) {
    WireIds(t) == TakenIds(uses)
  }

  lemma WireSnoc(t: seq<Item>, x: Item)
    ensures WireIds(t + [x]) == WireIds(t) + if IdOf(x).Some? then [IdOf(x).value] else []
  {
    assert Front(t + [x]) == t;
  }

  lemma TakenSnoc(log: seq<IdEvent>, e: IdEvent)
    ensures TakenIds(log + [e]) == TakenIds(log) + if e.Took? then [e.id] else []
  {
    assert Front(log + [e]) == log;
  }

  // ---------------------------------------------------------------------------
  // Every operation keeps them in step
  // ---------------------------------------------------------------------------

  lemma SilentSynced(t: seq<Item>, uses: seq<IdEvent>, x: Item)
    requires Synced(t, uses) && IdOf(x).None?
    ensures Synced(t + [x], uses)
  {
    WireSnoc(t, x);
    assert WireIds(t) + [] == WireIds(t);
  }

  lemma ReleaseSynced(t: seq<Item>, ids: Ids, gone: set<nat>)
    requires Synced(t, ids.log)
    ensures Synced(t, Release(ids, gone).log)
  {
    TakenSnoc(ids.log, Freed(gone));
    assert TakenIds(ids.log) + [] == TakenIds(ids.log);
  }

  /** A request: its ID is taken and then sent. */
  lemma RequestSynced(t: seq<Item>, ids: Ids, now: nat, x: Item)
    requires Synced(t, ids.log) && IsId(ids.next)
    requires x.Sent? && !x.body.CONNECT? && !x.body.PING? && x.body.id == Take(ids, now).0
    ensures Synced(t + [x], Take(ids, now).1.log)
  {
    WireSnoc(t, x);
    TakeLogs(ids, now);
    hide Take;
    if x.body.id == 0 {
      assert WireIds(t) + [] == WireIds(t);
    } else {
      TakenSnoc(ids.log, Took(x.body.id));
    }
  }

  lemma TakeLogs(ids: Ids, now: nat)
    requires IsId(ids.next)
    ensures Take(ids, now).1.log == if Take(ids, now).0 == 0 then ids.log else ids.log + [Took(Take(ids, now).0)]
  {
  }

  lemma LoadSynced(s: Session, media: Media, io: Io)
    requires Usable(s) && Live(s.phase) && Synced(s.trace, s.ids.log)
    ensures var u := SendLoad(s, media, io).0; Synced(u.trace, u.ids.log)
  {
    hide Take, Synced;
    var dest := MediaDestination(s);
    var x := Sent(dest, CONNECT);
    SilentSynced(s.trace, s.ids.log, x);
    RequestSynced(s.trace + [x], s.ids, io.now, Sent(dest, LOAD(Take(s.ids, io.now).0, s.sessionId.value, media)));
  }

  lemma CommandSynced(s: Session, c: Command, io: Io)
    requires Usable(s) && !c.Select? && !c.Shutdown? && Synced(s.trace, s.ids.log)
    ensures var u := HandleCommand(s, c, io).0; Synced(u.trace, u.ids.log)
  {
    hide Take, Synced, SendLoad;
    var id := Take(s.ids, io.now).0;
    match c
    case Load(media) =>
      if Live(s.phase) {
        LoadSynced(s.(accepted := s.accepted + [media]), media, io);
      } else if s.phase == Connected {
        RequestSynced(s.trace, s.ids, io.now, Sent(RECEIVER_ID, LAUNCH(id)));
      }
    case LaunchDefaultReceiver => RequestSynced(s.trace, s.ids, io.now, Sent(RECEIVER_ID, LAUNCH(id)));
    case SetVolume(level, muted) =>
      RequestSynced(s.trace, s.ids, io.now, Sent(RECEIVER_ID, SET_VOLUME(id, level, muted)));
    case GetStatus => RequestSynced(s.trace, s.ids, io.now, Sent(RECEIVER_ID, GET_STATUS(id)));
    case Play => RequestSynced(s.trace, s.ids, io.now, Sent(MediaDestination(s), PLAY(id)));
    case Pause => RequestSynced(s.trace, s.ids, io.now, Sent(MediaDestination(s), PAUSE(id)));
    case Stop => RequestSynced(s.trace, s.ids, io.now, Sent(MediaDestination(s), STOP(id)));
  }

  lemma StatusSynced(s: Session, st: ReceiverStatus)
    requires Synced(s.trace, s.ids.log)
    ensures var u := ApplyReceiverStatus(s, st).0; Synced(u.trace, u.ids.log)
  {
    hide Synced;
    var x := Status(st.transport, st.session);
    SilentSynced(s.trace, s.ids.log, x);
    SilentSynced(s.trace + [x], s.ids.log, Announced);
  }

  lemma RouteSynced(s: Session, frame: Inbound)
    requires Usable(s) && Synced(s.trace, s.ids.log)
    ensures var u := RouteInbound(s, frame).0; Synced(u.trace, u.ids.log)
  {
    hide Synced, Release, ApplyReceiverStatus;
    if frame.ReceiverStatusFrame? || frame.MediaStatusFrame? {
      if frame.requestId.Some? {
        ReleaseSynced(s.trace, s.ids, {frame.requestId.value % 0x1_0000_0000});
      }
      if frame.ReceiverStatusFrame? && frame.status.Some? {
        StatusSynced(Correlate(s, frame.requestId), frame.status.value);
      }
    }
  }

  lemma DispatchSynced(s: Session, io: Io)
    requires Usable(s) && Synced(s.trace, s.ids.log)
    ensures var u := DispatchQueued(s, io).0; Synced(u.trace, u.ids.log)
  {
    hide Synced, SendLoad;
    if s.phase == Ready && s.queued.Some? {
      LoadSynced(s.(queued := None), s.queued.value, io);
    }
  }

  lemma GoodbyeSynced(s: Session, now: nat)
    requires IsId(s.ids.next) && Synced(s.trace, s.ids.log)
    ensures var u := SayGoodbye(s, now); Synced(u.trace, u.ids.log)
  {
    hide Synced, Take;
    if s.sessionId.Some? {
      var (id, ids) := Take(s.ids, now);
      var id2 := Take(ids, now).0;
      RequestSynced(s.trace, s.ids, now, Sent(RECEIVER_ID, STOP_APP(id, s.sessionId.value)));
      var x := Sent(MediaDestination(s), STOP(id));
      RequestSynced(s.trace, s.ids, now, x);
      RequestSynced(s.trace + [x], ids, now, Sent(RECEIVER_ID, STOP_APP(id2, s.sessionId.value)));
    }
  }

  lemma GoodbyeSound(s: Session, now: nat)
    requires IdsOk(s.ids)
    ensures IdsOk(SayGoodbye(s, now).ids)
  {
    hide Outstanding, Sound, Take;
    TakeOk(s.ids, now);
    TakeOk(Take(s.ids, now).1, now);
  }

  // ---------------------------------------------------------------------------
  // All that is kept of a session
  // ---------------------------------------------------------------------------

  ghost predicate SessionOk(s: Session) {
    Orderly(s) && Synced(s.trace, s.ids.log)
  }

  /** What still holds when a write failed in the middle of an operation. */
  ghost predicate BrokenOk(s: Session) {
    Salvageable(s) && Synced(s.trace, s.ids.log)
  }

  ghost predicate OutcomeOk(r: (Session, bool)) {
    OutcomeOrderly(r) && Synced(r.0.trace, r.0.ids.log)
  }

  /** A session that is over ended as it should, sent no LOAD that was not accepted, and used request IDs soundly. */
  ghost predicate PastOk(p: Past) {
    && Finished(p.trace) && Ending(p.trace, p.end)
    && Loads(p.trace) <= p.accepted
    && Sound(p.uses) && Synced(p.trace, p.uses)
  }

  lemma SessionIsBroken(s: Session)
    requires SessionOk(s)
    ensures BrokenOk(s)
  {
    hide Orderly, Salvageable, Synced;
    OrderlyIsSalvageable(s);
  }

  lemma OutcomeMeans(r: (Session, bool))
    ensures OutcomeOk(r) <==> (if r.1 then SessionOk(r.0) else BrokenOk(r.0))
  {
    hide Orderly, Salvageable, Synced;
  }

  lemma SessionIsUsable(s: Session)
    requires BrokenOk(s)
    ensures Usable(s) && IsId(s.ids.next) && IdsOk(s.ids)
  {
    hide Stepwise, IdsOk, Synced;
  }

  lemma CommandOk(s: Session, c: Command, io: Io)
    requires SessionOk(s) && !c.Select? && !c.Shutdown?
    ensures Usable(s) && OutcomeOk(HandleCommand(s, c, io))
  {
    hide Orderly, OutcomeOrderly, Synced, HandleCommand, BrokenOk;
    SessionIsBroken(s);
    SessionIsUsable(s);
    CommandOrderly(s, c, io);
    CommandSynced(s, c, io);
  }

  /** A frame, and the queued LOAD it may release. */
  lemma FrameOk(s: Session, frame: Inbound, io: Io)
    requires SessionOk(s)
    ensures Usable(s) && OutcomeOk(DispatchQueued(RouteInbound(s, frame).0, io))
  {
    hide Orderly, OutcomeOrderly, Synced, RouteInbound, DispatchQueued, BrokenOk;
    SessionIsBroken(s);
    SessionIsUsable(s);
    FrameOrderly(s, frame, io);
    RouteSynced(s, frame);
    DispatchSynced(RouteInbound(s, frame).0, io);
  }

  lemma PingOk(s: Session, written: bool)
    requires SessionOk(s)
    ensures OutcomeOk((Write(s, TRANSPORT_ID, PING), written))
  {
    hide IdsOk, Synced, Loads;
    var x := Sent(TRANSPORT_ID, PING);
    assert Allowed(s.trace, x);
    PlainWriteOk(s, TRANSPORT_ID, PING);
    OrderlyIsSalvageable(Write(s, TRANSPORT_ID, PING));
    SilentSynced(s.trace, s.ids.log, x);
  }

  lemma ReapOk(s: Session, gone: set<nat>)
    requires SessionOk(s)
    ensures SessionOk(s.(ids := Release(s.ids, gone)))
  {
    hide Stepwise, IdsOk, Synced, Loads;
    ReleaseKeepsBase(s, gone);
    ReleaseSynced(s.trace, s.ids, gone);
  }

  lemma NewSessionOk(d: Device)
    ensures SessionOk(NewSession(d))
  {
    NewSessionOrderly(d);
    hide Orderly;
    WireSnoc([], Sent(RECEIVER_ID, CONNECT));
    assert [] + [Sent(RECEIVER_ID, CONNECT)] == NewSession(d).trace;
  }

  lemma FailedAttemptOk(d: Device)
    ensures PastOk(Past(NewSession(d).trace, [], |NewSession(d).trace|, []))
  {
    hide Orderly, Finished, Ending;
    FailedAttemptFinished(d);
    NewSessionOk(d);
  }

  lemma GoodbyeOk(s: Session, now: nat)
    requires BrokenOk(s)
    ensures IsId(s.ids.next) && SayGoodbye(s, now).device == s.device
    ensures var t := SayGoodbye(s, now); PastOk(Past(t.trace, t.accepted, |s.trace|, t.ids.log))
  {
    SessionIsUsable(s);
    hide Synced, SayGoodbye, Finished, Ending, Loads, Base;
    GoodbyeFinishes(s, now);
    GoodbyeSynced(s, now);
    GoodbyeSound(s, now);
  }

  // ---------------------------------------------------------------------------
  // Separation of uses, on the wire
  // ---------------------------------------------------------------------------

  lemma {:induction false} TakenGrows(log: seq<IdEvent>, i: nat, j: nat)
    requires i <= j <= |log|
    ensures |TakenIds(log[..i])| <= |TakenIds(log[..j])|
  {
    if i < j {
      TakenGrows(log, i, j - 1);
      assert Front(log[..j]) == log[..j - 1];
    }
  }

  /** Where the `a`-th ID was taken. */
  lemma {:induction false} TakenAt(log: seq<IdEvent>, a: nat) returns (i: nat)
    requires a < |TakenIds(log)|
    ensures i < |log| && log[i] == Took(TakenIds(log)[a]) && |TakenIds(log[..i])| == a
  {
    var f := Front(log);
    if a < |TakenIds(f)| {
      i := TakenAt(f, a);
      assert f[..i] == log[..i];
    } else {
      i := |f|;
    }
  }

  /** Of the uses of request IDs, `i` is the `a`-th taking and `j` the `b`-th, both of `id`, and `m` frees it. */
  ghost predicate FreedBetween(uses: seq<IdEvent>, a: nat, b: nat, id: nat, i: int, m: int, j: int) {
    && 0 <= i < m < j < |uses|
    && uses[i] == Took(id) && |TakenIds(uses[..i])| == a
    && uses[j] == Took(id) && |TakenIds(uses[..j])| == b
    && uses[m].Freed? && id in uses[m].ids
  }

  /** If two messages of a session carry the same request ID, a response to it, or its expiry, lies between
      the taking of the first and of the second. */
  lemma WireUsesAreSeparated(t: seq<Item>, uses: seq<IdEvent>, a: nat, b: nat)
    requires Sound(uses) && Synced(t, uses) && a < b < |WireIds(t)| && WireIds(t)[a] == WireIds(t)[b]
    ensures IsId(WireIds(t)[a])
    ensures exists i, m, j :: FreedBetween(uses, a, b, WireIds(t)[a], i, m, j)
  {
    var id := WireIds(t)[a];
    var i := TakenAt(uses, a);
    var j := TakenAt(uses, b);
    if j <= i {
      TakenGrows(uses, j, i);
    }
    UsesAreSeparated(uses, i, j);
    var m :| i < m < j && uses[m].Freed? && id in uses[m].ids;
    assert FreedBetween(uses, a, b, id, i, m, j);
  }
}
