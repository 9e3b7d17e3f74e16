/** When the loop's timers go off, measured against the history of the run. */
module ConnectionTimers {
  import opened Bytes
  import opened RequestIds
  import opened Retry
  import opened Connection
  import opened SessionTrace
  import opened SessionIds
  import opened SessionAnswers
  import opened ConnectionLog
  import opened ConnectionInvariant
  import opened ConnectionAnswers

  /** What the heartbeat is counted from. */
  predicate BeatMark(e: Entry) {
    IsConnected(e) || e.Pinged?
  }

  /** What the watchdog is counted from. */
  predicate PongMark(e: Entry) {
    IsConnected(e) || e.Ponged?
  }

  /** What the next attempt is counted from: the loss, or the failed attempt before it. */
  predicate LossMark(e: Entry) {
    IsDisconnected(e) || e.Retried?
  }

  ghost predicate HasMark(log: seq<Entry>, mark: Entry -> bool) {
    exists i :: 0 <= i < |log| && mark(log[i])
  }

  /** When the last such entry was made. */
  function LastTime(log: seq<Entry>, clock: seq<nat>, mark: Entry -> bool): Option<nat>
    requires |clock| == |log|
  {
    if log == [] then None
    else if mark(Last(log)) then Some(Last(clock))
    else LastTime(Front(log), Front(clock), mark)
  }

  /** The timer is due so long after the last such entry. */
  ghost predicate DueAfter(r: Run, due: nat, mark: Entry -> bool, delay: nat)
    requires |r.clock| == |r.log|
  {
    match LastTime(r.log, r.clock, mark)
    case Some(time) => due == time + delay
    case None => false
  }

  ghost predicate Timed(config: Config, r: Run) {
    && |r.clock| == |r.log|
    && (r.running ==>
          && (r.heartbeat.Some? ==> DueAfter(r, r.heartbeat.value, BeatMark, config.heartbeat))
          && (r.watchdog.Some? ==> DueAfter(r, r.watchdog.value, PongMark, config.watchdog))
          && (r.reconnect.Some? ==> DueAfter(r, r.reconnect.value.due, LossMark, r.reconnect.value.wait)))
  }

  // ---------------------------------------------------------------------------
  // Marks and times
  // ---------------------------------------------------------------------------

  lemma MarkOne(e: Entry, mark: Entry -> bool)
    ensures HasMark([e], mark) <==> mark(e)
    ensures !HasMark([], mark)
  {
    assert [e][0] == e;
  }

  lemma MarkConcat(a: seq<Entry>, b: seq<Entry>, mark: Entry -> bool)
    ensures HasMark(a + b, mark) <==> HasMark(a, mark) || HasMark(b, mark)
  {
    if i :| 0 <= i < |a| && mark(a[i]) {
      assert mark((a + b)[i]);
    }
    if i :| 0 <= i < |b| && mark(b[i]) {
      assert mark((a + b)[|a| + i]);
    }
  }

  lemma {:induction false} LastTimeExtends(
    log: seq<Entry>, clock: seq<nat>, tail: seq<Entry>, times: seq<nat>, now: nat, mark: Entry -> bool)
    requires |clock| == |log| && |times| == |tail| && forall i :: 0 <= i < |times| ==> times[i] == now
    ensures LastTime(log + tail, clock + times, mark) ==
            if HasMark(tail, mark) then Some(now) else LastTime(log, clock, mark)
    decreases tail
  {
    if tail == [] {
      assert log + tail == log && clock + times == clock;
    } else {
      assert Front(log + tail) == log + Front(tail) && Front(clock + times) == clock + Front(times);
      assert Last(log + tail) == Last(tail) && Last(clock + times) == now;
      LastTimeExtends(log, clock, Front(tail), Front(times), now, mark);
      MarkConcat(Front(tail), [Last(tail)], mark);
      MarkOne(Last(tail), mark);
      assert Front(tail) + [Last(tail)] == tail;
    }
  }

  /** The last time is that of the last such entry. */
  lemma {:induction false} LastTimeTells(log: seq<Entry>, clock: seq<nat>, mark: Entry -> bool)
    requires |clock| == |log|
    ensures match LastTime(log, clock, mark)
            case Some(time) => exists i :: LastSuch(log, i, |log|, mark) && clock[i] == time
            case None => forall i :: 0 <= i < |log| ==> !mark(log[i])
  {
    if log != [] {
      var f := Front(log);
      if mark(Last(log)) {
        assert LastSuch(log, |log| - 1, |log|, mark);
      } else {
        LastTimeTells(f, Front(clock), mark);
        if i :| LastSuch(f, i, |f|, mark) && LastTime(f, Front(clock), mark) == Some(clock[i]) {
          assert LastSuch(log, i, |log|, mark);
        }
      }
    }
  }

  // ---------------------------------------------------------------------------
  // Each branch resets a timer exactly if it makes such an entry
  // ---------------------------------------------------------------------------

  /** If the timer is set afterwards: set afresh with a mark, left alone without. */
  predicate Reset(before: Option<nat>, after: Option<nat>, marked: bool, fresh': nat) {
    after.Some? ==> after == if marked then Some(fresh') else before
  }

  ghost predicate TimersFollow(config: Config, r: Run, t: Run, tail: seq<Entry>, now: nat) {
    && Reset(r.heartbeat, t.heartbeat, HasMark(tail, BeatMark), now + config.heartbeat)
    && Reset(r.watchdog, t.watchdog, HasMark(tail, PongMark), now + config.watchdog)
    && (t.reconnect.Some? ==>
          if HasMark(tail, LossMark) then t.reconnect.value.due == now + t.reconnect.value.wait
          else t.reconnect == r.reconnect)
  }

  lemma NoMarks(config: Config, r: Run, t: Run, now: nat)
    requires t.heartbeat == r.heartbeat && t.watchdog == r.watchdog && t.reconnect == r.reconnect
    ensures TimersFollow(config, r, t, [], now)
  {
  }

  lemma LossTimers(config: Config, r: Run, s: Run, d: Device, now: nat)
    requires s.session.Some? && IsId(s.session.value.ids.next) && s.desired == Some(d) && s.reconnect.None?
    ensures var t := ConnectionLost(s, config, now);
            && t.heartbeat.None? && t.watchdog.None?
            && (t.reconnect.Some? ==> t.reconnect.value.due == now + t.reconnect.value.wait)
    ensures HasMark(Loss(d, config.backoff.remaining), LossMark)
    ensures !HasMark(Loss(d, config.backoff.remaining), BeatMark)
    ensures !HasMark(Loss(d, config.backoff.remaining), PongMark)
  {
    hide SayGoodbye, Emit, HasMark;
    EmitTimers(s);
    var e, x := Emitted(EvDisconnected(d)), Emitted(EvError(ReconnectExhausted(d, 0)));
    forall mark: Entry -> bool
      ensures HasMark([e] + [], mark) <==> mark(e)
      ensures HasMark([e] + [x], mark) <==> mark(e) || mark(x)
    {
      MarkConcat([e], [x], mark);
      MarkOne(e, mark);
      MarkOne(x, mark);
      assert [e] + [] == [e];
    }
  }

  lemma EmitTimers(r: Run)
    ensures forall t: Run, events :: Emit(t, events) == t.(log := Emit(t, events).log)
  {
  }

  lemma AttemptMarks(d: Device, io: Io)
    ensures HasMark(Attempt(d, io), BeatMark) <==> Up(io)
    ensures HasMark(Attempt(d, io), PongMark) <==> Up(io)
    ensures !HasMark(Attempt(d, io), LossMark)
  {
    hide HasMark;
    var x, y := Emitted(EvCertificateMismatch(d)), Emitted(EvConnected(d));
    var a := if io.connects && io.mismatch then [x] else [];
    var b := if Up(io) then [y] else [];
    forall mark: Entry -> bool
      ensures HasMark(a + b, mark) <==> (a != [] && mark(x)) || (b != [] && mark(y))
    {
      MarkConcat(a, b, mark);
      MarkOne(x, mark);
      MarkOne(y, mark);
    }
  }

  lemma EstablishTimers(r: Run, d: Device, config: Config, io: Io)
    ensures var (t, error) := Establish(r, d, config, io);
            && t.reconnect == r.reconnect
            && t.heartbeat == (if Up(io) then Some(io.now + config.heartbeat) else r.heartbeat)
            && t.watchdog == (if Up(io) then Some(io.now + config.watchdog) else r.watchdog)
            && (error.None? <==> Up(io))
  {
    hide Emit;
    EmitTimers(r);
  }

  lemma SelectTimers(config: Config, r: Run, d: Device, io: Io)
    requires r.session.Some? ==> IsId(r.session.value.ids.next)
    requires r.session.None? ==> r.heartbeat.None? && r.watchdog.None?
    ensures var t := SelectDevice(r, d, config, io);
            var tail := Goodbye(DeviceOf(r)) + [Selected(d)] + Attempt(d, io) + FirstFailure(d, io);
            TimersFollow(config, r, t, tail, io.now)
  {
    hide SayGoodbye, Emit, Establish, HasMark, Attempt;
    EmitTimers(r);
    var u := TeardownSession(r, io.now).(reconnect := None, desired := Some(d));
    if r.session.Some? {
      EmitFrame(r, [EvDisconnected(r.session.value.device)]);
    }
    var v := u.(log := u.log + [Selected(d)]);
    EstablishTimers(v, d, config, io);
    var (x, error) := Establish(v, d, config, io);
    if error.Some? {
      EmitFrame(x, [EvError(error.value)]);
    }
    AttemptMarks(d, io);
    var a, b, c := Goodbye(DeviceOf(r)) + [Selected(d)], Attempt(d, io), FirstFailure(d, io);
    MarkConcat(a + b, c, BeatMark);
    MarkConcat(a, b, BeatMark);
    MarkConcat(a + b, c, PongMark);
    MarkConcat(a, b, PongMark);
    SelectMarks(DeviceOf(r), d, io);
  }

  lemma SelectMarks(open: Option<Device>, d: Device, io: Io)
    ensures !HasMark(Goodbye(open) + [Selected(d)], BeatMark) && !HasMark(Goodbye(open) + [Selected(d)], PongMark)
    ensures !HasMark(FirstFailure(d, io), BeatMark) && !HasMark(FirstFailure(d, io), PongMark)
  {
  }

  lemma RetryTimers(config: Config, r: Run, io: Io)
    requires r.reconnect.Some? && r.heartbeat.None? && r.watchdog.None?
    requires var c := r.reconnect.value; OnSchedule(config.backoff, c)
    ensures var (c, t) := (r.reconnect.value, RetryConnect(r, config, io));
            var tail := Attempt(c.device, io) + RetryFailure(c.device, c.attempts, config.backoff.remaining, io);
            TimersFollow(config, r, t, tail, io.now)
  {
    hide Emit, Establish, HasMark, Attempt, Advance, After, RetryFailure;
    var c := r.reconnect.value;
    EmitTimers(r);
    EstablishTimers(r.(reconnect := None), c.device, config, io);
    var t := Establish(r.(reconnect := None), c.device, config, io).0;
    EmitFrame(t.(log := t.log + [Retried]), [EvError(ReconnectExhausted(c.device, c.attempts + 1))]);
    AttemptMarks(c.device, io);
    RetryMarks(c.device, c.attempts, config.backoff.remaining, io);
    var a, b := Attempt(c.device, io), RetryFailure(c.device, c.attempts, config.backoff.remaining, io);
    MarkConcat(a, b, BeatMark);
    MarkConcat(a, b, PongMark);
    MarkConcat(a, b, LossMark);
  }

  lemma RetryMarks(d: Device, n: nat, max: nat, io: Io)
    ensures var f := RetryFailure(d, n, max, io);
            !HasMark(f, BeatMark) && !HasMark(f, PongMark) && (HasMark(f, LossMark) <==> !Up(io))
  {
    if !Up(io) {
      assert RetryFailure(d, n, max, io)[0] == Retried;
    }
  }

  /** What a step on the session leaves of the timers: with a failed write, a loss. */
  lemma SettleTimers(config: Config, r: Run, q: Run, s: Session, ok: bool, front: seq<Entry>, now: nat)
    requires IsId(s.ids.next) && q.desired == Some(s.device) && q.reconnect.None?
    requires !HasMark(front, LossMark)
    requires ok ==> TimersFollow(config, r, q, front, now)
    ensures TimersFollow(config, r, Settle(q, s, ok, config, now),
                         front + LossUnless(ok, s.device, config.backoff.remaining), now)
  {
    hide HasMark, ConnectionLost, Loss;
    var loss := Loss(s.device, config.backoff.remaining);
    if ok {
      assert front + [] == front;
    } else {
      LossTimers(config, r, q.(session := Some(s)), s.device, now);
      MarkConcat(front, loss, LossMark);
    }
  }

  lemma ReportMarks(frame: Inbound, t: seq<Item>, mark: Entry -> bool)
    requires mark == BeatMark || mark == PongMark || mark == LossMark
    ensures !HasMark(Entries(Reports(frame, t)), mark)
  {
    var events := Reports(frame, t);
    assert forall i :: 0 <= i < |events| ==>
        events[i].EvReady? || events[i].EvVolume? || events[i].EvMediaStatus? by {
      hide PhaseOf, TransportOf, SessionOf;
    }
  }

  lemma CommandTimers(config: Config, r: Run, c: Command, io: Io)
    requires RunOk(config, r) && r.running && SessionUsable(r)
    ensures var t := OnCommand(r, c, config, io);
            t.running ==> TimersFollow(config, r, t, Said(config.backoff.remaining, StoryOf(r.log), TraceOf(r),
                                                          WaitingIn(r), Commanded(Some(c)), io), io.now)
  {
    hide RunOk, StoryOf, HandleCommand, Settle, SelectDevice, TeardownSession, TimersFollow, Wanted, OnSchedule;
    hide Attempt, FirstFailure, Goodbye;
    OpenIsSession(config, r);
    if c.Shutdown? {
    } else if c.Select? {
      SelectTimers(config, r, c.device, io);
    } else if r.session.Some? {
      CommandTimersLive(config, r, c, io);
    } else {
      NoMarks(config, r, r, io.now);
    }
  }

  lemma CommandTimersLive(config: Config, r: Run, c: Command, io: Io)
    requires RunOk(config, r) && r.running && SessionUsable(r) && r.session.Some? && !c.Select? && !c.Shutdown?
    ensures TimersFollow(config, r, OnCommand(r, c, config, io),
                         LossUnless(Written(Wanted(c, TraceOf(r)), io), r.session.value.device,
                                    config.backoff.remaining), io.now)
  {
    hide Told, PastOk, SessionOk, HandleCommand, Settle, TimersFollow, Wanted, OnSchedule, Answers, LossUnless, HasMark;
    SessionFacts(r.session.value);
    CurrentFacts(config, r);
    CommandAnswered(r.session.value, c, io);
    var (u, ok) := HandleCommand(r.session.value, c, io);
    NoMarks(config, r, r, io.now);
    MarkOne(Pinged, LossMark);
    SettleTimers(config, r, r, u, ok, [], io.now);
    var l := LossUnless(ok, u.device, config.backoff.remaining);
    assert [] + l == l;
  }

  lemma CurrentFacts(config: Config, r: Run)
    requires RunOk(config, r) && r.running && r.session.Some?
    ensures r.desired == Some(r.session.value.device) && r.reconnect.None?
  {
    hide Histories, Chronicle, OnSchedule, StoryOf;
  }

  lemma FrameTimers(config: Config, r: Run, frame: Inbound, io: Io)
    requires RunOk(config, r) && r.running && SessionUsable(r) && r.session.Some?
    ensures var front := (if frame == PongFrame then [Ponged] else []) + Entries(Reports(frame, TraceOf(r)));
            var ok := Written(WantedBy(frame, TraceOf(r), WaitingIn(r)), io);
            TimersFollow(config, r, OnFrame(r, frame, config, io),
                         front + LossUnless(ok, r.session.value.device, config.backoff.remaining), io.now)
  {
    hide Told, PastOk, SessionOk, RouteInbound, DispatchQueued, Settle, Recorded, Reports, WantedBy, Emit, Entries;
    hide HasMark, LossUnless, OnSchedule;
    CurrentFacts(config, r);
    FrameAnswered(r.session.value, frame, io);
    var (v, events, pong) := RouteInbound(r.session.value, frame);
    var q := if pong then Pong(r, io.now + config.watchdog) else r;
    EmitTimers(q);
    var (u, ok) := DispatchQueued(v, io);
    var a, b := if frame == PongFrame then [Ponged] else [], Entries(events);
    MarkConcat(a, b, BeatMark);
    MarkConcat(a, b, PongMark);
    MarkConcat(a, b, LossMark);
    MarkOne(Ponged, BeatMark);
    MarkOne(Ponged, PongMark);
    MarkOne(Ponged, LossMark);
    ReportMarks(frame, TraceOf(r), BeatMark);
    ReportMarks(frame, TraceOf(r), PongMark);
    ReportMarks(frame, TraceOf(r), LossMark);
    SettleTimers(config, r, Emit(q, events), u, ok, a + b, io.now);
  }

  lemma HeartbeatTimers(config: Config, r: Run, io: Io)
    requires RunOk(config, r) && Enabled(r, HeartbeatFires, io) && SessionUsable(r) && r.session.Some?
    ensures TimersFollow(config, r, Branch(r, HeartbeatFires, config, io),
                         [Pinged] + LossUnless(io.first, r.session.value.device, config.backoff.remaining), io.now)
  {
    hide Told, PastOk, SessionOk, Settle, HasMark, LossUnless, OnSchedule;
    CurrentFacts(config, r);
    MarkOne(Pinged, BeatMark);
    MarkOne(Pinged, PongMark);
    MarkOne(Pinged, LossMark);
    var s := Write(r.session.value, TRANSPORT_ID, PING);
    var beat := if io.first then Some(io.now + config.heartbeat) else r.heartbeat;
    SettleTimers(config, r, r.(heartbeat := beat, log := r.log + [Pinged]), s, io.first, [Pinged], io.now);
  }

  lemma LostTimersFollow(config: Config, r: Run, now: nat)
    requires RunOk(config, r) && r.running && SessionUsable(r) && r.session.Some?
    ensures TimersFollow(config, r, ConnectionLost(r, config, now),
                         Loss(r.session.value.device, config.backoff.remaining), now)
  {
    hide Told, Histories, ConnectionLost, HasMark, Loss;
    CurrentFacts(config, r);
    LossTimers(config, r, r, r.session.value.device, now);
  }

  lemma BranchTimers(config: Config, r: Run, input: Input, io: Io)
    requires RunOk(config, r) && Enabled(r, input, io) && SessionUsable(r) && !Quits(input)
    ensures TimersFollow(config, r, Branch(r, input, config, io),
                         Said(config.backoff.remaining, StoryOf(r.log), TraceOf(r), WaitingIn(r), input, io), io.now)
  {
    hide RunOk, StoryOf, Settle, OnCommand, OnFrame, ConnectionLost, RetryConnect, TimersFollow, OnSchedule;
    hide Attempt, RetryFailure, Reports, WantedBy, Wanted, Entries, LossUnless, Loss, FirstFailure, Goodbye;
    OpenIsSession(config, r);
    match input
    case Commanded(Some(c)) =>
      CommandedSays(config, r, Some(c), io);
      CommandTimers(config, r, c, io);
    case Framed(Some(frame)) => FrameTimers(config, r, frame, io);
    case Framed(None) => LostTimersFollow(config, r, io.now);
    case HeartbeatFires => HeartbeatTimers(config, r, io);
    case WatchdogFires => LostTimersFollow(config, r, io.now);
    case ReconnectFires => RetryTimers(config, r, io);
  }

  // ---------------------------------------------------------------------------
  // Kept by every turn
  // ---------------------------------------------------------------------------

  lemma BranchKeepsClock(config: Config, r: Run, input: Input, io: Io)
    requires RunOk(config, r) && Enabled(r, input, io)
    ensures SessionUsable(r) && Branch(r, input, config, io).clock == r.clock
  {
    hide RunOk, Branch, Said, StoryOf;
    if input.Commanded? {
      CommandedSays(config, r, input.command, io);
    } else {
      OtherSays(config, r, input, io);
    }
  }

  /** A timer that follows its marks is due so long after the last of them. */
  lemma StillDue(
    r: Run, q: Run, tail: seq<Entry>, now: nat, before: Option<nat>, due: nat, mark: Entry -> bool, delay: nat)
    requires |r.clock| == |r.log| && |q.clock| == |q.log| == |r.log| + |tail|
    requires q.log == r.log + tail && q.clock == r.clock + seq(|tail|, _ => now)
    requires Reset(before, Some(due), HasMark(tail, mark), now + delay)
    requires before.Some? ==> DueAfter(r, before.value, mark, delay)
    ensures DueAfter(q, due, mark, delay)
  {
    hide LastTime, HasMark;
    LastTimeExtends(r.log, r.clock, tail, seq(|tail|, _ => now), now, mark);
  }

  lemma TurnClock(config: Config, r: Run, input: Input, io: Io)
    requires RunOk(config, r) && |r.clock| == |r.log| && Enabled(r, input, io)
    ensures SessionUsable(r)
    ensures var tail := Said(config.backoff.remaining, StoryOf(r.log), TraceOf(r), WaitingIn(r), input, io);
            var q := Iterate(r, input, config, io);
            && q.log == r.log + tail && q.clock == r.clock + seq(|tail|, _ => io.now)
            && (q.running <==> !Quits(input))
            && q.heartbeat == Branch(r, input, config, io).heartbeat
            && q.watchdog == Branch(r, input, config, io).watchdog
            && q.reconnect == Branch(r, input, config, io).reconnect
  {
    hide RunOk, Branch, Said, StoryOf, Release;
    TurnSays(config, r, input, io);
    BranchKeepsClock(config, r, input, io);
  }

  lemma TurnTimed(config: Config, r: Run, input: Input, io: Io)
    requires RunOk(config, r) && Timed(config, r) && Enabled(r, input, io)
    ensures SessionUsable(r) && Timed(config, Iterate(r, input, config, io))
  {
    hide RunOk, Branch, Said, StoryOf, HasMark, Iterate, DueAfter;
    TurnClock(config, r, input, io);
    var q := Iterate(r, input, config, io);
    var tail := Said(config.backoff.remaining, StoryOf(r.log), TraceOf(r), WaitingIn(r), input, io);
    if q.running {
      BranchTimers(config, r, input, io);
      if q.heartbeat.Some? {
        StillDue(r, q, tail, io.now, r.heartbeat, q.heartbeat.value, BeatMark, config.heartbeat);
      }
      if q.watchdog.Some? {
        StillDue(r, q, tail, io.now, r.watchdog, q.watchdog.value, PongMark, config.watchdog);
      }
      if q.reconnect.Some? {
        var c := q.reconnect.value;
        var before := if HasMark(tail, LossMark) then None else Some(c.due);
        StillDue(r, q, tail, io.now, before, c.due, LossMark, c.wait);
      }
    }
  }
}
