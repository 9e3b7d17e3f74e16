/** What holds of the connection over every run, whatever the commands, frames, timers and I/O outcomes. */
module ConnectionTheorems {
  import opened Bytes
  import opened RequestIds
  import opened Retry
  import opened Connection
  import opened SessionTrace
  import opened SessionIds
  import opened SessionAnswers
  import opened ConnectionLog
  import opened ConnectionInvariant
  import opened ConnectionAnswers
  import opened ConnectionTimers

  datatype Turn = Turn(input: Input, io: Io)

  /** The loop, started afresh, is at `r` after these iterations. */
  ghost predicate Reaches(config: Config, turns: seq<Turn>, r: Run) {
    if turns == [] then r == START
    else
      exists q ::
        && Reaches(config, Front(turns), q)
        && SessionUsable(q) && Enabled(q, Last(turns).input, Last(turns).io)
        && r == Iterate(q, Last(turns).input, config, Last(turns).io)
  }

  lemma {:induction false} EveryRunOk(config: Config, turns: seq<Turn>, r: Run)
    requires Reaches(config, turns, r)
    ensures RunOk(config, r)
  {
    hide RunOk, Iterate;
    if turns == [] {
      StartOk(config);
    } else {
      var turn := Last(turns);
      var q :| Reaches(config, Front(turns), q) && SessionUsable(q) && Enabled(q, turn.input, turn.io)
               && r == Iterate(q, turn.input, config, turn.io);
      EveryRunOk(config, Front(turns), q);
      IterateOk(config, q, turn.input, turn.io);
    }
  }

  /** No run gets stuck on an unwrap: whatever is enabled next is an iteration of the model. */
  lemma NeverStuck(config: Config, turns: seq<Turn>, r: Run, next: Turn)
    requires Reaches(config, turns, r) && Enabled(r, next.input, next.io)
    ensures SessionUsable(r)
    ensures Reaches(config, turns + [next], Iterate(r, next.input, config, next.io))
  {
    hide RunOk, Iterate;
    EveryRunOk(config, turns, r);
    IterateOk(config, r, next.input, next.io);
    var ts := turns + [next];
    assert Front(ts) == turns && Last(ts) == next;
  }

  /** While the loop runs, its fields fit together, and a scheduled reconnect keeps the policy's count and
      waits the initial delay the first time and the doubled, capped one ever after. */
  lemma StateFitsTogether(config: Config, turns: seq<Turn>, r: Run)
    requires Reaches(config, turns, r) && r.running
    ensures Shape(r)
    ensures r.reconnect.Some? ==>
              var c := r.reconnect.value;
              && c.attempts + 1 + c.backoff.remaining == config.backoff.remaining
              && c.wait == if c.attempts == 0 then config.backoff.next
                           else Min(config.backoff.next * Pow2(c.attempts), config.backoff.cap)
  {
    hide Histories, Chronicle, OnSchedule, Shape, Reaches, StoryOf, Pow2;
    EveryRunOk(config, turns, r);
    if r.reconnect.Some? {
      ScheduleMeans(config.backoff, r.reconnect.value);
    }
  }

  lemma ScheduleMeans(p: Policy, c: Reconnect)
    requires OnSchedule(p, c)
    ensures c.attempts + 1 + c.backoff.remaining == p.remaining
    ensures c.wait == if c.attempts == 0 then p.next else Min(p.next * Pow2(c.attempts), p.cap)
  {
    hide After, Advance, Pow2;
    DelayExactly(p, c.attempts);
    DelayExactly(p, c.attempts + 1);
  }

  /** A live session has sent a legal history; it has both IDs once ready; a LOAD waits only while the app
      is being launched; the LOADs accepted are those sent, each once and in order, and that one; and the
      request IDs on the wire are those taken, of which the pending ones are still outstanding. */
  lemma LiveSessionIsLegal(config: Config, turns: seq<Turn>, r: Run)
    requires Reaches(config, turns, r) && r.session.Some?
    ensures var s := r.session.value;
            && WireLegal(s.trace)
            && (Live(s.phase) ==> s.transportId.Some? && s.sessionId.Some?)
            && (s.queued.Some? ==> s.phase == Launching)
            && Loads(s.trace) + Waiting(s) == s.accepted
            && Sound(s.ids.log) && s.ids.pending.Keys == Outstanding(s.ids.log)
            && WireIds(s.trace) == TakenIds(s.ids.log)
  {
    hide Told, PastOk, WireLegal, Stepwise, Sound, Reaches;
    EveryRunOk(config, turns, r);
    StepwiseIsLegal(r.session.value.trace);
  }

  /** Every session that is over has sent a legal history. If the receiver ever named its session, it closed
      it: a STOP to its media channel if and only if a LOAD was still running when teardown began, directly
      followed by STOP_APP, and nothing after; otherwise teardown sent nothing. */
  lemma PastSessionIsLegal(config: Config, turns: seq<Turn>, r: Run, i: nat)
    requires Reaches(config, turns, r) && i < |r.past|
    ensures WireLegal(r.past[i].trace) && Closed(r.past[i].trace)
    ensures Ending(r.past[i].trace, r.past[i].end)
    ensures Loads(r.past[i].trace) <= r.past[i].accepted
    ensures Sound(r.past[i].uses) && WireIds(r.past[i].trace) == TakenIds(r.past[i].uses)
  {
    hide Told, SessionOk, WireLegal, Finished, Ending, Closed, Loads, Sound, Reaches;
    EveryRunOk(config, turns, r);
    assert PastOk(r.past[i]);
    FinishedIsLegal(r.past[i].trace);
  }

  /** A media message goes to the heartbeat's address exactly if the receiver calls its transport "0". */
  lemma NoFallback(t: seq<Item>, i: nat)
    requires WireLegal(t) && i < |t| && IsMedia(t[i])
    ensures t[i].dest == TRANSPORT_ID <==> TransportOf(t[..i]) == Some("0")
  {
    hide IsMedia, TransportOf, MediaDestinationId;
    assert LegalAt(t, i);
    FallbackExactly(TransportOf(t[..i]).value);
  }

  /** The events of a run. Connects and disconnects alternate, device by device, with one more connect
      exactly while a session exists; every connect answers the latest Select, with no error since; Ready
      comes at most once per connection; giving up takes exactly the policy's number of failed attempts. */
  lemma EventsAreOrdered(config: Config, turns: seq<Turn>, r: Run, j: nat)
    requires Reaches(config, turns, r) && j < |r.log|
    ensures Count(r.log, IsConnected) == Count(r.log, IsDisconnected) + if r.session.Some? then 1 else 0
    ensures IsConnected(r.log[j]) ==>
              || (forall i :: 0 <= i < j ==> !Switch(r.log[i]))
              || exists i :: LastSuch(r.log, i, j, Switch) && IsDisconnected(r.log[i])
    ensures IsDisconnected(r.log[j]) ==>
              exists i :: LastSuch(r.log, i, j, Switch) && r.log[i] == Emitted(EvConnected(r.log[j].event.device))
    ensures IsConnected(r.log[j]) ==>
              exists i :: LastSuch(r.log, i, j, Choice) && r.log[i] == Selected(r.log[j].event.device)
    ensures IsReady(r.log[j]) ==>
              forall i: nat :: i < j && IsReady(r.log[i]) ==> exists k :: i < k < j && IsConnected(r.log[k])
    ensures IsError(r.log[j]) && r.log[j].event.error.ReconnectExhausted? ==>
              && r.log[j].event.error.attempts == config.backoff.remaining
              && exists i :: LostAt(r.log[..j], i, r.log[j].event.error.device, config.backoff.remaining)
  {
    hide Histories, LogOk, StoryOf, LastSuch, LostAt, Count, Current, Reaches;
    hide Switch, Choice, IsReady, IsConnected, IsDisconnected;
    EveryRunOk(config, turns, r);
    var max := config.backoff.remaining;
    SurplusIsOpen(max, r.log);
    Alternates(max, r.log, j);
    if IsConnected(r.log[j]) {
      ConnectedOnlyIfSelected(max, r.log, j);
    }
    if IsReady(r.log[j]) {
      forall i: nat | i < j && IsReady(r.log[i]) ensures exists k :: i < k < j && IsConnected(r.log[k]) {
        OneReadyPerSession(max, r.log, i, j);
      }
    }
    if IsError(r.log[j]) && r.log[j].event.error.ReconnectExhausted? {
      ExhaustedExactly(max, r.log, j);
    }
  }

  // ---------------------------------------------------------------------------
  // Every turn of every run
  // ---------------------------------------------------------------------------

  /** Every turn of every run says to the backend exactly what its input calls for, adds exactly that to the
      session's history, and ends the loop exactly if told to. */
  lemma EveryTurnAnswers(config: Config, turns: seq<Turn>, q: Run, next: Turn)
    requires Reaches(config, turns, q) && Enabled(q, next.input, next.io)
    ensures SessionUsable(q)
    ensures SaysRightly(config, q, next.input, next.io, Iterate(q, next.input, config, next.io))
    ensures q.session.Some? ==> ActsRightly(q, next.input, next.io, Iterate(q, next.input, config, next.io))
  {
    hide RunOk, Iterate, Reaches, SaysRightly, ActsRightly;
    EveryRunOk(config, turns, q);
    TurnSays(config, q, next.input, next.io);
    if q.session.Some? {
      TurnActs(config, q, next.input, next.io);
    }
  }

  /** A command of a live session is answered by the message it names, in every phase that does not ignore it. */
  lemma CommandsAreAnswered(config: Config, turns: seq<Turn>, q: Run, c: Command, io: Io)
    requires Reaches(config, turns, q) && q.running && q.session.Some? && !c.Select? && !c.Shutdown?
    ensures SessionUsable(q)
    ensures var t := q.session.value.trace;
            var after := SoFar(q, Iterate(q, Commanded(Some(c)), config, io));
            && t <= after && Answers(c, t, io.first, Added(t, after))
            && (DeviceOf(Iterate(q, Commanded(Some(c)), config, io)).Some? <==> Written(Wanted(c, t), io))
  {
    hide RunOk, Iterate, Reaches, Answers, Wanted, StoryOf, LogOk;
    var next := Turn(Commanded(Some(c)), io);
    EveryTurnAnswers(config, turns, q, next);
    NeverStuck(config, turns, q, next);
    var r := Iterate(q, next.input, config, io);
    EveryRunOk(config, turns, q);
    EveryRunOk(config, turns + [next], r);
    OpenIsSession(config, q);
    OpenIsSession(config, r);
    var ok := Written(Wanted(c, TraceOf(q)), io);
    var d := q.session.value.device;
    assert r.log == q.log + LossUnless(ok, d, config.backoff.remaining);
    if ok {
      assert q.log + [] == q.log;
    } else {
      LossCloses(q.log, d, config.backoff.remaining);
    }
  }

  lemma LossCloses(log: seq<Entry>, d: Device, max: nat)
    ensures StoryOf(log + Loss(d, max)).open.None?
  {
    var e, x := Emitted(EvDisconnected(d)), Emitted(EvError(ReconnectExhausted(d, 0)));
    assert Front(log + [e]) == log && Last(log + [e]) == e;
    if max == 0 {
      var l := log + Loss(d, max);
      assert Front(l) == log + [e] && Last(l) == x;
    }
  }

  /** A pending request stays exactly until it is answered or overdue. */
  lemma RequestsEndExactly(config: Config, turns: seq<Turn>, q: Run, next: Turn, id: nat)
    requires Reaches(config, turns, q) && Enabled(q, next.input, next.io) && SessionUsable(q)
    requires var r := Iterate(q, next.input, config, next.io); r.running && SameSession(q, r)
    requires id in Pending(q) && !SettledBy(next.input, id)
    ensures var after := Pending(Iterate(q, next.input, config, next.io));
            && (id in after <==> next.io.end < Pending(q)[id] + config.requestTimeout)
            && (id in after ==> after[id] == Pending(q)[id])
  {
    hide RunOk, Iterate, Reaches, SettledBy;
    EveryRunOk(config, turns, q);
    TurnPending(config, q, next.input, next.io, id);
  }

  // ---------------------------------------------------------------------------
  // Timers
  // ---------------------------------------------------------------------------

  lemma {:induction false} EveryRunTimed(config: Config, turns: seq<Turn>, r: Run)
    requires Reaches(config, turns, r)
    ensures Timed(config, r)
  {
    hide RunOk, Iterate, Timed;
    if turns == [] {
      StartTimed(config);
    } else {
      var turn := Last(turns);
      var q :| Reaches(config, Front(turns), q) && SessionUsable(q) && Enabled(q, turn.input, turn.io)
               && r == Iterate(q, turn.input, config, turn.io);
      EveryRunTimed(config, Front(turns), q);
      EveryRunOk(config, Front(turns), q);
      TurnTimed(config, q, turn.input, turn.io);
    }
  }

  lemma StartTimed(config: Config)
    ensures Timed(config, START)
  {
  }

  /** The last such entry was made at least so long before `now`. */
  ghost predicate LongAgo(r: Run, mark: Entry -> bool, delay: nat, now: nat)
    requires |r.clock| == |r.log|
  {
    exists i :: LastSuch(r.log, i, |r.log|, mark) && r.clock[i] + delay <= now
  }

  lemma PassedExactly(r: Run, due: nat, mark: Entry -> bool, delay: nat, now: nat)
    requires |r.clock| == |r.log| && DueAfter(r, due, mark, delay)
    ensures due <= now <==> LongAgo(r, mark, delay, now)
  {
    LastTimeTells(r.log, r.clock, mark);
    hide LastTime;
    var i :| LastSuch(r.log, i, |r.log|, mark) && due == r.clock[i] + delay;
    if j :| LastSuch(r.log, j, |r.log|, mark) && r.clock[j] + delay <= now {
      assert i == j;
    }
  }

  /** The delay before attempt `k + 1`. */
  function Delay(p: Policy, k: nat): nat {
    if k == 0 then p.next else Min(p.next * Pow2(k), p.cap)
  }

  /** While the loop runs: a PING is due exactly the interval after the connection or the last PING, the watchdog
      strikes exactly its time after the connection or the last PONG, and attempt k + 1 comes exactly the policy's
      delay k after the loss or the failed attempt before it. Commands and the shutdown are always heard, frames
      exactly while connected. */
  lemma TimersExactly(config: Config, turns: seq<Turn>, r: Run, io: Io)
    requires Reaches(config, turns, r) && r.running
    ensures |r.clock| == |r.log|
    ensures Enabled(r, HeartbeatFires, io) <==>
            StoryOf(r.log).open.Some? && LongAgo(r, BeatMark, config.heartbeat, io.now)
    ensures Enabled(r, WatchdogFires, io) <==>
            StoryOf(r.log).open.Some? && LongAgo(r, PongMark, config.watchdog, io.now)
    ensures Enabled(r, ReconnectFires, io) <==>
            && StoryOf(r.log).open.None? && StoryOf(r.log).wanted.Some? && StoryOf(r.log).trying.Some?
            && LongAgo(r, LossMark, Delay(config.backoff, StoryOf(r.log).trying.value.1), io.now)
    ensures forall frame :: Enabled(r, Framed(frame), io) <==> StoryOf(r.log).open.Some?
    ensures forall c :: Enabled(r, Commanded(c), io)
    ensures Enabled(r, ShutdownRequested, io)
  {
    hide LogOk, StoryOf, SessionOk, PastOk, LastTime, DueAfter, LongAgo, OnSchedule, Reaches, Pow2;
    EveryRunOk(config, turns, r);
    EveryRunTimed(config, turns, r);
    if r.session.Some? {
      PassedExactly(r, r.heartbeat.value, BeatMark, config.heartbeat, io.now);
      PassedExactly(r, r.watchdog.value, PongMark, config.watchdog, io.now);
    }
    if r.reconnect.Some? {
      PassedExactly(r, r.reconnect.value.due, LossMark, r.reconnect.value.wait, io.now);
      ScheduleMeans(config.backoff, r.reconnect.value);
    }
  }
}
