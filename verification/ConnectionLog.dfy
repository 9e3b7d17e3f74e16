/** The history of a whole run: which events may follow which, and what that means for the backend. */
module ConnectionLog {
  import opened Bytes
  import opened Connection
  import opened SessionTrace

  /** What the history so far says: the device connected, the device wanted, the reconnects tried since its
      connection was lost, and whether the current session has announced itself. */
  datatype Story = Story(open: Option<Device>, wanted: Option<Device>, trying: Option<(Device, nat)>, ready: bool)

  function Tell(s: Story, e: Entry): Story {
    match e
    case Selected(d) => s.(wanted := Some(d), trying := None)
    case Pinged => s
    case Ponged => s
    case Retried => s.(trying := if s.trying.Some? then Some((s.trying.value.0, s.trying.value.1 + 1)) else None)
    case Emitted(event) =>
      match event
      case EvConnected(d) => s.(open := Some(d), trying := None, ready := false)
      case EvDisconnected(d) => s.(open := None, trying := Some((d, 0)))
      case EvError(_) => s.(wanted := None, trying := None)
      case EvReady(_, _) => s.(ready := true)
      case EvMediaStatus(_, _) => s
      case EvVolume(_, _) => s
      case EvCertificateMismatch(_) => s
  }

  function StoryOf(log: seq<Entry>): Story {
    if log == [] then Story(None, None, None, false) else Tell(StoryOf(Front(log)), Last(log))
  }

  /** What may come next, when the backoff policy allows `max` attempts. */
  predicate Tellable(max: nat, s: Story, e: Entry) {
    match e
    case Selected(_) => s.open.None?
    case Pinged => s.open.Some?
    case Ponged => s.open.Some?
    case Retried => s.open.None? && s.trying.Some? && s.trying.value.1 < max
    case Emitted(event) =>
      match event
      case EvConnected(d) => s.open.None? && s.wanted == Some(d)
      case EvDisconnected(d) => s.open == Some(d)
      case EvError(error) =>
        && s.open.None? && s.wanted.Some?
        && (error.ReconnectExhausted? ==> s.wanted == Some(error.device) && error.attempts == max
                                          && s.trying == Some((error.device, max)))
        && (!error.ReconnectExhausted? ==> s.trying.None?)
      case EvReady(_, _) => s.open.Some? && !s.ready
      case EvMediaStatus(_, _) => s.open.Some?
      case EvVolume(_, _) => s.open.Some?
      case EvCertificateMismatch(d) => s.open.None? && s.wanted == Some(d)
  }

  ghost predicate LogOk(max: nat, log: seq<Entry>) {
    forall i :: 0 <= i < |log| ==> Tellable(max, StoryOf(log[..i]), log[i])
  }

  lemma LogSnoc(max: nat, log: seq<Entry>, e: Entry)
    requires LogOk(max, log) && Tellable(max, StoryOf(log), e)
    ensures LogOk(max, log + [e]) && StoryOf(log + [e]) == Tell(StoryOf(log), e)
  {
    hide Tellable;
    var l := log + [e];
    assert Front(l) == log && Last(l) == e;
    forall i | 0 <= i < |l| ensures Tellable(max, StoryOf(l[..i]), l[i]) {
      assert l[..i] == if i < |log| then log[..i] else log;
    }
  }

  lemma LogPrefix(max: nat, log: seq<Entry>, n: nat)
    requires LogOk(max, log) && n <= |log|
    ensures LogOk(max, log[..n])
  {
    hide Tellable;
    forall i | 0 <= i < n ensures Tellable(max, StoryOf(log[..n][..i]), log[..n][i]) {
      assert log[..n][..i] == log[..i];
    }
  }

  lemma LogAt(max: nat, log: seq<Entry>, j: nat)
    requires LogOk(max, log) && j < |log|
    ensures LogOk(max, log[..j]) && Tellable(max, StoryOf(log[..j]), log[j])
    ensures j == |log| - 1 ==> log[..j] == Front(log) && StoryOf(log) == Tell(StoryOf(log[..j]), log[j])
  {
    hide Tellable, Tell;
    LogPrefix(max, log, j);
  }

  // ---------------------------------------------------------------------------
  // What the story means, event by event
  // ---------------------------------------------------------------------------

  predicate IsConnected(e: Entry) {
    e.Emitted? && e.event.EvConnected?
  }

  predicate IsDisconnected(e: Entry) {
    e.Emitted? && e.event.EvDisconnected?
  }

  predicate IsError(e: Entry) {
    e.Emitted? && e.event.EvError?
  }

  predicate IsReady(e: Entry) {
    e.Emitted? && e.event.EvReady?
  }

  /** `e` is the last entry of its kind before position `n`. */
  ghost predicate LastSuch(log: seq<Entry>, i: int, n: int, kind: Entry -> bool) {
    0 <= i < n <= |log| && kind(log[i]) && forall k :: i < k < n ==> !kind(log[k])
  }

  predicate Switch(e: Entry) {
    IsConnected(e) || IsDisconnected(e)
  }

  predicate Choice(e: Entry) {
    e.Selected? || IsError(e)
  }

  predicate AttemptTrace(e: Entry) {
    e.Retried? || (e.Emitted? && e.event.EvCertificateMismatch?)
  }

  function Retries(log: seq<Entry>): nat {
    if log == [] then 0 else Retries(Front(log)) + if Last(log).Retried? then 1 else 0
  }

  function Count(log: seq<Entry>, kind: Entry -> bool): nat {
    if log == [] then 0 else Count(Front(log), kind) + if kind(Last(log)) then 1 else 0
  }

  /** A device is connected exactly if the last of all connects and disconnects connected it. */
  lemma {:induction false} OpenTells(log: seq<Entry>)
    ensures match StoryOf(log).open
            case Some(d) => exists i :: LastSuch(log, i, |log|, Switch) && log[i] == Emitted(EvConnected(d))
            case None => (forall i :: 0 <= i < |log| ==> !Switch(log[i]))
                         || exists i :: LastSuch(log, i, |log|, Switch) && IsDisconnected(log[i])
  {
    if log != [] {
      var f := Front(log);
      OpenTells(f);
      if Switch(Last(log)) {
        assert LastSuch(log, |log| - 1, |log|, Switch);
      } else if i :| LastSuch(f, i, |f|, Switch) {
        assert LastSuch(log, i, |log|, Switch);
      }
    }
  }

  /** A device is wanted exactly if the last of all selections and errors selected it. */
  lemma {:induction false} WantedTells(log: seq<Entry>)
    ensures match StoryOf(log).wanted
            case Some(d) => exists i :: LastSuch(log, i, |log|, Choice) && log[i] == Selected(d)
            case None => (forall i :: 0 <= i < |log| ==> !Choice(log[i]))
                         || exists i :: LastSuch(log, i, |log|, Choice) && IsError(log[i])
  {
    if log != [] {
      var f := Front(log);
      WantedTells(f);
      if Choice(Last(log)) {
        assert LastSuch(log, |log| - 1, |log|, Choice);
      } else if i :| LastSuch(f, i, |f|, Choice) {
        assert LastSuch(log, i, |log|, Choice);
      }
    }
  }

  /** The connection to `d` was lost at `i`, and since then there were only failed attempts, `n` of them. */
  ghost predicate LostAt(log: seq<Entry>, i: int, d: Device, n: nat) {
    && 0 <= i < |log| && log[i] == Emitted(EvDisconnected(d))
    && (forall k :: i < k < |log| ==> AttemptTrace(log[k]))
    && Retries(log[i..]) == n
  }

  lemma {:induction false} TryingTells(max: nat, log: seq<Entry>)
    requires LogOk(max, log) && StoryOf(log).trying.Some? && StoryOf(log).open.None?
    ensures exists i :: LostAt(log, i, StoryOf(log).trying.value.0, StoryOf(log).trying.value.1)
  {
    hide LogOk, StoryOf, LostAt;
    var (d, n) := StoryOf(log).trying.value;
    assert log != [] by {
      StoryOfNothing();
    }
    var f := Front(log);
    LogAt(max, log, |f|);
    if IsDisconnected(Last(log)) {
      assert log == f + [Emitted(EvDisconnected(d))];
      LostNow(f, d);
    } else {
      TryingTells(max, f);
      var i :| LostAt(f, i, d, StoryOf(f).trying.value.1);
      StillLost(log, i, d, StoryOf(f).trying.value.1);
    }
  }

  lemma StoryOfNothing()
    ensures StoryOf([]) == Story(None, None, None, false)
  {
  }

  lemma LostNow(f: seq<Entry>, d: Device)
    ensures var log := f + [Emitted(EvDisconnected(d))]; LostAt(log, |f|, d, 0)
  {
    var log := f + [Emitted(EvDisconnected(d))];
    assert log[|f|..] == [Last(log)] && Front([Last(log)]) == [];
  }

  lemma StillLost(log: seq<Entry>, i: int, d: Device, n: nat)
    requires log != [] && LostAt(Front(log), i, d, n) && AttemptTrace(Last(log))
    ensures LostAt(log, i, d, n + if Last(log).Retried? then 1 else 0)
  {
    assert Front(log[i..]) == Front(log)[i..] && Last(log[i..]) == Last(log);
  }

  lemma {:induction false} ReadyTells(max: nat, log: seq<Entry>, i: nat)
    requires LogOk(max, log) && i < |log| && IsReady(log[i]) && !StoryOf(log).ready
    ensures exists k :: i < k < |log| && IsConnected(log[k])
  {
    hide LogOk, StoryOf;
    var f := Front(log);
    LogAt(max, log, |f|);
    if !IsConnected(Last(log)) {
      ReadyTells(max, f, i);
      var k :| i < k < |f| && IsConnected(f[k]);
      assert IsConnected(log[k]);
    } else {
      assert IsConnected(log[|f|]);
    }
  }

  // ---------------------------------------------------------------------------
  // What every run's events obey
  // ---------------------------------------------------------------------------

  /** Connects and disconnects alternate: before a connect the last of either is a disconnect, if there is
      any, and before a disconnect it is the connect of the same device. */
  lemma Alternates(max: nat, log: seq<Entry>, j: nat)
    requires LogOk(max, log) && j < |log|
    ensures IsConnected(log[j]) ==>
              || (forall i :: 0 <= i < j ==> !Switch(log[i]))
              || exists i :: LastSuch(log, i, j, Switch) && IsDisconnected(log[i])
    ensures IsDisconnected(log[j]) ==>
              exists i :: LastSuch(log, i, j, Switch) && log[i] == Emitted(EvConnected(log[j].event.device))
  {
    hide LogOk, StoryOf;
    var p := log[..j];
    LogAt(max, log, j);
    OpenTells(p);
    if i :| LastSuch(p, i, |p|, Switch) {
      assert LastSuch(log, i, j, Switch);
    }
  }

  /** The surplus of connects over disconnects is one while a device is connected and zero otherwise. */
  lemma {:induction false} SurplusIsOpen(max: nat, log: seq<Entry>)
    requires LogOk(max, log)
    ensures Count(log, IsConnected) == Count(log, IsDisconnected) + if StoryOf(log).open.Some? then 1 else 0
  {
    hide LogOk, StoryOf;
    if log == [] {
      StoryOfNothing();
    } else {
      LogAt(max, log, |log| - 1);
      SurplusIsOpen(max, Front(log));
    }
  }

  /** Every connect answers the latest selection, with no error since: so after an error there is none
      until a new selection. */
  lemma ConnectedOnlyIfSelected(max: nat, log: seq<Entry>, j: nat)
    requires LogOk(max, log) && j < |log| && IsConnected(log[j])
    ensures exists i :: LastSuch(log, i, j, Choice) && log[i] == Selected(log[j].event.device)
    ensures forall e :: 0 <= e < j && IsError(log[e]) ==>
              exists i :: e < i < j && log[i] == Selected(log[j].event.device)
  {
    hide LogOk, StoryOf;
    var p := log[..j];
    LogAt(max, log, j);
    WantedTells(p);
    var i :| LastSuch(p, i, |p|, Choice) && p[i] == Selected(log[j].event.device);
    assert LastSuch(log, i, j, Choice);
    forall e | 0 <= e < j && IsError(log[e])
      ensures exists i :: e < i < j && log[i] == Selected(log[j].event.device)
    {
      assert Choice(log[e]);
    }
  }

  /** Giving up is reported for a device whose connection was lost, after exactly as many failed attempts as
      the policy allows and nothing else in between. */
  lemma ExhaustedExactly(max: nat, log: seq<Entry>, j: nat)
    requires LogOk(max, log) && j < |log| && IsError(log[j]) && log[j].event.error.ReconnectExhausted?
    ensures log[j].event.error.attempts == max
    ensures exists i :: LostAt(log[..j], i, log[j].event.error.device, max)
  {
    hide LogOk, StoryOf;
    var p := log[..j];
    LogAt(max, log, j);
    TryingTells(max, p);
  }

  /** Between two Ready events there is a new connection. */
  lemma OneReadyPerSession(max: nat, log: seq<Entry>, i: nat, j: nat)
    requires LogOk(max, log) && i < j < |log| && IsReady(log[i]) && IsReady(log[j])
    ensures exists k :: i < k < j && IsConnected(log[k])
  {
    hide LogOk, StoryOf;
    var p := log[..j];
    LogAt(max, log, j);
    assert IsReady(p[i]);
    ReadyTells(max, p, i);
    var k :| i < k < |p| && IsConnected(p[k]);
    assert IsConnected(log[k]);
  }
}
