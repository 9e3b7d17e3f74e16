/** Model of the discovery table of src/cast/mdns.rs: de-duplication, expiry and pushed snapshots. */
module DeviceTable {
  import opened Bytes

  const MISSED_CYCLES_TO_EXPIRE: nat := 3

  datatype Key = Key(ip: nat, port: nat)

  /** One device of a parsed response. */
  datatype Discovered = Discovered(key: Key, name: Bytes, deviceId: Option<Bytes>)

  datatype Entry = Entry(name: Bytes, deviceId: Option<Bytes>, missedCycles: nat)

  type Table = map<Key, Entry>

  /** The pin key: the advertised identifier if there is a non-empty one, else name and address. */
  datatype PinKey = ById(id: Bytes) | ByName(name: Bytes, ip: nat)

  datatype CastDevice = CastDevice(name: Bytes, pinKey: PinKey)

  type Snapshot = map<Key, CastDevice>

  function ReceiverKey(deviceId: Option<Bytes>, name: Bytes, ip: nat): PinKey {
    if deviceId.Some? && deviceId.value != [] then ById(deviceId.value) else ByName(name, ip)
  }

  /** What the user sees of the table. */
  function Visible(t: Table): Snapshot {
    map k | k in t :: CastDevice(t[k].name, ReceiverKey(t[k].deviceId, t[k].name, k.ip))
  }

  function Upsert(t: Table, d: Discovered): Table {
    t[d.key := Entry(d.name, d.deviceId, 0)]
  }

  /** Whether the table shows this device already, as it is. */
  predicate Known(t: Table, d: Discovered) {
    d.key in t && t[d.key].name == d.name && t[d.key].deviceId == d.deviceId
  }

  function UpsertAll(t: Table, found: seq<Discovered>): Table {
    if found == [] then t else Upsert(UpsertAll(t, found[..|found| - 1]), found[|found| - 1])
  }

  predicate AllKnown(t: Table, found: seq<Discovered>) {
    found == [] ||
    (AllKnown(t, found[..|found| - 1]) && Known(UpsertAll(t, found[..|found| - 1]), found[|found| - 1]))
  }

  function Expired(t: Table): Table {
    map k | k in t && t[k].missedCycles + 1 < MISSED_CYCLES_TO_EXPIRE :: t[k].(missedCycles := t[k].missedCycles + 1)
  }

  class Discovery {
    var devices: Table
    var snapshots: seq<Snapshot>

    constructor ()
      ensures devices == map[] && snapshots == []
    {
      devices, snapshots := map[], [];
    }

    /** One received packet that parsed. */
    method HandlePacket(found: seq<Discovered>)
      modifies this
      ensures devices == UpsertAll(old(devices), found)
      ensures snapshots == old(snapshots) + if AllKnown(old(devices), found) then [] else [Visible(devices)]
    {
      var changed := false;
      for i := 0 to |found|
        invariant devices == UpsertAll(old(devices), found[..i]) && snapshots == old(snapshots)
        invariant changed <==> !AllKnown(old(devices), found[..i])
      {
        assert found[..i + 1][..i] == found[..i];
        var c := UpsertDevice(found[i]);
        changed := changed || c;
      }
      assert found[..|found|] == found;
      if changed {
        PushSnapshot();
      }
    }

    method UpsertDevice(d: Discovered) returns (changed: bool)
      modifies this`devices
      ensures devices == Upsert(old(devices), d)
      ensures changed <==> !Known(old(devices), d)
    {
      if d.key in devices {
        var entry := devices[d.key].(missedCycles := 0);
        changed := entry.name != d.name || entry.deviceId != d.deviceId;
        if changed {
          entry := entry.(name := d.name, deviceId := d.deviceId);
        }
        devices := devices[d.key := entry];
      } else {
        devices := devices[d.key := Entry(d.name, d.deviceId, 0)];
        changed := true;
      }
    }

    /** One tick of the query interval. */
    method ExpireCycle()
      modifies this
      ensures devices == Expired(old(devices))
      ensures snapshots == old(snapshots) + if devices.Keys == old(devices).Keys then [] else [Visible(devices)]
    {
      if devices == map[] {
        return;
      }
      var kept := Expired(devices);
      var changed := kept.Keys != devices.Keys;
      devices := kept;
      if changed {
        PushSnapshot();
      }
    }

    method PushSnapshot()
      modifies this`snapshots
      ensures snapshots == old(snapshots) + [Visible(devices)]
    {
      snapshots := snapshots + [Visible(devices)];
    }
  }

  // ---------------------------------------------------------------------------
  // Every run
  // ---------------------------------------------------------------------------

  datatype Event = Packet(found: seq<Discovered>) | Tick

  /** The table and the snapshots pushed after a history of events. */
  function Run(log: seq<Event>): (Table, seq<Snapshot>) {
    if log == [] then (map[], [])
    else
      var (t, pushed) := Run(log[..|log| - 1]);
      match log[|log| - 1]
      case Packet(found) =>
        (UpsertAll(t, found), pushed + if AllKnown(t, found) then [] else [Visible(UpsertAll(t, found))])
      case Tick => (Expired(t), pushed + if Expired(t).Keys == t.Keys then [] else [Visible(Expired(t))])
  }

  function LastPushed(pushed: seq<Snapshot>): Snapshot {
    if pushed == [] then map[] else pushed[|pushed| - 1]
  }

  lemma {:induction false} KnownKeepsVisible(t: Table, found: seq<Discovered>)
    requires AllKnown(t, found)
    ensures Visible(UpsertAll(t, found)) == Visible(t)
  {
    if found != [] {
      KnownKeepsVisible(t, found[..|found| - 1]);
      var u, d := UpsertAll(t, found[..|found| - 1]), found[|found| - 1];
      assert Visible(Upsert(u, d)) == Visible(u);
    }
  }

  lemma NothingExpired(t: Table)
    requires Expired(t).Keys == t.Keys
    ensures Visible(Expired(t)) == Visible(t)
  {
    forall k | k in t ensures k in Expired(t) {
      assert k in t.Keys;
    }
  }

  /** After every event, what was pushed last (nothing, before the first push) is what the table shows. */
  lemma {:induction false} SnapshotAgrees(log: seq<Event>)
    ensures LastPushed(Run(log).1) == Visible(Run(log).0)
  {
    if log == [] {
      assert Visible(map[]) == map[];
    } else {
      SnapshotAgrees(log[..|log| - 1]);
      var (t, pushed) := Run(log[..|log| - 1]);
      match log[|log| - 1]
      case Packet(found) =>
        if AllKnown(t, found) {
          KnownKeepsVisible(t, found);
          assert pushed + [] == pushed;
        }
      case Tick =>
        if Expired(t).Keys == t.Keys {
          NothingExpired(t);
          assert pushed + [] == pushed;
        }
    }
  }

  // ---------------------------------------------------------------------------
  // The table as a function of history
  // ---------------------------------------------------------------------------

  /** The last announcement of a device in a packet. */
  function Latest(found: seq<Discovered>, k: Key): (r: Option<Discovered>)
    ensures r.Some? ==> r.value.key == k
  {
    if found == [] then None
    else if found[|found| - 1].key == k then Some(found[|found| - 1])
    else Latest(found[..|found| - 1], k)
  }

  /** What history says about a device: its last announcement and the ticks since. */
  datatype Standing = Never | Heard(device: Discovered, ticks: nat)

  function StandingOf(log: seq<Event>, k: Key): Standing {
    if log == [] then Never
    else
      var before := StandingOf(log[..|log| - 1], k);
      match log[|log| - 1]
      case Packet(found) => if Latest(found, k).Some? then Heard(Latest(found, k).value, 0) else before
      case Tick => if before.Heard? then Heard(before.device, before.ticks + 1) else before
  }

  predicate Alive(s: Standing) {
    s.Heard? && s.ticks < MISSED_CYCLES_TO_EXPIRE
  }

  lemma {:induction false} UpsertAllAt(t: Table, found: seq<Discovered>, k: Key)
    ensures match Latest(found, k)
            case None => (k in UpsertAll(t, found) <==> k in t) && (k in t ==> UpsertAll(t, found)[k] == t[k])
            case Some(d) => k in UpsertAll(t, found) && UpsertAll(t, found)[k] == Entry(d.name, d.deviceId, 0)
  {
    if found != [] {
      UpsertAllAt(t, found[..|found| - 1], k);
    }
  }

  /** The whole table is determined by history: a device is in it if and only if fewer than three ticks
      passed since it was last announced, under that announcement's name and identifier, with that count. */
  lemma {:induction false} TableIsHistory(log: seq<Event>, k: Key)
    ensures k in Run(log).0 <==> Alive(StandingOf(log, k))
    ensures k in Run(log).0 ==>
              var s := StandingOf(log, k);
              Run(log).0[k] == Entry(s.device.name, s.device.deviceId, s.ticks)
  {
    if log != [] {
      TableIsHistory(log[..|log| - 1], k);
      match log[|log| - 1]
      case Packet(found) =>
        UpsertAllAt(Run(log[..|log| - 1]).0, found, k);
      case Tick =>
    }
  }

  function Ticks(log: seq<Event>): nat {
    if log == [] then 0 else Ticks(log[..|log| - 1]) + if log[|log| - 1].Tick? then 1 else 0
  }

  lemma {:induction false} StandingAfter(log: seq<Event>, quiet: seq<Event>, k: Key)
    requires StandingOf(log, k).Heard?
    requires forall e <- quiet :: e.Packet? ==> Latest(e.found, k) == None
    ensures StandingOf(log + quiet, k) == Heard(StandingOf(log, k).device, StandingOf(log, k).ticks + Ticks(quiet))
  {
    if quiet == [] {
      assert log + quiet == log;
    } else {
      var n := |quiet| - 1;
      assert (log + quiet)[..|log + quiet| - 1] == log + quiet[..n];
      assert quiet[n] in quiet;
      StandingAfter(log, quiet[..n], k);
    }
  }

  /** A device that is announced and then stays silent leaves exactly on the third tick. */
  lemma LeavesOnThirdTick(log: seq<Event>, found: seq<Discovered>, quiet: seq<Event>, k: Key)
    requires Latest(found, k).Some?
    requires forall e <- quiet :: e.Packet? ==> Latest(e.found, k) == None
    ensures k in Run(log + [Packet(found)] + quiet).0 <==> Ticks(quiet) < 3
  {
    var announced := log + [Packet(found)];
    assert announced[..|announced| - 1] == log;
    StandingAfter(announced, quiet, k);
    TableIsHistory(announced + quiet, k);
  }

  // ---------------------------------------------------------------------------
  // Snapshots as a function of history
  // ---------------------------------------------------------------------------

  /** The user is shown exactly the devices announced fewer than three ticks ago, each under the name it last
      announced, with its identifier as pin key if it gave a non-empty one and its name and address otherwise. */
  lemma SnapshotIsHistory(log: seq<Event>, k: Key)
    ensures k in LastPushed(Run(log).1) <==> Alive(StandingOf(log, k))
    ensures k in LastPushed(Run(log).1) ==>
              var (shown, d) := (LastPushed(Run(log).1)[k], StandingOf(log, k).device);
              && shown.name == d.name
              && match d.deviceId
                 case None => shown.pinKey == ByName(d.name, k.ip)
                 case Some(id) => shown.pinKey == if |id| > 0 then ById(id) else ByName(d.name, k.ip)
  {
    SnapshotAgrees(log);
    TableIsHistory(log, k);
  }

  /** An announcement the user does not see yet. */
  predicate IsNews(s: Standing, d: Discovered) {
    !Alive(s) || s.device.name != d.name || s.device.deviceId != d.deviceId
  }

  /** History, with as much of a packet as has been handled. */
  function Partly(log: seq<Event>, found: seq<Discovered>, i: nat): seq<Event>
    requires i <= |found|
  {
    log + [Packet(found[..i])]
  }

  lemma PartlyTable(log: seq<Event>, found: seq<Discovered>, i: nat)
    requires i <= |found|
    ensures Run(Partly(log, found, i)).0 == UpsertAll(Run(log).0, found[..i])
  {
    var l := Partly(log, found, i);
    assert l[..|l| - 1] == log;
  }

  lemma {:induction false} AllKnownTells(log: seq<Event>, found: seq<Discovered>, n: nat)
    requires n <= |found|
    ensures AllKnown(Run(log).0, found[..n]) <==>
            forall i :: 0 <= i < n ==> !IsNews(StandingOf(Partly(log, found, i), found[i].key), found[i])
  {
    if n > 0 {
      AllKnownTells(log, found, n - 1);
      var f := found[..n];
      assert f[..n - 1] == found[..n - 1];
      PartlyTable(log, found, n - 1);
      TableIsHistory(Partly(log, found, n - 1), found[n - 1].key);
    }
  }

  /** Two ticks have passed since the device was last announced. */
  predicate LeavesNext(log: seq<Event>, k: Key) {
    StandingOf(log, k).Heard? && StandingOf(log, k).ticks == 2
  }

  /** A packet pushes one snapshot exactly if it brings news, a tick exactly if some device's third one. */
  lemma SnapshotsExactly(log: seq<Event>, e: Event)
    ensures var pushed := Run(log + [e]).1;
            && Run(log).1 <= pushed
            && match e
               case Packet(found) =>
                 |pushed| == |Run(log).1| +
                 if exists i :: 0 <= i < |found| && IsNews(StandingOf(Partly(log, found, i), found[i].key), found[i])
                 then 1 else 0
               case Tick =>
                 |pushed| == |Run(log).1| +
                 if exists k :: LeavesNext(log, k) then 1 else 0
  {
    assert (log + [e])[..|log + [e]| - 1] == log;
    match e
    case Packet(found) =>
      AllKnownTells(log, found, |found|);
      assert found[..|found|] == found;
    case Tick =>
      TickTells(log);
  }

  lemma TickTells(log: seq<Event>)
    ensures Expired(Run(log).0).Keys != Run(log).0.Keys <==>
            exists k :: LeavesNext(log, k)
  {
    hide Run, LeavesNext, Expired;
    var t := Run(log).0;
    forall k
      ensures k in t && k !in Expired(t) <==> LeavesNext(log, k)
      ensures k in Expired(t) ==> k in t
    {
      ExpiresAt(log, k);
    }
    if k :| LeavesNext(log, k) {
      assert k in t.Keys && k !in Expired(t).Keys;
    }
    if Expired(t).Keys != t.Keys {
      assert forall k :: k in Expired(t).Keys ==> k in t.Keys;
      var k :| k in t.Keys && k !in Expired(t).Keys;
      assert LeavesNext(log, k);
    }
  }

  lemma ExpiresAt(log: seq<Event>, k: Key)
    ensures var t := Run(log).0;
            && (k in t && k !in Expired(t) <==> LeavesNext(log, k))
            && (k in Expired(t) ==> k in t)
  {
    TableIsHistory(log, k);
  }
}
