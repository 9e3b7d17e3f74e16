/** Every segment of the screen bridge is accounted for, on every run. */
module BridgeLedger {
  import opened Bytes
  import opened Segments
  import opened Backpressure
  import opened Bridge
  import opened BridgeInvariant

  // ---------------------------------------------------------------------------
  // What each step gains and loses
  // ---------------------------------------------------------------------------

  /** Segments that left a reader and are not lost: accepted by the channel, in the forwarder's hands or queued. */
  function Kept(w: World): nat {
    |w.delivered| + (if w.inFlight.Some? then 1 else 0) + |w.queue|
  }

  /** Steps that push a segment. */
  function Pushes(steps: seq<Step>): nat {
    if steps == [] then 0 else (if steps[0].Push? then 1 else 0) + Pushes(steps[1..])
  }

  /** Steps that drop a fragment for want of room in the channel. */
  function Drops(steps: seq<Step>): nat {
    if steps == [] then 0 else (if steps[0].Drop? then 1 else 0) + Drops(steps[1..])
  }

  /** Pushes into a full queue along a run. */
  function Evictions(w: World, steps: seq<Step>): nat
    requires Legal(w, steps)
    decreases steps
  {
    if steps == [] then 0
    else
      (if steps[0].Push? && |w.queue| == OUTPUT_QUEUE_CAPACITY then 1 else 0)
      + Evictions(Apply(w, steps[0]), steps[1..])
  }

  /** Segments in the queue when it was cleared, along a run. */
  function Clearings(w: World, steps: seq<Step>): nat
    requires Legal(w, steps)
    decreases steps
  {
    if steps == [] then 0
    else (if steps[0].Clear? then |w.queue| else 0) + Clearings(Apply(w, steps[0]), steps[1..])
  }

  /** A push adds a segment, or replaces a fragment of a full queue; nothing else enters, and only a drop and a
      clearing take away. */
  lemma StepLedger(w: World, s: Step)
    requires Inv(w) && Enabled(w, s)
    ensures Kept(Apply(w, s)) ==
            Kept(w) + (if s.Push? && |w.queue| < OUTPUT_QUEUE_CAPACITY then 1 else 0)
            - (if s.Drop? then 1 else 0) - (if s.Clear? then |w.queue| else 0)
    ensures Apply(w, s).dropped == w.dropped + if s.Drop? then 1 else 0
  {
    hide Apply, Inv, Kept;
    if s.Push? {
      PushLedger(w, s.g);
    } else {
      OtherLedger(w, s);
    }
  }

  lemma OtherLedger(w: World, s: Step)
    requires Enabled(w, s) && !s.Push?
    ensures Kept(Apply(w, s)) == Kept(w) - (if s.Drop? then 1 else 0) - (if s.Clear? then |w.queue| else 0)
    ensures Apply(w, s).dropped == w.dropped + if s.Drop? then 1 else 0
  {
    hide FeedChunk, EndOfStream, Unfinished;
  }

  lemma PushLedger(w: World, g: nat)
    requires Inv(w) && Enabled(w, Push(g))
    ensures var v := Apply(w, Push(g));
            && Kept(v) == Kept(w) + (if |w.queue| < OUTPUT_QUEUE_CAPACITY then 1 else 0)
            && v.dropped == w.dropped
  {
    hide Apply, Enabled, PushOr, Good, ReadersOk;
    PushedWorld(w, g);
    var r := w.readers[g];
    var t := Tagged(g, r.pushed, r.produced[r.pushed]);
    NeverRejected(w, t);
    PushOrExactly(w.queue, OUTPUT_QUEUE_CAPACITY, t, IsFragment);
  }

  lemma {:induction false} LedgerAlong(w: World, steps: seq<Step>)
    requires Inv(w) && Legal(w, steps)
    ensures Kept(w) + Pushes(steps) ==
            Kept(Exec(w, steps)) + Drops(steps) + Evictions(w, steps) + Clearings(w, steps)
    ensures Exec(w, steps).dropped == w.dropped + Drops(steps)
    decreases steps
  {
    hide Inv, Enabled, Apply, Kept;
    if steps != [] {
      StepLedger(w, steps[0]);
      assert |w.queue| <= OUTPUT_QUEUE_CAPACITY by {
        QueueBounded(w);
      }
      StepKeepsInv(w, steps[0]);
      LedgerAlong(Apply(w, steps[0]), steps[1..]);
    }
  }

  lemma QueueBounded(w: World)
    requires Inv(w)
    ensures |w.queue| <= OUTPUT_QUEUE_CAPACITY
  {
  }

  /** Whatever the interleaving: every segment pushed is in the channel's past, in the forwarder's hands or in the
      queue, or was dropped for want of room in the channel, evicted from a full queue, or cleared by a restart;
      and the counter shows the first kind of loss, and no other. */
  lemma EverySegmentAccounted(steps: seq<Step>)
    requires Legal(START, steps)
    ensures var w := Exec(START, steps);
            && Pushes(steps) ==
               |w.delivered| + (if w.inFlight.Some? then 1 else 0) + |w.queue|
               + w.dropped + Evictions(START, steps) + Clearings(START, steps)
            && w.dropped == Drops(steps)
  {
    hide Exec, Legal, Evictions, Clearings;
    assert Inv(START);
    LedgerAlong(START, steps);
  }

  // ---------------------------------------------------------------------------
  // What the forwarder and the registry of readers may do
  // ---------------------------------------------------------------------------

  /** With a segment in hand the forwarder sends it if the channel has room, waits or drops if not, by kind, and
      stops if the consumer is gone; only a stop lets it give an init up. */
  lemma ForwarderExactly(w: World)
    requires Holding(w)
    ensures Enabled(w, Send) <==> w.open && |w.channel| < SERVER_CHANNEL_CAPACITY
    ensures Enabled(w, Drop) <==>
            w.open && |w.channel| >= SERVER_CHANNEL_CAPACITY && w.inFlight.value.seg.Fragment?
    ensures Enabled(w, FindClosed) <==> !w.open
    ensures Enabled(w, GiveUp) <==> w.stop && w.inFlight.value.seg.Init?
    ensures !Enabled(w, Pop) && !Enabled(w, ForwarderStop)
    ensures Enabled(w, Send) ==> Apply(w, Send).delivered == w.delivered + [w.inFlight.value]
    ensures Enabled(w, Drop) ==> Apply(w, Drop).delivered == w.delivered && !Holding(Apply(w, Drop))
    ensures Enabled(w, FindClosed) ==> Apply(w, FindClosed).stop && !Apply(w, FindClosed).forwarding
  {
  }

  /** A stop is asked for from outside, or by a forwarder whose consumer is gone, or by a controller that failed,
      and by nothing else, and stays. */
  lemma StopExactly(w: World, s: Step)
    requires Enabled(w, s)
    ensures Apply(w, s).stop <==> w.stop || s == Stop || s == FindClosed || s == Fail || s == SpawnFails
    ensures Apply(w, s).open <==> w.open && s != Close
  {
    hide FeedChunk, EndOfStream, Unfinished, PushSegment;
  }

  /** Only the consumer takes out of the channel, the oldest first. */
  lemma ChannelIsQueue(w: World, s: Step)
    requires Enabled(w, s)
    ensures s == Receive ==> w.channel == [w.channel[0]] + Apply(w, s).channel
    ensures s != Receive ==> w.channel <= Apply(w, s).channel
  {
    hide FeedChunk, EndOfStream, Unfinished, PushSegment;
  }

  /** Registering a reader forgets exactly those that are done. */
  lemma {:induction false} UnfinishedExactly(readers: seq<Reader>, handles: seq<nat>, g: nat)
    requires g < |readers|
    ensures g in Unfinished(readers, handles) <==> g in handles && readers[g].phase != Done
  {
    if handles != [] {
      UnfinishedExactly(readers, handles[1..], g);
    }
  }

  /** Whoever will join the readers knows, after a spawn, the new one and all that were known and are not done. */
  lemma SpawnRegisters(w: World, g: nat)
    requires Enabled(w, Spawn) && g <= |w.readers|
    ensures g in Apply(w, Spawn).handles <==>
            g == |w.readers| || (g in w.handles && w.readers[g].phase != Done)
  {
    hide Unfinished;
    if g < |w.readers| {
      UnfinishedExactly(w.readers, w.handles, g);
    }
  }
}
