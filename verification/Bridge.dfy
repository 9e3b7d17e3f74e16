/** Model of src/screen/bridge: reader, forwarder, consumer and controller as one interleaved step system.
    Every shared-queue and channel operation is atomic, so each is one step. */
module Bridge {
  import opened Bytes
  import opened Segments
  import opened Backpressure

  const OUTPUT_QUEUE_CAPACITY: nat := 8
  const SERVER_CHANNEL_CAPACITY: nat := 8
  const STDOUT_CHUNK: nat := 64 * 1024

  /** A segment with its provenance: the `idx`-th one produced by encoder generation `gen`. */
  datatype Tagged = Tagged(gen: nat, idx: nat, seg: Segment)

  datatype ReaderPhase = Reading | Ending | Done

  /** One stdout reader thread: what it has read, what its segmenter produced, how much of it is pushed. */
  datatype Reader = Reader(chunks: seq<Bytes>, cutter: State, produced: seq<Segment>, pushed: nat, phase: ReaderPhase)

  /** Where the controller thread is; `Joining` holds the reader handles it drained. */
  datatype Controller = Starting | Running | Joining(waiting: seq<nat>) | Joined | Cleared | Ended

  /** `readers[g]` is generation g's reader. `delivered` is everything the channel ever accepted,
      `channel` the part the consumer has not taken yet. A stopped forwarder keeps what it abandoned in
      `inFlight`; it can no longer send it. */
  datatype World = World(
    readers: seq<Reader>,
    handles: seq<nat>,
    queue: seq<Tagged>,
    inFlight: Option<Tagged>,
    forwarding: bool,
    delivered: seq<Tagged>,
    channel: seq<Tagged>,
    open: bool,
    stop: bool,
    dropped: nat,
    controller: Controller)

  const START: World := World([], [], [], None, true, [], [], true, false, 0, Starting)

  datatype Step =
    | Read(g: nat, chunk: Bytes) | Eof(g: nat) | ReadError(g: nat) | Push(g: nat) | Exit(g: nat)
    | Pop | Send | Drop | GiveUp | FindClosed | ForwarderStop
    | Receive | Close
    | Spawn | SpawnWithoutReader | SpawnFails
    | BeginRestart | Join | Clear | Fail | Teardown
    | Stop

  /** What the queue may give up: fragments, never an init. */
  predicate Evictable(s: Segment) {
    s.Fragment?
  }

  predicate IsFragment(t: Tagged) {
    Evictable(t.seg)
  }

  /** The output-queue push of the reader: only fragments may be evicted; a rejected segment is dropped. */
  function PushSegment(queue: seq<Tagged>, t: Tagged): seq<Tagged> {
    PushOr(queue, OUTPUT_QUEUE_CAPACITY, t, IsFragment).0
  }

  predicate ReaderReady(w: World, g: nat, phase: ReaderPhase) {
    g < |w.readers| && w.readers[g].phase == phase && w.readers[g].pushed == |w.readers[g].produced|
  }

  predicate ChannelFull(w: World) {
    w.open && |w.channel| >= SERVER_CHANNEL_CAPACITY
  }

  predicate Holding(w: World) {
    w.forwarding && w.inFlight.Some?
  }

  predicate AllDone(w: World, gens: seq<nat>) {
    forall g <- gens :: g < |w.readers| ==> w.readers[g].phase == Done
  }

  predicate Enabled(w: World, s: Step) {
    match s
    case Read(g, chunk) => ReaderReady(w, g, Reading) && 0 < |chunk| <= STDOUT_CHUNK
    case Eof(g) => ReaderReady(w, g, Reading)
    case ReadError(g) => ReaderReady(w, g, Reading)
    case Push(g) => g < |w.readers| && w.readers[g].phase != Done && w.readers[g].pushed < |w.readers[g].produced|
    case Exit(g) => ReaderReady(w, g, Ending)
    case Pop => w.forwarding && w.inFlight.None? && w.queue != []
    case Send => Holding(w) && w.open && !ChannelFull(w)
    case Drop => Holding(w) && ChannelFull(w) && w.inFlight.value.seg.Fragment?
    case GiveUp => Holding(w) && w.inFlight.value.seg.Init? && w.stop
    case FindClosed => Holding(w) && !w.open
    case ForwarderStop => w.forwarding && w.inFlight.None? && w.stop
    case Receive => w.open && w.channel != []
    case Close => w.open
    case Spawn => w.controller.Starting? || w.controller.Cleared?
    case SpawnWithoutReader => w.controller.Starting? || w.controller.Cleared?
    case SpawnFails => w.controller.Starting? || w.controller.Cleared?
    case BeginRestart => w.controller.Running?
    case Join => w.controller.Joining? && AllDone(w, w.controller.waiting)
    case Clear => w.controller.Joined?
    case Fail => w.controller.Running?
    case Teardown => w.controller.Running?
    case Stop => true
  }

  function WithReader(w: World, g: nat, r: Reader): World
    requires g < |w.readers|
  {
    w.(readers := w.readers[g := r])
  }

  /** `register_reader`: finished readers are reaped before the new handle is added. */
  function Unfinished(readers: seq<Reader>, handles: seq<nat>): seq<nat> {
    if handles == [] then []
    else (if handles[0] < |readers| && readers[handles[0]].phase == Done then [] else [handles[0]])
         + Unfinished(readers, handles[1..])
  }

  function Apply(w: World, s: Step): World
    requires Enabled(w, s)
  {
    match s
    case Read(g, chunk) =>
      var r := w.readers[g];
      var (cutter, out) := FeedChunk(r.cutter, chunk);
      WithReader(w, g, r.(chunks := r.chunks + [chunk], cutter := cutter, produced := r.produced + out))
    case Eof(g) =>
      var r := w.readers[g];
      var (cutter, out) := EndOfStream(r.cutter);
      WithReader(w, g, r.(cutter := cutter, produced := r.produced + out, phase := Ending))
    case ReadError(g) => WithReader(w, g, w.readers[g].(phase := Done))
    case Push(g) =>
      var r := w.readers[g];
      WithReader(w, g, r.(pushed := r.pushed + 1))
        .(queue := PushSegment(w.queue, Tagged(g, r.pushed, r.produced[r.pushed])))
    case Exit(g) => WithReader(w, g, w.readers[g].(phase := Done))
    case Pop => w.(inFlight := Some(w.queue[0]), queue := w.queue[1..])
    case Send =>
      w.(inFlight := None, delivered := w.delivered + [w.inFlight.value], channel := w.channel + [w.inFlight.value])
    case Drop => w.(inFlight := None, dropped := w.dropped + 1)
    case GiveUp => w.(forwarding := false)
    case FindClosed => w.(forwarding := false, stop := true)
    case ForwarderStop => w.(forwarding := false)
    case Receive => w.(channel := w.channel[1..])
    case Close => w.(open := false)
    case Spawn =>
      w.(readers := w.readers + [Reader([], FRESH, [], 0, Reading)],
         handles := Unfinished(w.readers, w.handles) + [|w.readers|],
         controller := Running)
    case SpawnWithoutReader =>
      w.(readers := w.readers + [Reader([], FRESH, [], 0, Done)], controller := Running)
    case SpawnFails => w.(controller := Ended, stop := true)
    case BeginRestart => w.(controller := Joining(w.handles), handles := [])
    case Join => w.(controller := Joined)
    case Clear => w.(queue := [], controller := Cleared)
    case Fail => w.(controller := Ended, stop := true)
    case Teardown => w.(controller := Ended)
    case Stop => w.(stop := true)
  }

  predicate Legal(w: World, steps: seq<Step>)
    decreases steps
  {
    steps == [] || (Enabled(w, steps[0]) && Legal(Apply(w, steps[0]), steps[1..]))
  }

  function Exec(w: World, steps: seq<Step>): World
    requires Legal(w, steps)
    decreases steps
  {
    if steps == [] then w else Exec(Apply(w, steps[0]), steps[1..])
  }

  /** What the consumer has taken out of the channel. */
  function Received(w: World): seq<Tagged> {
    if |w.channel| <= |w.delivered| then w.delivered[..|w.delivered| - |w.channel|] else []
  }
}
