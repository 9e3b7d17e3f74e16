/** The invariant of the screen bridge and its preservation by every step. */
module BridgeInvariant {
  import opened Bytes
  import opened Segments
  import opened SegmentTheorems
  import opened Backpressure
  import opened Bridge

  predicate Precedes(a: Tagged, b: Tagged) {
    a.gen < b.gen || (a.gen == b.gen && a.idx < b.idx)
  }

  predicate HasInit(r: Reader) {
    r.produced != [] && r.produced[0].Init?
  }

  /** The segment really is what that reader produced there, and has been pushed. */
  predicate Sourced(t: Tagged, rs: seq<Reader>) {
    && t.gen < |rs|
    && t.idx < rs[t.gen].pushed
    && t.idx < |rs[t.gen].produced|
    && rs[t.gen].produced[t.idx] == t.seg
  }

  /** Where a generation with an init first shows up in `f`, it shows up with the init. */
  predicate HeadOk(f: seq<Tagged>, rs: seq<Reader>, i: nat)
    requires i < |f|
  {
    f[i].gen < |rs| && HasInit(rs[f[i].gen]) ==> f[i].idx == 0 || (i > 0 && f[i - 1].gen == f[i].gen)
  }

  ghost predicate Sorted(f: seq<Tagged>) {
    forall i, j :: 0 <= i < j < |f| ==> Precedes(f[i], f[j])
  }

  ghost predicate Good(f: seq<Tagged>, rs: seq<Reader>) {
    && Sorted(f)
    && (forall i :: 0 <= i < |f| ==> Sourced(f[i], rs))
    && (forall i :: 0 <= i < |f| ==> HeadOk(f, rs, i))
  }

  // ---------------------------------------------------------------------------
  // What keeps a flow good
  // ---------------------------------------------------------------------------

  lemma GoodPrefix(f: seq<Tagged>, rs: seq<Reader>, n: nat)
    requires Good(f, rs) && n <= |f|
    ensures Good(f[..n], rs)
  {
    forall i | 0 <= i < n ensures HeadOk(f[..n], rs, i) {
      assert HeadOk(f, rs, i);
    }
  }

  lemma GoodWithoutFragment(f: seq<Tagged>, rs: seq<Reader>, k: nat)
    requires Good(f, rs) && k < |f| && f[k].seg.Fragment?
    ensures Good(RemoveAt(f, k), rs)
  {
    var r := RemoveAt(f, k);
    forall i | 0 <= i < |r| ensures HeadOk(r, rs, i) {
      assert HeadOk(f, rs, if i < k then i else i + 1);
      assert HeadOk(f, rs, k);
      assert Sourced(f[k], rs);
    }
  }

  lemma GoodWithNext(f: seq<Tagged>, rs: seq<Reader>, t: Tagged)
    requires Good(f, rs) && Sourced(t, rs)
    requires forall i :: 0 <= i < |f| ==> Precedes(f[i], t)
    requires HasInit(rs[t.gen]) && t.idx > 0 ==> f != [] && f[|f| - 1].gen == t.gen
    ensures Good(f + [t], rs)
  {
    var f' := f + [t];
    forall i | 0 <= i < |f'| ensures HeadOk(f', rs, i) {
      if i < |f| {
        assert HeadOk(f, rs, i);
      }
    }
  }

  /** Readers only ever add to what they produced and pushed. */
  ghost predicate Grown(rs: seq<Reader>, rs': seq<Reader>) {
    && |rs| <= |rs'|
    && forall g :: 0 <= g < |rs| ==> rs[g].produced <= rs'[g].produced && rs[g].pushed <= rs'[g].pushed
  }

  lemma GoodGrown(f: seq<Tagged>, rs: seq<Reader>, rs': seq<Reader>)
    requires Good(f, rs) && Grown(rs, rs')
    ensures Good(f, rs')
  {
    forall i | 0 <= i < |f| ensures Sourced(f[i], rs') && HeadOk(f, rs', i) {
      assert Sourced(f[i], rs) && HeadOk(f, rs, i);
    }
  }

  // ---------------------------------------------------------------------------
  // Readers
  // ---------------------------------------------------------------------------

  ghost predicate InitOnlyFirst(segs: seq<Segment>) {
    forall i :: 0 < i < |segs| ==> segs[i].Fragment?
  }

  predicate Started(s: State) {
    s.asm.initEmitted || s.passthrough
  }

  /** What one segmenter call may emit: an init only before anything else, and never twice. */
  ghost predicate EmitsInOrder(s: State, s': State, out: seq<Segment>) {
    && InitOnlyFirst(out)
    && (Started(s) && out != [] ==> out[0].Fragment?)
    && (Started(s) || out != [] ==> Started(s'))
  }

  predicate Coherent(s: State) {
    s.asm.inFragment ==> s.asm.initEmitted
  }

  lemma {:induction false} DrainEmitsInOrder(s: State)
    requires !s.passthrough && Coherent(s)
    ensures EmitsInOrder(s, Drain(s).0, Drain(s).1) && Coherent(Drain(s).0)
    decreases |s.pending|
  {
    DrainStep(s);
    hide Drain, ScanBox, KindOf;
    if ScanBox(s.pending).Whole? {
      var n := ScanBox(s.pending).total;
      DrainEmitsInOrder(s.(pending := s.pending[n..], asm := AbsorbBox(s.asm, s.pending[..n]).0));
    }
  }

  lemma FeedEmitsInOrder(s: State, chunk: Bytes)
    requires Coherent(s)
    ensures EmitsInOrder(s, FeedChunk(s, chunk).0, FeedChunk(s, chunk).1) && Coherent(FeedChunk(s, chunk).0)
  {
    hide Drain;
    if !s.passthrough {
      DrainEmitsInOrder(s.(pending := s.pending + chunk));
    }
  }

  ghost predicate ReaderOk(r: Reader) {
    && r.pushed <= |r.produced|
    && InitOnlyFirst(r.produced)
    && (r.phase == Reading ==>
          && r.cutter == FeedAll(FRESH, r.chunks).0
          && r.produced == FeedAll(FRESH, r.chunks).1
          && Coherent(r.cutter)
          && (r.produced != [] ==> Started(r.cutter)))
    && (r.phase != Reading ==> r.produced == FeedAll(FRESH, r.chunks).1 || r.produced == Cut(r.chunks))
  }

  lemma ReadKeepsReader(r: Reader, chunk: Bytes)
    requires ReaderOk(r) && r.phase == Reading
    ensures var (cutter, out) := FeedChunk(r.cutter, chunk);
            ReaderOk(r.(chunks := r.chunks + [chunk], cutter := cutter, produced := r.produced + out))
  {
    FeedAllSnoc(FRESH, r.chunks, chunk);
    FeedEmitsInOrder(r.cutter, chunk);
    hide FeedAll, FeedChunk;
  }

  lemma EofKeepsReader(r: Reader)
    requires ReaderOk(r) && r.phase == Reading
    ensures var (cutter, out) := EndOfStream(r.cutter);
            ReaderOk(r.(cutter := cutter, produced := r.produced + out, phase := Ending))
  {
    hide FeedAll;
  }

  // ---------------------------------------------------------------------------
  // The invariant
  // ---------------------------------------------------------------------------

  /** Every segment that left the queue towards the consumer and was not dropped. */
  function Taken(w: World): seq<Tagged> {
    w.delivered + (if w.inFlight.Some? then [w.inFlight.value] else [])
  }

  /** Every segment accepted, held or queued, in the order the consumer would see it. */
  function Flow(w: World): seq<Tagged> {
    Taken(w) + w.queue
  }

  ghost predicate ReadersOk(rs: seq<Reader>) {
    && (forall g :: 0 <= g < |rs| ==> ReaderOk(rs[g]))
    && (forall g :: 0 <= g < |rs| - 1 ==> rs[g].phase == Done)
  }

  predicate NewestRuns(rs: seq<Reader>) {
    rs != [] && rs[|rs| - 1].phase != Done
  }

  /** The queue is bounded and holds only the newest generation. */
  ghost predicate QueueOk(w: World) {
    && |w.queue| <= OUTPUT_QUEUE_CAPACITY
    && (forall i :: 0 <= i < |w.queue| ==> w.queue[i].gen == |w.readers| - 1)
  }

  /** A live reader is always known to whoever will join it; past the join there is none. */
  predicate ControlOk(w: World) {
    match w.controller
    case Starting => w.readers == [] && w.queue == []
    case Running => NewestRuns(w.readers) ==> |w.readers| - 1 in w.handles
    case Joining(waiting) => NewestRuns(w.readers) ==> |w.readers| - 1 in waiting
    case Joined => !NewestRuns(w.readers)
    case Cleared => !NewestRuns(w.readers) && w.queue == []
    case Ended => true
  }

  /** While a reader lives, the init it has pushed (and all that follows) is not lost from the flow. */
  predicate TailOk(f: seq<Tagged>, rs: seq<Reader>) {
    NewestRuns(rs) && HasInit(rs[|rs| - 1]) && rs[|rs| - 1].pushed > 0 ==> f != [] && f[|f| - 1].gen == |rs| - 1
  }

  predicate ChannelOk(w: World) {
    && |w.channel| <= SERVER_CHANNEL_CAPACITY
    && |w.channel| <= |w.delivered|
    && w.channel == w.delivered[|w.delivered| - |w.channel|..]
  }

  ghost predicate Inv(w: World) {
    && ReadersOk(w.readers)
    && Good(Flow(w), w.readers)
    && QueueOk(w)
    && ControlOk(w)
    && TailOk(Flow(w), w.readers)
    && ChannelOk(w)
  }

  lemma ReaderGrowth(w: World, g: nat, r: Reader)
    requires Inv(w) && g < |w.readers| && ReaderOk(r)
    requires w.readers[g].produced <= r.produced && w.readers[g].pushed == r.pushed
    requires w.readers[g].phase != Done
    requires w.readers[g].produced != [] || r.pushed == 0
    ensures Inv(WithReader(w, g, r))
  {
    hide Good, ReadersOk, ReaderOk, Flow;
    var rs := w.readers[g := r];
    LiveReaderGrows(w.readers, g, r);
    GoodGrown(Flow(w), w.readers, rs);
    SameTaken(w, WithReader(w, g, r));
  }

  lemma SameTaken(w: World, v: World)
    requires v.delivered == w.delivered && v.inFlight == w.inFlight && v.queue == w.queue
    ensures Flow(v) == Flow(w)
  {
  }

  /** Only the newest reader lives, and it may grow. */
  lemma LiveReaderGrows(rs: seq<Reader>, g: nat, r: Reader)
    requires ReadersOk(rs) && g < |rs| && rs[g].phase != Done && ReaderOk(r)
    requires rs[g].produced <= r.produced && rs[g].pushed == r.pushed
    requires rs[g].produced != [] || r.pushed == 0
    ensures g == |rs| - 1 && ReadersOk(rs[g := r]) && Grown(rs, rs[g := r])
  {
    hide ReaderOk;
    assert ReaderOk(rs[g]);
    ReaderIsBounded(rs[g]);
  }

  lemma ReaderIsBounded(r: Reader)
    requires ReaderOk(r)
    ensures r.pushed <= |r.produced|
  {
    hide FeedAll, Cut;
  }

  lemma SecondIsFragment(w: World)
    requires Inv(w) && |w.queue| >= 2
    ensures IsFragment(w.queue[1])
  {
    var q, f := w.queue, Flow(w);
    var n := |f| - |q|;
    assert q[0] == f[n] && q[1] == f[n + 1];
    assert Sourced(f[n + 1], w.readers) && Precedes(f[n], f[n + 1]);
    assert ReaderOk(w.readers[q[1].gen]);
  }

  /** A full queue of one generation holds at most one init, so something is always evictable. */
  lemma NeverRejected(w: World, t: Tagged)
    requires Inv(w)
    ensures PushOr(w.queue, OUTPUT_QUEUE_CAPACITY, t, IsFragment).1.None?
  {
    if |w.queue| >= 2 {
      SecondIsFragment(w);
    }
  }

  /** Taking a fragment out never leaves the last generation of a flow without its init. */
  lemma LastSurvives(f: seq<Tagged>, rs: seq<Reader>, k: nat)
    requires Good(f, rs) && k < |f| && f[k].seg.Fragment?
    requires HasInit(rs[f[|f| - 1].gen])
    ensures RemoveAt(f, k) != [] && RemoveAt(f, k)[|f| - 2].gen == f[|f| - 1].gen
  {
    assert Sourced(f[|f| - 1], rs);
    assert HeadOk(f, rs, |f| - 1);
  }

  /** `t` may be pushed next: it is newer than all of the flow, and does not come without its init. */
  ghost predicate MayFollow(f: seq<Tagged>, rs: seq<Reader>, t: Tagged) {
    && Sourced(t, rs)
    && (forall i :: 0 <= i < |f| ==> Precedes(f[i], t))
    && (HasInit(rs[t.gen]) && t.idx > 0 ==> f != [] && f[|f| - 1].gen == t.gen)
  }

  lemma EvictThenPush(f: seq<Tagged>, rs: seq<Reader>, k: nat, t: Tagged)
    requires Good(f, rs) && k < |f| && f[k].seg.Fragment? && MayFollow(f, rs, t)
    ensures Good(RemoveAt(f, k) + [t], rs)
  {
    GoodWithoutFragment(f, rs, k);
    if HasInit(rs[t.gen]) && t.idx > 0 {
      LastSurvives(f, rs, k);
    }
    GoodWithNext(RemoveAt(f, k), rs, t);
  }

  lemma RemoveBehind(p: seq<Tagged>, q: seq<Tagged>, k: nat, t: Tagged)
    requires k < |q|
    ensures p + (RemoveAt(q, k) + [t]) == RemoveAt(p + q, |p| + k) + [t]
  {
  }

  lemma PushBehind(p: seq<Tagged>, q: seq<Tagged>, rs: seq<Reader>, t: Tagged)
    requires Good(p + q, rs) && MayFollow(p + q, rs, t)
    requires PushOr(q, OUTPUT_QUEUE_CAPACITY, t, IsFragment).1.None?
    ensures Good(p + PushSegment(q, t), rs)
    ensures PushSegment(q, t) != [] && PushSegment(q, t)[|PushSegment(q, t)| - 1] == t
  {
    hide Good, MayFollow, RemoveAt;
    if |q| < OUTPUT_QUEUE_CAPACITY {
      PushOnGood(p + q, rs, t);
      assert p + (q + [t]) == p + q + [t];
    } else {
      var k := Oldest(q, IsFragment);
      RemoveBehind(p, q, k, t);
      EvictThenPush(p + q, rs, |p| + k, t);
    }
  }

  lemma PushOnGood(f: seq<Tagged>, rs: seq<Reader>, t: Tagged)
    requires Good(f, rs) && MayFollow(f, rs, t)
    ensures Good(f + [t], rs)
  {
    GoodWithNext(f, rs, t);
  }

  function Bumped(r: Reader): Reader {
    r.(pushed := r.pushed + 1)
  }

  lemma PushReadersOk(rs: seq<Reader>)
    requires ReadersOk(rs) && rs != [] && rs[|rs| - 1].pushed < |rs[|rs| - 1].produced|
    ensures ReadersOk(rs[|rs| - 1 := Bumped(rs[|rs| - 1])])
  {
    hide FeedAll, Cut;
  }

  lemma PushFlowOk(w: World, g: nat)
    requires Inv(w) && Enabled(w, Push(g)) && g == |w.readers| - 1
    ensures Good(Flow(Apply(w, Push(g))), Apply(w, Push(g)).readers)
    ensures TailOk(Flow(Apply(w, Push(g))), Apply(w, Push(g)).readers)
  {
    var r := w.readers[g];
    var t := Tagged(g, r.pushed, r.produced[r.pushed]);
    var rs := w.readers[g := Bumped(r)];
    NeverRejected(w, t);
    assert Good(Flow(w), w.readers);
    GoodGrown(Flow(w), w.readers, rs);
    PushMayFollow(w, g);
    PushBehind(Taken(w), w.queue, rs, t);
    hide Good, PushOr, PushSegment, MayFollow;
    assert Flow(Apply(w, Push(g))) == Taken(w) + PushSegment(w.queue, t);
  }

  lemma PushedWorld(w: World, g: nat)
    requires Enabled(w, Push(g))
    ensures g < |w.readers| && w.readers[g].pushed < |w.readers[g].produced|
    ensures var r := w.readers[g];
            Apply(w, Push(g)) ==
            w.(readers := w.readers[g := r.(pushed := r.pushed + 1)],
               queue := PushSegment(w.queue, Tagged(g, r.pushed, r.produced[r.pushed])))
  {
    hide PushSegment;
  }

  lemma PushQueueOk(w: World, g: nat)
    requires QueueOk(w) && Enabled(w, Push(g)) && g == |w.readers| - 1
    ensures QueueOk(Apply(w, Push(g)))
  {
    hide Enabled, Apply, Protected;
    PushedWorld(w, g);
    var t := Tagged(g, w.readers[g].pushed, w.readers[g].produced[w.readers[g].pushed]);
    PushOrProtects(w.queue, OUTPUT_QUEUE_CAPACITY, t, IsFragment);
    PushedQueue(w.queue, t);
    var q := PushSegment(w.queue, t);
    forall i | 0 <= i < |q| ensures q[i].gen == g {
      assert q[i] in q;
    }
  }

  lemma PushKeepsInv(w: World, g: nat)
    requires Inv(w) && Enabled(w, Push(g))
    ensures Inv(Apply(w, Push(g)))
  {
    assert g == |w.readers| - 1;
    PushReadersOk(w.readers);
    PushFlowOk(w, g);
    PushQueueOk(w, g);
    hide Good, QueueOk, ReadersOk, TailOk, PushSegment;
  }

  /** A push adds nothing but the new segment. */
  lemma PushedQueue(q: seq<Tagged>, t: Tagged)
    ensures forall x <- PushSegment(q, t) :: x in q || x == t
  {
    var k := Oldest(q, IsFragment);
    if |q| >= OUTPUT_QUEUE_CAPACITY && k < |q| {
      assert RemoveAt(q, k) == q[..k] + q[k + 1..];
    }
  }

  lemma PushMayFollow(w: World, g: nat)
    requires Inv(w) && Enabled(w, Push(g)) && g == |w.readers| - 1
    ensures var r := w.readers[g];
            MayFollow(Flow(w), w.readers[g := Bumped(r)], Tagged(g, r.pushed, r.produced[r.pushed]))
  {
    var f := Flow(w);
    var r := w.readers[g];
    forall i | 0 <= i < |f| ensures Precedes(f[i], Tagged(g, r.pushed, r.produced[r.pushed])) {
      assert Sourced(f[i], w.readers);
    }
  }

  lemma ReaderKeepsInv(w: World, s: Step)
    requires Inv(w) && Enabled(w, s) && (s.Read? || s.Eof? || s.ReadError? || s.Exit?)
    ensures Inv(Apply(w, s))
  {
    var r := w.readers[s.g];
    assert ReaderOk(r);
    if s.Read? {
      ReadKeepsReader(r, s.chunk);
    } else if s.Eof? {
      EofKeepsReader(r);
    } else {
      assert ReaderOk(r.(phase := Done));
    }
    hide Inv, ReaderOk, FeedChunk, EndOfStream;
    ReaderGrowth(w, s.g, Apply(w, s).readers[s.g]);
  }

  lemma DropFromFlow(d: seq<Tagged>, x: Tagged, q: seq<Tagged>, rs: seq<Reader>)
    requires Good(d + [x] + q, rs) && x.seg.Fragment? && TailOk(d + [x] + q, rs)
    ensures Good(d + q, rs) && TailOk(d + q, rs)
  {
    var f, k := d + [x] + q, |d|;
    assert f[k] == x;
    GoodWithoutFragment(f, rs, k);
    assert RemoveAt(f, k) == d + q;
    if NewestRuns(rs) && HasInit(rs[|rs| - 1]) && rs[|rs| - 1].pushed > 0 {
      LastSurvives(f, rs, k);
    }
  }

  lemma DropKeepsInv(w: World)
    requires Inv(w) && Enabled(w, Drop)
    ensures Inv(Apply(w, Drop))
  {
    hide Good, ReadersOk, TailOk;
    var w' := Apply(w, Drop);
    DropFromFlow(w.delivered, w.inFlight.value, w.queue, w.readers);
    assert Flow(w') == w.delivered + w.queue;
  }

  lemma SameFlow(w: World, s: Step)
    requires Enabled(w, s)
    requires s.Pop? || s.Send? || s.GiveUp? || s.FindClosed? || s.ForwarderStop? || s.Receive? || s.Close? || s.Stop?
    ensures Flow(Apply(w, s)) == Flow(w)
  {
  }

  lemma ForwarderKeepsInv(w: World, s: Step)
    requires Inv(w) && Enabled(w, s)
    requires s.Pop? || s.Send? || s.GiveUp? || s.FindClosed? || s.ForwarderStop? || s.Receive? || s.Close? || s.Stop?
    ensures Inv(Apply(w, s))
  {
    hide Good, ReadersOk, TailOk, Flow;
    SameFlow(w, s);
  }

  lemma ClearedWorld(w: World)
    requires Enabled(w, Clear)
    ensures w.controller.Joined? && Apply(w, Clear) == w.(queue := [], controller := Cleared)
  {
  }

  lemma ClearKeepsInv(w: World)
    requires Inv(w) && Enabled(w, Clear)
    ensures Inv(Apply(w, Clear))
  {
    hide Enabled, Apply, Good, ReadersOk;
    ClearedWorld(w);
    GoodPrefix(Flow(w), w.readers, |Taken(w)|);
    assert Flow(Apply(w, Clear)) == Flow(w)[..|Taken(w)|];
  }

  lemma NewReadersOk(rs: seq<Reader>, phase: ReaderPhase)
    requires ReadersOk(rs) && !NewestRuns(rs)
    ensures ReadersOk(rs + [Reader([], FRESH, [], 0, phase)])
  {
    assert FeedAll(FRESH, []) == (FRESH, []);
    assert ReaderOk(Reader([], FRESH, [], 0, phase));
  }

  lemma SpawnedWorld(w: World, s: Step)
    requires Enabled(w, s) && (s.Spawn? || s.SpawnWithoutReader?)
    ensures w.controller.Starting? || w.controller.Cleared?
    ensures Apply(w, s) ==
            w.(readers := w.readers + [Reader([], FRESH, [], 0, if s.Spawn? then Reading else Done)],
               handles := if s.Spawn? then Unfinished(w.readers, w.handles) + [|w.readers|] else w.handles,
               controller := Running)
  {
    hide Unfinished;
  }

  lemma SpawnKeepsInv(w: World, s: Step)
    requires Inv(w) && Enabled(w, s) && (s.Spawn? || s.SpawnWithoutReader?)
    ensures Inv(Apply(w, s))
  {
    hide Enabled, Apply, Good, ReadersOk, Unfinished;
    SpawnedWorld(w, s);
    var v := Apply(w, s);
    assert Flow(v) == Flow(w);
    GoodGrown(Flow(w), w.readers, v.readers);
    NewReadersOk(w.readers, if s.Spawn? then Reading else Done);
  }

  lemma ControllerKeepsInv(w: World, s: Step)
    requires Inv(w) && Enabled(w, s)
    requires s.SpawnFails? || s.BeginRestart? || s.Join? || s.Fail? || s.Teardown?
    ensures Inv(Apply(w, s))
  {
    hide Good, ReadersOk, TailOk;
    assert Flow(Apply(w, s)) == Flow(w);
  }

  lemma StepKeepsInv(w: World, s: Step)
    requires Inv(w) && Enabled(w, s)
    ensures Inv(Apply(w, s))
  {
    hide Inv, Apply;
    match s
    case Read(_, _) => ReaderKeepsInv(w, s);
    case Eof(_) => ReaderKeepsInv(w, s);
    case ReadError(_) => ReaderKeepsInv(w, s);
    case Exit(_) => ReaderKeepsInv(w, s);
    case Push(g) => PushKeepsInv(w, g);
    case Drop => DropKeepsInv(w);
    case Clear => ClearKeepsInv(w);
    case Spawn => SpawnKeepsInv(w, s);
    case SpawnWithoutReader => SpawnKeepsInv(w, s);
    case SpawnFails => ControllerKeepsInv(w, s);
    case BeginRestart => ControllerKeepsInv(w, s);
    case Join => ControllerKeepsInv(w, s);
    case Fail => ControllerKeepsInv(w, s);
    case Teardown => ControllerKeepsInv(w, s);
    case _ => ForwarderKeepsInv(w, s);
  }

  lemma {:induction false} InvAlong(w: World, steps: seq<Step>)
    requires Inv(w) && Legal(w, steps)
    ensures Inv(Exec(w, steps))
    decreases steps
  {
    hide Inv, Enabled, Apply;
    if steps != [] {
      StepKeepsInv(w, steps[0]);
      InvAlong(Apply(w, steps[0]), steps[1..]);
    }
  }

  /** The invariant holds at every state of every run. */
  lemma InvOnEveryRun(steps: seq<Step>)
    requires Legal(START, steps)
    ensures Inv(Exec(START, steps))
  {
    assert Inv(START);
    InvAlong(START, steps);
  }
}
