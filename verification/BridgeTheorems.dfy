/** What the consumer of the screen bridge can ever see. */
module BridgeTheorems {
  import opened Bytes
  import opened Segments
  import opened SegmentTheorems
  import opened Bridge
  import opened BridgeInvariant

  // ---------------------------------------------------------------------------
  // Order, provenance, and the init first
  // ---------------------------------------------------------------------------

  /** The segments of one generation, in the order they appear. */
  function Part(f: seq<Tagged>, g: nat): seq<Segment> {
    if f == [] then []
    else Part(f[..|f| - 1], g) + (if f[|f| - 1].gen == g then [f[|f| - 1].seg] else [])
  }

  function Indices(f: seq<Tagged>, g: nat): seq<nat> {
    if f == [] then []
    else Indices(f[..|f| - 1], g) + (if f[|f| - 1].gen == g then [f[|f| - 1].idx] else [])
  }

  ghost predicate Embeds(at: seq<nat>, xs: seq<Segment>, ys: seq<Segment>) {
    && |at| == |xs|
    && (forall i, j :: 0 <= i < j < |at| ==> at[i] < at[j])
    && (forall i :: 0 <= i < |at| ==> at[i] < |ys| && xs[i] == ys[at[i]])
  }

  ghost predicate Subsequence(xs: seq<Segment>, ys: seq<Segment>) {
    exists at :: Embeds(at, xs, ys)
  }

  lemma {:induction false} IndicesBelow(f: seq<Tagged>, g: nat, t: Tagged)
    requires t.gen == g && forall i :: 0 <= i < |f| ==> Precedes(f[i], t)
    ensures forall i :: 0 <= i < |Indices(f, g)| ==> Indices(f, g)[i] < t.idx
  {
    if f != [] {
      IndicesBelow(f[..|f| - 1], g, t);
    }
  }

  lemma {:induction false} PartEmbeds(f: seq<Tagged>, rs: seq<Reader>, g: nat)
    requires Good(f, rs) && g < |rs|
    ensures Embeds(Indices(f, g), Part(f, g), rs[g].produced)
  {
    if f != [] {
      var n := |f| - 1;
      GoodPrefix(f, rs, n);
      PartEmbeds(f[..n], rs, g);
      assert Sourced(f[n], rs);
      if f[n].gen == g {
        IndicesBelow(f[..n], g, f[n]);
      }
    }
  }

  lemma {:induction false} EmptyPart(f: seq<Tagged>, g: nat)
    requires Part(f, g) == []
    ensures forall i :: 0 <= i < |f| ==> f[i].gen != g
  {
    if f != [] {
      EmptyPart(f[..|f| - 1], g);
    }
  }

  lemma {:induction false} PartStartsWithInit(f: seq<Tagged>, rs: seq<Reader>, g: nat)
    requires Good(f, rs) && g < |rs| && HasInit(rs[g]) && Part(f, g) != []
    ensures Part(f, g)[0] == rs[g].produced[0]
  {
    var n := |f| - 1;
    GoodPrefix(f, rs, n);
    if Part(f[..n], g) != [] {
      PartStartsWithInit(f[..n], rs, g);
    } else {
      EmptyPart(f[..n], g);
      assert f[n].gen == g;
      assert HeadOk(f, rs, n) && Sourced(f[n], rs);
    }
  }

  lemma ReceivedIsGood(w: World)
    requires Inv(w)
    ensures Good(Received(w), w.readers)
  {
    var n := |w.delivered| - |w.channel|;
    GoodPrefix(Flow(w), w.readers, n);
    assert Flow(w)[..n] == Received(w);
  }

  /** Under every interleaving: generations in order, each generation's part a subsequence of what its
      segmenter produced from what it read, which holds an init at most as its first, and the init first
      wherever there is one. */
  lemma ConsumerView(steps: seq<Step>)
    requires Legal(START, steps)
    ensures var w := Exec(START, steps);
            var got := Received(w);
            && (forall i, j :: 0 <= i < j < |got| ==> got[i].gen <= got[j].gen)
            && (forall i :: 0 <= i < |got| ==> got[i].gen < |w.readers|)
            && (forall g :: 0 <= g < |w.readers| ==>
                  var r := w.readers[g];
                  && (r.produced == FeedAll(FRESH, r.chunks).1 || r.produced == Cut(r.chunks))
                  && InitOnlyFirst(r.produced)
                  && Subsequence(Part(got, g), r.produced)
                  && (HasInit(r) && Part(got, g) != [] ==> Part(got, g)[0] == r.produced[0]))
  {
    var w := Exec(START, steps);
    InvOnEveryRun(steps);
    ReceivedIsGood(w);
    var got := Received(w);
    forall i, j | 0 <= i < j < |got| ensures got[i].gen <= got[j].gen {
      assert Precedes(got[i], got[j]);
    }
    forall i | 0 <= i < |got| ensures got[i].gen < |w.readers| {
      assert Sourced(got[i], w.readers);
    }
    forall g | 0 <= g < |w.readers|
      ensures var r := w.readers[g];
              && (r.produced == FeedAll(FRESH, r.chunks).1 || r.produced == Cut(r.chunks))
              && InitOnlyFirst(r.produced)
              && Subsequence(Part(got, g), r.produced)
              && (HasInit(r) && Part(got, g) != [] ==> Part(got, g)[0] == r.produced[0])
    {
      GenerationView(w, got, g);
    }
  }

  lemma GenerationView(w: World, got: seq<Tagged>, g: nat)
    requires Inv(w) && Good(got, w.readers) && g < |w.readers|
    ensures var r := w.readers[g];
            && (r.produced == FeedAll(FRESH, r.chunks).1 || r.produced == Cut(r.chunks))
            && InitOnlyFirst(r.produced)
            && Subsequence(Part(got, g), r.produced)
            && (HasInit(r) && Part(got, g) != [] ==> Part(got, g)[0] == r.produced[0])
  {
    assert ReaderOk(w.readers[g]);
    PartEmbeds(got, w.readers, g);
    if HasInit(w.readers[g]) && Part(got, g) != [] {
      PartStartsWithInit(got, w.readers, g);
    }
    hide Good, FeedAll, Cut, Part;
  }

  // ---------------------------------------------------------------------------
  // Whole boxes only
  // ---------------------------------------------------------------------------

  /** The bytes are a concatenation of whole boxes. */
  predicate Clean(b: Bytes) {
    ParseBoxes(b).rest == [] && !ParseBoxes(b).malformed
  }

  /** They are, and the first box is a `moof`. */
  predicate MoofLed(b: Bytes) {
    Clean(b) && ParseBoxes(b).boxes != [] && KindOf(ParseBoxes(b).boxes[0]) == Moof
  }

  ghost predicate BoxSegment(s: Segment) {
    Clean(s.bytes) && (s.Fragment? ==> MoofLed(s.bytes))
  }

  ghost predicate AllWhole(bs: seq<Box>) {
    forall i :: 0 <= i < |bs| ==> WholeBox(bs[i])
  }

  lemma SliceIsClean(bs: seq<Box>, i: nat, j: nat)
    requires AllWhole(bs) && i <= j <= |bs|
    ensures Clean(Flatten(bs[i..j]))
    ensures i < j && KindOf(bs[i]) == Moof ==> MoofLed(Flatten(bs[i..j]))
  {
    ReparseBoxes(bs[i..j]);
    hide ParseBoxes;
  }

  lemma {:induction false} FragmentsAreBoxes(bs: seq<Box>, i: nat)
    requires AllWhole(bs) && i <= |bs|
    ensures forall s <- Fragments(bs, i) :: BoxSegment(s)
    decreases |bs| - i
  {
    FragmentsAtEnd(bs);
    hide Fragments, FragmentFrom, KindOf, WholeBox, BoxSegment;
    if i < |bs| {
      TiledStep(bs, i);
      var k := NextMoof(bs, i);
      if k < |bs| {
        var e := FragmentEnd(bs, k + 1);
        if e.Some? {
          FragmentIsBoxes(bs, k, e.value);
          FragmentsAreBoxes(bs, e.value);
        }
      }
    }
  }

  lemma FragmentIsBoxes(bs: seq<Box>, k: nat, e: nat)
    requires AllWhole(bs) && k < e <= |bs| && KindOf(bs[k]) == Moof
    ensures BoxSegment(Fragment(Flatten(bs[k..e])))
  {
    SliceIsClean(bs, k, e);
  }

  lemma GroupIsBoxes(bs: seq<Box>)
    requires AllWhole(bs)
    ensures forall s <- Group(bs) :: BoxSegment(s)
  {
    var k := NextMoof(bs, 0);
    FragmentsAreBoxes(bs, k);
    SliceIsClean(bs, 0, k);
    assert bs[..k] == bs[0..k];
    hide Fragments, NextMoof, Clean, MoofLed;
  }

  lemma {:induction false} CleanConcat(a: Bytes, b: Bytes)
    requires Clean(a) && Clean(b)
    ensures Clean(a + b)
  {
    ParseConserves(a);
    ParseConserves(b);
    var x, y := ParseBoxes(a).boxes, ParseBoxes(b).boxes;
    hide ParseBoxes;
    ReparseBoxes(x + y);
    FlattenConcat(x, y);
    assert Flatten(x) == a && Flatten(y) == b;
  }

  lemma {:induction false} PayloadIsClean(segs: seq<Segment>)
    requires forall s <- segs :: BoxSegment(s)
    ensures Clean(Payload(segs))
  {
    if segs != [] {
      assert BoxSegment(segs[0]);
      PayloadIsClean(segs[1..]);
      CleanConcat(segs[0].bytes, Payload(segs[1..]));
    }
  }

  /** Once a generation has reached its first `moof`, and while its stream parses, whatever was evicted or
      dropped: its received bytes are whole boxes, every fragment among them starts with `moof`, and if it
      has an init, exactly the boxes before the first `moof` come first. */
  lemma ConsumerGetsWholeBoxes(steps: seq<Step>, g: nat)
    requires Legal(START, steps) && g < |Exec(START, steps).readers|
    requires var p := ParseBoxes(Flatten(Exec(START, steps).readers[g].chunks));
             !p.malformed && NextMoof(p.boxes, 0) < |p.boxes|
    ensures var w := Exec(START, steps);
            var part := Part(Received(w), g);
            var boxes := ParseBoxes(Flatten(w.readers[g].chunks)).boxes;
            var k := NextMoof(boxes, 0);
            && Clean(Payload(part))
            && (forall s <- part :: s.Fragment? ==> MoofLed(s.bytes))
            && (k > 0 && part != [] ==> part[0] == Init(Flatten(boxes[..k])))
  {
    var w := Exec(START, steps);
    InvOnEveryRun(steps);
    ReceivedIsGood(w);
    PartOfParsedGeneration(w, g);
  }

  lemma PartOfParsedGeneration(w: World, g: nat)
    requires Inv(w) && g < |w.readers| && Good(Received(w), w.readers)
    requires var p := ParseBoxes(Flatten(w.readers[g].chunks)); !p.malformed && NextMoof(p.boxes, 0) < |p.boxes|
    ensures var part := Part(Received(w), g);
            var boxes := ParseBoxes(Flatten(w.readers[g].chunks)).boxes;
            var k := NextMoof(boxes, 0);
            && Clean(Payload(part))
            && (forall s <- part :: s.Fragment? ==> MoofLed(s.bytes))
            && (k > 0 && part != [] ==> part[0] == Init(Flatten(boxes[..k])))
  {
    var r := w.readers[g];
    var boxes := ParseBoxes(Flatten(r.chunks)).boxes;
    var part := Part(Received(w), g);
    GenerationView(w, Received(w), g);
    SegmenterIsBatch(r.chunks);
    ParseConserves(Flatten(r.chunks));
    GroupIsBoxes(boxes);
    hide Inv, Good, ParseBoxes, Part, Received, FeedAll, NextMoof, Fragments, Cut;
    assert r.produced == Group(boxes);
    SubsequenceOfBoxes(part, r.produced);
    PayloadIsClean(part);
    if NextMoof(boxes, 0) > 0 {
      assert HasInit(r) && r.produced[0] == Init(Flatten(boxes[..NextMoof(boxes, 0)]));
    }
  }

  lemma SubsequenceOfBoxes(part: seq<Segment>, all: seq<Segment>)
    requires Subsequence(part, all) && forall s <- all :: BoxSegment(s)
    ensures forall s <- part :: BoxSegment(s)
  {
    hide BoxSegment;
    var at :| Embeds(at, part, all);
    forall i | 0 <= i < |part| ensures BoxSegment(part[i]) {
      assert part[i] == all[at[i]];
    }
  }

  // ---------------------------------------------------------------------------
  // What a restart can leave behind
  // ---------------------------------------------------------------------------

  /** What the channel may still accept from before the restart at `w`: nothing but the segment in the
      forwarder's hands. */
  ghost predicate OnlyHeldIsStale(w: World, v: World) {
    var n, g := |w.delivered|, |w.readers|;
    && w.delivered <= v.delivered
    && g < |v.readers|
    && (v.open ==> w.open)
    && (forall i :: n <= i < |v.delivered| && v.delivered[i].gen < g ==>
          i == n && Holding(w) && w.open && v.delivered[i] == w.inFlight.value)
    && (Holding(v) && v.inFlight.value.gen < g ==>
          Holding(w) && v.inFlight == w.inFlight && |v.delivered| == n)
  }

  lemma StaleReaderStep(w: World, v: World, s: Step)
    requires s.Read? || s.Eof? || s.ReadError? || s.Push? || s.Exit?
    requires Enabled(v, s) && OnlyHeldIsStale(w, v)
    ensures OnlyHeldIsStale(w, Apply(v, s))
  {
    hide FeedChunk, EndOfStream, PushSegment;
  }

  lemma StaleForwarderStep(w: World, v: World, s: Step)
    requires s.Pop? || s.Send? || s.Drop? || s.GiveUp? || s.FindClosed? || s.ForwarderStop?
    requires QueueOk(v) && Enabled(v, s) && OnlyHeldIsStale(w, v)
    ensures OnlyHeldIsStale(w, Apply(v, s))
  {
    assert s.Pop? ==> v.queue[0].gen == |v.readers| - 1;
  }

  lemma StaleControlStep(w: World, v: World, s: Step)
    requires s.Receive? || s.Close? || s.Spawn? || s.SpawnWithoutReader? || s.SpawnFails? || s.BeginRestart?
             || s.Join? || s.Clear? || s.Fail? || s.Teardown? || s.Stop?
    requires Enabled(v, s) && OnlyHeldIsStale(w, v)
    ensures OnlyHeldIsStale(w, Apply(v, s))
  {
    hide Unfinished, AllDone;
  }

  lemma StaleStep(w: World, v: World, s: Step)
    requires Inv(v) && Enabled(v, s) && OnlyHeldIsStale(w, v)
    ensures OnlyHeldIsStale(w, Apply(v, s))
  {
    hide Enabled, Apply, OnlyHeldIsStale, Good, ReadersOk, ControlOk;
    if s.Read? || s.Eof? || s.ReadError? || s.Push? || s.Exit? {
      StaleReaderStep(w, v, s);
    } else if s.Pop? || s.Send? || s.Drop? || s.GiveUp? || s.FindClosed? || s.ForwarderStop? {
      StaleForwarderStep(w, v, s);
    } else {
      StaleControlStep(w, v, s);
    }
  }

  lemma {:induction false} StaleAlong(w: World, v: World, steps: seq<Step>)
    requires Inv(v) && OnlyHeldIsStale(w, v) && Legal(v, steps)
    ensures OnlyHeldIsStale(w, Exec(v, steps))
    decreases steps
  {
    hide Inv, Enabled, Apply, OnlyHeldIsStale;
    if steps != [] {
      StaleStep(w, v, steps[0]);
      StepKeepsInv(v, steps[0]);
      StaleAlong(w, Apply(v, steps[0]), steps[1..]);
    }
  }

  /** What the consumer has taken only grows, and not at all once it is gone. */
  ghost predicate ReceivesMore(w: World, v: World) {
    && Received(w) <= Received(v)
    && (v.open ==> w.open)
    && (!w.open ==> Received(v) == Received(w))
  }

  lemma ReceiveStep(w: World, v: World, s: Step)
    requires ChannelOk(v) && Enabled(v, s) && ReceivesMore(w, v)
    ensures ReceivesMore(w, Apply(v, s))
  {
    hide FeedChunk, EndOfStream, PushSegment, Unfinished;
    if s.Send? {
      assert Received(Apply(v, s)) == Received(v);
    }
  }

  lemma {:induction false} ReceivesAlong(w: World, v: World, steps: seq<Step>)
    requires Inv(v) && ReceivesMore(w, v) && Legal(v, steps)
    ensures ReceivesMore(w, Exec(v, steps))
    decreases steps
  {
    if steps != [] {
      ReceiveStep(w, v, steps[0]);
      StepKeepsInv(v, steps[0]);
      ReceivesAlong(w, Apply(v, steps[0]), steps[1..]);
    }
    hide Inv, Enabled, Apply, ReceivesMore;
  }

  /** What is on its way to the consumer past the queue: the channel, then the segment in the forwarder's hands. */
  function Underway(w: World): seq<Tagged> {
    w.channel + if Holding(w) then [w.inFlight.value] else []
  }

  /** Of the older generations the consumer receives, after the restart at `w`, nothing but what was underway:
      each such segment comes at its place there, so at most the channel and one more. */
  lemma OldOnesWereUnderway(w: World, more: seq<Step>)
    requires Inv(w) && w.controller.Cleared? && Legal(Apply(w, Spawn), more)
    ensures var n, got := |Received(w)|, Received(Exec(Apply(w, Spawn), more));
            && Received(w) <= got
            && (forall i :: n <= i < |got| && got[i].gen < |w.readers| ==>
                  w.open && i - n < |Underway(w)| && got[i] == Underway(w)[i - n])
  {
    var u := Apply(w, Spawn);
    OnlyStaleIsHeld(w, more);
    StepKeepsInv(w, Spawn);
    assert Received(u) == Received(w);
    ReceivesAlong(w, u, more);
    InvAlong(u, more);
    UnderwayAt(w, Exec(u, more));
  }

  lemma UnderwayAt(w: World, v: World)
    requires ChannelOk(w) && ChannelOk(v) && OnlyHeldIsStale(w, v) && ReceivesMore(w, v)
    ensures var n, got := |Received(w)|, Received(v);
            forall i :: n <= i < |got| && got[i].gen < |w.readers| ==>
              w.open && i - n < |Underway(w)| && got[i] == Underway(w)[i - n]
  {
    var n, got := |Received(w)|, Received(v);
    forall i | n <= i < |got| && got[i].gen < |w.readers|
      ensures w.open && i - n < |Underway(w)| && got[i] == Underway(w)[i - n]
    {
      assert got[i] == v.delivered[i];
      if i < |w.delivered| {
        assert v.delivered[i] == w.delivered[i] == w.channel[i - n];
      }
    }
  }

  /** A run after the restart at `w` lets the consumer receive an init of an older generation. */
  ghost predicate StaleInitFollows(w: World, steps: seq<Step>)
    requires Enabled(w, Spawn) && Legal(Apply(w, Spawn), steps)
  {
    var got := Received(Exec(Apply(w, Spawn), steps));
    exists i :: |Received(w)| <= i < |got| && got[i].gen < |w.readers| && got[i].seg.Init?
  }

  ghost predicate StaleInitPossible(w: World)
    requires Enabled(w, Spawn)
  {
    exists steps :: Legal(Apply(w, Spawn), steps) && StaleInitFollows(w, steps)
  }

  /** There is a consumer, and an init in the channel or in the forwarder's hands. */
  ghost predicate InitUnderway(w: World) {
    w.open && exists t <- Underway(w) :: t.seg.Init?
  }

  /** A patient consumer takes `n` segments out of the channel. */
  lemma {:induction false} TakeFromChannel(v: World, n: nat) returns (steps: seq<Step>)
    requires v.open && n <= |v.channel|
    ensures Legal(v, steps) && Exec(v, steps) == v.(channel := v.channel[n..])
  {
    hide Apply, Enabled;
    if n == 0 {
      steps := [];
      assert v.channel[0..] == v.channel;
    } else {
      steps := TakeFromChannel(v, n - 1);
      var u := Exec(v, steps);
      TakeOne(u);
      ExecSnoc(v, steps, Receive);
      steps := steps + [Receive];
      assert u.channel[1..] == v.channel[n..];
    }
  }

  lemma TakeOne(v: World)
    requires v.open && v.channel != []
    ensures Enabled(v, Receive) && Apply(v, Receive) == v.(channel := v.channel[1..])
  {
  }

  lemma HandOver(v: World)
    requires v.open && v.channel == [] && Holding(v)
    ensures Enabled(v, Send) && Enabled(Apply(v, Send), Receive)
    ensures var x := Apply(Apply(v, Send), Receive);
            x.channel == [] && x.delivered == v.delivered + [v.inFlight.value]
  {
  }

  /** All that is underway when the restart happens can be received. */
  lemma ReceiveUnderway(w: World) returns (steps: seq<Step>)
    requires ChannelOk(w) && Enabled(w, Spawn) && w.open
    ensures Legal(Apply(w, Spawn), steps)
    ensures Received(Exec(Apply(w, Spawn), steps)) == Received(w) + Underway(w)
  {
    var u := Apply(w, Spawn);
    assert u.channel == w.channel && u.delivered == w.delivered && u.inFlight == w.inFlight
        && u.open == w.open && u.forwarding == w.forwarding;
    hide Apply, Enabled, Legal, Exec;
    var n := |u.channel|;
    steps := TakeFromChannel(u, n);
    var v := Exec(u, steps);
    assert v.channel == [];
    assert w.delivered == Received(w) + w.channel;
    if Holding(w) {
      HandOver(v);
      ExecSnoc(u, steps, Send);
      ExecSnoc(u, steps + [Send], Receive);
      steps := steps + [Send] + [Receive];
    }
  }

  /** After a restart the consumer can still receive an old init exactly when one is in the channel or in the
      forwarder's hands and the consumer is there: "the new init is the only init the consumer sees after a
      restart" fails in that case and no other. */
  lemma StaleInitExactly(steps: seq<Step>)
    requires Legal(START, steps) && Exec(START, steps).controller.Cleared?
    ensures StaleInitPossible(Exec(START, steps)) <==> InitUnderway(Exec(START, steps))
  {
    InvOnEveryRun(steps);
    StaleInitAt(Exec(START, steps));
  }

  lemma StaleInitAt(w: World)
    requires Inv(w) && w.controller.Cleared?
    ensures StaleInitPossible(w) <==> InitUnderway(w)
  {
    if InitUnderway(w) {
      var more := ReceiveUnderway(w);
      var k :| 0 <= k < |Underway(w)| && Underway(w)[k].seg.Init?;
      UnderwayIsOld(w, k);
      var got := Received(Exec(Apply(w, Spawn), more));
      assert got[|Received(w)| + k] == Underway(w)[k];
      assert StaleInitFollows(w, more);
    }
    forall more | Legal(Apply(w, Spawn), more) && StaleInitFollows(w, more) ensures InitUnderway(w) {
      OldOnesWereUnderway(w, more);
    }
    hide Inv, Received, Underway, Apply, Enabled;
  }

  lemma UnderwayIsOld(w: World, k: nat)
    requires Inv(w) && k < |Underway(w)|
    ensures Underway(w)[k].gen < |w.readers|
  {
    hide ReadersOk, ControlOk, TailOk, QueueOk;
    var f, n := Flow(w), |Received(w)|;
    assert w.delivered == Received(w) + w.channel;
    assert f[n + k] == Underway(w)[k];
    assert Sourced(f[n + k], w.readers);
  }

  /** The channel accepts at most one segment of earlier generations after a restart: the one that was in flight. */
  lemma OnlyStaleIsHeld(w: World, more: seq<Step>)
    requires Inv(w) && w.controller.Cleared? && Legal(Apply(w, Spawn), more)
    ensures OnlyHeldIsStale(w, Exec(Apply(w, Spawn), more))
  {
    hide Apply, Good, ReadersOk, Exec, Legal;
    SpawnedWorld(w, Spawn);
    var v := Apply(w, Spawn);
    assert OnlyHeldIsStale(w, v);
    StepKeepsInv(w, Spawn);
    StaleAlong(w, v, more);
  }

  ghost predicate Reachable(w: World) {
    exists steps :: Legal(START, steps) && Exec(START, steps) == w
  }

  lemma {:induction false} ExecSnoc(w: World, steps: seq<Step>, s: Step)
    requires Legal(w, steps) && Enabled(Exec(w, steps), s)
    ensures Legal(w, steps + [s]) && Exec(w, steps + [s]) == Apply(Exec(w, steps), s)
    decreases steps
  {
    hide Enabled, Apply;
    if steps == [] {
      assert [] + [s] == [s] && [s][1..] == [];
    } else {
      assert (steps + [s])[1..] == steps[1..] + [s];
      ExecSnoc(Apply(w, steps[0]), steps[1..], s);
    }
  }

  lemma Reach(w: World, s: Step)
    requires Reachable(w) && Enabled(w, s)
    ensures Reachable(Apply(w, s))
  {
    var steps :| Legal(START, steps) && Exec(START, steps) == w;
    ExecSnoc(START, steps, s);
  }

  /** The reader of a generation that wrote one byte: after end of stream, and after pushing its init. */
  const ENDED := Reader([[7]], FRESH, [Init([7])], 0, Ending)

  lemma OneByteRead() returns (w: World)
    ensures Reachable(w) && w == START.(readers := [ENDED], handles := [0], controller := Running)
  {
    w := START;
    assert Legal(w, []) && Exec(w, []) == w;
    Reach(w, Spawn);
    w := Apply(w, Spawn);
    Reach(w, Read(0, [7]));
    w := Apply(w, Read(0, [7]));
    assert w.handles == [0] && w.readers[0].chunks == [[7]] && w.readers[0].produced == [];
    assert w.readers[0].cutter == FRESH.(pending := [7]) by {
      assert [] + [7] == [7];
    }
    Reach(w, Eof(0));
    w := Apply(w, Eof(0));
    assert w.readers[0].produced == [Init([7])] && w.readers[0].cutter == FRESH by {
      assert [] + [7] == [7];
    }
    assert w.readers == [ENDED];
  }

  lemma OneByteHeld() returns (w: World)
    ensures Reachable(w)
    ensures w == START.(readers := [ENDED.(pushed := 1)], handles := [0], controller := Running,
                        inFlight := Some(Tagged(0, 0, Init([7]))))
  {
    w := OneByteRead();
    Reach(w, Push(0));
    w := Apply(w, Push(0));
    assert w.queue == [Tagged(0, 0, Init([7]))];
    Reach(w, Pop);
    w := Apply(w, Pop);
  }

  lemma Restart(w: World) returns (v: World)
    requires Reachable(w) && w.controller.Running? && w.handles == [0]
    requires |w.readers| == 1 && ReaderReady(w, 0, Ending)
    ensures Reachable(v) && v.controller.Cleared?
    ensures v.channel == w.channel && v.inFlight == w.inFlight && v.open == w.open && v.forwarding == w.forwarding
  {
    v := w;
    Reach(v, Exit(0));
    v := Apply(v, Exit(0));
    Reach(v, BeginRestart);
    v := Apply(v, BeginRestart);
    Reach(v, Join);
    v := Apply(v, Join);
    Reach(v, Clear);
    v := Apply(v, Clear);
  }

  /** And it does happen: generation 0 writes one byte and ends, its init is popped, the encoder restarts. */
  lemma StaleInitHappens() returns (w: World)
    ensures Reachable(w) && w.controller.Cleared? && Holding(w) && w.channel == [] && StaleInitPossible(w)
  {
    hide StaleInitPossible;
    var u := OneByteHeld();
    w := Restart(u);
    assert Underway(w)[0].seg.Init?;
    StaleIfUnderway(w);
  }

  /** Or it is popped and sent, waits in the channel, and the encoder restarts. */
  lemma StaleInitInChannel() returns (w: World)
    ensures Reachable(w) && w.controller.Cleared? && !Holding(w) && w.channel != [] && StaleInitPossible(w)
  {
    hide StaleInitPossible;
    var u := OneByteHeld();
    Reach(u, Send);
    u := Apply(u, Send);
    w := Restart(u);
    assert Underway(w)[0].seg.Init?;
    StaleIfUnderway(w);
  }

  lemma StaleIfUnderway(w: World)
    requires Reachable(w) && w.controller.Cleared? && InitUnderway(w)
    ensures StaleInitPossible(w)
  {
    hide StaleInitPossible, InitUnderway;
    var steps :| Legal(START, steps) && Exec(START, steps) == w;
    StaleInitExactly(steps);
  }
}
