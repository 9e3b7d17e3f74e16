/** Exactly which encoder output reaches the consumer as whole boxes, on every run. */
module BridgeBoxes {
  import opened Bytes
  import opened Segments
  import opened SegmentTheorems
  import opened Bridge
  import opened BridgeInvariant
  import opened BridgeTheorems

  ghost predicate AllClean(segs: seq<Segment>) {
    forall i :: 0 <= i < |segs| ==> Clean(segs[i].bytes)
  }

  // ---------------------------------------------------------------------------
  // Concatenation
  // ---------------------------------------------------------------------------

  lemma BoxInFront(first: Box, rest: Bytes)
    requires WholeBox(first)
    ensures var r := ParseBoxes(rest);
            ParseBoxes(first + rest) == Parse([first] + r.boxes, r.rest, r.malformed)
  {
    ScanGrows(first, rest);
    hide ScanBox;
    var w := first + rest;
    assert w[..|first|] == first && w[|first|..] == rest;
  }

  lemma {:induction false} ParseBehindBoxes(bs: seq<Box>, b: Bytes)
    requires AllWhole(bs)
    ensures ParseBoxes(Flatten(bs) + b) == Parse(bs + ParseBoxes(b).boxes, ParseBoxes(b).rest, ParseBoxes(b).malformed)
  {
    hide ParseBoxes, WholeBox;
    var more := ParseBoxes(b).boxes;
    if bs == [] {
      assert Flatten(bs) + b == b && bs + more == more;
    } else {
      var rest := Flatten(bs[1..]) + b;
      assert Flatten(bs) + b == bs[0] + rest;
      BoxInFront(bs[0], rest);
      ParseBehindBoxes(bs[1..], b);
      assert [bs[0]] + (bs[1..] + more) == bs + more;
    }
  }

  /** Behind whole boxes, bytes are whole boxes exactly if they are so on their own. */
  lemma CleanBehind(a: Bytes, b: Bytes)
    requires Clean(a)
    ensures Clean(a + b) <==> Clean(b)
  {
    hide ParseBoxes, WholeBox;
    ParseConserves(a);
    var bs := ParseBoxes(a).boxes;
    assert Flatten(bs) == a;
    ParseBehindBoxes(bs, b);
  }

  lemma NothingIsClean()
    ensures Clean([])
  {
  }

  lemma {:induction false} PayloadSnoc(segs: seq<Segment>)
    requires segs != []
    ensures Payload(segs) == Payload(segs[..|segs| - 1]) + segs[|segs| - 1].bytes
  {
    var n := |segs| - 1;
    PayloadConcat(segs[..n], [segs[n]]);
    assert segs == segs[..n] + [segs[n]] && [segs[n]][1..] == [];
  }

  lemma {:induction false} AllCleanPayload(segs: seq<Segment>)
    requires AllClean(segs)
    ensures Clean(Payload(segs))
  {
    hide Clean;
    if segs == [] {
      NothingIsClean();
    } else {
      AllCleanPayload(segs[..|segs| - 1]);
      PayloadSnoc(segs);
      CleanBehind(Payload(segs[..|segs| - 1]), segs[|segs| - 1].bytes);
    }
  }

  /** A list with an incomplete segment, up to and including the first such segment. */
  lemma {:induction false} FirstUnclean(segs: seq<Segment>) returns (n: nat)
    requires !AllClean(segs)
    ensures n <= |segs| && !Clean(Payload(segs[..n]))
  {
    hide Clean;
    var last := |segs| - 1;
    if AllClean(segs[..last]) {
      n := |segs|;
      assert segs[..n] == segs;
      AllCleanPayload(segs[..last]);
      PayloadSnoc(segs);
      CleanBehind(Payload(segs[..last]), segs[last].bytes);
    } else {
      n := FirstUnclean(segs[..last]);
      assert segs[..last][..n] == segs[..n];
    }
  }

  // ---------------------------------------------------------------------------
  // Which segments are whole boxes
  // ---------------------------------------------------------------------------

  /** Whether these reads leave only whole boxes: every read after the stream stopped parsing is itself whole
      boxes, and a stream that parses has a `moof` or ends at a box boundary. */
  ghost predicate Boxed(chunks: seq<Bytes>) {
    && (forall i :: 0 <= i < |chunks| && ParseBoxes(Flatten(chunks[..i])).malformed ==> Clean(chunks[i]))
    && var r := ParseBoxes(Flatten(chunks));
       r.malformed || r.rest == [] || NextMoof(r.boxes, 0) < |r.boxes|
  }

  lemma {:induction false} SwitchAtTells(s: State, cs: seq<Bytes>, i: nat)
    requires i < |cs|
    ensures FeedAll(s, cs[..i]).0.passthrough <==> SwitchAt(s, cs) <= i
    decreases cs
  {
    hide FeedChunk;
    if s.passthrough {
      PassthroughFeeds(s, cs[..i]);
    } else if i > 0 {
      SwitchAtTells(FeedChunk(s, cs[0]).0, cs[1..], i - 1);
      assert cs[..i][1..] == cs[1..][..i - 1];
    }
  }

  lemma MalformedFrom(cs: seq<Bytes>, i: nat)
    requires i < |cs|
    ensures ParseBoxes(Flatten(cs[..i])).malformed <==> SwitchAt(FRESH, cs) <= i
  {
    hide ParseBoxes, FeedAll, SwitchAt, Cut;
    SwitchAtTells(FRESH, cs, i);
    SegmenterIsBatch(cs[..i]);
  }

  lemma BoxSegmentsAreClean(bs: seq<Box>)
    requires AllWhole(bs)
    ensures AllClean(Group(bs)) && AllClean(UpToSwitch(bs))
  {
    hide Clean, Group, NextMoof, WholeBox;
    GroupIsBoxes(bs);
    SliceIsClean(bs, 0, |bs|);
    assert bs[0..|bs|] == bs;
    forall i | 0 <= i < |Group(bs)| ensures Clean(Group(bs)[i].bytes) {
      assert Group(bs)[i] in Group(bs);
      assert BoxSegment(Group(bs)[i]);
    }
  }

  lemma CleanConcatLists(a: seq<Segment>, b: seq<Segment>)
    ensures AllClean(a + b) <==> AllClean(a) && AllClean(b)
  {
    hide Clean;
    if AllClean(a + b) {
      forall i | 0 <= i < |a| ensures Clean(a[i].bytes) {
        assert a[i] == (a + b)[i];
      }
      forall i | 0 <= i < |b| ensures Clean(b[i].bytes) {
        assert b[i] == (a + b)[|a| + i];
      }
    }
  }

  lemma PassedClean(cs: seq<Bytes>, k: nat)
    requires k <= |cs|
    ensures AllClean(Passed(cs[k..])) <==> forall i :: k <= i < |cs| ==> Clean(cs[i])
  {
    hide Clean;
    var p := Passed(cs[k..]);
    assert forall i :: 0 <= i < |p| ==> p[i].bytes == cs[k + i];
    if AllClean(p) {
      forall i | k <= i < |cs| ensures Clean(cs[i]) {
        assert p[i - k].bytes == cs[i];
      }
    }
  }

  lemma MalformedCutClean(cs: seq<Bytes>)
    requires ParseBoxes(Flatten(cs)).malformed
    ensures AllClean(Cut(cs)) <==> Boxed(cs)
  {
    hide ParseBoxes, Clean, Cut, UpToSwitch, SwitchAt, WholeBox, AllClean;
    SegmenterIsBatch(cs);
    ParseConserves(Flatten(cs));
    BoxSegmentsAreClean(ParseBoxes(Flatten(cs)).boxes);
    var k := SwitchAt(FRESH, cs);
    CleanConcatLists(UpToSwitch(ParseBoxes(Flatten(cs)).boxes), Passed(cs[k..]));
    PassedClean(cs, k);
    forall i | 0 <= i < |cs| ensures ParseBoxes(Flatten(cs[..i])).malformed <==> k <= i {
      MalformedFrom(cs, i);
    }
  }

  lemma ParsedCutClean(cs: seq<Bytes>)
    requires !ParseBoxes(Flatten(cs)).malformed
    ensures AllClean(Cut(cs)) <==> Boxed(cs)
  {
    hide ParseBoxes, Cut, WholeBox, Group, NextMoof;
    var w := Flatten(cs);
    SegmenterIsBatch(cs);
    ParseConserves(w);
    BoxSegmentsAreClean(ParseBoxes(w).boxes);
    forall i | 0 <= i < |cs| ensures !ParseBoxes(Flatten(cs[..i])).malformed {
      assert cs[..i] + cs[i..] == cs;
      FlattenConcat(cs[..i], cs[i..]);
      if ParseBoxes(Flatten(cs[..i])).malformed {
        MalformedStays(Flatten(cs[..i]), Flatten(cs[i..]));
      }
    }
    if w == [] {
      NothingIsClean();
    } else {
      assert [Init(w)][0].bytes == w;
    }
  }

  lemma CutClean(cs: seq<Bytes>)
    ensures AllClean(Cut(cs)) <==> Boxed(cs)
  {
    hide Cut, Boxed, ParseBoxes;
    if ParseBoxes(Flatten(cs)).malformed {
      MalformedCutClean(cs);
    } else {
      ParsedCutClean(cs);
    }
  }

  // ---------------------------------------------------------------------------
  // Whatever is evicted or dropped
  // ---------------------------------------------------------------------------

  lemma SubsequenceClean(xs: seq<Segment>, ys: seq<Segment>)
    requires Subsequence(xs, ys) && AllClean(ys)
    ensures AllClean(xs)
  {
    hide Clean;
    var at :| Embeds(at, xs, ys);
    forall i | 0 <= i < |xs| ensures Clean(xs[i].bytes) {
      assert xs[i] == ys[at[i]];
    }
  }

  lemma BoxedIsReceivedClean(w: World, g: nat)
    requires Inv(w) && g < |w.readers| && Boxed(w.readers[g].chunks)
    ensures Clean(Payload(Part(Received(w), g)))
  {
    ReceivedIsGood(w);
    GenerationView(w, Received(w), g);
    hide Inv, Good, Boxed, Clean, Part, Received, FeedAll;
    var r := w.readers[g];
    CutClean(r.chunks);
    var (s, out) := FeedAll(FRESH, r.chunks);
    CleanConcatLists(out, EndOfStream(s).1);
    SubsequenceClean(Part(Received(w), g), r.produced);
    AllCleanPayload(Part(Received(w), g));
  }

  // ---------------------------------------------------------------------------
  // A run that delivers the first segments of any stream, and no more
  // ---------------------------------------------------------------------------

  /** The first `k` of a first generation's segments. */
  function Tags(segs: seq<Segment>, k: nat): seq<Tagged>
    requires k <= |segs|
  {
    seq(k, i requires 0 <= i < k => Tagged(0, i, segs[i]))
  }

  /** One generation, whose pushed segments are received up to the `n`-th and then left in the queue. */
  ghost predicate Served(w: World, n: nat) {
    && Reachable(w) && |w.readers| == 1 && w.readers[0].pushed <= |w.readers[0].produced|
    && w.forwarding && w.open && w.inFlight.None? && w.channel == []
    && w.delivered == Tags(w.readers[0].produced, Min(n, w.readers[0].pushed))
    && (w.readers[0].pushed < n ==> w.queue == [])
  }

  lemma PushFirst(w: World) returns (v: World)
    requires Reachable(w) && Enabled(w, Push(0))
    ensures Reachable(v) && 0 < |w.readers| && w.readers[0].pushed < |w.readers[0].produced|
    ensures var r := w.readers[0];
            v == w.(readers := w.readers[0 := r.(pushed := r.pushed + 1)],
                    queue := PushSegment(w.queue, Tagged(0, r.pushed, r.produced[r.pushed])))
  {
    hide Enabled, Apply, Reachable, PushSegment;
    PushedWorld(w, 0);
    Reach(w, Push(0));
    v := Apply(w, Push(0));
  }

  /** The only segment of the queue is popped, sent and received. */
  lemma PassThrough(w: World) returns (v: World)
    requires Reachable(w) && w.forwarding && w.open && w.inFlight.None? && w.channel == [] && |w.queue| == 1
    ensures Reachable(v) && v == w.(queue := [], delivered := w.delivered + w.queue)
  {
    hide Reachable;
    Reach(w, Pop);
    v := Apply(w, Pop);
    Reach(v, Send);
    v := Apply(v, Send);
    Reach(v, Receive);
    v := Apply(v, Receive);
    assert w.queue == [w.queue[0]];
  }

  lemma ServeOne(w: World, n: nat) returns (v: World)
    requires Served(w, n) && w.readers[0].phase != Done && w.readers[0].pushed < |w.readers[0].produced|
    ensures Served(v, n) && v.readers == [w.readers[0].(pushed := w.readers[0].pushed + 1)]
  {
    hide Reachable, PushSegment;
    var r := w.readers[0];
    var t := Tagged(0, r.pushed, r.produced[r.pushed]);
    v := PushFirst(w);
    if r.pushed < n {
      assert v.queue == [t] by {
        EmptyQueuePush(t);
      }
      v := PassThrough(v);
    }
    assert v.readers == [r.(pushed := r.pushed + 1)];
    assert r.pushed < n ==> Tags(r.produced, r.pushed) + [t] == Tags(r.produced, r.pushed + 1);
  }

  lemma EmptyQueuePush(t: Tagged)
    ensures PushSegment([], t) == [t]
  {
  }

  lemma {:induction false} ServeAll(w: World, n: nat) returns (v: World)
    requires Served(w, n) && w.readers[0].phase != Done
    ensures Served(v, n) && v.readers == [w.readers[0].(pushed := |w.readers[0].produced|)]
    decreases |w.readers[0].produced| - w.readers[0].pushed
  {
    hide Reachable;
    v := w;
    if w.readers[0].pushed < |w.readers[0].produced| {
      v := ServeOne(w, n);
      v := ServeAll(v, n);
    } else {
      assert w.readers == [w.readers[0]];
    }
  }

  /** A reader that read these chunks and pushed all it made of them. */
  ghost predicate HasRead(w: World, n: nat, cs: seq<Bytes>) {
    && Served(w, n)
    && var (s, out) := FeedAll(FRESH, cs);
       w.readers[0] == Reader(cs, s, out, |out|, Reading)
  }

  lemma StartReading(n: nat) returns (w: World)
    ensures HasRead(w, n, [])
  {
    assert Legal(START, []) && Exec(START, []) == START;
    Reach(START, Spawn);
    w := Apply(START, Spawn);
    assert FeedAll(FRESH, []) == (FRESH, []);
  }

  lemma ReadOne(w: World, n: nat, cs: seq<Bytes>, c: Bytes) returns (v: World)
    requires HasRead(w, n, cs) && 0 < |c| <= STDOUT_CHUNK
    ensures HasRead(v, n, cs + [c])
  {
    hide Reachable, FeedAll, FeedChunk;
    FeedAllSnoc(FRESH, cs, c);
    var r := w.readers[0];
    Reach(w, Read(0, c));
    v := Apply(w, Read(0, c));
    var p, k := v.readers[0].produced, Min(n, r.pushed);
    assert Tags(p, k) == Tags(r.produced, k);
    v := ServeAll(v, n);
  }

  /** What a read of the encoder's output can give. */
  predicate Readable(cs: seq<Bytes>) {
    forall i :: 0 <= i < |cs| ==> 0 < |cs[i]| <= STDOUT_CHUNK
  }

  lemma {:induction false} ReadAll(cs: seq<Bytes>, n: nat) returns (w: World)
    requires Readable(cs)
    ensures HasRead(w, n, cs)
  {
    hide HasRead;
    if cs == [] {
      w := StartReading(n);
    } else {
      var k := |cs| - 1;
      w := ReadAll(cs[..k], n);
      w := ReadOne(w, n, cs[..k], cs[k]);
      assert cs[..k] + [cs[k]] == cs;
    }
  }

  lemma ReadToEnd(cs: seq<Bytes>, n: nat) returns (w: World)
    requires Readable(cs)
    ensures Served(w, n) && w.readers[0].chunks == cs
    ensures w.readers[0].produced == Cut(cs) && w.readers[0].pushed == |Cut(cs)|
  {
    hide Reachable, FeedAll, EndOfStream;
    w := ReadAll(cs, n);
    var r := w.readers[0];
    Reach(w, Eof(0));
    w := Apply(w, Eof(0));
    var p, k := w.readers[0].produced, Min(n, r.pushed);
    assert Tags(p, k) == Tags(r.produced, k);
    w := ServeAll(w, n);
  }

  lemma {:induction false} PartOfTags(segs: seq<Segment>, k: nat)
    requires k <= |segs|
    ensures Part(Tags(segs, k), 0) == segs[..k]
  {
    if k > 0 {
      var f := Tags(segs, k);
      assert f[..|f| - 1] == Tags(segs, k - 1);
      PartOfTags(segs, k - 1);
    }
  }

  /** Any number of a stream's first segments can be all that the consumer has received of it. */
  lemma FirstsReceived(cs: seq<Bytes>, n: nat) returns (w: World)
    requires Readable(cs) && n <= |Cut(cs)|
    ensures Reachable(w) && |w.readers| == 1 && w.readers[0].chunks == cs && Part(Received(w), 0) == Cut(cs)[..n]
  {
    hide Reachable, Cut, Part;
    w := ReadToEnd(cs, n);
    PartOfTags(Cut(cs), n);
    assert Received(w) == w.delivered;
  }

  // ---------------------------------------------------------------------------
  // Exactly when
  // ---------------------------------------------------------------------------

  /** Whatever the interleaving, a generation that read these chunks gives the consumer whole boxes only. */
  ghost predicate AlwaysClean(cs: seq<Bytes>) {
    forall w, g: nat :: Reachable(w) && g < |w.readers| && w.readers[g].chunks == cs ==>
                          Clean(Payload(Part(Received(w), g)))
  }

  /** The consumer gets whole boxes on every run if and only if the reads leave only whole boxes. */
  lemma WholeBoxesExactly(cs: seq<Bytes>)
    requires Readable(cs)
    ensures AlwaysClean(cs) <==> Boxed(cs)
  {
    hide Boxed, Clean, Part, Received, Cut, AllClean, Readable;
    CutClean(cs);
    if Boxed(cs) {
      forall w, g: nat | Reachable(w) && g < |w.readers| && w.readers[g].chunks == cs
        ensures Clean(Payload(Part(Received(w), g)))
      {
        ReachableInv(w);
        BoxedIsReceivedClean(w, g);
      }
    } else {
      var n := FirstUnclean(Cut(cs));
      var w := FirstsReceived(cs, n);
    }
  }

  lemma ReachableInv(w: World)
    requires Reachable(w)
    ensures Inv(w)
  {
    hide Inv;
    var steps :| Legal(START, steps) && Exec(START, steps) == w;
    InvOnEveryRun(steps);
  }

  /** An encoder that writes one byte and ends sends the consumer an incomplete box. */
  lemma PartialBoxHappens()
    ensures !AlwaysClean([[7]])
  {
    hide AlwaysClean;
    WholeBoxesExactly([[7]]);
    FlattenOne([7]);
  }
}
