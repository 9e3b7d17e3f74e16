/** The bodies of the reader and forwarder threads of src/screen/bridge, each run on its own: what one
    thread does between the steps of the others is one step of `Bridge`. */
module BridgeThreads {
  import opened Bytes
  import opened Segments
  import opened SegmentTheorems
  import opened Backpressure
  import Bridge

  // ---------------------------------------------------------------------------
  // The reader
  // ---------------------------------------------------------------------------

  /** One read of the encoder's output. An empty read, or no more reads, is the end of it. */
  datatype Read = Got(bytes: Bytes) | Interrupted | Broken

  /** The bytes read before the end or a failure, read by read, and whether it failed. */
  function Heard(pieces: seq<Read>): (seq<Bytes>, bool) {
    if pieces == [] || pieces[0] == Got([]) then ([], false)
    else
      match pieces[0]
      case Got(bytes) => ([bytes] + Heard(pieces[1..]).0, Heard(pieces[1..]).1)
      case Interrupted => Heard(pieces[1..])
      case Broken => ([], true)
  }

  /** A read that ends the reading, one way or the other. */
  predicate IsLast(r: Read) {
    match r
    case Got(bytes) => bytes == []
    case Interrupted => false
    case Broken => true
  }

  function Bytewise(pieces: seq<Read>): Bytes {
    if pieces == [] then []
    else (match pieces[0] case Got(bytes) => bytes case Interrupted => [] case Broken => []) + Bytewise(pieces[1..])
  }

  /** What is heard is every byte read before the first empty or failed read, and a failure only from there. */
  lemma {:induction false} HeardExactly(pieces: seq<Read>) returns (n: nat)
    ensures n <= |pieces| && (n < |pieces| ==> pieces[n] == Got([]) || pieces[n] == Broken)
    ensures forall i :: 0 <= i < n ==> pieces[i] != Got([]) && pieces[i] != Broken
    ensures Flatten(Heard(pieces).0) == Bytewise(pieces[..n]) && [] !in Heard(pieces).0
    ensures Heard(pieces).1 <==> n < |pieces| && pieces[n] == Broken
    ensures Heard(pieces) == if n < |pieces| then Heard(pieces[..n + 1]) else Heard(pieces[..n])
  {
    if pieces == [] || IsLast(pieces[0]) {
      n := 0;
      assert pieces != [] ==> pieces[..1][0] == pieces[0];
    } else {
      n := HeardExactly(pieces[1..]);
      assert pieces[..n + 1][1..] == pieces[1..][..n];
      assert n + 1 < |pieces| ==> pieces[..n + 2][1..] == pieces[1..][..n + 1];
      n := n + 1;
    }
  }

  function PushEach(items: seq<Segment>, capacity: nat, segs: seq<Segment>): seq<Segment>
    decreases segs
  {
    if segs == [] then items else PushEach(PushOr(items, capacity, segs[0], Bridge.Evictable).0, capacity, segs[1..])
  }

  lemma {:induction false} PushEachConcat(items: seq<Segment>, capacity: nat, a: seq<Segment>, b: seq<Segment>)
    ensures PushEach(items, capacity, a + b) == PushEach(PushEach(items, capacity, a), capacity, b)
    decreases a
  {
    hide PushOr;
    if a == [] {
      assert a + b == b;
    } else {
      assert (a + b)[1..] == a[1..] + b;
      PushEachConcat(PushOr(items, capacity, a[0], Bridge.Evictable).0, capacity, a[1..], b);
    }
  }

  method PushSegments(output: BoundedDropOldest<Segment>, segs: seq<Segment>)
    requires output.Valid()
    modifies output
    ensures output.Valid()
    ensures output.items == PushEach(old(output.items), output.capacity, segs)
  {
    hide PushOr;
    for i := 0 to |segs|
      invariant output.Valid()
      invariant PushEach(old(output.items), output.capacity, segs) == PushEach(output.items, output.capacity, segs[i..])
    {
      assert segs[i..][1..] == segs[i + 1..];
      var _ := output.PushOrReject(segs[i], Bridge.Evictable);
    }
  }

  /** All segments that these reads give: those of the bytes, and the rest at the end unless reading failed. */
  function Produced(pieces: seq<Read>): seq<Segment> {
    if Heard(pieces).1 then FeedAll(FRESH, Heard(pieces).0).1 else Cut(Heard(pieces).0)
  }

  /** What is still to come for a segmenter in state `s`. */
  function ProducedFrom(s: State, pieces: seq<Read>): seq<Segment> {
    var (t, out) := FeedAll(s, Heard(pieces).0);
    out + if Heard(pieces).1 then [] else EndOfStream(t).1
  }

  lemma ProducedStep(s: State, pieces: seq<Read>)
    ensures pieces == [] || pieces[0] == Got([]) ==> ProducedFrom(s, pieces) == EndOfStream(s).1
    ensures pieces != [] && pieces[0].Broken? ==> ProducedFrom(s, pieces) == []
    ensures pieces != [] && pieces[0].Interrupted? ==> ProducedFrom(s, pieces) == ProducedFrom(s, pieces[1..])
    ensures pieces != [] && pieces[0].Got? && pieces[0].bytes != [] ==>
              ProducedFrom(s, pieces) ==
              FeedChunk(s, pieces[0].bytes).1 + ProducedFrom(FeedChunk(s, pieces[0].bytes).0, pieces[1..])
  {
    hide FeedChunk, EndOfStream;
    if pieces != [] && pieces[0].Got? && pieces[0].bytes != [] {
      var h := Heard(pieces[1..]);
      assert ([pieces[0].bytes] + h.0)[1..] == h.0;
    }
  }

  /** Read to the end, or to a failure, and push every segment: the queue is what pushing the segments of
      the whole stream, in order, makes of it. */
  method ReadEncoded(pieces: seq<Read>, output: BoundedDropOldest<Segment>) returns (ok: bool)
    requires output.Valid()
    modifies output
    ensures output.Valid()
    ensures ok == !Heard(pieces).1
    ensures var segs := if ok then Cut(Heard(pieces).0) else FeedAll(FRESH, Heard(pieces).0).1;
            output.items == PushEach(old(output.items), output.capacity, segs)
  {
    hide FeedChunk, EndOfStream, FeedAll, PushEach;
    var segmenter := new Mp4Segmenter();
    var n, cap := 0, output.capacity;
    ghost var done: seq<Segment> := [];
    ProducedWhole(pieces, output.items, cap);
    while n < |pieces| && pieces[n] != Got([])
      invariant n <= |pieces| && output.Valid() && fresh(segmenter)
      invariant Heard(pieces).1 == Heard(pieces[n..]).1
      invariant Produced(pieces) == done + ProducedFrom(segmenter.View(), pieces[n..])
      invariant output.items == PushEach(old(output.items), cap, done)
    {
      ghost var before := segmenter.View();
      ProducedStep(before, pieces[n..]);
      assert pieces[n..][1..] == pieces[n + 1..];
      match pieces[n] {
        case Got(bytes) =>
          var segs := segmenter.Feed(bytes);
          PushSegments(output, segs);
          PushEachConcat(old(output.items), cap, done, segs);
          assert done + (segs + ProducedFrom(segmenter.View(), pieces[n + 1..]))
              == (done + segs) + ProducedFrom(segmenter.View(), pieces[n + 1..]);
          done := done + segs;
        case Interrupted =>
        case Broken =>
          assert done + [] == done;
          return false;
      }
      n := n + 1;
    }
    ProducedStep(segmenter.View(), pieces[n..]);
    var segs := segmenter.Finish();
    PushSegments(output, segs);
    PushEachConcat(old(output.items), cap, done, segs);
    return true;
  }

  lemma ProducedWhole(pieces: seq<Read>, items: seq<Segment>, cap: nat)
    ensures Produced(pieces) == [] + ProducedFrom(FRESH, pieces[0..]) && PushEach(items, cap, []) == items
  {
    hide FeedAll;
    assert pieces[0..] == pieces;
  }

  predicate AllEvictable(segs: seq<Segment>) {
    forall i :: 0 <= i < |segs| ==> segs[i].Fragment?
  }

  function Newest(segs: seq<Segment>, n: nat): seq<Segment> {
    if |segs| <= n then segs else segs[|segs| - n..]
  }

  lemma NewestTwice(a: seq<Segment>, b: seq<Segment>, n: nat)
    ensures Newest(Newest(a, n) + b, n) == Newest(a + b, n)
  {
    if |a| > n {
      var k := |a| - n;
      assert (a + b)[k..] == a[k..] + b;
      assert (a + b)[k..][|b|..] == (a + b)[k + |b|..];
    }
  }

  lemma NewestAll(segs: seq<Segment>, n: nat)
    requires |segs| <= n
    ensures Newest(segs, n) == segs
  {
  }

  lemma NewestEvictable(segs: seq<Segment>, n: nat)
    requires AllEvictable(segs)
    ensures AllEvictable(Newest(segs, n)) && |Newest(segs, n)| == Min(|segs|, n)
  {
  }

  /** A queue with at most one init in front keeps it, and of the fragments exactly the newest that fit. */
  lemma {:induction false} PushesKeepNewest(
    head: seq<Segment>, queued: seq<Segment>, capacity: nat, segs: seq<Segment>)
    requires |head| <= 1 && (head != [] ==> head[0].Init?) && |head| + |queued| <= capacity && |head| < capacity
    requires AllEvictable(queued) && AllEvictable(segs)
    ensures PushEach(head + queued, capacity, segs) == head + Newest(queued + segs, capacity - |head|)
    decreases segs
  {
    hide PushOr, Newest;
    if segs == [] {
      assert queued + segs == queued;
      NewestAll(queued, capacity - |head|);
    } else {
      var n, grown := capacity - |head|, queued + [segs[0]];
      OnePush(head, queued, capacity, segs[0]);
      NewestEvictable(grown, n);
      PushesKeepNewest(head, Newest(grown, n), capacity, segs[1..]);
      NewestTwice(grown, segs[1..], n);
      assert grown + segs[1..] == queued + segs;
    }
  }

  lemma OnePush(head: seq<Segment>, queued: seq<Segment>, capacity: nat, s: Segment)
    requires |head| <= 1 && (head != [] ==> head[0].Init?) && |head| + |queued| <= capacity && |head| < capacity
    requires AllEvictable(queued)
    ensures PushOr(head + queued, capacity, s, Bridge.Evictable).0 ==
            head + Newest(queued + [s], capacity - |head|)
  {
    hide PushOr, EvictedFor, Newest;
    if |head + queued| < capacity {
      PushOrExactly(head + queued, capacity, s, Bridge.Evictable);
      NewestAll(queued + [s], capacity - |head|);
      assert head + queued + [s] == head + (queued + [s]);
    } else {
      FullPush(head, queued, capacity, s);
      NewestFull(queued, s);
    }
  }

  lemma NewestFull(queued: seq<Segment>, s: Segment)
    requires queued != []
    ensures Newest(queued + [s], |queued|) == queued[1..] + [s]
  {
    assert (queued + [s])[1..] == queued[1..] + [s];
  }

  lemma FullPush(head: seq<Segment>, queued: seq<Segment>, capacity: nat, s: Segment)
    requires |head| <= 1 && (head != [] ==> head[0].Init?) && |head| + |queued| == capacity && |head| < capacity
    requires AllEvictable(queued)
    ensures PushOr(head + queued, capacity, s, Bridge.Evictable).0 == head + (queued[1..] + [s])
  {
    hide PushOr, EvictedFor;
    var items := head + queued;
    assert items[|head|] == queued[0] && Bridge.Evictable(items[|head|]);
    PushOrExactly(items, capacity, s, Bridge.Evictable);
    var after := PushOr(items, capacity, s, Bridge.Evictable).0;
    var k: nat :| EvictedFor(items, after, s, Bridge.Evictable, k);
    EvictedIsFront(head, queued, after, s, k);
  }

  lemma EvictedIsFront(head: seq<Segment>, queued: seq<Segment>, after: seq<Segment>, s: Segment, k: nat)
    requires |head| <= 1 && (head != [] ==> head[0].Init?) && queued != [] && AllEvictable(queued)
    requires EvictedFor(head + queued, after, s, Bridge.Evictable, k)
    ensures after == head + (queued[1..] + [s])
  {
    var items := head + queued;
    assert Bridge.Evictable(items[|head|]);
    assert k == |head|;
    EvictFront(head, queued, s);
  }

  lemma EvictFront(head: seq<Segment>, queued: seq<Segment>, s: Segment)
    requires queued != []
    ensures var items, k := head + queued, |head|;
            items[..k] + items[k + 1..] + [s] == head + (queued[1..] + [s])
  {
    var items, k := head + queued, |head|;
    assert items[..k] == head && items[k + 1..] == queued[1..];
  }

  /** However much is pushed, no init is lost or moved behind another while there is room for the inits. */
  lemma {:induction false} PushesKeepInits(items: seq<Segment>, capacity: nat, segs: seq<Segment>)
    requires |items| <= capacity
    requires |Protected(items, Bridge.Evictable)| + |Protected(segs, Bridge.Evictable)| < capacity
    ensures Protected(PushEach(items, capacity, segs), Bridge.Evictable) ==
            Protected(items, Bridge.Evictable) + Protected(segs, Bridge.Evictable)
    decreases segs
  {
    hide PushOr;
    if segs != [] {
      PushOrProtects(items, capacity, segs[0], Bridge.Evictable);
      var after := PushOr(items, capacity, segs[0], Bridge.Evictable).0;
      assert [segs[0]] + segs[1..] == segs;
      ProtectedConcat([segs[0]], segs[1..], Bridge.Evictable);
      PushesKeepInits(after, capacity, segs[1..]);
    }
  }

  // ---------------------------------------------------------------------------
  // The forwarder
  // ---------------------------------------------------------------------------

  /** One attempt to hand the segment over, and for a full channel whether a stop was seen after it. */
  datatype Attempt = Taken | Full(stopSeen: bool) | Closed

  /** How forwarding one segment ends; `Waiting` if the attempts run out first. */
  datatype Outcome = Delivered | Dropped | GaveUp | ConsumerGone | Waiting

  /** An attempt after which forwarding goes on trying. */
  predicate GoesOn(s: Segment, a: Attempt) {
    s.Init? && a == Full(false)
  }

  /** A fragment is decided by the first attempt; an init is retried until it is taken, the consumer is
      gone or a stop is seen, and never dropped. A consumer that is gone sets the stop flag. */
  method ForwardSegment(s: Segment, attempts: seq<Attempt>)
    returns (outcome: Outcome, used: nat, dropped: nat, setStop: bool)
    ensures used <= |attempts|
    ensures forall i :: 0 <= i < used ==> GoesOn(s, attempts[i])
    ensures outcome == Waiting <==> used == |attempts|
    ensures outcome != Waiting ==>
              && !GoesOn(s, attempts[used])
              && (outcome == Delivered <==> attempts[used] == Taken)
              && (outcome == ConsumerGone <==> attempts[used] == Closed)
              && (outcome == Dropped <==> s.Fragment? && attempts[used].Full?)
              && (outcome == GaveUp <==> s.Init? && attempts[used] == Full(true))
    ensures dropped == if outcome == Dropped then 1 else 0
    ensures setStop <==> outcome == ConsumerGone
  {
    used, dropped, setStop := 0, 0, false;
    while used < |attempts|
      invariant used <= |attempts| && forall i :: 0 <= i < used ==> GoesOn(s, attempts[i])
      invariant dropped == 0 && !setStop
    {
      match attempts[used] {
        case Taken => return Delivered, used, dropped, setStop;
        case Closed => return ConsumerGone, used, dropped, true;
        case Full(stopSeen) =>
          if s.Fragment? {
            return Dropped, used, 1, setStop;
          }
          if stopSeen {
            return GaveUp, used, dropped, setStop;
          }
      }
      used := used + 1;
    }
    return Waiting, used, dropped, setStop;
  }
}
