/** Frames and messages survive any cutting of the byte stream. */
module Wire {
  import opened Bytes
  import opened Proto
  import opened ProtoTheorems
  import opened Framing

  function EncodeFrames(frames: seq<Bytes>): Bytes {
    if frames == [] then [] else EncodeFrame(frames[0]) + EncodeFrames(frames[1..])
  }

  lemma FrameReencodes(b: Bytes)
    requires FrameOf(b).0.Ok? && FrameOf(b).0.value.Some?
    ensures EncodeFrame(FrameOf(b).0.value.value) == b[..FrameOf(b).1]
  {
    hide ToBE32, FromBE32;
    var n := FrameOf(b).1;
    BigEndian(b[..4]);
    assert b[..n] == b[..4] + b[4..n];
  }

  /** Re-encoding the frames taken off, followed by what is left, is exactly the input. */
  lemma {:induction false} DeframeConserves(b: Bytes)
    ensures EncodeFrames(Deframe(b).frames) + Deframe(b).rest == b
    decreases |b|
  {
    DeframeStep(b);
    hide FrameOf, Deframe, EncodeFrame;
    var f := FrameOf(b);
    if f.0.Ok? && f.0.value.Some? {
      FrameReencodes(b);
      DeframeConserves(b[f.1..]);
      var d := Deframe(b[f.1..]);
      assert ([f.0.value.value] + d.frames)[1..] == d.frames;
      SplitAt(b, f.1);
      assert b[..f.1] + EncodeFrames(d.frames) + d.rest == b[..f.1] + (EncodeFrames(d.frames) + d.rest);
    }
  }

  lemma FrameIgnoresTail(a: Bytes, c: Bytes)
    ensures match FrameOf(a).0
            case Ok(Some(_)) => FrameOf(a + c) == FrameOf(a)
            case Err(FrameTooLarge(_)) => FrameOf(a + c) == FrameOf(a)
            case _ => true
  {
    if |a| >= 4 {
      assert (a + c)[..4] == a[..4];
      var n := FrameOf(a).1;
      assert n >= 4 ==> (a + c)[4..n] == a[4..n];
    }
  }

  lemma {:induction false} DeframeAppend(a: Bytes, c: Bytes)
    ensures var d := Deframe(a);
            var e := Deframe(a + c);
            var t := Deframe(d.rest + c);
            && e.tooLarge == (if d.tooLarge.Some? then d.tooLarge else t.tooLarge)
            && e.frames == (if d.tooLarge.Some? then d.frames else d.frames + t.frames)
            && (d.tooLarge.None? ==> e.rest == t.rest)
    decreases |a|
  {
    DeframeStep(a);
    DeframeStep(a + c);
    FrameIgnoresTail(a, c);
    hide FrameOf, Deframe;
    var f := FrameOf(a);
    if f.0.Ok? && f.0.value.Some? {
      assert (a + c)[f.1..] == a[f.1..] + c;
      DeframeAppend(a[f.1..], c);
    }
  }

  // ---------------------------------------------------------------------------
  // Any number of pushes
  // ---------------------------------------------------------------------------

  /** The frames handed out by pushing chunks one by one, the buffer, and the error that ended it. */
  datatype Pushed = Pushed(frames: seq<Bytes>, buf: Bytes, tooLarge: Option<nat>)

  function PushAll(buf: Bytes, chunks: seq<Bytes>): Pushed
    decreases chunks
  {
    if chunks == [] then Pushed([], buf, None)
    else
      var d := Deframe(buf + chunks[0]);
      if d.tooLarge.Some? then Pushed([], buf + chunks[0], d.tooLarge)
      else
        var p := PushAll(d.rest, chunks[1..]);
        p.(frames := d.frames + p.frames)
  }

  /** One round of the reader thread: a shutdown seen, bytes read (none at the end of the stream), a read
      that timed out, or one that failed. */
  datatype Poll = ShutDown | Piece(bytes: Bytes) | Idle | Failed

  predicate Ends(p: Poll) {
    p.ShutDown? || p.Failed? || p == Piece([])
  }

  /** The bytes read before the thread ends, read by read. */
  function Pieces(polls: seq<Poll>): seq<Bytes>
    decreases polls
  {
    if polls == [] || Ends(polls[0]) then []
    else (if polls[0].Piece? then [polls[0].bytes] else []) + Pieces(polls[1..])
  }

  /** All bytes read, whatever else happened between the reads. */
  function BytesOf(polls: seq<Poll>): Bytes {
    if polls == [] then []
    else
      (match polls[0] case Piece(bytes) => bytes case ShutDown => [] case Idle => [] case Failed => [])
      + BytesOf(polls[1..])
  }

  /** The bytes that count are exactly those read before the first shutdown, failure or empty read; what comes
      from there on changes nothing. */
  lemma {:induction false} PiecesExactly(polls: seq<Poll>) returns (n: nat)
    ensures n <= |polls| && (n < |polls| ==> polls[n] == ShutDown || polls[n] == Failed || polls[n] == Piece([]))
    ensures forall i :: 0 <= i < n ==> polls[i] != ShutDown && polls[i] != Failed && polls[i] != Piece([])
    ensures Flatten(Pieces(polls)) == BytesOf(polls[..n]) && Pieces(polls) == Pieces(polls[..n])
  {
    if polls == [] || Ends(polls[0]) {
      n := 0;
    } else {
      n := PiecesExactly(polls[1..]);
      assert polls[..n + 1][1..] == polls[1..][..n] && polls[..n + 1][0] == polls[0];
      var rest := Pieces(polls[1..]);
      if polls[0].Piece? {
        assert ([polls[0].bytes] + rest)[1..] == rest;
      } else {
        assert [] + rest == rest;
      }
      n := n + 1;
    }
  }

  /** A read that timed out has no effect, wherever it comes. */
  lemma {:induction false} IdleIsHarmless(a: seq<Poll>, b: seq<Poll>)
    ensures Pieces(a + [Idle] + b) == Pieces(a + b)
  {
    if a == [] {
      assert (a + [Idle] + b)[1..] == b && a + b == b;
      assert [] + Pieces(b) == Pieces(b);
    } else {
      assert (a + [Idle] + b)[1..] == a[1..] + [Idle] + b && (a + b)[1..] == a[1..] + b;
      IdleIsHarmless(a[1..], b);
    }
  }

  /** The reader thread: push each read into one accumulator and pass frames on, until the end, a failure, a
      shutdown or a protocol error, and then say so; a receiver that goes away after `room` frames ends it
      without a word. */
  method ReaderLoop(polls: seq<Poll>, room: Option<nat>) returns (frames: seq<Bytes>, saidSo: bool)
    ensures frames <= PushAll([], Pieces(polls)).frames
    ensures var n := |PushAll([], Pieces(polls)).frames|; |frames| == if room.Some? then Min(room.value, n) else n
    ensures saidSo <==> frames == PushAll([], Pieces(polls)).frames
  {
    hide Deframe, Pieces, PushAll;
    var accumulator := new FrameAccumulator();
    ghost var all := PushAll([], Pieces(polls)).frames;
    frames := [];
    var i := 0;
    assert polls[0..] == polls;
    while i < |polls| && !Ends(polls[i])
      invariant i <= |polls|
      invariant all == frames + PushAll(accumulator.buf, Pieces(polls[i..])).frames
      invariant room.Some? ==> |frames| <= room.value
    {
      PiecesStep(accumulator.buf, polls, i);
      if polls[i].Piece? {
        var r := accumulator.PushBytes(polls[i].bytes);
        if r.Err? {
          assert frames + [] == frames;
          return frames, true;
        }
        ghost var before, more := frames, PushAll(accumulator.buf, Pieces(polls[i + 1..])).frames;
        assert before + (r.value + more) == before + r.value + more;
        var gone;
        frames, gone := PassOn(frames, r.value, room);
        if gone {
          return frames, false;
        }
      }
      i := i + 1;
    }
    PiecesEnd(accumulator.buf, polls[i..]);
    assert frames + [] == frames;
    return frames, true;
  }

  method PassOn(sent: seq<Bytes>, more: seq<Bytes>, room: Option<nat>) returns (frames: seq<Bytes>, gone: bool)
    requires room.Some? ==> |sent| <= room.value
    ensures frames <= sent + more
    ensures var n := |sent + more|; |frames| == if room.Some? then Min(room.value, n) else n
    ensures gone <==> room.Some? && room.value < |sent + more|
  {
    frames := sent;
    for i := 0 to |more|
      invariant frames == sent + more[..i]
      invariant room.Some? ==> |frames| <= room.value
    {
      if room == Some(|frames|) {
        assert frames == (sent + more)[..|frames|];
        return frames, true;
      }
      frames := frames + [more[i]];
    }
    assert more[..|more|] == more;
    gone := false;
  }

  lemma PiecesStep(buf: Bytes, polls: seq<Poll>, i: nat)
    requires i < |polls| && !Ends(polls[i])
    ensures !polls[i].Piece? ==> Pieces(polls[i..]) == Pieces(polls[i + 1..])
    ensures polls[i].Piece? ==>
              var d := Deframe(buf + polls[i].bytes);
              PushAll(buf, Pieces(polls[i..])).frames ==
              if d.tooLarge.Some? then [] else d.frames + PushAll(d.rest, Pieces(polls[i + 1..])).frames
  {
    hide Deframe;
    var rest := polls[i..];
    assert rest[1..] == polls[i + 1..];
    if polls[i].Piece? {
      assert Pieces(rest)[1..] == Pieces(rest[1..]);
    }
  }

  lemma PiecesEnd(buf: Bytes, polls: seq<Poll>)
    requires polls == [] || Ends(polls[0])
    ensures PushAll(buf, Pieces(polls)).frames == []
  {
  }

  /** A buffer the accumulator can be left with: no complete frame, no length over the limit. */
  predicate Settled(buf: Bytes) {
    Deframe(buf) == Deframed([], buf, None)
  }

  lemma {:induction false} RestIsSettled(b: Bytes)
    requires Deframe(b).tooLarge.None?
    ensures Settled(Deframe(b).rest)
    decreases |b|
  {
    DeframeStep(b);
    hide FrameOf, Deframe;
    var f := FrameOf(b);
    if f.0.Ok? && f.0.value.Some? {
      RestIsSettled(b[f.1..]);
    }
  }

  /** Pushing in pieces is deframing the whole: same frames, same buffer, same verdict. When a length is over
      the limit, the frames handed out are an initial part: those completed by earlier pushes. */
  lemma {:induction false} PushAllIsBatch(buf: Bytes, chunks: seq<Bytes>)
    requires Settled(buf)
    ensures var d := Deframe(buf + Flatten(chunks));
            var p := PushAll(buf, chunks);
            && p.tooLarge == d.tooLarge
            && p.frames <= d.frames
            && (d.tooLarge.None? ==> p.frames == d.frames && p.buf == d.rest)
    decreases chunks
  {
    hide Deframe;
    if chunks == [] {
      assert buf + [] == buf;
    } else {
      var b, rest := buf + chunks[0], Flatten(chunks[1..]);
      assert buf + Flatten(chunks) == b + rest;
      DeframeAppend(b, rest);
      var d := Deframe(b);
      if d.tooLarge.None? {
        RestIsSettled(b);
        PushAllIsBatch(d.rest, chunks[1..]);
      }
    }
  }

  /** For any bytes within the limit and any cutting: the frames so far, re-encoded, and the buffer are
      exactly the bytes fed; so two cuttings of one stream give the same frames and the same buffer. */
  lemma AccumulatorConserves(cs: seq<Bytes>, ds: seq<Bytes>)
    requires Flatten(cs) == Flatten(ds)
    ensures PushAll([], cs).tooLarge == PushAll([], ds).tooLarge
    ensures PushAll([], cs).tooLarge.None? ==>
              && PushAll([], cs) == PushAll([], ds)
              && EncodeFrames(PushAll([], cs).frames) + PushAll([], cs).buf == Flatten(cs)
  {
    var w := Flatten(cs);
    DeframeStep([]);
    assert [] + w == w;
    PushAllIsBatch([], cs);
    PushAllIsBatch([], ds);
    DeframeConserves(w);
  }

  // ---------------------------------------------------------------------------
  // Round trips
  // ---------------------------------------------------------------------------

  /** A payload comes back from its frame, whatever follows, if and only if it is within the limit. */
  lemma FrameRoundTrip(payload: Bytes, rest: Bytes)
    ensures |payload| <= MAX_FRAME_SIZE <==>
            FrameOf(EncodeFrame(payload) + rest) == (Ok(Some(payload)), 4 + |payload|)
  {
    var b := EncodeFrame(payload) + rest;
    assert b[..4] == ToBE32(|payload| % 0x1_0000_0000);
    if |payload| <= MAX_FRAME_SIZE {
      assert b[4..4 + |payload|] == payload;
    }
  }

  /** Whatever a length and the bytes behind it are: no frame at the end of the stream, a truncated header, a
      length over the limit, a truncated payload, or the payload; and how much is taken. */
  lemma FrameMeans(b: Bytes, n: nat, rest: Bytes)
    requires n < 0x1_0000_0000
    ensures FrameOf([]) == (Ok(None), 0)
    ensures 0 < |b| < 4 ==> FrameOf(b) == (Err(Truncated(4, |b|)), |b|)
    ensures FrameOf(ToBE32(n) + rest) ==
            if n > MAX_FRAME_SIZE then (Err(FrameTooLarge(n)), 4)
            else if |rest| < n then (Err(Truncated(n, |rest|)), 4 + |rest|)
            else (Ok(Some(rest[..n])), 4 + n)
  {
    hide ToBE32, FromBE32;
    var w := ToBE32(n) + rest;
    assert w[..4] == ToBE32(n);
    assert n <= |rest| ==> w[4..4 + n] == rest[..n];
  }

  lemma {:induction false} DeframeFrames(frames: seq<Bytes>)
    requires forall i :: 0 <= i < |frames| ==> |frames[i]| <= MAX_FRAME_SIZE
    ensures Deframe(EncodeFrames(frames)) == Deframed(frames, [], None)
  {
    var b := EncodeFrames(frames);
    DeframeStep(b);
    if frames != [] {
      var rest := EncodeFrames(frames[1..]);
      FrameRoundTrip(frames[0], rest);
      assert b[4 + |frames[0]|..] == rest;
      DeframeFrames(frames[1..]);
      assert [frames[0]] + frames[1..] == frames;
    }
  }

  ghost predicate AllCutsAgree(w: Bytes) {
    forall cs, ds :: Flatten(cs) == w && Flatten(ds) == w ==> PushAll([], cs).frames == PushAll([], ds).frames
  }

  /** The frames handed out depend on how the stream is cut exactly if a length over the limit follows at
      least one complete frame: pushed at once with it, that frame is lost. */
  lemma CuttingMattersExactly(w: Bytes)
    ensures AllCutsAgree(w) <==> Deframe(w).tooLarge.None? || Deframe(w).frames == []
  {
    hide Deframe, PushAll;
    if Deframe(w).tooLarge.Some? && Deframe(w).frames != [] {
      var a, c := FirstFrameLost(w);
    } else {
      forall cs | Flatten(cs) == w ensures PushAll([], cs).frames == Deframe(w).frames {
        assert [] + w == w;
        EmptyIsSettled();
        PushAllIsBatch([], cs);
      }
    }
  }

  lemma EmptyIsSettled()
    ensures Settled([])
  {
    DeframeStep([]);
  }

  lemma FirstFrameLost(w: Bytes) returns (a: Bytes, c: Bytes)
    requires Deframe(w).tooLarge.Some? && Deframe(w).frames != []
    ensures Flatten([w]) == w == Flatten([a, c])
    ensures PushAll([], [w]).frames == [] && PushAll([], [a, c]).frames != []
  {
    hide Deframe, FrameOf, EncodeFrame;
    DeframeStep(w);
    var (frame, n) := FrameOf(w);
    a, c := w[..n], w[n..];
    FrameReencodes(w);
    OneFrame(w, frame.value.value);
    assert w == a + c && [a, c][1..] == [c];
    FlattenOne(w);
    FlattenOne(c);
    assert [] + w == w;
    TwoPushes(a, c);
  }

  /** The frame of one byte 7, then a length of 2^32 - 1: pushed together the frame is lost, pushed before
      it is not. */
  lemma FrameLossHappens()
    ensures PushAll([], [[0, 0, 0, 1, 7, 255, 255, 255, 255]]).frames == []
    ensures PushAll([], [[0, 0, 0, 1, 7], [255, 255, 255, 255]]).frames == [[7]]
  {
    var bad: Bytes := [255, 255, 255, 255];
    var w: Bytes := EncodeFrame([7]) + bad;
    assert EncodeFrame([7]) == [0, 0, 0, 1, 7];
    assert w == [0, 0, 0, 1, 7, 255, 255, 255, 255];
    FrameRoundTrip([7], bad);
    assert FrameOf(bad) == (Err(FrameTooLarge(0xFFFF_FFFF)), 4) by {
      assert bad[..4] == bad;
    }
    hide FrameOf, Deframe;
    DeframeStep(w);
    DeframeStep(bad);
    assert w[5..] == bad;
    OneFrame(w, [7]);
    TwoPushes([0, 0, 0, 1, 7], bad);
    assert [] + w == w;
  }

  lemma TwoPushes(a: Bytes, c: Bytes)
    requires Deframe(a).tooLarge.None? && Deframe(a).rest == [] && Deframe(c).tooLarge.Some?
    ensures PushAll([], [a, c]).frames == Deframe(a).frames
  {
    hide Deframe;
    assert [a, c][1..] == [c];
    assert [] + a == a && [] + c == c;
    assert PushAll([], [c]).frames == [];
    assert Deframe(a).frames + [] == Deframe(a).frames;
  }

  lemma OneFrame(w: Bytes, payload: Bytes)
    requires FrameOf(w).0 == Ok(Some(payload))
    ensures Deframe(EncodeFrame(payload)) == Deframed([payload], [], None)
  {
    DeframeFrames([payload]);
    assert EncodeFrames([payload]) == EncodeFrame(payload) + [] == EncodeFrame(payload);
  }

  /** What the connection sends: the four texts of a message. */
  datatype Outgoing = Outgoing(source: Bytes, dest: Bytes, namespace: Bytes, payload: Bytes)

  function Encoded(m: Outgoing): Bytes {
    EncodeMessage(m.source, m.dest, m.namespace, m.payload)
  }

  function Received(m: Outgoing): CastMessage {
    CastMessage(0, m.source, m.dest, m.namespace, Utf8, m.payload)
  }

  function EncodedAll(ms: seq<Outgoing>): (r: seq<Bytes>)
    ensures |r| == |ms| && forall i :: 0 <= i < |ms| ==> r[i] == Encoded(ms[i])
  {
    if ms == [] then [] else [Encoded(ms[0])] + EncodedAll(ms[1..])
  }

  lemma EncodedDecodes(m: Outgoing)
    requires |Encoded(m)| <= MAX_FRAME_SIZE
    ensures Decode(Encoded(m)) == Ok(Received(m))
  {
    assert |Encoded(m)| >= |m.source| + |m.dest| + |m.namespace| + |m.payload|;
    hide Decode;
    MessageRoundTrip(m.source, m.dest, m.namespace, m.payload);
  }

  /** Any messages whose encodings fit the frame limit, framed, concatenated, cut anywhere and accumulated,
      decode to the same messages in the same order, and nothing stays in the buffer. */
  lemma MessagesSurviveTheWire(ms: seq<Outgoing>, chunks: seq<Bytes>)
    requires forall i :: 0 <= i < |ms| ==> |Encoded(ms[i])| <= MAX_FRAME_SIZE
    requires Flatten(chunks) == EncodeFrames(EncodedAll(ms))
    ensures PushAll([], chunks) == Pushed(EncodedAll(ms), [], None)
    ensures forall i :: 0 <= i < |ms| ==> Decode(EncodedAll(ms)[i]) == Ok(Received(ms[i]))
  {
    hide Decode, Encoded, Deframe;
    var w := Flatten(chunks);
    DeframeFrames(EncodedAll(ms));
    DeframeStep([]);
    assert [] + w == w;
    PushAllIsBatch([], chunks);
    forall i | 0 <= i < |ms| ensures Decode(EncodedAll(ms)[i]) == Ok(Received(ms[i])) {
      EncodedDecodes(ms[i]);
    }
  }
}
