/** Model of src/cast/framing.rs and the accumulator of src/cast/connection/reader.rs. */
module Framing {
  import opened Bytes

  const MAX_FRAME_SIZE: nat := 16 * 1024 * 1024

  datatype FrameError = Io | FrameTooLarge(length: nat) | Truncated(expected: nat, got: nat)

  type FrameResult = Result<Option<Bytes>, FrameError>

  /** Four length bytes, then the payload; the length is cast to 32 bits. */
  function EncodeFrame(payload: Bytes): Bytes {
    ToBE32(|payload| % 0x1_0000_0000) + payload
  }

  /** What reading one frame from `b`, then end of stream, gives, and how many bytes it takes. */
  function FrameOf(b: Bytes): (r: (FrameResult, nat))
    ensures r.1 <= |b|
    ensures r.0.Ok? && r.0.value.Some? ==> r.1 == 4 + |r.0.value.value| && r.0.value.value == b[4..r.1]
  {
    if |b| < 4 then (if b == [] then Ok(None) else Err(Truncated(4, |b|)), |b|)
    else
      var length := FromBE32(b[..4]);
      if length > MAX_FRAME_SIZE then (Err(FrameTooLarge(length)), 4)
      else if |b| < 4 + length then (Err(Truncated(length, |b| - 4)), |b|)
      else (Ok(Some(b[4..4 + length])), 4 + length)
  }

  /** How a reader answers one call: interrupted, failing, or with at most so many bytes. */
  datatype Answer = Interrupted | Fails | AtMost(limit: nat)

  /** A reader that serves `rest` in pieces prescribed by `plan` (then without limits). */
  class Source {
    var rest: Bytes
    var plan: seq<Answer>

    constructor (rest: Bytes, plan: seq<Answer>)
      ensures this.rest == rest && this.plan == plan
    {
      this.rest, this.plan := rest, plan;
    }

    /** One read of up to `want` bytes; `None` is an interruption, `Err` any other failure. */
    method Read(want: nat) returns (r: Result<Option<Bytes>, FrameError>)
      requires want > 0
      modifies this
      ensures old(plan) == [] ==> plan == [] && r.Ok? && r.value.Some?
      ensures old(plan) != [] ==> plan == old(plan)[1..]
      ensures r.Err? ==> r.error == Io && Fails in old(plan) && rest == old(rest)
      ensures r.Ok? && r.value.None? ==> old(plan) != [] && rest == old(rest)
      ensures r.Ok? && r.value.Some? ==>
                && r.value.value + rest == old(rest) && |r.value.value| <= want
                && (r.value.value == [] <==> old(rest) == [])
    {
      var limit := want;
      if plan != [] {
        var answer := plan[0];
        plan := plan[1..];
        match answer
        case Interrupted => return Ok(None);
        case Fails => return Err(Io);
        case AtMost(n) => limit := if n == 0 then 1 else if n < want then n else want;
      }
      var n := if |rest| < limit then |rest| else limit;
      r := Ok(Some(rest[..n]));
      rest := rest[n..];
    }
  }

  /** Fill a buffer of `n` bytes as far as the stream goes, across short reads and interruptions. */
  method ReadExactOrEof(src: Source, n: nat) returns (r: Result<(bool, Bytes), FrameError>)
    modifies src
    ensures Fails !in old(src.plan) ==> r.Ok? && Fails !in src.plan
    ensures r.Err? ==> r.error == Io
    ensures r.Ok? ==>
              && r.value.1 == old(src.rest)[..Min(n, old(|src.rest|))]
              && src.rest == old(src.rest)[Min(n, old(|src.rest|))..]
              && (r.value.0 <==> old(|src.rest|) < n)
  {
    var filled: Bytes := [];
    while |filled| < n
      invariant |filled| <= n && filled + src.rest == old(src.rest)
      invariant Fails !in old(src.plan) ==> Fails !in src.plan
      decreases |src.plan|, n - |filled|
    {
      ghost var planBefore, restBefore := src.plan, src.rest;
      var piece := src.Read(n - |filled|);
      if piece.Err? {
        return Err(piece.error);
      }
      if piece.value.Some? {
        var bytes := piece.value.value;
        if bytes == [] {
          return Ok((true, filled));
        }
        assert filled + restBefore == (filled + bytes) + src.rest;
        filled := filled + bytes;
      }
    }
    return Ok((false, filled));
  }

  /** One frame, whatever the sizes of the reads: the result depends only on the bytes of the stream. */
  method ReadFrame(src: Source) returns (r: FrameResult)
    modifies src
    ensures Fails !in old(src.plan) ==> r == FrameOf(old(src.rest)).0
    ensures Fails !in old(src.plan) ==> src.rest == old(src.rest)[FrameOf(old(src.rest)).1..]
    ensures r != FrameOf(old(src.rest)).0 ==> r == Err(Io)
  {
    ghost var b := src.rest;
    var header := ReadExactOrEof(src, 4);
    if header.Err? {
      return Err(header.error);
    }
    if header.value.0 {
      var got := |header.value.1|;
      return if got == 0 then Ok(None) else Err(Truncated(4, got));
    }
    var length := FromBE32(header.value.1);
    if length > MAX_FRAME_SIZE {
      return Err(FrameTooLarge(length));
    }
    var body := ReadExactOrEof(src, length);
    if body.Err? {
      return Err(body.error);
    }
    if body.value.0 {
      return Err(Truncated(length, |body.value.1|));
    }
    SuffixOfSuffix(b, 4, length);
    SliceOfSuffix(b, 4, 0, length);
    assert b[4..][..length] == b[4..][0..length];
    return Ok(Some(body.value.1));
  }

  // ---------------------------------------------------------------------------
  // The accumulator
  // ---------------------------------------------------------------------------

  /** The complete frames at the front of `b`, what is left, and a length prefix over the limit, if any. */
  datatype Deframed = Deframed(frames: seq<Bytes>, rest: Bytes, tooLarge: Option<nat>)

  function Deframe(b: Bytes): Deframed
    decreases |b|
  {
    match FrameOf(b)
    case (Ok(Some(payload)), n) =>
      var d := Deframe(b[n..]);
      d.(frames := [payload] + d.frames)
    case (Err(FrameTooLarge(length)), _) => Deframed([], b, Some(length))
    case _ => Deframed([], b, None)
  }

  lemma DeframeStep(b: Bytes)
    ensures var f := FrameOf(b);
            if f.0.Ok? && f.0.value.Some? then
              var d := Deframe(b[f.1..]);
              Deframe(b) == Deframed([f.0.value.value] + d.frames, d.rest, d.tooLarge)
            else
              var tooLarge := if f.0.Err? && f.0.error.FrameTooLarge? then Some(f.0.error.length) else None;
              Deframe(b) == Deframed([], b, tooLarge)
    ensures FrameOf(b).0 != Err(Io)
  {
  }

  class FrameAccumulator {
    var buf: Bytes

    constructor ()
      ensures buf == []
    {
      buf := [];
    }

    /** On a length over the limit the frames of this push are lost and the buffer is not drained. */
    method PushBytes(bytes: Bytes) returns (r: Result<seq<Bytes>, FrameError>)
      modifies this
      ensures var d := Deframe(old(buf) + bytes);
              match d.tooLarge
              case None => r == Ok(d.frames) && buf == d.rest
              case Some(length) => r == Err(FrameTooLarge(length)) && buf == old(buf) + bytes
    {
      hide Deframe, FrameOf;
      buf := buf + bytes;
      ghost var all := Deframe(buf);
      var frames: seq<Bytes>, consumed := [], 0;
      while true
        invariant consumed <= |buf| && buf == old(buf) + bytes
        invariant all.frames == frames + Deframe(buf[consumed..]).frames
        invariant all.rest == Deframe(buf[consumed..]).rest && all.tooLarge == Deframe(buf[consumed..]).tooLarge
        decreases |buf| - consumed
      {
        ghost var before := frames;
        DeframeStep(buf[consumed..]);
        var cursor := new Source(buf[consumed..], []);
        var frame := ReadFrame(cursor);
        if frame.Err? {
          if frame.error.Truncated? {
            break;
          }
          return Err(frame.error);
        }
        if frame.value.None? {
          break;
        }
        var n := |buf| - consumed - |cursor.rest|;
        SuffixOfSuffix(buf, consumed, n);
        frames := frames + [frame.value.value];
        consumed := consumed + n;
        assert before + ([frame.value.value] + Deframe(buf[consumed..]).frames)
            == frames + Deframe(buf[consumed..]).frames;
      }
      assert frames + [] == frames;
      buf := buf[consumed..];
      return Ok(frames);
    }
  }
}
