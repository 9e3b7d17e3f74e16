/** Model of src/screen/segments.rs: cutting an encoder's byte stream at ISO-BMFF box boundaries. */
module Segments {
  import opened Bytes

  const MAX_BOX_BYTES: nat := 64 * 1024 * 1024

  datatype Segment = Init(bytes: Bytes) | Fragment(bytes: Bytes)

  /** At least a header's worth of bytes. */
  type Box = b: Bytes | |b| >= 8 witness [0, 0, 0, 8, 0, 0, 0, 0]

  datatype Kind = Moof | Mdat | Other

  /** What the front of a buffer is: an unfinished box, no box at all, or a whole box. */
  datatype Scan = Partial | Malformed | Whole(total: nat)

  function KindOf(box: Box): Kind {
    if box[4..8] == [0x6d, 0x6f, 0x6f, 0x66] then Moof
    else if box[4..8] == [0x6d, 0x64, 0x61, 0x74] then Mdat
    else Other
  }

  function ScanBox(p: Bytes): (r: Scan)
    ensures r.Whole? ==> 8 <= r.total <= |p|
  {
    if |p| < 8 then Partial
    else
      var size := FromBE32(p[..4]);
      if size == 1 then
        if |p| < 16 then Partial else ScanSized(p, 16, FromBE64(p[8..16]))
      else
        ScanSized(p, 8, size)
  }

  function ScanSized(p: Bytes, headerLen: nat, total: nat): Scan {
    if total < headerLen || total > MAX_BOX_BYTES then Malformed
    else if |p| < total then Partial
    else Whole(total)
  }

  /** The boxes collected so far: the stream head, and the fragment being put together. */
  datatype Assembly = Assembly(init: Bytes, initEmitted: bool, fragment: Bytes, inFragment: bool)

  /** A segmenter's fields. `passthrough` is the source's opaque mode. */
  datatype State = State(pending: Bytes, asm: Assembly, passthrough: bool)

  const FRESH: State := State([], Assembly([], false, [], false), false)

  function AbsorbBox(a: Assembly, box: Box): (Assembly, seq<Segment>) {
    match KindOf(box)
    case Moof =>
      var head := if !a.initEmitted && a.init != [] then [Init(a.init)] else [];
      var flushed := if a.inFragment then [Fragment(a.fragment)] else [];
      (Assembly(if a.initEmitted then a.init else [], true, box, true), head + flushed)
    case _ =>
      if a.inFragment then
        if KindOf(box) == Mdat then
          (a.(fragment := [], inFragment := false), [Fragment(a.fragment + box)])
        else
          (a.(fragment := a.fragment + box), [])
      else
        (a.(init := a.init + box), [])
  }

  function EnterPassthrough(s: State): (State, seq<Segment>) {
    var emits := !s.asm.initEmitted && s.asm.init != [];
    (State([], s.asm.(init := if emits then [] else s.asm.init, fragment := [], inFragment := false), true),
     if emits then [Init(s.asm.init)] else [])
  }

  /** Take whole boxes off the pending bytes until none is left. */
  function Drain(s: State): (State, seq<Segment>)
    decreases |s.pending|
  {
    match ScanBox(s.pending)
    case Partial => (s, [])
    case Malformed => EnterPassthrough(s)
    case Whole(n) =>
      var (asm, out) := AbsorbBox(s.asm, s.pending[..n]);
      var (s', more) := Drain(s.(pending := s.pending[n..], asm := asm));
      (s', out + more)
  }

  lemma DrainStep(s: State)
    ensures match ScanBox(s.pending)
            case Partial => Drain(s) == (s, [])
            case Malformed => Drain(s) == EnterPassthrough(s)
            case Whole(n) =>
              var (asm, out) := AbsorbBox(s.asm, s.pending[..n]);
              var t := s.(pending := s.pending[n..], asm := asm);
              Drain(s).0 == Drain(t).0 && Drain(s).1 == out + Drain(t).1
  {
    hide ScanBox, AbsorbBox, EnterPassthrough;
  }

  function FeedChunk(s: State, chunk: Bytes): (State, seq<Segment>) {
    if s.passthrough then (s, [Fragment(chunk)]) else Drain(s.(pending := s.pending + chunk))
  }

  function EndOfStream(s: State): (State, seq<Segment>) {
    if s.passthrough || s.asm.initEmitted then (s, [])
    else
      var all := s.asm.init + s.pending;
      (s.(pending := [], asm := s.asm.(init := [])), if all != [] then [Init(all)] else [])
  }

  /** Feed a list of chunks one after the other. */
  function FeedAll(s: State, chunks: seq<Bytes>): (State, seq<Segment>)
    decreases chunks
  {
    if chunks == [] then (s, [])
    else
      var (s1, out) := FeedChunk(s, chunks[0]);
      var (s2, more) := FeedAll(s1, chunks[1..]);
      (s2, out + more)
  }

  class Mp4Segmenter {
    var pending: Bytes
    var init: Bytes
    var initEmitted: bool
    var fragment: Bytes
    var inFragment: bool
    var passthrough: bool

    function View(): State
      reads this
    {
      State(pending, Assembly(init, initEmitted, fragment, inFragment), passthrough)
    }

    constructor ()
      ensures View() == FRESH
    {
      pending, init, initEmitted, fragment, inFragment, passthrough := [], [], false, [], false, false;
    }

    method Feed(chunk: Bytes) returns (out: seq<Segment>)
      modifies this
      ensures View() == FeedChunk(old(View()), chunk).0
      ensures out == FeedChunk(old(View()), chunk).1
    {
      hide AbsorbBox, EnterPassthrough, ScanBox, Drain;
      if passthrough {
        return [Fragment(chunk)];
      }
      pending := pending + chunk;
      out := [];
      ghost var start := View();
      while true
        invariant !passthrough
        invariant Drain(start).0 == Drain(View()).0
        invariant Drain(start).1 == out + Drain(View()).1
        decreases |pending|
      {
        var scan := ScanFront();
        ghost var outBefore := out;
        DrainStep(View());
        match scan {
          case Partial =>
            break;
          case Malformed =>
            var more := EnterPassthroughMode();
            out := out + more;
            break;
          case Whole(total) =>
            var box := pending[..total];
            pending := pending[total..];
            var more := TakeBox(box);
            out := out + more;
            assert outBefore + (more + Drain(View()).1) == out + Drain(View()).1;
        }
      }
    }

    /** Read the box header at the front of the pending bytes. */
    method ScanFront() returns (scan: Scan)
      ensures scan == ScanBox(pending)
    {
      if |pending| < 8 {
        return Partial;
      }
      var sizeField := FromBE32(pending[..4]);
      var headerLen, total := 8, sizeField;
      if sizeField == 0 {
        return Malformed;
      } else if sizeField == 1 {
        if |pending| < 16 {
          return Partial;
        }
        headerLen, total := 16, FromBE64(pending[8..16]);
      } else if sizeField < 8 {
        return Malformed;
      }
      if total < headerLen || total > MAX_BOX_BYTES {
        return Malformed;
      }
      if |pending| < total {
        return Partial;
      }
      return Whole(total);
    }

    method TakeBox(box: Box) returns (out: seq<Segment>)
      modifies this`init, this`initEmitted, this`fragment, this`inFragment
      ensures View().asm == AbsorbBox(old(View()).asm, box).0
      ensures out == AbsorbBox(old(View()).asm, box).1
    {
      out := [];
      var kind := KindOf(box);
      if kind == Moof {
        if !initEmitted {
          if init != [] {
            out := out + [Init(init)];
            init := [];
          }
          initEmitted := true;
        }
        if inFragment {
          out := out + [Fragment(fragment)];
        }
        fragment, inFragment := box, true;
      } else if kind == Mdat && inFragment {
        out := [Fragment(fragment + box)];
        fragment, inFragment := [], false;
      } else if inFragment {
        fragment := fragment + box;
      } else {
        init := init + box;
      }
    }

    method EnterPassthroughMode() returns (out: seq<Segment>)
      modifies this
      ensures View() == EnterPassthrough(old(View())).0
      ensures out == EnterPassthrough(old(View())).1
    {
      out := [];
      if !initEmitted && init != [] {
        out := [Init(init)];
        init := [];
      }
      pending, fragment, inFragment, passthrough := [], [], false, true;
    }

    method Finish() returns (out: seq<Segment>)
      modifies this
      ensures View() == EndOfStream(old(View())).0
      ensures out == EndOfStream(old(View())).1
    {
      out := [];
      if passthrough {
        return;
      }
      if !initEmitted {
        init, pending := init + pending, [];
        if init != [] {
          out := [Init(init)];
          init := [];
        }
      }
    }
  }
}
