/** The segmenter does not depend on how its input is chunked, and equals "parse all boxes, then group". */
module SegmentTheorems {
  import opened Bytes
  import opened Segments

  // ---------------------------------------------------------------------------
  // Chunk independence
  // ---------------------------------------------------------------------------

  /** More input never changes a verdict already reached about the front of the buffer. */
  lemma ScanGrows(p: Bytes, c: Bytes)
    ensures !ScanBox(p).Partial? ==> ScanBox(p + c) == ScanBox(p)
  {
    if |p| >= 8 {
      assert (p + c)[..4] == p[..4];
      if |p| >= 16 {
        assert (p + c)[8..16] == p[8..16];
      }
    }
  }

  /** The front of `p` is a box header of that length which declares a box of `n` bytes. */
  ghost predicate Declares(p: Bytes, header: nat, n: nat) {
    if header == 8 then |p| >= 8 && n < 0x1_0000_0000 && n != 1 && p[..4] == ToBE32(n)
    else
      && header == 16 && |p| >= 16 && n < 0x1_0000_0000_0000_0000 && p[..4] == [0, 0, 0, 1]
      && p[8..16] == ToBE32(n / 0x1_0000_0000) + ToBE32(n % 0x1_0000_0000)
  }

  /** The verdict on a buffer follows from the size its header declares, 32-bit or 64-bit. */
  lemma ScanMeans(p: Bytes, header: nat, n: nat)
    requires Declares(p, header, n)
    ensures ScanBox(p) == if n < header || n > MAX_BOX_BYTES then Malformed else if |p| < n then Partial else Whole(n)
  {
    if header == 16 {
      var hi, lo := ToBE32(n / 0x1_0000_0000), ToBE32(n % 0x1_0000_0000);
      assert (hi + lo)[..4] == hi && (hi + lo)[4..] == lo;
    }
  }

  predicate HasHeader(p: Bytes) {
    |p| >= 8 && (p[..4] == [0, 0, 0, 1] ==> |p| >= 16)
  }

  /** And it is open exactly until the header is there. */
  lemma HeaderOrShort(p: Bytes)
    ensures HasHeader(p) <==> exists header: nat, n: nat :: Declares(p, header, n)
    ensures !HasHeader(p) ==> ScanBox(p) == Partial
  {
    if HasHeader(p) {
      var header, n := DeclaredSize(p);
    }
    if header: nat, n: nat :| Declares(p, header, n) {
      DeclaredHasHeader(p, header, n);
    }
    hide Declares;
    if |p| >= 4 {
      BigEndian(p[..4]);
    }
  }

  lemma DeclaredHasHeader(p: Bytes, header: nat, n: nat)
    requires Declares(p, header, n)
    ensures HasHeader(p)
  {
    hide ToBE32, FromBE32;
    if header == 8 {
      BigEndian(p[..4]);
      assert FromBE32(p[..4]) == n;
    }
  }

  lemma DeclaredSize(p: Bytes) returns (header: nat, n: nat)
    requires HasHeader(p)
    ensures Declares(p, header, n)
  {
    hide ToBE32, FromBE32;
    if p[..4] == [0, 0, 0, 1] {
      var hi, lo := FromBE32(p[8..12]), FromBE32(p[12..16]);
      BigEndian(p[8..12]);
      BigEndian(p[12..16]);
      header, n := 16, hi * 0x1_0000_0000 + lo;
      assert n / 0x1_0000_0000 == hi && n % 0x1_0000_0000 == lo;
      assert p[8..16] == p[8..12] + p[12..16];
    } else {
      BigEndian(p[..4]);
      header, n := 8, FromBE32(p[..4]);
    }
  }

  lemma {:induction false} DrainSettles(s: State)
    requires !s.passthrough
    ensures !Drain(s).0.passthrough ==> ScanBox(Drain(s).0.pending).Partial?
    decreases |s.pending|
  {
    var scan := ScanBox(s.pending);
    if scan.Whole? {
      DrainSettles(s.(pending := s.pending[scan.total..], asm := AbsorbBox(s.asm, s.pending[..scan.total]).0));
    }
  }

  lemma {:induction false} DrainAppend(s: State, c: Bytes)
    requires !s.passthrough
    ensures var (s1, out) := Drain(s);
            var (s2, all) := Drain(s.(pending := s.pending + c));
            if s1.passthrough then s2 == s1 && all == out
            else s2 == FeedChunk(s1, c).0 && all == out + FeedChunk(s1, c).1
    decreases |s.pending|
  {
    ScanGrows(s.pending, c);
    hide ScanBox, AbsorbBox;
    match ScanBox(s.pending)
    case Partial =>
    case Malformed =>
    case Whole(n) =>
      var (asm, out) := AbsorbBox(s.asm, s.pending[..n]);
      var t := s.(pending := s.pending[n..], asm := asm);
      assert (s.pending + c)[..n] == s.pending[..n];
      assert (s.pending + c)[n..] == t.pending + c;
      DrainAppend(t, c);
  }

  /** How many chunks are fed before the segmenter is in passthrough mode. */
  function SwitchAt(s: State, chunks: seq<Bytes>): (k: nat)
    ensures k <= |chunks|
    decreases chunks
  {
    if chunks == [] || s.passthrough then 0 else 1 + SwitchAt(FeedChunk(s, chunks[0]).0, chunks[1..])
  }

  function Passed(chunks: seq<Bytes>): seq<Segment> {
    seq(|chunks|, i requires 0 <= i < |chunks| => Fragment(chunks[i]))
  }

  lemma {:induction false} PassthroughFeeds(s: State, chunks: seq<Bytes>)
    requires s.passthrough
    ensures FeedAll(s, chunks).0 == s && FeedAll(s, chunks).1 == Passed(chunks)
    decreases chunks
  {
    if chunks != [] {
      PassthroughFeeds(s, chunks[1..]);
      assert Passed(chunks) == [Fragment(chunks[0])] + Passed(chunks[1..]);
    }
  }

  /** Any chunking equals one big feed, except that chunks after a switch are passed on as they come. */
  lemma {:induction false} FeedAllIsOneFeed(s: State, chunks: seq<Bytes>)
    requires !s.passthrough && ScanBox(s.pending).Partial?
    ensures FeedAll(s, chunks).0 == FeedChunk(s, Flatten(chunks)).0
    ensures FeedAll(s, chunks).1 == FeedChunk(s, Flatten(chunks)).1 + Passed(chunks[SwitchAt(s, chunks)..])
    ensures !FeedChunk(s, Flatten(chunks)).0.passthrough ==> SwitchAt(s, chunks) == |chunks|
    decreases chunks
  {
    DrainStep(s);
    hide Drain, ScanBox, AbsorbBox;
    if chunks == [] {
      assert s.pending + [] == s.pending;
    } else {
      var c, rest := chunks[0], chunks[1..];
      var (s1, out) := FeedChunk(s, c);
      assert s.pending + Flatten(chunks) == s.pending + c + Flatten(rest);
      DrainAppend(s.(pending := s.pending + c), Flatten(rest));
      if s1.passthrough {
        PassthroughFeeds(s1, rest);
        assert chunks[1..] == chunks[SwitchAt(s, chunks)..];
      } else {
        DrainSettles(s.(pending := s.pending + c));
        FeedAllIsOneFeed(s1, rest);
        var k := SwitchAt(s1, rest);
        assert rest[k..] == chunks[k + 1..];
        calc {
          FeedAll(s, chunks).1;
          out + (FeedChunk(s1, Flatten(rest)).1 + Passed(rest[k..]));
          (out + FeedChunk(s1, Flatten(rest)).1) + Passed(rest[k..]);
        }
      }
    }
  }

  /** A fresh segmenter holding the whole stream. */
  function Loaded(w: Bytes): State {
    FRESH.(pending := w)
  }

  /** Whether a stream switches a fresh segmenter to passthrough. */
  predicate Switches(w: Bytes) {
    Drain(Loaded(w)).0.passthrough
  }

  lemma FreshFeedAll(cs: seq<Bytes>)
    ensures FeedAll(FRESH, cs).0 == Drain(Loaded(Flatten(cs))).0
    ensures FeedAll(FRESH, cs).1 == Drain(Loaded(Flatten(cs))).1 + Passed(cs[SwitchAt(FRESH, cs)..])
    ensures !Switches(Flatten(cs)) ==> FeedAll(FRESH, cs).1 == Drain(Loaded(Flatten(cs))).1
  {
    assert ScanBox([]).Partial?;
    FeedAllIsOneFeed(FRESH, cs);
    hide Drain, FeedAll, ScanBox, SwitchAt;
    assert [] + Flatten(cs) == Flatten(cs);
  }

  /** Two chunkings of one stream: equal state always, equal segments while boxes parse, and otherwise
      equal segments up to and including the switch. */
  lemma ChunkIndependence(cs: seq<Bytes>, ds: seq<Bytes>)
    requires Flatten(cs) == Flatten(ds)
    ensures FeedAll(FRESH, cs).0 == FeedAll(FRESH, ds).0
    ensures !FeedAll(FRESH, cs).0.passthrough ==> FeedAll(FRESH, cs).1 == FeedAll(FRESH, ds).1
    ensures exists upToSwitch ::
              && FeedAll(FRESH, cs).1 == upToSwitch + Passed(cs[SwitchAt(FRESH, cs)..])
              && FeedAll(FRESH, ds).1 == upToSwitch + Passed(ds[SwitchAt(FRESH, ds)..])
  {
    FreshFeedAll(cs);
    FreshFeedAll(ds);
  }

  ghost predicate Chunking(cs: seq<Bytes>, w: Bytes) {
    Flatten(cs) == w && [] !in cs
  }

  ghost predicate AllChunkingsAgree(w: Bytes) {
    forall cs, ds :: Chunking(cs, w) && Chunking(ds, w) ==> FeedAll(FRESH, cs) == FeedAll(FRESH, ds)
  }

  lemma SwitchesGrows(w: Bytes, c: Bytes)
    requires Switches(w)
    ensures Drain(Loaded(w + c)) == Drain(Loaded(w))
  {
    DrainAppend(Loaded(w), c);
  }

  lemma {:induction false} FeedAllSnoc(s: State, cs: seq<Bytes>, c: Bytes)
    ensures FeedAll(s, cs + [c]).0 == FeedChunk(FeedAll(s, cs).0, c).0
    ensures FeedAll(s, cs + [c]).1 == FeedAll(s, cs).1 + FeedChunk(FeedAll(s, cs).0, c).1
    decreases cs
  {
    hide FeedChunk;
    if cs == [] {
      assert (cs + [c])[1..] == [];
    } else {
      assert (cs + [c])[1..] == cs[1..] + [c];
      FeedAllSnoc(FeedChunk(s, cs[0]).0, cs[1..], c);
    }
  }

  lemma LateSwitchIsHarmless(cs: seq<Bytes>, w: Bytes)
    requires Chunking(cs, w) && w != [] && !Switches(w[..|w| - 1])
    ensures FeedAll(FRESH, cs).0 == Drain(Loaded(w)).0
    ensures FeedAll(FRESH, cs).1 == Drain(Loaded(w)).1
  {
    hide Drain, FeedAll;
    var first, last := cs[..|cs| - 1], cs[|cs| - 1];
    assert cs == first + [last];
    FlattenSnoc(first, last);
    var p := Flatten(first);
    var q := w[|p|..|w| - 1];
    assert p + q == w[..|w| - 1];
    if Switches(p) {
      SwitchesGrows(p, q);
    }
    FreshFeedAll(first);
    FeedAllSnoc(FRESH, first, last);
    DrainAppend(Loaded(p), last);
  }

  lemma EmptyStreamHasNoChunks(cs: seq<Bytes>)
    requires [] !in cs
    ensures Flatten(cs) == [] ==> cs == []
  {
    if cs != [] {
      assert cs[0] in cs;
    }
  }

  /** An early switch: feeding the last byte on its own adds a segment that feeding all at once does not. */
  lemma EarlySwitchShows(w: Bytes)
    requires w != [] && Switches(w[..|w| - 1])
    ensures !AllChunkingsAgree(w)
  {
    var n := |w| - 1;
    var p, l := w[..n], w[n..];
    SplitAt(w, n);
    EmptyDoesNotSwitch();
    hide Drain, FeedAll;
    FlattenOne(w);
    FlattenOne(p);
    FlattenSnoc([p], l);
    assert Chunking([w], w) && Chunking([p] + [l], w);
    SwitchesGrows(p, l);
    FreshFeedOne(w);
    FreshFeedOne(p);
    FeedAllSnoc(FRESH, [p], l);
    assert |FeedAll(FRESH, [p] + [l]).1| == |FeedAll(FRESH, [w]).1| + 1;
  }

  lemma EmptyDoesNotSwitch()
    ensures !Switches([])
  {
  }

  lemma FreshFeedOne(w: Bytes)
    ensures FeedAll(FRESH, [w]).0 == Drain(Loaded(w)).0 && FeedAll(FRESH, [w]).1 == Drain(Loaded(w)).1
  {
    hide Drain;
    assert [] + w == w;
    assert [w][1..] == [];
  }

  lemma SwitchesIfMalformed(w: Bytes)
    ensures Switches(w) <==> ParseBoxes(w).malformed
  {
    hide Drain, ParseBoxes;
    DrainIsParseThenFold(Loaded(w));
  }

  /** Exactly when chunking cannot matter: the stream without its last byte parses as boxes. */
  lemma ChunkIndependenceExactly(w: Bytes)
    ensures AllChunkingsAgree(w) <==> (w == [] || !ParseBoxes(w[..|w| - 1]).malformed)
  {
    hide Drain, FeedAll, ParseBoxes;
    if w != [] {
      SwitchesIfMalformed(w[..|w| - 1]);
    }
    if w == [] {
      forall cs | Chunking(cs, w) ensures cs == [] {
        EmptyStreamHasNoChunks(cs);
      }
    } else if Switches(w[..|w| - 1]) {
      EarlySwitchShows(w);
    } else {
      forall cs, ds | Chunking(cs, w) && Chunking(ds, w) ensures FeedAll(FRESH, cs) == FeedAll(FRESH, ds) {
        LateSwitchIsHarmless(cs, w);
        LateSwitchIsHarmless(ds, w);
      }
    }
  }

  // ---------------------------------------------------------------------------
  // Parse all boxes, then group
  // ---------------------------------------------------------------------------

  datatype Parse = Parse(boxes: seq<Box>, rest: Bytes, malformed: bool)

  function ParseBoxes(p: Bytes): Parse {
    match ScanBox(p)
    case Partial => Parse([], p, false)
    case Malformed => Parse([], p, true)
    case Whole(n) =>
      var r := ParseBoxes(p[n..]);
      Parse([p[..n]] + r.boxes, r.rest, r.malformed)
  }

  predicate WholeBox(b: Box) {
    ScanBox(b) == Whole(|b|)
  }

  lemma ScanOfWholeBox(p: Bytes)
    requires ScanBox(p).Whole?
    ensures WholeBox(p[..ScanBox(p).total])
  {
    var b := p[..ScanBox(p).total];
    assert b[..4] == p[..4];
    if |b| >= 16 {
      assert b[8..16] == p[8..16];
    }
  }

  /** Parsing loses no byte, yields only whole boxes, and stops only where no whole box starts. */
  lemma {:induction false} ParseConserves(p: Bytes)
    ensures Flatten(ParseBoxes(p).boxes) + ParseBoxes(p).rest == p
    ensures forall i :: 0 <= i < |ParseBoxes(p).boxes| ==> WholeBox(ParseBoxes(p).boxes[i])
    ensures ScanBox(ParseBoxes(p).rest) == if ParseBoxes(p).malformed then Malformed else Partial
  {
    hide ScanBox, WholeBox;
    var scan := ScanBox(p);
    if scan.Whole? {
      ScanOfWholeBox(p);
      var tail := p[scan.total..];
      ParseConserves(tail);
      assert p == p[..scan.total] + tail;
      assert ParseBoxes(p).boxes[1..] == ParseBoxes(tail).boxes;
    }
  }

  /** A consumer that re-parses a concatenation of whole boxes gets exactly those boxes. */
  lemma {:induction false} ReparseBoxes(bs: seq<Box>)
    requires forall i :: 0 <= i < |bs| ==> WholeBox(bs[i])
    ensures ParseBoxes(Flatten(bs)) == Parse(bs, [], false)
  {
    if bs != [] {
      var w := Flatten(bs);
      ScanGrows(bs[0], Flatten(bs[1..]));
      assert w[..|bs[0]|] == bs[0] && w[|bs[0]|..] == Flatten(bs[1..]);
      ReparseBoxes(bs[1..]);
    }
  }

  function Fold(a: Assembly, bs: seq<Box>): (Assembly, seq<Segment>)
    decreases bs
  {
    if bs == [] then (a, [])
    else
      var (a1, out) := AbsorbBox(a, bs[0]);
      var (a2, more) := Fold(a1, bs[1..]);
      (a2, out + more)
  }

  lemma {:induction false} DrainIsParseThenFold(s: State)
    requires !s.passthrough
    ensures var r := ParseBoxes(s.pending);
            var (a, out) := Fold(s.asm, r.boxes);
            var t := State(r.rest, a, false);
            if r.malformed then Drain(s).0 == EnterPassthrough(t).0 && Drain(s).1 == out + EnterPassthrough(t).1
            else Drain(s).0 == t && Drain(s).1 == out
    decreases |s.pending|
  {
    hide AbsorbBox, ScanBox, EnterPassthrough;
    var r := ParseBoxes(s.pending);
    var scan := ScanBox(s.pending);
    if scan.Whole? {
      var n := scan.total;
      DrainIsParseThenFold(s.(pending := s.pending[n..], asm := AbsorbBox(s.asm, s.pending[..n]).0));
      assert r.boxes[1..] == ParseBoxes(s.pending[n..]).boxes;
    } else {
      assert s.asm == Fold(s.asm, []).0;
      assert [] + EnterPassthrough(s).1 == EnterPassthrough(s).1;
    }
  }

  /** Index of the first `moof` at or after `i`, or the number of boxes. */
  function NextMoof(bs: seq<Box>, i: nat): (k: nat)
    requires i <= |bs|
    ensures i <= k <= |bs|
    ensures k < |bs| ==> KindOf(bs[k]) == Moof
    ensures forall j :: i <= j < k ==> KindOf(bs[j]) != Moof
    decreases |bs| - i
  {
    if i == |bs| || KindOf(bs[i]) == Moof then i else NextMoof(bs, i + 1)
  }

  /** Where a fragment whose `moof` lies before `j` ends: after its `mdat`, or at the next `moof`. */
  function FragmentEnd(bs: seq<Box>, j: nat): (e: Option<nat>)
    requires j <= |bs|
    ensures e.Some? ==> j <= e.value <= |bs|
    decreases |bs| - j
  {
    if j == |bs| then None
    else match KindOf(bs[j])
      case Mdat => Some(j + 1)
      case Moof => Some(j)
      case Other => FragmentEnd(bs, j + 1)
  }

  /** The fragments of the boxes from index `i` on. */
  function Fragments(bs: seq<Box>, i: nat): seq<Segment>
    requires i <= |bs|
    decreases |bs| - i
  {
    var k := NextMoof(bs, i);
    if k == |bs| then [] else FragmentFrom(bs, k, k + 1)
  }

  /** The fragment begun by the `moof` at `k`, searched to its end from `j` on, and those after it. */
  function FragmentFrom(bs: seq<Box>, k: nat, j: nat): seq<Segment>
    requires k < j <= |bs|
    decreases |bs| - k, 0
  {
    var e := FragmentEnd(bs, j);
    if e.None? then [] else [Fragment(Flatten(bs[k..e.value]))] + Fragments(bs, e.value)
  }

  /** The segments of a box list: everything before the first `moof`, then the fragments. */
  function Group(bs: seq<Box>): seq<Segment> {
    var k := NextMoof(bs, 0);
    (if 0 < k < |bs| then [Init(Flatten(bs[..k]))] else []) + Fragments(bs, k)
  }

  lemma SliceGrows(bs: seq<Box>, i: nat, j: nat)
    requires i <= j < |bs|
    ensures Flatten(bs[i..j + 1]) == Flatten(bs[i..j]) + bs[j]
  {
    assert bs[i..j + 1] == bs[i..j] + [bs[j]];
    FlattenSnoc(bs[i..j], bs[j]);
  }

  lemma FoldStep(a: Assembly, bs: seq<Box>, j: nat)
    requires j < |bs|
    ensures var (a1, out) := AbsorbBox(a, bs[j]);
            Fold(a, bs[j..]).0 == Fold(a1, bs[j + 1..]).0 &&
            Fold(a, bs[j..]).1 == out + Fold(a1, bs[j + 1..]).1
  {
    hide AbsorbBox;
    assert bs[j..][1..] == bs[j + 1..];
  }

  lemma FoldNil(a: Assembly)
    ensures Fold(a, []) == (a, [])
  {
  }

  lemma FragmentsStep(bs: seq<Box>, j: nat)
    requires j < |bs|
    ensures Fragments(bs, j) == if KindOf(bs[j]) == Moof then FragmentFrom(bs, j, j + 1) else Fragments(bs, j + 1)
  {
    hide KindOf, FragmentFrom;
  }

  lemma FragmentFromStep(bs: seq<Box>, k: nat, j: nat)
    requires k < j < |bs|
    ensures FragmentFrom(bs, k, j) ==
            match KindOf(bs[j])
            case Mdat => [Fragment(Flatten(bs[k..j + 1]))] + Fragments(bs, j + 1)
            case Moof => [Fragment(Flatten(bs[k..j]))] + Fragments(bs, j)
            case Other => FragmentFrom(bs, k, j + 1)
  {
    hide KindOf, Fragments;
  }

  lemma FragmentsAtEnd(bs: seq<Box>)
    ensures Fragments(bs, |bs|) == []
    ensures forall k :: 0 <= k < |bs| ==> FragmentFrom(bs, k, |bs|) == []
  {
  }

  lemma {:induction false} FoldBetween(a: Assembly, bs: seq<Box>, j: nat)
    requires j <= |bs| && a.initEmitted && !a.inFragment
    ensures Fold(a, bs[j..]).1 == Fragments(bs, j)
    decreases |bs| - j, 0
  {
    FoldNil(a);
    hide KindOf, FragmentFrom, Fragments, Fold;
    if j == |bs| {
      assert bs[j..] == [];
      FragmentsAtEnd(bs);
    } else {
      FoldStep(a, bs, j);
      FragmentsStep(bs, j);
      var a1 := AbsorbBox(a, bs[j]).0;
      if KindOf(bs[j]) == Moof {
        SliceGrows(bs, j, j);
        FoldInside(a1, bs, j, j + 1);
      } else {
        FoldBetween(a1, bs, j + 1);
      }
    }
  }

  lemma {:induction false} FoldInside(a: Assembly, bs: seq<Box>, k: nat, j: nat)
    requires k < j <= |bs| && a.initEmitted && a.inFragment && a.fragment == Flatten(bs[k..j])
    ensures Fold(a, bs[j..]).1 == FragmentFrom(bs, k, j)
    decreases |bs| - j, 1
  {
    FoldNil(a);
    hide KindOf, FragmentFrom, Fragments, Fold;
    if j == |bs| {
      assert bs[j..] == [];
      FragmentsAtEnd(bs);
    } else {
      FoldStep(a, bs, j);
      FragmentFromStep(bs, k, j);
      var a1 := AbsorbBox(a, bs[j]).0;
      SliceGrows(bs, k, j);
      match KindOf(bs[j])
      case Mdat =>
        FoldBetween(a1, bs, j + 1);
      case Other =>
        FoldInside(a1, bs, k, j + 1);
      case Moof =>
        FragmentsStep(bs, j);
        SliceGrows(bs, j, j);
        FoldInside(a1, bs, j, j + 1);
    }
  }

  lemma {:induction false} FoldHead(a: Assembly, bs: seq<Box>, j: nat)
    requires j <= |bs| && !a.initEmitted && !a.inFragment && a.init == Flatten(bs[..j])
    requires NextMoof(bs, 0) == NextMoof(bs, j)
    ensures Fold(a, bs[j..]).1 == Group(bs)
    ensures Fold(a, bs[j..]).0.initEmitted <==> NextMoof(bs, 0) < |bs|
    ensures NextMoof(bs, 0) == |bs| ==> Fold(a, bs[j..]).0.init == Flatten(bs)
    decreases |bs| - j
  {
    FoldNil(a);
    hide KindOf, FragmentFrom, Fragments, Fold;
    if j == |bs| {
      assert bs[..j] == bs && bs[j..] == [];
      FragmentsAtEnd(bs);
    } else {
      FoldStep(a, bs, j);
      var a1 := AbsorbBox(a, bs[j]).0;
      if KindOf(bs[j]) == Moof {
        FragmentsStep(bs, j);
        SliceGrows(bs, j, j);
        FoldInside(a1, bs, j, j + 1);
        EmittedStays(a1, bs[j + 1..]);
        assert a.init != [] <==> j > 0 by {
          assert j > 0 ==> bs[..j][0] == bs[0];
        }
      } else {
        assert bs[..j] == bs[0..j] && bs[..j + 1] == bs[0..j + 1];
        SliceGrows(bs, 0, j);
        FoldHead(a1, bs, j + 1);
      }
    }
  }

  lemma {:induction false} EmittedStays(a: Assembly, bs: seq<Box>)
    requires a.initEmitted
    ensures Fold(a, bs).0.initEmitted
    decreases bs
  {
    if bs != [] {
      EmittedStays(AbsorbBox(a, bs[0]).0, bs[1..]);
    }
  }

  /** All segments of a whole stream, fed in the given chunks and then finished. */
  function Cut(chunks: seq<Bytes>): seq<Segment> {
    var (s, out) := FeedAll(FRESH, chunks);
    out + EndOfStream(s).1
  }

  /** The specification: parse every box of the stream, then group; without a `moof` hand it all over. */
  function BatchCut(w: Bytes): seq<Segment> {
    var bs := ParseBoxes(w).boxes;
    if NextMoof(bs, 0) < |bs| then Group(bs) else if w == [] then [] else [Init(w)]
  }

  /** What is emitted for a stream that stops parsing after these boxes, up to and including the switch. */
  function UpToSwitch(bs: seq<Box>): seq<Segment> {
    Group(bs) + if bs != [] && NextMoof(bs, 0) == |bs| then [Init(Flatten(bs))] else []
  }

  lemma DrainIsBatch(w: Bytes)
    ensures var r := ParseBoxes(w);
            && (Drain(Loaded(w)).0.passthrough <==> r.malformed)
            && Drain(Loaded(w)).1 == (if r.malformed then UpToSwitch(r.boxes) else Group(r.boxes))
            && (Drain(Loaded(w)).0.asm.initEmitted <==> NextMoof(r.boxes, 0) < |r.boxes|)
            && (!r.malformed ==> Drain(Loaded(w)).0.pending == r.rest)
            && (!r.malformed && NextMoof(r.boxes, 0) == |r.boxes| ==> Drain(Loaded(w)).0.asm.init == Flatten(r.boxes))
  {
    var bs := ParseBoxes(w).boxes;
    DrainIsParseThenFold(Loaded(w));
    assert bs[0..] == bs && bs[..0] == [];
    FoldHead(FRESH.asm, bs, 0);
    hide ScanBox, ParseBoxes, Drain, Fold, NextMoof, Group;
    if bs != [] {
      assert |bs[0]| >= 8 && Flatten(bs) != [];
    }
  }

  /** The segmenter refines the batch specification; passthrough is entered exactly on malformed streams,
      which give the boxes before the malformed one, grouped, and then the later chunks as they are. */
  lemma SegmenterIsBatch(chunks: seq<Bytes>)
    ensures var r := ParseBoxes(Flatten(chunks));
            && (FeedAll(FRESH, chunks).0.passthrough <==> r.malformed)
            && (!r.malformed ==> FeedAll(FRESH, chunks).1 == Group(r.boxes))
            && (!r.malformed ==> Cut(chunks) == BatchCut(Flatten(chunks)))
            && (r.malformed ==> Cut(chunks) == UpToSwitch(r.boxes) + Passed(chunks[SwitchAt(FRESH, chunks)..]))
  {
    var w := Flatten(chunks);
    var r := ParseBoxes(w);
    FreshFeedAll(chunks);
    DrainIsBatch(w);
    ParseConserves(w);
    hide ScanBox, ParseBoxes, Drain, FeedAll, NextMoof, SwitchAt;
    if r.malformed {
      assert Cut(chunks) == FeedAll(FRESH, chunks).1 + [];
    } else if NextMoof(r.boxes, 0) == |r.boxes| {
      assert Group(r.boxes) == [];
    }
  }

  // ---------------------------------------------------------------------------
  // Conservation of bytes
  // ---------------------------------------------------------------------------

  function Payload(segs: seq<Segment>): Bytes {
    if segs == [] then [] else segs[0].bytes + Payload(segs[1..])
  }

  lemma {:induction false} PayloadConcat(a: seq<Segment>, b: seq<Segment>)
    ensures Payload(a + b) == Payload(a) + Payload(b)
  {
    if a == [] {
      assert a + b == b;
    } else {
      assert (a + b)[1..] == a[1..] + b;
      PayloadConcat(a[1..], b);
    }
  }

  /** From box `i` on, whole fragments follow each other without a gap up to the end. */
  predicate Tiled(bs: seq<Box>, i: nat)
    requires i <= |bs|
    decreases |bs| - i
  {
    i == |bs| ||
    (KindOf(bs[i]) == Moof && FragmentEnd(bs, i + 1).Some? && Tiled(bs, FragmentEnd(bs, i + 1).value))
  }

  lemma FlattenRange(bs: seq<Box>, i: nat, j: nat)
    requires i <= j <= |bs|
    ensures Flatten(bs[i..]) == Flatten(bs[i..j]) + Flatten(bs[j..])
    ensures i < j ==> |Flatten(bs[i..j])| > 0
  {
    assert bs[i..] == bs[i..j] + bs[j..];
    FlattenConcat(bs[i..j], bs[j..]);
    assert i < j ==> bs[i..j][0] == bs[i];
  }

  lemma TiledStep(bs: seq<Box>, i: nat)
    requires i < |bs|
    ensures var k := NextMoof(bs, i);
            var e := if k < |bs| then FragmentEnd(bs, k + 1) else None;
            && Fragments(bs, i) ==
               (if e.None? then [] else [Fragment(Flatten(bs[k..e.value]))] + Fragments(bs, e.value))
            && (Tiled(bs, i) <==> k == i && e.Some? && Tiled(bs, e.value))
  {
    hide KindOf;
  }

  lemma {:induction false} FragmentsKeepBytes(bs: seq<Box>, i: nat)
    requires i <= |bs|
    ensures Tiled(bs, i) ==> Payload(Fragments(bs, i)) == Flatten(bs[i..])
    ensures !Tiled(bs, i) ==> |Payload(Fragments(bs, i))| < |Flatten(bs[i..])|
    decreases |bs| - i
  {
    hide KindOf, Fragments, FragmentFrom, NextMoof, FragmentEnd, Payload, Flatten, Tiled;
    NothingLeft(bs);
    if i < |bs| {
      TiledStep(bs, i);
      var k := NextMoof(bs, i);
      FlattenRange(bs, i, k);
      if k < |bs| {
        var e := FragmentEnd(bs, k + 1);
        var end := if e.Some? then e.value else |bs|;
        FlattenRange(bs, k, end);
        if e.Some? {
          FragmentsKeepBytes(bs, end);
          PayloadCons(Fragment(Flatten(bs[k..end])), Fragments(bs, end));
        }
      } else {
        assert bs[i..k] == bs[i..];
      }
    }
  }

  lemma NothingLeft(bs: seq<Box>)
    ensures Payload([]) == [] && Tiled(bs, |bs|)
    ensures Fragments(bs, |bs|) == [] && Flatten(bs[|bs|..]) == []
  {
  }

  lemma PayloadCons(s: Segment, rest: seq<Segment>)
    ensures Payload([s] + rest) == s.bytes + Payload(rest)
  {
    assert ([s] + rest)[1..] == rest;
  }

  lemma GroupKeepsBytes(bs: seq<Box>)
    ensures var k := NextMoof(bs, 0);
            && (k < |bs| && Tiled(bs, k) ==> Payload(Group(bs)) == Flatten(bs))
            && (k < |bs| && !Tiled(bs, k) ==> |Payload(Group(bs))| < |Flatten(bs)|)
            && (k == |bs| ==> Group(bs) == [])
  {
    var k := NextMoof(bs, 0);
    FragmentsAtEnd(bs);
    FragmentsKeepBytes(bs, k);
    hide NextMoof, Fragments, Tiled;
    var head := if 0 < k < |bs| then [Init(Flatten(bs[..k]))] else [];
    PayloadConcat(head, Fragments(bs, k));
    assert bs[0..] == bs && bs[0..k] == bs[..k];
    FlattenRange(bs, 0, k);
    if k < |bs| {
      assert Payload(head) == Flatten(bs[..k]);
    }
  }

  lemma UpToSwitchKeepsBytes(bs: seq<Box>)
    ensures |Payload(UpToSwitch(bs))| <= |Flatten(bs)|
  {
    GroupKeepsBytes(bs);
    hide Group, NextMoof, Tiled;
    if bs != [] && NextMoof(bs, 0) == |bs| {
      PayloadCons(Init(Flatten(bs)), []);
      assert [Init(Flatten(bs))] + [] == [Init(Flatten(bs))] == UpToSwitch(bs);
    } else {
      assert UpToSwitch(bs) == Group(bs) + [] == Group(bs);
    }
  }

  lemma {:induction false} PassedKeepsBytes(cs: seq<Bytes>)
    ensures Payload(Passed(cs)) == Flatten(cs)
  {
    if cs != [] {
      assert Passed(cs)[1..] == Passed(cs[1..]);
      PassedKeepsBytes(cs[1..]);
    }
  }

  /** The chunks fed up to and including the switch are enough to switch. */
  lemma {:induction false} SwitchAtSwitches(s: State, cs: seq<Bytes>)
    requires FeedAll(s, cs).0.passthrough
    ensures FeedAll(s, cs[..SwitchAt(s, cs)]).0.passthrough
    decreases cs
  {
    hide FeedChunk;
    if cs != [] && !s.passthrough {
      var s1 := FeedChunk(s, cs[0]).0;
      SwitchAtSwitches(s1, cs[1..]);
      var k := SwitchAt(s1, cs[1..]);
      assert cs[..1 + k][1..] == cs[1..][..k];
    }
  }

  /** Nothing behind a malformed box is ever parsed. */
  lemma {:induction false} MalformedStays(p: Bytes, c: Bytes)
    requires ParseBoxes(p).malformed
    ensures ParseBoxes(p + c).malformed && ParseBoxes(p + c).boxes == ParseBoxes(p).boxes
  {
    ScanGrows(p, c);
    hide ScanBox;
    var scan := ScanBox(p);
    if scan.Whole? {
      var n := scan.total;
      assert (p + c)[..n] == p[..n] && (p + c)[n..] == p[n..] + c;
      MalformedStays(p[n..], c);
    }
  }

  lemma MalformedIsLong(p: Bytes)
    ensures ScanBox(p).Malformed? ==> |p| >= 8
  {
  }

  /** At a switch at least the eight bytes of the malformed box's header are lost. */
  lemma MalformedLosesBytes(chunks: seq<Bytes>)
    requires ParseBoxes(Flatten(chunks)).malformed
    ensures |Payload(Cut(chunks))| + 8 <= |Flatten(chunks)|
  {
    hide ParseBoxes, FeedAll, Drain, SwitchAt, Cut, UpToSwitch, ScanBox;
    SegmenterIsBatch(chunks);
    var k := SwitchAt(FRESH, chunks);
    SwitchAtSwitches(FRESH, chunks);
    var p, q := chunks[..k], chunks[k..];
    assert chunks == p + q;
    FlattenConcat(p, q);
    SegmenterIsBatch(p);
    MalformedStays(Flatten(p), Flatten(q));
    var r := ParseBoxes(Flatten(p));
    ParseConserves(Flatten(p));
    MalformedIsLong(r.rest);
    PayloadConcat(UpToSwitch(r.boxes), Passed(q));
    UpToSwitchKeepsBytes(r.boxes);
    PassedKeepsBytes(q);
  }

  /** Every byte of the stream is in some segment. */
  predicate Kept(r: Parse) {
    var k := NextMoof(r.boxes, 0);
    !r.malformed && (k == |r.boxes| || (r.rest == [] && Tiled(r.boxes, k)))
  }

  /** However the stream is chunked, the segments concatenate to exactly the input if and only if it parses
      as boxes and either has no `moof`, or ends at a box boundary, its last fragment complete and nothing
      between an `mdat` and the next `moof`. Otherwise they fall short of it. */
  lemma BytesKeptExactly(chunks: seq<Bytes>)
    ensures Payload(Cut(chunks)) == Flatten(chunks) <==> Kept(ParseBoxes(Flatten(chunks)))
    ensures !Kept(ParseBoxes(Flatten(chunks))) ==> |Payload(Cut(chunks))| < |Flatten(chunks)|
  {
    var w := Flatten(chunks);
    var r := ParseBoxes(w);
    hide ScanBox, ParseBoxes, NextMoof, Cut, Group, Tiled;
    if r.malformed {
      MalformedLosesBytes(chunks);
    } else {
      SegmenterIsBatch(chunks);
      ParseConserves(w);
      GroupKeepsBytes(r.boxes);
      if NextMoof(r.boxes, 0) == |r.boxes| && w != [] {
        PayloadCons(Init(w), []);
        assert [Init(w)] + [] == [Init(w)];
      }
    }
  }

  // ---------------------------------------------------------------------------
  // Streams that show the limits
  // ---------------------------------------------------------------------------

  const ZEROS: Bytes := [0, 0, 0, 0, 0, 0, 0, 0]

  /** Nine zero bytes, fed at once, give nothing; the ninth fed on its own is a segment. */
  lemma ChunkingMatters()
    ensures FeedAll(FRESH, [ZEROS + [0]]).1 == []
    ensures FeedAll(FRESH, [ZEROS, [0]]).1 == [Fragment([0])]
  {
    var all := ZEROS + [0];
    assert ScanBox(ZEROS) == Malformed && ScanBox(all) == Malformed;
    FreshFeedOne(all);
    FreshFeedOne(ZEROS);
    DrainStep(Loaded(all));
    DrainStep(Loaded(ZEROS));
    FeedAllSnoc(FRESH, [ZEROS], [0]);
    assert [ZEROS] + [[0]] == [ZEROS, [0]];
  }

  const MOOF: Box := [0, 0, 0, 8, 0x6d, 0x6f, 0x6f, 0x66]
  const MDAT: Box := [0, 0, 0, 8, 0x6d, 0x64, 0x61, 0x74]
  const FREE: Box := [0, 0, 0, 8, 0x66, 0x72, 0x65, 0x65]

  /** A box between two fragments is in no segment: here a `free` box of eight bytes. */
  lemma BoxBetweenIsLost()
    ensures Cut([Flatten([MOOF, MDAT, FREE, MOOF, MDAT])]) == [Fragment(MOOF + MDAT), Fragment(MOOF + MDAT)]
  {
    hide Cut, Flatten;
    assert WholeBox(MOOF) && WholeBox(MDAT) && WholeBox(FREE);
    assert MDAT[4..8][1] == 0x64 && FREE[4..8][0] == 0x66;
    assert KindOf(MOOF) == Moof && KindOf(MDAT) == Mdat && KindOf(FREE) == Other;
    BoxBetween(MOOF, MDAT, FREE);
  }

  lemma BoxBetween(a: Box, b: Box, c: Box)
    requires WholeBox(a) && WholeBox(b) && WholeBox(c)
    requires KindOf(a) == Moof && KindOf(b) == Mdat && KindOf(c) == Other
    ensures Cut([Flatten([a, b, c, a, b])]) == [Fragment(a + b), Fragment(a + b)]
  {
    hide Cut, WholeBox, ParseBoxes, KindOf, Flatten, Group, FeedAll, UpToSwitch;
    var bs: seq<Box> := [a, b, c, a, b];
    ReparseBoxes(bs);
    FlattenOne(Flatten(bs));
    SegmenterIsBatch([Flatten(bs)]);
    GroupOfFive(bs);
  }

  lemma GroupOfFive(bs: seq<Box>)
    requires |bs| == 5 && KindOf(bs[0]) == KindOf(bs[3]) == Moof && KindOf(bs[1]) == KindOf(bs[4]) == Mdat
    requires KindOf(bs[2]) == Other
    ensures NextMoof(bs, 0) == 0
    ensures Group(bs) == [Fragment(bs[0] + bs[1]), Fragment(bs[3] + bs[4])]
  {
    hide KindOf, Fragments, FragmentFrom, Flatten;
    FragmentsStep(bs, 0);
    FragmentFromStep(bs, 0, 1);
    FragmentsStep(bs, 2);
    FragmentsStep(bs, 3);
    FragmentFromStep(bs, 3, 4);
    FragmentsAtEnd(bs);
    FlattenPair(bs[0], bs[1]);
    FlattenPair(bs[3], bs[4]);
    assert bs[0..2] == [bs[0], bs[1]] && bs[3..5] == [bs[3], bs[4]];
  }

  lemma FlattenPair(a: Bytes, b: Bytes)
    ensures Flatten([a, b]) == a + b
  {
    FlattenOne(b);
    assert [a, b][1..] == [b];
  }
}
