/** The name decoder meets the pointer-following definition of a name, up to four hops. */
module DnsTheorems {
  import opened Bytes
  import opened DnsNames

  /** A name stands for at most one label list, reached in one number of hops. */
  lemma {:induction false} DenotesOnce(data: Bytes, pos: nat, a: seq<Bytes>, h: nat, b: seq<Bytes>, k: nat)
    requires Denotes(data, pos, a, h) && Denotes(data, pos, b, k)
    ensures a == b && h == k
    decreases h, |a|
  {
    if data[pos] == 0 {
    } else if data[pos] >= 192 {
      DenotesOnce(data, PointerAt(data, pos), a, h - 1, b, k - 1);
    } else {
      DenotesOnce(data, pos + 1 + |a[0]|, a[1..], h, b[1..], k);
      assert a == [a[0]] + a[1..] && b == [b[0]] + b[1..];
    }
  }

  lemma {:induction false} DecodedIsDenoted(data: Bytes, pos: nat, depth: nat, visited: seq<nat>) returns (hops: nat)
    requires pos <= |data| && depth <= MAX_POINTER_DEPTH && NameFrom(data, pos, depth, visited).Ok?
    ensures depth + hops <= MAX_POINTER_DEPTH
    ensures Denotes(data, pos, NameFrom(data, pos, depth, visited).value, hops)
    decreases MAX_POINTER_DEPTH - depth, |data| - pos
  {
    if data[pos] == 0 {
      hops := 0;
    } else if data[pos] >= 192 {
      var offset := PointerAt(data, pos);
      hops := DecodedIsDenoted(data, offset, depth + 1, visited + [offset]);
      hops := hops + 1;
    } else {
      var next := pos + 1 + data[pos] as int;
      hops := DecodedIsDenoted(data, next, depth, visited);
      var rest := NameFrom(data, next, depth, visited).value;
      assert ([data[pos + 1..next]] + rest)[1..] == rest;
    }
  }

  /** Every visited offset denotes a name that needs at least `hops` more pointers. */
  ghost predicate AllDeeper(data: Bytes, visited: seq<nat>, hops: nat) {
    forall v <- visited :: exists l, h :: hops <= h && Denotes(data, v, l, h)
  }

  lemma {:induction false} DenotedIsDecoded(
    data: Bytes, pos: nat, labels: seq<Bytes>, hops: nat, depth: nat, visited: seq<nat>)
    requires pos <= |data| && depth + hops <= MAX_POINTER_DEPTH
    requires Denotes(data, pos, labels, hops) && AllDeeper(data, visited, hops)
    ensures NameFrom(data, pos, depth, visited) == Ok(labels)
    decreases hops, |labels|
  {
    if data[pos] == 0 {
    } else if data[pos] >= 192 {
      var offset := PointerAt(data, pos);
      NotVisited(data, visited, offset, labels, hops);
      DeeperStill(data, visited, offset, labels, hops);
      DenotedIsDecoded(data, offset, labels, hops - 1, depth + 1, visited + [offset]);
    } else {
      DenotedIsDecoded(data, pos + 1 + |labels[0]|, labels[1..], hops, depth, visited);
      assert labels == [labels[0]] + labels[1..];
    }
  }

  /** The cycle guard never strikes on a name that has a meaning. */
  lemma NotVisited(data: Bytes, visited: seq<nat>, offset: nat, labels: seq<Bytes>, hops: nat)
    requires hops > 0 && AllDeeper(data, visited, hops) && Denotes(data, offset, labels, hops - 1)
    ensures offset !in visited
  {
    hide Denotes;
    if offset in visited {
      var l, h :| hops <= h && Denotes(data, offset, l, h);
      DenotesOnce(data, offset, l, h, labels, hops - 1);
    }
  }

  lemma DeeperStill(data: Bytes, visited: seq<nat>, offset: nat, labels: seq<Bytes>, hops: nat)
    requires hops > 0 && AllDeeper(data, visited, hops) && Denotes(data, offset, labels, hops - 1)
    ensures AllDeeper(data, visited + [offset], hops - 1)
  {
    hide Denotes;
    forall v | v in visited + [offset] ensures exists l, h :: hops - 1 <= h && Denotes(data, v, l, h) {
      if v in visited {
        var l, h :| hops <= h && Denotes(data, v, l, h);
        assert hops - 1 <= h;
      }
    }
  }

  /** The name at `pos` has this meaning through at most four pointers. */
  ghost predicate Means(data: Bytes, pos: nat, labels: seq<Bytes>) {
    exists hops: nat :: hops <= MAX_POINTER_DEPTH && Denotes(data, pos, labels, hops)
  }

  /** On every packet and offset the decoder yields a label list if and only if that is what the name means. */
  lemma NameDecoderExact(data: Bytes, pos: nat, labels: seq<Bytes>)
    requires pos <= |data|
    ensures NameFrom(data, pos, 0, []) == Ok(labels) <==> Means(data, pos, labels)
  {
    hide Denotes, NameFrom;
    if NameFrom(data, pos, 0, []) == Ok(labels) {
      var hops := DecodedIsDenoted(data, pos, 0, []);
    }
    if Means(data, pos, labels) {
      var hops: nat :| hops <= MAX_POINTER_DEPTH && Denotes(data, pos, labels, hops);
      DenotedIsDecoded(data, pos, labels, hops, 0, []);
    }
  }

  // ---------------------------------------------------------------------------
  // What each error means
  // ---------------------------------------------------------------------------

  /** Stepping over labels and following pointers to `targets`, one after the other, leads from `pos` to `p`. */
  ghost predicate Walks(data: Bytes, pos: nat, p: nat, targets: seq<nat>)
    decreases |targets|, |data| - pos
  {
    || (pos == p && targets == [])
    || (&& pos < |data| && data[pos] != 0
        && if data[pos] >= 192 then
             && targets != [] && pos + 1 < |data|
             && targets[0] == PointerAt(data, pos) && targets[0] < |data|
             && Walks(data, targets[0], p, targets[1..])
           else
             && data[pos] < 64 && pos + 1 + data[pos] as int <= |data|
             && Walks(data, pos + 1 + data[pos] as int, p, targets))
  }

  /** At `p`, reached through the pointers to `visited`, the name breaks off for the reason `e`. */
  predicate BreaksOff(data: Bytes, p: nat, visited: seq<nat>, e: DnsError) {
    match e
    case Truncated(n) =>
      && n == |data|
      && (|| p == |data|
          || (p < |data| && data[p] >= 192 && |visited| < MAX_POINTER_DEPTH && p + 1 == |data|)
          || (p < |data| && 0 < data[p] < 64 && p + 1 + data[p] as int > |data|))
    case BadLabelLength(b) => p < |data| && 64 <= data[p] < 192 && b == data[p] as int
    case PointerDepthExceeded => p < |data| && data[p] >= 192 && |visited| == MAX_POINTER_DEPTH
    case PointerOutOfBounds(offset) =>
      && p + 1 < |data| && data[p] >= 192 && |visited| < MAX_POINTER_DEPTH
      && offset == PointerAt(data, p) && offset >= |data|
    case PointerCycle =>
      && p + 1 < |data| && data[p] >= 192 && |visited| < MAX_POINTER_DEPTH
      && PointerAt(data, p) < |data| && PointerAt(data, p) in visited
  }

  /** No pointer is followed to the same place twice. */
  ghost predicate AllNew(visited: seq<nat>, targets: seq<nat>) {
    forall i :: 0 <= i < |targets| ==> targets[i] !in visited && targets[i] !in targets[..i]
  }

  lemma AllNewStep(visited: seq<nat>, target: nat, targets: seq<nat>)
    ensures AllNew(visited, [target] + targets) <==> target !in visited && AllNew(visited + [target], targets)
  {
    var all := [target] + targets;
    assert forall i :: 0 <= i < |targets| ==> all[..i + 1] == [target] + targets[..i];
    if AllNew(visited, all) {
      forall i | 0 <= i < |targets| ensures targets[i] !in visited + [target] && targets[i] !in targets[..i] {
        assert all[i + 1] == targets[i] && all[..i + 1] == [target] + targets[..i];
        assert all[i + 1] !in all[..i + 1];
      }
      assert all[0] == target;
    }
  }

  lemma {:induction false} ErrorTells(data: Bytes, pos: nat, visited: seq<nat>) returns (p: nat, targets: seq<nat>)
    requires pos <= |data| && |visited| <= MAX_POINTER_DEPTH && NameFrom(data, pos, |visited|, visited).Err?
    ensures |visited| + |targets| <= MAX_POINTER_DEPTH && AllNew(visited, targets)
    ensures Walks(data, pos, p, targets)
    ensures BreaksOff(data, p, visited + targets, NameFrom(data, pos, |visited|, visited).error)
    decreases MAX_POINTER_DEPTH - |visited|, |data| - pos
  {
    hide NameFrom;
    NameStep(data, pos, |visited|, visited);
    p, targets := pos, [];
    assert visited + [] == visited;
    if pos < |data| && 0 < data[pos] < 64 && pos + 1 + data[pos] as int <= |data| {
      p, targets := ErrorTells(data, pos + 1 + data[pos] as int, visited);
    } else if pos < |data| && data[pos] >= 192 {
      PointerStep(data, pos, |visited|, visited);
      if |visited| < MAX_POINTER_DEPTH && pos + 1 < |data| {
        var target := PointerAt(data, pos);
        if target < |data| && target !in visited {
          p, targets := ErrorTells(data, target, visited + [target]);
          AllNewStep(visited, target, targets);
          assert visited + [target] + targets == visited + ([target] + targets);
          assert ([target] + targets)[1..] == targets;
          targets := [target] + targets;
        }
      }
    }
  }

  lemma {:induction false} BreakShows(data: Bytes, pos: nat, visited: seq<nat>, p: nat, targets: seq<nat>, e: DnsError)
    requires pos <= |data| && |visited| + |targets| <= MAX_POINTER_DEPTH && AllNew(visited, targets)
    requires Walks(data, pos, p, targets) && BreaksOff(data, p, visited + targets, e)
    ensures NameFrom(data, pos, |visited|, visited) == Err(e)
    decreases |targets|, |data| - pos
  {
    hide NameFrom;
    NameStep(data, pos, |visited|, visited);
    if pos < |data| && data[pos] >= 192 {
      PointerStep(data, pos, |visited|, visited);
    }
    if pos == p && targets == [] {
      assert visited + targets == visited;
    } else if data[pos] >= 192 {
      var target, rest := targets[0], targets[1..];
      assert targets == [target] + rest;
      AllNewStep(visited, target, rest);
      assert visited + [target] + rest == visited + targets;
      BreakShows(data, target, visited + [target], p, rest, e);
    } else {
      BreakShows(data, pos + 1 + data[pos] as int, visited, p, targets, e);
    }
  }

  /** Following at most four pointers, never twice to the same place, the name breaks off for the reason `e`. */
  ghost predicate FailsWith(data: Bytes, pos: nat, e: DnsError) {
    exists p: nat, targets ::
      && |targets| <= MAX_POINTER_DEPTH && AllNew([], targets)
      && Walks(data, pos, p, targets) && BreaksOff(data, p, targets, e)
  }

  /** The decoder reports an error if and only if the name breaks off for that reason. */
  lemma ErrorsExactly(data: Bytes, pos: nat, e: DnsError)
    requires pos <= |data|
    ensures NameFrom(data, pos, 0, []) == Err(e) <==> FailsWith(data, pos, e)
  {
    hide NameFrom, Walks, BreaksOff, AllNew;
    if NameFrom(data, pos, 0, []) == Err(e) {
      var p, targets := ErrorTells(data, pos, []);
      assert [] + targets == targets;
    }
    if p: nat, targets :| |targets| <= MAX_POINTER_DEPTH && AllNew([], targets)
                          && Walks(data, pos, p, targets) && BreaksOff(data, p, targets, e) {
      assert [] + targets == targets;
      BreakShows(data, pos, [], p, targets, e);
    }
  }

  /** Room for `k` more passes over a packet of `n` octets. */
  function Room(k: nat, n: nat): nat {
    if k == 0 then 0 else n + Room(k - 1, n)
  }

  lemma {:induction false} OctetsFrom(data: Bytes, pos: nat, depth: nat, visited: seq<nat>)
    requires pos <= |data| && depth <= MAX_POINTER_DEPTH && NameFrom(data, pos, depth, visited).Ok?
    ensures Octets(NameFrom(data, pos, depth, visited).value) <= |data| - pos + Room(MAX_POINTER_DEPTH - depth, |data|)
    decreases MAX_POINTER_DEPTH - depth, |data| - pos
  {
    if data[pos] == 0 {
    } else if data[pos] >= 192 {
      var offset := PointerAt(data, pos);
      OctetsFrom(data, offset, depth + 1, visited + [offset]);
    } else {
      var next := pos + 1 + data[pos] as int;
      OctetsFrom(data, next, depth, visited);
      var rest := NameFrom(data, next, depth, visited).value;
      assert ([data[pos + 1..next]] + rest)[1..] == rest;
    }
  }

  /** A packet cannot expand a name beyond five times its own size. */
  lemma OctetsBounded(data: Bytes, pos: nat)
    requires pos <= |data| && NameFrom(data, pos, 0, []).Ok?
    ensures Octets(NameFrom(data, pos, 0, []).value) <= 5 * |data|
  {
    OctetsFrom(data, pos, 0, []);
    var n := |data|;
    assert Room(1, n) == n && Room(2, n) == n + Room(1, n);
    assert Room(3, n) == n + Room(2, n) && Room(4, n) == n + Room(3, n);
  }

  // ---------------------------------------------------------------------------
  // Compression is transparent
  // ---------------------------------------------------------------------------

  ghost predicate ValidLabels(labels: seq<Bytes>) {
    forall l <- labels :: 0 < |l| < 64
  }

  /** The labels, each after its length, without the final zero octet. */
  function Prefix(labels: seq<Bytes>): Bytes
    requires ValidLabels(labels)
  {
    if labels == [] then [] else LabelBytes(labels[0]) + Prefix(labels[1..])
  }

  /** The bytes `s` stand at `pos`. */
  predicate At(data: Bytes, pos: nat, s: Bytes) {
    pos + |s| <= |data| && data[pos..pos + |s|] == s
  }

  lemma AtConcat(data: Bytes, pos: nat, a: Bytes, b: Bytes)
    requires At(data, pos, a + b)
    ensures At(data, pos, a) && At(data, pos + |a|, b)
  {
    var s := data[pos..pos + |a + b|];
    assert data[pos..pos + |a|] == s[..|a|] == a;
    assert data[pos + |a|..pos + |a| + |b|] == s[|a|..] == b;
  }

  /** Labels in front of any name: they are prepended to what it denotes. */
  lemma {:induction false} LabelsInFront(data: Bytes, pos: nat, labels: seq<Bytes>, suffix: seq<Bytes>, hops: nat)
    requires ValidLabels(labels) && At(data, pos, Prefix(labels))
    requires Denotes(data, pos + |Prefix(labels)|, suffix, hops)
    ensures Denotes(data, pos, labels + suffix, hops)
    decreases labels
  {
    hide Denotes, At;
    if labels == [] {
      assert labels + suffix == suffix;
    } else {
      var l, rest := labels[0], labels[1..];
      assert l in labels && ValidLabels(rest);
      AtConcat(data, pos, LabelBytes(l), Prefix(rest));
      LabelsInFront(data, pos + 1 + |l|, rest, suffix, hops);
      OneLabelInFront(data, pos, l, rest + suffix, hops);
      assert labels + suffix == [l] + (rest + suffix);
    }
  }

  lemma OneLabelInFront(data: Bytes, pos: nat, l: Bytes, rest: seq<Bytes>, hops: nat)
    requires 0 < |l| < 64 && At(data, pos, LabelBytes(l))
    requires Denotes(data, pos + 1 + |l|, rest, hops)
    ensures Denotes(data, pos, [l] + rest, hops)
  {
    AtConcat(data, pos, [|l|], l);
    assert data[pos] == data[pos..pos + 1][0];
    assert ([l] + rest)[1..] == rest;
  }

  /** An uncompressed name at any offset decodes to its labels. */
  lemma PlainNameDecodes(data: Bytes, pos: nat, labels: seq<Bytes>)
    requires ValidLabels(labels) && At(data, pos, NameBytes(labels))
    ensures NameFrom(data, pos, 0, []) == Ok(labels)
  {
    NameIsPrefixAndZero(labels);
    var n := |Prefix(labels)|;
    AtConcat(data, pos, Prefix(labels), [0]);
    assert data[pos + n] == data[pos + n..pos + n + 1][0] == 0;
    ZeroDenotesRoot(data, pos + n);
    LabelsInFront(data, pos, labels, [], 0);
    assert labels + [] == labels;
    hide Denotes, NameFrom;
    NameDecoderExact(data, pos, labels);
  }

  lemma ZeroDenotesRoot(data: Bytes, pos: nat)
    requires pos < |data| && data[pos] == 0
    ensures Denotes(data, pos, [], 0)
  {
  }

  lemma PointerDenotes(data: Bytes, pos: nat, labels: seq<Bytes>, hops: nat)
    requires pos + 1 < |data| && data[pos] >= 192 && PointerAt(data, pos) < |data|
    requires Denotes(data, PointerAt(data, pos), labels, hops)
    ensures Denotes(data, pos, labels, hops + 1)
  {
  }

  lemma {:induction false} NameIsPrefixAndZero(labels: seq<Bytes>)
    requires ValidLabels(labels)
    ensures NameBytes(labels) == Prefix(labels) + [0]
  {
    if labels != [] {
      NameIsPrefixAndZero(labels[1..]);
    }
  }

  /** The first `n` labels stand at `pos` one after the other, and behind them, at `p`, the name ends in place:
      with a zero octet if they are all, else with a pointer. */
  ghost predicate InPlace(data: Bytes, pos: nat, labels: seq<Bytes>, n: nat, p: nat) {
    && n <= |labels| && ValidLabels(labels[..n])
    && p == pos + |Prefix(labels[..n])| && At(data, pos, Prefix(labels[..n]))
    && p < |data| && (data[p] == 0 || (data[p] >= 192 && p + 1 < |data|))
    && (data[p] == 0 ==> n == |labels|)
  }

  /** The cursor ends just past the name's zero octet or first pointer. */
  lemma {:induction false} EndExactly(data: Bytes, pos: nat) returns (n: nat, p: nat)
    requires pos <= |data| && NameFrom(data, pos, 0, []).Ok?
    ensures InPlace(data, pos, NameFrom(data, pos, 0, []).value, n, p)
    ensures EndOfName(data, pos) == if data[p] == 0 then p + 1 else p + 2
    decreases |data| - pos
  {
    hide NameFrom, EndOfName;
    NameStep(data, pos, 0, []);
    var labels := NameFrom(data, pos, 0, []).value;
    n, p := 0, pos;
    assert labels[..0] == [];
    if data[pos] >= 192 {
      PointerStep(data, pos, 0, []);
    } else if data[pos] > 0 {
      var next := pos + 1 + data[pos] as int;
      var rest := NameFrom(data, next, 0, []).value;
      n, p := EndExactly(data, next);
      assert labels == [data[pos + 1..next]] + rest;
      LabelJoins(data, pos, next, rest[..n]);
      assert labels[..n + 1] == [data[pos + 1..next]] + rest[..n];
      n := n + 1;
    }
  }

  lemma LabelJoins(data: Bytes, pos: nat, next: nat, rest: seq<Bytes>)
    requires pos < |data| && 0 < data[pos] < 64 && next == pos + 1 + data[pos] as int <= |data|
    requires ValidLabels(rest) && At(data, next, Prefix(rest))
    ensures var all := [data[pos + 1..next]] + rest;
            && ValidLabels(all) && At(data, pos, Prefix(all))
            && |Prefix(all)| == next - pos + |Prefix(rest)|
  {
    var first := data[pos + 1..next];
    var all := [first] + rest;
    assert all[1..] == rest && all[0] == first;
    assert LabelBytes(first) == data[pos..next];
    var end := next + |Prefix(rest)|;
    assert data[pos..end] == data[pos..next] + data[next..end];
  }

  lemma DecodedWithinLimit(data: Bytes, pos: nat, labels: seq<Bytes>, hops: nat)
    requires pos <= |data| && Denotes(data, pos, labels, hops)
    ensures NameFrom(data, pos, 0, []) == Ok(labels) <==> hops <= MAX_POINTER_DEPTH
  {
    NameDecoderExact(data, pos, labels);
    hide Denotes, NameFrom;
    if h: nat :| h <= MAX_POINTER_DEPTH && Denotes(data, pos, labels, h) {
      DenotesOnce(data, pos, labels, h, labels, hops);
    }
  }

  /** Replacing a suffix by a pointer to another encoding of it, however that one is compressed, decodes to
      the same name if and only if the hop limit still allows it. */
  lemma CompressedNameDecodes(data: Bytes, pos: nat, labels: seq<Bytes>, suffix: seq<Bytes>, hops: nat)
    requires ValidLabels(labels)
    requires var p := pos + |Prefix(labels)|;
             && At(data, pos, Prefix(labels)) && p + 1 < |data| && data[p] >= 192
             && PointerAt(data, p) < |data| && Denotes(data, PointerAt(data, p), suffix, hops)
    ensures NameFrom(data, pos, 0, []) == Ok(labels + suffix) <==> hops < MAX_POINTER_DEPTH
  {
    hide Denotes, NameFrom, Prefix, At, ValidLabels;
    PointerDenotes(data, pos + |Prefix(labels)|, suffix, hops);
    LabelsInFront(data, pos, labels, suffix, hops + 1);
    DecodedWithinLimit(data, pos, labels + suffix, hops + 1);
  }

  // ---------------------------------------------------------------------------
  // Prior occurrences only
  // ---------------------------------------------------------------------------

  /** The stricter reading of the standard: as `Denotes`, with every pointer pointing before itself. */
  ghost predicate DenotesPrior(data: Bytes, pos: nat, labels: seq<Bytes>, hops: nat)
    decreases hops, |labels|
  {
    pos < |data| &&
    if data[pos] == 0 then labels == [] && hops == 0
    else if data[pos] >= 192 then
      && hops > 0 && pos + 1 < |data| && PointerAt(data, pos) < pos
      && DenotesPrior(data, PointerAt(data, pos), labels, hops - 1)
    else
      && data[pos] < 64 && labels != []
      && |labels[0]| == data[pos] as int && pos + 1 + |labels[0]| <= |data|
      && labels[0] == data[pos + 1..pos + 1 + |labels[0]|]
      && DenotesPrior(data, pos + 1 + |labels[0]|, labels[1..], hops)
  }

  /** Among the first `hops` pointers met from `pos` on, one does not point before itself. */
  predicate PointsForward(data: Bytes, pos: nat, hops: nat)
    decreases hops, |data| - pos
  {
    pos < |data| && data[pos] != 0 &&
    if data[pos] >= 192 then
      && hops > 0 && pos + 1 < |data|
      && (PointerAt(data, pos) >= pos || PointsForward(data, PointerAt(data, pos), hops - 1))
    else PointsForward(data, pos + 1 + data[pos] as int, hops)
  }

  lemma {:induction false} PriorExactly(data: Bytes, pos: nat, labels: seq<Bytes>, hops: nat)
    requires Denotes(data, pos, labels, hops)
    ensures DenotesPrior(data, pos, labels, hops) <==> !PointsForward(data, pos, hops)
    decreases hops, |labels|
  {
    if data[pos] == 0 {
    } else if data[pos] >= 192 {
      PriorExactly(data, PointerAt(data, pos), labels, hops - 1);
    } else {
      PriorExactly(data, pos + 1 + |labels[0]|, labels[1..], hops);
    }
  }

  lemma {:induction false} PriorDenotes(data: Bytes, pos: nat, labels: seq<Bytes>, hops: nat)
    requires DenotesPrior(data, pos, labels, hops)
    ensures Denotes(data, pos, labels, hops)
    decreases hops, |labels|
  {
    if data[pos] == 0 {
    } else if data[pos] >= 192 {
      PriorDenotes(data, PointerAt(data, pos), labels, hops - 1);
    } else {
      PriorDenotes(data, pos + 1 + |labels[0]|, labels[1..], hops);
    }
  }

  /** The stricter reading gives the name at `pos` this meaning through at most four pointers. */
  ghost predicate MeansPrior(data: Bytes, pos: nat, labels: seq<Bytes>) {
    exists hops: nat :: hops <= MAX_POINTER_DEPTH && DenotesPrior(data, pos, labels, hops)
  }

  lemma {:induction false} ForwardWithin(data: Bytes, pos: nat, labels: seq<Bytes>, hops: nat, more: nat)
    requires Denotes(data, pos, labels, hops) && hops <= more
    ensures PointsForward(data, pos, hops) == PointsForward(data, pos, more)
    decreases hops, |labels|
  {
    if data[pos] == 0 {
    } else if data[pos] >= 192 {
      ForwardWithin(data, PointerAt(data, pos), labels, hops - 1, more - 1);
    } else {
      ForwardWithin(data, pos + 1 + |labels[0]|, labels[1..], hops, more);
    }
  }

  /** A name that decodes has the stricter meaning exactly if no pointer on its way points forward; what has
      the stricter meaning always decodes to it. */
  lemma DecodesPriorExactly(data: Bytes, pos: nat, labels: seq<Bytes>)
    requires pos <= |data|
    ensures MeansPrior(data, pos, labels) <==>
            NameFrom(data, pos, 0, []) == Ok(labels) && !PointsForward(data, pos, MAX_POINTER_DEPTH)
  {
    hide Denotes, DenotesPrior, NameFrom, PointsForward;
    NameDecoderExact(data, pos, labels);
    if hops: nat :| hops <= MAX_POINTER_DEPTH && DenotesPrior(data, pos, labels, hops) {
      PriorDenotes(data, pos, labels, hops);
      PriorExactly(data, pos, labels, hops);
      ForwardWithin(data, pos, labels, hops, MAX_POINTER_DEPTH);
    }
    if hops: nat :| hops <= MAX_POINTER_DEPTH && Denotes(data, pos, labels, hops) {
      PriorExactly(data, pos, labels, hops);
      ForwardWithin(data, pos, labels, hops, MAX_POINTER_DEPTH);
    }
  }

  /** A pointer to the name right behind it is followed, though nothing prior is there. */
  lemma ForwardPointerDecodes()
    ensures NameFrom([192, 2, 1, 97, 0], 0, 0, []) == Ok([[97]])
    ensures !MeansPrior([192, 2, 1, 97, 0], 0, [[97]])
  {
    var data: Bytes := [192, 2, 1, 97, 0];
    hide NameFrom, MeansPrior;
    assert PointerAt(data, 0) == 2;
    assert data[3..4] == [97];
    ZeroDenotesRoot(data, 4);
    assert Denotes(data, 2, [[97]], 0);
    PointerDenotes(data, 0, [[97]], 0);
    assert Means(data, 0, [[97]]);
    NameDecoderExact(data, 0, [[97]]);
    DecodesPriorExactly(data, 0, [[97]]);
  }
}
