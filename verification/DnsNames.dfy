/** Model of the compressed-name decoder of src/cast/mdns.rs (section 4.1.4 of RFC 1035). Names are label
    lists; a label is its bytes. */
module DnsNames {
  import opened Bytes

  const MAX_POINTER_DEPTH: nat := 4

  datatype DnsError =
    | Truncated(available: nat)
    | PointerOutOfBounds(offset: nat)
    | PointerCycle
    | PointerDepthExceeded
    | BadLabelLength(byte: nat)

  // ---------------------------------------------------------------------------
  // What a name means
  // ---------------------------------------------------------------------------

  /** The 14-bit offset of the two-octet pointer at `pos`. */
  function PointerAt(data: Bytes, pos: nat): nat
    requires pos + 1 < |data|
  {
    data[pos] as int % 64 * 256 + data[pos + 1] as int
  }

  /** At `pos` stands a name with these labels, reached through exactly `hops` pointers: a zero octet ends
      it, a length octet 1..63 is followed by that label and the rest, a pointer stands for the name it
      points to. This is the pointer-following reading of the standard: a pointer may also point forward,
      as the code accepts, where the standard speaks of a prior occurrence. */
  ghost predicate Denotes(data: Bytes, pos: nat, labels: seq<Bytes>, hops: nat)
    decreases hops, |labels|
  {
    pos < |data| &&
    if data[pos] == 0 then labels == [] && hops == 0
    else if data[pos] >= 192 then
      && hops > 0 && pos + 1 < |data| && PointerAt(data, pos) < |data|
      && Denotes(data, PointerAt(data, pos), labels, hops - 1)
    else
      && data[pos] < 64 && labels != []
      && |labels[0]| == data[pos] as int && pos + 1 + |labels[0]| <= |data|
      && labels[0] == data[pos + 1..pos + 1 + |labels[0]|]
      && Denotes(data, pos + 1 + |labels[0]|, labels[1..], hops)
  }

  /** Just past the first pointer or zero octet met from `pos` on by stepping over labels. */
  function EndOfName(data: Bytes, pos: nat): nat
    decreases |data| - pos
  {
    if pos >= |data| then pos
    else if data[pos] == 0 then pos + 1
    else if data[pos] >= 192 then pos + 2
    else EndOfName(data, pos + 1 + data[pos] as int)
  }

  // ---------------------------------------------------------------------------
  // The decoder
  // ---------------------------------------------------------------------------

  /** What decoding at `pos` gives after `depth` hops through the offsets in `visited`. */
  function NameFrom(data: Bytes, pos: nat, depth: nat, visited: seq<nat>): Result<seq<Bytes>, DnsError>
    requires pos <= |data| && depth <= MAX_POINTER_DEPTH
    decreases MAX_POINTER_DEPTH - depth, |data| - pos
  {
    if pos == |data| then Err(Truncated(|data|))
    else if data[pos] == 0 then Ok([])
    else if data[pos] >= 192 then
      if depth >= MAX_POINTER_DEPTH then Err(PointerDepthExceeded)
      else if pos + 1 == |data| then Err(Truncated(|data|))
      else
        var offset := PointerAt(data, pos);
        if offset >= |data| then Err(PointerOutOfBounds(offset))
        else if offset in visited then Err(PointerCycle)
        else NameFrom(data, offset, depth + 1, visited + [offset])
    else if data[pos] >= 64 then Err(BadLabelLength(data[pos]))
    else
      var next := pos + 1 + data[pos] as int;
      if next > |data| then Err(Truncated(|data|))
      else match NameFrom(data, next, depth, visited)
        case Err(e) => Err(e)
        case Ok(labels) => Ok([data[pos + 1..next]] + labels)
  }

  /** One octet's worth of decoding, and of stepping over the name. */
  lemma NameStep(data: Bytes, pos: nat, depth: nat, visited: seq<nat>)
    requires pos <= |data| && depth <= MAX_POINTER_DEPTH
    ensures pos == |data| ==> NameFrom(data, pos, depth, visited) == Err(Truncated(|data|))
    ensures pos < |data| && data[pos] == 0 ==>
              NameFrom(data, pos, depth, visited) == Ok([]) && EndOfName(data, pos) == pos + 1
    ensures pos < |data| && 64 <= data[pos] < 192 ==>
              NameFrom(data, pos, depth, visited) == Err(BadLabelLength(data[pos]))
    ensures pos < |data| && 0 < data[pos] < 64 ==>
              var next := pos + 1 + data[pos] as int;
              if next > |data| then NameFrom(data, pos, depth, visited) == Err(Truncated(|data|))
              else
                && EndOfName(data, pos) == EndOfName(data, next)
                && match NameFrom(data, next, depth, visited)
                   case Err(e) => NameFrom(data, pos, depth, visited) == Err(e)
                   case Ok(labels) => NameFrom(data, pos, depth, visited) == Ok([data[pos + 1..next]] + labels)
  {
  }

  /** A pointer's worth of decoding. */
  lemma PointerStep(data: Bytes, pos: nat, depth: nat, visited: seq<nat>)
    requires pos < |data| && data[pos] >= 192 && depth <= MAX_POINTER_DEPTH
    ensures EndOfName(data, pos) == pos + 2
    ensures NameFrom(data, pos, depth, visited) ==
            if depth >= MAX_POINTER_DEPTH then Err(PointerDepthExceeded)
            else if pos + 1 == |data| then Err(Truncated(|data|))
            else if PointerAt(data, pos) >= |data| then Err(PointerOutOfBounds(PointerAt(data, pos)))
            else if PointerAt(data, pos) in visited then Err(PointerCycle)
            else NameFrom(data, PointerAt(data, pos), depth + 1, visited + [PointerAt(data, pos)])
  {
  }

  class Parser {
    const data: Bytes
    var pos: nat

    ghost predicate Valid()
      reads this
    {
      pos <= |data|
    }

    constructor (data: Bytes, pos: nat)
      requires pos <= |data|
      ensures Valid() && this.data == data && this.pos == pos
    {
      this.data, this.pos := data, pos;
    }

    method ReadU8() returns (r: Result<byte, DnsError>)
      requires Valid()
      modifies this
      ensures Valid()
      ensures if old(pos) < |data| then r == Ok(data[old(pos)]) && pos == old(pos) + 1
              else r == Err(Truncated(|data|)) && pos == old(pos)
    {
      if pos >= |data| {
        return Err(Truncated(|data|));
      }
      r := Ok(data[pos]);
      pos := pos + 1;
    }

    method Take(len: nat) returns (r: Result<Bytes, DnsError>)
      requires Valid()
      modifies this
      ensures Valid()
      ensures if old(pos) + len <= |data| then r == Ok(data[old(pos)..old(pos) + len]) && pos == old(pos) + len
              else r == Err(Truncated(|data|)) && pos == old(pos)
    {
      if len > |data| - pos {
        return Err(Truncated(|data|));
      }
      r := Ok(data[pos..pos + len]);
      pos := pos + len;
    }

    /** Decode a name; on success the cursor is just past its first pointer or zero octet. */
    method ReadName() returns (r: Result<seq<Bytes>, DnsError>)
      requires Valid()
      modifies this
      ensures Valid()
      ensures r == NameFrom(data, old(pos), 0, [])
      ensures r.Ok? ==> pos == EndOfName(data, old(pos))
    {
      ghost var name := NameFrom(data, pos, 0, []);
      var error, labels := ReadNameInto([], 0, []);
      assert name.Ok? ==> [] + name.value == name.value;
      return if error.Some? then Err(error.value) else Ok(labels);
    }

    method ReadNameInto(before: seq<Bytes>, depth: nat, visited: seq<nat>)
      returns (error: Option<DnsError>, labels: seq<Bytes>)
      requires Valid() && depth <= MAX_POINTER_DEPTH
      modifies this
      ensures Valid()
      ensures match NameFrom(data, old(pos), depth, visited)
              case Err(e) => error == Some(e)
              case Ok(name) => error == None && labels == before + name && pos == EndOfName(data, old(pos))
      decreases MAX_POINTER_DEPTH - depth
    {
      hide NameFrom, EndOfName;
      labels := before;
      ghost var start := pos;
      ghost var result := NameFrom(data, start, depth, visited);
      while true
        invariant Valid()
        invariant EndOfName(data, start) == EndOfName(data, pos)
        invariant match NameFrom(data, pos, depth, visited)
                  case Err(e) => result == Err(e)
                  case Ok(name) => result.Ok? && before + result.value == labels + name
        decreases |data| - pos
      {
        ghost var so := labels;
        NameStep(data, pos, depth, visited);
        if pos < |data| && data[pos] >= 192 {
          PointerStep(data, pos, depth, visited);
        }
        var byte := ReadU8();
        if byte.Err? {
          return Some(byte.error), labels;
        }
        var b := byte.value;
        if b == 0 {
          assert labels + [] == labels;
          return None, labels;
        }
        if b >= 192 {
          if depth >= MAX_POINTER_DEPTH {
            return Some(PointerDepthExceeded), labels;
          }
          var low := ReadU8();
          if low.Err? {
            return Some(low.error), labels;
          }
          var offset := b as int % 64 * 256 + low.value as int;
          if offset >= |data| {
            return Some(PointerOutOfBounds(offset)), labels;
          }
          if offset in visited {
            return Some(PointerCycle), labels;
          }
          var saved := pos;
          pos := offset;
          error, labels := ReadNameInto(labels, depth + 1, visited + [offset]);
          pos := saved;
          return;
        }
        if b >= 64 {
          return Some(BadLabelLength(b)), labels;
        }
        var taken := Take(b);
        if taken.Err? {
          return Some(taken.error), labels;
        }
        labels := labels + [taken.value];
        ghost var rest := NameFrom(data, pos, depth, visited);
        if rest.Ok? {
          assert so + ([taken.value] + rest.value) == labels + rest.value;
        }
      }
    }
  }

  function Octets(labels: seq<Bytes>): nat {
    if labels == [] then 0 else |labels[0]| + Octets(labels[1..])
  }

  /** The uncompressed encoding: each label after its length, then a zero octet. */
  function NameBytes(labels: seq<Bytes>): Bytes
    requires forall l <- labels :: |l| < 64
  {
    if labels == [] then [0] else LabelBytes(labels[0]) + NameBytes(labels[1..])
  }

  function LabelBytes(l: Bytes): Bytes
    requires |l| < 64
  {
    [|l|] + l
  }

  lemma NameBytesStep(labels: seq<Bytes>, i: nat)
    requires i <= |labels| && forall l <- labels :: |l| < 64
    ensures forall l <- labels[i..] :: |l| < 64
    ensures i == |labels| ==> NameBytes(labels[i..]) == [0]
    ensures i < |labels| ==>
              && (forall l <- labels[i + 1..] :: |l| < 64) && |labels[i]| < 64
              && NameBytes(labels[i..]) == LabelBytes(labels[i]) + NameBytes(labels[i + 1..])
  {
    if i < |labels| {
      assert labels[i] in labels && labels[i..][1..] == labels[i + 1..];
    }
  }

  method EncodeName(labels: seq<Bytes>) returns (out: Bytes)
    requires forall l <- labels :: |l| < 64
    ensures out == NameBytes(labels)
  {
    hide NameBytes;
    out := [];
    var i := 0;
    assert labels[0..] == labels;
    NameBytesStep(labels, 0);
    while i < |labels|
      invariant i <= |labels| && forall l <- labels[i..] :: |l| < 64
      invariant out + NameBytes(labels[i..]) == NameBytes(labels)
    {
      NameBytesStep(labels, i);
      ghost var before, rest := out, NameBytes(labels[i + 1..]);
      out := out + [|labels[i]|] + labels[i];
      assert before + (LabelBytes(labels[i]) + rest) == out + rest;
      i := i + 1;
    }
    NameBytesStep(labels, i);
    out := out + [0];
  }
}
