/** Model of src/cast/proto.rs: LEB128 varints and the CastMessage protobuf codec. Text is kept as bytes. */
module Proto {
  import opened Bytes

  const MAX_FIELD_SIZE: nat := 16 * 1024 * 1024
  const TWO_64: nat := 0x1_0000_0000_0000_0000

  datatype ProtoError =
    | UnexpectedEnd(available: nat)
    | VarintOverflow
    | UnknownWireType(wire: nat)
    | MissingFieldNumber
    | TruncatedField(declared: nat, remaining: nat)
    | FieldTooLarge

  // ---------------------------------------------------------------------------
  // Varints
  // ---------------------------------------------------------------------------

  function Pow128(k: nat): (p: nat)
    ensures p > 0
  {
    if k == 0 then 1 else 128 * Pow128(k - 1)
  }

  function VarintBytes(v: nat): (b: Bytes)
    ensures |b| > 0
  {
    if v < 128 then [v] else [v % 128 + 128] + VarintBytes(v / 128)
  }

  /** The value and length of the varint at the front of `b`, of which `i` bytes worth `acc` are read. */
  function VarintFrom(b: Bytes, i: nat, acc: nat): (r: Result<(nat, nat), ProtoError>)
    requires i <= |b|
    ensures r.Ok? ==> i < r.value.1 <= |b|
    decreases |b| - i
  {
    if i == |b| then Err(UnexpectedEnd(|b|))
    else if i >= 10 || (i == 9 && b[i] as int % 128 > 1) then Err(VarintOverflow)
    else
      var sum := acc + b[i] as int % 128 * Pow128(i);
      if b[i] < 128 then Ok((sum, i + 1)) else VarintFrom(b, i + 1, sum)
  }

  function Varint(b: Bytes): (r: Result<(nat, nat), ProtoError>)
    ensures r.Ok? ==> 0 < r.value.1 <= |b|
  {
    VarintFrom(b, 0, 0)
  }

  method VarintEncode(value: nat) returns (out: Bytes)
    requires value < TWO_64
    ensures out == VarintBytes(value)
  {
    out := [];
    var rest := value;
    while true
      invariant out + VarintBytes(rest) == VarintBytes(value)
      decreases rest
    {
      var low := rest % 128;
      ghost var before := rest;
      rest := rest / 128;
      if rest == 0 {
        return out + [low];
      }
      assert VarintBytes(before) == [low + 128] + VarintBytes(rest);
      out := out + [low + 128];
    }
  }

  method VarintDecode(b: Bytes) returns (r: Result<(nat, nat), ProtoError>)
    ensures r == Varint(b)
  {
    var value: nat, scale: nat, index: nat := 0, 1, 0;
    while index < |b|
      invariant index <= |b| && scale == Pow128(index)
      invariant Varint(b) == VarintFrom(b, index, value)
    {
      if index >= 10 {
        return Err(VarintOverflow);
      }
      var low := b[index] as int % 128;
      if index == 9 && low > 1 {
        return Err(VarintOverflow);
      }
      value := value + low * scale;
      if b[index] < 128 {
        return Ok((value, index + 1));
      }
      scale := 128 * scale;
      index := index + 1;
    }
    return Err(UnexpectedEnd(|b|));
  }

  /** Bytes after a decoded varint do not matter. */
  lemma {:induction false} VarintPrefix(a: Bytes, b: Bytes, i: nat, acc: nat)
    requires i <= |a| && VarintFrom(a, i, acc).Ok?
    ensures VarintFrom(a + b, i, acc) == VarintFrom(a, i, acc)
    decreases |a| - i
  {
    if i < |a| && a[i] >= 128 {
      VarintPrefix(a, b, i + 1, acc + a[i] as int % 128 * Pow128(i));
    }
  }

  lemma VarintIgnoresTail(a: Bytes, b: Bytes)
    requires Varint(a).Ok?
    ensures Varint(a + b) == Varint(a)
  {
    VarintPrefix(a, b, 0, 0);
  }

  /** What is left of a 64-bit value after `i` groups of seven bits. */
  function Bound(i: nat): nat {
    match i
    case 0 => 0x1_0000_0000_0000_0000 case 1 => 0x200_0000_0000_0000 case 2 => 0x4_0000_0000_0000
    case 3 => 0x800_0000_0000 case 4 => 0x10_0000_0000 case 5 => 0x2000_0000 case 6 => 0x40_0000
    case 7 => 0x8000 case 8 => 0x100 case 9 => 2 case _ => 0
  }

  lemma BoundShrinks(i: nat, v: nat)
    requires v < Bound(i) && v >= 128
    ensures i < 9 && v / 128 < Bound(i + 1)
  {
  }

  lemma VarintFromStep(b: Bytes, i: nat, acc: nat)
    requires i < |b| && i <= 9 && (i == 9 ==> b[i] <= 1)
    ensures b[i] < 128 ==> VarintFrom(b, i, acc) == Ok((acc + b[i] as int * Pow128(i), i + 1))
    ensures b[i] >= 128 ==> VarintFrom(b, i, acc) == VarintFrom(b, i + 1, acc + (b[i] as int - 128) * Pow128(i))
  {
    hide Pow128;
    var low := b[i] as int % 128;
    assert low == if b[i] < 128 then b[i] as int else b[i] as int - 128;
  }

  lemma VarintBytesStep(v: nat)
    ensures VarintBytes(v) == if v < 128 then [v] else [v % 128 + 128] + VarintBytes(v / 128)
  {
  }

  lemma {:induction false} VarintReadsBack(pre: Bytes, v: nat, acc: nat)
    requires v < Bound(|pre|)
    ensures VarintFrom(pre + VarintBytes(v), |pre|, acc) ==
            Ok((acc + v * Pow128(|pre|), |pre| + |VarintBytes(v)|))
    decreases v
  {
    hide VarintFrom, VarintBytes;
    var i := |pre|;
    var b := pre + VarintBytes(v);
    VarintBytesStep(v);
    if v >= 128 {
      BoundShrinks(i, v);
      var low, high := v % 128, v / 128;
      assert b[i] == low + 128;
      assert b == (pre + [low + 128]) + VarintBytes(high);
      VarintReadsBack(pre + [low + 128], high, acc + low * Pow128(i));
      VarintFromStep(b, i, acc);
      ScaleSplits(high, low, Pow128(i));
    } else {
      assert b[i] == v;
      VarintFromStep(b, i, acc);
    }
  }

  lemma ScaleSplits(high: nat, low: nat, p: nat)
    ensures low * p + high * (128 * p) == (128 * high + low) * p
  {
  }

  /** Every 64-bit value is read back from its encoding, whatever follows. */
  lemma VarintRoundTrip(v: nat, rest: Bytes)
    requires v < TWO_64
    ensures Varint(VarintBytes(v) + rest) == Ok((v, |VarintBytes(v)|))
  {
    VarintReadsBack([], v, 0);
    assert [] + VarintBytes(v) == VarintBytes(v);
    VarintIgnoresTail(VarintBytes(v), rest);
  }

  /** Every byte from `i` up to `n` says that the value goes on, and the `n`-th, if there is one, that it ends. */
  predicate EndsAt(b: Bytes, i: nat, n: nat) {
    i <= n <= |b| && (forall j :: i <= j < n ==> b[j] >= 128) && (n < |b| ==> b[n] < 128)
  }

  lemma {:induction false} VerdictFrom(b: Bytes, i: nat, acc: nat) returns (n: nat)
    requires i <= |b| && i <= 10 && (i == 10 ==> b[9] < 130)
    ensures EndsAt(b, i, n)
    ensures VarintFrom(b, i, acc).Ok? <==> n < |b| && (n < 9 || (n == 9 && b[9] <= 1))
    ensures VarintFrom(b, i, acc).Ok? ==> VarintFrom(b, i, acc).value.1 == n + 1
    ensures VarintFrom(b, i, acc).Err? ==>
              VarintFrom(b, i, acc).error ==
              if n == |b| && (n <= 9 || (n == 10 && b[9] < 130)) then UnexpectedEnd(|b|) else VarintOverflow
    decreases |b| - i
  {
    hide Pow128;
    if i == |b| || b[i] < 128 {
      n := i;
    } else if i < 9 || (i == 9 && b[9] < 130) {
      n := VerdictFrom(b, i + 1, acc + b[i] as int % 128 * Pow128(i));
    } else {
      n := EndFrom(b, i);
    }
  }

  lemma {:induction false} EndFrom(b: Bytes, i: nat) returns (n: nat)
    requires i <= |b|
    ensures EndsAt(b, i, n)
    decreases |b| - i
  {
    n := i;
    if i < |b| && b[i] >= 128 {
      n := EndFrom(b, i + 1);
    }
  }

  /** A varint is read exactly if it ends within ten bytes and 64 bits; it is cut off exactly if it could still
      do so, and overflows otherwise. */
  lemma VarintVerdict(b: Bytes) returns (n: nat)
    ensures EndsAt(b, 0, n)
    ensures Varint(b).Ok? <==> n < |b| && (n < 9 || (n == 9 && b[9] <= 1))
    ensures Varint(b).Ok? ==> Varint(b).value.1 == n + 1
    ensures Varint(b).Err? ==>
              Varint(b).error ==
              if n == |b| && (n <= 9 || (n == 10 && b[9] < 130)) then UnexpectedEnd(|b|) else VarintOverflow
  {
    n := VerdictFrom(b, 0, 0);
  }

  lemma NextGroupFits(acc: nat, low: nat, p: nat)
    requires acc < p && low < 128
    ensures acc + low * p < 128 * p
  {
    assert low * p <= 127 * p;
  }

  lemma {:induction false} Pow128Grows(i: nat, j: nat)
    requires i <= j
    ensures Pow128(i) <= Pow128(j)
  {
    if i < j {
      Pow128Grows(i, j - 1);
    }
  }

  lemma Pow128At9()
    ensures Pow128(9) == 0x8000_0000_0000_0000
  {
    assert Pow128(3) == 0x20_0000;
    assert Pow128(6) == 0x20_0000 * Pow128(3);
  }

  lemma {:induction false} VarintFromFits(b: Bytes, i: nat, acc: nat)
    requires i <= |b| && (i <= 9 ==> acc < Pow128(i))
    ensures VarintFrom(b, i, acc).Ok? ==> VarintFrom(b, i, acc).value.0 < TWO_64
    decreases |b| - i
  {
    if i < |b| && i <= 9 {
      var low := b[i] as int % 128;
      if i == 9 {
        Pow128At9();
        if low <= 1 {
          assert low * Pow128(9) <= Pow128(9);
          assert VarintFrom(b, 10, acc + low * Pow128(9)).Err?;
        }
      } else {
        NextGroupFits(acc, low, Pow128(i));
        Pow128At9();
        Pow128Grows(i + 1, 9);
        VarintFromFits(b, i + 1, acc + low * Pow128(i));
      }
    }
  }

  /** No decoded value exceeds 64 bits, so no shift in the decoder ever loses a bit. */
  lemma VarintFits(b: Bytes)
    ensures Varint(b).Ok? ==> Varint(b).value.0 < TWO_64
  {
    VarintFromFits(b, 0, 0);
  }

  // ---------------------------------------------------------------------------
  // Messages
  // ---------------------------------------------------------------------------

  datatype PayloadType = Utf8 | Binary

  datatype CastMessage = CastMessage(
    protocolVersion: nat,
    sourceId: Bytes,
    destinationId: Bytes,
    namespace: Bytes,
    payloadType: PayloadType,
    payload: Bytes)

  const EMPTY := CastMessage(0, [], [], [], Utf8, [])

  /** One field as it stands on the wire. */
  datatype Field = Number(num: nat, value: nat) | Blob(num: nat, data: Bytes) | Skipped(num: nat)

  function TextField(num: nat, data: Bytes): Bytes {
    VarintBytes(8 * num + 2) + VarintBytes(|data|) + data
  }

  function EncodeMessage(source: Bytes, dest: Bytes, namespace: Bytes, payload: Bytes): Bytes {
    [8, 0] + TextField(2, source) + TextField(3, dest) + TextField(4, namespace) + [40, 0] + TextField(6, payload)
  }

  method EncodeCastMessage(source: Bytes, dest: Bytes, namespace: Bytes, payload: Bytes) returns (out: Bytes)
    requires |source| < TWO_64 && |dest| < TWO_64 && |namespace| < TWO_64 && |payload| < TWO_64
    ensures out == EncodeMessage(source, dest, namespace, payload)
  {
    hide TextField;
    out := [];
    var k1 := VarintEncode(8 * 1 + 0);
    out := out + k1 + [0];
    out := WriteLengthDelimited(out, 2, source);
    out := WriteLengthDelimited(out, 3, dest);
    out := WriteLengthDelimited(out, 4, namespace);
    var k5 := VarintEncode(8 * 5 + 0);
    out := out + k5 + [0];
    out := WriteLengthDelimited(out, 6, payload);
    assert [8] + [0] == [8, 0] && [40] + [0] == [40, 0];
  }

  method WriteLengthDelimited(before: Bytes, num: nat, data: Bytes) returns (out: Bytes)
    requires num < 0x1_0000_0000 && |data| < TWO_64
    ensures out == before + TextField(num, data)
  {
    var key := VarintEncode(8 * num + 2);
    var len := VarintEncode(|data|);
    out := before + key + len + data;
    assert out == before + (key + len + data);
  }

  /** The value of a field given its key, read from the bytes after the key. */
  function ReadValue(key: nat, b: Bytes): (r: Result<(Field, nat), ProtoError>)
    ensures r.Ok? ==> r.value.1 <= |b|
  {
    var num, wire := key / 8 % 0x1_0000_0000, key % 8;
    if wire !in {0, 1, 2, 5} then Err(UnknownWireType(wire))
    else if num == 0 then Err(MissingFieldNumber)
    else if wire == 1 || wire == 5 then
      var width := if wire == 1 then 8 else 4;
      if |b| < width then Err(UnexpectedEnd(|b|)) else Ok((Skipped(num), width))
    else match Varint(b)
      case Err(e) => Err(e)
      case Ok((value, n)) =>
        if wire == 0 then Ok((Number(num, value), n))
        else if value > MAX_FIELD_SIZE then Err(FieldTooLarge)
        else if n + value > |b| then Err(TruncatedField(value, |b| - n))
        else Ok((Blob(num, b[n..n + value]), n + value))
  }

  /** The field at the front of `b` and its length. */
  function ReadField(b: Bytes): (r: Result<(Field, nat), ProtoError>)
    ensures r.Ok? ==> 0 < r.value.1 <= |b|
  {
    match Varint(b)
    case Err(e) => Err(e)
    case Ok((key, n)) =>
      match ReadValue(key, b[n..])
      case Err(e) => Err(e)
      case Ok((field, len)) => Ok((field, n + len))
  }

  function Assign(m: CastMessage, f: Field): CastMessage {
    match f
    case Number(1, value) => m.(protocolVersion := value % 0x1_0000_0000)
    case Number(5, value) => m.(payloadType := if value == 1 then Binary else Utf8)
    case Blob(2, data) => m.(sourceId := data)
    case Blob(3, data) => m.(destinationId := data)
    case Blob(4, data) => m.(namespace := data)
    case Blob(6, data) => m.(payload := data)
    case _ => m
  }

  /** Decode field by field, starting from the message `m`. */
  function DecodeFrom(m: CastMessage, b: Bytes): Result<CastMessage, ProtoError>
    decreases |b|
  {
    if b == [] then Ok(m)
    else match ReadField(b)
      case Err(e) => Err(e)
      case Ok((f, n)) => DecodeFrom(Assign(m, f), b[n..])
  }

  function Decode(b: Bytes): Result<CastMessage, ProtoError> {
    DecodeFrom(EMPTY, b)
  }

  method DecodeCastMessage(b: Bytes) returns (r: Result<CastMessage, ProtoError>)
    ensures r == Decode(b)
  {
    hide ReadField, Assign;
    var message, pos := EMPTY, 0;
    while pos < |b|
      invariant pos <= |b|
      invariant Decode(b) == DecodeFrom(message, b[pos..])
    {
      var field := ReadFieldAt(b, pos);
      if field.Err? {
        return Err(field.error);
      }
      SuffixOfSuffix(b, pos, field.value.1);
      message, pos := Assign(message, field.value.0), pos + field.value.1;
    }
    return Ok(message);
  }

  /** Key, then value by wire type; the length returned covers both. */
  method ReadFieldAt(b: Bytes, start: nat) returns (r: Result<(Field, nat), ProtoError>)
    requires start < |b|
    ensures r == ReadField(b[start..])
  {
    var key := VarintDecode(b[start..]);
    if key.Err? {
      return Err(key.error);
    }
    var pos := start + key.value.1;
    SuffixOfSuffix(b, start, key.value.1);
    hide Varint;
    var num, wire := key.value.0 / 8 % 0x1_0000_0000, key.value.0 % 8;
    if wire !in {0, 1, 2, 5} {
      return Err(UnknownWireType(wire));
    }
    if num == 0 {
      return Err(MissingFieldNumber);
    }
    if wire == 1 || wire == 5 {
      var next := SkipFixed(if wire == 1 then 8 else 4, pos, |b|);
      return if next.Err? then Err(next.error) else Ok((Skipped(num), next.value - start));
    }
    var v := VarintDecode(b[pos..]);
    if v.Err? {
      return Err(v.error);
    }
    var at, value := pos + v.value.1, v.value.0;
    if wire == 0 {
      return Ok((Number(num, value), at - start));
    }
    if value > MAX_FIELD_SIZE {
      return Err(FieldTooLarge);
    }
    if at + value > |b| {
      return Err(TruncatedField(value, |b| - at));
    }
    SliceOfSuffix(b, pos, v.value.1, v.value.1 + value);
    return Ok((Blob(num, b[at..at + value]), at + value - start));
  }

  function SkipFixed(width: nat, pos: nat, len: nat): Result<nat, ProtoError>
    requires pos <= len
  {
    if pos + width > len then Err(UnexpectedEnd(len - pos)) else Ok(pos + width)
  }
}
