/** The CastMessage codec: decoding is a fold over concatenation, and inverts encoding. */
module ProtoTheorems {
  import opened Bytes
  import opened Proto

  lemma ValueIgnoresTail(key: nat, a: Bytes, b: Bytes)
    requires ReadValue(key, a).Ok?
    ensures ReadValue(key, a + b) == ReadValue(key, a)
  {
    if key % 8 == 0 || key % 8 == 2 {
      VarintIgnoresTail(a, b);
      if key % 8 == 2 {
        var (value, n) := Varint(a).value;
        assert (a + b)[n..n + value] == a[n..n + value];
      }
    }
  }

  lemma FieldIgnoresTail(a: Bytes, b: Bytes)
    requires ReadField(a).Ok?
    ensures ReadField(a + b) == ReadField(a)
  {
    VarintIgnoresTail(a, b);
    var (key, n) := Varint(a).value;
    assert (a + b)[n..] == a[n..] + b;
    hide Varint, ReadValue;
    ValueIgnoresTail(key, a[n..], b);
  }

  /** If `a` decodes, decoding `a + b` is continuing over `b` from the message that `a` gave. */
  lemma {:induction false} DecodeConcat(m: CastMessage, a: Bytes, b: Bytes)
    requires DecodeFrom(m, a).Ok?
    ensures DecodeFrom(m, a + b) == DecodeFrom(DecodeFrom(m, a).value, b)
    decreases |a|
  {
    hide ReadField, Assign;
    if a == [] {
      assert a + b == b;
    } else {
      FieldIgnoresTail(a, b);
      var (f, n) := ReadField(a).value;
      assert (a + b)[n..] == a[n..] + b;
      DecodeConcat(Assign(m, f), a[n..], b);
    }
  }

  // ---------------------------------------------------------------------------
  // Unassigned fields and repeated fields
  // ---------------------------------------------------------------------------

  /** The fields of a byte string, in order. */
  function Fields(b: Bytes): Result<seq<Field>, ProtoError>
    decreases |b|
  {
    if b == [] then Ok([])
    else match ReadField(b)
      case Err(e) => Err(e)
      case Ok((f, n)) =>
        match Fields(b[n..])
        case Err(e) => Err(e)
        case Ok(fs) => Ok([f] + fs)
  }

  /** The fields the decoder stores. */
  predicate Assigned(f: Field) {
    match f
    case Number(num, _) => num == 1 || num == 5
    case Blob(num, _) => num == 2 || num == 3 || num == 4 || num == 6
    case Skipped(_) => false
  }

  /** The last field of the same shape and number as `like`, or `like` itself. */
  function LastLike(fs: seq<Field>, like: Field): (r: Field)
    ensures r.num == like.num && (r.Number? <==> like.Number?) && (r.Blob? <==> like.Blob?)
  {
    if fs == [] then like
    else
      var f := fs[0];
      LastLike(fs[1..],
               if f.num == like.num && (f.Number? <==> like.Number?) && (f.Blob? <==> like.Blob?) then f else like)
  }

  /** The message in which every assigned field has the value of its last occurrence. */
  function LastWins(m: CastMessage, fs: seq<Field>): CastMessage {
    var kind := LastLike(fs, Number(5, if m.payloadType == Binary then 1 else 0));
    CastMessage(LastLike(fs, Number(1, m.protocolVersion)).value % 0x1_0000_0000,
                LastLike(fs, Blob(2, m.sourceId)).data,
                LastLike(fs, Blob(3, m.destinationId)).data,
                LastLike(fs, Blob(4, m.namespace)).data,
                if kind.value == 1 then Binary else Utf8,
                LastLike(fs, Blob(6, m.payload)).data)
  }

  lemma LastWinsStep(m: CastMessage, f: Field, fs: seq<Field>)
    requires m.protocolVersion < 0x1_0000_0000
    ensures LastWins(m, [f] + fs) == LastWins(Assign(m, f), fs)
  {
    assert ([f] + fs)[1..] == fs;
    if f.Number? && f.num == 1 {
      ReducedOnce(fs, f.value);
    } else if f.Number? && f.num == 5 {
      KindOnly(fs, f.value);
    }
  }

  lemma {:induction false} ReducedOnce(fs: seq<Field>, v: nat)
    ensures LastLike(fs, Number(1, v)).value % 0x1_0000_0000 ==
            LastLike(fs, Number(1, v % 0x1_0000_0000)).value % 0x1_0000_0000
  {
    if fs != [] && !(fs[0].Number? && fs[0].num == 1) {
      ReducedOnce(fs[1..], v);
    }
  }

  lemma {:induction false} KindOnly(fs: seq<Field>, v: nat)
    ensures LastLike(fs, Number(5, v)).value == 1 <==> LastLike(fs, Number(5, if v == 1 then 1 else 0)).value == 1
  {
    if fs != [] && !(fs[0].Number? && fs[0].num == 5) {
      KindOnly(fs[1..], v);
    }
  }

  /** Decoding succeeds exactly when the fields parse, and then the last occurrence of each assigned field
      decides; nothing else matters. */
  lemma {:induction false} DecodeIsLastWins(m: CastMessage, b: Bytes)
    requires m.protocolVersion < 0x1_0000_0000
    ensures DecodeFrom(m, b) ==
            match Fields(b) case Ok(fs) => Ok(LastWins(m, fs)) case Err(e) => Err(e)
    decreases |b|
  {
    hide ReadField, Assign, LastWins;
    if b == [] {
      NothingWins(m);
    } else if ReadField(b).Ok? {
      var (f, n) := ReadField(b).value;
      AssignFits(m, f);
      DecodeIsLastWins(Assign(m, f), b[n..]);
      if Fields(b[n..]).Ok? {
        LastWinsStep(m, f, Fields(b[n..]).value);
      }
    }
  }

  lemma NothingWins(m: CastMessage)
    requires m.protocolVersion < 0x1_0000_0000
    ensures LastWins(m, []) == m
  {
  }

  lemma AssignFits(m: CastMessage, f: Field)
    requires m.protocolVersion < 0x1_0000_0000
    ensures Assign(m, f).protocolVersion < 0x1_0000_0000
  {
  }

  lemma {:induction false} UnassignedIsNeutral(m: CastMessage, u: Bytes)
    requires Fields(u).Ok? && forall f <- Fields(u).value :: !Assigned(f)
    ensures DecodeFrom(m, u) == Ok(m)
    decreases |u|
  {
    hide ReadField;
    if u != [] {
      var (f, n) := ReadField(u).value;
      assert Fields(u).value == [f] + Fields(u[n..]).value;
      assert f in Fields(u).value;
      UnassignedIsNeutral(m, u[n..]);
    }
  }

  /** Fields the decoder does not assign may be inserted at any field boundary without effect. */
  lemma InsertUnassigned(a: Bytes, u: Bytes, b: Bytes)
    requires Decode(a).Ok? && Fields(u).Ok? && forall f <- Fields(u).value :: !Assigned(f)
    ensures Decode(a + u + b) == Decode(a + b)
  {
    hide DecodeFrom, Fields, Assigned;
    var m := Decode(a).value;
    assert a + u + b == a + (u + b);
    DecodeConcat(EMPTY, a, u + b);
    UnassignedIsNeutral(m, u);
    DecodeConcat(m, u, b);
    DecodeConcat(EMPTY, a, b);
  }

  // ---------------------------------------------------------------------------
  // Round trip
  // ---------------------------------------------------------------------------

  lemma KeyParts(num: nat, wire: nat)
    requires num < 0x1_0000_0000 && wire < 8
    ensures (8 * num + wire) / 8 % 0x1_0000_0000 == num && (8 * num + wire) % 8 == wire
  {
  }

  /** A field is its key and then what the key says. */
  lemma KeyReads(key: nat, b: Bytes)
    requires key < TWO_64
    ensures ReadField(VarintBytes(key) + b) ==
            match ReadValue(key, b)
            case Err(e) => Err(e)
            case Ok((field, len)) => Ok((field, |VarintBytes(key)| + len))
  {
    hide Varint, VarintBytes, ReadValue;
    VarintRoundTrip(key, b);
    assert (VarintBytes(key) + b)[|VarintBytes(key)|..] == b;
  }

  lemma TextFieldReads(num: nat, data: Bytes, rest: Bytes)
    requires 0 < num < 0x1_0000_0000 && |data| < TWO_64
    ensures ReadField(TextField(num, data) + rest) ==
            if |data| <= MAX_FIELD_SIZE then Ok((Blob(num, data), |TextField(num, data)|)) else Err(FieldTooLarge)
  {
    hide Varint, VarintBytes, ReadField;
    var key, len := VarintBytes(8 * num + 2), VarintBytes(|data|);
    assert TextField(num, data) + rest == key + (len + (data + rest));
    KeyReads(8 * num + 2, len + (data + rest));
    KeyParts(num, 2);
    VarintRoundTrip(|data|, data + rest);
    assert (len + (data + rest))[|len|..|len| + |data|] == data;
  }

  /** A text cut off is reported with the length it declares and the bytes that are there. */
  lemma TextFieldCutOff(num: nat, len: nat, data: Bytes)
    requires 0 < num < 0x1_0000_0000 && |data| < len <= MAX_FIELD_SIZE
    ensures ReadField(VarintBytes(8 * num + 2) + (VarintBytes(len) + data)) == Err(TruncatedField(len, |data|))
  {
    hide Varint, VarintBytes, ReadField;
    KeyReads(8 * num + 2, VarintBytes(len) + data);
    KeyParts(num, 2);
    VarintRoundTrip(len, data);
  }

  /** A number under any field number is read back. */
  lemma NumberReads(num: nat, value: nat, rest: Bytes)
    requires 0 < num < 0x1_0000_0000 && value < TWO_64
    ensures var field := VarintBytes(8 * num) + VarintBytes(value);
            ReadField(field + rest) == Ok((Number(num, value), |field|))
  {
    hide Varint, VarintBytes, ReadField;
    var key, v := VarintBytes(8 * num), VarintBytes(value);
    assert key + v + rest == key + (v + rest);
    KeyReads(8 * num, v + rest);
    KeyParts(num, 0);
    VarintRoundTrip(value, rest);
  }

  /** Of the fixed-width types, number 1 is skipped with eight bytes and number 5 with four, if they are there. */
  lemma FixedReads(num: nat, wide: bool, data: Bytes)
    requires 0 < num < 0x1_0000_0000
    ensures var key := VarintBytes(8 * num + if wide then 1 else 5);
            var width := if wide then 8 else 4;
            ReadField(key + data) ==
            if |data| < width then Err(UnexpectedEnd(|data|)) else Ok((Skipped(num), |key| + width))
  {
    hide Varint, VarintBytes, ReadField;
    var wire := if wide then 1 else 5;
    KeyReads(8 * num + wire, data);
    KeyParts(num, wire);
  }

  /** No other wire type is accepted, and no field number zero. */
  lemma BadKeyFails(key: nat, data: Bytes)
    requires key < TWO_64
    ensures key % 8 in {3, 4, 6, 7} ==> ReadField(VarintBytes(key) + data) == Err(UnknownWireType(key % 8))
    ensures key in {0, 1, 2, 5} ==> ReadField(VarintBytes(key) + data) == Err(MissingFieldNumber)
  {
    hide Varint, VarintBytes, ReadField;
    KeyReads(key, data);
  }

  /** What a message of short texts looks like on the wire, byte by byte. */
  lemma MessageLayout(source: Bytes, dest: Bytes, namespace: Bytes, payload: Bytes)
    requires |source| < 128 && |dest| < 128 && |namespace| < 128 && |payload| < 128
    ensures EncodeMessage(source, dest, namespace, payload) ==
            [0x08, 0x00] + ([0x12, |source|] + source) + ([0x1a, |dest|] + dest) + ([0x22, |namespace|] + namespace)
            + [0x28, 0x00] + ([0x32, |payload|] + payload)
  {
    ShortText(2, source);
    ShortText(3, dest);
    ShortText(4, namespace);
    ShortText(6, payload);
    hide TextField;
  }

  lemma ShortText(num: nat, data: Bytes)
    requires num < 15 && |data| < 128
    ensures TextField(num, data) == [8 * num + 2, |data|] + data
  {
    assert VarintBytes(8 * num + 2) == [8 * num + 2] && VarintBytes(|data|) == [|data|];
  }

  /** A length of 174 bytes is written low group first. */
  lemma VarintLayout()
    ensures VarintBytes(174) == [0xae, 0x01]
  {
    assert VarintBytes(1) == [1];
  }

  lemma ZeroNumberReads(num: nat, rest: Bytes)
    requires 0 < num < 16
    ensures ReadField([8 * num, 0] + rest) == Ok((Number(num, 0), 2))
  {
    var b := [8 * num, 0] + rest;
    VarintRoundTrip(8 * num, [0] + rest);
    VarintRoundTrip(0, rest);
    assert VarintBytes(8 * num) + ([0] + rest) == b;
    assert VarintBytes(0) + rest == [0] + rest;
    hide Varint;
    assert b[1..] == [0] + rest;
  }

  lemma DecodeTextField(m: CastMessage, num: nat, data: Bytes, rest: Bytes)
    requires 0 < num < 16 && |data| < TWO_64
    ensures DecodeFrom(m, TextField(num, data) + rest) ==
            if |data| <= MAX_FIELD_SIZE then DecodeFrom(Assign(m, Blob(num, data)), rest) else Err(FieldTooLarge)
  {
    TextFieldReads(num, data, rest);
    var t := TextField(num, data);
    assert (t + rest)[|t|..] == rest;
    hide ReadField, TextField, Assign;
  }

  lemma DecodeZeroNumber(m: CastMessage, num: nat, rest: Bytes)
    requires 0 < num < 16
    ensures DecodeFrom(m, [8 * num, 0] + rest) == DecodeFrom(Assign(m, Number(num, 0)), rest)
  {
    ZeroNumberReads(num, rest);
    assert ([8 * num, 0] + rest)[2..] == rest;
    hide ReadField, Assign;
  }

  predicate Fits(data: Bytes) {
    |data| <= MAX_FIELD_SIZE
  }

  lemma DecodeHead(m: CastMessage, source: Bytes, dest: Bytes, namespace: Bytes, rest: Bytes)
    requires |source| < TWO_64 && |dest| < TWO_64 && |namespace| < TWO_64
    ensures DecodeFrom(m, TextField(2, source) + (TextField(3, dest) + (TextField(4, namespace) + rest))) ==
            if Fits(source) && Fits(dest) && Fits(namespace)
            then DecodeFrom(m.(sourceId := source, destinationId := dest, namespace := namespace), rest)
            else Err(FieldTooLarge)
  {
    hide DecodeFrom, TextField;
    var r4 := TextField(4, namespace) + rest;
    DecodeTextField(m, 2, source, TextField(3, dest) + r4);
    DecodeTextField(m.(sourceId := source), 3, dest, r4);
    DecodeTextField(m.(sourceId := source, destinationId := dest), 4, namespace, rest);
  }

  lemma DecodeTail(m: CastMessage, payload: Bytes)
    requires |payload| < TWO_64
    ensures DecodeFrom(m, [40, 0] + (TextField(6, payload) + [])) ==
            if Fits(payload) then Ok(m.(payloadType := Utf8, payload := payload)) else Err(FieldTooLarge)
  {
    hide DecodeFrom, TextField;
    DecodeZeroNumber(m, 5, TextField(6, payload) + []);
    DecodeTextField(m.(payloadType := Utf8), 6, payload, []);
    DecodeNothing(m.(payloadType := Utf8, payload := payload));
  }

  /** A sent message is received as it was sent if and only if none of its texts exceeds the field limit;
      otherwise it is refused as too large. */
  lemma MessageRoundTrip(source: Bytes, dest: Bytes, namespace: Bytes, payload: Bytes)
    requires |source| < TWO_64 && |dest| < TWO_64 && |namespace| < TWO_64 && |payload| < TWO_64
    ensures Decode(EncodeMessage(source, dest, namespace, payload)) ==
            if Fits(source) && Fits(dest) && Fits(namespace) && Fits(payload)
            then Ok(CastMessage(0, source, dest, namespace, Utf8, payload))
            else Err(FieldTooLarge)
  {
    hide DecodeFrom, TextField, Fits;
    var tail := [40, 0] + (TextField(6, payload) + []);
    var head := TextField(2, source) + (TextField(3, dest) + (TextField(4, namespace) + tail));
    Nest([8, 0], TextField(2, source), TextField(3, dest), TextField(4, namespace), [40, 0], TextField(6, payload));
    assert EncodeMessage(source, dest, namespace, payload) == [8, 0] + head;
    DecodeZeroNumber(EMPTY, 1, head);
    DecodeHead(EMPTY, source, dest, namespace, tail);
    DecodeTail(EMPTY.(sourceId := source, destinationId := dest, namespace := namespace), payload);
  }

  lemma Nest(a: Bytes, b: Bytes, c: Bytes, d: Bytes, e: Bytes, f: Bytes)
    ensures a + b + c + d + e + f == a + (b + (c + (d + (e + (f + [])))))
  {
    var x := d + (e + (f + []));
    assert d + e + f == x;
    assert a + b + c + d + e + f == (a + b + c) + (d + e + f);
    assert (a + b + c) + x == a + (b + (c + x));
  }

  lemma DecodeNothing(m: CastMessage)
    ensures DecodeFrom(m, []) == Ok(m)
  {
  }
}
