/** Model of the resource-record decoder of src/cast/mdns.rs (section 4.1.3 of RFC 1035). */
module DnsRecords {
  import opened Bytes
  import opened DnsNames
  import opened DnsTheorems

  const TYPE_A: nat := 1
  const TYPE_PTR: nat := 12
  const TYPE_TXT: nat := 16
  const TYPE_SRV: nat := 33

  datatype RecordData =
    | Ptr(name: seq<Bytes>)
    | Srv(priority: nat, weight: nat, port: nat, target: seq<Bytes>)
    | Txt(strings: seq<Bytes>)
    | Address(octets: Bytes)
    | OtherData

  datatype Record = Record(owner: seq<Bytes>, kind: nat, ttl: nat, rdata: RecordData)

  // ---------------------------------------------------------------------------
  // What a record is
  // ---------------------------------------------------------------------------

  function Word(data: Bytes, pos: nat): nat
    requires pos + 2 <= |data|
  {
    data[pos] as int * 256 + data[pos + 1] as int
  }

  /** Length-prefixed strings from `pos` on, until one of them ends at or after `end`; and where it ends. */
  function TextFrom(data: Bytes, pos: nat, end: nat): Result<(seq<Bytes>, nat), DnsError>
    requires pos <= |data| && end <= |data|
    decreases |data| - pos
  {
    if pos >= end then Ok(([], pos))
    else
      var next := pos + 1 + data[pos] as int;
      if next > |data| then Err(Truncated(|data|))
      else
        match TextFrom(data, next, end)
        case Err(e) => Err(e)
        case Ok((strings, stop)) => Ok(([data[pos + 1..next]] + strings, stop))
  }

  function NameAt(data: Bytes, pos: nat): Result<(seq<Bytes>, nat), DnsError>
    requires pos <= |data|
  {
    match NameFrom(data, pos, 0, [])
    case Err(e) => Err(e)
    case Ok(labels) => Ok((labels, EndOfName(data, pos)))
  }

  /** The data of a record of this kind, whose octets are `start..end`; and where the decoder stopped. */
  function DataAt(data: Bytes, kind: nat, start: nat, end: nat): Result<(RecordData, nat), DnsError>
    requires start <= end <= |data|
  {
    if kind == TYPE_PTR then
      match NameAt(data, start)
      case Err(e) => Err(e)
      case Ok((name, stop)) => Ok((Ptr(name), stop))
    else if kind == TYPE_SRV then
      if start + 6 > |data| then Err(Truncated(|data|))
      else
        match NameAt(data, start + 6)
        case Err(e) => Err(e)
        case Ok((target, stop)) =>
          Ok((Srv(Word(data, start), Word(data, start + 2), Word(data, start + 4), target), stop))
    else if kind == TYPE_TXT then
      match TextFrom(data, start, end)
      case Err(e) => Err(e)
      case Ok((strings, stop)) => Ok((Txt(strings), stop))
    else if kind == TYPE_A then
      if start + 4 > |data| then Err(Truncated(|data|)) else Ok((Address(data[start..start + 4]), start + 4))
    else
      Ok((OtherData, start))
  }

  /** Where the data of the record at `pos` starts: after its owner, type, class, time to live and length. */
  function DataStart(data: Bytes, pos: nat): nat {
    EndOfName(data, pos) + 10
  }

  /** Where the record at `pos` ends. */
  function DataEnd(data: Bytes, pos: nat): nat
    requires DataStart(data, pos) <= |data|
  {
    DataStart(data, pos) + Word(data, DataStart(data, pos) - 2)
  }

  function RecordAt(data: Bytes, pos: nat): Result<Record, DnsError>
    requires pos <= |data|
  {
    match NameFrom(data, pos, 0, [])
    case Err(e) => Err(e)
    case Ok(owner) =>
      var start := DataStart(data, pos);
      if start > |data| || DataEnd(data, pos) > |data| then Err(Truncated(|data|))
      else
        var kind := Word(data, start - 10);
        match DataAt(data, kind, start, DataEnd(data, pos))
        case Err(e) => Err(e)
        case Ok((rdata, _)) => Ok(Record(owner, kind, FromBE32(data[start - 6..start - 2]), rdata))
  }

  // ---------------------------------------------------------------------------
  // The decoder
  // ---------------------------------------------------------------------------

  method ReadU16(p: Parser) returns (r: Result<nat, DnsError>)
    requires p.Valid()
    modifies p
    ensures p.Valid()
    ensures if old(p.pos) + 2 <= |p.data| then r == Ok(Word(p.data, old(p.pos))) && p.pos == old(p.pos) + 2
            else r == Err(Truncated(|p.data|))
  {
    var hi := p.ReadU8();
    if hi.Err? {
      return Err(hi.error);
    }
    var lo := p.ReadU8();
    if lo.Err? {
      return Err(lo.error);
    }
    return Ok(hi.value as int * 256 + lo.value as int);
  }

  method ReadU32(p: Parser) returns (r: Result<nat, DnsError>)
    requires p.Valid()
    modifies p
    ensures p.Valid()
    ensures if old(p.pos) + 4 <= |p.data|
            then r == Ok(FromBE32(p.data[old(p.pos)..old(p.pos) + 4])) && p.pos == old(p.pos) + 4
            else r == Err(Truncated(|p.data|))
  {
    var hi := ReadU16(p);
    if hi.Err? {
      return Err(hi.error);
    }
    var lo := ReadU16(p);
    if lo.Err? {
      return Err(lo.error);
    }
    return Ok(hi.value * 0x1_0000 + lo.value);
  }

  method ReadText(p: Parser, end: nat) returns (r: Result<seq<Bytes>, DnsError>)
    requires p.Valid() && end <= |p.data|
    modifies p
    ensures p.Valid()
    ensures match TextFrom(p.data, old(p.pos), end)
            case Err(e) => r == Err(e)
            case Ok((strings, stop)) => r == Ok(strings) && p.pos == stop
  {
    var strings: seq<Bytes> := [];
    ghost var all := TextFrom(p.data, p.pos, end);
    while p.pos < end
      invariant p.Valid()
      invariant match TextFrom(p.data, p.pos, end)
                case Err(e) => all == Err(e)
                case Ok((more, stop)) => all.Ok? && all.value.0 == strings + more && all.value.1 == stop
      decreases |p.data| - p.pos
    {
      ghost var before := strings;
      var len := p.ReadU8();
      var text := p.Take(len.value);
      if text.Err? {
        return Err(text.error);
      }
      strings := strings + [text.value];
      ghost var rest := TextFrom(p.data, p.pos, end);
      assert rest.Ok? ==> before + ([text.value] + rest.value.0) == strings + rest.value.0;
    }
    assert strings + [] == strings;
    return Ok(strings);
  }

  method ReadService(p: Parser) returns (r: Result<RecordData, DnsError>)
    requires p.Valid()
    modifies p
    ensures match DataAt(p.data, TYPE_SRV, old(p.pos), old(p.pos))
            case Err(e) => r == Err(e)
            case Ok((rdata, stop)) => r == Ok(rdata) && p.pos == stop
  {
    hide NameFrom, EndOfName;
    var priority := ReadU16(p);
    if priority.Err? {
      return Err(priority.error);
    }
    var weight := ReadU16(p);
    if weight.Err? {
      return Err(weight.error);
    }
    var port := ReadU16(p);
    if port.Err? {
      return Err(port.error);
    }
    var target := p.ReadName();
    if target.Err? {
      return Err(target.error);
    }
    return Ok(Srv(priority.value, weight.value, port.value, target.value));
  }

  /** Decode a record's data with a parser of its own, so that pointers resolve against the whole packet. */
  method ReadData(data: Bytes, kind: nat, start: nat, end: nat) returns (r: Result<RecordData, DnsError>)
    requires start <= end <= |data|
    ensures match DataAt(data, kind, start, end)
            case Err(e) => r == Err(e)
            case Ok((rdata, _)) => r == Ok(rdata)
  {
    hide NameFrom, EndOfName, TextFrom;
    var parser := new Parser(data, start);
    if kind == TYPE_PTR {
      var name := parser.ReadName();
      return if name.Err? then Err(name.error) else Ok(Ptr(name.value));
    }
    if kind == TYPE_SRV {
      r := ReadService(parser);
      return;
    }
    if kind == TYPE_TXT {
      var strings := ReadText(parser, end);
      return if strings.Err? then Err(strings.error) else Ok(Txt(strings.value));
    }
    if kind == TYPE_A {
      var octets := parser.Take(4);
      return if octets.Err? then Err(octets.error) else Ok(Address(octets.value));
    }
    return Ok(OtherData);
  }

  /** Decode one record; on success the cursor is at its end, whatever its data decoded to. */
  method ReadRecord(p: Parser) returns (r: Result<Record, DnsError>)
    requires p.Valid()
    modifies p
    ensures p.Valid()
    ensures r == RecordAt(p.data, old(p.pos))
    ensures r.Ok? ==> DataStart(p.data, old(p.pos)) <= |p.data| && p.pos == DataEnd(p.data, old(p.pos))
  {
    hide NameFrom, EndOfName, DataAt;
    var owner := p.ReadName();
    if owner.Err? {
      return Err(owner.error);
    }
    var kind := ReadU16(p);
    if kind.Err? {
      return Err(kind.error);
    }
    var class' := ReadU16(p);
    if class'.Err? {
      return Err(class'.error);
    }
    var ttl := ReadU32(p);
    if ttl.Err? {
      return Err(ttl.error);
    }
    var length := ReadU16(p);
    if length.Err? {
      return Err(length.error);
    }
    var start := p.pos;
    var taken := p.Take(length.value);
    if taken.Err? {
      return Err(taken.error);
    }
    var rdata := ReadData(p.data, kind.value, start, start + length.value);
    if rdata.Err? {
      return Err(rdata.error);
    }
    return Ok(Record(owner.value, kind.value, ttl.value, rdata.value));
  }

  // ---------------------------------------------------------------------------
  // The cursor does not depend on the data
  // ---------------------------------------------------------------------------

  /** Both packets have the same octets from `pos` up to `end`. */
  ghost predicate SameOctets(data: Bytes, other: Bytes, pos: nat, end: nat) {
    end <= |data| && end <= |other| && forall i :: pos <= i < end ==> data[i] == other[i]
  }

  lemma {:induction false} EndOfNameIsLocal(data: Bytes, other: Bytes, pos: nat)
    requires pos <= |data| && NameFrom(data, pos, 0, []).Ok?
    requires SameOctets(data, other, pos, EndOfName(data, pos))
    ensures EndOfName(other, pos) == EndOfName(data, pos)
    decreases |data| - pos
  {
    NameStep(data, pos, 0, []);
    EndIsBehind(data, pos);
    assert data[pos] == other[pos];
    hide NameFrom;
    if 0 < data[pos] < 192 {
      EndOfNameIsLocal(data, other, pos + 1 + data[pos] as int);
    }
  }

  lemma {:induction false} EndIsBehind(data: Bytes, pos: nat)
    ensures EndOfName(data, pos) >= pos && (pos < |data| ==> EndOfName(data, pos) > pos)
    decreases |data| - pos
  {
    if pos < |data| && 0 < data[pos] < 192 {
      EndIsBehind(data, pos + 1 + data[pos] as int);
    }
  }

  /** Whatever octets stand in a record's data, and behind it, the record after it starts at the same place. */
  lemma CursorIgnoresData(data: Bytes, other: Bytes, pos: nat)
    requires pos <= |data| && RecordAt(data, pos).Ok? && SameOctets(data, other, pos, DataStart(data, pos))
    ensures DataStart(other, pos) == DataStart(data, pos) && DataEnd(other, pos) == DataEnd(data, pos)
  {
    hide NameFrom, DataAt, EndOfName;
    EndIsBehind(data, pos);
    EndOfNameIsLocal(data, other, pos);
    var start := DataStart(data, pos);
    assert data[start - 2] == other[start - 2] && data[start - 1] == other[start - 1];
  }

  // ---------------------------------------------------------------------------
  // Reading past the end of the data
  // ---------------------------------------------------------------------------

  /** The octets are length-prefixed strings, the last of which ends where they end. */
  function Strings(b: Bytes): Option<seq<Bytes>> {
    if b == [] then Some([])
    else if 1 + b[0] as int > |b| then None
    else
      match Strings(b[1 + b[0] as int..])
      case None => None
      case Some(rest) => Some([b[1..1 + b[0] as int]] + rest)
  }

  /** A name's labels, up to its zero octet or its whole first pointer, stand in these octets. */
  predicate HoldsName(b: Bytes)
    decreases |b|
  {
    b != [] &&
    if b[0] == 0 then true
    else if b[0] >= 192 then |b| >= 2
    else 1 + b[0] as int <= |b| && HoldsName(b[1 + b[0] as int..])
  }

  /** The octets by themselves are complete data of this kind. */
  predicate SelfContained(kind: nat, rdata: Bytes) {
    if kind == TYPE_PTR then HoldsName(rdata)
    else if kind == TYPE_SRV then |rdata| >= 6 && HoldsName(rdata[6..])
    else if kind == TYPE_TXT then Strings(rdata).Some?
    else if kind == TYPE_A then |rdata| >= 4
    else true
  }

  lemma {:induction false} NameStays(data: Bytes, pos: nat, end: nat)
    requires pos <= end <= |data| && NameFrom(data, pos, 0, []).Ok?
    ensures HoldsName(data[pos..end]) <==> EndOfName(data, pos) <= end
    decreases end - pos
  {
    NameStep(data, pos, 0, []);
    EndIsBehind(data, pos);
    if pos < end {
      var b := data[pos..end];
      assert b[0] == data[pos];
      if data[pos] >= 192 {
        PointerStep(data, pos, 0, []);
      } else if data[pos] > 0 {
        var next := pos + 1 + data[pos] as int;
        if next <= end {
          assert b[1 + b[0] as int..] == data[next..end];
          NameStays(data, next, end);
        } else {
          EndIsBehind(data, next);
        }
      }
    }
  }

  /** Strings that fill the data are read as such; otherwise the reader runs off the packet or stops late. */
  lemma {:induction false} TextStays(data: Bytes, pos: nat, end: nat)
    requires pos <= end <= |data|
    ensures match Strings(data[pos..end])
            case Some(strings) => TextFrom(data, pos, end) == Ok((strings, end))
            case None => TextFrom(data, pos, end).Err? || TextFrom(data, pos, end).value.1 > end
    decreases end - pos
  {
    if pos < end {
      var b := data[pos..end];
      var next := pos + 1 + data[pos] as int;
      assert b[0] == data[pos];
      if next <= end {
        SliceOfSlice(data, pos, end, next - pos, end - pos);
        SliceOfSlice(data, pos, end, 1, next - pos);
        assert b[next - pos..] == b[next - pos..end - pos];
        TextStays(data, next, end);
      }
    }
  }

  /** Decoding a record's data ends behind the data exactly if the data is not complete by itself: a name cut
      off, a string longer than what is left, or fewer than four octets of address. */
  lemma OverrunExactly(data: Bytes, kind: nat, start: nat, end: nat)
    requires start <= end <= |data| && DataAt(data, kind, start, end).Ok?
    ensures DataAt(data, kind, start, end).value.1 <= end <==> SelfContained(kind, data[start..end])
  {
    hide NameFrom, EndOfName, HoldsName, TextFrom, Strings;
    var rdata := data[start..end];
    if kind == TYPE_PTR {
      NameStays(data, start, end);
    } else if kind == TYPE_SRV {
      EndIsBehind(data, start + 6);
      if start + 6 <= end {
        assert rdata[6..] == data[start + 6..end];
        NameStays(data, start + 6, end);
      }
    } else if kind == TYPE_TXT {
      TextStays(data, start, end);
    }
  }

  function BE16(n: nat): Bytes
    requires n < 0x1_0000
  {
    [n / 256, n % 256]
  }

  /** A service record's three numbers are its first six octets, in order, and its target the name behind them. */
  lemma ServiceDecides(data: Bytes, start: nat, end: nat)
    requires start <= end <= |data| && DataAt(data, TYPE_SRV, start, end).Ok?
    ensures var r := DataAt(data, TYPE_SRV, start, end).value.0;
            && r.Srv? && r.priority < 0x1_0000 && r.weight < 0x1_0000 && r.port < 0x1_0000
            && start + 6 <= |data|
            && data[start..start + 6] == BE16(r.priority) + BE16(r.weight) + BE16(r.port)
            && Means(data, start + 6, r.target)
  {
    hide NameFrom, EndOfName, Means;
    var r := DataAt(data, TYPE_SRV, start, end).value.0;
    WordBytes(data, start);
    WordBytes(data, start + 2);
    WordBytes(data, start + 4);
    assert data[start..start + 6] == data[start..start + 2] + data[start + 2..start + 4] + data[start + 4..start + 6];
    NameDecoderExact(data, start + 6, r.target);
  }

  lemma WordBytes(data: Bytes, pos: nat)
    requires pos + 2 <= |data|
    ensures Word(data, pos) < 0x1_0000 && BE16(Word(data, pos)) == data[pos..pos + 2]
  {
  }

  /** A record's owner is the name at its start, and its header says its type, time to live and length. */
  lemma HeaderDecides(data: Bytes, pos: nat)
    requires pos <= |data| && RecordAt(data, pos).Ok?
    ensures var (r, start) := (RecordAt(data, pos).value, DataStart(data, pos));
            && Means(data, pos, r.owner)
            && start <= |data| && DataEnd(data, pos) <= |data|
            && r.kind < 0x1_0000 && r.ttl < 0x1_0000_0000 && DataEnd(data, pos) - start < 0x1_0000
            && start == EndOfName(data, pos) + 10
            && data[start - 10..start - 8] == BE16(r.kind)
            && data[start - 6..start - 2] == ToBE32(r.ttl)
            && data[start - 2..start] == BE16(DataEnd(data, pos) - start)
            && (r.rdata.Ptr? ==> r.kind == TYPE_PTR && Means(data, start, r.rdata.name))
  {
    hide NameFrom, EndOfName, Means, TextFrom;
    var r, start := RecordAt(data, pos).value, DataStart(data, pos);
    NameDecoderExact(data, pos, r.owner);
    WordBytes(data, start - 10);
    WordBytes(data, start - 2);
    BigEndian(data[start - 6..start - 2]);
    if r.rdata.Ptr? {
      NameDecoderExact(data, start, r.rdata.name);
    }
  }

  /** Complete text and addresses are what their own octets say. */
  lemma OwnOctetsDecide(data: Bytes, kind: nat, start: nat, end: nat)
    requires start <= end <= |data| && (kind == TYPE_TXT || kind == TYPE_A)
    requires SelfContained(kind, data[start..end])
    ensures var rdata := data[start..end];
            DataAt(data, kind, start, end).Ok? && DataAt(data, kind, start, end).value.0 ==
            if kind == TYPE_TXT then Txt(Strings(rdata).value) else Address(rdata[..4])
  {
    hide TextFrom, Strings;
    var rdata := data[start..end];
    if kind == TYPE_TXT {
      TextStays(data, start, end);
    } else {
      assert rdata[..4] == data[start..start + 4];
    }
  }

  /** A text record of one octet, a length of two, takes two octets of what follows it. */
  lemma OverrunHappens()
    ensures DataAt([2, 97, 98], TYPE_TXT, 0, 1) == Ok((Txt([[97, 98]]), 3))
  {
    var data: Bytes := [2, 97, 98];
    assert data[1..3] == [97, 98];
    assert TextFrom(data, 3, 1) == Ok(([], 3));
    assert TextFrom(data, 0, 1) == Ok(([data[1..3]] + [], 3));
    assert [data[1..3]] + [] == [[97, 98]];
  }
}
