/** Bytes, byte strings, big-endian integers and the option/result types shared by every model. */
module Bytes {

  type byte = b: int | 0 <= b < 256

  type Bytes = seq<byte>

  datatype Option<+T> = None | Some(value: T)

  datatype Result<+T, +E> = Ok(value: T) | Err(error: E)

  function Min(a: nat, b: nat): nat {
    if a < b then a else b
  }

  /** The concatenation of a list of byte strings. */
  function Flatten(parts: seq<Bytes>): Bytes {
    if parts == [] then [] else parts[0] + Flatten(parts[1..])
  }

  lemma {:induction false} FlattenConcat(a: seq<Bytes>, b: seq<Bytes>)
    ensures Flatten(a + b) == Flatten(a) + Flatten(b)
  {
    if a == [] {
      assert a + b == b;
    } else {
      assert (a + b)[1..] == a[1..] + b;
      FlattenConcat(a[1..], b);
    }
  }

  lemma FlattenOne(p: Bytes)
    ensures Flatten([p]) == p
  {
    assert Flatten([p]) == p + Flatten([]);
  }

  lemma FlattenSnoc(a: seq<Bytes>, p: Bytes)
    ensures Flatten(a + [p]) == Flatten(a) + p
  {
    FlattenConcat(a, [p]);
    FlattenOne(p);
  }

  lemma SplitAt(w: Bytes, n: nat)
    requires n <= |w|
    ensures w[..n] + w[n..] == w
  {
  }

  lemma SliceOfSuffix(b: Bytes, pos: nat, i: nat, j: nat)
    requires pos + j <= |b| && i <= j
    ensures b[pos..][i..j] == b[pos + i..pos + j]
  {
  }

  lemma SliceOfSlice(b: Bytes, pos: nat, end: nat, i: nat, j: nat)
    requires pos <= end <= |b| && i <= j <= end - pos
    ensures b[pos..end][i..j] == b[pos + i..pos + j]
  {
    var s := b[pos..end];
    forall k | 0 <= k < j - i ensures s[i..j][k] == b[pos + i..pos + j][k] {
      assert s[i + k] == b[pos + i + k];
    }
  }

  lemma SuffixOfSuffix(b: Bytes, pos: nat, i: nat)
    requires pos + i <= |b|
    ensures b[pos..][i..] == b[pos + i..]
  {
  }

  function FromBE32(b: Bytes): (n: nat)
    requires |b| == 4
    ensures n < 0x1_0000_0000
  {
    b[0] as int * 0x100_0000 + b[1] as int * 0x1_0000 + b[2] as int * 0x100 + b[3] as int
  }

  function ToBE32(n: nat): (b: Bytes)
    requires n < 0x1_0000_0000
    ensures |b| == 4 && FromBE32(b) == n
  {
    var hi, lo := n / 0x1_0000, n % 0x1_0000;
    [hi / 0x100, hi % 0x100, lo / 0x100, lo % 0x100]
  }

  lemma BigEndian(b: Bytes)
    requires |b| == 4
    ensures ToBE32(FromBE32(b)) == b
    ensures FromBE32(b) == 1 <==> b == [0, 0, 0, 1]
  {
    var hi, lo := b[0] as int * 0x100 + b[1] as int, b[2] as int * 0x100 + b[3] as int;
    assert FromBE32(b) == hi * 0x1_0000 + lo;
    assert FromBE32(b) / 0x1_0000 == hi && FromBE32(b) % 0x1_0000 == lo;
  }

  function FromBE64(b: Bytes): nat
    requires |b| == 8
  {
    FromBE32(b[..4]) * 0x1_0000_0000 + FromBE32(b[4..])
  }
}
