/** The protobuf wire format: "Base 128 Varints" and "Message Structure" of
    Protocol Buffers Encoding. A message is written as its present fields in
    tag order, which is what nanopb does with the generated field table. */
module Wire {
  import opened Common

  datatype Value = Int(n: nat) | Blob(bytes: seq<byte>)

  datatype Field = Field(number: nat, wireType: nat, value: Value)

  /** Seven bits at a time, least significant group first; every byte but the
      last carries the continuation bit. */
  function Varint(n: nat): (r: seq<byte>)
    ensures |r| >= 1
  {
    if n < 128 then [n] else [128 + n % 128] + Varint(n / 128)
  }

  function LittleEndian(n: nat, size: nat): (r: seq<byte>)
    ensures |r| == size
  {
    if size == 0 then [] else [n % 256] + LittleEndian(n / 256, size - 1)
  }

  function FromLittleEndian(bytes: seq<byte>): (r: nat)
    ensures r < Pow256(|bytes|)
  {
    if bytes == [] then 0 else bytes[0] + 256 * FromLittleEndian(bytes[1..])
  }

  /** The fields the encoder can write: unsigned 64-bit varints,
      length-delimited bytes and 32- or 64-bit fixed values. */
  predicate Encodable(f: Field) {
    && 0 < f.number < 0x2000_0000
    && match f.wireType {
         case 0 => f.value.Int? && f.value.n < TwoTo64
         case 2 => f.value.Blob? && |f.value.bytes| < TwoTo64
         case 1 => f.value.Blob? && |f.value.bytes| == 8
         case 5 => f.value.Blob? && |f.value.bytes| == 4
         case _ => false
       }
  }

  function EncodeField(f: Field): seq<byte>
    requires Encodable(f)
  {
    Varint(8 * f.number + f.wireType) +
    match f.value {
      case Int(n) => Varint(n)
      case Blob(bytes) => if f.wireType == 2 then Varint(|bytes|) + bytes else bytes
    }
  }

  ghost predicate AllEncodable(fields: seq<Field>) {
    forall i :: 0 <= i < |fields| ==> Encodable(fields[i])
  }

  function EncodeFields(fields: seq<Field>): seq<byte>
    requires AllEncodable(fields)
  {
    if fields == [] then [] else EncodeField(fields[0]) + EncodeFields(fields[1..])
  }

  lemma {:induction false} EncodeFieldsAppend(a: seq<Field>, b: seq<Field>)
    requires AllEncodable(a) && AllEncodable(b)
    ensures AllEncodable(a + b)
    ensures EncodeFields(a + b) == EncodeFields(a) + EncodeFields(b)
  {
    if a == [] {
      assert a + b == b;
    } else {
      EncodeFieldsAppend(a[1..], b);
      assert (a + b)[1..] == a[1..] + b;
      assert (a + b)[0] == a[0];
      Regroup(EncodeField(a[0]), EncodeFields(a[1..]), EncodeFields(b));
    }
  }

  lemma EncodeFieldPair(f: Field, g: Field, rest: seq<Field>)
    requires Encodable(f) && Encodable(g) && AllEncodable(rest)
    ensures AllEncodable([f, g] + rest)
    ensures EncodeFields([f, g] + rest) == EncodeField(f) + EncodeField(g) + EncodeFields(rest)
  {
    assert ([f, g] + rest)[1..] == [g] + rest;
    assert ([g] + rest)[1..] == rest;
    assert EncodeField(f) + (EncodeField(g) + EncodeFields(rest))
           == EncodeField(f) + EncodeField(g) + EncodeFields(rest);
  }

  lemma {:induction false} LittleEndianRoundTrip(n: nat, size: nat)
    requires n < Pow256(size)
    ensures FromLittleEndian(LittleEndian(n, size)) == n
  {
    if size > 0 {
      LittleEndianRoundTrip(n / 256, size - 1);
      assert LittleEndian(n, size)[1..] == LittleEndian(n / 256, size - 1);
    }
  }

  function Pow256(size: nat): (r: nat)
    ensures r > 0
  {
    if size == 0 then 1 else 256 * Pow256(size - 1)
  }

  function Pow128(k: nat): (r: nat)
    ensures r > 0
  {
    if k == 0 then 1 else 128 * Pow128(k - 1)
  }

  /** A number below 128^k takes at most k bytes. */
  lemma {:induction false} VarintLength(n: nat, k: nat)
    requires k > 0 && n < Pow128(k)
    ensures |Varint(n)| <= k
  {
    if n >= 128 {
      assert k > 1 by {
        assert Pow128(1) == 128;
      }
      VarintLength(n / 128, k - 1);
    }
  }
}
