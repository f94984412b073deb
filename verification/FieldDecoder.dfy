/** The hand-written protobuf reader of the ingest service: read_varint and
    decode_fields. The readers are loops over a position; the functions below
    say what they return, on the bytes from that position on. */
module FieldDecoder {
  import opened Common
  import opened Wire

  /** The Python exceptions that decoding a message can raise. */
  datatype Error = ValueError | TypeError | AttributeError | StructError | OsError

  /** A varint of at most `budget` bytes at the start of s, and how many bytes it takes. */
  function TakeVarint(s: seq<byte>, budget: nat): (r: Result<(nat, nat), Error>)
    ensures r.Ok? ==> 0 < r.value.1 <= |s| && r.value.1 <= budget
  {
    if s == [] || budget == 0 then Err(ValueError)
    else if s[0] < 128 then Ok((s[0], 1))
    else match TakeVarint(s[1..], budget - 1)
      case Err(e) => Err(e)
      case Ok((n, used)) => Ok((s[0] - 128 + 128 * n, used + 1))
  }

  /** One field at the start of s. */
  function TakeField(s: seq<byte>): (r: Result<(Field, nat), Error>)
    ensures r.Ok? ==> 0 < r.value.1 <= |s|
  {
    match TakeVarint(s, 10)
    case Err(e) => Err(e)
    case Ok((key, used)) =>
      match TakeBody(s[used..], key % 8)
      case Err(e) => Err(e)
      case Ok((value, more)) => Ok((Field(key / 8, key % 8, value), used + more))
  }

  function TakeBody(s: seq<byte>, wireType: nat): (r: Result<(Value, nat), Error>)
    ensures r.Ok? ==> r.value.1 <= |s|
  {
    match wireType
    case 0 => (match TakeVarint(s, 10)
               case Err(e) => Err(e)
               case Ok((n, used)) => Ok((Int(n), used)))
    case 2 => (match TakeVarint(s, 10)
               case Err(e) => Err(e)
               case Ok((length, used)) =>
                 if length <= |s| - used then Ok((Blob(s[used..used + length]), used + length))
                 else Err(ValueError))
    case 1 => if 8 <= |s| then Ok((Blob(s[..8]), 8)) else Err(ValueError)
    case 5 => if 4 <= |s| then Ok((Blob(s[..4]), 4)) else Err(ValueError)
    case _ => Err(ValueError)
  }

  /** What the generator yields before it stops, and the exception it stops with, if any. */
  function TakeFields(s: seq<byte>): (seq<Field>, Option<Error>) {
    if s == [] then ([], None)
    else match TakeField(s)
      case Err(e) => ([], Some(e))
      case Ok((f, used)) => var (rest, error) := TakeFields(s[used..]); ([f] + rest, error)
  }

  // ---------------------------------------------------------------- the loops

  function Advance<T>(r: Result<(T, nat), Error>, position: nat): Result<(T, nat), Error> {
    match r case Err(e) => Err(e) case Ok((x, used)) => Ok((x, position + used))
  }

  function Continue(r: Result<(nat, nat), Error>, low: nat, scale: nat, read: nat): Result<(nat, nat), Error> {
    match r case Err(e) => Err(e) case Ok((n, used)) => Ok((low + scale * n, read + used))
  }

  /** `result |= (byte & 0x7F) << shift` adds, because the shifted group lies above result. */
  method ReadVarint(data: seq<byte>, start: nat) returns (r: Result<(nat, nat), Error>)
    requires start <= |data|
    ensures r == Advance(TakeVarint(data[start..], 10), start)
  {
    var position, result, shift := start, 0, 0;
    ghost var k := 0;
    while true
      invariant start <= position <= |data|
      invariant shift == 7 * k && position == start + k && k <= 10 && result >= 0
      invariant TakeVarint(data[start..], 10)
             == Continue(TakeVarint(data[position..], 10 - k), result, Pow2(shift), k)
      decreases |data| - position
    {
      if position >= |data| || shift > 63 {
        return Err(ValueError);
      }
      var b := data[position];
      VarintStep(data[position..], 10 - k, result, Pow2(shift), k);
      Pow2Seven(shift);
      assert data[position..][1..] == data[position + 1..];
      position := position + 1;
      result := result + b % 128 * Pow2(shift);
      if b < 128 {
        return Ok((result, position));
      }
      shift := shift + 7;
      k := k + 1;
    }
  }

  /** Taking the first byte of s into the low part. */
  lemma VarintStep(s: seq<byte>, budget: nat, low: nat, scale: nat, read: nat)
    requires s != [] && budget > 0
    ensures low + s[0] % 128 * scale >= 0
    ensures s[0] < 128 ==> Continue(TakeVarint(s, budget), low, scale, read) == Ok((low + s[0] % 128 * scale, read + 1))
    ensures s[0] >= 128 ==>
              (Continue(TakeVarint(s, budget), low, scale, read)
               == Continue(TakeVarint(s[1..], budget - 1), low + s[0] % 128 * scale, 128 * scale, read + 1))
  {
    var more := TakeVarint(s[1..], budget - 1);
    GroupValue(s[0], scale, if more.Ok? then more.value.0 else 0);
  }

  lemma Pow2Seven(n: nat)
    ensures Pow2(n + 7) == 128 * Pow2(n)
  {
    assert Pow2(n + 7) == 2 * Pow2(n + 6) && Pow2(n + 6) == 2 * Pow2(n + 5);
    assert Pow2(n + 5) == 2 * Pow2(n + 4) && Pow2(n + 4) == 2 * Pow2(n + 3);
    assert Pow2(n + 3) == 2 * Pow2(n + 2) && Pow2(n + 2) == 2 * Pow2(n + 1);
  }

  lemma GroupValue(b: byte, scale: nat, n: nat)
    ensures b >= 128 ==> scale * (b - 128 + 128 * n) == b % 128 * scale + 128 * scale * n
    ensures b < 128 ==> scale * b == b % 128 * scale
    ensures b % 128 * scale >= 0
  {
    if b >= 128 {
      var low := b - 128;
      assert b % 128 == low;
      assert scale * (low + 128 * n) == scale * low + scale * (128 * n);
      assert scale * (128 * n) == 128 * scale * n;
    }
  }

  method ReadField(data: seq<byte>, start: nat) returns (r: Result<(Field, nat), Error>)
    requires start < |data|
    ensures r == Advance(TakeField(data[start..]), start)
  {
    var head := ReadVarint(data, start);
    if head.Err? {
      return Err(head.error);
    }
    var (key, position) := head.value;
    var number, wireType := key / 8, key % 8;
    SliceTwice(data, start, position);
    var body := ReadBody(data, position, wireType);
    if body.Err? {
      return Err(body.error);
    }
    return Ok((Field(number, wireType, body.value.0), body.value.1));
  }

  lemma SliceTwice(data: seq<byte>, a: nat, b: nat)
    requires a <= b <= |data|
    ensures data[a..][b - a..] == data[b..]
  {
  }

  method ReadBody(data: seq<byte>, start: nat, wireType: nat) returns (r: Result<(Value, nat), Error>)
    requires start <= |data|
    ensures r == Advance(TakeBody(data[start..], wireType), start)
  {
    if wireType == 0 {
      var v := ReadVarint(data, start);
      if v.Err? {
        return Err(v.error);
      }
      return Ok((Int(v.value.0), v.value.1));
    } else if wireType == 2 {
      r := ReadBlob(data, start);
    } else if wireType == 1 || wireType == 5 {
      r := ReadFixed(data, start, if wireType == 1 then 8 else 4);
    } else {
      r := Err(ValueError);
    }
  }

  /** Python's slice stops at the end of the data; the length test catches that. */
  method ReadBlob(data: seq<byte>, start: nat) returns (r: Result<(Value, nat), Error>)
    requires start <= |data|
    ensures r == Advance(TakeBody(data[start..], 2), start)
  {
    var v := ReadVarint(data, start);
    if v.Err? {
      return Err(v.error);
    }
    var (length, from) := v.value;
    var value := data[from..Min(from + length, |data|)];
    if |value| != length {
      return Err(ValueError);
    }
    assert data[start..][from - start..from - start + length] == value;
    return Ok((Blob(value), from + length));
  }

  method ReadFixed(data: seq<byte>, start: nat, size: nat) returns (r: Result<(Value, nat), Error>)
    requires start <= |data| && (size == 8 || size == 4)
    ensures r == Advance(TakeBody(data[start..], if size == 8 then 1 else 5), start)
  {
    var value := data[start..Min(start + size, |data|)];
    if |value| != size {
      return Err(ValueError);
    }
    assert data[start..][..size] == value;
    return Ok((Blob(value), start + size));
  }

  method DecodeFields(data: seq<byte>) returns (fields: seq<Field>, error: Option<Error>)
    ensures (fields, error) == TakeFields(data)
  {
    fields, error := [], None;
    var position := 0;
    assert data[0..] == data && [] + TakeFields(data).0 == TakeFields(data).0;
    while position < |data|
      invariant 0 <= position <= |data| && error == None
      invariant TakeFields(data) == (fields + TakeFields(data[position..]).0, TakeFields(data[position..]).1)
    {
      var r := ReadField(data, position);
      if r.Err? {
        assert fields + [] == fields;
        return fields, Some(r.error);
      }
      var (f, next) := r.value;
      assert data[position..][next - position..] == data[next..];
      assert fields + ([f] + TakeFields(data[next..]).0) == fields + [f] + TakeFields(data[next..]).0;
      fields, position := fields + [f], next;
    }
    assert data[position..] == [] && fields + [] == fields;
  }

  // ------------------------------------------- what a well-formed message is

  function Base128(s: seq<byte>): nat {
    if s == [] then 0 else s[0] % 128 + 128 * Base128(s[1..])
  }

  /** s is one varint for n: every byte but the last is marked as continued. */
  ghost predicate IsVarint(s: seq<byte>, n: nat) {
    && 0 < |s| <= 10
    && (forall i :: 0 <= i < |s| - 1 ==> s[i] >= 128)
    && s[|s| - 1] < 128
    && n == Base128(s)
  }

  ghost predicate IsBody(s: seq<byte>, wireType: nat, value: Value) {
    match wireType
    case 0 => value.Int? && IsVarint(s, value.n)
    case 2 => value.Blob? && exists k :: 0 < k <= |s| && IsVarint(s[..k], |value.bytes|) && s[k..] == value.bytes
    case 1 => value == Blob(s) && |s| == 8
    case 5 => value == Blob(s) && |s| == 4
    case _ => false
  }

  /** s is exactly one field f: its key, then its value, nothing more. */
  ghost predicate IsField(s: seq<byte>, f: Field) {
    exists k :: 0 < k <= |s| && f.wireType < 8 && IsVarint(s[..k], 8 * f.number + f.wireType)
      && IsBody(s[k..], f.wireType, f.value)
  }

  function Concat(parts: seq<seq<byte>>): seq<byte> {
    if parts == [] then [] else parts[0] + Concat(parts[1..])
  }

  /** The parts are one field each and lie end to end over the whole message. */
  ghost predicate Tiles(data: seq<byte>, parts: seq<seq<byte>>, fields: seq<Field>) {
    && |parts| == |fields|
    && (forall i :: 0 <= i < |parts| ==> IsField(parts[i], fields[i]))
    && data == Concat(parts)
  }

  // ------------------------------------------------------ the two are the same

  lemma {:induction false} TakeVarintSound(s: seq<byte>, budget: nat)
    requires TakeVarint(s, budget).Ok? && budget <= 10
    ensures var (n, used) := TakeVarint(s, budget).value; IsVarint(s[..used], n)
  {
    var (n, used) := TakeVarint(s, budget).value;
    if s[0] < 128 {
      assert s[..1][1..] == [];
    } else {
      TakeVarintSound(s[1..], budget - 1);
      assert s[..used][1..] == s[1..][..used - 1];
      var tail := s[1..][..used - 1];
      forall i | 0 <= i < used - 1
        ensures s[..used][i] >= 128
      {
        assert i > 0 ==> s[..used][i] == tail[i - 1];
      }
      assert s[..used][used - 1] == tail[used - 2];
    }
  }

  lemma {:induction false} TakeVarintComplete(v: seq<byte>, n: nat, rest: seq<byte>, budget: nat)
    requires IsVarint(v, n) && |v| <= budget
    ensures TakeVarint(v + rest, budget) == Ok((n, |v|))
  {
    if |v| == 1 {
      assert Base128(v[1..]) == 0;
    } else {
      assert (v + rest)[1..] == v[1..] + rest;
      TakeVarintComplete(v[1..], Base128(v[1..]), rest, budget - 1);
    }
  }

  lemma TakeBodySound(s: seq<byte>, wireType: nat)
    requires TakeBody(s, wireType).Ok?
    ensures var (value, used) := TakeBody(s, wireType).value; IsBody(s[..used], wireType, value)
  {
    var (value, used) := TakeBody(s, wireType).value;
    if wireType == 0 {
      TakeVarintSound(s, 10);
    } else if wireType == 2 {
      TakeVarintSound(s, 10);
      var k := TakeVarint(s, 10).value.1;
      assert s[..used][..k] == s[..k] && s[..used][k..] == value.bytes;
    }
  }

  lemma TakeBodyComplete(v: seq<byte>, wireType: nat, value: Value, rest: seq<byte>)
    requires IsBody(v, wireType, value)
    ensures TakeBody(v + rest, wireType) == Ok((value, |v|))
  {
    if wireType == 0 {
      TakeVarintComplete(v, value.n, rest, 10);
    } else if wireType == 2 {
      var k :| 0 < k <= |v| && IsVarint(v[..k], |value.bytes|) && v[k..] == value.bytes;
      TakeBlobComplete(v, k, value.bytes, rest);
    } else {
      assert (v + rest)[..|v|] == v;
    }
  }

  lemma TakeBlobComplete(v: seq<byte>, k: nat, bytes: seq<byte>, rest: seq<byte>)
    requires 0 < k <= |v| && IsVarint(v[..k], |bytes|) && v[k..] == bytes
    ensures TakeBody(v + rest, 2) == Ok((Blob(bytes), |v|))
  {
    TakeVarintComplete(v[..k], |bytes|, v[k..] + rest, 10);
    assert v[..k] + (v[k..] + rest) == v + rest;
    assert (v + rest)[k..k + |bytes|] == bytes;
  }

  lemma TakeFieldSound(s: seq<byte>)
    requires TakeField(s).Ok?
    ensures var (f, used) := TakeField(s).value; IsField(s[..used], f)
  {
    var (f, used) := TakeField(s).value;
    var (key, k) := TakeVarint(s, 10).value;
    TakeVarintSound(s, 10);
    TakeBodySound(s[k..], key % 8);
    assert s[..used][..k] == s[..k] && s[..used][k..] == s[k..][..used - k];
  }

  lemma TakeFieldComplete(v: seq<byte>, f: Field, rest: seq<byte>)
    requires IsField(v, f)
    ensures TakeField(v + rest) == Ok((f, |v|))
  {
    var k :| 0 < k <= |v| && f.wireType < 8 && IsVarint(v[..k], 8 * f.number + f.wireType)
      && IsBody(v[k..], f.wireType, f.value);
    TakeFieldSplit(v, f, k, rest);
  }

  lemma TakeFieldSplit(v: seq<byte>, f: Field, k: nat, rest: seq<byte>)
    requires 0 < k <= |v| && f.wireType < 8
    requires IsVarint(v[..k], 8 * f.number + f.wireType) && IsBody(v[k..], f.wireType, f.value)
    ensures TakeField(v + rest) == Ok((f, |v|))
  {
    var key := 8 * f.number + f.wireType;
    KeyAtFront(v, key, k, rest);
    BodyAfterKey(v, f.wireType, f.value, k, rest);
    KeyParts(f.number, f.wireType);
    KeyThenBody(v + rest, key, k, f.value, |v| - k);
  }

  lemma KeyAtFront(v: seq<byte>, key: nat, k: nat, rest: seq<byte>)
    requires k <= |v| && IsVarint(v[..k], key)
    ensures TakeVarint(v + rest, 10) == Ok((key, k))
  {
    TakeVarintComplete(v[..k], key, v[k..] + rest, 10);
    assert v[..k] + (v[k..] + rest) == v + rest;
  }

  lemma BodyAfterKey(v: seq<byte>, wireType: nat, value: Value, k: nat, rest: seq<byte>)
    requires k <= |v| && IsBody(v[k..], wireType, value)
    ensures TakeBody((v + rest)[k..], wireType) == Ok((value, |v| - k))
  {
    TakeBodyComplete(v[k..], wireType, value, rest);
    assert (v + rest)[k..] == v[k..] + rest;
  }

  lemma KeyThenBody(s: seq<byte>, key: nat, k: nat, value: Value, more: nat)
    requires k <= |s| && TakeVarint(s, 10) == Ok((key, k)) && TakeBody(s[k..], key % 8) == Ok((value, more))
    ensures TakeField(s) == Ok((Field(key / 8, key % 8, value), k + more))
  {
  }

  lemma KeyParts(number: nat, wireType: nat)
    requires wireType < 8
    ensures (8 * number + wireType) / 8 == number && (8 * number + wireType) % 8 == wireType
  {
  }

  /** Soundness: the fields of a message that decodes without error tile it
      exactly, so nothing is skipped and nothing past the end is read. */
  lemma {:induction false} DecodedFieldsTile(data: seq<byte>) returns (parts: seq<seq<byte>>)
    requires TakeFields(data).1 == None
    ensures Tiles(data, parts, TakeFields(data).0)
  {
    parts := [];
    if data != [] {
      var (f, used) := TakeField(data).value;
      TakeFieldSound(data);
      var rest := DecodedFieldsTile(data[used..]);
      parts := [data[..used]] + rest;
      assert parts[1..] == rest;
      assert data == data[..used] + data[used..];
    }
  }

  lemma TilesRest(data: seq<byte>, parts: seq<seq<byte>>, fields: seq<Field>)
    requires Tiles(data, parts, fields) && parts != []
    ensures Tiles(Concat(parts[1..]), parts[1..], fields[1..])
  {
  }

  /** Completeness: a message tiled by fields decodes to exactly those fields. */
  lemma {:induction false} TiledMessageDecodes(data: seq<byte>, parts: seq<seq<byte>>, fields: seq<Field>)
    requires Tiles(data, parts, fields)
    ensures TakeFields(data) == (fields, None)
  {
    if parts == [] {
      assert data == [];
    } else {
      var rest := Concat(parts[1..]);
      TakeFieldComplete(parts[0], fields[0], rest);
      assert data == parts[0] + rest && data[|parts[0]|..] == rest;
      TilesRest(data, parts, fields);
      TiledMessageDecodes(rest, parts[1..], fields[1..]);
      assert fields == [fields[0]] + fields[1..];
    }
  }

  /** Both directions: decode_fields accepts a byte string, with these fields,
      exactly when the string is these fields laid end to end. In particular a
      field whose length runs past the end is refused. */
  lemma DecodesIffTiled(data: seq<byte>, fields: seq<Field>)
    ensures TakeFields(data) == (fields, None) <==> exists parts :: Tiles(data, parts, fields)
  {
    if TakeFields(data) == (fields, None) {
      var parts := DecodedFieldsTile(data);
    }
    forall parts | Tiles(data, parts, fields)
      ensures TakeFields(data) == (fields, None)
    {
      TiledMessageDecodes(data, parts, fields);
    }
  }

  // -------------------------------------------------- reading back the encoder

  /** A continued byte in front of a varint. */
  lemma VarintGrows(b: byte, tail: seq<byte>, n: nat)
    requires IsVarint(tail, n) && |tail| < 10 && b >= 128
    ensures IsVarint([b] + tail, b % 128 + 128 * n)
  {
    var s := [b] + tail;
    assert s[1..] == tail;
    forall i | 0 <= i < |s| - 1
      ensures s[i] >= 128
    {
      assert i > 0 ==> s[i] == tail[i - 1];
    }
  }

  lemma {:induction false} VarintIsVarint(n: nat, k: nat)
    requires n < Pow128(k) && 0 < k <= 10
    ensures IsVarint(Varint(n), n)
  {
    VarintLength(n, k);
    if n >= 128 {
      assert k > 1 by {
        assert Pow128(1) == 128;
      }
      VarintIsVarint(n / 128, k - 1);
      VarintLength(n / 128, k - 1);
      VarintGrows(128 + n % 128, Varint(n / 128), n / 128);
    } else {
      assert Base128(Varint(n)[1..]) == 0;
    }
  }

  lemma Pow128Ten()
    ensures TwoTo64 <= Pow128(10)
    ensures 0x1_0000_0000 <= Pow128(5)
  {
    assert Pow128(5) == 0x8_0000_0000;
    assert Pow128(7) == 128 * Pow128(6) && Pow128(8) == 128 * Pow128(7);
    assert Pow128(9) == 128 * Pow128(8) && Pow128(10) == 128 * Pow128(9);
  }

  lemma EncodedFieldIsField(f: Field)
    requires Encodable(f)
    ensures IsField(EncodeField(f), f)
  {
    Pow128Ten();
    var key := 8 * f.number + f.wireType;
    var k := |Varint(key)|;
    VarintIsVarint(key, 10);
    var s := EncodeField(f);
    assert s[..k] == Varint(key);
    var body := s[k..];
    if f.wireType == 0 {
      VarintIsVarint(f.value.n, 10);
      assert body == Varint(f.value.n);
    } else if f.wireType == 2 {
      VarintIsVarint(|f.value.bytes|, 10);
      var l := |Varint(|f.value.bytes|)|;
      assert body[..l] == Varint(|f.value.bytes|) && body[l..] == f.value.bytes;
    } else {
      assert body == f.value.bytes;
    }
    assert IsBody(body, f.wireType, f.value);
  }

  function EncodedParts(fields: seq<Field>): (parts: seq<seq<byte>>)
    requires AllEncodable(fields)
    ensures |parts| == |fields|
    ensures forall i :: 0 <= i < |fields| ==> parts[i] == EncodeField(fields[i])
  {
    seq(|fields|, i requires 0 <= i < |fields| => EncodeField(fields[i]))
  }

  lemma {:induction false} ConcatEncodedParts(fields: seq<Field>)
    requires AllEncodable(fields)
    ensures Concat(EncodedParts(fields)) == EncodeFields(fields)
  {
    if fields != [] {
      ConcatEncodedParts(fields[1..]);
      assert EncodedParts(fields)[1..] == EncodedParts(fields[1..]);
    }
  }

  /** Generic round trip: whatever fields are written are read back, all of them, in order. */
  lemma FieldsRoundTrip(fields: seq<Field>)
    requires AllEncodable(fields)
    ensures TakeFields(EncodeFields(fields)) == (fields, None)
  {
    forall i | 0 <= i < |fields|
      ensures IsField(EncodedParts(fields)[i], fields[i])
    {
      EncodedFieldIsField(fields[i]);
    }
    ConcatEncodedParts(fields);
    TiledMessageDecodes(EncodeFields(fields), EncodedParts(fields), fields);
  }
}
