/** The byte strings that decode_metric accepts as names are exactly the UTF-8
    encodings of sequences of Unicode scalar values (section 3 of RFC 3629). */
module Utf8 {
  import opened Common
  import P = PayloadDecoder

  predicate IsScalar(c: nat) {
    c < 0xd800 || 0xe000 <= c < 0x11_0000
  }

  function Encode(c: nat): seq<byte>
    requires IsScalar(c)
  {
    if c < 0x80 then [c]
    else if c < 0x800 then [0xc0 + c / 64, 0x80 + c % 64]
    else if c < 0x1_0000 then [0xe0 + c / 4096, 0x80 + c / 64 % 64, 0x80 + c % 64]
    else [0xf0 + c / 0x4_0000, 0x80 + c / 4096 % 64, 0x80 + c / 64 % 64, 0x80 + c % 64]
  }

  ghost predicate AllScalars(cs: seq<nat>) {
    forall i :: 0 <= i < |cs| ==> IsScalar(cs[i])
  }

  function EncodeAll(cs: seq<nat>): seq<byte>
    requires AllScalars(cs)
  {
    if cs == [] then [] else Encode(cs[0]) + EncodeAll(cs[1..])
  }

  lemma EncodedIsAccepted(c: nat, rest: seq<byte>)
    requires IsScalar(c)
    ensures P.IsUtf8(Encode(c) + rest) <==> P.IsUtf8(rest)
  {
    var s := Encode(c) + rest;
    if c < 0x80 {
      assert s[1..] == rest;
    } else if c < 0x800 {
      assert s[2..] == rest;
    } else if c < 0x1_0000 {
      assert s[3..] == rest;
    } else {
      assert s[4..] == rest;
    }
  }

  lemma {:induction false} ScalarsAreAccepted(cs: seq<nat>)
    requires AllScalars(cs)
    ensures P.IsUtf8(EncodeAll(cs))
  {
    if cs != [] {
      ScalarsAreAccepted(cs[1..]);
      EncodedIsAccepted(cs[0], EncodeAll(cs[1..]));
    }
  }

  lemma Split(high: nat, low: nat)
    requires low < 64
    ensures (high * 64 + low) / 64 == high && (high * 64 + low) % 64 == low
  {
  }

  lemma DivTwice(n: nat)
    ensures n / 4096 == n / 64 / 64 && n / 0x4_0000 == n / 64 / 64 / 64
  {
  }

  lemma ThreeDigits(t: nat, u: nat, v: nat)
    requires u < 64 && v < 64
    ensures var n := (t * 64 + u) * 64 + v;
            n / 4096 == t && n / 64 % 64 == u && n % 64 == v
  {
    Split(t, u);
    Split(t * 64 + u, v);
    DivTwice((t * 64 + u) * 64 + v);
  }

  lemma FourDigits(t: nat, u: nat, v: nat, w: nat)
    requires u < 64 && v < 64 && w < 64
    ensures var n := ((t * 64 + u) * 64 + v) * 64 + w;
            n / 0x4_0000 == t && n / 4096 % 64 == u && n / 64 % 64 == v && n % 64 == w
  {
    var high := (t * 64 + u) * 64 + v;
    ThreeDigits(t, u, v);
    Split(high, w);
    DivTwice(high);
    DivTwice(high * 64 + w);
  }

  function OfTwo(a: nat, b: nat): (c: nat)
    requires 0xc2 <= a < 0xe0 && 0x80 <= b < 0xc0
    ensures IsScalar(c) && Encode(c) == [a, b]
  {
    Split(a - 0xc0, b - 0x80);
    (a - 0xc0) * 64 + (b - 0x80)
  }

  function OfThree(a: nat, b: nat, c: nat): (r: nat)
    requires 0xe0 <= a < 0xf0 && 0x80 <= b < 0xc0 && 0x80 <= c < 0xc0
    requires (a == 0xe0 ==> b >= 0xa0) && (a == 0xed ==> b < 0xa0)
    ensures IsScalar(r) && Encode(r) == [a, b, c]
  {
    ThreeDigits(a - 0xe0, b - 0x80, c - 0x80);
    ((a - 0xe0) * 64 + (b - 0x80)) * 64 + (c - 0x80)
  }

  function OfFour(a: nat, b: nat, c: nat, d: nat): (r: nat)
    requires 0xf0 <= a < 0xf5 && 0x80 <= b < 0xc0 && 0x80 <= c < 0xc0 && 0x80 <= d < 0xc0
    requires (a == 0xf0 ==> b >= 0x90) && (a == 0xf4 ==> b < 0x90)
    ensures IsScalar(r) && Encode(r) == [a, b, c, d]
  {
    FourDigits(a - 0xf0, b - 0x80, c - 0x80, d - 0x80);
    (((a - 0xf0) * 64 + (b - 0x80)) * 64 + (c - 0x80)) * 64 + (d - 0x80)
  }

  /** The first scalar value of an accepted byte string, and how many bytes it takes. */
  function First(s: seq<byte>): (r: (nat, nat))
    requires s != [] && P.IsUtf8(s)
    ensures IsScalar(r.0) && 0 < r.1 <= |s| && Encode(r.0) == s[..r.1] && P.IsUtf8(s[r.1..])
  {
    if s[0] < 0x80 then (s[0], 1)
    else if s[0] < 0xe0 then (OfTwo(s[0], s[1]), 2)
    else if s[0] < 0xf0 then (OfThree(s[0], s[1], s[2]), 3)
    else (OfFour(s[0], s[1], s[2], s[3]), 4)
  }

  lemma EncodeFirst(c: nat, rest: seq<nat>)
    requires IsScalar(c) && AllScalars(rest)
    ensures AllScalars([c] + rest) && EncodeAll([c] + rest) == Encode(c) + EncodeAll(rest)
  {
    assert ([c] + rest)[1..] == rest;
  }

  lemma {:induction false} AcceptedIsScalars(s: seq<byte>) returns (cs: seq<nat>)
    requires P.IsUtf8(s)
    ensures AllScalars(cs) && s == EncodeAll(cs)
    decreases |s|
  {
    if s == [] {
      cs := [];
    } else {
      var r := First(s);
      var rest := AcceptedIsScalars(s[r.1..]);
      cs := [r.0] + rest;
      EncodeFirst(r.0, rest);
      assert s == s[..r.1] + s[r.1..];
    }
  }

  lemma Utf8IffScalars(s: seq<byte>)
    ensures P.IsUtf8(s) <==> exists cs :: AllScalars(cs) && s == EncodeAll(cs)
  {
    if P.IsUtf8(s) { var cs := AcceptedIsScalars(s); }
    forall cs | AllScalars(cs) && s == EncodeAll(cs)
      ensures P.IsUtf8(s)
    {
      ScalarsAreAccepted(cs);
    }
  }
}
