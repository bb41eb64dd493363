/** Valid UTF-8 is what encoding gives: section 3 of RFC 3629. */
module Utf8Laws {
  import opened Basics
  import opened ProxyProtocol

  /** A Unicode code point that is no surrogate. */
  predicate IsScalar(c: int) {
    0 <= c < 0xD800 || 0xE000 <= c < 0x11_0000
  }

  function Tail(n: int): byte {
    (0x80 + n % 64) as byte
  }

  function Encode(c: int): seq<byte>
    requires IsScalar(c)
  {
    if c < 0x80 then [c as byte]
    else if c < 0x800 then [(0xC0 + c / 64) as byte, Tail(c)]
    else if c < 0x1_0000 then [(0xE0 + c / 4096) as byte, Tail(c / 64), Tail(c)]
    else [(0xF0 + c / 262_144) as byte, Tail(c / 4096), Tail(c / 64), Tail(c)]
  }

  predicate AllScalars(cs: seq<int>) {
    forall i :: 0 <= i < |cs| ==> IsScalar(cs[i])
  }

  function EncodeAll(cs: seq<int>): seq<byte>
    requires AllScalars(cs)
  {
    if cs == [] then [] else Encode(cs[0]) + EncodeAll(cs[1..])
  }

  /** The bytes of one code point, as the table of section 4 has them. */
  lemma EncodedBytes(c: int)
    requires IsScalar(c)
    ensures var b := Encode(c);
      && 1 <= |b| <= 4 && (|b| == 1 <==> b[0] < 0x80) && (forall i :: 1 <= i < |b| ==> Within(b[i], 0x80, 0xBF))
      && (|b| == 2 ==> Within(b[0], 0xC2, 0xDF))
      && (|b| == 3 ==> Within(b[0], 0xE0, 0xEF) && (b[0] == 0xE0 ==> b[1] >= 0xA0) && (b[0] == 0xED ==> b[1] <= 0x9F))
      && (|b| == 4 ==> Within(b[0], 0xF0, 0xF4) && (b[0] == 0xF0 ==> b[1] >= 0x90) && (b[0] == 0xF4 ==> b[1] <= 0x8F))
  {
  }

  lemma EncodedIsSequence(c: int, rest: seq<byte>)
    requires IsScalar(c)
    ensures SequenceLength(Encode(c) + rest) == |Encode(c)| > 0
  {
    EncodedBytes(c);
    hide Encode, IsScalar;
    var e := Encode(c);
    var b := e + rest;
    assert forall i :: 0 <= i < |e| ==> b[i] == e[i];
    forall n | 2 <= n <= |e| ensures Tails(b[1..n]) {
      assert forall i :: 0 <= i < n - 1 ==> b[1..n][i] == e[i + 1];
    }
  }

  lemma Digits(c: int, x: int, y: int)
    requires c == 64 * x + y && 0 <= y < 64
    ensures c / 64 == x && c % 64 == y
  {
  }

  lemma TwoBytes(b: seq<byte>) returns (c: int)
    requires |b| == 2 && Within(b[0], 0xC2, 0xDF) && Within(b[1], 0x80, 0xBF)
    ensures IsScalar(c) && Encode(c) == b
  {
    var x, y := b[0] as int - 0xC0, b[1] as int - 0x80;
    c := 64 * x + y;
    Digits(c, x, y);
  }

  lemma ThreeBytes(b: seq<byte>) returns (c: int)
    requires |b| == 3 && Within(b[0], 0xE0, 0xEF) && Within(b[1], 0x80, 0xBF) && Within(b[2], 0x80, 0xBF)
    requires (b[0] == 0xE0 ==> b[1] >= 0xA0) && (b[0] == 0xED ==> b[1] <= 0x9F)
    ensures IsScalar(c) && Encode(c) == b
  {
    var x, y, z := b[0] as int - 0xE0, b[1] as int - 0x80, b[2] as int - 0x80;
    var high := 64 * x + y;
    c := 64 * high + z;
    Digits(high, x, y);
    Digits(c, high, z);
    assert c / 4096 == high / 64;
  }

  lemma FourBytes(b: seq<byte>) returns (c: int)
    requires |b| == 4 && Within(b[0], 0xF0, 0xF4)
    requires Within(b[1], 0x80, 0xBF) && Within(b[2], 0x80, 0xBF) && Within(b[3], 0x80, 0xBF)
    requires (b[0] == 0xF0 ==> b[1] >= 0x90) && (b[0] == 0xF4 ==> b[1] <= 0x8F)
    ensures IsScalar(c) && Encode(c) == b
  {
    var x, y, z, v := b[0] as int - 0xF0, b[1] as int - 0x80, b[2] as int - 0x80, b[3] as int - 0x80;
    var high := 64 * x + y;
    var middle := 64 * high + z;
    c := 64 * middle + v;
    Digits(high, x, y);
    Digits(middle, high, z);
    Digits(c, middle, v);
    assert c / 4096 == middle / 64 && c / 262_144 == high / 64;
  }

  lemma SequenceIsEncoded(b: seq<byte>) returns (c: int)
    requires SequenceLength(b) > 0
    ensures IsScalar(c) && Encode(c) == b[..SequenceLength(b)]
  {
    var n := SequenceLength(b);
    if n == 1 {
      c := b[0] as int;
    } else {
      var t := b[1..n];
      assert Tails(t) && forall i :: 0 <= i < n - 1 ==> b[i + 1] == t[i];
      hide Encode, IsScalar;
      if n == 2 {
        c := TwoBytes(b[..2]);
      } else if n == 3 {
        c := ThreeBytes(b[..3]);
      } else {
        c := FourBytes(b[..4]);
      }
    }
  }

  /** Exactly the encodings of sequences of code points are valid. */
  lemma {:induction false} ValidUtf8Iff(b: seq<byte>)
    ensures ValidUtf8(b) <==> exists cs :: AllScalars(cs) && EncodeAll(cs) == b
  {
    if ValidUtf8(b) {
      var cs := Decoded(b);
    }
    forall cs | AllScalars(cs) && EncodeAll(cs) == b ensures ValidUtf8(b) {
      EncodedIsValid(cs);
    }
  }

  lemma {:induction false} Decoded(b: seq<byte>) returns (cs: seq<int>)
    requires ValidUtf8(b)
    ensures AllScalars(cs) && EncodeAll(cs) == b
    decreases |b|
  {
    if b == [] {
      cs := [];
    } else {
      hide SequenceLength, Encode, IsScalar, EncodeAll, AllScalars;
      var n := SequenceLength(b);
      var c := SequenceIsEncoded(b);
      var rest := Decoded(b[n..]);
      cs := [c] + rest;
      EncodeCons(c, rest);
      hide ValidUtf8;
      assert b == b[..n] + b[n..];
    }
  }

  lemma EncodeCons(c: int, rest: seq<int>)
    requires IsScalar(c) && AllScalars(rest)
    ensures AllScalars([c] + rest) && EncodeAll([c] + rest) == Encode(c) + EncodeAll(rest)
  {
    hide Encode, IsScalar;
    var cs := [c] + rest;
    assert forall i :: 0 <= i < |cs| ==> cs[i] == if i == 0 then c else rest[i - 1];
    assert cs[1..] == rest;
  }

  lemma {:induction false} EncodedIsValid(cs: seq<int>)
    requires AllScalars(cs)
    ensures ValidUtf8(EncodeAll(cs))
  {
    if cs != [] {
      hide SequenceLength, Encode;
      var rest := EncodeAll(cs[1..]);
      EncodedIsValid(cs[1..]);
      EncodedIsSequence(cs[0], rest);
      assert (Encode(cs[0]) + rest)[|Encode(cs[0])|..] == rest;
    }
  }
}
