/**
 * UTF-8 as RFC 3629 defines it: Swift's `String.data(using: .utf8)` (encoding, which cannot
 * fail on a Swift string) and `String(data:encoding: .utf8)` (decoding, which fails on
 * ill-formed input). A Dafny `char` is a Unicode scalar value, as a Swift `Character`'s
 * scalars are, so every string has an encoding.
 */
module Utf8 {
  import opened Wrappers
  import opened Binary

  /** A continuation byte: 10xxxxxx. */
  predicate IsContinuation(b: Byte)
  {
    0x80 <= b < 0xC0
  }

  /** The six payload bits of a continuation byte. */
  function Payload(b: Byte): int
  {
    b as int - 0x80
  }

  /** The one to four bytes of a scalar value. */
  function EncodeScalar(c: char): (r: Bytes)
    ensures 1 <= |r| <= 4
  {
    var cp := c as int;
    if cp < 0x80 then [cp]
    else if cp < 0x800 then [0xC0 + cp / 64, 0x80 + cp % 64]
    else if cp < 0x10000 then [0xE0 + cp / 4096, 0x80 + (cp / 64) % 64, 0x80 + cp % 64]
    else [0xF0 + cp / 262144, 0x80 + (cp / 4096) % 64, 0x80 + (cp / 64) % 64, 0x80 + cp % 64]
  }

  /** The UTF-8 bytes of a string. */
  function Encode(s: string): (r: Bytes)
    ensures |s| <= |r| <= 4 * |s|
  {
    if s == [] then [] else EncodeScalar(s[0]) + Encode(s[1..])
  }

  /** Whether `cp` is a Unicode scalar value: a code point that is not a surrogate. */
  predicate IsScalar(cp: int)
  {
    0 <= cp < 0xD800 || 0xE000 <= cp < 0x11_0000
  }

  /** The scalar value that `b` starts with and the number of bytes it takes, or None when `b` does not start with a well-formed one. */
  function DecodeFirst(b: Bytes): (r: Option<(char, nat)>)
    requires |b| > 0
    ensures r.Some? ==> 1 <= r.value.1 <= 4 && r.value.1 <= |b|
  {
    var b0: int := b[0];
    if b0 < 0x80 then Some((b0 as char, 1))
    else if 0xC0 <= b0 < 0xE0 then
      if |b| >= 2 && IsContinuation(b[1]) then
        var cp: int := (b0 - 0xC0) * 64 + Payload(b[1]);
        if 0x80 <= cp then Some((cp as char, 2)) else None
      else None
    else if 0xE0 <= b0 < 0xF0 then
      if |b| >= 3 && IsContinuation(b[1]) && IsContinuation(b[2]) then
        var cp: int := (b0 - 0xE0) * 4096 + Payload(b[1]) * 64 + Payload(b[2]);
        if 0x800 <= cp && IsScalar(cp) then Some((cp as char, 3)) else None
      else None
    else if 0xF0 <= b0 < 0xF8 then
      if |b| >= 4 && IsContinuation(b[1]) && IsContinuation(b[2]) && IsContinuation(b[3]) then
        var cp: int := (b0 - 0xF0) * 262144 + Payload(b[1]) * 4096 + Payload(b[2]) * 64 + Payload(b[3]);
        if 0x1_0000 <= cp && IsScalar(cp) then Some((cp as char, 4)) else None
      else None
    else None
  }

  /** The string whose UTF-8 encoding is `b`, or None when `b` is not well-formed UTF-8. */
  function Decode(b: Bytes): (r: Option<string>)
    ensures r.Some? ==> |r.value| <= |b| <= 4 * |r.value|
    decreases |b|
  {
    if b == [] then Some([])
    else
      match DecodeFirst(b)
      case None => None
      case Some((c, n)) =>
        match Decode(b[n..])
        case None => None
        case Some(rest) => Some([c] + rest)
  }

  /** A code point below 0x10000 is its top four bits, middle six bits and low six bits. */
  lemma ThreeParts(cp: int)
    requires 0 <= cp
    ensures (cp / 4096) * 4096 + ((cp / 64) % 64) * 64 + cp % 64 == cp
  {
    var q := cp / 64;
    DivMod4096(q / 64, (q % 64) * 64 + cp % 64);
  }

  /** A code point is its top bits and three groups of six bits. */
  lemma FourParts(cp: int)
    requires 0 <= cp
    ensures (cp / 262144) * 262144 + ((cp / 4096) % 64) * 4096 + ((cp / 64) % 64) * 64 + cp % 64 == cp
  {
    var q := cp / 4096;
    ThreeParts(cp);
    DivMod262144(q / 64, (q % 64) * 4096 + ((cp / 64) % 64) * 64 + cp % 64);
  }

  lemma DecodeFirstOfEncode2(c: char, rest: Bytes)
    requires 0x80 <= c as int < 0x800
    ensures DecodeFirst(EncodeScalar(c) + rest) == Some((c, 2))
  {
    var b := EncodeScalar(c) + rest;
    assert b[0] == 0xC0 + (c as int) / 64 && b[1] == 0x80 + (c as int) % 64;
  }

  lemma DecodeFirstOfEncode3(c: char, rest: Bytes)
    requires 0x800 <= c as int < 0x1_0000
    ensures DecodeFirst(EncodeScalar(c) + rest) == Some((c, 3))
  {
    var cp := c as int;
    var b := EncodeScalar(c) + rest;
    assert b[0] == 0xE0 + cp / 4096 && b[1] == 0x80 + (cp / 64) % 64 && b[2] == 0x80 + cp % 64;
    ThreeParts(cp);
  }

  lemma DecodeFirstOfEncode4(c: char, rest: Bytes)
    requires 0x1_0000 <= c as int
    ensures DecodeFirst(EncodeScalar(c) + rest) == Some((c, 4))
  {
    var cp := c as int;
    var b := EncodeScalar(c) + rest;
    assert b[0] == 0xF0 + cp / 262144 && b[1] == 0x80 + (cp / 4096) % 64;
    assert b[2] == 0x80 + (cp / 64) % 64 && b[3] == 0x80 + cp % 64;
    FourParts(cp);
  }

  /** The first scalar decoded from an encoding followed by anything is the encoded one. */
  lemma DecodeFirstOfEncode(c: char, rest: Bytes)
    ensures DecodeFirst(EncodeScalar(c) + rest) == Some((c, |EncodeScalar(c)|))
  {
    var cp := c as int;
    if cp < 0x80 {
    } else if cp < 0x800 {
      DecodeFirstOfEncode2(c, rest);
    } else if cp < 0x1_0000 {
      DecodeFirstOfEncode3(c, rest);
    } else {
      DecodeFirstOfEncode4(c, rest);
    }
  }

  /** Decoding undoes encoding: a string survives the trip through its UTF-8 bytes. */
  lemma {:induction false} DecodeEncode(s: string)
    ensures Decode(Encode(s)) == Some(s)
  {
    if s != [] {
      var head := EncodeScalar(s[0]);
      var b := Encode(s);
      assert b == head + Encode(s[1..]);
      DecodeFirstOfEncode(s[0], Encode(s[1..]));
      assert b[|head|..] == Encode(s[1..]);
      DecodeEncode(s[1..]);
      assert s == [s[0]] + s[1..];
    }
  }

  lemma EncodeOfDecodeFirst2(b: Bytes)
    requires |b| > 0 && 0xC0 <= b[0] < 0xE0 && DecodeFirst(b).Some?
    ensures EncodeScalar(DecodeFirst(b).value.0) == b[..2]
  {
    var p0, p1 := b[0] - 0xC0, Payload(b[1]);
    DivMod64(p0, p1);
  }

  lemma EncodeOfDecodeFirst3(b: Bytes)
    requires |b| > 0 && 0xE0 <= b[0] < 0xF0 && DecodeFirst(b).Some?
    ensures EncodeScalar(DecodeFirst(b).value.0) == b[..3]
  {
    var p0, p1, p2 := b[0] - 0xE0, Payload(b[1]), Payload(b[2]);
    var cp := p0 * 4096 + p1 * 64 + p2;
    DivMod4096(p0, p1 * 64 + p2);
    DivMod64(p0 * 64 + p1, p2);
    assert cp == (p0 * 64 + p1) * 64 + p2;
    DivMod64(p0, p1);
  }

  lemma EncodeOfDecodeFirst4(b: Bytes)
    requires |b| > 0 && 0xF0 <= b[0] && DecodeFirst(b).Some?
    ensures EncodeScalar(DecodeFirst(b).value.0) == b[..4]
  {
    var p0, p1, p2, p3 := b[0] - 0xF0, Payload(b[1]), Payload(b[2]), Payload(b[3]);
    var cp := p0 * 262144 + p1 * 4096 + p2 * 64 + p3;
    DivMod262144(p0, p1 * 4096 + p2 * 64 + p3);
    assert cp == (p0 * 64 + p1) * 4096 + (p2 * 64 + p3);
    DivMod4096(p0 * 64 + p1, p2 * 64 + p3);
    DivMod64(p0, p1);
    assert cp == (p0 * 4096 + p1 * 64 + p2) * 64 + p3;
    DivMod64(p0 * 4096 + p1 * 64 + p2, p3);
    DivMod64(p0 * 64 + p1, p2);
  }

  /** The bytes a first scalar was decoded from are that scalar's encoding: the decoder accepts no overlong form. */
  lemma EncodeOfDecodeFirst(b: Bytes)
    requires |b| > 0 && DecodeFirst(b).Some?
    ensures EncodeScalar(DecodeFirst(b).value.0) == b[..DecodeFirst(b).value.1]
  {
    if b[0] < 0x80 {
    } else if b[0] < 0xE0 {
      EncodeOfDecodeFirst2(b);
    } else if b[0] < 0xF0 {
      EncodeOfDecodeFirst3(b);
    } else {
      EncodeOfDecodeFirst4(b);
    }
  }

  /** Encoding undoes decoding: bytes that decode are exactly the encoding of what they decode to. */
  lemma {:induction false} EncodeDecode(b: Bytes)
    requires Decode(b).Some?
    ensures Encode(Decode(b).value) == b
    decreases |b|
  {
    if b != [] {
      var (c, n) := DecodeFirst(b).value;
      EncodeOfDecodeFirst(b);
      EncodeDecode(b[n..]);
      var s := Decode(b).value;
      assert s == [c] + Decode(b[n..]).value;
      assert s[0] == c && s[1..] == Decode(b[n..]).value;
      assert b == b[..n] + b[n..];
    }
  }
}
