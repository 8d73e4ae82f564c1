/**
 * The URL- and filename-safe base64 alphabet of section 5 of RFC 4648, without padding,
 * as the WebAuthn JSON serialisation uses it for every binary field. It stands in for the
 * helpers `Data(base64URLEncoded:)` and `Data.toBase64URLEncodedString()`, whose source
 * is not part of this model: decoding accepts only canonical text (no `=` padding, no
 * length of the form 4k+1, zero unused bits in the last character).
 */
module Base64Url {
  import opened Wrappers
  import opened Binary

  type Sextet = v: int | 0 <= v < 64

  /** The character that encodes the 6-bit value `v`. */
  function CharOf(v: Sextet): (c: char)
  {
    if v < 26 then ('A' as int + v) as char
    else if v < 52 then ('a' as int + (v - 26)) as char
    else if v < 62 then ('0' as int + (v - 52)) as char
    else if v == 62 then '-'
    else '_'
  }

  /** The 6-bit value a character encodes, or None for a character outside the alphabet. */
  function ValueOf(c: char): (r: Option<Sextet>)
    ensures r.Some? ==> CharOf(r.value) == c
  {
    if 'A' <= c <= 'Z' then Some(c as int - 'A' as int)
    else if 'a' <= c <= 'z' then Some(c as int - 'a' as int + 26)
    else if '0' <= c <= '9' then Some(c as int - '0' as int + 52)
    else if c == '-' then Some(62)
    else if c == '_' then Some(63)
    else None
  }

  lemma ValueOfCharOf(v: Sextet)
    ensures ValueOf(CharOf(v)) == Some(v)
  {
  }

  /** Three bytes as four characters. */
  function EncodeBlock(b0: Byte, b1: Byte, b2: Byte): string
  {
    [CharOf(b0 / 4), CharOf((b0 % 4) * 16 + b1 / 16), CharOf((b1 % 16) * 4 + b2 / 64), CharOf(b2 % 64)]
  }

  /** The unpadded base64url text of `b`. */
  function Encode(b: Bytes): (s: string)
    ensures |s| == (4 * |b| + 2) / 3
    decreases |b|
  {
    if |b| == 0 then []
    else if |b| == 1 then [CharOf(b[0] / 4), CharOf((b[0] % 4) * 16)]
    else if |b| == 2 then [CharOf(b[0] / 4), CharOf((b[0] % 4) * 16 + b[1] / 16), CharOf((b[1] % 16) * 4)]
    else EncodeBlock(b[0], b[1], b[2]) + Encode(b[3..])
  }

  /** The three bytes that four 6-bit values carry. */
  function BlockBytes(v0: Sextet, v1: Sextet, v2: Sextet, v3: Sextet): Bytes
  {
    var d0: Byte := v0 * 4 + v1 / 16;
    var d1: Byte := (v1 % 16) * 16 + v2 / 4;
    var d2: Byte := (v2 % 4) * 64 + v3;
    [d0, d1, d2]
  }

  /** Four characters as three bytes. */
  function DecodeBlock(c0: char, c1: char, c2: char, c3: char): Option<Bytes>
  {
    match (ValueOf(c0), ValueOf(c1), ValueOf(c2), ValueOf(c3))
    case (Some(v0), Some(v1), Some(v2), Some(v3)) => Some(BlockBytes(v0, v1, v2, v3))
    case _ => None
  }

  /** The final two characters of a text whose length is 2 modulo 4: one byte. */
  function DecodeTail2(c0: char, c1: char): Option<Bytes>
  {
    match (ValueOf(c0), ValueOf(c1))
    case (Some(v0), Some(v1)) =>
      if v1 % 16 == 0 then Some([BlockBytes(v0, v1, 0, 0)[0]]) else None
    case _ => None
  }

  /** The final three characters of a text whose length is 3 modulo 4: two bytes. */
  function DecodeTail3(c0: char, c1: char, c2: char): Option<Bytes>
  {
    match (ValueOf(c0), ValueOf(c1), ValueOf(c2))
    case (Some(v0), Some(v1), Some(v2)) =>
      if v2 % 4 == 0 then var d := BlockBytes(v0, v1, v2, 0); Some([d[0], d[1]]) else None
    case _ => None
  }

  /** The bytes that the unpadded base64url text `s` encodes, or None when `s` is not such a text. */
  function Decode(s: string): (r: Option<Bytes>)
    ensures r.Some? ==> |s| % 4 != 1 && |r.value| == |s| * 3 / 4
    decreases |s|
  {
    if |s| == 0 then Some([])
    else if |s| == 1 then None
    else if |s| == 2 then DecodeTail2(s[0], s[1])
    else if |s| == 3 then DecodeTail3(s[0], s[1], s[2])
    else
      match DecodeBlock(s[0], s[1], s[2], s[3])
      case None => None
      case Some(head) =>
        match Decode(s[4..])
        case None => None
        case Some(tail) => ThreeQuartersStep(|s| - 4); Some(head + tail)
  }

  /** Four more characters carry three more bytes. */
  lemma ThreeQuartersStep(n: nat)
    ensures (n + 4) * 3 / 4 == n * 3 / 4 + 3
  {
  }

  /** The 6-bit values of three bytes carry those bytes. */
  lemma BlockBytesOfBytes(b0: Byte, b1: Byte, b2: Byte)
    ensures BlockBytes(b0 / 4, (b0 % 4) * 16 + b1 / 16, (b1 % 16) * 4 + b2 / 64, b2 % 64) == [b0, b1, b2]
  {
    DivMod16(b0 % 4, b1 / 16);
    DivMod4(b1 % 16, b2 / 64);
  }

  /** Re-splitting the bytes that four 6-bit values carry gives back those values. */
  lemma SextetsOfBlockBytes(v0: Sextet, v1: Sextet, v2: Sextet, v3: Sextet)
    ensures var d := BlockBytes(v0, v1, v2, v3);
      && d[0] / 4 == v0 && (d[0] % 4) * 16 + d[1] / 16 == v1
      && (d[1] % 16) * 4 + d[2] / 64 == v2 && d[2] % 64 == v3
  {
    DivMod4(v0, v1 / 16);
    DivMod16(v1 % 16, v2 / 4);
    DivMod64(v2 % 4, v3);
  }

  lemma BlockRoundTrip(b0: Byte, b1: Byte, b2: Byte)
    ensures var e := EncodeBlock(b0, b1, b2); DecodeBlock(e[0], e[1], e[2], e[3]) == Some([b0, b1, b2])
  {
    ValueOfCharOf(b0 / 4);
    ValueOfCharOf((b0 % 4) * 16 + b1 / 16);
    ValueOfCharOf((b1 % 16) * 4 + b2 / 64);
    ValueOfCharOf(b2 % 64);
    BlockBytesOfBytes(b0, b1, b2);
  }

  /** The two characters of a final byte carry it, with zero unused bits. */
  lemma Tail1Values(b0: Byte)
    ensures ((b0 % 4) * 16) % 16 == 0
    ensures BlockBytes(b0 / 4, (b0 % 4) * 16, 0, 0)[0] == b0
  {
    BlockBytesOfBytes(b0, 0, 0);
  }

  /** The three characters of two final bytes carry them, with zero unused bits. */
  lemma Tail2Values(b0: Byte, b1: Byte)
    ensures ((b1 % 16) * 4) % 4 == 0
    ensures var d := BlockBytes(b0 / 4, (b0 % 4) * 16 + b1 / 16, (b1 % 16) * 4, 0); d[0] == b0 && d[1] == b1
  {
    BlockBytesOfBytes(b0, b1, 0);
  }

  lemma DecodeEncodeTail1(b: Bytes)
    requires |b| == 1
    ensures Decode(Encode(b)) == Some(b)
  {
    var c0, c1 := CharOf(b[0] / 4), CharOf((b[0] % 4) * 16);
    assert Encode(b) == [c0, c1];
    ValueOfCharOf(b[0] / 4);
    ValueOfCharOf((b[0] % 4) * 16);
    Tail1Values(b[0]);
    assert DecodeTail2(c0, c1) == Some([b[0]]);
    assert Decode([c0, c1]) == DecodeTail2(c0, c1);
    assert b == [b[0]];
  }

  lemma DecodeEncodeTail2(b: Bytes)
    requires |b| == 2
    ensures Decode(Encode(b)) == Some(b)
  {
    var c0, c1, c2 := CharOf(b[0] / 4), CharOf((b[0] % 4) * 16 + b[1] / 16), CharOf((b[1] % 16) * 4);
    assert Encode(b) == [c0, c1, c2];
    ValueOfCharOf(b[0] / 4);
    ValueOfCharOf((b[0] % 4) * 16 + b[1] / 16);
    ValueOfCharOf((b[1] % 16) * 4);
    Tail2Values(b[0], b[1]);
    assert DecodeTail3(c0, c1, c2) == Some([b[0], b[1]]);
    assert Decode([c0, c1, c2]) == DecodeTail3(c0, c1, c2);
    assert b == [b[0], b[1]];
  }

  /** Decoding a text that starts with four characters decodes that block and then the rest. */
  lemma DecodeBlockThenRest(head: string, rest: string)
    requires |head| == 4
    ensures Decode(head + rest) ==
      match DecodeBlock(head[0], head[1], head[2], head[3])
      case None => None
      case Some(h) => (match Decode(rest) case None => None case Some(t) => Some(h + t))
  {
    var s := head + rest;
    assert s[0] == head[0] && s[1] == head[1] && s[2] == head[2] && s[3] == head[3];
    assert s[4..] == rest;
  }

  /** Decoding undoes encoding: every binary field survives the trip through text. */
  lemma {:induction false} DecodeEncode(b: Bytes)
    ensures Decode(Encode(b)) == Some(b)
    decreases |b|
  {
    if |b| == 1 {
      DecodeEncodeTail1(b);
    } else if |b| == 2 {
      DecodeEncodeTail2(b);
    } else if |b| >= 3 {
      DecodeEncode(b[3..]);
      DecodeEncodeStep(b);
    }
  }

  /** One step of `DecodeEncode`: a full block in front of a tail that already round-trips. */
  lemma DecodeEncodeStep(b: Bytes)
    requires |b| >= 3
    requires Decode(Encode(b[3..])) == Some(b[3..])
    ensures Decode(Encode(b)) == Some(b)
  {
    var head, tail := EncodeBlock(b[0], b[1], b[2]), Encode(b[3..]);
    var h := [b[0], b[1], b[2]];
    EncodeOfBlock(b);
    BlockRoundTrip(b[0], b[1], b[2]);
    DecodeBlockPrefix(head, tail, h, b[3..]);
    SplitAfterThree(b);
  }

  lemma SplitAfterThree(b: Bytes)
    requires |b| >= 3
    ensures [b[0], b[1], b[2]] + b[3..] == b
  {
  }

  /** A block that decodes to `h` in front of a text that decodes to `t` decodes to `h + t`. */
  lemma DecodeBlockPrefix(head: string, tail: string, h: Bytes, t: Bytes)
    requires |head| == 4 && DecodeBlock(head[0], head[1], head[2], head[3]) == Some(h)
    requires Decode(tail) == Some(t)
    ensures Decode(head + tail) == Some(h + t)
  {
    DecodeBlockThenRest(head, tail);
  }

  /** Three or more bytes are encoded as one block followed by the encoding of the rest. */
  lemma EncodeOfBlock(b: Bytes)
    requires |b| >= 3
    ensures Encode(b) == EncodeBlock(b[0], b[1], b[2]) + Encode(b[3..])
  {
  }

  lemma EncodeDecodeTail2(s: string)
    requires |s| == 2 && Decode(s).Some?
    ensures Encode(Decode(s).value) == s
  {
    var v0, v1 := ValueOf(s[0]).value, ValueOf(s[1]).value;
    SextetsOfBlockBytes(v0, v1, 0, 0);
    var d := BlockBytes(v0, v1, 0, 0);
    assert Decode(s) == Some([d[0]]);
    assert Encode([d[0]]) == [CharOf(v0), CharOf(v1)];
    assert s == [s[0], s[1]];
  }

  lemma EncodeDecodeTail3(s: string)
    requires |s| == 3 && Decode(s).Some?
    ensures Encode(Decode(s).value) == s
  {
    var v0, v1, v2 := ValueOf(s[0]).value, ValueOf(s[1]).value, ValueOf(s[2]).value;
    SextetsOfBlockBytes(v0, v1, v2, 0);
    var d := BlockBytes(v0, v1, v2, 0);
    assert Decode(s) == Some([d[0], d[1]]);
    assert Encode([d[0], d[1]]) == [CharOf(v0), CharOf(v1), CharOf(v2)];
    assert s == [s[0], s[1], s[2]];
  }

  lemma EncodeDecodeBlock(c0: char, c1: char, c2: char, c3: char)
    requires DecodeBlock(c0, c1, c2, c3).Some?
    ensures var d := DecodeBlock(c0, c1, c2, c3).value; |d| == 3 && EncodeBlock(d[0], d[1], d[2]) == [c0, c1, c2, c3]
  {
    var v0, v1, v2, v3 := ValueOf(c0).value, ValueOf(c1).value, ValueOf(c2).value, ValueOf(c3).value;
    SextetsOfBlockBytes(v0, v1, v2, v3);
  }

  /** Encoding undoes decoding: a text that decodes is the one encoding of its bytes, so it is canonical. */
  lemma {:induction false} EncodeDecode(s: string)
    requires Decode(s).Some?
    ensures Encode(Decode(s).value) == s
    decreases |s|
  {
    if |s| == 2 {
      EncodeDecodeTail2(s);
    } else if |s| == 3 {
      EncodeDecodeTail3(s);
    } else if |s| >= 4 {
      var head := DecodeBlock(s[0], s[1], s[2], s[3]).value;
      var tail := Decode(s[4..]).value;
      EncodeDecode(s[4..]);
      EncodeDecodeBlock(s[0], s[1], s[2], s[3]);
      var b := head + tail;
      assert Decode(s).value == b;
      assert b[..3] == head && b[3..] == tail;
      assert Encode(b) == EncodeBlock(b[0], b[1], b[2]) + Encode(b[3..]);
      assert s == s[..4] + s[4..];
    }
  }

  /** Two byte strings with the same encoding are equal. */
  lemma EncodeInjective(a: Bytes, b: Bytes)
    requires Encode(a) == Encode(b)
    ensures a == b
  {
    DecodeEncode(a);
    DecodeEncode(b);
  }
}
