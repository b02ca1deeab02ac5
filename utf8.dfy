/** UTF-8 as `TextDecoder('utf-8')` reads it (the UTF-8 decoder of the WHATWG
    Encoding Standard, section 8.1.1, with replacement on error) and as RFC 3629
    writes it, and the UTF-16 code units a JavaScript string is made of. Strings are
    sequences of Unicode scalar values. */
module Utf8 {

  newtype byte = b: int | 0 <= b < 256

  /** U+FFFD, emitted for every maximal ill-formed subsequence. */
  const Replacement: char := '\U{FFFD}'

  /** U+FEFF, which `TextDecoder` drops at the start of its output. */
  const ByteOrderMark: char := '\U{FEFF}'

  predicate IsContinuation(b: byte) {
    0x80 <= b <= 0xBF
  }

  /** The scalar value of a valid two-byte sequence. */
  function Scalar2(b0: byte, b1: byte): (c: char)
    requires 0xC2 <= b0 <= 0xDF && IsContinuation(b1)
    ensures 0x80 <= c as int < 0x800
  {
    ((b0 as int - 0xC0) * 64 + (b1 as int - 0x80)) as char
  }

  /** The scalar value of a valid three-byte sequence; the bounds on the second
      byte exclude overlong forms (after E0) and surrogates (after ED). */
  function Scalar3(b0: byte, b1: byte, b2: byte): (c: char)
    requires 0xE0 <= b0 <= 0xEF && IsContinuation(b1) && IsContinuation(b2)
    requires b0 == 0xE0 ==> b1 >= 0xA0
    requires b0 == 0xED ==> b1 <= 0x9F
    ensures 0x800 <= c as int < 0x10000
  {
    ((b0 as int - 0xE0) * 4096 + (b1 as int - 0x80) * 64 + (b2 as int - 0x80)) as char
  }

  /** The scalar value of a valid four-byte sequence; the bounds on the second byte
      exclude overlong forms (after F0) and values above U+10FFFF (after F4). */
  function Scalar4(b0: byte, b1: byte, b2: byte, b3: byte): (c: char)
    requires 0xF0 <= b0 <= 0xF4 && IsContinuation(b1) && IsContinuation(b2) && IsContinuation(b3)
    requires b0 == 0xF0 ==> b1 >= 0x90
    requires b0 == 0xF4 ==> b1 <= 0x8F
    ensures 0x10000 <= c as int
  {
    ((b0 as int - 0xF0) * 262144 + (b1 as int - 0x80) * 4096 + (b2 as int - 0x80) * 64 + (b3 as int - 0x80)) as char
  }

  /** The lowest and highest second byte allowed after lead byte `b0`. */
  function SecondLow(b0: byte): byte {
    if b0 == 0xE0 then 0xA0 else if b0 == 0xF0 then 0x90 else 0x80
  }

  function SecondHigh(b0: byte): byte {
    if b0 == 0xED then 0x9F else if b0 == 0xF4 then 0x8F else 0xBF
  }

  /** The WHATWG UTF-8 decoder run to the end of its input with error mode
      "replacement": a valid sequence yields its scalar value; a lead byte that is
      not followed by the bytes it needs yields one U+FFFD for the valid prefix read
      so far, and decoding resumes at the offending byte; a byte that cannot start
      a sequence yields one U+FFFD. */
  function Decode(b: seq<byte>): (r: string)
    ensures |r| <= |b|
    decreases |b|
  {
    if b == [] then []
    else if b[0] < 0x80 then [b[0] as int as char] + Decode(b[1..])
    else if 0xC2 <= b[0] <= 0xDF then
      if |b| >= 2 && IsContinuation(b[1]) then [Scalar2(b[0], b[1])] + Decode(b[2..])
      else [Replacement] + Decode(b[1..])
    else if 0xE0 <= b[0] <= 0xEF then
      if |b| < 2 || !(SecondLow(b[0]) <= b[1] <= SecondHigh(b[0])) then [Replacement] + Decode(b[1..])
      else if |b| < 3 || !IsContinuation(b[2]) then [Replacement] + Decode(b[2..])
      else [Scalar3(b[0], b[1], b[2])] + Decode(b[3..])
    else if 0xF0 <= b[0] <= 0xF4 then
      if |b| < 2 || !(SecondLow(b[0]) <= b[1] <= SecondHigh(b[0])) then [Replacement] + Decode(b[1..])
      else if |b| < 3 || !IsContinuation(b[2]) then [Replacement] + Decode(b[2..])
      else if |b| < 4 || !IsContinuation(b[3]) then [Replacement] + Decode(b[3..])
      else [Scalar4(b[0], b[1], b[2], b[3])] + Decode(b[4..])
    else [Replacement] + Decode(b[1..])
  }

  /** `new TextDecoder('utf-8').decode(bytes)`: the decoder's output without a
      leading byte order mark. */
  function DecodeText(b: seq<byte>): string {
    var r := Decode(b);
    if r != [] && r[0] == ByteOrderMark then r[1..] else r
  }

  /** The UTF-8 form of one scalar value (RFC 3629, section 3). */
  function EncodeChar(c: char): (b: seq<byte>)
    ensures 1 <= |b| <= 4
  {
    var v := c as int;
    if v < 0x80 then [v as byte]
    else if v < 0x800 then [(0xC0 + v / 64) as byte, (0x80 + v % 64) as byte]
    else if v < 0x10000 then
      [(0xE0 + v / 4096) as byte, (0x80 + v / 64 % 64) as byte, (0x80 + v % 64) as byte]
    else
      [(0xF0 + v / 262144) as byte, (0x80 + v / 4096 % 64) as byte, (0x80 + v / 64 % 64) as byte,
       (0x80 + v % 64) as byte]
  }

  /** The UTF-8 form of a string. */
  function Encode(s: string): seq<byte> {
    if s == [] then [] else EncodeChar(s[0]) + Encode(s[1..])
  }

  /** Decoding reads back the character that starts the encoded text, and then
      carries on with the rest. */
  lemma DecodeEncodedChar(c: char, rest: seq<byte>)
    ensures Decode(EncodeChar(c) + rest) == [c] + Decode(rest)
  {
    var v := c as int;
    if v < 0x80 {
      assert (EncodeChar(c) + rest)[1..] == rest;
    } else if v < 0x800 {
      DecodeTwoBytes(c, rest);
    } else if v < 0x10000 {
      DecodeThreeBytes(c, rest);
    } else {
      DecodeFourBytes(c, rest);
    }
  }

  lemma DecodeTwoBytes(c: char, rest: seq<byte>)
    requires 0x80 <= c as int < 0x800
    ensures Decode(EncodeChar(c) + rest) == [c] + Decode(rest)
  {
    var b := EncodeChar(c) + rest;
    assert b[2..] == rest;
  }

  lemma DecodeThreeBytes(c: char, rest: seq<byte>)
    requires 0x800 <= c as int < 0x10000
    ensures Decode(EncodeChar(c) + rest) == [c] + Decode(rest)
  {
    var v := c as int;
    var b := EncodeChar(c) + rest;
    assert b[3..] == rest;
    assert v < 0xD800 || v > 0xDFFF;
    Scalar3Of(v);
  }

  lemma DecodeFourBytes(c: char, rest: seq<byte>)
    requires 0x10000 <= c as int
    ensures Decode(EncodeChar(c) + rest) == [c] + Decode(rest)
  {
    var b := EncodeChar(c) + rest;
    assert b[4..] == rest;
    Scalar4Of(c as int);
  }

  lemma Scalar3Of(v: int)
    requires 0x800 <= v < 0x10000 && (v < 0xD800 || v > 0xDFFF)
    ensures var b0, b1 := (0xE0 + v / 4096) as byte, (0x80 + v / 64 % 64) as byte;
      && SecondLow(b0) <= b1 <= SecondHigh(b0)
      && Scalar3(b0, b1, (0x80 + v % 64) as byte) as int == v
  {
    assert v == v / 4096 * 4096 + v / 64 % 64 * 64 + v % 64;
  }

  lemma Scalar4Of(v: int)
    requires 0x10000 <= v <= 0x10FFFF
    ensures var b0, b1 := (0xF0 + v / 262144) as byte, (0x80 + v / 4096 % 64) as byte;
      && SecondLow(b0) <= b1 <= SecondHigh(b0)
      && Scalar4(b0, b1, (0x80 + v / 64 % 64) as byte, (0x80 + v % 64) as byte) as int == v
  {
    assert v == v / 262144 * 262144 + v / 4096 % 64 * 4096 + v / 64 % 64 * 64 + v % 64;
  }

  /** Decoding undoes encoding: every string survives a UTF-8 round trip. */
  lemma {:induction false} DecodeEncode(s: string)
    ensures Decode(Encode(s)) == s
  {
    if s != [] {
      DecodeEncodedChar(s[0], Encode(s[1..]));
      DecodeEncode(s[1..]);
    }
  }

  /** Bytes below 0x80 decode to the characters with those codes. */
  lemma {:induction false} DecodeAscii(b: seq<byte>)
    requires forall i :: 0 <= i < |b| ==> b[i] < 0x80
    ensures |Decode(b)| == |b|
    ensures forall i :: 0 <= i < |b| ==> Decode(b)[i] as int == b[i] as int
  {
    if b != [] {
      DecodeAscii(b[1..]);
    }
  }

  /** The UTF-16 code units of a string: one for a character below U+10000, a
      surrogate pair for the others. `length` and `charCodeAt` count these. */
  function CodeUnits(s: string): (u: seq<int>)
    ensures |u| >= |s|
    ensures forall i :: 0 <= i < |u| ==> 0 <= u[i] < 0x10000
  {
    if s == [] then []
    else
      var v := s[0] as int;
      (if v < 0x10000 then [v] else [0xD800 + (v - 0x10000) / 1024, 0xDC00 + (v - 0x10000) % 1024])
      + CodeUnits(s[1..])
  }

  /** A string whose characters are all below U+10000 is its own code units. */
  lemma {:induction false} CodeUnitsOfBmp(s: string)
    requires forall i :: 0 <= i < |s| ==> (s[i] as int) < 0x10000
    ensures |CodeUnits(s)| == |s|
    ensures forall i :: 0 <= i < |s| ==> CodeUnits(s)[i] == s[i] as int
  {
    if s != [] {
      CodeUnitsOfBmp(s[1..]);
    }
  }
}
