/** Identifier formatting: the 48-character request id of session.ts and the
    fallback session id of src/services/tencentSSEChat.ts, which lays 16 random
    bytes out as a version-4 UUID (section 5.4 of RFC 9562). Random bytes are
    parameters. */
module Identifiers {
  import opened Wrappers
  import opened Utf8

  /** The lowercase hexadecimal digit of `n`, as `toString(16)` writes it. */
  function HexDigit(n: nat): (c: char)
    requires n < 16
    ensures IsHexDigit(c) && HexValue(c) == n
  {
    if n < 10 then ('0' as int + n) as char else ('a' as int + n - 10) as char
  }

  predicate IsHexDigit(c: char) {
    '0' <= c <= '9' || 'a' <= c <= 'f'
  }

  /** The value of a lowercase hexadecimal digit. */
  function HexValue(c: char): (n: nat)
    requires IsHexDigit(c)
    ensures n < 16
  {
    if c <= '9' then c as int - '0' as int else c as int - 'a' as int + 10
  }

  /** `n.toString(16)` for `n < 256`: one digit below 16, two from 16 on. */
  function ToHexString(n: nat): (s: string)
    requires n < 256
  {
    if n < 16 then [HexDigit(n)] else [HexDigit(n / 16), HexDigit(n % 16)]
  }

  /** `s.padStart(width, pad)` with a one-character pad. */
  function PadStart(s: string, width: nat, pad: char): (r: string)
    ensures |r| == if |s| < width then width else |s|
    decreases width - |s|
  {
    if |s| < width then PadStart([pad] + s, width, pad) else s
  }

  /** The padded string is `s` behind as many copies of `pad` as it lacks. */
  lemma {:induction false} PadStartContents(s: string, width: nat, pad: char)
    ensures PadStart(s, width, pad) == seq(if |s| < width then width - |s| else 0, _ => pad) + s
    decreases width - |s|
  {
    if |s| < width {
      PadStartContents([pad] + s, width, pad);
      assert seq(width - |s| - 1, _ => pad) + ([pad] + s) == seq(width - |s|, _ => pad) + s;
    }
  }

  /** `byte.toString(16).padStart(2, '0')`. */
  function ByteHex(b: byte): string {
    PadStart(ToHexString(b as nat), 2, '0')
  }

  /** Every byte becomes exactly two digits: the high nibble, then the low one. */
  lemma ByteHexDigits(b: byte)
    ensures ByteHex(b) == [HexDigit(b as nat / 16), HexDigit(b as nat % 16)]
  {
    if b < 16 {
      assert ToHexString(b as nat) == [HexDigit(b as nat)];
      assert ByteHex(b) == PadStart(['0'] + [HexDigit(b as nat)], 2, '0');
    }
  }

  /** `Array.from(bytes).map(b => b.toString(16).padStart(2, '0')).join('')`. */
  function HexEncode(bytes: seq<byte>): (s: string)
    ensures |s| == 2 * |bytes|
  {
    if bytes == [] then [] else
      ByteHexDigits(bytes[0]);
      ByteHex(bytes[0]) + HexEncode(bytes[1..])
  }

  /** Byte `i` is written at positions `2i` and `2i + 1`, high nibble first. */
  lemma {:induction false} HexEncodeAt(bytes: seq<byte>, i: nat)
    requires i < |bytes|
    ensures HexEncode(bytes)[2 * i] == HexDigit(bytes[i] as nat / 16)
    ensures HexEncode(bytes)[2 * i + 1] == HexDigit(bytes[i] as nat % 16)
  {
    ByteHexDigits(bytes[0]);
    if i > 0 {
      HexEncodeAt(bytes[1..], i - 1);
    }
  }

  /** Only lowercase hexadecimal digits are written. */
  lemma HexEncodeDigits(bytes: seq<byte>)
    ensures forall k :: 0 <= k < |HexEncode(bytes)| ==> IsHexDigit(HexEncode(bytes)[k])
  {
    forall k | 0 <= k < |HexEncode(bytes)| ensures IsHexDigit(HexEncode(bytes)[k]) {
      HexEncodeAt(bytes, k / 2);
    }
  }

  lemma {:induction false} HexEncodeAppend(a: seq<byte>, b: seq<byte>)
    ensures HexEncode(a + b) == HexEncode(a) + HexEncode(b)
  {
    if a != [] {
      assert (a + b)[1..] == a[1..] + b;
      HexEncodeAppend(a[1..], b);
    } else {
      assert a + b == b;
    }
  }

  /** Reading pairs of digits back into bytes; `None` for a string of odd length
      or holding a character that is not a lowercase hexadecimal digit. */
  function HexDecode(s: string): (r: Option<seq<byte>>)
    ensures r.Some? ==> 2 * |r.value| == |s|
    decreases |s|
  {
    if s == [] then Some([])
    else if |s| == 1 || !IsHexDigit(s[0]) || !IsHexDigit(s[1]) then None
    else
      match HexDecode(s[2..])
      case None => None
      case Some(rest) => Some([(HexValue(s[0]) * 16 + HexValue(s[1])) as byte] + rest)
  }

  /** Decoding gives the bytes back: the hex form loses nothing. */
  lemma {:induction false} HexRoundTrip(bytes: seq<byte>)
    ensures HexDecode(HexEncode(bytes)) == Some(bytes)
  {
    if bytes != [] {
      var s := HexEncode(bytes);
      ByteHexDigits(bytes[0]);
      assert s[2..] == HexEncode(bytes[1..]);
      HexRoundTrip(bytes[1..]);
      assert HexValue(s[0]) * 16 + HexValue(s[1]) == bytes[0] as int;
      assert [bytes[0]] + bytes[1..] == bytes;
    }
  }

  /** Different bytes give different ids. */
  lemma HexEncodeInjective(a: seq<byte>, b: seq<byte>)
    requires HexEncode(a) == HexEncode(b)
    ensures a == b
  {
    HexRoundTrip(a);
    HexRoundTrip(b);
  }

  const RequestIdBytes: nat := 24

  /** `getRequestId()` for the 24 bytes `getRandomValues` filled in. */
  function RequestId(random: seq<byte>): (id: string)
    requires |random| == RequestIdBytes
    ensures |id| == 48
  {
    HexEncode(random)
  }

  /** A request id is 48 lowercase hexadecimal digits, and two ids are equal only
      when their random bytes are. */
  lemma RequestIdShape(random: seq<byte>, other: seq<byte>)
    requires |random| == RequestIdBytes && |other| == RequestIdBytes
    ensures forall k :: 0 <= k < 48 ==> IsHexDigit(RequestId(random)[k])
    ensures RequestId(random) == RequestId(other) <==> random == other
  {
    HexEncodeDigits(random);
    if RequestId(random) == RequestId(other) {
      HexEncodeInjective(random, other);
    }
  }

  /** `a & b` for non-negative operands, bit by bit from the lowest. */
  function BitAnd(a: nat, b: nat): nat
    decreases a
  {
    if a == 0 || b == 0 then 0
    else 2 * BitAnd(a / 2, b / 2) + (if a % 2 == 1 && b % 2 == 1 then 1 else 0)
  }

  /** `a | b` for non-negative operands, bit by bit from the lowest. */
  function BitOr(a: nat, b: nat): nat
    decreases a + b
  {
    if a == 0 then b
    else if b == 0 then a
    else 2 * BitOr(a / 2, b / 2) + (if a % 2 == 1 || b % 2 == 1 then 1 else 0)
  }

  function Pow2(k: nat): (p: nat)
    ensures p >= 1
  {
    if k == 0 then 1 else 2 * Pow2(k - 1)
  }

  lemma ModOfHalf(x: nat, q: nat)
    requires q >= 1
    ensures x % (2 * q) == 2 * ((x / 2) % q) + x % 2
  {
    var h := x / 2;
    assert x == 2 * h + x % 2;
    assert h == q * (h / q) + h % q;
    assert x == (2 * q) * (h / q) + (2 * (h % q) + x % 2);
    ModUnique(x, 2 * q, h / q, 2 * (h % q) + x % 2);
  }

  lemma ModUnique(x: int, d: int, m: int, r: int)
    requires d > 0 && 0 <= r < d && x == d * m + r
    ensures x % d == r
  {
    var q, r2 := x / d, x % d;
    assert d * (m - q) == r2 - r;
    if m > q {
      AtLeastOnce(d, m - q);
    } else if m < q {
      AtLeastOnce(d, q - m);
    }
  }

  lemma AtLeastOnce(d: int, t: int)
    requires d > 0 && t >= 1
    ensures d * t >= d
  {
    assert d * t == d + d * (t - 1);
  }

  /** Masking with `2^k - 1` keeps the low `k` bits. */
  lemma AndLowMask(x: nat, k: nat)
    ensures BitAnd(x, Pow2(k) - 1) == x % Pow2(k)
  {
    AndLowBits(x, k);
    LowBitsMod(x, k);
  }

  /** The low `k` bits of `x`, one at a time from the lowest. */
  function LowBits(x: nat, k: nat): nat {
    if k == 0 then 0 else 2 * LowBits(x / 2, k - 1) + x % 2
  }

  lemma {:induction false} AndLowBits(x: nat, k: nat)
    ensures BitAnd(x, Pow2(k) - 1) == LowBits(x, k)
  {
    if k > 0 {
      var m := Pow2(k - 1) - 1;
      assert Pow2(k) - 1 == 2 * m + 1;
      AndLowBits(x / 2, k - 1);
      if x != 0 {
        AndOddStep(x, m);
      }
    }
  }

  lemma {:induction false} LowBitsMod(x: nat, k: nat)
    ensures LowBits(x, k) == x % Pow2(k)
  {
    if k == 0 {
      assert Pow2(k) == 1;
    } else {
      var half := Pow2(k - 1);
      assert Pow2(k) == 2 * half;
      LowBitsMod(x / 2, k - 1);
      ModOfHalf(x, half);
    }
  }

  /** The lowest bit of `x & (2m + 1)` is that of `x`; the rest is `(x / 2) & m`. */
  lemma AndOddStep(x: nat, m: nat)
    requires x != 0
    ensures BitAnd(x, 2 * m + 1) == 2 * BitAnd(x / 2, m) + x % 2
  {
    assert (2 * m + 1) % 2 == 1 && (2 * m + 1) / 2 == m;
  }

  /** Or-ing in a bit above every bit of `x` adds it. */
  lemma {:induction false} OrHighBit(x: nat, k: nat)
    requires x < Pow2(k)
    ensures BitOr(x, Pow2(k)) == x + Pow2(k)
  {
    if k > 0 && x != 0 {
      OrHighBit(x / 2, k - 1);
    }
  }

  /** `(b & 0x0f) | 0x40`: the version nibble 4 over the low nibble of `b`. */
  function VersionByte(b: byte): (r: byte)
    ensures r as int == b as int % 16 + 0x40
  {
    assert Pow2(4) == 0x10 && Pow2(6) == 0x40;
    AndLowMask(b as nat, 4);
    OrHighBit(b as nat % 16, 6);
    BitOr(BitAnd(b as nat, 0x0F), 0x40) as byte
  }

  /** `(b & 0x3f) | 0x80`: the variant bits `10` over the low six bits of `b`. */
  function VariantByte(b: byte): (r: byte)
    ensures r as int == b as int % 64 + 0x80
  {
    assert Pow2(6) == 0x40 && Pow2(7) == 0x80;
    AndLowMask(b as nat, 6);
    OrHighBit(b as nat % 64, 7);
    BitOr(BitAnd(b as nat, 0x3F), 0x80) as byte
  }

  /** The sixteen bytes after `arr[6]` and `arr[8]` are rewritten. */
  function UuidBytes(random: seq<byte>): (b: seq<byte>)
    requires |random| == 16
    ensures |b| == 16
  {
    random[6 := VersionByte(random[6])][8 := VariantByte(random[8])]
  }

  /** Only bytes 6 and 8 are rewritten, with the version and the variant; the other
      fourteen random bytes pass through. */
  lemma UuidBytesContents(random: seq<byte>)
    requires |random| == 16
    ensures var b := UuidBytes(random);
      && b[6] == VersionByte(random[6]) && b[8] == VariantByte(random[8])
      && forall i :: 0 <= i < 16 && i != 6 && i != 8 ==> b[i] == random[i]
  {
  }

  /** The hex groups `8-4-4-4-12` joined by hyphens. */
  function FormatUuid(b: seq<byte>): (id: string)
    requires |b| == 16
    ensures |id| == 36
  {
    HexEncode(b[..4]) + "-" + HexEncode(b[4..6]) + "-" + HexEncode(b[6..8]) + "-"
    + HexEncode(b[8..10]) + "-" + HexEncode(b[10..])
  }

  /** The id of `generateSessionId` when `crypto.randomUUID` is missing. */
  function FallbackSessionId(random: seq<byte>): string
    requires |random| == 16
  {
    FormatUuid(UuidBytes(random))
  }

  /** `generateSessionId()`: `crypto.randomUUID()` when the platform has it
      (`platformUuid`), otherwise the sixteen `random` bytes are stored in an
      array, two of them are rewritten in place and the array is formatted. */
  method GenerateSessionId(platformUuid: Option<string>, random: seq<byte>) returns (id: string)
    requires |random| == 16
    ensures platformUuid.Some? ==> id == platformUuid.value
    ensures platformUuid.None? ==> id == FallbackSessionId(random)
  {
    if platformUuid.Some? {
      return platformUuid.value;
    }
    var arr := new byte[16](i requires 0 <= i < 16 => random[i]);
    arr[6] := VersionByte(arr[6]);
    arr[8] := VariantByte(arr[8]);
    assert arr[..] == UuidBytes(random);
    id := FormatUuid(arr[..]);
  }

  lemma SplitConcat(p: string, q: string)
    ensures (p + q)[..|p|] == p && (p + q)[|p|..] == q
  {
  }

  /** Where the groups and hyphens of a formatted UUID sit. */
  lemma UuidPieces(b: seq<byte>)
    requires |b| == 16
    ensures var id := FormatUuid(b);
      && id[..8] == HexEncode(b[..4]) && id[9..13] == HexEncode(b[4..6])
      && id[14..18] == HexEncode(b[6..8]) && id[19..23] == HexEncode(b[8..10])
      && id[24..] == HexEncode(b[10..])
      && id[8] == '-' && id[13] == '-' && id[18] == '-' && id[23] == '-'
  {
    var g0, g1, g2, g3, g4 := HexEncode(b[..4]), HexEncode(b[4..6]), HexEncode(b[6..8]), HexEncode(b[8..10]), HexEncode(b[10..]);
    var t1 := g0 + "-";
    var t2 := t1 + g1 + "-";
    var t3 := t2 + g2 + "-";
    var t4 := t3 + g3 + "-";
    var id := t4 + g4;
    assert id == FormatUuid(b);
    SplitConcat(t4, g4);
    SplitConcat(t3 + g3, "-");
    SplitConcat(t3, g3);
    SplitConcat(t2 + g2, "-");
    SplitConcat(t2, g2);
    SplitConcat(t1 + g1, "-");
    SplitConcat(t1, g1);
    SplitConcat(g0, "-");
    assert id[..24] == t4 && t4[..23] == t3 + g3 && t3[..18] == t2 + g2 && t2[..13] == t1 + g1;
    assert id[..8] == t1[..8];
    assert id[9..13] == t2[9..13];
    assert id[14..18] == t3[14..18];
    assert id[19..23] == t4[19..23];
  }

  /** The fallback id has the RFC 9562 textual layout of a version-4 UUID: hyphens
      at 8, 13, 18 and 23, the version digit `4` at 14 and a variant digit among
      `8`, `9`, `a`, `b` at 19. */
  lemma FallbackIsVersion4(random: seq<byte>)
    requires |random| == 16
    ensures var id := FallbackSessionId(random);
      && id[8] == '-' && id[13] == '-' && id[18] == '-' && id[23] == '-'
      && id[14] == '4' && id[19] in {'8', '9', 'a', 'b'}
  {
    var b := UuidBytes(random);
    UuidBytesContents(random);
    assert b[6] as int / 16 == 4;
    assert 8 <= b[8] as int / 16 < 12;
    MarkedLayout(b);
  }

  /** The layout of any formatted UUID whose bytes 6 and 8 carry the version and
      variant nibbles. */
  lemma MarkedLayout(b: seq<byte>)
    requires |b| == 16 && b[6] as int / 16 == 4 && 8 <= b[8] as int / 16 < 12
    ensures var id := FormatUuid(b);
      && id[8] == '-' && id[13] == '-' && id[18] == '-' && id[23] == '-'
      && id[14] == '4' && id[19] in {'8', '9', 'a', 'b'}
  {
    UuidPieces(b);
    GroupLeads(b);
  }

  /** The first digit of the third and of the fourth group are the high nibbles
      of bytes 6 and 8. */
  lemma GroupLeads(b: seq<byte>)
    requires |b| == 16
    ensures FormatUuid(b)[14] == HexDigit(b[6] as int / 16)
    ensures FormatUuid(b)[19] == HexDigit(b[8] as int / 16)
  {
    var id := FormatUuid(b);
    UuidPieces(b);
    HexEncodeAt(b[6..8], 0);
    HexEncodeAt(b[8..10], 0);
    assert id[14] == id[14..18][0] && id[19] == id[19..23][0];
  }

  /** Removing the hyphens from a formatted UUID leaves the hex form of its bytes. */
  lemma UuidWithoutHyphens(b: seq<byte>)
    requires |b| == 16
    ensures var id := FormatUuid(b);
      id[..8] + id[9..13] + id[14..18] + id[19..23] + id[24..] == HexEncode(b)
  {
    UuidPieces(b);
    HexOfGroups(b);
  }

  /** The hex forms of the five groups make up the hex form of the sixteen bytes. */
  lemma HexOfGroups(b: seq<byte>)
    requires |b| == 16
    ensures HexEncode(b[..4]) + HexEncode(b[4..6]) + HexEncode(b[6..8]) + HexEncode(b[8..10])
            + HexEncode(b[10..]) == HexEncode(b)
  {
    assert b[..4] + b[4..6] == b[..6];
    HexEncodeAppend(b[..4], b[4..6]);
    assert b[..6] + b[6..8] == b[..8];
    HexEncodeAppend(b[..6], b[6..8]);
    assert b[..8] + b[8..10] == b[..10];
    HexEncodeAppend(b[..8], b[8..10]);
    assert b[..10] + b[10..] == b;
    HexEncodeAppend(b[..10], b[10..]);
  }

  /** Every character of a formatted UUID other than the four hyphens is a
      lowercase hexadecimal digit. */
  lemma UuidDigits(b: seq<byte>)
    requires |b| == 16
    ensures var id := FormatUuid(b);
      forall k :: 0 <= k < 36 && k != 8 && k != 13 && k != 18 && k != 23 ==> IsHexDigit(id[k])
  {
    var id := FormatUuid(b);
    var h := id[..8] + id[9..13] + id[14..18] + id[19..23] + id[24..];
    UuidWithoutHyphens(b);
    HexEncodeDigits(b);
    forall k | 0 <= k < 36 && k != 8 && k != 13 && k != 18 && k != 23
      ensures IsHexDigit(id[k])
    {
      var j := if k < 8 then k else if k < 13 then k - 1 else if k < 18 then k - 2 else if k < 23 then k - 3 else k - 4;
      assert id[k] == h[j];
    }
  }

  /** Two fallback ids are equal only when their random bytes agree everywhere but
      in the bits the masks overwrite. */
  lemma FallbackIdInjective(r1: seq<byte>, r2: seq<byte>)
    requires |r1| == 16 && |r2| == 16 && FallbackSessionId(r1) == FallbackSessionId(r2)
    ensures forall i :: 0 <= i < 16 && i != 6 && i != 8 ==> r1[i] == r2[i]
    ensures r1[6] as int % 16 == r2[6] as int % 16 && r1[8] as int % 64 == r2[8] as int % 64
  {
    var b1, b2 := UuidBytes(r1), UuidBytes(r2);
    UuidWithoutHyphens(b1);
    UuidWithoutHyphens(b2);
    HexEncodeInjective(b1, b2);
    UuidBytesContents(r1);
    UuidBytesContents(r2);
  }
}
