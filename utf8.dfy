/**
  UTF-8 (RFC 3629, section 3): how Python's `str.encode()` and the WHATWG
  URL Standard turn text into octets, and back.
 */
module Utf8 {
  import opened Wrappers

  /** An octet. */
  type uint8 = x: int | 0 <= x < 256

  /** A Unicode scalar value: what a Dafny `char` holds. */
  predicate IsScalarValue(n: int) {
    0 <= n < 0xD800 || 0xE000 <= n < 0x11_0000
  }

  predicate IsContinuation(b: uint8) {
    0x80 <= b < 0xC0
  }

  /** The UTF-8 octets of one scalar value: 7, 11, 16 or 21 payload bits
      spread over one to four octets, six bits per continuation octet. */
  function EncodeChar(c: char): (r: seq<uint8>)
    ensures 1 <= |r| <= 4
    ensures |r| == 1 <==> c as int < 0x80
    ensures forall i :: 1 <= i < |r| ==> IsContinuation(r[i])
  {
    var n := c as int;
    var q1, r1 := n / 0x40, n % 0x40;
    var q2, r2 := q1 / 0x40, q1 % 0x40;
    var q3, r3 := q2 / 0x40, q2 % 0x40;
    if n < 0x80 then [n]
    else if n < 0x800 then [0xC0 + q1, 0x80 + r1]
    else if n < 0x1_0000 then [0xE0 + q2, 0x80 + r2, 0x80 + r1]
    else [0xF0 + q3, 0x80 + r3, 0x80 + r2, 0x80 + r1]
  }

  /** The UTF-8 encoding of a string. */
  function Encode(s: string): (r: seq<uint8>)
    ensures |r| >= |s|
  {
    if s == [] then [] else EncodeChar(s[0]) + Encode(s[1..])
  }

  /** Decodes the character at the head of `b` and says how many octets it
      took; None on a malformed, overlong or surrogate sequence. */
  function DecodeFirst(b: seq<uint8>): (r: Option<(char, nat)>)
    requires |b| > 0
    ensures r.Some? ==> 1 <= r.value.1 <= |b|
  {
    var b0 := b[0] as int;
    if b0 < 0x80 then Some((b0 as char, 1))
    else if 0xC2 <= b0 < 0xE0 && |b| >= 2 && IsContinuation(b[1]) then
      Some((((b0 - 0xC0) * 0x40 + (b[1] as int - 0x80)) as char, 2))
    else if 0xE0 <= b0 < 0xF0 && |b| >= 3 && IsContinuation(b[1]) && IsContinuation(b[2]) then
      var n := ((b0 - 0xE0) * 0x40 + (b[1] as int - 0x80)) * 0x40 + (b[2] as int - 0x80);
      if 0x800 <= n && IsScalarValue(n) then Some((n as char, 3)) else None
    else if 0xF0 <= b0 < 0xF5 && |b| >= 4 && IsContinuation(b[1]) && IsContinuation(b[2]) && IsContinuation(b[3]) then
      var n := (((b0 - 0xF0) * 0x40 + (b[1] as int - 0x80)) * 0x40 + (b[2] as int - 0x80)) * 0x40 + (b[3] as int - 0x80);
      if 0x1_0000 <= n && IsScalarValue(n) then Some((n as char, 4)) else None
    else None
  }

  /** Decodes a whole octet sequence; None when it is not well-formed UTF-8. */
  function Decode(b: seq<uint8>): (r: Option<string>)
    decreases |b|
  {
    if b == [] then Some("")
    else match DecodeFirst(b)
      case None => None
      case Some((c, k)) =>
        match Decode(b[k..])
        case None => None
        case Some(rest) => Some([c] + rest)
  }

  lemma DecodeFirstOfEncodeChar(c: char, rest: seq<uint8>)
    ensures DecodeFirst(EncodeChar(c) + rest) == Some((c, |EncodeChar(c)|))
  {
    var n := c as int;
    var q1, r1 := n / 0x40, n % 0x40;
    var q2, r2 := q1 / 0x40, q1 % 0x40;
    var q3, r3 := q2 / 0x40, q2 % 0x40;
    assert n == q1 * 0x40 + r1;
    assert q1 == q2 * 0x40 + r2;
    assert q2 == q3 * 0x40 + r3;
  }

  /** Decoding undoes encoding: every string survives the round trip. */
  lemma {:induction false} DecodeEncode(s: string)
    ensures Decode(Encode(s)) == Some(s)
  {
    if s != [] {
      var e := EncodeChar(s[0]);
      var b := Encode(s);
      assert b == e + Encode(s[1..]);
      DecodeFirstOfEncodeChar(s[0], Encode(s[1..]));
      assert b[|e|..] == Encode(s[1..]);
      DecodeEncode(s[1..]);
      assert [s[0]] + s[1..] == s;
    }
  }

  /** An ASCII character is its own single octet. */
  lemma EncodeAscii(c: char)
    requires c as int < 0x80
    ensures EncodeChar(c) == [c as int]
  {
  }
}
