/**
  The base 64 encoding of section 4 of RFC 4648 (alphabet of Table 1, `=`
  padding), as Python's `base64.b64encode` produces it, and a strict decoder
  for it.
 */
module Base64 {
  import opened Wrappers
  import opened Utf8

  /** A 6-bit group. */
  type sextet = x: int | 0 <= x < 64

  /** Table 1 of RFC 4648: A-Z, a-z, 0-9, '+', '/'. */
  function EncodeSextet(v: sextet): (c: char)
    ensures c != '='
  {
    if v < 26 then ('A' as int + v) as char
    else if v < 52 then ('a' as int + (v - 26)) as char
    else if v < 62 then ('0' as int + (v - 52)) as char
    else if v == 62 then '+'
    else '/'
  }

  /** The inverse of Table 1; None for characters outside the alphabet
      (including the pad character). */
  function DecodeSextet(c: char): (r: Option<sextet>)
  {
    if 'A' <= c <= 'Z' then Some(c as int - 'A' as int)
    else if 'a' <= c <= 'z' then Some(c as int - 'a' as int + 26)
    else if '0' <= c <= '9' then Some(c as int - '0' as int + 52)
    else if c == '+' then Some(62)
    else if c == '/' then Some(63)
    else None
  }

  lemma DecodeEncodeSextet(v: sextet)
    ensures DecodeSextet(EncodeSextet(v)) == Some(v)
  {
  }

  /** Three octets become four characters. */
  function EncodeGroup(b0: uint8, b1: uint8, b2: uint8): (s: string)
    ensures |s| == 4
  {
    [EncodeSextet(b0 / 4), EncodeSextet((b0 % 4) * 16 + b1 / 16),
     EncodeSextet((b1 % 16) * 4 + b2 / 64), EncodeSextet(b2 % 64)]
  }

  /** The encoded input: whole groups from the front, then a final group of
      one or two octets padded with `==` or `=`. */
  function Encode(b: seq<uint8>): (s: string)
    ensures |s| == (|b| + 2) / 3 * 4
    decreases |b|
  {
    if |b| == 0 then ""
    else if |b| == 1 then
      [EncodeSextet(b[0] / 4), EncodeSextet((b[0] % 4) * 16), '=', '=']
    else if |b| == 2 then
      [EncodeSextet(b[0] / 4), EncodeSextet((b[0] % 4) * 16 + b[1] / 16),
       EncodeSextet((b[1] % 16) * 4), '=']
    else EncodeGroup(b[0], b[1], b[2]) + Encode(b[3..])
  }

  /** The octets a run of sextets carries: the first, second and third
      octet of a group take 6+2, 4+4 and 2+6 of its bits. */
  function Octet0(v0: sextet, v1: sextet): uint8 { v0 as int * 4 + v1 as int / 16 }
  function Octet1(v1: sextet, v2: sextet): uint8 { (v1 as int % 16) * 16 + v2 as int / 4 }
  function Octet2(v2: sextet, v3: sextet): uint8 { (v2 as int % 4) * 64 + v3 as int }

  /** Four alphabet characters become three octets. */
  function DecodeGroup(s: string): (r: Option<seq<uint8>>)
    requires |s| == 4
    ensures r.Some? ==> |r.value| == 3
  {
    match (DecodeSextet(s[0]), DecodeSextet(s[1]), DecodeSextet(s[2]), DecodeSextet(s[3]))
    case (Some(v0), Some(v1), Some(v2), Some(v3)) =>
      Some([Octet0(v0, v1), Octet1(v1, v2), Octet2(v2, v3)])
    case _ => None
  }

  /** The last group, which may end in one or two pad characters. */
  function DecodeLast(s: string): (r: Option<seq<uint8>>)
    requires |s| == 4
  {
    if s[2] == '=' && s[3] == '=' then
      match (DecodeSextet(s[0]), DecodeSextet(s[1]))
      case (Some(v0), Some(v1)) => Some([Octet0(v0, v1)])
      case _ => None
    else if s[3] == '=' then
      match (DecodeSextet(s[0]), DecodeSextet(s[1]), DecodeSextet(s[2]))
      case (Some(v0), Some(v1), Some(v2)) => Some([Octet0(v0, v1), Octet1(v1, v2)])
      case _ => None
    else DecodeGroup(s)
  }

  /** Strict decoding: the length is a multiple of four, every character is
      in the alphabet, and padding appears only at the very end. */
  function Decode(s: string): (r: Option<seq<uint8>>)
    decreases |s|
  {
    if |s| == 0 then Some([])
    else if |s| < 4 then None
    else if |s| == 4 then DecodeLast(s)
    else match DecodeGroup(s[..4])
      case None => None
      case Some(g) =>
        match Decode(s[4..])
        case None => None
        case Some(rest) => Some(g + rest)
  }

  /** The sextets of a group carry its three octets. */
  lemma GroupBits(b0: uint8, b1: uint8, b2: uint8)
    ensures Octet0(b0 / 4, (b0 % 4) * 16 + b1 / 16) == b0
    ensures Octet1((b0 % 4) * 16 + b1 / 16, (b1 % 16) * 4 + b2 / 64) == b1
    ensures Octet2((b1 % 16) * 4 + b2 / 64, b2 % 64) == b2
  {
    var v1, v2 := (b0 % 4) * 16 + b1 / 16, (b1 % 16) * 4 + b2 / 64;
    assert v1 / 16 == b0 % 4 && v1 % 16 == b1 / 16;
    assert v2 / 4 == b1 % 16 && v2 % 4 == b2 / 64;
  }

  lemma DecodeEncodeGroup(b0: uint8, b1: uint8, b2: uint8)
    ensures DecodeGroup(EncodeGroup(b0, b1, b2)) == Some([b0, b1, b2])
    ensures DecodeLast(EncodeGroup(b0, b1, b2)) == Some([b0, b1, b2])
  {
    var v0, v1, v2, v3 := b0 / 4, (b0 % 4) * 16 + b1 / 16, (b1 % 16) * 4 + b2 / 64, b2 % 64;
    var g := EncodeGroup(b0, b1, b2);
    DecodeEncodeSextet(v0);
    DecodeEncodeSextet(v1);
    DecodeEncodeSextet(v2);
    DecodeEncodeSextet(v3);
    GroupBits(b0, b1, b2);
    assert g == [EncodeSextet(v0), EncodeSextet(v1), EncodeSextet(v2), EncodeSextet(v3)];
    assert DecodeGroup(g) == Some([Octet0(v0, v1), Octet1(v1, v2), Octet2(v2, v3)]);
    assert g[2] != '=' && g[3] != '=';
  }

  /** A lone final octet is encoded with `==` and decoded back. */
  lemma DecodeEncodeOne(b0: uint8)
    ensures Decode(Encode([b0])) == Some([b0])
  {
    var v0, v1 := b0 / 4, (b0 % 4) * 16;
    DecodeEncodeSextet(v0);
    DecodeEncodeSextet(v1);
    assert Encode([b0]) == [EncodeSextet(v0), EncodeSextet(v1), '=', '='];
    assert Octet0(v0, v1) == b0;
    assert DecodeLast(Encode([b0])) == Some([Octet0(v0, v1)]);
  }

  /** Two final octets are encoded with `=` and decoded back. */
  lemma DecodeEncodeTwo(b0: uint8, b1: uint8)
    ensures Decode(Encode([b0, b1])) == Some([b0, b1])
  {
    var v0, v1, v2 := b0 / 4, (b0 % 4) * 16 + b1 / 16, (b1 % 16) * 4;
    DecodeEncodeSextet(v0);
    DecodeEncodeSextet(v1);
    DecodeEncodeSextet(v2);
    assert Encode([b0, b1]) == [EncodeSextet(v0), EncodeSextet(v1), EncodeSextet(v2), '='];
    assert v1 / 16 == b0 % 4 && v1 % 16 == b1 / 16;
    assert Octet0(v0, v1) == b0 && Octet1(v1, v2) == b1;
    assert DecodeLast(Encode([b0, b1])) == Some([Octet0(v0, v1), Octet1(v1, v2)]);
  }

  /** A whole group in front of an encoding that decodes is decoded with it. */
  lemma DecodeEncodeFront(b0: uint8, b1: uint8, b2: uint8, rest: seq<uint8>)
    requires Decode(Encode(rest)) == Some(rest)
    ensures Decode(Encode([b0, b1, b2] + rest)) == Some([b0, b1, b2] + rest)
  {
    var b := [b0, b1, b2] + rest;
    var g := EncodeGroup(b0, b1, b2);
    assert b[0] == b0 && b[1] == b1 && b[2] == b2 && b[3..] == rest;
    var s := Encode(b);
    assert s == g + Encode(rest);
    DecodeEncodeGroup(b0, b1, b2);
    if rest == [] {
      assert s == g && b == [b0, b1, b2];
    } else {
      assert s[..4] == g;
      assert s[4..] == Encode(rest);
    }
  }

  /** Decoding undoes encoding: every octet string survives the round trip. */
  lemma {:induction false} DecodeEncode(b: seq<uint8>)
    ensures Decode(Encode(b)) == Some(b)
    decreases |b|
  {
    if |b| == 1 {
      DecodeEncodeOne(b[0]);
      assert [b[0]] == b;
    } else if |b| == 2 {
      DecodeEncodeTwo(b[0], b[1]);
      assert [b[0], b[1]] == b;
    } else if |b| >= 3 {
      DecodeEncode(b[3..]);
      DecodeEncodeFront(b[0], b[1], b[2], b[3..]);
      assert [b[0], b[1], b[2]] + b[3..] == b;
    }
  }
}
