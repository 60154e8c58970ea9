/**
  UUIDs and their text form: `str(uuid)` (lower-case hex in 8-4-4-4-12
  groups) and the `uuid.UUID(text)` constructor that reads it back.
 */
module UuidText {
  import opened Wrappers
  import opened Utf8
  import opened Numerals

  /** A UUID: sixteen octets, most significant first. */
  type Uuid = s: seq<uint8> | |s| == 16 witness seq(16, i => 0)

  function HexDigit(v: int): (c: char)
    requires 0 <= v < 16
    ensures c != '-'
  {
    if v < 10 then ('0' as int + v) as char else ('a' as int + v - 10) as char
  }

  /** Two lower-case hex digits per octet. */
  function HexOctets(b: seq<uint8>): (s: string)
    ensures |s| == 2 * |b|
  {
    if b == [] then "" else [HexDigit(b[0] / 16), HexDigit(b[0] % 16)] + HexOctets(b[1..])
  }

  /** `str(u)`: 8-4-4-4-12 hex digits joined by dashes. */
  function Format(u: Uuid): (s: string)
    ensures |s| == 36
  {
    HexOctets(u[..4]) + "-" + HexOctets(u[4..6]) + "-" + HexOctets(u[6..8]) + "-"
      + HexOctets(u[8..10]) + "-" + HexOctets(u[10..])
  }

  function RemoveDashes(s: string): (r: string)
    ensures '-' !in r
  {
    if s == [] then "" else (if s[0] == '-' then "" else [s[0]]) + RemoveDashes(s[1..])
  }

  /** Reads pairs of hex digits as octets. */
  function ParseHexOctets(s: string): (r: Option<seq<uint8>>)
    ensures r.Some? ==> 2 * |r.value| == |s|
  {
    if s == [] then Some([])
    else if |s| == 1 then None
    else match (HexValue(s[0]), HexValue(s[1]), ParseHexOctets(s[2..]))
      case (Some(hi), Some(lo), Some(rest)) => Some([hi * 16 + lo] + rest)
      case _ => None
  }

  /** `uuid.UUID(text)` on text made of dashes and hex digits: the dashes
      are dropped and exactly 32 hex digits must remain. Python's final
      `int(hex, 16)` also admits a sign, surrounding blanks, `_` between
      digits and a `0x` prefix; such text reads as None here. */
  function Parse(s: string): (r: Option<Uuid>)
  {
    var h := RemoveDashes(s);
    if |h| != 32 then None
    else match ParseHexOctets(h)
      case Some(b) => Some(b)
      case None => None
  }

  lemma {:induction false} RemoveDashesAppend(a: string, b: string)
    ensures RemoveDashes(a + b) == RemoveDashes(a) + RemoveDashes(b)
  {
    if a != [] {
      assert (a + b)[1..] == a[1..] + b;
      RemoveDashesAppend(a[1..], b);
    } else {
      assert a + b == b;
    }
  }

  lemma {:induction false} RemoveDashesOfHex(b: seq<uint8>)
    ensures RemoveDashes(HexOctets(b)) == HexOctets(b)
  {
    if b != [] {
      var d := [HexDigit(b[0] / 16), HexDigit(b[0] % 16)];
      RemoveDashesAppend(d, HexOctets(b[1..]));
      assert RemoveDashes(d) == d by {
        assert d[1..] == [d[1]];
        assert [d[1]][1..] == [];
      }
      RemoveDashesOfHex(b[1..]);
    }
  }

  lemma {:induction false} HexOctetsAppend(a: seq<uint8>, b: seq<uint8>)
    ensures HexOctets(a + b) == HexOctets(a) + HexOctets(b)
  {
    if a != [] {
      assert (a + b)[0] == a[0];
      assert (a + b)[1..] == a[1..] + b;
      HexOctetsAppend(a[1..], b);
    } else {
      assert a + b == b;
    }
  }

  lemma {:induction false} ParseHexOctetsOfHex(b: seq<uint8>)
    ensures ParseHexOctets(HexOctets(b)) == Some(b)
  {
    if b != [] {
      var s := HexOctets(b);
      assert s[2..] == HexOctets(b[1..]);
      ParseHexOctetsOfHex(b[1..]);
      assert [b[0] / 16 * 16 + b[0] % 16] + b[1..] == b;
    }
  }

  lemma RemoveDashesAround(x: string, y: string)
    ensures RemoveDashes(x + "-" + y) == RemoveDashes(x) + RemoveDashes(y)
  {
    var dash := "-";
    assert RemoveDashes(dash) == "" by {
      assert dash[0] == '-' && dash[1..] == "";
    }
    RemoveDashesAppend(x, dash);
    RemoveDashesAppend(x + dash, y);
  }

  lemma HexOctetsOfParts(u: Uuid)
    ensures HexOctets(u) == HexOctets(u[..4]) + HexOctets(u[4..6]) + HexOctets(u[6..8])
                            + HexOctets(u[8..10]) + HexOctets(u[10..])
  {
    var p0, p1, p2, p3, p4 := u[..4], u[4..6], u[6..8], u[8..10], u[10..];
    assert u == p0 + p1 + p2 + p3 + p4;
    HexOctetsAppend(p0, p1);
    HexOctetsAppend(p0 + p1, p2);
    HexOctetsAppend(p0 + p1 + p2, p3);
    HexOctetsAppend(p0 + p1 + p2 + p3, p4);
  }

  /** With its dashes removed, the text form is the 32 hex digits of the
      sixteen octets in order. */
  lemma FormatWithoutDashes(u: Uuid)
    ensures RemoveDashes(Format(u)) == HexOctets(u)
  {
    var h0, h1, h2, h3, h4 := HexOctets(u[..4]), HexOctets(u[4..6]), HexOctets(u[6..8]), HexOctets(u[8..10]), HexOctets(u[10..]);
    RemoveDashesOfHex(u[..4]);
    RemoveDashesOfHex(u[4..6]);
    RemoveDashesOfHex(u[6..8]);
    RemoveDashesOfHex(u[8..10]);
    RemoveDashesOfHex(u[10..]);
    var a1 := h0 + "-" + h1;
    var a2 := a1 + "-" + h2;
    var a3 := a2 + "-" + h3;
    assert Format(u) == a3 + "-" + h4;
    RemoveDashesAround(h0, h1);
    RemoveDashesAround(a1, h2);
    RemoveDashesAround(a2, h3);
    RemoveDashesAround(a3, h4);
    HexOctetsOfParts(u);
  }

  /** `uuid.UUID(str(u)) == u`: the text form of a UUID reads back as the same UUID. */
  lemma ParseFormat(u: Uuid)
    ensures Parse(Format(u)) == Some(u)
  {
    FormatWithoutDashes(u);
    ParseHexOctetsOfHex(u);
  }

  /** Distinct UUIDs have distinct text forms. */
  lemma FormatInjective(u: Uuid, v: Uuid)
    requires Format(u) == Format(v)
    ensures u == v
  {
    ParseFormat(u);
    ParseFormat(v);
  }
}
