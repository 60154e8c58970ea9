/**
  The application/x-www-form-urlencoded format of the WHATWG URL Standard
  (section 5): the serializer behind `URLSearchParams.toString()`, the parser
  that reads a query back into its name-value list, and the
  `URLSearchParams` object itself.
 */
module FormUrlEncoded {
  import opened Wrappers
  import opened Utf8
  import opened Numerals

  /** Octets the serializer leaves as they are: ASCII alphanumerics and `*-._`. */
  predicate Unreserved(b: uint8) {
    b == 0x2A || b == 0x2D || b == 0x2E || 0x30 <= b <= 0x39
    || 0x41 <= b <= 0x5A || b == 0x5F || 0x61 <= b <= 0x7A
  }

  function UpperHexDigit(v: int): (c: char)
    requires 0 <= v < 16
    ensures HexValue(c) == Some(v)
  {
    if v < 10 then ('0' as int + v) as char else ('A' as int + v - 10) as char
  }

  /** The serialization of one octet: space becomes `+`, unreserved octets
      stay, every other octet becomes `%` and two upper-case hex digits. */
  function SerializeOctet(b: uint8): (s: string)
    ensures '&' !in s && '=' !in s
  {
    if b == 0x20 then "+"
    else if Unreserved(b) then [b as char]
    else ['%', UpperHexDigit(b / 16), UpperHexDigit(b % 16)]
  }

  function SerializeOctets(b: seq<uint8>): (s: string)
    ensures '&' !in s && '=' !in s
  {
    if b == [] then "" else SerializeOctet(b[0]) + SerializeOctets(b[1..])
  }

  /** A name or a value: its UTF-8 octets, serialized one by one. */
  function SerializeText(t: string): (s: string)
    ensures '&' !in s && '=' !in s
  {
    SerializeOctets(Encode(t))
  }

  function SerializePair(p: (string, string)): string {
    SerializeText(p.0) + "=" + SerializeText(p.1)
  }

  /** The serializer: `name=value` for every tuple, in list order, joined by `&`. */
  function Serialize(list: seq<(string, string)>): (s: string)
    ensures s == "" <==> list == []
  {
    if list == [] then ""
    else if |list| == 1 then SerializePair(list[0])
    else SerializePair(list[0]) + "&" + Serialize(list[1..])
  }

  /** The octets a serialized name or value stands for: `+` is a space,
      `%` with two hex digits is that octet, any other character its UTF-8
      octets. */
  function PercentDecode(s: string): (b: seq<uint8>)
  {
    if s == [] then []
    else if s[0] == '%' && |s| >= 3 && HexValue(s[1]).Some? && HexValue(s[2]).Some? then
      [HexValue(s[1]).value * 16 + HexValue(s[2]).value] + PercentDecode(s[3..])
    else if s[0] == '+' then [0x20] + PercentDecode(s[1..])
    else EncodeChar(s[0]) + PercentDecode(s[1..])
  }

  /** A name or value read back; None where its octets are not UTF-8
      (the standard substitutes U+FFFD there). */
  function DecodeText(s: string): Option<string> {
    Decode(PercentDecode(s))
  }

  /** The position of the first `c` in `s`, or `|s|` when there is none. */
  function IndexOf(s: string, c: char): (i: nat)
    ensures i <= |s|
    ensures c !in s[..i]
    ensures i < |s| ==> s[i] == c
  {
    if s == [] then 0 else if s[0] == c then 0 else 1 + IndexOf(s[1..], c)
  }

  /** One non-empty `&`-separated sequence: the name runs to the first `=`,
      the value is the rest (empty when there is no `=`). */
  function ParsePair(seg: string): Option<(string, string)> {
    var j := IndexOf(seg, '=');
    var value := if j < |seg| then seg[j + 1..] else "";
    match (DecodeText(seg[..j]), DecodeText(value))
    case (Some(n), Some(v)) => Some((n, v))
    case _ => None
  }

  /** The parser: split on `&`, skip empty sequences, read each pair. */
  function Parse(s: string): Option<seq<(string, string)>>
    decreases |s|
  {
    if s == [] then Some([])
    else
      var i := IndexOf(s, '&');
      var rest := if i < |s| then s[i + 1..] else "";
      match Parse(rest)
      case None => None
      case Some(tail) =>
        if i == 0 then Some(tail)
        else match ParsePair(s[..i])
          case None => None
          case Some(p) => Some([p] + tail)
  }

  lemma {:induction false} IndexOfPrefix(x: string, c: char, y: string)
    requires c !in x
    ensures IndexOf(x + [c] + y, c) == |x|
  {
    if x != [] {
      assert (x + [c] + y)[1..] == x[1..] + [c] + y;
      IndexOfPrefix(x[1..], c, y);
    }
  }

  lemma IndexOfAbsent(x: string, c: char)
    requires c !in x
    ensures IndexOf(x, c) == |x|
  {
    assert x[..IndexOf(x, c)] == x[..IndexOf(x, c)];
  }

  lemma PercentDecodeOctet(b: uint8, rest: string)
    ensures PercentDecode(SerializeOctet(b) + rest) == [b] + PercentDecode(rest)
  {
    var s := SerializeOctet(b) + rest;
    if b == 0x20 {
      assert s[0] == '+' && s[1..] == rest;
    } else if Unreserved(b) {
      assert s[0] == b as char && s[1..] == rest;
      EncodeAscii(b as char);
    } else {
      assert s[0] == '%' && s[1] == UpperHexDigit(b / 16) && s[2] == UpperHexDigit(b % 16);
      assert s[3..] == rest;
    }
  }

  lemma {:induction false} PercentDecodeSerializeOctets(b: seq<uint8>)
    ensures PercentDecode(SerializeOctets(b)) == b
  {
    if b != [] {
      PercentDecodeOctet(b[0], SerializeOctets(b[1..]));
      PercentDecodeSerializeOctets(b[1..]);
      assert [b[0]] + b[1..] == b;
    }
  }

  /** A serialized name or value reads back as itself. */
  lemma DecodeSerializeText(t: string)
    ensures DecodeText(SerializeText(t)) == Some(t)
  {
    PercentDecodeSerializeOctets(Encode(t));
    DecodeEncode(t);
  }

  lemma ParseSerializePair(p: (string, string))
    ensures ParsePair(SerializePair(p)) == Some(p)
  {
    var n, v := SerializeText(p.0), SerializeText(p.1);
    var seg := SerializePair(p);
    IndexOfPrefix(n, '=', v);
    assert seg[..|n|] == n;
    assert seg[|n| + 1..] == v;
    DecodeSerializeText(p.0);
    DecodeSerializeText(p.1);
  }

  /** A segment that holds no `&` is read as one pair. */
  lemma ParseOnePair(p: (string, string))
    ensures Parse(SerializePair(p)) == Some([p])
  {
    var s := SerializePair(p);
    ParseSerializePair(p);
    IndexOfAbsent(s, '&');
    assert s[|SerializeText(p.0)|] == '=';
    assert s[..|s|] == s;
    assert Parse("") == Some([]);
    assert [p] + [] == [p];
  }

  /** A pair followed by `&` and more text is read as that pair, then the rest. */
  lemma ParseFirstPair(p: (string, string), rest: string)
    requires rest != []
    ensures Parse(SerializePair(p) + "&" + rest) ==
      match Parse(rest)
      case None => None
      case Some(tail) => Some([p] + tail)
  {
    var first := SerializePair(p);
    var s := first + "&" + rest;
    ParseSerializePair(p);
    IndexOfPrefix(first, '&', rest);
    assert s[..|first|] == first;
    assert s[|first| + 1..] == rest;
  }

  /** The parser reads back every list the serializer writes, tuple by tuple
      and in the same order. */
  lemma {:induction false} ParseSerialize(list: seq<(string, string)>)
    ensures Parse(Serialize(list)) == Some(list)
  {
    if |list| == 1 {
      ParseOnePair(list[0]);
      assert [list[0]] == list;
    } else if |list| > 1 {
      var rest := Serialize(list[1..]);
      assert Serialize(list) == SerializePair(list[0]) + "&" + rest;
      ParseSerialize(list[1..]);
      ParseFirstPair(list[0], rest);
      assert Parse(Serialize(list)) == Some([list[0]] + list[1..]);
      assert [list[0]] + list[1..] == list;
    }
  }

  /** `URLSearchParams`: a list of name-value tuples that `append` extends in place. */
  class SearchParams {
    var list: seq<(string, string)>

    constructor ()
      ensures list == []
    {
      list := [];
    }

    /** `append(name, value)`: adds a tuple at the end. */
    method Append(name: string, value: string)
      modifies this
      ensures list == old(list) + [(name, value)]
    {
      list := list + [(name, value)];
    }

    /** `toString()`: the serialization of the list. */
    function ToString(): (s: string)
      reads this
      ensures Parse(s) == Some(list)
    {
      ParseSerialize(list);
      Serialize(list)
    }
  }
}
