/** Standard base64 with padding, section 4 of RFC 4648, as
    base64.StdEncoding.EncodeToString produces it, together with the
    decoding that undoes it. */
module Base64 {
  import opened Types

  /** The character for a 6-bit value: A-Z, a-z, 0-9, '+', '/'. */
  function CharOf(v: int): (c: char)
    requires 0 <= v < 64
    ensures c != '='
  {
    if v < 26 then ('A' as int + v) as char
    else if v < 52 then ('a' as int + v - 26) as char
    else if v < 62 then ('0' as int + v - 52) as char
    else if v == 62 then '+'
    else '/'
  }

  /** The 6-bit value of an alphabet character (0 for any other). */
  function ValueOf(c: char): (v: int)
    ensures 0 <= v < 64
  {
    if 'A' <= c <= 'Z' then c as int - 'A' as int
    else if 'a' <= c <= 'z' then c as int - 'a' as int + 26
    else if '0' <= c <= '9' then c as int - '0' as int + 52
    else if c == '+' then 62
    else if c == '/' then 63
    else 0
  }

  /** Three bytes as four characters. */
  function Group(x: byte, y: byte, z: byte): (r: string)
    ensures |r| == 4 && r[2] != '=' && r[3] != '='
  {
    [CharOf(x / 4), CharOf((x % 4) * 16 + y / 16), CharOf((y % 16) * 4 + z / 64), CharOf(z % 64)]
  }

  /** The last one or two bytes, padded to four characters. */
  function PaddedGroup(x: byte, y: Option<byte>): (r: string)
    ensures |r| == 4 && r[3] == '=' && (r[2] == '=' <==> y.None?)
  {
    match y
    case None => [CharOf(x / 4), CharOf((x % 4) * 16), '=', '=']
    case Some(y) => [CharOf(x / 4), CharOf((x % 4) * 16 + y / 16), CharOf((y % 16) * 4), '=']
  }

  function Encode(b: seq<byte>): (r: string)
    decreases |b|
  {
    if |b| == 0 then ""
    else if |b| == 1 then PaddedGroup(b[0], None)
    else if |b| == 2 then PaddedGroup(b[0], Some(b[1]))
    else Group(b[0], b[1], b[2]) + Encode(b[3..])
  }

  function Decode(s: string): (r: seq<byte>)
    decreases |s|
  {
    if |s| < 4 then []
    else
      var v0, v1, v2, v3 := ValueOf(s[0]), ValueOf(s[1]), ValueOf(s[2]), ValueOf(s[3]);
      var b0 := (v0 * 4 + v1 / 16) % 256;
      if s[2] == '=' then [b0]
      else
        var b1 := ((v1 % 16) * 16 + v2 / 4) % 256;
        if s[3] == '=' then [b0, b1]
        else [b0, b1, ((v2 % 4) * 64 + v3) % 256] + Decode(s[4..])
  }

  lemma ValueOfCharOf(v: int)
    requires 0 <= v < 64
    ensures ValueOf(CharOf(v)) == v
  {
  }

  /** Every three bytes become four characters, the last group padded. */
  lemma {:induction false} EncodeLength(b: seq<byte>)
    ensures |Encode(b)| == 4 * ((|b| + 2) / 3)
    decreases |b|
  {
    if |b| >= 3 {
      EncodeLength(b[3..]);
    }
  }

  /** One full group of three bytes decodes back. */
  lemma DecodeGroup(x: byte, y: byte, z: byte)
    ensures var v1, v2 := (x % 4) * 16 + y / 16, (y % 16) * 4 + z / 64;
      (x / 4 * 4 + v1 / 16) % 256 == x
      && ((v1 % 16) * 16 + v2 / 4) % 256 == y
      && ((v2 % 4) * 64 + z % 64) % 256 == z
  {
    var v1, v2 := (x % 4) * 16 + y / 16, (y % 16) * 4 + z / 64;
    assert v1 / 16 == x % 4 && v1 % 16 == y / 16;
    assert v2 / 4 == y % 16 && v2 % 4 == z / 64;
  }

  /** Decoding gives back the bytes that were encoded. */
  lemma {:induction false} DecodeEncode(b: seq<byte>)
    ensures Decode(Encode(b)) == b
    decreases |b|
  {
    if |b| == 1 {
      DecodePadded(b[0], None);
    } else if |b| == 2 {
      DecodePadded(b[0], Some(b[1]));
    } else if |b| >= 3 {
      DecodeFirstGroup(b[0], b[1], b[2], Encode(b[3..]));
      DecodeEncode(b[3..]);
      assert b == [b[0], b[1], b[2]] + b[3..];
    }
  }

  lemma DecodePadded(x: byte, y: Option<byte>)
    ensures Decode(PaddedGroup(x, y)) == if y.None? then [x] else [x, y.value]
  {
    var y' := if y.None? then 0 else y.value;
    DecodeGroup(x, y', 0);
    ValueOfCharOf(x / 4);
    ValueOfCharOf((x % 4) * 16 + y' / 16);
    ValueOfCharOf((y' % 16) * 4);
  }

  /** A full group decodes back, and decoding goes on after it. */
  lemma DecodeFirstGroup(x: byte, y: byte, z: byte, rest: string)
    ensures Decode(Group(x, y, z) + rest) == [x, y, z] + Decode(rest)
  {
    var v0, v1, v2, v3 := x / 4, (x % 4) * 16 + y / 16, (y % 16) * 4 + z / 64, z % 64;
    var e := Group(x, y, z) + rest;
    ValueOfCharOf(v0);
    ValueOfCharOf(v1);
    ValueOfCharOf(v2);
    ValueOfCharOf(v3);
    assert ValueOf(e[0]) == v0 && ValueOf(e[1]) == v1 && ValueOf(e[2]) == v2 && ValueOf(e[3]) == v3;
    assert e[4..] == rest;
    DecodeGroup(x, y, z);
  }

  /** Different byte strings have different encodings. */
  lemma EncodeInjective(a: seq<byte>, b: seq<byte>)
    requires Encode(a) == Encode(b)
    ensures a == b
  {
    DecodeEncode(a);
    DecodeEncode(b);
  }
}
