/**
 * The standard base64 alphabet and padding (RFC 4648, section 4), as Node's
 * `Buffer.toString('base64')` writes it, and a decoder used to show that the
 * encoding loses nothing.
 */
module Base64 {
  import opened Common

  type Byte = b: int | 0 <= b < 256
  type Sextet = v: int | 0 <= v < 64

  /** The alphabet character for a 6-bit value. */
  function Char(v: Sextet): char {
    if v < 26 then ('A' as int + v) as char
    else if v < 52 then ('a' as int + (v - 26)) as char
    else if v < 62 then ('0' as int + (v - 52)) as char
    else if v == 62 then '+'
    else '/'
  }

  /** The 6-bit value of an alphabet character; `None` for any other character. */
  function Index(c: char): Option<Sextet> {
    if 'A' <= c <= 'Z' then Some(c as int - 'A' as int)
    else if 'a' <= c <= 'z' then Some(c as int - 'a' as int + 26)
    else if '0' <= c <= '9' then Some(c as int - '0' as int + 52)
    else if c == '+' then Some(62)
    else if c == '/' then Some(63)
    else None
  }

  lemma IndexOfChar(v: Sextet)
    ensures Index(Char(v)) == Some(v) && Char(v) != '='
  {
  }

  /** Encodes three bytes at a time; a final group of one or two bytes is padded with '='. */
  function Encode(b: seq<Byte>): (r: string)
    ensures |r| == 4 * ((|b| + 2) / 3)
    decreases |b|
  {
    if |b| == 0 then []
    else if |b| == 1 then Group1(b[0])
    else if |b| == 2 then Group2(b[0], b[1])
    else Group3(b[0], b[1], b[2]) + Encode(b[3..])
  }

  /** A final group of one byte: two characters and two '='. */
  function Group1(b0: Byte): string {
    [Char(b0 / 4), Char((b0 % 4) * 16), '=', '=']
  }

  /** A final group of two bytes: three characters and one '='. */
  function Group2(b0: Byte, b1: Byte): string {
    [Char(b0 / 4), Char((b0 % 4) * 16 + b1 / 16), Char((b1 % 16) * 4), '=']
  }

  /** Three bytes, 24 bits, as four 6-bit characters. */
  function Group3(b0: Byte, b1: Byte, b2: Byte): string {
    [Char(b0 / 4), Char((b0 % 4) * 16 + b1 / 16), Char((b1 % 16) * 4 + b2 / 64), Char(b2 % 64)]
  }

  function Byte0(c0: Sextet, c1: Sextet): Byte { c0 * 4 + c1 / 16 }
  function Byte1(c1: Sextet, c2: Sextet): Byte { (c1 % 16) * 16 + c2 / 4 }
  function Byte2(c2: Sextet, c3: Sextet): Byte { (c2 % 4) * 64 + c3 }

  /** Decodes a padded base64 string; `None` when it is not one. */
  function Decode(s: string): Option<seq<Byte>>
    decreases |s|
  {
    if |s| == 0 then Some([])
    else if |s| < 4 then None
    else
      var i0, i1, i2, i3 := Index(s[0]), Index(s[1]), Index(s[2]), Index(s[3]);
      if i0.None? || i1.None? then None
      else if |s| == 4 && s[2] == '=' && s[3] == '=' then Some([Byte0(i0.value, i1.value)])
      else if i2.None? then None
      else if |s| == 4 && s[3] == '=' then Some([Byte0(i0.value, i1.value), Byte1(i1.value, i2.value)])
      else if i3.None? then None
      else
        var rest := Decode(s[4..]);
        if rest.None? then None
        else Some([Byte0(i0.value, i1.value), Byte1(i1.value, i2.value), Byte2(i2.value, i3.value)] + rest.value)
  }

  lemma GroupRoundTrip(b0: Byte, b1: Byte, b2: Byte)
    ensures Byte0(b0 / 4, (b0 % 4) * 16 + b1 / 16) == b0
    ensures Byte1((b0 % 4) * 16 + b1 / 16, (b1 % 16) * 4 + b2 / 64) == b1
    ensures Byte2((b1 % 16) * 4 + b2 / 64, b2 % 64) == b2
  {
  }

  lemma DecodeOneByte(b0: Byte)
    ensures Decode(Group1(b0)) == Some([b0])
  {
    IndexOfChar(b0 / 4);
    IndexOfChar((b0 % 4) * 16);
    GroupRoundTrip(b0, 0, 0);
  }

  lemma DecodeTwoBytes(b0: Byte, b1: Byte)
    ensures Decode(Group2(b0, b1)) == Some([b0, b1])
  {
    var c0, c1, c2 := b0 / 4, (b0 % 4) * 16 + b1 / 16, (b1 % 16) * 4;
    IndexOfChar(c0);
    IndexOfChar(c1);
    IndexOfChar(c2);
    GroupRoundTrip(b0, b1, 0);
    assert Byte1(c1, c2) == b1;
  }

  lemma DecodeGroupThenRest(b0: Byte, b1: Byte, b2: Byte, rest: string, tail: seq<Byte>)
    requires Decode(rest) == Some(tail)
    ensures Decode(Group3(b0, b1, b2) + rest) == Some([b0, b1, b2] + tail)
  {
    var c0, c1, c2, c3 := b0 / 4, (b0 % 4) * 16 + b1 / 16, (b1 % 16) * 4 + b2 / 64, b2 % 64;
    IndexOfChar(c0);
    IndexOfChar(c1);
    IndexOfChar(c2);
    IndexOfChar(c3);
    GroupRoundTrip(b0, b1, b2);
    var s := Group3(b0, b1, b2) + rest;
    assert s[..4] == [Char(c0), Char(c1), Char(c2), Char(c3)];
    assert s[4..] == rest;
  }

  /** Decoding an encoding gives back the bytes. */
  lemma {:induction false} DecodeEncode(b: seq<Byte>)
    ensures Decode(Encode(b)) == Some(b)
    decreases |b|
  {
    if |b| == 1 {
      RoundTripOne(b);
    } else if |b| == 2 {
      RoundTripTwo(b);
    } else if |b| >= 3 {
      DecodeEncode(b[3..]);
      RoundTripGroup(b);
    }
  }

  lemma RoundTripOne(b: seq<Byte>)
    requires |b| == 1
    ensures Decode(Encode(b)) == Some(b)
  {
    DecodeOneByte(b[0]);
    assert b == [b[0]];
  }

  lemma RoundTripTwo(b: seq<Byte>)
    requires |b| == 2
    ensures Decode(Encode(b)) == Some(b)
  {
    DecodeTwoBytes(b[0], b[1]);
    assert b == [b[0], b[1]];
  }

  /** A full group followed by a tail that round-trips round-trips as a whole. */
  lemma RoundTripGroup(b: seq<Byte>)
    requires |b| >= 3 && Decode(Encode(b[3..])) == Some(b[3..])
    ensures Decode(Encode(b)) == Some(b)
  {
    var rest := Encode(b[3..]);
    DecodeGroupThenRest(b[0], b[1], b[2], rest, b[3..]);
    assert Encode(b) == Group3(b[0], b[1], b[2]) + rest;
    SplitThree(b);
  }

  lemma SplitThree<T>(b: seq<T>)
    requires |b| >= 3
    ensures [b[0], b[1], b[2]] + b[3..] == b
  {
  }

  /** Two byte strings with the same encoding are equal. */
  lemma EncodeInjective(a: seq<Byte>, b: seq<Byte>)
    requires Encode(a) == Encode(b)
    ensures a == b
  {
    DecodeEncode(a);
    DecodeEncode(b);
  }
}
