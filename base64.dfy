/**
 * Base 64 encoding with the standard alphabet and `=` padding, as section 4 of RFC 4648
 * defines it: each group of three octets becomes four characters of the 64-character
 * alphabet; a final group of one or two octets is padded with `==` or `=`.
 */
module Base64 {
  import opened Wrappers

  type byte = x: int | 0 <= x < 256
  type sextet = x: int | 0 <= x < 64

  const Pad: char := '='

  /** The character of the alphabet (Table 1 of RFC 4648) that stands for value `i`. */
  function IndexToChar(i: sextet): (c: char)
    ensures c != Pad && c != ',' && c != ';'
  {
    if i < 26 then ('A' as int + i) as char
    else if i < 52 then ('a' as int + (i - 26)) as char
    else if i < 62 then ('0' as int + (i - 52)) as char
    else if i == 62 then '+'
    else '/'
  }

  /** The value a character of the alphabet stands for; `None` for any other character. */
  function CharToIndex(c: char): (r: Option<sextet>)
    ensures c == Pad ==> r == None
  {
    if 'A' <= c <= 'Z' then Some(c as int - 'A' as int)
    else if 'a' <= c <= 'z' then Some(c as int - 'a' as int + 26)
    else if '0' <= c <= '9' then Some(c as int - '0' as int + 52)
    else if c == '+' then Some(62)
    else if c == '/' then Some(63)
    else None
  }

  /** Every value has exactly one character: reading back the character gives the value. */
  lemma CharIndexRoundTrip(i: sextet)
    ensures CharToIndex(IndexToChar(i)) == Some(i)
  {
  }

  /** Three octets as four characters. */
  function EncodeGroup(b0: byte, b1: byte, b2: byte): (r: string)
    ensures |r| == 4 && Pad !in r && ',' !in r && ';' !in r
  {
    [IndexToChar(b0 / 4), IndexToChar((b0 % 4) * 16 + b1 / 16),
     IndexToChar((b1 % 16) * 4 + b2 / 64), IndexToChar(b2 % 64)]
  }

  /** The encoding of an octet sequence: whole groups of four characters, and no comma
      anywhere (so a data URL's payload can be found after its last comma). */
  function Encode(b: seq<byte>): (r: string)
    ensures |r| % 4 == 0
    ensures ',' !in r && ';' !in r
    decreases |b|
  {
    if |b| == 0 then []
    else if |b| == 1 then [IndexToChar(b[0] / 4), IndexToChar((b[0] % 4) * 16), Pad, Pad]
    else if |b| == 2 then
      [IndexToChar(b[0] / 4), IndexToChar((b[0] % 4) * 16 + b[1] / 16), IndexToChar((b[1] % 16) * 4), Pad]
    else EncodeGroup(b[0], b[1], b[2]) + Encode(b[3..])
  }

  /** The encoding of three or more octets is the first group's, then the rest's. */
  lemma EncodeStep(b: seq<byte>)
    requires |b| >= 3
    ensures Encode(b) == EncodeGroup(b[0], b[1], b[2]) + Encode(b[3..])
  {
  }

  /** Four characters for every started group of three octets. */
  lemma {:induction false} EncodeLength(b: seq<byte>)
    ensures |Encode(b)| == 4 * ((|b| + 2) / 3)
    decreases |b|
  {
    if |b| >= 3 {
      var n := |b| - 3;
      EncodeLength(b[3..]);
      EncodeStep(b);
      assert (n + 2) / 3 + 1 == (|b| + 2) / 3;
    } else if |b| > 0 {
      assert |Encode(b)| == 4;
    }
  }

  /** Four characters back to octets. Padding is accepted only in the final group (`last`). */
  function DecodeGroup(q: string, last: bool): (r: Option<seq<byte>>)
    requires |q| == 4
    ensures r.Some? ==> 1 <= |r.value| <= 3
    ensures r.Some? && !last ==> |r.value| == 3
  {
    var i0, i1, i2, i3 := CharToIndex(q[0]), CharToIndex(q[1]), CharToIndex(q[2]), CharToIndex(q[3]);
    if i0.None? || i1.None? then None
    else
      var c0, c1 := i0.value, i1.value;
      if q[2] == Pad && q[3] == Pad then
        if last then Some([c0 * 4 + c1 / 16]) else None
      else if i2.None? then None
      else
        var c2 := i2.value;
        if q[3] == Pad then
          if last then Some([c0 * 4 + c1 / 16, (c1 % 16) * 16 + c2 / 4]) else None
        else if i3.None? then None
        else Some([c0 * 4 + c1 / 16, (c1 % 16) * 16 + c2 / 4, (c2 % 4) * 64 + i3.value])
  }

  /** The decoding of a character sequence; `None` when it is not well-formed base 64
      (length not a multiple of four, a character outside the alphabet, misplaced padding). */
  function Decode(s: string): (r: Option<seq<byte>>)
    ensures |s| % 4 != 0 ==> r == None
    decreases |s|
  {
    if |s| == 0 then Some([])
    else if |s| < 4 then None
    else
      match DecodeGroup(s[..4], |s| == 4)
      case None => None
      case Some(head) =>
        match Decode(s[4..])
        case None => None
        case Some(tail) => Some(head + tail)
  }

  /** The first octet comes back from the first two characters of its group. */
  lemma RecoverFirst(b0: byte, b1: byte)
    ensures (b0 / 4) * 4 + ((b0 % 4) * 16 + b1 / 16) / 16 == b0
  {
    assert ((b0 % 4) * 16 + b1 / 16) / 16 == b0 % 4;
  }

  /** The second octet comes back from the second and third characters. */
  lemma RecoverSecond(b0: byte, b1: byte, b2: byte)
    ensures (((b0 % 4) * 16 + b1 / 16) % 16) * 16 + ((b1 % 16) * 4 + b2 / 64) / 4 == b1
  {
    assert ((b0 % 4) * 16 + b1 / 16) % 16 == b1 / 16;
    assert ((b1 % 16) * 4 + b2 / 64) / 4 == b1 % 16;
  }

  /** The third octet comes back from the third and fourth characters. */
  lemma RecoverThird(b1: byte, b2: byte)
    ensures (((b1 % 16) * 4 + b2 / 64) % 4) * 64 + b2 % 64 == b2
  {
    assert ((b1 % 16) * 4 + b2 / 64) % 4 == b2 / 64;
  }

  lemma DecodeEncodeGroup(b0: byte, b1: byte, b2: byte, last: bool)
    ensures DecodeGroup(EncodeGroup(b0, b1, b2), last) == Some([b0, b1, b2])
  {
    var c0, c1, c2, c3 := b0 / 4, (b0 % 4) * 16 + b1 / 16, (b1 % 16) * 4 + b2 / 64, b2 % 64;
    var q := EncodeGroup(b0, b1, b2);
    assert q == [IndexToChar(c0), IndexToChar(c1), IndexToChar(c2), IndexToChar(c3)];
    CharIndexRoundTrip(c0);
    CharIndexRoundTrip(c1);
    CharIndexRoundTrip(c2);
    CharIndexRoundTrip(c3);
    RecoverFirst(b0, b1);
    RecoverSecond(b0, b1, b2);
    RecoverThird(b1, b2);
    assert DecodeGroup(q, last) == Some([c0 * 4 + c1 / 16, (c1 % 16) * 16 + c2 / 4, (c2 % 4) * 64 + c3]);
  }

  lemma DecodeEncodeOne(b0: byte)
    ensures Decode(Encode([b0])) == Some([b0])
  {
    var s := Encode([b0]);
    assert s[..4] == s && s[4..] == [];
    CharIndexRoundTrip(b0 / 4);
    CharIndexRoundTrip((b0 % 4) * 16);
    assert DecodeGroup(s[..4], |s| == 4) == Some([b0]);
    assert Decode(s[4..]) == Some([]);
    assert [b0] + [] == [b0];
  }

  lemma DecodeEncodeTwo(b0: byte, b1: byte)
    ensures Decode(Encode([b0, b1])) == Some([b0, b1])
  {
    var s := Encode([b0, b1]);
    assert s[..4] == s && s[4..] == [];
    CharIndexRoundTrip(b0 / 4);
    CharIndexRoundTrip((b0 % 4) * 16 + b1 / 16);
    CharIndexRoundTrip((b1 % 16) * 4);
    assert DecodeGroup(s[..4], |s| == 4) == Some([b0, b1]);
    assert Decode(s[4..]) == Some([]);
    assert [b0, b1] + [] == [b0, b1];
  }

  /** A full group followed by text that decodes decodes to the group's octets and then
      that text's. */
  lemma DecodeGroupThen(b0: byte, b1: byte, b2: byte, t: string, tail: seq<byte>)
    requires Decode(t) == Some(tail)
    ensures Decode(EncodeGroup(b0, b1, b2) + t) == Some([b0, b1, b2] + tail)
  {
    var q := EncodeGroup(b0, b1, b2);
    var s := q + t;
    assert s[..4] == q && s[4..] == t;
    DecodeEncodeGroup(b0, b1, b2, |s| == 4);
  }

  /** Decoding inverts encoding for the inputs shorter than a group. */
  lemma DecodeEncodeShort(b: seq<byte>)
    requires |b| <= 2
    ensures Decode(Encode(b)) == Some(b)
  {
    if |b| == 1 {
      assert b == [b[0]];
      DecodeEncodeOne(b[0]);
    } else if |b| == 2 {
      assert b == [b[0], b[1]];
      DecodeEncodeTwo(b[0], b[1]);
    }
  }

  /** Decoding inverts encoding, for every octet sequence. */
  lemma {:induction false} DecodeEncode(b: seq<byte>)
    ensures Decode(Encode(b)) == Some(b)
    decreases |b|
  {
    if |b| <= 2 {
      DecodeEncodeShort(b);
    } else {
      var rest := b[3..];
      DecodeEncode(rest);
      EncodeStep(b);
      DecodeGroupThen(b[0], b[1], b[2], Encode(rest), rest);
      assert [b[0], b[1], b[2]] + rest == b;
    }
  }
}
