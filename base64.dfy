/** Base 64 as defined in section 4 of RFC 4648: the alphabet and the `=` padding
    that Python's `base64.b64encode` produces and `base64.b64decode` reads. The
    integration encodes every attachment with it before embedding it in a data URI,
    and decodes the `b64_json` field of an image response with it. */
module Base64 {
  import opened Wrappers

  type Byte = b: int | 0 <= b < 256

  /** The character that encodes a 6-bit value (Table 1 of RFC 4648). */
  function IndexChar(i: nat): (c: char)
    requires i < 64
    ensures c != '='
  {
    if i < 26 then ('A' as int + i) as char
    else if i < 52 then ('a' as int + (i - 26)) as char
    else if i < 62 then ('0' as int + (i - 52)) as char
    else if i == 62 then '+'
    else '/'
  }

  /** The 6-bit value a character of the alphabet encodes; `None` for any other character. */
  function CharIndex(c: char): (r: Option<nat>)
    ensures r.Some? ==> r.value < 64 && IndexChar(r.value) == c
    ensures c == '=' ==> r.None?
  {
    if 'A' <= c <= 'Z' then Some(c as int - 'A' as int)
    else if 'a' <= c <= 'z' then Some(c as int - 'a' as int + 26)
    else if '0' <= c <= '9' then Some(c as int - '0' as int + 52)
    else if c == '+' then Some(62)
    else if c == '/' then Some(63)
    else None
  }

  /** Every 6-bit value is read back from its character. */
  lemma CharIndexInverse(i: nat)
    requires i < 64
    ensures CharIndex(IndexChar(i)) == Some(i)
  {
  }

  /** Three bytes as four characters, most significant bits first. */
  function EncodeGroup(b0: Byte, b1: Byte, b2: Byte): string {
    [ IndexChar(b0 / 4), IndexChar((b0 % 4) * 16 + b1 / 16),
      IndexChar((b1 % 16) * 4 + b2 / 64), IndexChar(b2 % 64) ]
  }

  /** `base64.b64encode(data).decode()`: whole groups first, then a final group of one
      or two bytes padded with `=`. */
  function Encode(data: seq<Byte>): string
  {
    if |data| == 0 then ""
    else if |data| == 1 then
      [IndexChar(data[0] / 4), IndexChar((data[0] % 4) * 16), '=', '=']
    else if |data| == 2 then
      [IndexChar(data[0] / 4), IndexChar((data[0] % 4) * 16 + data[1] / 16),
       IndexChar((data[1] % 16) * 4), '=']
    else EncodeGroup(data[0], data[1], data[2]) + Encode(data[3..])
  }

  /** Four characters back to bytes; padding is accepted only in the final group. */
  function DecodeQuad(q: string, last: bool): Option<seq<Byte>>
    requires |q| == 4
  {
    match (CharIndex(q[0]), CharIndex(q[1]), CharIndex(q[2]), CharIndex(q[3]))
    case (Some(c0), Some(c1), Some(c2), Some(c3)) =>
      Some([c0 * 4 + c1 / 16, (c1 % 16) * 16 + c2 / 4, (c2 % 4) * 64 + c3])
    case (Some(c0), Some(c1), Some(c2), None) =>
      if last && q[3] == '=' then Some([c0 * 4 + c1 / 16, (c1 % 16) * 16 + c2 / 4]) else None
    case (Some(c0), Some(c1), None, None) =>
      if last && q[2] == '=' && q[3] == '=' then Some([c0 * 4 + c1 / 16]) else None
    case _ => None
  }

  /** `base64.b64decode(s)` on a canonical encoding; `None` where the text is not one. */
  function Decode(s: string): Option<seq<Byte>>
  {
    if |s| == 0 then Some([])
    else if |s| < 4 then None
    else
      match DecodeQuad(s[..4], |s| == 4)
      case None => None
      case Some(head) =>
        match Decode(s[4..])
        case None => None
        case Some(tail) => Some(head + tail)
  }

  /** Decoding one full group gives back its three bytes. */
  lemma GroupRoundTrip(b0: Byte, b1: Byte, b2: Byte, last: bool)
    ensures DecodeQuad(EncodeGroup(b0, b1, b2), last) == Some([b0, b1, b2])
  {
    var c0, c1, c2, c3 := b0 / 4, (b0 % 4) * 16 + b1 / 16, (b1 % 16) * 4 + b2 / 64, b2 % 64;
    CharIndexInverse(c0);
    CharIndexInverse(c1);
    CharIndexInverse(c2);
    CharIndexInverse(c3);
    assert c1 / 16 == b0 % 4 && c1 % 16 == b1 / 16;
    assert c2 / 4 == b1 % 16 && c2 % 4 == b2 / 64;
  }

  /** A final group of one byte, padded with `==`, decodes to that byte. */
  lemma OneByteRoundTrip(b0: Byte)
    ensures Decode(Encode([b0])) == Some([b0])
  {
    var c0, c1 := b0 / 4, (b0 % 4) * 16;
    CharIndexInverse(c0);
    CharIndexInverse(c1);
    var s := Encode([b0]);
    assert s[..4] == s;
    assert c1 / 16 == b0 % 4;
    assert DecodeQuad(s[..4], |s| == 4) == Some([b0]);
    assert Decode(s[4..]) == Some([]);
    var one: seq<Byte> := [b0];
    assert one + [] == one;
    assert Decode(s) == Some(one);
  }

  /** A final group of two bytes, padded with `=`, decodes to those bytes. */
  lemma TwoBytesRoundTrip(b0: Byte, b1: Byte)
    ensures Decode(Encode([b0, b1])) == Some([b0, b1])
  {
    var c0, c1, c2 := b0 / 4, (b0 % 4) * 16 + b1 / 16, (b1 % 16) * 4;
    CharIndexInverse(c0);
    CharIndexInverse(c1);
    CharIndexInverse(c2);
    var s := Encode([b0, b1]);
    assert s[..4] == s;
    assert c1 / 16 == b0 % 4 && c1 % 16 == b1 / 16 && c2 / 4 == b1 % 16;
    assert DecodeQuad(s[..4], |s| == 4) == Some([b0, b1]);
    assert Decode(s[4..]) == Some([]);
    var two: seq<Byte> := [b0, b1];
    assert two + [] == two;
    assert Decode(s) == Some(two);
  }

  /** Decoding proceeds group by group. */
  lemma DecodeConcat(g: string, rest: string, head: seq<Byte>, tail: seq<Byte>)
    requires |g| == 4 && DecodeQuad(g, rest == []) == Some(head) && Decode(rest) == Some(tail)
    ensures Decode(g + rest) == Some(head + tail)
  {
    var s := g + rest;
    assert s[..4] == g && s[4..] == rest;
  }

  /** One whole group in front of a text that round-trips keeps the round trip. */
  lemma GroupStep(data: seq<Byte>)
    requires |data| >= 3 && Decode(Encode(data[3..])) == Some(data[3..])
    ensures Decode(Encode(data)) == Some(data)
  {
    var g := EncodeGroup(data[0], data[1], data[2]);
    var rest := Encode(data[3..]);
    assert Encode(data) == g + rest;
    var head: seq<Byte> := [data[0], data[1], data[2]];
    var tail: seq<Byte> := data[3..];
    GroupRoundTrip(data[0], data[1], data[2], rest == []);
    DecodeConcat(g, rest, head, tail);
    SplitGroup(data);
  }

  /** A sequence of at least three bytes is its first group followed by the rest. */
  lemma SplitGroup(data: seq<Byte>)
    requires |data| >= 3
    ensures [data[0], data[1], data[2]] + data[3..] == data
  {
  }

  /** `b64decode(b64encode(data)) == data`. */
  lemma {:induction false} RoundTrip(data: seq<Byte>)
    ensures Decode(Encode(data)) == Some(data)
    decreases |data|
  {
    if |data| == 1 {
      assert data == [data[0]];
      OneByteRoundTrip(data[0]);
    } else if |data| == 2 {
      assert data == [data[0], data[1]];
      TwoBytesRoundTrip(data[0], data[1]);
    } else if |data| >= 3 {
      RoundTrip(data[3..]);
      GroupStep(data);
    }
  }

  /** The encoding is empty exactly when there are no bytes; Python's truth test on
      the encoded text therefore drops exactly the empty images. */
  lemma EncodeEmpty(data: seq<Byte>)
    ensures Encode(data) == [] <==> data == []
  {
  }

  /** Four characters for every started group of three bytes. */
  lemma {:induction false} EncodeLength(data: seq<Byte>)
    ensures |Encode(data)| == 4 * ((|data| + 2) / 3)
    decreases |data|
  {
    if |data| >= 3 {
      EncodeLength(data[3..]);
      assert Encode(data) == EncodeGroup(data[0], data[1], data[2]) + Encode(data[3..]);
      assert (|data| + 2) / 3 == (|data[3..]| + 2) / 3 + 1;
    }
  }
}
