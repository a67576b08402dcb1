/**
 * Byte encodings used for a defender entry's identifier: the UTF-8 bytes of
 * the address string (Go's []byte(s)) rendered in lower-case Base16, as Go's
 * hex.EncodeToString does (section 8 of RFC 4648).
 */
module Encoding {
  import opened Wrappers
  import opened Bytes

  /** The UTF-8 encoding of one Unicode scalar value. */
  function EncodeRune(c: char): (r: seq<byte>)
    ensures 1 <= |r| <= 4
    ensures (c as int < 0x80) <==> |r| == 1
  {
    var v := c as int;
    if v < 0x80 then [v]
    else if v < 0x800 then [0xC0 + v / 0x40, 0x80 + v % 0x40]
    else if v < 0x10000 then [0xE0 + v / 0x1000, 0x80 + (v / 0x40) % 0x40, 0x80 + v % 0x40]
    else [0xF0 + v / 0x40000, 0x80 + (v / 0x1000) % 0x40, 0x80 + (v / 0x40) % 0x40, 0x80 + v % 0x40]
  }

  function Utf8(s: string): seq<byte>
  {
    if |s| == 0 then [] else EncodeRune(s[0]) + Utf8(s[1..])
  }

  /** For an ASCII string the bytes are the character codes, one per character. */
  lemma {:induction false} Utf8Ascii(s: string)
    requires forall i :: 0 <= i < |s| ==> s[i] as int < 0x80
    ensures |Utf8(s)| == |s|
    ensures forall i :: 0 <= i < |s| ==> Utf8(s)[i] == s[i] as int
    decreases |s|
  {
    if |s| > 0 {
      var u := Utf8(s[1..]);
      Utf8Ascii(s[1..]);
      assert Utf8(s) == [s[0] as int] + u;
      forall i | 0 < i < |s|
        ensures Utf8(s)[i] == s[i] as int
      {
        assert s[1..][i - 1] == s[i];
      }
    }
  }

  const HexAlphabet: string := "0123456789abcdef"

  /** The two Base16 digits of one byte, high nibble first. */
  function HexPair(v: byte): (r: string)
    ensures |r| == 2
  {
    [HexAlphabet[v / 16], HexAlphabet[v % 16]]
  }

  function HexEncode(b: seq<byte>): (r: string)
    ensures |r| == 2 * |b|
  {
    if |b| == 0 then "" else HexPair(b[0]) + HexEncode(b[1..])
  }

  function HexDigitValue(c: char): Option<int>
  {
    if '0' <= c <= '9' then Some(c as int - '0' as int)
    else if 'a' <= c <= 'f' then Some(c as int - 'a' as int + 10)
    else None
  }

  /** Reference decoder for lower-case Base16. */
  function HexDecode(s: string): Option<seq<byte>>
    decreases |s|
  {
    if |s| == 0 then Some([])
    else if |s| == 1 then None
    else
      match (HexDigitValue(s[0]), HexDigitValue(s[1]), HexDecode(s[2..]))
      case (Some(hi), Some(lo), Some(rest)) =>
        if 0 <= hi < 16 && 0 <= lo < 16 then Some([hi * 16 + lo] + rest) else None
      case _ => None
  }

  lemma HexDigitOfAlphabet(d: int)
    requires 0 <= d < 16
    ensures HexDigitValue(HexAlphabet[d]) == Some(d)
  {
  }

  /** Decoding a string that starts with the digits of v puts v in front. */
  lemma HexDecodePair(v: byte, t: string)
    ensures HexDecode(HexPair(v) + t) ==
      (match HexDecode(t) case Some(rest) => Some([v] + rest) case None => None)
  {
    var s := HexPair(v) + t;
    HexDigitOfAlphabet(v / 16);
    HexDigitOfAlphabet(v % 16);
    assert s[0] == HexAlphabet[v / 16] && s[1] == HexAlphabet[v % 16];
    assert s[2..] == t;
  }

  /** Decoding an encoding gives the bytes back. */
  lemma {:induction false} HexRoundTrip(b: seq<byte>)
    ensures HexDecode(HexEncode(b)) == Some(b)
    decreases |b|
  {
    if |b| > 0 {
      HexDecodePair(b[0], HexEncode(b[1..]));
      HexRoundTrip(b[1..]);
      assert [b[0]] + b[1..] == b;
    }
  }

  /** Distinct byte strings have distinct Base16 encodings. */
  lemma HexInjective(a: seq<byte>, b: seq<byte>)
    requires HexEncode(a) == HexEncode(b)
    ensures a == b
  {
    HexRoundTrip(a);
    HexRoundTrip(b);
  }
}
