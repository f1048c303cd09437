/** The two encodings behind an HTTP Basic `Authorization` header: UTF-8
    (`str.encode('utf-8')`) and Base64 with the standard alphabet and `=`
    padding, as section 4 of RFC 4648 defines it (`base64.b64encode`).
    A decoder is given for Base64 so that the encoding can be shown to lose
    nothing. */
module Encodings {

  import opened Wrappers

  type Byte = b: int | 0 <= b < 256

  // ---------------------------------------------------------------------
  // UTF-8
  // ---------------------------------------------------------------------

  /** The UTF-8 bytes of one code point: one byte below U+0080, then two,
      three or four. */
  function Utf8Char(c: char): (r: seq<Byte>)
    ensures 1 <= |r| <= 4
    ensures (c as int < 0x80) <==> |r| == 1
    ensures |r| == 1 ==> r[0] == c as int
    ensures |r| > 1 ==> r[0] >= 0xC0 && forall k :: 1 <= k < |r| ==> 0x80 <= r[k] < 0xC0
  {
    var n := c as int;
    if n < 0x80 then [n]
    else if n < 0x800 then [0xC0 + n / 64, 0x80 + n % 64]
    else if n < 0x1_0000 then [0xE0 + n / 4096, 0x80 + n / 64 % 64, 0x80 + n % 64]
    else [0xF0 + n / 262144, 0x80 + n / 4096 % 64, 0x80 + n / 64 % 64, 0x80 + n % 64]
  }

  /** `s.encode('utf-8')`. */
  function Utf8(s: string): seq<Byte> {
    if s == [] then [] else Utf8Char(s[0]) + Utf8(s[1..])
  }

  predicate Ascii(s: string) {
    forall i :: 0 <= i < |s| ==> s[i] as int < 0x80
  }

  /** ASCII text encodes to its own code points, one byte each. */
  lemma {:induction false} Utf8Ascii(s: string)
    requires Ascii(s)
    ensures |Utf8(s)| == |s|
    ensures forall i :: 0 <= i < |s| ==> Utf8(s)[i] == s[i] as int
  {
    if s != [] {
      assert Ascii(s[1..]) by {
        forall i | 0 <= i < |s| - 1 ensures s[1..][i] as int < 0x80 {
          assert s[1..][i] == s[i + 1];
        }
      }
      Utf8Ascii(s[1..]);
    }
  }

  // ---------------------------------------------------------------------
  // Base64 (section 4 of RFC 4648)
  // ---------------------------------------------------------------------

  /** The character for a 6-bit value. */
  function Digit(n: nat): (c: char)
    requires n < 64
  {
    if n < 26 then ('A' as int + n) as char
    else if n < 52 then ('a' as int + n - 26) as char
    else if n < 62 then ('0' as int + n - 52) as char
    else if n == 62 then '+'
    else '/'
  }

  /** The 6-bit value of an alphabet character; `None` for any other. */
  function DigitValue(c: char): (r: Option<nat>)
    ensures r.Some? ==> r.value < 64 && Digit(r.value) == c
  {
    if 'A' <= c <= 'Z' then Some(c as int - 'A' as int)
    else if 'a' <= c <= 'z' then Some(c as int - 'a' as int + 26)
    else if '0' <= c <= '9' then Some(c as int - '0' as int + 52)
    else if c == '+' then Some(62)
    else if c == '/' then Some(63)
    else None
  }

  lemma DigitValueOfDigit(n: nat)
    requires n < 64
    ensures DigitValue(Digit(n)) == Some(n)
  {
  }

  predicate InAlphabet(c: char) {
    DigitValue(c).Some? || c == '='
  }

  /** Three bytes as four characters, six bits each. */
  function Group3(x: Byte, y: Byte, z: Byte): (r: string)
    ensures |r| == 4
  {
    [Digit(x / 4), Digit(x % 4 * 16 + y / 16), Digit(y % 16 * 4 + z / 64), Digit(z % 64)]
  }

  /** Two final bytes: three characters and one `=`. */
  function Group2(x: Byte, y: Byte): (r: string)
    ensures |r| == 4
  {
    [Digit(x / 4), Digit(x % 4 * 16 + y / 16), Digit(y % 16 * 4), '=']
  }

  /** One final byte: two characters and two `=`. */
  function Group1(x: Byte): (r: string)
    ensures |r| == 4
  {
    [Digit(x / 4), Digit(x % 4 * 16), '=', '=']
  }

  /** `base64.b64encode`: each group of three bytes becomes four characters;
      a final group of one or two bytes is padded with `=` to four. */
  function Base64(b: seq<Byte>): (r: string)
    ensures |r| == 4 * ((|b| + 2) / 3)
    decreases |b|
  {
    if |b| == 0 then ""
    else if |b| == 1 then Group1(b[0])
    else if |b| == 2 then Group2(b[0], b[1])
    else Group3(b[0], b[1], b[2]) + Base64(b[3..])
  }

  /** The bytes of one four-character group, `=` marking the missing ones. */
  function DecodeGroup(g: string): (r: Option<seq<Byte>>)
    requires |g| == 4
  {
    match (DigitValue(g[0]), DigitValue(g[1]), DigitValue(g[2]), DigitValue(g[3]))
    case (Some(a), Some(b), Some(c), Some(d)) =>
      Some([a * 4 + b / 16, b % 16 * 16 + c / 4, c % 4 * 64 + d])
    case (Some(a), Some(b), Some(c), None) =>
      if g[3] == '=' then Some([a * 4 + b / 16, b % 16 * 16 + c / 4]) else None
    case (Some(a), Some(b), None, None) =>
      if g[2] == '=' && g[3] == '=' then Some([a * 4 + b / 16]) else None
    case _ => None
  }

  /** Base64 text back to bytes: groups of four, padding only in the last. */
  function DecodeBase64(s: string): (r: Option<seq<Byte>>)
    decreases |s|
  {
    if s == "" then Some([])
    else if |s| < 4 then None
    else match DecodeGroup(s[..4])
      case None => None
      case Some(head) =>
        if |head| < 3 && |s| > 4 then None
        else match DecodeBase64(s[4..])
          case None => None
          case Some(tail) => Some(head + tail)
  }

  /** `h` and `l` packed as `h * m + l` unpack again, for the two group sizes. */
  lemma Unpack16(h: nat, l: nat)
    requires l < 16
    ensures (h * 16 + l) / 16 == h && (h * 16 + l) % 16 == l
  {
  }

  lemma Unpack4(h: nat, l: nat)
    requires l < 4
    ensures (h * 4 + l) / 4 == h && (h * 4 + l) % 4 == l
  {
  }

  /** The four 6-bit values of three bytes give the bytes back. */
  lemma Sextets(x: Byte, y: Byte, z: Byte)
    ensures var a, b, c, d := x / 4, x % 4 * 16 + y / 16, y % 16 * 4 + z / 64, z % 64;
            a < 64 && b < 64 && c < 64 && d < 64
            && a * 4 + b / 16 == x && b % 16 * 16 + c / 4 == y && c % 4 * 64 + d == z
  {
    Unpack16(x % 4, y / 16);
    Unpack4(y % 16, z / 64);
  }

  /** Three bytes survive the trip through four characters. */
  lemma FullGroup(x: Byte, y: Byte, z: Byte)
    ensures DecodeGroup(Group3(x, y, z)) == Some([x, y, z])
  {
    var a, b, c, d := x / 4, x % 4 * 16 + y / 16, y % 16 * 4 + z / 64, z % 64;
    Sextets(x, y, z);
    DigitValueOfDigit(a);
    DigitValueOfDigit(b);
    DigitValueOfDigit(c);
    DigitValueOfDigit(d);
    assert DecodeGroup(Group3(x, y, z)) == Some([a * 4 + b / 16, b % 16 * 16 + c / 4, c % 4 * 64 + d]);
  }

  lemma TwoByteGroup(x: Byte, y: Byte)
    ensures DecodeGroup(Group2(x, y)) == Some([x, y])
  {
    var a, b, c := x / 4, x % 4 * 16 + y / 16, y % 16 * 4;
    Sextets(x, y, 0);
    DigitValueOfDigit(a);
    DigitValueOfDigit(b);
    DigitValueOfDigit(c);
    assert DecodeGroup(Group2(x, y)) == Some([a * 4 + b / 16, b % 16 * 16 + c / 4]);
  }

  lemma OneByteGroup(x: Byte)
    ensures DecodeGroup(Group1(x)) == Some([x])
  {
    var a, b := x / 4, x % 4 * 16;
    Sextets(x, 0, 0);
    DigitValueOfDigit(a);
    DigitValueOfDigit(b);
    assert DecodeGroup(Group1(x)) == Some([a * 4 + b / 16]);
  }

  /** A complete group followed by more text decodes group by group. */
  lemma DecodeStep(g: string, rest: string, head: seq<Byte>, tail: seq<Byte>)
    requires |g| == 4 && DecodeGroup(g) == Some(head) && |head| == 3
    requires DecodeBase64(rest) == Some(tail)
    ensures DecodeBase64(g + rest) == Some(head + tail)
  {
    assert (g + rest)[..4] == g && (g + rest)[4..] == rest;
  }

  /** A group alone decodes to its bytes. */
  lemma DecodeLast(g: string, head: seq<Byte>)
    requires |g| == 4 && DecodeGroup(g) == Some(head)
    ensures DecodeBase64(g) == Some(head)
  {
    assert g[..4] == g && g[4..] == "";
    assert head + [] == head;
  }

  lemma RoundTripOne(b: seq<Byte>)
    requires |b| == 1
    ensures DecodeBase64(Base64(b)) == Some(b)
  {
    OneByteGroup(b[0]);
    DecodeLast(Group1(b[0]), [b[0]]);
    assert [b[0]] == b;
  }

  lemma RoundTripTwo(b: seq<Byte>)
    requires |b| == 2
    ensures DecodeBase64(Base64(b)) == Some(b)
  {
    TwoByteGroup(b[0], b[1]);
    DecodeLast(Group2(b[0], b[1]), [b[0], b[1]]);
    assert [b[0], b[1]] == b;
  }

  lemma RoundTripStep(b: seq<Byte>)
    requires |b| >= 3 && DecodeBase64(Base64(b[3..])) == Some(b[3..])
    ensures DecodeBase64(Base64(b)) == Some(b)
  {
    var g, rest, head := Group3(b[0], b[1], b[2]), Base64(b[3..]), [b[0], b[1], b[2]];
    assert Base64(b) == g + rest;
    FullGroup(b[0], b[1], b[2]);
    DecodeStep(g, rest, head, b[3..]);
    SplitThree(b);
  }

  lemma SplitThree<T>(b: seq<T>)
    requires |b| >= 3
    ensures [b[0], b[1], b[2]] + b[3..] == b
  {
  }

  /** Decoding the encoding gives the bytes back. */
  lemma {:induction false} Base64RoundTrip(b: seq<Byte>)
    ensures DecodeBase64(Base64(b)) == Some(b)
    decreases |b|
  {
    if |b| == 1 {
      RoundTripOne(b);
    } else if |b| == 2 {
      RoundTripTwo(b);
    } else if |b| >= 3 {
      Base64RoundTrip(b[3..]);
      RoundTripStep(b);
    }
  }

  /** Different bytes never share an encoding. */
  lemma Base64Injective(a: seq<Byte>, b: seq<Byte>)
    requires Base64(a) == Base64(b)
    ensures a == b
  {
    Base64RoundTrip(a);
    Base64RoundTrip(b);
  }
}
