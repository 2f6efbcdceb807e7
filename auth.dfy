/**
 * The request headers of every call: HTTP Basic authentication (section 2
 * of RFC 7617) with an empty user name and the personal access token as
 * password, base64-encoded with the standard alphabet and padding
 * (section 4 of RFC 4648).
 */
module Auth {
  import opened Wrappers
  import opened Types

  newtype byte = x: int | 0 <= x < 256

  /** The headers sent with every request. */
  datatype Headers = Headers(authorization: string, contentType: string)

  /** The UTF-8 encoding of one Unicode scalar value. */
  function Utf8Char(c: char): (r: seq<byte>)
    ensures 1 <= |r| <= 4
  {
    var n := c as int;
    if n < 0x80 then [n as byte]
    else if n < 0x800 then [(0xC0 + n / 0x40) as byte, (0x80 + n % 0x40) as byte]
    else if n < 0x10000 then
      [(0xE0 + n / 0x1000) as byte, (0x80 + (n / 0x40) % 0x40) as byte, (0x80 + n % 0x40) as byte]
    else
      [(0xF0 + n / 0x40000) as byte, (0x80 + (n / 0x1000) % 0x40) as byte,
       (0x80 + (n / 0x40) % 0x40) as byte, (0x80 + n % 0x40) as byte]
  }

  /** `s.encode()`: UTF-8, character by character. */
  function Utf8(s: string): (r: seq<byte>)
    ensures |r| >= |s|
  {
    if s == [] then [] else Utf8Char(s[0]) + Utf8(s[1..])
  }

  /** The base64 alphabet: `A`-`Z`, `a`-`z`, `0`-`9`, `+`, `/`. */
  function Sextet(i: int): (c: char)
    requires 0 <= i < 64
    ensures c != '='
  {
    if i < 26 then ('A' as int + i) as char
    else if i < 52 then ('a' as int + i - 26) as char
    else if i < 62 then ('0' as int + i - 52) as char
    else if i == 62 then '+'
    else '/'
  }

  /** The value of a base64 alphabet character, `None` for any other character. */
  function SextetValue(c: char): (r: Option<int>)
    ensures r.Some? ==> 0 <= r.value < 64 && Sextet(r.value) == c
  {
    if 'A' <= c <= 'Z' then Some(c as int - 'A' as int)
    else if 'a' <= c <= 'z' then Some(c as int - 'a' as int + 26)
    else if '0' <= c <= '9' then Some(c as int - '0' as int + 52)
    else if c == '+' then Some(62)
    else if c == '/' then Some(63)
    else None
  }

  /** Every alphabet character decodes to its own position. */
  lemma SextetRoundTrip(i: int)
    requires 0 <= i < 64
    ensures SextetValue(Sextet(i)) == Some(i)
  {
  }

  /** The four characters of a full group of three bytes. */
  function Quad(a: byte, b: byte, c: byte): (q: string)
    ensures |q| == 4
  {
    var x, y, z := a as int, b as int, c as int;
    [Sextet(x / 4), Sextet(x % 4 * 16 + y / 16), Sextet(y % 16 * 4 + z / 64), Sextet(z % 64)]
  }

  /** The group of one trailing byte, padded with two '='. */
  function PadOne(a: byte): (q: string)
    ensures |q| == 4
  {
    var x := a as int;
    [Sextet(x / 4), Sextet(x % 4 * 16), '=', '=']
  }

  /** The group of two trailing bytes, padded with one '='. */
  function PadTwo(a: byte, b: byte): (q: string)
    ensures |q| == 4
  {
    var x, y := a as int, b as int;
    [Sextet(x / 4), Sextet(x % 4 * 16 + y / 16), Sextet(y % 16 * 4), '=']
  }

  /** `base64.b64encode(bytes).decode()`: three bytes to four characters, '=' padding at the end. */
  function Base64(bs: seq<byte>): (r: string)
    ensures |r| == 4 * ((|bs| + 2) / 3)
  {
    if |bs| == 0 then []
    else if |bs| == 1 then PadOne(bs[0])
    else if |bs| == 2 then PadTwo(bs[0], bs[1])
    else Quad(bs[0], bs[1], bs[2]) + Base64(bs[3..])
  }

  /** Four characters back to up to three bytes, following the padding. */
  function DecodeQuad(w: char, x: char, y: char, z: char): Option<seq<byte>> {
    var p, q, r, s := SextetValue(w), SextetValue(x), SextetValue(y), SextetValue(z);
    if p.None? || q.None? then None
    else
      var b0 := (p.value * 4 + q.value / 16) as byte;
      if y == '=' && z == '=' then Some([b0])
      else if r.None? then None
      else
        var b1 := (q.value % 16 * 16 + r.value / 4) as byte;
        if z == '=' then Some([b0, b1])
        else if s.None? then None
        else Some([b0, b1, (r.value % 4 * 64 + s.value) as byte])
  }

  /** Base64 decoding: groups of four characters; `None` for text that is not base64. */
  function Base64Decode(s: string): (r: Option<seq<byte>>)
    decreases |s|
  {
    if s == [] then Some([])
    else if |s| < 4 then None
    else
      match (DecodeQuad(s[0], s[1], s[2], s[3]), Base64Decode(s[4..]))
      case (Some(head), Some(tail)) => Some(head + tail)
      case _ => None
  }

  /** The sextets of three bytes reassemble into those bytes. */
  lemma FullQuadArith(a: int, b: int, c: int)
    requires 0 <= a < 256 && 0 <= b < 256 && 0 <= c < 256
    ensures (a / 4) * 4 + (a % 4 * 16 + b / 16) / 16 == a
    ensures (a % 4 * 16 + b / 16) % 16 * 16 + (b % 16 * 4 + c / 64) / 4 == b
    ensures (b % 16 * 4 + c / 64) % 4 * 64 + c % 64 == c
  {
    var a1, a0 := a / 4, a % 4;
    var b1, b0 := b / 16, b % 16;
    var c1, c0 := c / 64, c % 64;
    assert (a0 * 16 + b1) / 16 == a0 && (a0 * 16 + b1) % 16 == b1;
    assert (b0 * 4 + c1) / 4 == b0 && (b0 * 4 + c1) % 4 == c1;
  }

  /** Decoding one full group gives its three bytes back. */
  lemma DecodeQuadOf(a: byte, b: byte, c: byte)
    ensures var q := Quad(a, b, c); DecodeQuad(q[0], q[1], q[2], q[3]) == Some([a, b, c])
  {
    var x, y, z := a as int, b as int, c as int;
    SextetRoundTrip(x / 4);
    SextetRoundTrip(x % 4 * 16 + y / 16);
    SextetRoundTrip(y % 16 * 4 + z / 64);
    SextetRoundTrip(z % 64);
    FullQuadArith(x, y, z);
  }

  /** Decoding the group of one trailing byte gives that byte back. */
  lemma DecodePadOne(a: byte)
    ensures var q := PadOne(a); DecodeQuad(q[0], q[1], q[2], q[3]) == Some([a])
  {
    var x := a as int;
    SextetRoundTrip(x / 4);
    SextetRoundTrip(x % 4 * 16);
    FullQuadArith(x, 0, 0);
  }

  /** Decoding the group of two trailing bytes gives those bytes back. */
  lemma DecodePadTwo(a: byte, b: byte)
    ensures var q := PadTwo(a, b); DecodeQuad(q[0], q[1], q[2], q[3]) == Some([a, b])
  {
    var x, y := a as int, b as int;
    SextetRoundTrip(x / 4);
    SextetRoundTrip(x % 4 * 16 + y / 16);
    SextetRoundTrip(y % 16 * 4);
    FullQuadArith(x, y, 0);
  }

  /** A last group of four characters decodes as that group alone. */
  lemma DecodeLastGroup(e: string, head: seq<byte>)
    requires |e| == 4 && DecodeQuad(e[0], e[1], e[2], e[3]) == Some(head)
    ensures Base64Decode(e) == Some(head)
  {
    assert e[4..] == [];
    assert head + [] == head;
  }

  /** A group of four characters in front of decodable text decodes group by group. */
  lemma DecodeGroupThen(q: string, rest: string, head: seq<byte>, tail: seq<byte>)
    requires |q| == 4 && DecodeQuad(q[0], q[1], q[2], q[3]) == Some(head)
    requires Base64Decode(rest) == Some(tail)
    ensures Base64Decode(q + rest) == Some(head + tail)
  {
    var e := q + rest;
    assert e[0] == q[0] && e[1] == q[1] && e[2] == q[2] && e[3] == q[3];
    assert e[4..] == rest;
  }

  /** One or two trailing bytes encode to one padded group that decodes back to them. */
  lemma RoundTripShort(bs: seq<byte>)
    requires 1 <= |bs| <= 2
    ensures Base64Decode(Base64(bs)) == Some(bs)
  {
    if |bs| == 1 {
      DecodePadOne(bs[0]);
      assert [bs[0]] == bs;
      DecodeLastGroup(PadOne(bs[0]), bs);
    } else {
      DecodePadTwo(bs[0], bs[1]);
      assert [bs[0], bs[1]] == bs;
      DecodeLastGroup(PadTwo(bs[0], bs[1]), bs);
    }
  }

  /** A sequence of at least three elements is its first three followed by the rest. */
  lemma FirstThree<T>(s: seq<T>)
    requires |s| > 2
    ensures s == [s[0], s[1], s[2]] + s[3..]
  {
  }

  /** A full leading group decodes to its three bytes in front of the decoded rest. */
  lemma RoundTripFullGroup(bs: seq<byte>)
    requires |bs| > 2 && Base64Decode(Base64(bs[3..])) == Some(bs[3..])
    ensures Base64Decode(Base64(bs)) == Some(bs)
  {
    assert Base64(bs) == Quad(bs[0], bs[1], bs[2]) + Base64(bs[3..]);
    DecodeQuadOf(bs[0], bs[1], bs[2]);
    DecodeGroupThen(Quad(bs[0], bs[1], bs[2]), Base64(bs[3..]), [bs[0], bs[1], bs[2]], bs[3..]);
    FirstThree(bs);
  }

  /** Base64 decoding inverts base64 encoding. */
  lemma {:induction false} Base64RoundTrip(bs: seq<byte>)
    ensures Base64Decode(Base64(bs)) == Some(bs)
  {
    if 1 <= |bs| <= 2 {
      RoundTripShort(bs);
    } else if |bs| > 2 {
      Base64RoundTrip(bs[3..]);
      RoundTripFullGroup(bs);
    }
  }

  /**
   * `_get_auth_headers`: without a token (none, or the empty string)
   * AuthenticationError; otherwise Basic credentials for the user ""
   * and the token, and a JSON content type.
   */
  function AuthHeaders(token: Option<string>): (r: Result<Headers, ServiceError>)
    ensures r.Failure? <==> token.None? || token.value == []
    ensures r.Failure? ==> r.error == AuthenticationError(NoTokenMessage)
    ensures r.Success? ==> r.value.contentType == "application/json"
  {
    if token.None? || token.value == [] then Failure(AuthenticationError(NoTokenMessage))
    else Success(Headers("Basic " + Base64(Utf8(":" + token.value)), "application/json"))
  }

  /** The authorization header carries exactly the UTF-8 bytes of ":" and the token. */
  lemma AuthHeadersCarryToken(token: string)
    requires token != []
    ensures var h := AuthHeaders(Some(token)).value.authorization;
            |h| >= 6 && h[..6] == "Basic " && Base64Decode(h[6..]) == Some(Utf8(":" + token))
  {
    Base64RoundTrip(Utf8(":" + token));
    var h := AuthHeaders(Some(token)).value.authorization;
    assert h[6..] == Base64(Utf8(":" + token));
  }
}
