/** `encodeURI` as ECMAScript defines it (the Encode operation of ECMA-262,
    section "encodeURI (uri)"): a character in the unescaped set is kept, any
    other is written as the percent-escaped bytes of its UTF-8 encoding, with
    upper-case hexadecimal digits. A decoder is given as its inverse, so that
    an encoded string determines the string it came from. */
module UriEncoding {
  import opened JsValues

  type Byte = b: int | 0 <= b < 256

  /** The characters `encodeURI` leaves as they are: letters, digits, the marks
      `-_.!~*'()`, the reserved characters `;/?:@&=+$,` and `#`. */
  predicate Unescaped(c: char) {
    ('a' <= c <= 'z') || ('A' <= c <= 'Z') || ('0' <= c <= '9') || c in "-_.!~*'();/?:@&=+$,#"
  }

  /** The upper-case hexadecimal digit for `d`. */
  function HexDigit(d: int): (c: char)
    requires 0 <= d < 16
    ensures ('0' <= c <= '9') || ('A' <= c <= 'F')
  {
    if d < 10 then ('0' as int + d) as char else ('A' as int + d - 10) as char
  }

  /** `%XY` for one byte. */
  function PercentByte(b: Byte): (r: string)
    ensures |r| == 3 && r[0] == '%'
    ensures forall i :: 0 <= i < |r| ==> EncodedChar(r[i])
  {
    ['%', HexDigit(b / 16), HexDigit(b % 16)]
  }

  function PercentBytes(bs: seq<Byte>): (r: string)
    ensures |r| == 3 * |bs|
    ensures forall i :: 0 <= i < |r| ==> EncodedChar(r[i])
  {
    if bs == [] then [] else PercentByte(bs[0]) + PercentBytes(bs[1..])
  }

  /** The UTF-8 encoding of a Unicode scalar value. */
  function Utf8(c: char): (bs: seq<Byte>)
    ensures 1 <= |bs| <= 4
  {
    var cp := c as int;
    if cp < 0x80 then [cp]
    else if cp < 0x800 then [0xC0 + cp / 64, 0x80 + cp % 64]
    else if cp < 0x10000 then [0xE0 + cp / 4096, 0x80 + (cp / 64) % 64, 0x80 + cp % 64]
    else [0xF0 + cp / 262144, 0x80 + (cp / 4096) % 64, 0x80 + (cp / 64) % 64, 0x80 + cp % 64]
  }

  /** The characters an encoded string is made of. */
  predicate EncodedChar(c: char) {
    Unescaped(c) || c == '%'
  }

  function EncodeChar(c: char): (r: string)
    ensures |r| > 0
    ensures forall i :: 0 <= i < |r| ==> EncodedChar(r[i])
  {
    if Unescaped(c) then [c] else PercentBytes(Utf8(c))
  }

  /** `encodeURI(s)`. Dafny characters are Unicode scalar values, so the
      `URIError` ECMAScript raises for a lone surrogate cannot arise. */
  function EncodeURI(s: string): (r: string)
    ensures |r| >= |s|
    ensures forall i :: 0 <= i < |r| ==> EncodedChar(r[i])
  {
    if s == [] then [] else EncodeChar(s[0]) + EncodeURI(s[1..])
  }

  /** Encoding works character by character. */
  lemma {:induction false} EncodeURIAppend(a: string, b: string)
    ensures EncodeURI(a + b) == EncodeURI(a) + EncodeURI(b)
  {
    if a == [] {
      assert a + b == b;
    } else {
      assert (a + b)[0] == a[0];
      assert (a + b)[1..] == a[1..] + b;
      EncodeURIAppend(a[1..], b);
    }
  }

  /** A string made only of unescaped characters comes out unchanged. */
  lemma {:induction false} EncodeURIKeepsUnescaped(s: string)
    requires forall i :: 0 <= i < |s| ==> Unescaped(s[i])
    ensures EncodeURI(s) == s
  {
    if s != [] {
      EncodeURIKeepsUnescaped(s[1..]);
    }
  }

  /** A space becomes `%20`. */
  lemma EncodeSpace()
    ensures EncodeURI(" ") == "%20"
  {
  }

  // ---- the inverse ----

  function HexValue(c: char): Option<int> {
    if '0' <= c <= '9' then Some(c as int - '0' as int)
    else if 'A' <= c <= 'F' then Some(c as int - 'A' as int + 10)
    else if 'a' <= c <= 'f' then Some(c as int - 'a' as int + 10)
    else None
  }

  /** The byte written as `%XY` at the front of `s`. */
  function ParseByte(s: string): Option<Byte> {
    if |s| >= 3 && s[0] == '%' && HexValue(s[1]).Some? && HexValue(s[2]).Some?
       && 0 <= HexValue(s[1]).value < 16 && 0 <= HexValue(s[2]).value < 16
    then Some(HexValue(s[1]).value * 16 + HexValue(s[2]).value)
    else None
  }

  /** `n` percent-escaped bytes at the front of `s`. */
  function ParseBytes(s: string, n: nat): Option<seq<Byte>>
    decreases n
  {
    if n == 0 then Some([])
    else
      match ParseByte(s)
      case None => None
      case Some(b) =>
        match ParseBytes(s[3..], n - 1)
        case None => None
        case Some(bs) => Some([b] + bs)
  }

  /** How many bytes a UTF-8 sequence has, read off its first byte (0 if none). */
  function Utf8Length(b: Byte): nat {
    if b < 0x80 then 1
    else if 0xC0 <= b < 0xE0 then 2
    else if 0xE0 <= b < 0xF0 then 3
    else if 0xF0 <= b < 0xF8 then 4
    else 0
  }

  predicate IsScalar(cp: int) {
    (0 <= cp < 0xD800) || (0xE000 <= cp < 0x11_0000)
  }

  /** The code point a UTF-8 sequence of one to four bytes spells. */
  function Utf8Value(bs: seq<Byte>): int
    requires 1 <= |bs| <= 4
  {
    var b0: int := bs[0];
    if |bs| == 1 then b0
    else
      var b1: int := bs[1];
      if |bs| == 2 then (b0 - 0xC0) * 64 + (b1 - 0x80)
      else
        var b2: int := bs[2];
        if |bs| == 3 then (b0 - 0xE0) * 4096 + (b1 - 0x80) * 64 + (b2 - 0x80)
        else
          var b3: int := bs[3];
          (b0 - 0xF0) * 262144 + (b1 - 0x80) * 4096 + (b2 - 0x80) * 64 + (b3 - 0x80)
  }

  function Cons(c: char, rest: Option<string>): Option<string> {
    match rest
    case None => None
    case Some(t) => Some([c] + t)
  }

  /** Percent-decoding followed by UTF-8 decoding; `None` on malformed input. */
  function PercentDecode(s: string): Option<string>
    decreases |s|
  {
    if s == [] then Some([])
    else if s[0] != '%' then Cons(s[0], PercentDecode(s[1..]))
    else
      match ParseByte(s)
      case None => None
      case Some(lead) =>
        var n := Utf8Length(lead);
        if n == 0 || |s| < 3 * n then None
        else
          match ParseBytes(s, n)
          case None => None
          case Some(bs) =>
            if |bs| == n && IsScalar(Utf8Value(bs))
            then Cons(Utf8Value(bs) as char, PercentDecode(s[3 * n..]))
            else None
  }

  lemma ParsePercentByte(b: Byte, rest: string)
    ensures ParseByte(PercentByte(b) + rest) == Some(b)
  {
  }

  lemma {:induction false} ParsePercentBytes(bs: seq<Byte>, rest: string)
    ensures ParseBytes(PercentBytes(bs) + rest, |bs|) == Some(bs)
  {
    if bs != [] {
      var s := PercentBytes(bs) + rest;
      assert s == PercentByte(bs[0]) + (PercentBytes(bs[1..]) + rest);
      ParsePercentByte(bs[0], PercentBytes(bs[1..]) + rest);
      assert s[3..] == PercentBytes(bs[1..]) + rest;
      ParsePercentBytes(bs[1..], rest);
      assert [bs[0]] + bs[1..] == bs;
    }
  }

  /** UTF-8 decoding undoes UTF-8 encoding, and the first byte announces the length. */
  lemma Utf8RoundTrip(c: char)
    ensures Utf8Length(Utf8(c)[0]) == |Utf8(c)|
    ensures Utf8Value(Utf8(c)) == c as int
  {
    var cp := c as int;
    if 0x800 <= cp < 0x10000 {
      assert cp / 64 / 64 == cp / 4096;
    } else if 0x10000 <= cp {
      assert cp / 64 / 64 == cp / 4096;
      assert cp / 4096 / 64 == cp / 262144;
    }
  }

  lemma DecodeEncodeChar(c: char, rest: string)
    ensures PercentDecode(EncodeChar(c) + rest) == Cons(c, PercentDecode(rest))
  {
    if Unescaped(c) {
      var s := EncodeChar(c) + rest;
      assert s[0] == c && s[1..] == rest;
    } else {
      DecodeEscapedChar(c, rest);
    }
  }

  lemma DecodeEscapedChar(c: char, rest: string)
    requires !Unescaped(c)
    ensures PercentDecode(PercentBytes(Utf8(c)) + rest) == Cons(c, PercentDecode(rest))
  {
    var bs := Utf8(c);
    var n := |bs|;
    var s := PercentBytes(bs) + rest;
    Utf8RoundTrip(c);
    ParsePercentBytes(bs, rest);
    assert PercentBytes(bs) == PercentByte(bs[0]) + PercentBytes(bs[1..]);
    ParsePercentByte(bs[0], PercentBytes(bs[1..]) + rest);
    assert s == PercentByte(bs[0]) + (PercentBytes(bs[1..]) + rest);
    assert s != [] && s[0] == '%';
    assert ParseByte(s) == Some(bs[0]);
    assert Utf8Length(bs[0]) == n && |s| >= 3 * n;
    assert ParseBytes(s, n) == Some(bs);
    assert IsScalar(Utf8Value(bs));
    assert s[3 * n..] == rest;
  }

  /** Decoding inverts `encodeURI`. */
  lemma {:induction false} DecodeEncodeURI(s: string)
    ensures PercentDecode(EncodeURI(s)) == Some(s)
  {
    if s != [] {
      DecodeEncodeURI(s[1..]);
      DecodeEncodeChar(s[0], EncodeURI(s[1..]));
      assert [s[0]] + s[1..] == s;
    }
  }

  /** So `encodeURI` never maps two strings to the same result. */
  lemma EncodeURIInjective(a: string, b: string)
    requires EncodeURI(a) == EncodeURI(b)
    ensures a == b
  {
    DecodeEncodeURI(a);
    DecodeEncodeURI(b);
  }
}
