/** JavaScript's `encodeURIComponent` (section 19.2.6.5 of ECMA-262), which
    `buildQueryString` applies to every key and value: characters outside
    `A-Z a-z 0-9 - _ . ! ~ * ' ( )` become the `%XX` escapes of their UTF-8
    octets (section 2.1 of RFC 3986), hex digits upper-case. A decoder is the
    partner: it recovers the exact string from its encoding. */
module UriEncoding {
  import opened Text

  newtype byte = x: int | 0 <= x < 256

  /** The characters encodeURIComponent leaves as they are. */
  predicate IsUnreserved(c: char)
  {
    ('A' <= c <= 'Z') || ('a' <= c <= 'z') || ('0' <= c <= '9') ||
    c == '-' || c == '_' || c == '.' || c == '!' || c == '~' || c == '*' ||
    c == '\'' || c == '(' || c == ')'
  }

  /** The UTF-8 octets of one Unicode scalar value. */
  function Utf8Char(c: char): (bs: seq<byte>)
    ensures 1 <= |bs| <= 4
    ensures (c as int < 0x80) <==> |bs| == 1
  {
    var cp := c as int;
    if cp < 0x80 then [cp as byte]
    else if cp < 0x800 then [(0xC0 + cp / 64) as byte, (0x80 + cp % 64) as byte]
    else if cp < 0x10000 then
      [(0xE0 + cp / 4096) as byte, (0x80 + cp / 64 % 64) as byte, (0x80 + cp % 64) as byte]
    else
      [(0xF0 + cp / 262144) as byte, (0x80 + cp / 4096 % 64) as byte,
       (0x80 + cp / 64 % 64) as byte, (0x80 + cp % 64) as byte]
  }

  /** The UTF-8 encoding of a whole string. */
  function Utf8(s: string): seq<byte>
  {
    if s == [] then [] else Utf8Char(s[0]) + Utf8(s[1..])
  }

  function HexDigit(n: int): (c: char)
    requires 0 <= n < 16
    ensures IsUnreserved(c)
  {
    "0123456789ABCDEF"[n]
  }

  /** `%XX` for every octet. */
  function PercentEscapes(bs: seq<byte>): (r: string)
    ensures |r| == 3 * |bs|
  {
    if bs == [] then []
    else ['%', HexDigit(bs[0] as int / 16), HexDigit(bs[0] as int % 16)] + PercentEscapes(bs[1..])
  }

  /** Only unreserved characters and `%`. */
  predicate UriSafe(r: string)
  {
    forall i :: 0 <= i < |r| ==> IsUnreserved(r[i]) || r[i] == '%'
  }

  lemma SafeConcat(a: string, b: string)
    requires UriSafe(a) && UriSafe(b)
    ensures UriSafe(a + b)
  {
    assert forall i :: 0 <= i < |a + b| ==> (a + b)[i] == if i < |a| then a[i] else b[i - |a|];
  }

  lemma {:induction false} PercentEscapesSafe(bs: seq<byte>)
    ensures UriSafe(PercentEscapes(bs))
  {
    if bs != [] {
      PercentEscapesSafe(bs[1..]);
      var head := ['%', HexDigit(bs[0] as int / 16), HexDigit(bs[0] as int % 16)];
      SafeConcat(head, PercentEscapes(bs[1..]));
    }
  }

  function EncodeChar(c: char): (r: string)
    ensures UriSafe(r)
    ensures IsUnreserved(c) ==> r == [c]
  {
    if IsUnreserved(c) then [c]
    else
      PercentEscapesSafe(Utf8Char(c));
      PercentEscapes(Utf8Char(c))
  }

  /** encodeURIComponent: the encoding uses only unreserved characters and
      `%`, so it never contains the `&`, `=` and `?` that delimit a query. */
  function EncodeURIComponent(s: string): (r: string)
    ensures UriSafe(r)
    ensures '&' !in r && '=' !in r && '?' !in r
    ensures (forall i :: 0 <= i < |s| ==> IsUnreserved(s[i])) ==> r == s
  {
    if s == [] then []
    else
      var head, tail := EncodeChar(s[0]), EncodeURIComponent(s[1..]);
      SafeConcat(head, tail);
      assert !IsUnreserved('&') && !IsUnreserved('=') && !IsUnreserved('?');
      head + tail
  }

  // ---------------------------------------------------------------------
  // The decoding partner.

  function HexValue(c: char): (v: Option<int>)
    ensures v.Some? ==> 0 <= v.value < 16
  {
    if '0' <= c <= '9' then Some(c as int - '0' as int)
    else if 'A' <= c <= 'F' then Some(c as int - 'A' as int + 10)
    else if 'a' <= c <= 'f' then Some(c as int - 'a' as int + 10)
    else None
  }

  /** Turns `%XX` escapes and ASCII characters back into octets. */
  function PercentDecode(t: string): Option<seq<byte>>
  {
    if t == [] then Some([])
    else if t[0] == '%' then
      if |t| >= 3 && HexValue(t[1]).Some? && HexValue(t[2]).Some? then
        var rest := PercentDecode(t[3..]);
        if rest.Some? then Some([(HexValue(t[1]).value * 16 + HexValue(t[2]).value) as byte] + rest.value)
        else None
      else None
    else if t[0] as int < 0x80 then
      var rest := PercentDecode(t[1..]);
      if rest.Some? then Some([t[0] as int as byte] + rest.value) else None
    else None
  }

  function ScalarOf(cp: int): Option<char>
  {
    if 0 <= cp < 0xD800 || 0xE000 <= cp < 0x11_0000 then Some(cp as char) else None
  }

  predicate IsContinuation(b: byte)
  {
    0x80 <= b < 0xC0
  }

  /** Decodes one UTF-8 sequence at the front of `bs`: the character and how
      many octets it used; overlong forms and surrogates are refused. */
  function DecodeOne(bs: seq<byte>): Option<(char, nat)>
    requires |bs| >= 1
  {
    var b0 := bs[0] as int;
    if b0 < 0x80 then Some((b0 as char, 1))
    else if 0xC0 <= b0 < 0xE0 && |bs| >= 2 && IsContinuation(bs[1]) then
      var cp := (b0 - 0xC0) * 64 + (bs[1] as int - 0x80);
      if cp < 0x80 then None
      else match ScalarOf(cp) case Some(c) => Some((c, 2)) case None => None
    else if 0xE0 <= b0 < 0xF0 && |bs| >= 3 && IsContinuation(bs[1]) && IsContinuation(bs[2]) then
      var cp := (b0 - 0xE0) * 4096 + (bs[1] as int - 0x80) * 64 + (bs[2] as int - 0x80);
      if cp < 0x800 then None
      else match ScalarOf(cp) case Some(c) => Some((c, 3)) case None => None
    else if 0xF0 <= b0 < 0xF8 && |bs| >= 4 && IsContinuation(bs[1]) && IsContinuation(bs[2])
         && IsContinuation(bs[3]) then
      var cp := (b0 - 0xF0) * 262144 + (bs[1] as int - 0x80) * 4096
                + (bs[2] as int - 0x80) * 64 + (bs[3] as int - 0x80);
      if cp < 0x1_0000 then None
      else match ScalarOf(cp) case Some(c) => Some((c, 4)) case None => None
    else None
  }

  function Utf8Decode(bs: seq<byte>): Option<string>
    decreases |bs|
  {
    if bs == [] then Some("")
    else
      match DecodeOne(bs)
      case None => None
      case Some((c, n)) =>
        if 1 <= n <= |bs| then
          match Utf8Decode(bs[n..])
          case Some(rest) => Some([c] + rest)
          case None => None
        else None
  }

  /** decodeURIComponent restricted to what encodeURIComponent produces. */
  function DecodeURIComponent(t: string): Option<string>
  {
    match PercentDecode(t)
    case Some(bs) => Utf8Decode(bs)
    case None => None
  }

  // ---------------------------------------------------------------------
  // Round trip.

  lemma HexRoundTrip(n: int)
    requires 0 <= n < 16
    ensures HexValue(HexDigit(n)) == Some(n)
  {
  }

  lemma ConsAppend(bs: seq<byte>, r: seq<byte>)
    requires bs != []
    ensures [bs[0]] + (bs[1..] + r) == bs + r
  {
    assert bs == [bs[0]] + bs[1..];
  }

  lemma DecodeEscape(b: byte, tail: string, r: seq<byte>)
    requires PercentDecode(tail) == Some(r)
    ensures PercentDecode(['%', HexDigit(b as int / 16), HexDigit(b as int % 16)] + tail) == Some([b] + r)
  {
    var hi, lo := b as int / 16, b as int % 16;
    var t := ['%', HexDigit(hi), HexDigit(lo)] + tail;
    HexRoundTrip(hi);
    HexRoundTrip(lo);
    assert t[1] == HexDigit(hi) && t[2] == HexDigit(lo) && t[3..] == tail;
    assert (hi * 16 + lo) as byte == b;
  }

  lemma EscapesCons(bs: seq<byte>, rest: string)
    requires bs != []
    ensures PercentEscapes(bs) + rest ==
            ['%', HexDigit(bs[0] as int / 16), HexDigit(bs[0] as int % 16)] + (PercentEscapes(bs[1..]) + rest)
  {
  }

  lemma EscapeStep(bs: seq<byte>, rest: string, r: seq<byte>)
    requires bs != []
    requires PercentDecode(PercentEscapes(bs[1..]) + rest) == Some(bs[1..] + r)
    ensures PercentDecode(PercentEscapes(bs) + rest) == Some(bs + r)
  {
    EscapesCons(bs, rest);
    DecodeEscape(bs[0], PercentEscapes(bs[1..]) + rest, bs[1..] + r);
    ConsAppend(bs, r);
  }

  lemma {:induction false} PercentEscapesDecode(bs: seq<byte>, rest: string, r: seq<byte>)
    requires PercentDecode(rest) == Some(r)
    ensures PercentDecode(PercentEscapes(bs) + rest) == Some(bs + r)
  {
    if bs == [] {
      assert PercentEscapes(bs) + rest == rest;
      assert bs + r == r;
    } else {
      PercentEscapesDecode(bs[1..], rest, r);
      EscapeStep(bs, rest, r);
    }
  }

  lemma EncodeCharDecode(c: char, rest: string, r: seq<byte>)
    requires PercentDecode(rest) == Some(r)
    ensures PercentDecode(EncodeChar(c) + rest) == Some(Utf8Char(c) + r)
  {
    if IsUnreserved(c) {
      assert (EncodeChar(c) + rest)[1..] == rest;
    } else {
      PercentEscapesDecode(Utf8Char(c), rest, r);
    }
  }

  /** Percent-decoding an encoding gives the UTF-8 octets of the original. */
  lemma {:induction false} PercentDecodeEncode(s: string)
    ensures PercentDecode(EncodeURIComponent(s)) == Some(Utf8(s))
  {
    if s != [] {
      PercentDecodeEncode(s[1..]);
      EncodeCharDecode(s[0], EncodeURIComponent(s[1..]), Utf8(s[1..]));
    }
  }

  lemma DecodeTwo(c: char, rest: seq<byte>)
    requires 0x80 <= c as int < 0x800
    ensures DecodeOne(Utf8Char(c) + rest) == Some((c, 2))
  {
    var cp := c as int;
    var hi, lo := cp / 64, cp % 64;
    assert hi * 64 + lo == cp;
    var bs := Utf8Char(c) + rest;
    assert bs[0] as int == 0xC0 + hi && bs[1] as int == 0x80 + lo;
  }

  lemma DecodeThree(c: char, rest: seq<byte>)
    requires 0x800 <= c as int < 0x10000
    ensures DecodeOne(Utf8Char(c) + rest) == Some((c, 3))
  {
    var cp := c as int;
    var hi, mid, lo := cp / 4096, cp / 64 % 64, cp % 64;
    assert cp / 64 == hi * 64 + mid;
    assert hi * 4096 + mid * 64 + lo == cp;
    var bs := Utf8Char(c) + rest;
    assert bs[0] as int == 0xE0 + hi && bs[1] as int == 0x80 + mid && bs[2] as int == 0x80 + lo;
  }

  lemma DecodeFour(c: char, rest: seq<byte>)
    requires 0x10000 <= c as int
    ensures DecodeOne(Utf8Char(c) + rest) == Some((c, 4))
  {
    var cp := c as int;
    var top, hi, mid, lo := cp / 262144, cp / 4096 % 64, cp / 64 % 64, cp % 64;
    assert cp / 4096 == top * 64 + hi;
    assert cp / 64 == (cp / 4096) * 64 + mid;
    assert top * 262144 + hi * 4096 + mid * 64 + lo == cp;
    var bs := Utf8Char(c) + rest;
    assert bs[0] as int == 0xF0 + top && bs[1] as int == 0x80 + hi;
    assert bs[2] as int == 0x80 + mid && bs[3] as int == 0x80 + lo;
  }

  lemma DecodeOneChar(c: char, rest: seq<byte>)
    ensures DecodeOne(Utf8Char(c) + rest) == Some((c, |Utf8Char(c)|))
  {
    var cp := c as int;
    if cp < 0x80 {
    } else if cp < 0x800 {
      DecodeTwo(c, rest);
    } else if cp < 0x10000 {
      DecodeThree(c, rest);
    } else {
      DecodeFour(c, rest);
    }
  }

  lemma {:induction false} Utf8RoundTrip(s: string)
    ensures Utf8Decode(Utf8(s)) == Some(s)
  {
    if s != [] {
      var head := Utf8Char(s[0]);
      DecodeOneChar(s[0], Utf8(s[1..]));
      assert (head + Utf8(s[1..]))[|head|..] == Utf8(s[1..]);
      Utf8RoundTrip(s[1..]);
      assert [s[0]] + s[1..] == s;
    }
  }

  /** Decoding undoes encodeURIComponent exactly. */
  lemma DecodeEncode(s: string)
    ensures DecodeURIComponent(EncodeURIComponent(s)) == Some(s)
  {
    PercentDecodeEncode(s);
    Utf8RoundTrip(s);
  }

  /** Hence distinct strings have distinct encodings. */
  lemma EncodeInjective(a: string, b: string)
    requires EncodeURIComponent(a) == EncodeURIComponent(b)
    ensures a == b
  {
    DecodeEncode(a);
    DecodeEncode(b);
  }
}
