/** Percent-encoding of URI components (section 2.1 of RFC 3986) as the two
    encoders in this system perform it, the matching decoder, and the UTF-8
    encoding and decoding (RFC 3629) applied around escaping. */
module UriText {
  import opened Text

  predicate IsHexDigit(c: char)
  {
    '0' <= c <= '9' || 'a' <= c <= 'f' || 'A' <= c <= 'F'
  }

  function HexVal(c: char): (v: nat)
    requires IsHexDigit(c)
    ensures v < 16
  {
    if '0' <= c <= '9' then c as int - '0' as int
    else if 'a' <= c <= 'f' then c as int - 'a' as int + 10
    else c as int - 'A' as int + 10
  }

  /** Upper-case hexadecimal digit, as both encoders emit. */
  function HexDigit(n: nat): (c: char)
    requires n < 16
    ensures IsHexDigit(c) && HexVal(c) == n
    ensures '0' <= c <= '9' || 'A' <= c <= 'F'
  {
    if n < 10 then ('0' as int + n) as char else ('A' as int + n - 10) as char
  }

  /** UTF-8 encoding of one Unicode scalar value (RFC 3629, section 3). */
  function Utf8Char(c: char): (bytes: seq<Byte>)
    ensures 1 <= |bytes| <= 4
    ensures |bytes| == 1 <==> c as int < 0x80
    ensures c as int < 0x80 ==> bytes == [c as int]
    ensures c as int >= 0x80 ==> forall i :: 0 <= i < |bytes| ==> bytes[i] >= 0x80
  {
    var n := c as int;
    if n < 0x80 then [n]
    else if n < 0x800 then [0xC0 + n / 64, 0x80 + n % 64]
    else if n < 0x10000 then [0xE0 + n / 4096, 0x80 + (n / 64) % 64, 0x80 + n % 64]
    else [0xF0 + n / 262144, 0x80 + (n / 4096) % 64, 0x80 + (n / 64) % 64, 0x80 + n % 64]
  }

  function Utf8(s: string): (bytes: seq<Byte>)
    ensures |bytes| >= |s|
    ensures (forall i :: 0 <= i < |s| ==> s[i] as int < 0x80) ==> |bytes| == |s|
  {
    if |s| == 0 then [] else Utf8Char(s[0]) + Utf8(s[1..])
  }

  lemma Utf8Append(a: string, b: string)
    ensures Utf8(a + b) == Utf8(a) + Utf8(b)
  {
    if |a| == 0 {
      assert a + b == b;
    } else {
      assert (a + b)[0] == a[0];
      assert (a + b)[1..] == a[1..] + b;
      Utf8Append(a[1..], b);
    }
  }

  /** Number of UTF-16 code units of `s`: characters above U+FFFF take two. */
  function Utf16Length(s: string): (n: nat)
    ensures |s| <= n <= 2 * |s|
  {
    if |s| == 0 then 0 else (if s[0] as int >= 0x10000 then 2 else 1) + Utf16Length(s[1..])
  }

  /** Which characters an encoder leaves as they are. */
  datatype Encoder =
    | DataString     // .NET `Uri.EscapeDataString`
    | UriComponent   // JavaScript `encodeURIComponent`

  predicate IsAsciiAlphaNum(c: char)
  {
    'a' <= c <= 'z' || 'A' <= c <= 'Z' || '0' <= c <= '9'
  }

  /** RFC 3986 unreserved characters for `EscapeDataString`; `encodeURIComponent`
      additionally keeps the marks `! * ' ( )`. */
  predicate Unreserved(e: Encoder, c: char)
  {
    IsAsciiAlphaNum(c) || c in "-_.~" || (e == UriComponent && c in "!*'()")
  }

  function PercentByte(b: Byte): string
  {
    ['%', HexDigit(b / 16), HexDigit(b % 16)]
  }

  function PercentBytes(bytes: seq<Byte>): (r: string)
    ensures |r| == 3 * |bytes|
  {
    if |bytes| == 0 then "" else PercentByte(bytes[0]) + PercentBytes(bytes[1..])
  }

  function EscapeChar(e: Encoder, c: char): string
  {
    if Unreserved(e, c) then [c] else PercentBytes(Utf8Char(c))
  }

  /** Every character outside the unreserved set becomes `%HH` per UTF-8 byte. */
  function PercentEncode(e: Encoder, s: string): string
  {
    if |s| == 0 then "" else EscapeChar(e, s[0]) + PercentEncode(e, s[1..])
  }

  function EscapeDataString(s: string): string
  {
    PercentEncode(DataString, s)
  }

  function EncodeUriComponent(s: string): string
  {
    PercentEncode(UriComponent, s)
  }

  /** A character an encoder may emit: an unreserved one, `%`, or an upper-case hex digit. */
  predicate Emitted(e: Encoder, c: char)
  {
    Unreserved(e, c) || c == '%' || 'A' <= c <= 'F' || '0' <= c <= '9'
  }

  lemma {:induction false} PercentBytesAlphabet(e: Encoder, bytes: seq<Byte>)
    ensures forall i :: 0 <= i < |PercentBytes(bytes)| ==> Emitted(e, PercentBytes(bytes)[i])
  {
    if |bytes| > 0 {
      PercentBytesAlphabet(e, bytes[1..]);
    }
  }

  /** The encoded text only holds unreserved characters, `%` and upper-case hex
      digits; in particular no `&`, `=`, `+`, `#`, `?` or space. */
  lemma {:induction false} EncodedAlphabet(e: Encoder, s: string)
    ensures forall i :: 0 <= i < |PercentEncode(e, s)| ==> Emitted(e, PercentEncode(e, s)[i])
  {
    if |s| > 0 {
      PercentBytesAlphabet(e, Utf8Char(s[0]));
      EncodedAlphabet(e, s[1..]);
    }
  }

  /** Text made of unreserved characters only is left unchanged. */
  lemma {:induction false} EncodeUnreservedIdentity(e: Encoder, s: string)
    requires forall i :: 0 <= i < |s| ==> Unreserved(e, s[i])
    ensures PercentEncode(e, s) == s
  {
    if |s| > 0 {
      EncodeUnreservedIdentity(e, s[1..]);
    }
  }

  lemma PercentEncodeAppend(e: Encoder, a: string, b: string)
    ensures PercentEncode(e, a + b) == PercentEncode(e, a) + PercentEncode(e, b)
  {
    if |a| == 0 {
      assert a + b == b;
    } else {
      assert (a + b)[0] == a[0];
      assert (a + b)[1..] == a[1..] + b;
      PercentEncodeAppend(e, a[1..], b);
    }
  }

  /** The byte a leading `%HH` triple stands for. */
  function EscapeAt(s: string): (b: Option<Byte>)
    ensures b.Some? ==> |s| >= 3
  {
    if |s| >= 3 && s[0] == '%' && IsHexDigit(s[1]) && IsHexDigit(s[2]) then Some(16 * HexVal(s[1]) + HexVal(s[2]))
    else None
  }

  /** The bytes of the first `n` `%HH` triples, when `s` starts with that many. */
  function EscapedBytes(s: string, n: nat): (bytes: Option<seq<Byte>>)
    ensures bytes.Some? ==> |bytes.value| == n && 3 * n <= |s|
    ensures bytes.Some? && n > 0 ==> EscapeAt(s) == Some(bytes.value[0])
  {
    if n == 0 then Some([])
    else match EscapeAt(s)
      case None => None
      case Some(b) =>
        match EscapedBytes(s[3..], n - 1)
        case None => None
        case Some(rest) => Some([b] + rest)
  }

  /** The length of the UTF-8 sequence a lead byte announces; 0 for a byte
      that cannot start one. */
  function Utf8Length(lead: Byte): (n: nat)
    ensures n <= 4
  {
    if lead < 0x80 then 1
    else if 0xC0 <= lead < 0xE0 then 2
    else if 0xE0 <= lead < 0xF0 then 3
    else if 0xF0 <= lead < 0xF8 then 4
    else 0
  }

  predicate IsContinuation(b: Byte)
  {
    0x80 <= b < 0xC0
  }

  /** The character a well-formed UTF-8 sequence encodes (RFC 3629,
      section 3): overlong forms, surrogates and values above U+10FFFF are
      ill-formed. */
  function Utf8Decode(bytes: seq<Byte>): Option<char>
  {
    if |bytes| == 0 || |bytes| > 4 then None
    else
      var b: seq<int> := bytes;
      if |b| == 1 && b[0] < 0x80 then Some(b[0] as char)
      else if |b| == 2 && 0xC0 <= b[0] < 0xE0 && IsContinuation(b[1]) then
        var v := (b[0] - 0xC0) * 64 + (b[1] - 0x80);
        if v >= 0x80 then Some(v as char) else None
      else if |b| == 3 && 0xE0 <= b[0] < 0xF0 && IsContinuation(b[1]) && IsContinuation(b[2]) then
        var v := (b[0] - 0xE0) * 4096 + (b[1] - 0x80) * 64 + (b[2] - 0x80);
        if v >= 0x800 && !(0xD800 <= v < 0xE000) then Some(v as char) else None
      else if |b| == 4 && 0xF0 <= b[0] < 0xF8 && IsContinuation(b[1]) && IsContinuation(b[2])
              && IsContinuation(b[3]) then
        var v := (b[0] - 0xF0) * 262144 + (b[1] - 0x80) * 4096 + (b[2] - 0x80) * 64 + (b[3] - 0x80);
        if 0x10000 <= v < 0x110000 then Some(v as char) else None
      else None
  }

  /** The character a run of escapes at the start of `s` decodes to, and
      how many characters of `s` it takes. */
  function DecodeAt(s: string): (r: Option<(char, nat)>)
    ensures r.Some? ==> 3 <= r.value.1 <= |s|
  {
    match EscapeAt(s)
    case None => None
    case Some(lead) =>
      var n := Utf8Length(lead);
      if n == 0 then None
      else match EscapedBytes(s, n)
        case None => None
        case Some(bytes) =>
          match Utf8Decode(bytes)
          case None => None
          case Some(c) => Some((c, 3 * n))
  }

  /** Percent-decoding as `Uri.UnescapeDataString` performs it: a run of
      escapes forming one well-formed UTF-8 sequence becomes its character;
      any other `%` is copied, so ill-formed escapes stay escaped. `+`
      stays `+`. */
  function UnescapeDataString(s: string): string
  {
    if |s| == 0 then ""
    else match DecodeAt(s)
      case Some((c, n)) => [c] + UnescapeDataString(s[n..])
      case None => [s[0]] + UnescapeDataString(s[1..])
  }

  predicate IsAscii(s: string)
  {
    forall i :: 0 <= i < |s| ==> s[i] as int < 0x80
  }

  /** An escaped ASCII character is one `%HH` triple. */
  lemma EscapedAscii(e: Encoder, c: char)
    requires c as int < 0x80 && !Unreserved(e, c)
    ensures EscapeChar(e, c) == ['%', HexDigit(c as int / 16), HexDigit(c as int % 16)]
  {
    assert Utf8Char(c) == [c as int];
    assert PercentBytes([c as int]) == PercentByte(c as int) + PercentBytes([]);
  }

  /** The escapes of some bytes read back as those bytes, whatever follows. */
  lemma {:induction false} EscapedBytesOfPercent(bytes: seq<Byte>, rest: string)
    ensures EscapedBytes(PercentBytes(bytes) + rest, |bytes|) == Some(bytes)
  {
    if |bytes| > 0 {
      var s := PercentBytes(bytes) + rest;
      assert s == PercentByte(bytes[0]) + (PercentBytes(bytes[1..]) + rest);
      assert s[3..] == PercentBytes(bytes[1..]) + rest;
      assert EscapeAt(s) == Some(bytes[0]);
      EscapedBytesOfPercent(bytes[1..], rest);
      assert [bytes[0]] + bytes[1..] == bytes;
    }
  }

  /** Decoding the UTF-8 bytes of a character gives the character back, and
      the lead byte announces their number. */
  lemma Utf8RoundTrip(c: char)
    ensures Utf8Length(Utf8Char(c)[0]) == |Utf8Char(c)|
    ensures Utf8Decode(Utf8Char(c)) == Some(c)
  {
    var n := c as int;
    var q := n / 64;
    assert n == 64 * q + n % 64;
    if 0x800 <= n {
      assert q == 64 * (q / 64) + q % 64;
      assert n / 4096 == q / 64;
    }
    if 0x10000 <= n {
      var p := q / 64;
      assert p == 64 * (p / 64) + p % 64;
      assert n / 262144 == p / 64;
      assert (n / 4096) % 64 == p % 64;
    }
  }

  /** One encoded character followed by more text decodes to that character first. */
  lemma UnescapeStep(e: Encoder, c: char, rest: string)
    ensures UnescapeDataString(EscapeChar(e, c) + rest) == [c] + UnescapeDataString(rest)
  {
    var t := EscapeChar(e, c) + rest;
    if Unreserved(e, c) {
      assert t[1..] == rest;
      assert EscapeAt(t) == None;
    } else {
      var bytes := Utf8Char(c);
      Utf8RoundTrip(c);
      EscapedBytesOfPercent(bytes, rest);
      assert t[0] == '%' && t[1] == HexDigit(bytes[0] / 16) && t[2] == HexDigit(bytes[0] % 16);
      assert EscapeAt(t) == Some(bytes[0]);
      assert DecodeAt(t) == Some((c, 3 * |bytes|));
      assert t[3 * |bytes|..] == rest;
    }
  }

  /** Decoding undoes either encoder, on any text. */
  lemma {:induction false} UnescapeEncodeRoundTrip(e: Encoder, s: string)
    ensures UnescapeDataString(PercentEncode(e, s)) == s
  {
    if |s| > 0 {
      UnescapeStep(e, s[0], PercentEncode(e, s[1..]));
      UnescapeEncodeRoundTrip(e, s[1..]);
      assert [s[0]] + s[1..] == s;
    }
  }

  /** An ill-formed escape is left as it is: `%E9` (Latin-1 for é) is not
      UTF-8 and survives decoding, while `%C3%A9` becomes é. */
  lemma IllFormedStaysEscaped()
    ensures UnescapeDataString("%E9") == "%E9"
    ensures UnescapeDataString("%C3%A9") == "\U{E9}"
  {
    assert DecodeAt("%E9") == None;
    assert UnescapeDataString("E9") == "E9" by {
      assert UnescapeDataString("9") == "9";
    }
    var s := "%C3%A9";
    assert EscapeAt(s) == Some(0xC3);
    assert s[3..] == "%A9";
    assert EscapeAt(s[3..]) == Some(0xA9);
    assert s[3..][3..] == "";
    var tail: seq<Byte> := [0xA9];
    assert EscapedBytes(s[3..][3..], 0) == Some([]);
    assert tail + [] == tail;
    assert EscapedBytes(s[3..], 1) == Some(tail);
    var bytes: seq<Byte> := [0xC3, 0xA9];
    assert bytes == [0xC3] + [0xA9];
    assert EscapedBytes(s, 2) == Some(bytes);
    assert Utf8Decode(bytes) == Some('\U{E9}');
    assert DecodeAt(s) == Some(('\U{E9}', 6));
    assert s[6..] == "";
  }
}
