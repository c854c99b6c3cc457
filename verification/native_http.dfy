/** The hand-written HTTP/1.1 layer of the native Archicad add-on server:
    the request and response records, the request parser, the response
    serialiser and the percent-decoder of path arguments.  The message
    layout is a simplified form of sections 2.1, 3 and 4 of RFC 9112.

    Request text is the byte string received from the socket, one `char`
    per byte; it never holds a NUL because the server builds it from a
    NUL-terminated buffer. */
module NativeHttp {
  import opened Text
  import opened UriText

  /** A response before serialisation.  `binaryBody` is sent when `isBinary`. */
  datatype HttpResponse = HttpResponse(
    statusCode: int,
    contentType: string,
    body: string,
    binaryBody: seq<Byte>,
    isBinary: bool)

  /** A parsed request.  Headers are a map, so a name holds at most one value. */
  datatype HttpRequest = HttpRequest(
    httpMethod: string,
    path: string,
    body: string,
    headers: map<string, string>)

  /** The default-constructed response: 200, JSON, an empty text body. */
  function DefaultResponse(): (r: HttpResponse)
    ensures r.statusCode == 200 && r.contentType == "application/json"
    ensures !r.isBinary && r.body == "" && r.binaryBody == []
  {
    HttpResponse(200, "application/json", "", [], false)
  }

  /** A JSON error response whose body is `{"error":"<message>"}`. */
  function CreateErrorResponse(statusCode: int, message: string): (r: HttpResponse)
    ensures r.statusCode == statusCode && r.contentType == "application/json" && !r.isBinary
    ensures |r.body| == |message| + 12
    ensures StartsWith(r.body, "{\"error\":\"") && EndsWith(r.body, "\"}")
    ensures r.body[10..|r.body| - 2] == message
  {
    DefaultResponse().(statusCode := statusCode, body := "{\"error\":\"" + message + "\"}")
  }

  /** A 200 response carrying `json` as its text body. */
  function CreateJsonResponse(json: string): (r: HttpResponse)
    ensures r.statusCode == 200 && r.contentType == "application/json"
    ensures !r.isBinary && r.body == json
  {
    DefaultResponse().(body := json)
  }

  predicate NoNul(s: string)
  {
    forall i :: 0 <= i < |s| ==> s[i] != '\0'
  }

  /** The text a C string holds: everything before the first NUL. */
  function CStr(s: string): (r: string)
    ensures NoNul(r) && StartsWith(s, r)
    ensures NoNul(s) ==> r == s
  {
    var k := IndexOfCharFrom(s, '\0', 0);
    if k < 0 then s else s[..k]
  }

  // ---------------------------------------------------------------------
  // Percent-decoding

  /** White space as C's `isspace` sees it. */
  const CSpace: set<char> := {' ', '\t', '\n', '\U{000B}', '\U{000C}', '\r'}

  /** `strtol` in base 16 on the two characters after a `%`: leading white
      space, then an optional sign, then as many hex digits as there are;
      no digit at all reads as 0. */
  function StrtolHex2(a: char, b: char): (v: int)
    ensures -15 <= v <= 255
    ensures IsHexDigit(a) && IsHexDigit(b) ==> v == 16 * HexVal(a) + HexVal(b)
    ensures !IsHexDigit(a) && !IsHexDigit(b) ==> v == 0
  {
    if a in CSpace || a == '+' then (if IsHexDigit(b) then HexVal(b) else 0)
    else if a == '-' then (if IsHexDigit(b) then -(HexVal(b) as int) else 0)
    else if IsHexDigit(a) then (if IsHexDigit(b) then 16 * HexVal(a) + HexVal(b) else HexVal(a))
    else 0
  }

  /** The `char` cast of the parsed value: its low eight bits. */
  function EscapedByte(a: char, b: char): char
  {
    (StrtolHex2(a, b) % 256) as char
  }

  /** Decoding before the result is turned back into a C string: `%` with at
      least two characters after it takes three characters, `+` is a space,
      anything else is copied. */
  function UrlDecodeBytes(s: string): string
  {
    if |s| == 0 then ""
    else if s[0] == '%' && |s| > 2 then [EscapedByte(s[1], s[2])] + UrlDecodeBytes(s[3..])
    else if s[0] == '+' then " " + UrlDecodeBytes(s[1..])
    else [s[0]] + UrlDecodeBytes(s[1..])
  }

  /** Path-argument decoder; its result is cut at the first NUL it produced. */
  method UrlDecode(encoded: string) returns (decoded: string)
    ensures decoded == CStr(UrlDecodeBytes(encoded))
  {
    var result := "";
    var i := 0;
    while i < |encoded|
      invariant 0 <= i <= |encoded|
      invariant result + UrlDecodeBytes(encoded[i..]) == UrlDecodeBytes(encoded)
    {
      ghost var rest := encoded[i..];
      var piece: string;
      var step: nat;
      if encoded[i] == '%' && i + 2 < |encoded| {
        piece, step := [EscapedByte(encoded[i + 1], encoded[i + 2])], 3;
      } else if encoded[i] == '+' {
        piece, step := " ", 1;
      } else {
        piece, step := [encoded[i]], 1;
      }
      assert rest[step..] == encoded[i + step..];
      assert UrlDecodeBytes(rest) == piece + UrlDecodeBytes(rest[step..]);
      result := result + piece;
      i := i + step;
    }
    assert encoded[i..] == [];
    decoded := CStr(result);
  }

  /** Text without `%` or `+` decodes to itself. */
  lemma {:induction false} UrlDecodeIdentity(s: string)
    requires forall i :: 0 <= i < |s| ==> s[i] != '%' && s[i] != '+'
    ensures UrlDecodeBytes(s) == s
  {
    if |s| > 0 {
      UrlDecodeIdentity(s[1..]);
    }
  }

  /** A `%` followed by two hex digits becomes the byte they spell; a `%` with
      fewer than two characters after it is kept. */
  lemma UrlDecodeEscapes(a: char, b: char, rest: string)
    requires IsHexDigit(a) && IsHexDigit(b)
    ensures UrlDecodeBytes(['%', a, b] + rest)
         == [(16 * HexVal(a) + HexVal(b)) as char] + UrlDecodeBytes(rest)
    ensures UrlDecodeBytes("%") == "%" && UrlDecodeBytes(['%', a]) == ['%', a]
  {
    assert (['%', a, b] + rest)[3..] == rest;
    assert ['%', a][1..] == [a];
    assert UrlDecodeBytes([a]) == [a] + UrlDecodeBytes([]);
  }

  /** A malformed escape decodes to NUL and cuts off everything after it. */
  lemma UrlDecodeMalformedEscapeTruncates(prefix: string, rest: string)
    requires forall i :: 0 <= i < |prefix| ==> prefix[i] !in "%+\0"
    ensures CStr(UrlDecodeBytes(prefix + "%zz" + rest)) == prefix
  {
    UrlDecodePrefix(prefix, "%zz" + rest);
    assert prefix + "%zz" + rest == prefix + ("%zz" + rest);
    assert ("%zz" + rest)[3..] == rest;
    var d := UrlDecodeBytes(prefix + "%zz" + rest);
    assert d == prefix + ("\0" + UrlDecodeBytes(rest));
    assert d[|prefix|] == '\0';
  }

  lemma {:induction false} UrlDecodePrefix(prefix: string, rest: string)
    requires forall i :: 0 <= i < |prefix| ==> prefix[i] != '%' && prefix[i] != '+'
    ensures UrlDecodeBytes(prefix + rest) == prefix + UrlDecodeBytes(rest)
  {
    if |prefix| == 0 {
      assert prefix + rest == rest;
    } else {
      var s := prefix + rest;
      assert s[0] == prefix[0];
      assert s[1..] == prefix[1..] + rest;
      UrlDecodePrefix(prefix[1..], rest);
      assert UrlDecodeBytes(s) == [prefix[0]] + UrlDecodeBytes(s[1..]);
      assert [prefix[0]] + prefix[1..] == prefix;
    }
  }

  /** What a browser's `encodeURIComponent` produces for an ASCII argument
      without NUL, this decoder turns back into the same argument. */
  lemma {:induction false} UrlDecodeInvertsEncodeUriComponent(s: string)
    requires IsAscii(s) && NoNul(s)
    ensures CStr(UrlDecodeBytes(EncodeUriComponent(s))) == s
  {
    DecodeEncodeBytes(s);
  }

  lemma {:induction false} DecodeEncodeBytes(s: string)
    requires IsAscii(s)
    ensures UrlDecodeBytes(PercentEncode(UriComponent, s)) == s
  {
    if |s| > 0 {
      UrlDecodeStep(s[0], PercentEncode(UriComponent, s[1..]));
      DecodeEncodeBytes(s[1..]);
      assert [s[0]] + s[1..] == s;
    }
  }

  lemma UrlDecodeStep(c: char, rest: string)
    requires c as int < 0x80
    ensures UrlDecodeBytes(EscapeChar(UriComponent, c) + rest) == [c] + UrlDecodeBytes(rest)
  {
    if Unreserved(UriComponent, c) {
      assert ([c] + rest)[1..] == rest;
    } else {
      EscapedAscii(UriComponent, c);
      var h := HexDigit(c as int / 16);
      var l := HexDigit(c as int % 16);
      var t := EscapeChar(UriComponent, c) + rest;
      assert t[3..] == rest;
      assert EscapedByte(h, l) == c;
    }
  }

  // ---------------------------------------------------------------------
  // Request parsing

  /** One line as `std::getline` returns it, and where the next one starts. */
  datatype Line = Line(text: string, next: nat)

  /** The line starting at `pos`, split at `'\n'`; `None` once nothing is left. */
  function NextLine(s: string, pos: nat): (r: Option<Line>)
    ensures r.None? <==> pos >= |s|
    ensures r.Some? ==> pos < r.value.next <= |s|
    ensures r.Some? ==> forall i :: 0 <= i < |r.value.text| ==> r.value.text[i] != '\n'
    ensures r.Some? ==>
      (s[pos..r.value.next] == r.value.text + "\n"
       || (r.value.next == |s| && r.value.text == s[pos..] && s[|s| - 1] != '\n'))
  {
    if pos >= |s| then None
    else
      var e := IndexOfCharFrom(s, '\n', pos);
      if e < 0 then Some(Line(s[pos..], |s|)) else Some(Line(s[pos..e], e + 1))
  }

  /** Length of the leading run of non-space characters. */
  function TokenLength(t: string): (k: nat)
    ensures k <= |t|
    ensures forall i :: 0 <= i < k ==> t[i] !in CSpace
    ensures k < |t| ==> t[k] in CSpace
  {
    if |t| == 0 || t[0] in CSpace then 0 else 1 + TokenLength(t[1..])
  }

  /** The white-space separated words of a line, as repeated `>>` reads them. */
  function Tokens(s: string): seq<string>
    decreases |s|
  {
    var t := TrimStartSet(s, CSpace);
    if |t| == 0 then []
    else
      var k := TokenLength(t);
      [t[..k]] + Tokens(t[k..])
  }

  /** The `n`th word, or empty when the line has fewer words. */
  function Word(words: seq<string>, n: nat): string
  {
    if n < |words| then words[n] else ""
  }

  function MethodOf(raw: string): string
  {
    match NextLine(raw, 0)
    case None => ""
    case Some(l) => Word(Tokens(l.text), 0)
  }

  function PathOf(raw: string): string
  {
    match NextLine(raw, 0)
    case None => ""
    case Some(l) => Word(Tokens(l.text), 1)
  }

  /** Where the header lines begin: after the request line. */
  function HeadersStart(raw: string): nat
  {
    match NextLine(raw, 0)
    case None => 0
    case Some(l) => l.next
  }

  /** A header line `name: value` as the parser splits it; lines without
      a colon give nothing. */
  function HeaderField(line: string): Option<(string, string)>
  {
    var colon := IndexOfCharFrom(line, ':', 0);
    if colon < 0 then None
    else Some((line[..colon], TrimEndSet(TrimStartSet(line[colon + 1..], {' ', '\t'}), {' ', '\t', '\r', '\n'})))
  }

  function AddHeader(headers: map<string, string>, line: string): map<string, string>
  {
    match HeaderField(line)
    case None => headers
    case Some((k, v)) => headers[k := v]
  }

  predicate EndsHeaders(line: string)
  {
    line == "\r" || line == ""
  }

  /** The header loop: lines are read until end of input or a blank or
      `"\r"` line, which is consumed.  Yields the map and the position after. */
  function ScanHeaders(raw: string, pos: nat, headers: map<string, string>): (r: (map<string, string>, nat))
    ensures r.1 <= |raw| || r.1 == pos
    decreases |raw| - pos
  {
    match NextLine(raw, pos)
    case None => (headers, pos)
    case Some(l) =>
      if EndsHeaders(l.text) then (headers, l.next)
      else ScanHeaders(raw, l.next, AddHeader(headers, l.text))
  }

  function HeadersOf(raw: string): map<string, string>
  {
    ScanHeaders(raw, HeadersStart(raw), map[]).0
  }

  function BodyStart(raw: string): (p: nat)
    ensures p <= |raw|
  {
    var p := ScanHeaders(raw, HeadersStart(raw), map[]).1;
    if p <= |raw| then p else |raw|
  }

  /** Every line from `pos` on, each followed by `'\n'`. */
  function Joined(raw: string, pos: nat): string
    decreases |raw| - pos
  {
    match NextLine(raw, pos)
    case None => ""
    case Some(l) => l.text + "\n" + Joined(raw, l.next)
  }

  function StripOneNewline(s: string): (r: string)
    ensures r == s || (EndsWith(s, "\n") && r == s[..|s| - 1])
  {
    if |s| > 0 && s[|s| - 1] == '\n' then s[..|s| - 1] else s
  }

  /** The body: the rest of the input with at most one trailing `'\n'` removed. */
  function BodyOf(raw: string): string
  {
    StripOneNewline(raw[BodyStart(raw)..])
  }

  method ParseRequest(raw: string) returns (request: HttpRequest)
    requires NoNul(raw)
    ensures request.httpMethod == MethodOf(raw) && request.path == PathOf(raw)
    ensures request.headers == HeadersOf(raw)
    ensures request.body == BodyOf(raw)
  {
    var httpMethod, path := "", "";
    var pos := 0;
    var first := NextLine(raw, 0);
    if first.Some? {
      var words := Tokens(first.value.text);
      httpMethod := Word(words, 0);
      path := Word(words, 1);
      pos := first.value.next;
    }
    var headers;
    headers, pos := ReadHeaders(raw, pos);
    var body := ReadBody(raw, pos);
    request := HttpRequest(httpMethod, path, body, headers);
  }

  /** The header loop of the parser, from `start` on. */
  method ReadHeaders(raw: string, start: nat) returns (headers: map<string, string>, pos: nat)
    requires start <= |raw|
    ensures (headers, pos) == ScanHeaders(raw, start, map[])
    ensures pos <= |raw|
  {
    headers := map[];
    pos := start;
    while true
      invariant pos <= |raw|
      invariant ScanHeaders(raw, pos, headers) == ScanHeaders(raw, start, map[])
      decreases |raw| - pos
    {
      var line := NextLine(raw, pos);
      if line.None? {
        break;
      }
      if EndsHeaders(line.value.text) {
        pos := line.value.next;
        break;
      }
      headers := AddHeader(headers, line.value.text);
      pos := line.value.next;
    }
  }

  /** The body loop: every remaining line plus `'\n'`, then one trailing
      `'\n'` dropped. */
  method ReadBody(raw: string, start: nat) returns (body: string)
    requires start <= |raw|
    ensures body == StripOneNewline(raw[start..])
  {
    body := "";
    var pos := start;
    while true
      invariant pos <= |raw|
      invariant body + Joined(raw, pos) == Joined(raw, start)
      decreases |raw| - pos
    {
      var line := NextLine(raw, pos);
      if line.None? {
        break;
      }
      var piece := line.value.text + "\n";
      assert (body + piece) + Joined(raw, line.value.next) == Joined(raw, start) by {
        assert Joined(raw, pos) == piece + Joined(raw, line.value.next);
        assert (body + piece) + Joined(raw, line.value.next) == body + (piece + Joined(raw, line.value.next));
      }
      body := body + piece;
      pos := line.value.next;
    }
    assert body == RestWithNewline(raw, start) by {
      assert Joined(raw, pos) == "";
      assert body == Joined(raw, start);
      JoinedIsRest(raw, start);
    }
    DropFinalNewline(raw, start, body);
    if |body| > 0 && body[|body| - 1] == '\n' {
      body := body[..|body| - 1];
    }
  }

  lemma DropFinalNewline(raw: string, start: nat, joined: string)
    requires start <= |raw| && joined == RestWithNewline(raw, start)
    ensures StripOneNewline(joined) == StripOneNewline(raw[start..])
  {
    var rest := raw[start..];
    if start < |raw| && raw[|raw| - 1] != '\n' {
      assert joined == rest + "\n";
      assert joined[..|joined| - 1] == rest;
      assert rest[|rest| - 1] == raw[|raw| - 1];
    }
  }

  /** Joining the remaining lines restores the remaining input, plus a final
      `'\n'` when the input did not end with one. */
  lemma {:induction false} JoinedIsRest(raw: string, pos: nat)
    ensures Joined(raw, pos) == RestWithNewline(raw, pos)
    decreases |raw| - pos
  {
    if pos < |raw| {
      var l := NextLine(raw, pos).value;
      if l.next < |raw| {
        JoinedIsRest(raw, l.next);
      }
      JoinedStep(raw, pos, l);
    }
  }

  /** One step of `JoinedIsRest`: the first line, its newline, and the rest. */
  lemma JoinedStep(raw: string, pos: nat, l: Line)
    requires pos < |raw| && NextLine(raw, pos) == Some(l)
    requires l.next < |raw| ==> Joined(raw, l.next) == RestWithNewline(raw, l.next)
    ensures Joined(raw, pos) == RestWithNewline(raw, pos)
  {
    var line := l.text + "\n";
    var rest := Joined(raw, l.next);
    assert Joined(raw, pos) == line + rest;
    if raw[pos..l.next] == line {
      if l.next == |raw| {
        assert rest == "";
        assert raw[|raw| - 1] == '\n' by {
          assert raw[|raw| - 1] == raw[pos..l.next][|l.text|] == line[|l.text|];
        }
        assert raw[pos..] == line;
      } else {
        var after := raw[l.next..];
        assert raw[pos..] == line + after by {
          assert raw[pos..] == raw[pos..l.next] + raw[l.next..];
        }
        if raw[|raw| - 1] != '\n' {
          assert rest == after + "\n";
          assert (line + after) + "\n" == line + (after + "\n");
        }
      }
    } else {
      assert rest == "";
      assert line + rest == raw[pos..] + "\n";
    }
  }

  /** The input from `pos` on, ending in `'\n'` when anything is left. */
  function RestWithNewline(raw: string, pos: nat): string
  {
    if pos >= |raw| then ""
    else if raw[|raw| - 1] == '\n' then raw[pos..]
    else raw[pos..] + "\n"
  }

  /** The body is exactly the input after the header block, less one trailing newline. */
  lemma BodyIsRestOfInput(raw: string, request: HttpRequest)
    requires NoNul(raw)
    requires request.body == BodyOf(raw)
    ensures request.body == raw[BodyStart(raw)..] || request.body + "\n" == raw[BodyStart(raw)..]
  {
  }

  lemma {:induction false} TokenLengthOfWord(w: string, rest: string)
    requires forall i :: 0 <= i < |w| ==> w[i] !in CSpace
    requires |rest| > 0 && rest[0] in CSpace
    ensures TokenLength(w + rest) == |w|
  {
    if |w| > 0 {
      assert (w + rest)[1..] == w[1..] + rest;
      TokenLengthOfWord(w[1..], rest);
    }
  }

  lemma TokensSkipSpace(c: char, r: string)
    requires c in CSpace
    ensures Tokens([c] + r) == Tokens(r)
  {
    assert ([c] + r)[1..] == r;
    assert TrimStartSet([c] + r, CSpace) == TrimStartSet(r, CSpace);
  }

  lemma TokensWord(w: string, c: char, r: string)
    requires |w| > 0 && forall i :: 0 <= i < |w| ==> w[i] !in CSpace
    requires c in CSpace
    ensures Tokens(w + [c] + r) == [w] + Tokens(r)
  {
    var s := w + [c] + r;
    assert s == w + ([c] + r);
    assert TrimStartSet(s, CSpace) == s;
    TokenLengthOfWord(w, [c] + r);
    assert s[..|w|] == w;
    assert s[|w|..] == [c] + r;
    TokensSkipSpace(c, r);
  }

  predicate IsWord(w: string)
  {
    |w| > 0 && forall i :: 0 <= i < |w| ==> w[i] !in CSpace && w[i] != '\n'
  }

  /** The request line `method SP target SP version CR`. */
  function RequestLine(m: string, p: string, v: string): string
  {
    m + [' '] + (p + [' '] + (v + ['\r']))
  }

  /** For a request that starts with `method SP target SP version CR LF`,
      the method and path are the first two words. */
  lemma RequestLineWords(m: string, p: string, v: string, rest: string)
    requires IsWord(m) && IsWord(p) && IsWord(v)
    ensures MethodOf(RequestLine(m, p, v) + "\n" + rest) == m
    ensures PathOf(RequestLine(m, p, v) + "\n" + rest) == p
  {
    var line := RequestLine(m, p, v);
    assert forall i :: 0 <= i < |line| ==> line[i] != '\n';
    FirstLine(line, rest);
    RequestLineTokens(m, p, v);
  }

  lemma FirstLine(line: string, rest: string)
    requires forall i :: 0 <= i < |line| ==> line[i] != '\n'
    ensures NextLine(line + "\n" + rest, 0) == Some(Line(line, |line| + 1))
  {
    var raw := line + "\n" + rest;
    assert raw[|line|] == '\n';
    assert raw[0..|line|] == line;
  }

  lemma RequestLineTokens(m: string, p: string, v: string)
    requires IsWord(m) && IsWord(p) && IsWord(v)
    ensures Tokens(RequestLine(m, p, v)) == [m, p, v]
  {
    LastWord(v);
    TokensWord(p, ' ', v + ['\r']);
    TokensWord(m, ' ', p + [' '] + (v + ['\r']));
  }

  lemma LastWord(v: string)
    requires IsWord(v)
    ensures Tokens(v + ['\r']) == [v]
  {
    assert v + ['\r'] == v + ['\r'] + "";
    TokensWord(v, '\r', "");
    assert TrimStartSet("", CSpace) == "";
  }

  /** The header lines the parser reads, in order. */
  function HeaderLines(raw: string, pos: nat): seq<string>
    decreases |raw| - pos
  {
    match NextLine(raw, pos)
    case None => []
    case Some(l) => if EndsHeaders(l.text) then [] else [l.text] + HeaderLines(raw, l.next)
  }

  /** The value the last line named `name` gives, if any line does. */
  function LastValue(lines: seq<string>, name: string): Option<string>
  {
    if |lines| == 0 then None
    else match LastValue(lines[1..], name)
      case Some(v) => Some(v)
      case None =>
        match HeaderField(lines[0])
        case Some((k, v)) => if k == name then Some(v) else None
        case None => None
  }

  /** A later header with the same name overwrites an earlier one, and names
      that no line gives keep the value they had. */
  lemma {:induction false} HeadersLastWins(raw: string, pos: nat, headers: map<string, string>, name: string)
    ensures var m := ScanHeaders(raw, pos, headers).0;
      match LastValue(HeaderLines(raw, pos), name)
      case Some(v) => name in m && m[name] == v
      case None => (name in m <==> name in headers) && (name in headers ==> m[name] == headers[name])
    decreases |raw| - pos
  {
    match NextLine(raw, pos)
    case None =>
    case Some(l) =>
      if !EndsHeaders(l.text) {
        HeadersLastWins(raw, l.next, AddHeader(headers, l.text), name);
        assert HeaderLines(raw, pos)[1..] == HeaderLines(raw, l.next);
      }
  }

  /** Every header the parser keeps was named by a header line. */
  lemma HeadersOfRequest(raw: string, name: string)
    ensures name in HeadersOf(raw) <==> LastValue(HeaderLines(raw, HeadersStart(raw)), name).Some?
    ensures name in HeadersOf(raw) ==>
      HeadersOf(raw)[name] == LastValue(HeaderLines(raw, HeadersStart(raw)), name).value
  {
    HeadersLastWins(raw, HeadersStart(raw), map[], name);
  }

  // ---------------------------------------------------------------------
  // Response serialisation

  /** The reason phrase: only 200, 400, 404 and 500 have one. */
  function Reason(code: int): (r: string)
    ensures r == "Unknown" <==> code !in {200, 400, 404, 500}
  {
    if code == 200 then "OK"
    else if code == 400 then "Bad Request"
    else if code == 404 then "Not Found"
    else if code == 500 then "Internal Server Error"
    else "Unknown"
  }

  function StatusLine(code: int): string
  {
    "HTTP/1.1 " + IntToString(code) + " " + Reason(code) + "\r\n"
  }

  const AllowOrigin: string := "Access-Control-Allow-Origin: *"
  const AllowMethods: string := "Access-Control-Allow-Methods: GET, POST, OPTIONS"
  const AllowHeaders: string := "Access-Control-Allow-Headers: Content-Type"

  /** The header lines, in the order they are written. */
  function ResponseHeaders(r: HttpResponse, contentLength: nat): seq<string>
  {
    [ "Content-Type: " + r.contentType,
      AllowOrigin,
      AllowMethods,
      AllowHeaders,
      "Content-Length: " + NatToString(contentLength) ]
  }

  /** Each line followed by CR LF. */
  function CrlfLines(lines: seq<string>): string
  {
    if |lines| == 0 then "" else lines[0] + "\r\n" + CrlfLines(lines[1..])
  }

  /** Status line and header block, ending with the empty line. */
  function ResponseHead(r: HttpResponse, contentLength: nat): string
  {
    StatusLine(r.statusCode) + CrlfLines(ResponseHeaders(r, contentLength)) + "\r\n"
  }

  /** The bytes sent after the header block.  The text body goes out
      through `ToCStr().Get()`, whose character code is the host's default;
      the model assumes that code is UTF-8. */
  function Payload(r: HttpResponse): seq<Byte>
  {
    if r.isBinary then r.binaryBody else Utf8(r.body)
  }

  /** Content-Length as the server computes it: the binary size, or the
      text body's `GetLength()`, its number of UTF-16 units. */
  function ContentLengthAsWritten(r: HttpResponse): nat
  {
    if r.isBinary then |r.binaryBody| else Utf16Length(r.body)
  }

  /** Content-Length as the number of payload bytes. */
  function ContentLength(r: HttpResponse): nat
  {
    |Payload(r)|
  }

  /** Serialises a response: status line, content type, the three CORS
      headers, the length, an empty line, the payload. */
  method FormatResponse(r: HttpResponse) returns (out: seq<Byte>)
    ensures out == Utf8(ResponseHead(r, ContentLength(r))) + Payload(r)
    ensures |out| - |Utf8(ResponseHead(r, ContentLength(r)))| == ContentLength(r)
  {
    var payload := if r.isBinary then r.binaryBody else Utf8(r.body);
    var head := StatusLine(r.statusCode);
    head := head + CrlfLines(ResponseHeaders(r, |payload|));
    head := head + "\r\n";
    out := Utf8(head) + payload;
  }

  /** Every line of a CR LF block appears in it followed by CR LF. */
  lemma {:induction false} CrlfLinesContain(lines: seq<string>, i: nat)
    requires i < |lines|
    ensures Contains(CrlfLines(lines), lines[i] + "\r\n")
  {
    var rest := CrlfLines(lines[1..]);
    if i == 0 {
      ContainsWitness(lines[0] + "\r\n", lines[0] + "\r\n", 0);
      ContainsPrefix(lines[0] + "\r\n", rest, lines[0] + "\r\n");
    } else {
      CrlfLinesContain(lines[1..], i - 1);
      ContainsSuffix(lines[0] + "\r\n", rest, lines[i] + "\r\n");
    }
  }

  lemma HeadContainsLine(first: string, lines: seq<string>, i: nat)
    requires i < |lines|
    ensures Contains(first + CrlfLines(lines) + "\r\n", lines[i] + "\r\n")
  {
    CrlfLinesContain(lines, i);
    ContainsSuffix(first, CrlfLines(lines), lines[i] + "\r\n");
    ContainsPrefix(first + CrlfLines(lines), "\r\n", lines[i] + "\r\n");
  }

  /** The serialised head starts with the status line and carries every CORS
      header and the declared length. */
  lemma ResponseHeadFields(r: HttpResponse, n: nat)
    ensures StartsWith(ResponseHead(r, n), StatusLine(r.statusCode))
    ensures Contains(ResponseHead(r, n), AllowOrigin + "\r\n")
    ensures Contains(ResponseHead(r, n), AllowMethods + "\r\n")
    ensures Contains(ResponseHead(r, n), AllowHeaders + "\r\n")
    ensures Contains(ResponseHead(r, n), "Content-Length: " + NatToString(n) + "\r\n")
  {
    var sl := StatusLine(r.statusCode);
    var lines := ResponseHeaders(r, n);
    var head := ResponseHead(r, n);
    assert head == sl + (CrlfLines(lines) + "\r\n");
    assert head[..|sl|] == sl;
    HeadContainsLine(sl, lines, 1);
    HeadContainsLine(sl, lines, 2);
    HeadContainsLine(sl, lines, 3);
    HeadContainsLine(sl, lines, 4);
  }

  lemma {:induction false} AsciiLengths(s: string)
    requires IsAscii(s)
    ensures Utf16Length(s) == |s| == |Utf8(s)|
  {
    if |s| > 0 {
      AsciiLengths(s[1..]);
    }
  }

  /** For binary bodies and ASCII text the written length is right. */
  lemma ContentLengthAsWrittenAgreesOnAscii(r: HttpResponse)
    requires r.isBinary || IsAscii(r.body)
    ensures ContentLengthAsWritten(r) == ContentLength(r)
  {
    if !r.isBinary {
      AsciiLengths(r.body);
    }
  }

  /** A one-character text body `é` is sent as two bytes but announced as one. */
  lemma ContentLengthAsWrittenUndercounts()
    ensures var r := CreateJsonResponse("é");
      ContentLengthAsWritten(r) == 1 && ContentLength(r) == 2
  {
    var r := CreateJsonResponse("é");
    assert Utf8Char('é') == [0xC3, 0xA9];
    assert Utf8(r.body) == Utf8Char('é') + Utf8("");
  }
}
