/** Turning an error thrown while loading an IDS document into a short
    explanation: whether it is a schema-validation error at all, the reason
    line, the reported position, and the order in which the details are
    listed.  The reason and position patterns are specified here the way the
    regular-expression engine matches them; the element, expected-tag and
    property captures are inputs. */
module IdsErrors {
  import opened Text
  import WebClient

  /** The characters JavaScript's `.` does not match. */
  const LineTerminators: set<char> := {'\n', '\r', '\U{2028}', '\U{2029}'}

  /** `\s` is the same set that `trim` removes. */
  predicate IsSpace(c: char)
  {
    c in WebClient.JsWhiteSpace
  }

  predicate IsDigit(c: char)
  {
    '0' <= c <= '9'
  }

  /** The end of the run of white space starting at `p`. */
  function SpaceEnd(s: string, p: nat): (e: nat)
    requires p <= |s|
    ensures p <= e <= |s|
    ensures e < |s| ==> !IsSpace(s[e])
    decreases |s| - p
  {
    if p < |s| && IsSpace(s[p]) then SpaceEnd(s, p + 1) else p
  }

  /** The first line terminator at or after `p`, or the end. */
  function LineEnd(s: string, p: nat): (q: nat)
    requires p <= |s|
    ensures p <= q <= |s|
    ensures q < |s| ==> s[q] in LineTerminators
    decreases |s| - p
  {
    if p < |s| && s[p] !in LineTerminators then LineEnd(s, p + 1) else p
  }

  /** No terminator comes before the end of the line. */
  lemma {:induction false} LineEndClean(s: string, p: nat, k: nat)
    requires p <= |s| && p <= k < LineEnd(s, p)
    ensures s[k] !in LineTerminators
    decreases |s| - p
  {
    if p < k {
      LineEndClean(s, p + 1, k);
    }
  }

  /** A run of non-terminators that a terminator or the end closes is the line. */
  lemma {:induction false} LineEndAt(s: string, p: nat, q: nat)
    requires p <= q <= |s|
    requires forall k :: p <= k < q ==> s[k] !in LineTerminators
    requires q == |s| || s[q] in LineTerminators
    ensures LineEnd(s, p) == q
    decreases q - p
  {
    if p < q {
      LineEndAt(s, p + 1, q);
    }
  }

  /** The end of the run of decimal digits starting at `p`. */
  function DigitEnd(s: string, p: nat): (e: nat)
    requires p <= |s|
    ensures p <= e <= |s|
    ensures e < |s| ==> !IsDigit(s[e])
    decreases |s| - p
  {
    if p < |s| && IsDigit(s[p]) then DigitEnd(s, p + 1) else p
  }

  lemma {:induction false} DigitEndDigits(s: string, p: nat, k: nat)
    requires p <= |s| && p <= k < DigitEnd(s, p)
    ensures IsDigit(s[k])
    decreases |s| - p
  {
    if p < k {
      DigitEndDigits(s, p + 1, k);
    }
  }

  /** `(.+?)(?:\n|$)` tried at `p`: the shortest non-empty run of
      non-terminators followed by a newline or the end.  Since every
      terminator stops the run, that run reaches the first terminator. */
  function LineFrom(s: string, p: nat): (r: Option<string>)
    requires p <= |s|
    ensures r.Some? ==> p < LineEnd(s, p) && r.value == s[p..LineEnd(s, p)]
  {
    var q := LineEnd(s, p);
    if q > p && (q == |s| || s[q] == '\n') then Some(s[p..q]) else None
  }

  /** `\s*(.+?)(?:\n|$)` after `p`, where the white space before `e` has been
      taken: the greedy `\s*` gives back one character at a time until the
      rest matches. */
  function BackTrack(s: string, p: nat, e: nat): (r: Option<string>)
    requires p <= e <= |s|
    decreases e - p
  {
    var line := LineFrom(s, e);
    if line.Some? || e == p then line else BackTrack(s, p, e - 1)
  }

  /** Whatever is captured is a non-empty run without terminators. */
  lemma {:induction false} BackTrackClean(s: string, p: nat, e: nat)
    requires p <= e <= |s|
    ensures var r := BackTrack(s, p, e);
      r.Some? ==> |r.value| > 0 && forall k :: 0 <= k < |r.value| ==> r.value[k] !in LineTerminators
    decreases e - p
  {
    var line := LineFrom(s, e);
    if line.Some? {
      forall k | 0 <= k < |line.value|
        ensures line.value[k] !in LineTerminators
      {
        LineEndClean(s, e, e + k);
      }
    } else if e > p {
      BackTrackClean(s, p, e - 1);
    }
  }

  /** The two captures this model specifies. */
  datatype Pattern =
    | ReasonPattern     // `Reason:\s*(.+?)(?:\n|$)`
    | PositionPattern   // `at position\s+(\d+)`

  function Keyword(pattern: Pattern): string
  {
    match pattern
    case ReasonPattern => "reason:"
    case PositionPattern => "at position"
  }

  /** The lower-case keyword, compared ignoring ASCII case, occurs at `i`. */
  predicate KeywordAt(s: string, i: nat, keyword: string)
  {
    i + |keyword| <= |s| && ToLower(s[i..i + |keyword|]) == keyword
  }

  /** The capture after the keyword ending at `p`. */
  function CaptureAfter(pattern: Pattern, s: string, p: nat): Option<string>
    requires p <= |s|
  {
    match pattern
    case ReasonPattern => BackTrack(s, p, SpaceEnd(s, p))
    case PositionPattern =>
      // `\s+` must take something and `\d` must follow; giving back white
      // space only puts more white space in front of `\d`.
      var e := SpaceEnd(s, p);
      if e > p && e < |s| && IsDigit(s[e]) then Some(s[e..DigitEnd(s, e)]) else None
  }

  predicate MatchesAt(pattern: Pattern, s: string, i: nat)
  {
    KeywordAt(s, i, Keyword(pattern)) && CaptureAfter(pattern, s, i + |Keyword(pattern)|).Some?
  }

  /** Whether the pattern matches at each index of `s`. */
  function MatchFlags(pattern: Pattern, s: string): (flags: seq<bool>)
    ensures |flags| == |s|
  {
    seq(|s|, i requires 0 <= i < |s| => MatchesAt(pattern, s, i))
  }

  /** The first index at or after `from` whose flag is set. */
  function FirstFrom(flags: seq<bool>, from: nat): (r: Option<nat>)
    ensures r.Some? ==> from <= r.value < |flags| && flags[r.value]
    decreases |flags| - from
  {
    if from >= |flags| then None
    else if flags[from] then Some(from)
    else FirstFrom(flags, from + 1)
  }

  lemma {:induction false} FirstFromNone(flags: seq<bool>, from: nat, k: nat)
    requires FirstFrom(flags, from).None? && from <= k < |flags|
    ensures !flags[k]
    decreases |flags| - from
  {
    if k > from {
      FirstFromNone(flags, from + 1, k);
    }
  }

  lemma {:induction false} FirstFromLeftmost(flags: seq<bool>, from: nat, k: nat)
    requires FirstFrom(flags, from).Some? && from <= k < FirstFrom(flags, from).value
    ensures !flags[k]
    decreases |flags| - from
  {
    if k > from {
      FirstFromLeftmost(flags, from + 1, k);
    }
  }

  lemma {:induction false} FirstFromIsFirst(flags: seq<bool>, from: nat, i: nat)
    requires from <= i < |flags| && flags[i]
    requires forall k :: from <= k < i ==> !flags[k]
    ensures FirstFrom(flags, from) == Some(i)
    decreases i - from
  {
    if from < i {
      FirstFromIsFirst(flags, from + 1, i);
    }
  }

  /** The leftmost match at or after `from`: the regular expression is
      tried at each index in turn. */
  function Find(pattern: Pattern, s: string, from: nat): (r: Option<nat>)
    ensures r.Some? ==> from <= r.value && MatchesAt(pattern, s, r.value)
  {
    FirstFrom(MatchFlags(pattern, s), from)
  }

  /** Without a result, the pattern matches nowhere. */
  lemma FindNone(pattern: Pattern, s: string, from: nat, k: nat)
    requires Find(pattern, s, from).None? && from <= k
    ensures !MatchesAt(pattern, s, k)
  {
    var flags := MatchFlags(pattern, s);
    if k < |s| {
      FirstFromNone(flags, from, k);
      assert flags[k] == MatchesAt(pattern, s, k);
    }
  }

  /** No match starts before the one found. */
  lemma FindLeftmost(pattern: Pattern, s: string, from: nat, k: nat)
    requires Find(pattern, s, from).Some? && from <= k < Find(pattern, s, from).value
    ensures !MatchesAt(pattern, s, k)
  {
    var flags := MatchFlags(pattern, s);
    FirstFromLeftmost(flags, from, k);
    assert flags[k] == MatchesAt(pattern, s, k);
  }

  /** A match with none before it is the one found. */
  lemma FindIsFirst(pattern: Pattern, s: string, from: nat, i: nat)
    requires from <= i && MatchesAt(pattern, s, i)
    requires forall k :: from <= k < i ==> !MatchesAt(pattern, s, k)
    ensures Find(pattern, s, from) == Some(i)
  {
    var flags := MatchFlags(pattern, s);
    forall k | from <= k < i
      ensures !flags[k]
    {
      assert flags[k] == MatchesAt(pattern, s, k);
    }
    assert flags[i];
    FirstFromIsFirst(flags, from, i);
  }

  /** The capture of the leftmost match, if any. */
  function Extract(pattern: Pattern, s: string): (r: Option<string>)
    ensures r.Some? <==> Find(pattern, s, 0).Some?
  {
    var m := Find(pattern, s, 0);
    if m.Some? then CaptureAfter(pattern, s, m.value + |Keyword(pattern)|) else None
  }

  /** The trimmed reason, or empty. */
  function Reason(full: string): string
  {
    var m := Extract(ReasonPattern, full);
    if m.Some? then WebClient.JsTrim(m.value) else ""
  }

  /** Trimming text without line terminators leaves text without them,
      with no white space at either end. */
  lemma TrimmedStaysClean(c: string)
    requires forall k :: 0 <= k < |c| ==> c[k] !in LineTerminators
    ensures forall k :: 0 <= k < |WebClient.JsTrim(c)| ==> WebClient.JsTrim(c)[k] !in LineTerminators
    ensures var r := WebClient.JsTrim(c);
      |r| > 0 ==> !IsSpace(r[0]) && !IsSpace(r[|r| - 1])
  {
    var t := TrimStartSet(c, WebClient.JsWhiteSpace);
    var r := TrimEndSet(t, WebClient.JsWhiteSpace);
    assert r == t[..|r|];
    forall k | 0 <= k < |r|
      ensures r[k] !in LineTerminators
    {
      assert r[k] == t[k] == c[|c| - |t| + k];
    }
  }

  /** The reason stays on one line and carries no surrounding white space. */
  lemma ReasonIsTrimmedLine(full: string)
    ensures forall k :: 0 <= k < |Reason(full)| ==> Reason(full)[k] !in LineTerminators
    ensures |Reason(full)| > 0 ==> !IsSpace(Reason(full)[0]) && !IsSpace(Reason(full)[|Reason(full)| - 1])
  {
    var m := Find(ReasonPattern, full, 0);
    if m.Some? {
      var p := m.value + 7;
      var c := BackTrack(full, p, SpaceEnd(full, p)).value;
      assert Reason(full) == WebClient.JsTrim(c);
      assert forall k :: 0 <= k < |c| ==> c[k] !in LineTerminators by {
        BackTrackClean(full, p, SpaceEnd(full, p));
      }
      TrimmedStaysClean(c);
    } else {
      assert Reason(full) == "";
    }
  }

  /** A non-empty run of non-terminators closed by a newline or the end is
      the line captured there. */
  lemma LineCapture(full: string, p: nat, line: string)
    requires p + |line| <= |full| && full[p..p + |line|] == line && |line| > 0
    requires forall k :: 0 <= k < |line| ==> line[k] !in LineTerminators
    requires p + |line| == |full| || full[p + |line|] == '\n'
    ensures LineFrom(full, p) == Some(line)
  {
    forall k | p <= k < p + |line|
      ensures full[k] !in LineTerminators
    {
      assert full[k] == full[p..p + |line|][k - p];
    }
    LineEndAt(full, p, p + |line|);
  }

  /** When the first `Reason:` is followed by one blank and then a line of
      text, the reason is that line, trimmed. */
  lemma ReasonOfFirstLine(full: string, i: nat, line: string)
    requires forall k :: 0 <= k < i ==> !MatchesAt(ReasonPattern, full, k)
    requires KeywordAt(full, i, "reason:")
    requires i + 8 + |line| <= |full| && full[i + 7] == ' ' && full[i + 8..i + 8 + |line|] == line
    requires |line| > 0 && !IsSpace(line[0])
    requires forall k :: 0 <= k < |line| ==> line[k] !in LineTerminators
    requires i + 8 + |line| == |full| || full[i + 8 + |line|] == '\n'
    ensures Reason(full) == WebClient.JsTrim(line)
  {
    var p := i + 8;
    assert SpaceEnd(full, i + 7) == p by {
      assert full[p] == full[p..p + |line|][0] == line[0];
      assert SpaceEnd(full, p) == p;
      assert IsSpace(' ');
    }
    assert CaptureAfter(ReasonPattern, full, i + 7) == Some(line) by {
      LineCapture(full, p, line);
      assert BackTrack(full, i + 7, p) == Some(line);
    }
    assert Find(ReasonPattern, full, 0) == Some(i) by {
      FindIsFirst(ReasonPattern, full, 0, i);
    }
  }

  /** The digits after `at position`, or empty. */
  function Position(full: string): string
  {
    var m := Extract(PositionPattern, full);
    if m.Some? then m.value else ""
  }

  /** The position is the whole run of digits that follows the keyword and
      at least one white-space character. */
  lemma PositionIsDigitRun(full: string)
    ensures forall k :: 0 <= k < |Position(full)| ==> IsDigit(Position(full)[k])
    ensures Position(full) != "" <==> Find(PositionPattern, full, 0).Some?
    ensures Find(PositionPattern, full, 0).Some? ==>
      var e := SpaceEnd(full, Find(PositionPattern, full, 0).value + 11);
      && e > Find(PositionPattern, full, 0).value + 11 && e < |full|
      && Position(full) == full[e..DigitEnd(full, e)]
  {
    var m := Find(PositionPattern, full, 0);
    if m.Some? {
      var e := SpaceEnd(full, m.value + 11);
      assert e > m.value + 11 && e < |full| && IsDigit(full[e]) by {
        assert MatchesAt(PositionPattern, full, m.value);
      }
      var d := DigitEnd(full, e);
      assert d > e by {
        assert d == DigitEnd(full, e + 1);
      }
      assert Position(full) == full[e..d];
      DigitRun(full, e);
    } else {
      assert Position(full) == "";
    }
  }

  /** The run taken from `e` holds digits only. */
  lemma DigitRun(s: string, e: nat)
    requires e <= |s|
    ensures forall k :: 0 <= k < DigitEnd(s, e) - e ==> IsDigit(s[e..DigitEnd(s, e)][k])
  {
    var d := DigitEnd(s, e);
    forall k | 0 <= k < d - e
      ensures IsDigit(s[e..d][k])
    {
      DigitEndDigits(s, e, e + k);
    }
  }

  /** An error as the parser sees it: its message (or its string form when
      it has none), its stack (empty when it has none), and `String(error)`. */
  datatype ErrorInput = ErrorInput(message: string, stack: string, asString: string)

  /** The raw element, expected-tag and property captures, when their
      patterns match. */
  datatype OtherCaptures = OtherCaptures(element: Option<string>, expected: Option<string>, property: Option<string>)

  datatype Parsed = Parsed(title: string, details: string, fullError: string)

  const Title: string := "IDS Validation Error: The IDS document is not valid."
  const DefaultDetails: string := "Please check your IDS document structure."

  function FullError(error: ErrorInput): string
  {
    error.message + "\n" + error.stack
  }

  predicate LooksLikeIdsError(full: string)
  {
    Contains(full, "XMLSchema") || Contains(full, "xmlschema") || Contains(full, "IDS")
  }

  function Trimmed(capture: Option<string>): string
  {
    if capture.Some? then WebClient.JsTrim(capture.value) else ""
  }

  /** `<tag><value>` appended when `value` is not empty. */
  function Push(details: seq<string>, tag: string, value: string): (r: seq<string>)
    ensures value == "" ==> r == details
    ensures value != "" ==> r == details + [tag + value]
  {
    if value != "" then details + [tag + value] else details
  }

  /** A piece starts with one of the five labels. */
  predicate Labelled(piece: string)
  {
    || StartsWith(piece, "Reason: ") || StartsWith(piece, "Element: ") || StartsWith(piece, "Expected: ")
    || StartsWith(piece, "Property: ") || StartsWith(piece, "Position: ")
  }

  /** The found pieces in the fixed order Reason, Element, Expected,
      Property, Position. */
  function Pieces(reason: string, element: string, expected: string, property: string, position: string): (r: seq<string>)
    ensures r == [] <==> reason == "" && element == "" && expected == "" && property == "" && position == ""
    ensures reason != "" ==> r[0] == "Reason: " + reason
    ensures position != "" ==> r[|r| - 1] == "Position: " + position
    ensures |r| > 0 ==> Labelled(r[0])
    ensures |r| <= 5
  {
    var d := Push([], "Reason: ", reason);
    var d := Push(d, "Element: ", element);
    var d := Push(d, "Expected: ", expected);
    var d := Push(d, "Property: ", property);
    Push(d, "Position: ", position)
  }

  function Details(pieces: seq<string>): string
  {
    if |pieces| > 0 then Join(pieces, "\n") else DefaultDetails
  }

  /** None unless the combined message and stack mention the schema or IDS;
      otherwise the fixed title, the found pieces and the combined text. */
  function ParseIdsValidationError(error: ErrorInput, others: OtherCaptures): (r: Option<Parsed>)
    ensures r.None? <==> !LooksLikeIdsError(FullError(error))
    ensures r.Some? ==> r.value.title == Title && r.value.fullError == FullError(error)
    ensures r.Some? ==> r.value.details == Details(Pieces(Reason(FullError(error)), Trimmed(others.element),
      Trimmed(others.expected), Trimmed(others.property), Position(FullError(error))))
  {
    var full := FullError(error);
    if !LooksLikeIdsError(full) then None
    else
      var pieces := Pieces(Reason(full), Trimmed(others.element), Trimmed(others.expected),
                           Trimmed(others.property), Position(full));
      Some(Parsed(Title, Details(pieces), full))
  }

  /** The default text exactly when nothing was found; otherwise the reason
      opens the details, the position closes them, and every found piece is
      among them. */
  lemma DetailsLayout(reason: string, element: string, expected: string, property: string, position: string)
    ensures var details := Details(Pieces(reason, element, expected, property, position));
      && (details == DefaultDetails <==> reason == "" && element == "" && expected == "" && property == "" && position == "")
      && (reason != "" ==> StartsWith(details, "Reason: " + reason))
      && (position != "" ==> EndsWith(details, "Position: " + position))
  {
    var pieces := Pieces(reason, element, expected, property, position);
    if |pieces| > 0 {
      JoinHead(pieces, "\n");
      JoinLast(pieces, "\n");
      NotDefault(Join(pieces, "\n"), pieces[0]);
    }
  }

  /** Every piece found appears in the details. */
  lemma DetailsContainPieces(pieces: seq<string>, k: nat)
    requires k < |pieces|
    ensures Contains(Details(pieces), pieces[k])
  {
    JoinContains(pieces, "\n", k);
  }

  /** The joined text starts with the first part. */
  lemma JoinHead(parts: seq<string>, sep: string)
    requires |parts| > 0
    ensures StartsWith(Join(parts, sep), parts[0])
  {
    if |parts| > 1 {
      assert (parts[0] + sep + Join(parts[1..], sep))[..|parts[0]|] == parts[0];
    }
  }

  /** The joined text ends with the last part. */
  lemma JoinLast(parts: seq<string>, sep: string)
    requires |parts| > 0
    ensures EndsWith(Join(parts, sep), parts[|parts| - 1])
  {
    var init := parts[..|parts| - 1];
    assert parts == init + [parts[|parts| - 1]];
    JoinSnoc(init, parts[|parts| - 1], sep);
  }

  /** A string that starts with a prefix of two or more characters shares
      its first two. */
  lemma PrefixHead(s: string, prefix: string)
    requires StartsWith(s, prefix) && |prefix| >= 2
    ensures s[0] == prefix[0] && s[1] == prefix[1]
  {
    assert s[..|prefix|][0] == s[0] && s[..|prefix|][1] == s[1];
  }

  /** No label opens with the default text's `Pl`. */
  lemma LabelledHead(piece: string)
    requires Labelled(piece)
    ensures |piece| >= 2 && (piece[0] != 'P' || piece[1] != 'l')
  {
    if StartsWith(piece, "Reason: ") {
      PrefixHead(piece, "Reason: ");
    } else if StartsWith(piece, "Element: ") {
      PrefixHead(piece, "Element: ");
    } else if StartsWith(piece, "Expected: ") {
      PrefixHead(piece, "Expected: ");
    } else if StartsWith(piece, "Property: ") {
      PrefixHead(piece, "Property: ");
      assert "Property: "[1] == 'r';
    } else {
      PrefixHead(piece, "Position: ");
      assert "Position: "[1] == 'o';
    }
  }

  /** Text that opens with a labelled piece is never the default text. */
  lemma NotDefault(text: string, piece: string)
    requires StartsWith(text, piece) && Labelled(piece)
    ensures text != DefaultDetails
  {
    assert |text| >= 2 && (text[0] != 'P' || text[1] != 'l') by {
      LabelledHead(piece);
      PrefixHead(text, piece);
    }
    assert DefaultDetails[0] == 'P' && DefaultDetails[1] == 'l';
  }

  /** The toast for an IDS loading error. */
  datatype ToastShown = Warning(title: string, description: string) | PlainError(text: string)

  function IdsValidationError(error: ErrorInput, others: OtherCaptures): (t: ToastShown)
    ensures t.PlainError? <==> ParseIdsValidationError(error, others).None?
    ensures t.PlainError? ==> t.text == error.asString
    ensures t.Warning? ==> t.title == Title
  {
    var parsed := ParseIdsValidationError(error, others);
    if parsed.None? then PlainError(error.asString) else Warning(parsed.value.title, parsed.value.details)
  }
}
