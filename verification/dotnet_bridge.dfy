/** What the two .NET bridge servers (Revit and Archicad) share: the route
    table with its input validation, the integer parser it relies on, the
    status endpoint's bounded retry with back-off, and the replies, whose JSON
    bodies are kept as structured values. */
module DotNetBridge {
  import opened Text
  import opened UriText

  // ---------------------------------------------------------------------
  // Replies

  /** A reply body: the JSON object the server serialises, or raw file bytes. */
  datatype Body =
    | NoBody
    | ErrorBody(error: string)
    | StatusBody(status: string, connected: bool, configsReady: bool, version: string)
    | SelectBody(success: bool, message: string)
    | ConfigurationsBody(configurations: seq<string>)
    | FileBody(bytes: seq<Byte>)

  datatype Reply = Reply(statusCode: int, contentType: string, headers: seq<(string, string)>, body: Body)

  /** Added to every response before anything else happens. */
  const CorsHeaders: seq<(string, string)> := [
    ("Access-Control-Allow-Origin", "*"),
    ("Access-Control-Allow-Methods", "GET, POST, OPTIONS"),
    ("Access-Control-Allow-Headers", "Content-Type")
  ]

  /** Every reply starts with the three CORS headers. */
  predicate HasCors(r: Reply)
  {
    |r.headers| >= 3 && r.headers[..3] == CorsHeaders
  }

  /** The preflight answer: 200 and nothing else. */
  function PreflightReply(): (r: Reply)
    ensures HasCors(r) && r.statusCode == 200 && r.body == NoBody
  {
    Reply(200, "", CorsHeaders, NoBody)
  }

  function SendError(statusCode: int, message: string): (r: Reply)
    ensures HasCors(r) && r.statusCode == statusCode && r.contentType == "application/json"
    ensures r.body == ErrorBody(message)
  {
    Reply(statusCode, "application/json", CorsHeaders, ErrorBody(message))
  }

  function SendJson(body: Body): (r: Reply)
    ensures HasCors(r) && r.statusCode == 200 && r.contentType == "application/json" && r.body == body
  {
    Reply(200, "application/json", CorsHeaders, body)
  }

  /** The status object: "ok" exactly when ready, always connected, version 1.0.0. */
  function StatusReply(ready: bool): (r: Reply)
    ensures HasCors(r) && r.statusCode == 200
    ensures r.body.StatusBody? && r.body.connected && r.body.version == "1.0.0"
    ensures (r.body.status == "ok") == ready == r.body.configsReady
  {
    SendJson(StatusBody(if ready then "ok" else "initializing", true, ready, "1.0.0"))
  }

  /** The text after the last `\` or `/` (`Path.GetFileName` on Windows). */
  function FileName(path: string): (name: string)
    ensures EndsWith(path, name)
    ensures forall i :: 0 <= i < |name| ==> name[i] != '\\' && name[i] != '/'
  {
    if |path| == 0 then ""
    else if path[|path| - 1] == '\\' || path[|path| - 1] == '/' then ""
    else FileName(path[..|path| - 1]) + [path[|path| - 1]]
  }

  /** A Windows path is rooted when it starts with a separator or with a
      drive letter and `:` (`Path.IsPathRooted`). */
  predicate IsPathRooted(path: string)
  {
    || (|path| >= 1 && (path[0] == '\\' || path[0] == '/'))
    || (|path| >= 2 && IsAsciiLetter(path[0]) && path[1] == ':')
  }

  predicate IsAsciiLetter(c: char)
  {
    'a' <= c <= 'z' || 'A' <= c <= 'Z'
  }

  /** `Path.Combine` of a directory and a name: an empty name gives the
      directory, a rooted name (or an empty directory) gives the name itself,
      and otherwise one `\` goes between them unless the directory already
      ends in a separator. */
  function PathCombine(dir: string, name: string): (path: string)
    ensures |name| == 0 ==> path == dir
    ensures |name| > 0 && (|dir| == 0 || IsPathRooted(name)) ==> path == name
    ensures EndsWith(path, name)
    ensures |name| > 0 ==> |path| > 0
  {
    if |name| == 0 then dir
    else if |dir| == 0 || IsPathRooted(name) then name
    else if dir[|dir| - 1] == '\\' || dir[|dir| - 1] == '/' then dir + name
    else dir + "\\" + name
  }

  /** The file name of a combined path is the name that was combined in. */
  lemma {:induction false} FileNameOfCombine(dir: string, name: string)
    requires |name| > 0
    requires forall i :: 0 <= i < |name| ==> name[i] != '\\' && name[i] != '/'
    ensures FileName(PathCombine(dir, name)) == name
  {
    var path := PathCombine(dir, name);
    if |dir| == 0 || IsPathRooted(name) {
      FileNameNoSeparator(name);
    } else {
      var head := if dir[|dir| - 1] == '\\' || dir[|dir| - 1] == '/' then dir else dir + "\\";
      assert path == head + name;
      FileNameAfterSeparator(head, name);
    }
  }

  lemma {:induction false} FileNameNoSeparator(name: string)
    requires forall i :: 0 <= i < |name| ==> name[i] != '\\' && name[i] != '/'
    ensures FileName(name) == name
  {
    if |name| > 0 {
      FileNameNoSeparator(name[..|name| - 1]);
    }
  }

  lemma {:induction false} FileNameAfterSeparator(head: string, name: string)
    requires |head| > 0 && (head[|head| - 1] == '\\' || head[|head| - 1] == '/')
    requires forall i :: 0 <= i < |name| ==> name[i] != '\\' && name[i] != '/'
    ensures FileName(head + name) == name
    decreases |name|
  {
    if |name| == 0 {
      assert head + name == head;
    } else {
      var init := name[..|name| - 1];
      assert (head + name)[..|head + name| - 1] == head + init;
      FileNameAfterSeparator(head, init);
      assert init + [name[|name| - 1]] == name;
    }
  }

  function ContentDisposition(fileName: string): string
  {
    "attachment; filename=\"" + fileName + "\""
  }

  /** The exported file: octet-stream, with the file name in Content-Disposition. */
  function FileReply(path: string, bytes: seq<Byte>): (r: Reply)
    ensures HasCors(r) && r.statusCode == 200 && r.contentType == "application/octet-stream"
    ensures r.body == FileBody(bytes)
    ensures r.headers[3..] == [("Content-Disposition", ContentDisposition(FileName(path)))]
  {
    Reply(200, "application/octet-stream", CorsHeaders + [("Content-Disposition", ContentDisposition(FileName(path)))], FileBody(bytes))
  }

  // ---------------------------------------------------------------------
  // Integer parsing

  const Int32Min: int := -0x8000_0000
  const Int32Max: int := 0x7FFF_FFFF

  /** White space `NumberStyles.Integer` skips around the number. */
  const NumberWhite: set<char> := {'\t', '\n', '\U{000B}', '\U{000C}', '\r', ' '}

  predicate AllDigits(s: string)
  {
    forall i :: 0 <= i < |s| ==> '0' <= s[i] <= '9'
  }

  /** `int.TryParse`: optional surrounding white space, one optional sign,
      at least one decimal digit, and a value within 32 bits. */
  function TryParseInt32(s: string): (r: Option<int>)
    ensures r.Some? ==> Int32Min <= r.value <= Int32Max
  {
    ParseSigned(TrimSet(s, NumberWhite))
  }

  /** The trimmed text: an optional sign and then digits only. */
  function ParseSigned(t: string): (r: Option<int>)
    ensures r.Some? ==> Int32Min <= r.value <= Int32Max
  {
    var negative := |t| > 0 && t[0] == '-';
    var digits := if |t| > 0 && (t[0] == '-' || t[0] == '+') then t[1..] else t;
    if |digits| == 0 || !AllDigits(digits) then None
    else
      var magnitude: int := DigitsValue(digits);
      var v := if negative then -magnitude else magnitude;
      if Int32Min <= v <= Int32Max then Some(v) else None
  }

  lemma TrimUnchanged(s: string)
    requires |s| > 0 && s[0] !in NumberWhite && s[|s| - 1] !in NumberWhite
    ensures TrimSet(s, NumberWhite) == s
  {
    var t := TrimStartSet(s, NumberWhite);
    assert t == s;
  }

  /** Every 32-bit integer written in decimal parses back to itself. */
  lemma ParseIntToString(n: int)
    requires Int32Min <= n <= Int32Max
    ensures TryParseInt32(IntToString(n)) == Some(n)
  {
    if n < 0 {
      ParseNegative(-n);
    } else {
      var digits := NatToString(n);
      NatToStringRoundTrip(n);
      DigitsNotWhite(digits);
      TrimUnchanged(digits);
      ParseDigits(digits, digits, false);
    }
  }

  lemma ParseNegative(m: nat)
    requires 0 < m <= -Int32Min
    ensures TryParseInt32("-" + NatToString(m)) == Some(-(m as int))
  {
    var digits := NatToString(m);
    NatToStringRoundTrip(m);
    ParseNegativeDigits(digits, m);
  }

  lemma ParseNegativeDigits(digits: string, m: nat)
    requires AllDigits(digits) && |digits| > 0 && DigitsValue(digits) == m <= -Int32Min
    ensures TryParseInt32("-" + digits) == Some(-(m as int))
  {
    SignedNegative(digits, m);
    TrimmedNegative(digits, m);
  }

  lemma SignedNegative(digits: string, m: nat)
    requires AllDigits(digits) && |digits| > 0 && DigitsValue(digits) == m <= -Int32Min
    ensures ParseSigned("-" + digits) == Some(-(m as int))
  {
    ParseDigits("-" + digits, digits, true);
  }

  lemma TrimmedNegative(digits: string, m: nat)
    requires AllDigits(digits) && |digits| > 0
    requires ParseSigned("-" + digits) == Some(-(m as int))
    ensures TryParseInt32("-" + digits) == Some(-(m as int))
  {
    TrimNegative(digits);
  }

  lemma TrimNegative(digits: string)
    requires AllDigits(digits) && |digits| > 0
    ensures TrimSet("-" + digits, NumberWhite) == "-" + digits
  {
    var s := "-" + digits;
    DigitsNotWhite(digits);
    assert s[0] == '-' && s[|s| - 1] == digits[|digits| - 1];
    TrimUnchanged(s);
  }

  lemma DigitsNotWhite(digits: string)
    requires AllDigits(digits)
    ensures forall i :: 0 <= i < |digits| ==> digits[i] !in NumberWhite
  {
  }

  lemma ParseDigits(t: string, digits: string, negative: bool)
    requires AllDigits(digits) && |digits| > 0
    requires t == if negative then "-" + digits else digits
    requires Int32Min <= (if negative then -(DigitsValue(digits) as int) else DigitsValue(digits)) <= Int32Max
    ensures ParseSigned(t) == Some(if negative then -(DigitsValue(digits) as int) else DigitsValue(digits))
  {
    if negative {
      assert t[0] == '-' && t[1..] == digits;
    } else {
      assert t[0] != '-' && t[0] != '+';
    }
  }

  /** Text with no digit at all never parses. */
  lemma NoDigitsNoNumber(s: string)
    requires forall i :: 0 <= i < |s| ==> !('0' <= s[i] <= '9')
    ensures TryParseInt32(s) == None
  {
    var u := TrimStartSet(s, NumberWhite);
    var t := TrimEndSet(u, NumberWhite);
    var off := if |t| > 0 && (t[0] == '-' || t[0] == '+') then 1 else 0;
    var digits := t[off..];
    if |digits| > 0 {
      assert digits[0] == t[off] == u[off] == s[|s| - |u| + off];
      assert !AllDigits(digits);
    }
  }

  // ---------------------------------------------------------------------
  // Routing

  datatype Route =
    | Preflight
    | Status
    | SelectById(elementId: int)
    | BadId
    | SelectByGuid(guid: string)
    | BadGuid
    | Configurations
    | Export
    | NotFound

  const ByIdPrefix: string := "/select-by-id/"
  const ByGuidPrefix: string := "/select-by-guid/"

  /** The route table of both .NET servers.  `path` is the request URL's
      absolute path, still percent-encoded.  The argument is what remains
      after every occurrence of the prefix is removed. */
  function RouteRequest(httpMethod: string, path: string): Route
  {
    if httpMethod == "OPTIONS" then Preflight
    else if path == "/status" && httpMethod == "GET" then Status
    else if StartsWith(path, ByIdPrefix) && httpMethod == "GET" then
      match TryParseInt32(ReplaceAll(path, ByIdPrefix, ""))
      case Some(id) => SelectById(id)
      case None => BadId
    else if StartsWith(path, ByGuidPrefix) && httpMethod == "GET" then
      var guid := ReplaceAll(path, ByGuidPrefix, "");
      if guid != "" then SelectByGuid(UnescapeDataString(guid)) else BadGuid
    else if path == "/ifc-configurations" && httpMethod == "GET" then Configurations
    else if path == "/export-ifc" && httpMethod == "POST" then Export
    else NotFound
  }

  /** Text without the pattern's first character is left alone by `Replace`. */
  lemma {:induction false} ReplaceAllAbsent(s: string, pattern: string, replacement: string)
    requires |pattern| > 0
    requires forall i :: 0 <= i < |s| ==> s[i] != pattern[0]
    ensures ReplaceAll(s, pattern, replacement) == s
  {
    if |s| >= |pattern| {
      assert s[..|pattern|][0] != pattern[0];
      ReplaceAllAbsent(s[1..], pattern, replacement);
      assert [s[0]] + s[1..] == s;
    }
  }

  /** Removing the prefix from `prefix + rest` leaves `rest`, if `rest` has no `/`. */
  lemma StripPrefix(prefix: string, rest: string)
    requires |prefix| > 0 && prefix[0] == '/'
    requires forall i :: 0 <= i < |rest| ==> rest[i] != '/'
    ensures ReplaceAll(prefix + rest, prefix, "") == rest
  {
    assert (prefix + rest)[..|prefix|] == prefix;
    assert (prefix + rest)[|prefix|..] == rest;
    ReplaceAllAbsent(rest, prefix, "");
  }

  /** A GET under `/select-by-id/` is decided by the parsed remainder alone
      (a step in the proofs of the `RouteRequest` lemmas below). */
  lemma ByIdBranch(path: string)
    requires StartsWith(path, ByIdPrefix)
    ensures RouteRequest("GET", path) ==
      match TryParseInt32(ReplaceAll(path, ByIdPrefix, ""))
      case Some(id) => SelectById(id)
      case None => BadId
  {
    assert path[..|ByIdPrefix|] == ByIdPrefix;
    assert path != "/status" by { assert |path| >= 14; }
  }

  /** A GET under `/select-by-guid/` is decided by the decoded remainder alone
      (a step in the proofs of the `RouteRequest` lemmas below). */
  lemma ByGuidBranch(path: string)
    requires StartsWith(path, ByGuidPrefix)
    ensures var guid := ReplaceAll(path, ByGuidPrefix, "");
      RouteRequest("GET", path) == if guid != "" then SelectByGuid(UnescapeDataString(guid)) else BadGuid
  {
    assert path[..|ByGuidPrefix|] == ByGuidPrefix;
    assert path[11] == ByGuidPrefix[11] == 'g';
    assert !StartsWith(path, ByIdPrefix) by {
      assert ByIdPrefix[11] == 'i';
    }
    assert path != "/status" by { assert |path| >= 16; }
  }

  /** Any 32-bit id written in decimal reaches the select-by-id handler. */
  lemma SelectByIdRoute(n: int)
    requires Int32Min <= n <= Int32Max
    ensures RouteRequest("GET", ByIdPrefix + IntToString(n)) == SelectById(n)
  {
    var s := IntToString(n);
    assert forall i :: 0 <= i < |s| ==> s[i] != '/';
    StripPrefix(ByIdPrefix, s);
    ParseIntToString(n);
    assert (ByIdPrefix + s)[..|ByIdPrefix|] == ByIdPrefix;
    ByIdBranch(ByIdPrefix + s);
  }

  /** A non-empty GUID sent percent-encoded (either encoder) arrives unchanged. */
  lemma SelectByGuidRoute(e: Encoder, guid: string)
    requires guid != ""
    ensures RouteRequest("GET", ByGuidPrefix + PercentEncode(e, guid)) == SelectByGuid(guid)
  {
    var encoded := PercentEncode(e, guid);
    EncodedAlphabet(e, guid);
    assert forall i :: 0 <= i < |encoded| ==> encoded[i] != '/';
    StripPrefix(ByGuidPrefix, encoded);
    assert encoded != "" by {
      assert guid == [guid[0]] + guid[1..];
      PercentEncodeAppend(e, [guid[0]], guid[1..]);
    }
    UnescapeEncodeRoundTrip(e, guid);
    assert (ByGuidPrefix + encoded)[..|ByGuidPrefix|] == ByGuidPrefix;
    ByGuidBranch(ByGuidPrefix + encoded);
  }

  /** A bare `/select-by-guid/` is rejected. */
  lemma EmptyGuidRejected()
    ensures RouteRequest("GET", ByGuidPrefix) == BadGuid
  {
    assert ByGuidPrefix[..|ByGuidPrefix|] == ByGuidPrefix;
    assert ByGuidPrefix[|ByGuidPrefix|..] == "";
    ByGuidBranch(ByGuidPrefix);
  }

  // ---------------------------------------------------------------------
  // Status: bounded retry with back-off

  /** What one attempt to load the configurations came to: completion `true`
      with `count` names, completion `false`, no completion within the
      budget, or an exception. */
  datatype LoadAttempt = Loaded(count: nat) | Refused | TimedOut | Faulted

  const MaxRetries: nat := 3

  /** The budgets waited on, the back-off delays waited, and whether loading succeeded. */
  datatype RetryTrace = RetryTrace(ready: bool, budgets: seq<nat>, waits: seq<nat>)

  function Budget(retry: nat): nat
  {
    if retry == 0 then 10000 else 5000
  }

  /** The retry loop from attempt `retry` on, with back-off `delay` pending. */
  function RetryFrom(attempts: seq<LoadAttempt>, retry: nat, delay: nat): RetryTrace
    requires retry <= MaxRetries == |attempts|
    decreases MaxRetries - retry
  {
    if retry == MaxRetries then RetryTrace(false, [], [])
    else
      var rest := if attempts[retry].Loaded? && attempts[retry].count > 0 then RetryTrace(true, [], [])
        else if attempts[retry].Loaded? then RetryFrom(attempts, retry + 1, delay)
        else if retry < MaxRetries - 1 then
          var after := RetryFrom(attempts, retry + 1, delay * 2);
          RetryTrace(after.ready, after.budgets, [delay] + after.waits)
        else RetryFrom(attempts, retry + 1, delay);
      RetryTrace(rest.ready, [Budget(retry)] + rest.budgets, rest.waits)
  }

  /** The status handler's loop: up to three attempts, 10 s for the first and
      5 s for the others; after an attempt that timed out, was refused or
      threw, wait the current delay (1 s, doubling) unless it was the last;
      stop at the first attempt that delivers a non-empty list. */
  method LoadWithRetry(attempts: seq<LoadAttempt>) returns (trace: RetryTrace)
    requires |attempts| == MaxRetries
    ensures trace == RetryFrom(attempts, 0, 1000)
  {
    var ready := false;
    var budgets: seq<nat> := [];
    var waits: seq<nat> := [];
    var retryDelay: nat := 1000;
    var retry := 0;
    while retry < MaxRetries && !ready
      invariant 0 <= retry <= MaxRetries
      invariant !ready ==> RetryFrom(attempts, 0, 1000) == Then(budgets, waits, RetryFrom(attempts, retry, retryDelay))
      invariant ready ==> RetryFrom(attempts, 0, 1000) == RetryTrace(true, budgets, waits)
      decreases MaxRetries - retry
    {
      RetryStep(attempts, retry, retryDelay);
      var timeout := if retry == 0 then 10000 else 5000;
      var outcome := attempts[retry];
      if outcome.Loaded? {
        ready := outcome.count > 0;
        if !ready {
          ThenAssoc(budgets, [timeout], waits, []);
          assert waits + [] == waits;
        }
        budgets := budgets + [timeout];
      } else if retry < MaxRetries - 1 {
        ThenAssoc(budgets, [timeout], waits, [retryDelay]);
        budgets := budgets + [timeout];
        waits := waits + [retryDelay];
        retryDelay := retryDelay * 2;
      } else {
        ThenAssoc(budgets, [timeout], waits, []);
        assert waits + [] == waits;
        budgets := budgets + [timeout];
      }
      retry := retry + 1;
    }
    trace := RetryTrace(ready, budgets, waits);
  }

  /** `t` preceded by the given budgets and waits. */
  function Then(budgets: seq<nat>, waits: seq<nat>, t: RetryTrace): RetryTrace
  {
    RetryTrace(t.ready, budgets + t.budgets, waits + t.waits)
  }

  lemma ThenAssoc(b1: seq<nat>, b2: seq<nat>, w1: seq<nat>, w2: seq<nat>)
    ensures forall t :: Then(b1, w1, Then(b2, w2, t)) == Then(b1 + b2, w1 + w2, t)
  {
    forall t ensures Then(b1, w1, Then(b2, w2, t)) == Then(b1 + b2, w1 + w2, t) {
      assert b1 + (b2 + t.budgets) == (b1 + b2) + t.budgets;
      assert w1 + (w2 + t.waits) == (w1 + w2) + t.waits;
    }
  }

  /** One attempt of the retry loop, case by case. */
  lemma RetryStep(attempts: seq<LoadAttempt>, retry: nat, delay: nat)
    requires retry < MaxRetries == |attempts|
    ensures var t := RetryFrom(attempts, retry, delay);
      var b := [Budget(retry)];
      && (attempts[retry].Loaded? && attempts[retry].count > 0 ==> t == RetryTrace(true, b, []))
      && (attempts[retry].Loaded? && attempts[retry].count == 0 ==>
            t == Then(b, [], RetryFrom(attempts, retry + 1, delay)))
      && (!attempts[retry].Loaded? && retry < MaxRetries - 1 ==>
            t == Then(b, [delay], RetryFrom(attempts, retry + 1, delay * 2)))
      && (!attempts[retry].Loaded? && retry == MaxRetries - 1 ==>
            t == Then(b, [], RetryFrom(attempts, retry + 1, delay)))
  {
  }

  /** Loading succeeds exactly when one of the three attempts delivers a non-empty list. */
  lemma {:induction false} RetryReady(attempts: seq<LoadAttempt>, retry: nat, delay: nat)
    requires retry <= MaxRetries == |attempts|
    ensures RetryFrom(attempts, retry, delay).ready
      <==> exists k :: retry <= k < MaxRetries && attempts[k].Loaded? && attempts[k].count > 0
    decreases MaxRetries - retry
  {
    if retry < MaxRetries {
      RetryReady(attempts, retry + 1, delay);
      RetryReady(attempts, retry + 1, delay * 2);
    }
  }

  /** At most three attempts, at least one, with budgets 10000, 5000, 5000 in that order. */
  lemma {:induction false} RetryBudgets(attempts: seq<LoadAttempt>, retry: nat, delay: nat)
    requires retry <= MaxRetries == |attempts|
    ensures var t := RetryFrom(attempts, retry, delay);
      && |t.budgets| <= MaxRetries - retry
      && (retry < MaxRetries ==> |t.budgets| >= 1)
      && (forall i :: 0 <= i < |t.budgets| ==> t.budgets[i] == Budget(retry + i))
    decreases MaxRetries - retry
  {
    if retry < MaxRetries {
      RetryBudgets(attempts, retry + 1, delay);
      RetryBudgets(attempts, retry + 1, delay * 2);
    }
  }

  /** Back-off waits: the pending delay, then twice it; never more than two,
      so no wait follows the last attempt. */
  lemma {:induction false} RetryWaits(attempts: seq<LoadAttempt>, retry: nat, delay: nat)
    requires retry <= MaxRetries == |attempts|
    ensures var t := RetryFrom(attempts, retry, delay);
      && |t.waits| <= (if retry < MaxRetries then MaxRetries - 1 - retry else 0)
      && t.waits == [delay, 2 * delay][..|t.waits|]
    decreases MaxRetries - retry
  {
    if retry < MaxRetries {
      RetryStep(attempts, retry, delay);
      RetryWaits(attempts, retry + 1, delay);
      RetryWaits(attempts, retry + 1, delay * 2);
    }
  }

  /** How many of the attempts `lo` up to `hi` (exclusive) timed out, were refused or threw. */
  function FailedIn(attempts: seq<LoadAttempt>, lo: nat, hi: nat): nat
    requires hi <= |attempts|
    decreases hi - lo
  {
    if lo >= hi then 0 else (if attempts[lo].Loaded? then 0 else 1) + FailedIn(attempts, lo + 1, hi)
  }

  /** Attempts that can be followed by a wait: all that ran, except a third. */
  function WaitWindow(run: nat): (w: nat)
    ensures w < MaxRetries
  {
    if run >= MaxRetries then MaxRetries - 1 else run
  }

  /** A wait follows exactly the failed attempts before the last one: none
      after an attempt that completed with an empty list. */
  lemma {:induction false} RetryWaitsFollowFailures(attempts: seq<LoadAttempt>, retry: nat, delay: nat)
    requires retry < MaxRetries == |attempts|
    ensures retry < retry + |RetryFrom(attempts, retry, delay).budgets| <= MaxRetries
    ensures |RetryFrom(attempts, retry, delay).waits|
      == FailedIn(attempts, retry, WaitWindow(retry + |RetryFrom(attempts, retry, delay).budgets|))
    decreases MaxRetries - retry
  {
    RetryStep(attempts, retry, delay);
    RetryBudgets(attempts, retry, delay);
    if retry + 1 < MaxRetries {
      RetryWaitsFollowFailures(attempts, retry + 1, delay);
      RetryWaitsFollowFailures(attempts, retry + 1, delay * 2);
    } else {
      RetryBudgets(attempts, retry + 1, delay);
    }
  }

  function Sum(xs: seq<nat>): nat
  {
    if |xs| == 0 then 0 else xs[0] + Sum(xs[1..])
  }

  /** Budgets and waits together come to at most 23 seconds. */
  lemma StatusTimeBound(attempts: seq<LoadAttempt>)
    requires |attempts| == MaxRetries
    ensures var t := RetryFrom(attempts, 0, 1000); Sum(t.budgets) + Sum(t.waits) <= 23000
  {
    var t := RetryFrom(attempts, 0, 1000);
    assert Sum(t.budgets) <= 20000 by {
      RetryBudgets(attempts, 0, 1000);
      BudgetSum(t.budgets);
    }
    assert Sum(t.waits) <= 3000 by {
      RetryWaits(attempts, 0, 1000);
      WaitSum(t.waits);
    }
  }

  lemma BudgetSum(budgets: seq<nat>)
    requires |budgets| <= 3 && forall i :: 0 <= i < |budgets| ==> budgets[i] == Budget(i)
    ensures Sum(budgets) <= 20000
  {
    if |budgets| > 0 {
      var b := budgets[1..];
      if |b| > 0 {
        assert Sum(b) == b[0] + Sum(b[1..]);
        if |b| > 1 {
          assert Sum(b[1..]) == b[1] + Sum(b[2..]);
        }
      }
    }
  }

  lemma WaitSum(waits: seq<nat>)
    requires |waits| <= 2 && waits == [1000, 2000][..|waits|]
    ensures Sum(waits) <= 3000
  {
    if |waits| > 0 {
      assert Sum(waits) == waits[0] + Sum(waits[1..]);
      if |waits| > 1 {
        assert Sum(waits[1..]) == waits[1] + Sum(waits[2..]);
      }
    }
  }

  // ---------------------------------------------------------------------
  // Configurations

  /** The three names every server falls back to. */
  const DefaultConfigurations: seq<string> := ["Default", "IFC2x3", "IFC4"]

  /** How a host call the server waited for ended: completion with a value in
      time, no completion within the budget, or an exception (with its
      message) while raising it. */
  datatype Completion = InTime(value: bool) | Late | Threw(message: string)

  /** The configurations reply: the handler's list when it completed `true`
      with a non-empty list, the three defaults otherwise. */
  function ConfigurationsReply(completion: Completion, handlerList: seq<string>): (r: Reply)
    ensures r.body.ConfigurationsBody? && r == SendJson(ConfigurationsBody(r.body.configurations))
    ensures |r.body.configurations| > 0
    ensures completion == InTime(true) && |handlerList| > 0 ==> r.body.configurations == handlerList
    ensures completion != InTime(true) || |handlerList| == 0 ==> r.body.configurations == DefaultConfigurations
  {
    if completion == InTime(true) && |handlerList| > 0 then SendJson(ConfigurationsBody(handlerList))
    else SendJson(ConfigurationsBody(DefaultConfigurations))
  }

  // ---------------------------------------------------------------------
  // Export

  /** The request body as `Deserialize<Dictionary<string, string>>` saw it. */
  datatype ParsedBody = Malformed(message: string) | NullBody | Fields(fields: map<string, string>)

  /** Why an export failed, checked in this order. */
  function ExportFailureDetail(outputPath: Option<string>, existing: set<string>): (d: string)
    ensures outputPath.None? ==> d == "Export handler did not set output file path"
    ensures outputPath.Some? && outputPath.value !in existing ==> d == "File was not created at: " + outputPath.value
    ensures outputPath.Some? && outputPath.value in existing ==> d == "Export handler returned false"
  {
    match outputPath
    case None => "Export handler did not set output file path"
    case Some(p) => if p !in existing then "File was not created at: " + p else "Export handler returned false"
  }

  /** The export reply given the parsed body, how the export call ended, the
      handler's output path when the server looks at it, and the files. */
  function ExportReply(body: ParsedBody, completion: Completion, outputPath: Option<string>,
                       files: map<string, seq<Byte>>): (r: Reply)
    ensures HasCors(r)
    ensures body.Malformed? ==> r == SendError(500, "Failed to export IFC: " + body.message)
    ensures body.NullBody? || (body.Fields? && "configuration" !in body.fields)
      ==> r == SendError(400, "Missing 'configuration' parameter")
    ensures r.statusCode == 200 <==>
      body.Fields? && "configuration" in body.fields && completion == InTime(true)
      && outputPath.Some? && outputPath.value != "" && outputPath.value in files
    ensures r.statusCode == 200 ==> r == FileReply(outputPath.value, files[outputPath.value])
    ensures body.Fields? && "configuration" in body.fields && completion.Threw?
      ==> r == SendError(500, "Failed to export IFC: " + completion.message)
    ensures body.Fields? && "configuration" in body.fields && (completion.Late? || completion == InTime(false))
      ==> r == SendError(500, "Failed to export IFC: " + ExportFailureDetail(outputPath, files.Keys))
  {
    match body
    case Malformed(message) => SendError(500, "Failed to export IFC: " + message)
    case NullBody => SendError(400, "Missing 'configuration' parameter")
    case Fields(fields) =>
      if "configuration" !in fields then SendError(400, "Missing 'configuration' parameter")
      else if completion.Threw? then SendError(500, "Failed to export IFC: " + completion.message)
      else if completion == InTime(true) && outputPath.Some? && outputPath.value != "" then
        if outputPath.value in files then FileReply(outputPath.value, files[outputPath.value])
        else SendError(500, "IFC file was not created")
      else SendError(500, "Failed to export IFC: " + ExportFailureDetail(outputPath, files.Keys))
  }
}
