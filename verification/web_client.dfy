/** What the Revit and Archicad browser clients share: the connection record,
    its initial state, GlobalId validation, the select URL, the export file
    name and the outcomes of the requests they send.  Requests, timers and
    the clock are inputs. */
module WebClient {
  import opened Text
  import UriText
  import DotNetBridge

  /** A JavaScript argument: a string, or some other value, truthy or not. */
  datatype JsArg = Str(s: string) | NonString(truthy: bool)

  /** The connection record the page's components read. */
  datatype ClientRecord = ClientRecord(enabled: bool, apiUrl: Option<string>, connected: bool, auditing: bool, loading: bool)

  /** An `apiUrl` that JavaScript treats as set. */
  predicate HasApiUrl(c: ClientRecord)
  {
    c.apiUrl.Some? && c.apiUrl.value != ""
  }

  /** A toast shown to the user. */
  datatype Toast = Success(text: string) | Failure(text: string)

  predicate IsLocalHost(hostname: string)
  {
    hostname == "localhost" || hostname == "127.0.0.1" || hostname == "0.0.0.0"
  }

  /** The record at module load: a non-empty `api` query parameter wins;
      otherwise a page served from this machine uses the local server, and
      any other page stays disabled with no URL. */
  function InitialRecord(apiParam: Option<string>, hostname: string, localUrl: string): (c: ClientRecord)
    ensures !c.connected && !c.auditing && !c.loading
    ensures apiParam.Some? && apiParam.value != "" ==> c.enabled && c.apiUrl == apiParam
    ensures !(apiParam.Some? && apiParam.value != "") ==>
      (c.enabled <==> IsLocalHost(hostname)) && c.apiUrl == (if IsLocalHost(hostname) then Some(localUrl) else None)
  {
    if apiParam.Some? && apiParam.value != "" then ClientRecord(true, apiParam, false, false, false)
    else if IsLocalHost(hostname) then ClientRecord(true, Some(localUrl), false, false, false)
    else ClientRecord(false, None, false, false, false)
  }

  /** An initial record is enabled exactly when it has an API URL. */
  lemma InitialEnabledIffUrl(apiParam: Option<string>, hostname: string, localUrl: string)
    requires localUrl != ""
    ensures InitialRecord(apiParam, hostname, localUrl).enabled <==> HasApiUrl(InitialRecord(apiParam, hostname, localUrl))
  {
  }

  /** The characters JavaScript's `String.prototype.trim` removes. */
  const JsWhiteSpace: set<char> := {
    '\t', '\n', '\U{000B}', '\U{000C}', '\r', ' ', '\U{00A0}', '\U{1680}',
    '\U{2000}', '\U{2001}', '\U{2002}', '\U{2003}', '\U{2004}', '\U{2005}', '\U{2006}',
    '\U{2007}', '\U{2008}', '\U{2009}', '\U{200A}', '\U{2028}', '\U{2029}', '\U{202F}',
    '\U{205F}', '\U{3000}', '\U{FEFF}'
  }

  function JsTrim(s: string): string
  {
    TrimSet(s, JsWhiteSpace)
  }

  /** A GlobalId worth sending: a string, not empty, not blank and not `-`.
      The `-` test is on the untrimmed text. */
  predicate ValidGlobalId(globalId: JsArg)
  {
    globalId.Str? && globalId.s != "" && JsTrim(globalId.s) != "" && globalId.s != "-"
  }

  /** A valid GlobalId keeps some non-blank text once trimmed. */
  lemma ValidTrimmedNonEmpty(globalId: JsArg)
    requires ValidGlobalId(globalId)
    ensures |JsTrim(globalId.s)| > 0 && JsTrim(globalId.s)[0] !in JsWhiteSpace
  {
    var t := TrimStartSet(globalId.s, JsWhiteSpace);
    assert JsTrim(globalId.s) == t[..|JsTrim(globalId.s)|];
  }

  /** `<api>/select-by-guid/<encodeURIComponent(trimmed id)>`. */
  function SelectPath(globalId: string): (path: string)
    ensures StartsWith(path, DotNetBridge.ByGuidPrefix)
  {
    DotNetBridge.ByGuidPrefix + UriText.EncodeUriComponent(JsTrim(globalId))
  }

  function SelectUrl(apiUrl: string, globalId: string): string
  {
    apiUrl + SelectPath(globalId)
  }

  /** A trimmed GlobalId reaches the .NET servers' select-by-GUID handler
      unchanged. */
  lemma SelectPathRoutes(globalId: string)
    requires JsTrim(globalId) != ""
    ensures DotNetBridge.RouteRequest("GET", SelectPath(globalId)) == DotNetBridge.SelectByGuid(JsTrim(globalId))
  {
    DotNetBridge.SelectByGuidRoute(UriText.UriComponent, JsTrim(globalId));
  }

  // ---------------------------------------------------------------------
  // Export file name

  /** The text up to the first double quote. */
  function QuoteFreeRun(s: string): (r: string)
    ensures |r| <= |s| && r == s[..|r|] && '"' !in r
    ensures |r| < |s| ==> s[|r|] == '"'
  {
    if |s| == 0 || s[0] == '"' then "" else [s[0]] + QuoteFreeRun(s[1..])
  }

  /** The capture of `filename="?([^"]+)"?` at position `i`, if it matches there. */
  function FileNameAt(header: string, i: nat): (r: Option<string>)
    ensures r.Some? ==> r.value != "" && '"' !in r.value
  {
    var j := i + 9;
    if !OccursAt(header, "filename=", i) then None
    else if j < |header| && header[j] == '"' then
      (if j + 1 < |header| && header[j + 1] != '"' then Some(QuoteFreeRun(header[j + 1..])) else None)
    else if j < |header| then Some(QuoteFreeRun(header[j..]))
    else None
  }

  /** The leftmost match at or after `i`. */
  function FileNameFrom(header: string, i: nat): (r: Option<string>)
    ensures r.Some? ==> r.value != "" && '"' !in r.value
    decreases |header| - i
  {
    if i >= |header| then None
    else if FileNameAt(header, i).Some? then FileNameAt(header, i)
    else FileNameFrom(header, i + 1)
  }

  /** The file name a `Content-Disposition` header names, if any. */
  function MatchFileName(header: string): Option<string>
  {
    FileNameFrom(header, 0)
  }

  lemma {:induction false} QuoteFreeRunStops(name: string, rest: string)
    requires '"' !in name
    ensures QuoteFreeRun(name + "\"" + rest) == name
  {
    if |name| > 0 {
      assert (name + "\"" + rest)[1..] == name[1..] + "\"" + rest;
      QuoteFreeRunStops(name[1..], rest);
    }
  }

  /** Positions without an `f` cannot start a match. */
  lemma {:induction false} FileNameSkips(header: string, i: nat, k: nat)
    requires i <= k <= |header|
    requires forall m :: i <= m < k ==> header[m] != 'f'
    ensures FileNameFrom(header, i) == FileNameFrom(header, k)
    decreases k - i
  {
    if i < k {
      if i + 9 <= |header| {
        assert header[i..i + 9][0] == header[i];
      }
      FileNameSkips(header, i + 1, k);
    }
  }

  const DispositionLead: string := "attachment; filename=\""

  lemma DispositionShape(name: string)
    ensures var header := DotNetBridge.ContentDisposition(name);
      |header| == 23 + |name| && header[..22] == DispositionLead && header[22..] == name + "\""
  {
  }

  /** The header the .NET servers send gives back exactly the file name. */
  lemma FileNameRoundTrip(name: string)
    requires name != "" && '"' !in name
    ensures MatchFileName(DotNetBridge.ContentDisposition(name)) == Some(name)
  {
    var header := DotNetBridge.ContentDisposition(name);
    DispositionShape(name);
    forall m | 0 <= m < 12
      ensures header[m] != 'f'
    {
      assert header[m] == header[..22][m] == DispositionLead[m];
    }
    FileNameSkips(header, 0, 12);
    assert header[12..21] == header[..22][12..21] == "filename=";
    assert header[21] == header[..22][21] == '"';
    assert header[22..][0] == name[0];
    assert header[22..] == name + "\"" + "";
    QuoteFreeRunStops(name, "");
  }

  /** `toISOString()` with `:` and `.` turned into `-`. */
  function SanitiseTime(iso: string): (r: string)
    ensures |r| == |iso|
    ensures ':' !in r && '.' !in r
  {
    ReplaceChar(ReplaceChar(iso, ':', '-'), '.', '-')
  }

  /** The name from a non-empty `Content-Disposition` header that matches,
      else `<prefix><sanitised time>.ifc`. */
  function ExportFileName(prefix: string, contentDisposition: Option<string>, iso: string): (name: string)
    ensures name != ""
    ensures (contentDisposition.Some? && contentDisposition.value != "" && MatchFileName(contentDisposition.value).Some?) ==>
      name == MatchFileName(contentDisposition.value).value
    ensures !(contentDisposition.Some? && contentDisposition.value != "" && MatchFileName(contentDisposition.value).Some?) ==>
      name == prefix + SanitiseTime(iso) + ".ifc"
  {
    if contentDisposition.Some? && contentDisposition.value != "" && MatchFileName(contentDisposition.value).Some? then
      MatchFileName(contentDisposition.value).value
    else prefix + SanitiseTime(iso) + ".ifc"
  }

  // ---------------------------------------------------------------------
  // Request outcomes

  /** How a `fetch` with an abort timer ended: a response (with its `ok`,
      status and status text), the timer's abort, or another error. */
  datatype FetchOutcome = Responded(ok: bool, status: int, statusText: string) | Aborted | Failed(message: string)

  /** How reading the configurations ended: a response whose JSON body may
      lack `configurations`, an unreadable body, or a failed request. */
  datatype ConfigsOutcome = ConfigsResponded(ok: bool, configurations: Option<seq<string>>) | ConfigsBadJson | ConfigsFailed

  /** The configurations, or `[]` on any failure or a body without them. */
  function ConfigurationsResult(connectedWithUrl: bool, outcome: ConfigsOutcome): (r: seq<string>)
    ensures !connectedWithUrl ==> r == []
    ensures r != [] ==> connectedWithUrl && outcome.ConfigsResponded? && outcome.ok && outcome.configurations == Some(r)
    ensures connectedWithUrl && outcome.ConfigsResponded? && outcome.ok && outcome.configurations.Some? ==>
      r == outcome.configurations.value
  {
    if !connectedWithUrl then []
    else match outcome
      case ConfigsResponded(ok, configurations) => if ok && configurations.Some? then configurations.value else []
      case _ => []
  }

  /** How the export request ended: a response (its `ok`, the file bytes and
      the `Content-Disposition` header), or a failed request. */
  datatype ExportOutcome = ExportResponded(ok: bool, bytes: seq<Byte>, contentDisposition: Option<string>) | ExportFailed

  datatype File = File(name: string, bytes: seq<Byte>)

  /** The file, named by the header or by the fallback, or none on a failed
      guard, a refused configuration name or a failed request. */
  function ExportResult(connectedWithUrl: bool, configurationName: JsArg, outcome: ExportOutcome,
                        prefix: string, iso: string): (r: Option<File>)
    ensures r.Some? <==> connectedWithUrl && configurationName.Str? && configurationName.s != ""
                         && outcome.ExportResponded? && outcome.ok
    ensures r.Some? ==> r.value == File(ExportFileName(prefix, outcome.contentDisposition, iso), outcome.bytes)
  {
    if !connectedWithUrl || !(configurationName.Str? && configurationName.s != "") then None
    else match outcome
      case ExportResponded(ok, bytes, contentDisposition) =>
        if ok then Some(File(ExportFileName(prefix, contentDisposition, iso), bytes)) else None
      case ExportFailed => None
  }

  /** A file exported by a .NET server keeps the server's file name. */
  lemma ExportKeepsServerName(configurationName: JsArg, bytes: seq<Byte>, serverName: string, prefix: string, iso: string)
    requires configurationName.Str? && configurationName.s != ""
    requires serverName != "" && '"' !in serverName
    ensures ExportResult(true, configurationName, ExportResponded(true, bytes, Some(DotNetBridge.ContentDisposition(serverName))), prefix, iso)
         == Some(File(serverName, bytes))
  {
    FileNameRoundTrip(serverName);
  }

  /** How the browser-side audit ended: a report (with its id, empty when
      missing) or an exception. */
  datatype AuditOutcome = Report(id: string) | AuditThrows

  /** The audit id, none unless connected with an active IDS document, an IFC
      model loaded and a report with an id. */
  function AuditResult(connected: bool, hasActiveDocument: bool, modelCount: nat, outcome: AuditOutcome): (r: Option<string>)
    ensures r.Some? <==> connected && hasActiveDocument && modelCount > 0 && outcome.Report? && outcome.id != ""
    ensures r.Some? ==> r.value == outcome.id
  {
    if !connected || !hasActiveDocument || modelCount == 0 then None
    else match outcome
      case Report(id) => if id != "" then Some(id) else None
      case AuditThrows => None
  }
}
