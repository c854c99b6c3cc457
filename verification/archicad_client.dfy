/** The browser's Archicad client: the connection record, connecting with
    its error classification, selection through the palette's JavaScript
    object or the HTTP server, and the configuration, export and audit calls.
    What the network and the palette answer is an input. */
module ArchicadClient {
  import opened Text
  import opened WebClient
  import BrowserPalette

  const LocalApiUrl: string := "http://localhost:48882"

  const TimeoutMessage: string := "Connection timeout - ArchiCAD API server may not be running"
  const NetworkMessage: string := "Network error - Cannot reach ArchiCAD API server. Check if add-on is loaded."
  const CorsMessage: string := "CORS error - API server may not be configured correctly"

  /** The inner handler's rewording of a fetch error message. */
  function Reworded(message: string): (r: string)
    ensures (Contains(message, "Failed to fetch") || Contains(message, "NetworkError")) ==> r == NetworkMessage
    ensures !(Contains(message, "Failed to fetch") || Contains(message, "NetworkError")) ==>
      if Contains(message, "CORS") || Contains(message, "cross-origin") then r == CorsMessage else r == message
  {
    if Contains(message, "Failed to fetch") || Contains(message, "NetworkError") then NetworkMessage
    else if Contains(message, "CORS") || Contains(message, "cross-origin") then CorsMessage
    else message
  }

  /** The message the failed connection attempt reaches the outer handler
      with: an abort is a timeout; the `HTTP <status>: <text>` error and
      every other error pass through the rewording. */
  function ConnectError(outcome: FetchOutcome): string
    requires !(outcome.Responded? && outcome.ok)
  {
    match outcome
    case Responded(_, status, statusText) => Reworded("HTTP " + IntToString(status) + ": " + statusText)
    case Aborted => TimeoutMessage
    case Failed(message) => Reworded(message)
  }

  const TimeoutToast: string := "Connection timeout. Make sure IfcTester add-on is loaded in ArchiCAD."
  const NetworkToast: string := "Cannot connect to ArchiCAD API server. Verify the add-on is loaded and port 48882 is available."

  /** The outer handler's toast: a timeout, a network error, or the message itself. */
  function ConnectToast(message: string): (t: Toast)
    ensures t.Failure?
    ensures Contains(message, "timeout") ==> t == Failure(TimeoutToast)
    ensures !Contains(message, "timeout") && Contains(message, "Network error") ==> t == Failure(NetworkToast)
    ensures !Contains(message, "timeout") && !Contains(message, "Network error") ==>
      t == Failure("Failed to connect to ArchiCAD: " + message)
  {
    if Contains(message, "timeout") then Failure(TimeoutToast)
    else if Contains(message, "Network error") then Failure(NetworkToast)
    else Failure("Failed to connect to ArchiCAD: " + message)
  }

  /** The toast after a connection attempt. */
  function OutcomeToast(outcome: FetchOutcome): (t: Toast)
    ensures t.Success? <==> outcome.Responded? && outcome.ok
  {
    if outcome.Responded? && outcome.ok then Success("Connected to ArchiCAD") else ConnectToast(ConnectError(outcome))
  }

  /** What the palette's `SelectElementByGUID` did: resolved with a truthy
      or falsy value, or threw. */
  datatype AcapiOutcome = AcapiResolved(truthy: bool) | AcapiThrows(message: string)

  /** The palette's function when the page's `ACAPI` object has one under
      the name the client asks for. */
  function AcapiFor(registered: seq<string>, outcome: AcapiOutcome): (r: Option<AcapiOutcome>)
    ensures r.Some? <==> "SelectElementByGUID" in registered
    ensures r.Some? ==> r.value == outcome
  {
    if "SelectElementByGUID" in registered then Some(outcome) else None
  }

  /** The palette registers `SelectElementByGuid`, so the client never finds
      its upper-case `SelectElementByGUID` and always selects over HTTP. */
  lemma PaletteBridgeLeavesHttp(outcome: AcapiOutcome)
    ensures AcapiFor(BrowserPalette.BridgeNames, outcome) == None
  {
    BrowserPalette.BridgeLacksUpperCaseGuid();
  }

  function AcapiToast(outcome: AcapiOutcome): Toast
  {
    match outcome
    case AcapiResolved(truthy) =>
      if truthy then Success("Element selected in ArchiCAD") else Failure("Element not found in ArchiCAD")
    case AcapiThrows(message) => Failure("Failed to select element: " + message)
  }

  /** How the HTTP select request ended: a response (its JSON `success` and
      `message` when ok), an abort after ten seconds, or another failure. */
  datatype SelectOutcome =
    | SelectResponded(ok: bool, status: int, success: bool, message: Option<string>)
    | SelectAborted
    | SelectFailed(error: string)

  function SelectToast(outcome: SelectOutcome): (t: Toast)
    ensures t.Success? <==> outcome.SelectResponded? && outcome.ok && outcome.success
    ensures outcome.SelectAborted? ==> t == Failure("Request timed out")
  {
    match outcome
    case SelectResponded(ok, status, success, message) =>
      if !ok then Failure("Failed to select element: HTTP " + IntToString(status))
      else if success then Success("Element selected in ArchiCAD")
      else if message.Some? && message.value != "" then Failure(message.value)
      else Failure("Element not found in ArchiCAD")
    case SelectAborted => Failure("Request timed out")
    case SelectFailed(error) => Failure("Failed to select element: " + error)
  }

  /** The module-level `ArchiCAD` record, the URLs requested so far and the
      toasts shown by connecting, disconnecting and selecting. */
  class Client {
    var enabled: bool
    var apiUrl: Option<string>
    var connected: bool
    var auditing: bool
    var loading: bool
    var requests: seq<string>
    var toasts: seq<Toast>

    function Record(): ClientRecord
      reads this
    {
      ClientRecord(enabled, apiUrl, connected, auditing, loading)
    }

    predicate ConnectedWithUrl()
      reads this
    {
      HasApiUrl(Record()) && connected
    }

    /** Module load: the `api` parameter, else the local server on a local page. */
    constructor(apiParam: Option<string>, hostname: string)
      ensures Record() == InitialRecord(apiParam, hostname, LocalApiUrl)
      ensures requests == [] && toasts == []
    {
      var init := InitialRecord(apiParam, hostname, LocalApiUrl);
      enabled := init.enabled;
      apiUrl := init.apiUrl;
      connected := false;
      auditing := false;
      loading := false;
      requests := [];
      toasts := [];
    }

    /** Asks `/status`; connected exactly when it answers ok, and not loading afterwards. */
    method Connect(outcome: FetchOutcome) returns (ok: bool)
      modifies this`connected, this`loading, this`requests, this`toasts
      ensures !HasApiUrl(Record()) ==>
        !ok && connected == old(connected) && loading == old(loading) && requests == old(requests)
        && toasts == old(toasts) + [Failure("No ArchiCAD API URL provided")]
      ensures HasApiUrl(Record()) ==>
        && !loading && requests == old(requests) + [apiUrl.value + "/status"]
        && (ok <==> outcome.Responded? && outcome.ok) && connected == ok
        && toasts == old(toasts) + [OutcomeToast(outcome)]
    {
      if !HasApiUrl(Record()) {
        toasts := toasts + [Failure("No ArchiCAD API URL provided")];
        return false;
      }
      loading := true;
      requests := requests + [apiUrl.value + "/status"];
      ok := outcome.Responded? && outcome.ok;
      connected := ok;
      toasts := toasts + [OutcomeToast(outcome)];
      loading := false;
    }

    method Disconnect()
      modifies this`connected, this`toasts
      ensures !connected && toasts == old(toasts) + [Success("Disconnected from ArchiCAD")]
    {
      connected := false;
      toasts := toasts + [Success("Disconnected from ArchiCAD")];
    }

    /** Refuses an unusable GlobalId first; then the palette's function, when
        present, alone decides; otherwise the HTTP server is asked, if
        connected, and selection succeeds only on an ok response reporting
        success. */
    method SelectElement(globalId: JsArg, acapi: Option<AcapiOutcome>, outcome: SelectOutcome) returns (selected: bool)
      modifies this`requests, this`toasts
      ensures !ValidGlobalId(globalId) ==> !selected && requests == old(requests) && toasts == old(toasts)
      ensures ValidGlobalId(globalId) && acapi.Some? ==>
        && selected == (acapi.value == AcapiResolved(true))
        && requests == old(requests) && toasts == old(toasts) + [AcapiToast(acapi.value)]
      ensures ValidGlobalId(globalId) && acapi.None? && !ConnectedWithUrl() ==>
        && !selected && requests == old(requests)
        && toasts == old(toasts) + [Failure("Not connected to ArchiCAD. window.ACAPI not available and HTTP API not configured.")]
      ensures ValidGlobalId(globalId) && acapi.None? && ConnectedWithUrl() ==>
        && requests == old(requests) + [SelectUrl(apiUrl.value, globalId.s)]
        && (selected <==> outcome.SelectResponded? && outcome.ok && outcome.success)
        && toasts == old(toasts) + [SelectToast(outcome)]
    {
      if !ValidGlobalId(globalId) {
        return false;
      }
      if acapi.Some? {
        selected := acapi.value == AcapiResolved(true);
        toasts := toasts + [AcapiToast(acapi.value)];
        return;
      }
      if !ConnectedWithUrl() {
        toasts := toasts + [Failure("Not connected to ArchiCAD. window.ACAPI not available and HTTP API not configured.")];
        return false;
      }
      requests := requests + [SelectUrl(apiUrl.value, globalId.s)];
      selected := outcome.SelectResponded? && outcome.ok && outcome.success;
      toasts := toasts + [SelectToast(outcome)];
    }

    /** The export configurations, `[]` on any failure. */
    method GetIfcConfigurations(outcome: ConfigsOutcome) returns (configurations: seq<string>)
      modifies this`requests
      ensures configurations == ConfigurationsResult(ConnectedWithUrl(), outcome)
      ensures requests == old(requests) + (if ConnectedWithUrl() then [apiUrl.value + "/ifc-configurations"] else [])
    {
      if !ConnectedWithUrl() {
        return [];
      }
      requests := requests + [apiUrl.value + "/ifc-configurations"];
      configurations := ConfigurationsResult(true, outcome);
    }

    /** The exported file, named by the server or `ArchiCAD_Export_<time>.ifc`. */
    method ExportIfc(configurationName: JsArg, outcome: ExportOutcome, iso: string) returns (file: Option<File>)
      modifies this`requests
      ensures file == ExportResult(ConnectedWithUrl(), configurationName, outcome, "ArchiCAD_Export_", iso)
      ensures requests == old(requests) +
        (if ConnectedWithUrl() && configurationName.Str? && configurationName.s != "" then [apiUrl.value + "/export-ifc"] else [])
    {
      if !ConnectedWithUrl() || !(configurationName.Str? && configurationName.s != "") {
        return None;
      }
      requests := requests + [apiUrl.value + "/export-ifc"];
      file := ExportResult(true, configurationName, outcome, "ArchiCAD_Export_", iso);
    }

    /** Runs the browser audit when connected with an active IDS document;
        `auditing` is cleared on every path that set it. */
    method RunAudit(hasActiveDocument: bool, modelCount: nat, outcome: AuditOutcome) returns (id: Option<string>)
      modifies this`auditing
      ensures id == AuditResult(connected, hasActiveDocument, modelCount, outcome)
      ensures connected && hasActiveDocument ==> !auditing
      ensures !(connected && hasActiveDocument) ==> auditing == old(auditing)
    {
      if !connected || !hasActiveDocument {
        return None;
      }
      auditing := true;
      if modelCount == 0 {
        auditing := false;
        return None;
      }
      match outcome
      case Report(reportId) =>
        auditing := false;
        id := if reportId != "" then Some(reportId) else None;
      case AuditThrows =>
        auditing := false;
        id := None;
    }
  }
}
