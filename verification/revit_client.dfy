/** The browser's Revit client: the connection record, connecting, the
    Image-based select request whose first event decides the outcome, and the
    configuration, export and audit calls.  What the network answers is an
    input. */
module RevitClient {
  import opened Text
  import opened WebClient

  const LocalApiUrl: string := "http://localhost:48881"

  const TimeoutMessage: string := "Connection timeout - server may be down or unresponsive"

  /** The message the failed connection attempt throws. */
  function ConnectError(outcome: FetchOutcome): string
    requires !(outcome.Responded? && outcome.ok)
  {
    match outcome
    case Responded(_, status, statusText) => "HTTP " + IntToString(status) + ": " + statusText
    case Aborted => TimeoutMessage
    case Failed(message) => message
  }

  const MixedContentToast: string := "Mixed content blocked. Use Cloudflare Tunnel proxy or access via HTTP."
  const TimeoutToast: string := "Connection timeout. Revit API server may be down. Please reload pyRevit in Revit."

  /** The toast for a failed connection: mixed content, a timeout, or the message itself. */
  function ConnectToast(message: string): (t: Toast)
    ensures t.Failure?
    ensures Contains(message, "Mixed Content") || Contains(message, "blocked") ==> t == Failure(MixedContentToast)
    ensures !(Contains(message, "Mixed Content") || Contains(message, "blocked")) ==>
      if Contains(message, "timeout") then t == Failure(TimeoutToast) else t == Failure("Failed to connect to Revit: " + message)
  {
    if Contains(message, "Mixed Content") || Contains(message, "blocked") then Failure(MixedContentToast)
    else if Contains(message, "timeout") then Failure(TimeoutToast)
    else Failure("Failed to connect to Revit: " + message)
  }

  /** The toast after a connection attempt. */
  function OutcomeToast(outcome: FetchOutcome): (t: Toast)
    ensures t.Success? <==> outcome.Responded? && outcome.ok
  {
    if outcome.Responded? && outcome.ok then Success("Connected to Revit") else ConnectToast(ConnectError(outcome))
  }

  /** How each of the image's callbacks settles the select promise. */
  datatype ImageEvent =
    | ImageLoad
    | ImageError(connectedNow: bool)   // with the value of `connected` when it runs
    | TimerFires

  /** What the first event resolves the promise with: a load succeeds, an
      error succeeds while still connected, the timer fails. */
  function Verdict(e: ImageEvent): bool
  {
    match e
    case ImageLoad => true
    case ImageError(connectedNow) => connectedNow
    case TimerFires => false
  }

  /** The select request's one-shot state: whether a callback has run to
      completion, and what the promise resolved with. */
  class SelectRequest {
    var requestCompleted: bool
    var resolved: Option<bool>

    predicate Valid()
      reads this
    {
      requestCompleted <==> resolved.Some?
    }

    constructor()
      ensures Valid() && !requestCompleted && resolved == None
    {
      requestCompleted := false;
      resolved := None;
    }

    /** One callback: only the first one resolves; later ones do nothing. */
    method Fire(e: ImageEvent)
      requires Valid()
      modifies this
      ensures Valid() && requestCompleted
      ensures old(requestCompleted) ==> resolved == old(resolved)
      ensures !old(requestCompleted) ==> resolved == Some(Verdict(e))
    {
      if !requestCompleted {
        requestCompleted := true;
        match e
        case ImageLoad => resolved := Some(true);
        case ImageError(connectedNow) =>
          if !connectedNow {
            resolved := Some(false);
            return;
          }
          resolved := Some(true);
        case TimerFires => resolved := Some(false);
      }
    }

    /** The callbacks in the order they run, then the timer, which always
        fires unless cleared: the first of them decides. */
    method Run(events: seq<ImageEvent>)
      requires Valid() && !requestCompleted
      modifies this
      ensures Valid() && resolved == Some(Verdict((events + [TimerFires])[0]))
    {
      var all := events + [TimerFires];
      var i := 0;
      while i < |all|
        invariant 0 <= i <= |all| && Valid()
        invariant i == 0 ==> !requestCompleted
        invariant i > 0 ==> resolved == Some(Verdict(all[0]))
      {
        Fire(all[i]);
        i := i + 1;
      }
    }
  }

  /** The module-level `Revit` record, the URLs requested so far and the
      toasts shown by connecting and disconnecting. */
  class Client {
    var enabled: bool
    var apiUrl: Option<string>
    var connected: bool
    var auditing: bool
    var loading: bool
    var requests: seq<string>
    var toasts: seq<Toast>

    function Record(): ClientRecord
      reads this
    {
      ClientRecord(enabled, apiUrl, connected, auditing, loading)
    }

    predicate ConnectedWithUrl()
      reads this
    {
      HasApiUrl(Record()) && connected
    }

    /** Module load: the `api` parameter, else the local server on a local page. */
    constructor(apiParam: Option<string>, hostname: string)
      ensures Record() == InitialRecord(apiParam, hostname, LocalApiUrl)
      ensures requests == [] && toasts == []
    {
      var init := InitialRecord(apiParam, hostname, LocalApiUrl);
      enabled := init.enabled;
      apiUrl := init.apiUrl;
      connected := false;
      auditing := false;
      loading := false;
      requests := [];
      toasts := [];
    }

    /** Asks `/status`; connected exactly when it answers ok, and not loading afterwards. */
    method Connect(outcome: FetchOutcome) returns (ok: bool)
      modifies this`connected, this`loading, this`requests, this`toasts
      ensures !HasApiUrl(Record()) ==>
        !ok && connected == old(connected) && loading == old(loading) && requests == old(requests)
        && toasts == old(toasts) + [Failure("No Revit API URL provided")]
      ensures HasApiUrl(Record()) ==>
        && !loading && requests == old(requests) + [apiUrl.value + "/status"]
        && (ok <==> outcome.Responded? && outcome.ok) && connected == ok
        && toasts == old(toasts) + [OutcomeToast(outcome)]
    {
      if !HasApiUrl(Record()) {
        toasts := toasts + [Failure("No Revit API URL provided")];
        return false;
      }
      loading := true;
      requests := requests + [apiUrl.value + "/status"];
      ok := outcome.Responded? && outcome.ok;
      connected := ok;
      toasts := toasts + [OutcomeToast(outcome)];
      loading := false;
    }

    method Disconnect()
      modifies this`connected, this`toasts
      ensures !connected && toasts == old(toasts) + [Success("Disconnected from Revit")]
    {
      connected := false;
      toasts := toasts + [Success("Disconnected from Revit")];
    }

    /** Refuses without a connection or a usable GlobalId; otherwise requests
        the select URL and resolves with the first image event. */
    method SelectElement(globalId: JsArg, events: seq<ImageEvent>) returns (selected: bool)
      modifies this`requests
      ensures !ConnectedWithUrl() || !ValidGlobalId(globalId) ==> !selected && requests == old(requests)
      ensures ConnectedWithUrl() && ValidGlobalId(globalId) ==>
        && requests == old(requests) + [SelectUrl(apiUrl.value, globalId.s)]
        && selected == Verdict((events + [TimerFires])[0])
    {
      if !ConnectedWithUrl() || !ValidGlobalId(globalId) {
        return false;
      }
      var request := new SelectRequest();
      requests := requests + [SelectUrl(apiUrl.value, globalId.s)];
      request.Run(events);
      selected := request.resolved.value;
    }

    /** The export configurations, `[]` on any failure. */
    method GetIfcConfigurations(outcome: ConfigsOutcome) returns (configurations: seq<string>)
      modifies this`requests
      ensures configurations == ConfigurationsResult(ConnectedWithUrl(), outcome)
      ensures requests == old(requests) + (if ConnectedWithUrl() then [apiUrl.value + "/ifc-configurations"] else [])
    {
      if !ConnectedWithUrl() {
        return [];
      }
      requests := requests + [apiUrl.value + "/ifc-configurations"];
      configurations := ConfigurationsResult(true, outcome);
    }

    /** The exported file, named by the server or `Export_<time>.ifc`. */
    method ExportIfc(configurationName: JsArg, outcome: ExportOutcome, iso: string) returns (file: Option<File>)
      modifies this`requests
      ensures file == ExportResult(ConnectedWithUrl(), configurationName, outcome, "Export_", iso)
      ensures requests == old(requests) +
        (if ConnectedWithUrl() && configurationName.Str? && configurationName.s != "" then [apiUrl.value + "/export-ifc"] else [])
    {
      if !ConnectedWithUrl() || !(configurationName.Str? && configurationName.s != "") {
        return None;
      }
      requests := requests + [apiUrl.value + "/export-ifc"];
      file := ExportResult(true, configurationName, outcome, "Export_", iso);
    }

    /** Runs the browser audit when connected with an active IDS document;
        `auditing` is cleared on every path that set it. */
    method RunAudit(hasActiveDocument: bool, modelCount: nat, outcome: AuditOutcome) returns (id: Option<string>)
      modifies this`auditing
      ensures id == AuditResult(connected, hasActiveDocument, modelCount, outcome)
      ensures connected && hasActiveDocument ==> !auditing
      ensures !(connected && hasActiveDocument) ==> auditing == old(auditing)
    {
      if !connected || !hasActiveDocument {
        return None;
      }
      auditing := true;
      if modelCount == 0 {
        auditing := false;
        return None;
      }
      match outcome
      case Report(reportId) =>
        auditing := false;
        id := if reportId != "" then Some(reportId) else None;
      case AuditThrows =>
        auditing := false;
        id := None;
    }
  }
}
