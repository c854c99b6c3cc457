/** The Archicad .NET bridge server.  Its handlers are placeholders that the
    server runs synchronously, so every host call completes before the server
    starts waiting; the route table, replies and retry loop are shared with
    the Revit server. */
module ArchicadNetServer {
  import opened Text
  import opened DotNetBridge

  const DefaultPort: int := 48882

  // ---------------------------------------------------------------------
  // Handlers

  class SelectElementHandler {
    var elementId: int

    constructor()
      ensures elementId == 0
    {
      elementId := 0;
    }

    /** The placeholder selection: it always completes `true`. */
    method Execute() returns (completion: bool)
      ensures completion
    {
      completion := true;
    }
  }

  class SelectByGuidHandler {
    var ifcGuid: string

    constructor()
      ensures ifcGuid == ""
    {
      ifcGuid := "";
    }

    /** The placeholder search: it always completes `true`. */
    method Execute() returns (completion: bool)
      ensures completion
    {
      completion := true;
    }
  }

  const ArchicadConfigurations: seq<string> := ["Default", "IFC2x3", "IFC4", "IFC4 Reference View"]

  /** The list the handler leaves: four names, or the three defaults when
      filling the list throws. */
  function HandlerConfigurations(throws: bool): (names: seq<string>)
    ensures |names| > 0
    ensures !throws ==> names == ArchicadConfigurations
    ensures throws ==> names == DefaultConfigurations
  {
    if throws then DefaultConfigurations else ArchicadConfigurations
  }

  class ConfigurationsHandler {
    var configurations: seq<string>

    constructor()
      ensures configurations == []
    {
      configurations := [];
    }

    /** Fills the list and completes `true`, also on an exception. */
    method Execute(throws: bool) returns (completion: bool)
      modifies this
      ensures completion && configurations == HandlerConfigurations(throws)
    {
      configurations := [];
      if !throws {
        configurations := ArchicadConfigurations;
      } else {
        configurations := [];
        configurations := configurations + DefaultConfigurations;
      }
      completion := true;
    }
  }

  const PlaceholderText: string := "IFC placeholder - Archicad export not yet implemented"

  /** The placeholder file's contents: the character codes of
      `PlaceholderText`, which is ASCII, so that `File.WriteAllText` (UTF-8,
      no byte-order mark) writes exactly these bytes. */
  const PlaceholderBytes: seq<Byte> := [
    73, 70, 67, 32, 112, 108, 97, 99, 101, 104, 111, 108, 100, 101, 114, 32, 45, 32,
    65, 114, 99, 104, 105, 99, 97, 100, 32, 101, 120, 112, 111, 114, 116, 32, 110, 111,
    116, 32, 121, 101, 116, 32, 105, 109, 112, 108, 101, 109, 101, 110, 116, 101, 100
  ]

  /** What the file system does for the placeholder export: the temp
      directory, the time stamp, whether creating the directory throws (every
      time it is tried), whether writing the file throws, and the exception's
      message. */
  datatype ExportHost = ExportHost(tempPath: string, stamp: string, directoryFails: bool, writeFails: bool, message: string)

  function ExportDirectory(host: ExportHost): string
  {
    PathCombine(host.tempPath, "IfcTesterArchicad")
  }

  /** How the handler's Execute ends: it completes, or its own exception
      handler throws again and the exception reaches the server. */
  datatype ExportEnd = Completes(result: bool) | Escapes(message: string)

  /** The output path the handler leaves and how Execute ends.  When the
      directory cannot be created and no path is set, the error path needs
      the same directory and the second attempt throws out of the handler. */
  function ExportOutcome(previous: Option<string>, host: ExportHost): (r: (Option<string>, ExportEnd))
    ensures r.1 == Completes(true) ==> r.0.Some?
  {
    if host.directoryFails then
      if previous.None? || previous.value == "" then (previous, Escapes(host.message))
      else (previous, Completes(false))
    else
      (Some(PathCombine(ExportDirectory(host), "Export_" + host.stamp + ".ifc")), Completes(!host.writeFails))
  }

  class ExportHandler {
    var configurationName: string
    var outputFilePath: Option<string>

    constructor()
      ensures configurationName == "" && outputFilePath == None
    {
      configurationName := "";
      outputFilePath := None;
    }

    /** Writes the placeholder text to a fresh path in the temp directory. */
    method Execute(host: ExportHost, files: map<string, seq<Byte>>) returns (outcome: ExportEnd, after: map<string, seq<Byte>>)
      modifies this`outputFilePath
      ensures (outputFilePath, outcome) == ExportOutcome(old(outputFilePath), host)
      ensures outcome == Completes(true) ==> after == files[outputFilePath.value := PlaceholderBytes]
      ensures outcome != Completes(true) ==> after == files
    {
      after := files;
      if host.directoryFails {
        if outputFilePath.None? || outputFilePath.value == "" {
          outcome := Escapes(host.message);
        } else {
          outcome := Completes(false);
        }
        return;
      }
      var tempDir := PathCombine(host.tempPath, "IfcTesterArchicad");
      outputFilePath := Some(PathCombine(tempDir, "Export_" + host.stamp + ".ifc"));
      if host.writeFails {
        outcome := Completes(false);
        return;
      }
      after := files[outputFilePath.value := PlaceholderBytes];
      outcome := Completes(true);
    }
  }

  /** The export succeeds exactly when the directory and the file can be
      written; the exception escapes only when no path was ever set. */
  lemma ExportOutcomeSucceeds(previous: Option<string>, host: ExportHost)
    ensures ExportOutcome(previous, host).1 == Completes(true) <==> !host.directoryFails && !host.writeFails
    ensures ExportOutcome(previous, host).1.Escapes? <==> host.directoryFails && (previous.None? || previous.value == "")
    ensures ExportOutcome(previous, host).0.None? ==> ExportOutcome(previous, host).1.Escapes?
  {
  }

  /** The downloaded file is named `Export_<stamp>.ifc` when the stamp holds no separator. */
  lemma StampFileName(previous: Option<string>, host: ExportHost)
    requires !host.directoryFails
    requires forall i :: 0 <= i < |host.stamp| ==> host.stamp[i] != '\\' && host.stamp[i] != '/'
    ensures FileName(ExportOutcome(previous, host).0.value) == "Export_" + host.stamp + ".ifc"
  {
    var name := "Export_" + host.stamp + ".ifc";
    forall i | 0 <= i < |name|
      ensures name[i] != '\\' && name[i] != '/'
    {
      if 7 <= i < 7 + |host.stamp| {
        assert name[i] == host.stamp[i - 7];
      }
    }
    FileNameOfCombine(ExportDirectory(host), name);
  }

  /** The export exchange once the body names a configuration: the reply
      and the files after it, given the handler's previous output path. */
  function ExportExchange(body: ParsedBody, previous: Option<string>, host: ExportHost, files: map<string, seq<Byte>>)
    : (Reply, map<string, seq<Byte>>)
    requires body.Fields? && "configuration" in body.fields
  {
    var (path, end) := ExportOutcome(previous, host);
    var written := if end == Completes(true) then files[path.value := PlaceholderBytes] else files;
    var completion := match end
      case Completes(result) => InTime(result)
      case Escapes(message) => Threw(message);
    var reply := ExportReply(body, completion, path, written);
    (reply, if reply.statusCode == 200 then written - {path.value} else written)
  }

  /** The exchange succeeds exactly when the directory and the file can be
      written; the reply is then the placeholder file, which is deleted
      afterwards.  If the directory fails before any path was set, the
      handler's exception becomes the reply. */
  lemma ExportExchangeOutcome(body: ParsedBody, previous: Option<string>, host: ExportHost, files: map<string, seq<Byte>>)
    requires body.Fields? && "configuration" in body.fields
    ensures var (reply, after) := ExportExchange(body, previous, host, files);
      && (reply.statusCode == 200 <==> !host.directoryFails && !host.writeFails)
      && (reply.statusCode == 200 ==>
            var path := ExportOutcome(previous, host).0.value;
            reply == FileReply(path, PlaceholderBytes) && after == files - {path})
      && (reply.statusCode != 200 ==> after == files)
      && ((host.directoryFails && (previous.None? || previous.value == ""))
            ==> reply == SendError(500, "Failed to export IFC: " + host.message))
  {
    var path := ExportOutcome(previous, host).0;
    if !host.directoryFails && !host.writeFails {
      assert files[path.value := PlaceholderBytes] - {path.value} == files - {path.value};
    }
  }

  // ---------------------------------------------------------------------
  // Server

  /** A request: its method, the URL's absolute path, and its body as parsed. */
  datatype Request = Request(httpMethod: string, path: string, body: ParsedBody)

  /** What the host does for each call a request may make, and the files. */
  datatype ArchicadBehaviour = ArchicadBehaviour(
    probeThrows: seq<bool>,
    configurationsThrow: bool,
    exportHost: ExportHost,
    files: map<string, seq<Byte>>)

  /** The status probe's attempts: each runs the handler to completion. */
  function ProbeAttempts(probeThrows: seq<bool>): (attempts: seq<LoadAttempt>)
    requires |probeThrows| == MaxRetries
    ensures |attempts| == MaxRetries
  {
    seq(MaxRetries, k requires 0 <= k < MaxRetries => Loaded(|HandlerConfigurations(probeThrows[k])|))
  }

  /** The first attempt always succeeds: one 10 s budget, no back-off. */
  lemma ProbeFirstAttempt(probeThrows: seq<bool>)
    requires |probeThrows| == MaxRetries
    ensures RetryFrom(ProbeAttempts(probeThrows), 0, 1000) == RetryTrace(true, [10000], [])
  {
    var attempts := ProbeAttempts(probeThrows);
    assert attempts[0].count > 0;
  }

  class ArchicadApiServer {
    const port: int
    const baseUrl: string
    var isRunning: bool
    var configsLoaded: bool
    var selectHandler: SelectElementHandler?
    var byGuidHandler: SelectByGuidHandler?
    var configsHandler: ConfigurationsHandler?
    var exportHandler: ExportHandler?

    /** The handlers are created together. */
    predicate Valid()
      reads this
    {
      && (byGuidHandler != null <==> selectHandler != null)
      && (configsHandler != null <==> selectHandler != null)
      && (exportHandler != null <==> selectHandler != null)
    }

    predicate HasHandlers()
      reads this
    {
      selectHandler != null
    }

    constructor(port: int)
      ensures Valid() && !HasHandlers()
      ensures this.port == port && baseUrl == "http://localhost:" + IntToString(port) + "/"
      ensures !isRunning && !configsLoaded
    {
      this.port := port;
      baseUrl := "http://localhost:" + IntToString(port) + "/";
      isRunning := false;
      configsLoaded := false;
      selectHandler := null;
      byGuidHandler := null;
      configsHandler := null;
      exportHandler := null;
    }

    /** Does nothing when running; otherwise creates fresh handlers and runs
        exactly when the listener starts. */
    method Start(listenerStarts: bool)
      requires Valid()
      modifies this
      ensures Valid()
      ensures old(isRunning) ==> unchanged(this)
      ensures !old(isRunning) ==> (
        && isRunning == listenerStarts && HasHandlers()
        && fresh(selectHandler) && fresh(byGuidHandler) && fresh(configsHandler) && fresh(exportHandler)
        && configsLoaded == old(configsLoaded))
    {
      if isRunning {
        return;
      }
      selectHandler := new SelectElementHandler();
      byGuidHandler := new SelectByGuidHandler();
      configsHandler := new ConfigurationsHandler();
      exportHandler := new ExportHandler();
      isRunning := listenerStarts;
    }

    /** Stops a running server; stopping a stopped one does nothing. */
    method Stop()
      modifies this`isRunning
      ensures !isRunning
    {
      if !isRunning {
        return;
      }
      isRunning := false;
    }

    /** Without handlers the status is "initializing" at once (no delay);
        with them the first probe always loads, so the status is "ok". */
    method HandleStatus(probeThrows: seq<bool>) returns (reply: Reply)
      requires Valid() && |probeThrows| == MaxRetries
      modifies this`configsLoaded, configsHandler
      ensures HasCors(reply)
      ensures reply == StatusReply(old(configsLoaded) || HasHandlers())
      ensures configsLoaded == (old(configsLoaded) || HasHandlers())
      ensures !old(configsLoaded) && HasHandlers() ==> configsHandler.configurations == HandlerConfigurations(probeThrows[0])
    {
      var configsReady := configsLoaded;
      if !configsReady && configsHandler != null {
        configsHandler.configurations := [];
        var ok := configsHandler.Execute(probeThrows[0]);
        var trace := LoadWithRetry(ProbeAttempts(probeThrows));
        ProbeFirstAttempt(probeThrows);
        configsReady := trace.ready;
        if configsReady {
          configsLoaded := true;
        }
      }
      reply := StatusReply(configsReady);
    }

    /** Selection always succeeds once the handlers exist. */
    method HandleSelectById(elementId: int) returns (reply: Reply)
      requires Valid()
      modifies selectHandler
      ensures HasCors(reply)
      ensures !HasHandlers() ==> reply == SendError(503, "Archicad application not available")
      ensures HasHandlers() ==> (
        && selectHandler.elementId == elementId
        && reply == SendJson(SelectBody(true, "Element " + IntToString(elementId) + " selected")))
    {
      if selectHandler == null {
        reply := SendError(503, "Archicad application not available");
        return;
      }
      selectHandler.elementId := elementId;
      var ok := selectHandler.Execute();
      if ok {
        reply := SendJson(SelectBody(true, "Element " + IntToString(elementId) + " selected"));
      } else {
        reply := SendError(500, "Element " + IntToString(elementId) + " not found or selection failed");
      }
    }

    method HandleSelectByGuid(ifcGuid: string) returns (reply: Reply)
      requires Valid()
      modifies byGuidHandler
      ensures HasCors(reply)
      ensures !HasHandlers() ==> reply == SendError(503, "Archicad application not available")
      ensures HasHandlers() ==> (
        && byGuidHandler.ifcGuid == ifcGuid
        && reply == SendJson(SelectBody(true, "Element with GUID " + ifcGuid + " selected")))
    {
      if byGuidHandler == null {
        reply := SendError(503, "Archicad application not available");
        return;
      }
      byGuidHandler.ifcGuid := ifcGuid;
      var ok := byGuidHandler.Execute();
      if ok {
        reply := SendJson(SelectBody(true, "Element with GUID " + ifcGuid + " selected"));
      } else {
        reply := SendError(500, "Element with GUID " + ifcGuid + " not found or selection failed");
      }
    }

    method HandleGetIfcConfigurations(throws: bool) returns (reply: Reply)
      requires Valid()
      modifies configsHandler
      ensures HasCors(reply)
      ensures !HasHandlers() ==> reply == SendError(503, "Archicad application not available")
      ensures HasHandlers() ==> (
        && reply == ConfigurationsReply(InTime(true), HandlerConfigurations(throws))
        && configsHandler.configurations == HandlerConfigurations(throws))
    {
      if configsHandler == null {
        reply := SendError(503, "Archicad application not available");
        return;
      }
      configsHandler.configurations := [];
      var ok := configsHandler.Execute(throws);
      reply := ConfigurationsReply(InTime(ok), configsHandler.configurations);
    }

    method HandleExportIfc(body: ParsedBody, host: ExportHost, files: map<string, seq<Byte>>)
      returns (reply: Reply, after: map<string, seq<Byte>>)
      requires Valid()
      modifies exportHandler
      ensures HasCors(reply)
      ensures !HasHandlers() ==> reply == SendError(503, "Archicad application not available") && after == files
      ensures HasHandlers() && !(body.Fields? && "configuration" in body.fields) ==> (
        && reply == ExportReply(body, Late, old(exportHandler.outputFilePath), files)
        && after == files)
      ensures HasHandlers() && body.Fields? && "configuration" in body.fields ==> (
        && exportHandler.configurationName == body.fields["configuration"]
        && exportHandler.outputFilePath == ExportOutcome(old(exportHandler.outputFilePath), host).0
        && (reply, after) == ExportExchange(body, old(exportHandler.outputFilePath), host, files))
    {
      after := files;
      if exportHandler == null {
        reply := SendError(503, "Archicad application not available");
        return;
      }
      if !(body.Fields? && "configuration" in body.fields) {
        reply := ExportReply(body, Late, exportHandler.outputFilePath, files);
        return;
      }
      exportHandler.configurationName := body.fields["configuration"];
      var outcome;
      outcome, after := exportHandler.Execute(host, files);
      var completion := match outcome
        case Completes(result) => InTime(result)
        case Escapes(message) => Threw(message);
      reply := ExportReply(body, completion, exportHandler.outputFilePath, after);
      if reply.statusCode == 200 {
        after := after - {exportHandler.outputFilePath.value};
      }
    }

    /** The handler's output path before a request, if it has a handler. */
    function OutputPath(): Option<string>
      reads this, exportHandler
    {
      if exportHandler != null then exportHandler.outputFilePath else None
    }

    /** The reply to a routed request and the state it leaves, as the
        route's handler promises them: `wasLoaded` and `previousPath` are the
        status flag and the export handler's path before the request.  Only
        the status route may set the flag, and only export changes files. */
    predicate Answers(route: Route, body: ParsedBody, host: ArchicadBehaviour, wasLoaded: bool,
                      previousPath: Option<string>, reply: Reply, after: map<string, seq<Byte>>)
      requires Valid() && |host.probeThrows| == MaxRetries
      reads this, selectHandler, byGuidHandler, configsHandler, exportHandler
    {
      && (route.Status? || configsLoaded == wasLoaded)
      && (route.Export? || after == host.files)
      && match route
        case Preflight => reply == PreflightReply()
        case BadId => reply == SendError(400, "Invalid element ID")
        case BadGuid => reply == SendError(400, "Invalid GUID")
        case NotFound => reply == SendError(404, "Not Found")
        case Status =>
          && reply == StatusReply(wasLoaded || HasHandlers())
          && configsLoaded == (wasLoaded || HasHandlers())
          && (!wasLoaded && HasHandlers() ==> configsHandler.configurations == HandlerConfigurations(host.probeThrows[0]))
        case SelectById(id) =>
          if !HasHandlers() then reply == SendError(503, "Archicad application not available")
          else
            && selectHandler.elementId == id
            && reply == SendJson(SelectBody(true, "Element " + IntToString(id) + " selected"))
        case SelectByGuid(guid) =>
          if !HasHandlers() then reply == SendError(503, "Archicad application not available")
          else
            && byGuidHandler.ifcGuid == guid
            && reply == SendJson(SelectBody(true, "Element with GUID " + guid + " selected"))
        case Configurations =>
          if !HasHandlers() then reply == SendError(503, "Archicad application not available")
          else
            && reply == ConfigurationsReply(InTime(true), HandlerConfigurations(host.configurationsThrow))
            && configsHandler.configurations == HandlerConfigurations(host.configurationsThrow)
        case Export =>
          if !HasHandlers() then reply == SendError(503, "Archicad application not available") && after == host.files
          else if !(body.Fields? && "configuration" in body.fields) then
            reply == ExportReply(body, Late, None, host.files) && after == host.files
          else
            && exportHandler.configurationName == body.fields["configuration"]
            && exportHandler.outputFilePath == ExportOutcome(previousPath, host.exportHost).0
            && (reply, after) == ExportExchange(body, previousPath, host.exportHost, host.files)
    }

    /** Answers one request: CORS headers on every reply, preflight first,
        then the route table. */
    method HandleRequest(request: Request, host: ArchicadBehaviour) returns (reply: Reply, after: map<string, seq<Byte>>)
      requires Valid() && |host.probeThrows| == MaxRetries
      modifies this`configsLoaded, selectHandler, byGuidHandler, configsHandler, exportHandler
      ensures Valid() && HasCors(reply)
      ensures Answers(RouteRequest(request.httpMethod, request.path), request.body, host,
        old(configsLoaded), old(OutputPath()), reply, after)
    {
      reply, after := Respond(RouteRequest(request.httpMethod, request.path), request.body, host);
    }

    /** The route table's dispatch to the handlers. */
    method Respond(route: Route, body: ParsedBody, host: ArchicadBehaviour) returns (reply: Reply, after: map<string, seq<Byte>>)
      requires Valid() && |host.probeThrows| == MaxRetries
      modifies this`configsLoaded, selectHandler, byGuidHandler, configsHandler, exportHandler
      ensures Valid() && HasCors(reply)
      ensures Answers(route, body, host, old(configsLoaded), old(OutputPath()), reply, after)
    {
      after := host.files;
      match route {
        case Preflight =>
          reply := PreflightReply();
        case Status =>
          reply := HandleStatus(host.probeThrows);
        case SelectById(elementId) =>
          reply := HandleSelectById(elementId);
        case BadId =>
          reply := SendError(400, "Invalid element ID");
        case SelectByGuid(guid) =>
          reply := HandleSelectByGuid(guid);
        case BadGuid =>
          reply := SendError(400, "Invalid GUID");
        case Configurations =>
          reply := HandleGetIfcConfigurations(host.configurationsThrow);
        case Export =>
          if HasHandlers() && body.Fields? && "configuration" in body.fields {
            ExportExchangeOutcome(body, exportHandler.outputFilePath, host.exportHost, host.files);
          }
          reply, after := HandleExportIfc(body, host.exportHost, host.files);
        case NotFound =>
          reply := SendError(404, "Not Found");
      }
    }
  }
}
