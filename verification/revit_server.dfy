/** The Revit bridge server: holds the external-event handlers, answers the
    route table, and waits on Revit for each host call.  What Revit does when
    an event is raised is an input (`Dispatch`); sockets, threads and timers
    are not modelled. */
module RevitServer {
  import opened Text
  import opened DotNetBridge
  import opened RevitHandlers

  const DefaultPort: int := 48881

  /** What happens when the server raises an external event and waits:
      Revit runs the handler in time with `input` as the document state, the
      budget runs out first, or raising throws. */
  datatype Dispatch<T> = Runs(input: T) | Overdue | RaiseThrows(message: string)

  /** One configuration-loading attempt of the status probe, as the retry loop sees it. */
  function ProbeAttempt(d: Dispatch<ConfigSources>): LoadAttempt
  {
    match d
    case Runs(src) => Loaded(|Discovered(src)|)
    case Overdue => TimedOut
    case RaiseThrows(_) => Faulted
  }

  function ProbeAttempts(probes: seq<Dispatch<ConfigSources>>): (attempts: seq<LoadAttempt>)
    requires |probes| == MaxRetries
    ensures |attempts| == MaxRetries
    ensures forall k :: 0 <= k < MaxRetries ==> attempts[k] == ProbeAttempt(probes[k])
  {
    [ProbeAttempt(probes[0]), ProbeAttempt(probes[1]), ProbeAttempt(probes[2])]
  }

  /** The status probe succeeds exactly when some attempt runs the handler in
      time and discovery yields a name. */
  lemma ProbeReady(probes: seq<Dispatch<ConfigSources>>)
    requires |probes| == MaxRetries
    ensures RetryFrom(ProbeAttempts(probes), 0, 1000).ready
      <==> exists k :: 0 <= k < MaxRetries && probes[k].Runs? && |Discovered(probes[k].input)| > 0
  {
    var attempts := ProbeAttempts(probes);
    RetryReady(attempts, 0, 1000);
    if RetryFrom(attempts, 0, 1000).ready {
      var k :| 0 <= k < MaxRetries && attempts[k].Loaded? && attempts[k].count > 0;
      assert probes[k].Runs?;
    } else {
      forall k | 0 <= k < MaxRetries && probes[k].Runs?
        ensures |Discovered(probes[k].input)| == 0
      {
        assert attempts[k] == Loaded(|Discovered(probes[k].input)|);
      }
    }
  }

  /** A probe fails only if no document-independent fallback applies: when
      Revit runs the handler in time and the options manager did not return
      only empty names, the status becomes ready. */
  lemma ProbeReadyWhenRun(probes: seq<Dispatch<ConfigSources>>, k: nat)
    requires |probes| == MaxRetries && k < MaxRetries
    requires probes[k].Runs?
    requires var src := probes[k].input;
      !(!src.hostThrows && src.hasDocument && src.managerNames.Some?
        && |src.managerNames.value| > 0 && AllEmpty(src.managerNames.value))
    ensures RetryFrom(ProbeAttempts(probes), 0, 1000).ready
  {
    DiscoveredEmpty(probes[k].input);
    ProbeReady(probes);
  }

  /** How the server saw the host call end. */
  function CompletionOf<T>(d: Dispatch<T>, result: bool): Completion
  {
    match d
    case Runs(_) => InTime(result)
    case Overdue => Late
    case RaiseThrows(m) => Threw(m)
  }

  /** A request: its method, the URL's absolute path, and its body as parsed. */
  datatype Request = Request(httpMethod: string, path: string, body: ParsedBody)

  /** What Revit does for each host call a request may make, and the files. */
  datatype RevitBehaviour = RevitBehaviour(
    probes: seq<Dispatch<ConfigSources>>,
    selectById: Dispatch<Option<set<int>>>,
    selectByGuid: Dispatch<Option<seq<Element>>>,
    configurations: Dispatch<ConfigSources>,
    exportIfc: Dispatch<ExportHost>,
    files: map<string, seq<Byte>>)

  class RevitApiServer {
    const port: int
    const baseUrl: string
    var isRunning: bool
    var configsLoaded: bool
    var hasApplication: bool
    var selectHandler: SelectElementHandler?
    var byGuidHandler: SelectByGuidHandler?
    var configsHandler: ConfigurationsHandler?
    var exportHandler: ExportHandler?

    /** The handlers exist exactly when the application is known: Start sets them together. */
    predicate Valid()
      reads this
    {
      && (selectHandler != null <==> hasApplication)
      && (byGuidHandler != null <==> hasApplication)
      && (configsHandler != null <==> hasApplication)
      && (exportHandler != null <==> hasApplication)
    }

    constructor(port: int)
      ensures Valid()
      ensures this.port == port && baseUrl == "http://localhost:" + IntToString(port) + "/"
      ensures !isRunning && !configsLoaded && !hasApplication
    {
      this.port := port;
      baseUrl := "http://localhost:" + IntToString(port) + "/";
      isRunning := false;
      configsLoaded := false;
      hasApplication := false;
      selectHandler := null;
      byGuidHandler := null;
      configsHandler := null;
      exportHandler := null;
    }

    /** Does nothing when running; otherwise records the application, creates
        fresh handlers, and runs exactly when the listener starts. */
    method Start(listenerStarts: bool)
      requires Valid()
      modifies this
      ensures Valid()
      ensures old(isRunning) ==> unchanged(this)
      ensures !old(isRunning) ==> (
        && isRunning == listenerStarts && hasApplication
        && fresh(selectHandler) && fresh(byGuidHandler) && fresh(configsHandler) && fresh(exportHandler)
        && configsLoaded == old(configsLoaded))
    {
      if isRunning {
        return;
      }
      hasApplication := true;
      selectHandler := new SelectElementHandler();
      byGuidHandler := new SelectByGuidHandler();
      configsHandler := new ConfigurationsHandler();
      exportHandler := new ExportHandler();
      isRunning := listenerStarts;
    }

    /** Stops a running server; stopping a stopped one does nothing. */
    method Stop()
      modifies this`isRunning
      ensures !isRunning
    {
      if !isRunning {
        return;
      }
      isRunning := false;
    }

    /** Reports "ok" once configurations have loaded.  Until then, with
        handlers present, it probes with the bounded retry; without them it
        reports "initializing".  Loaded is never unset. */
    method HandleStatus(probes: seq<Dispatch<ConfigSources>>) returns (reply: Reply)
      requires Valid() && |probes| == MaxRetries
      ensures HasCors(reply)
      modifies this`configsLoaded
      ensures var ready := old(configsLoaded) || (hasApplication && RetryFrom(ProbeAttempts(probes), 0, 1000).ready);
        reply == StatusReply(ready) && configsLoaded == ready
      ensures !old(configsLoaded) && hasApplication ==>
        (configsLoaded <==> exists k :: 0 <= k < MaxRetries && probes[k].Runs? && |Discovered(probes[k].input)| > 0)
    {
      var configsReady := configsLoaded;
      if !configsReady && hasApplication {
        var trace := LoadWithRetry(ProbeAttempts(probes));
        configsReady := trace.ready;
        if configsReady {
          configsLoaded := true;
        }
        ProbeReady(probes);
      }
      reply := StatusReply(configsReady);
    }

    method HandleSelectById(elementId: int, d: Dispatch<Option<set<int>>>) returns (reply: Reply)
      requires Valid()
      ensures HasCors(reply)
      modifies selectHandler
      ensures !hasApplication ==> reply == SendError(503, "Revit application not available")
      ensures hasApplication ==> selectHandler.elementId == elementId
      ensures hasApplication && d.Runs? && d.input.Some? && elementId in d.input.value
        ==> reply == SendJson(SelectBody(true, "Element " + IntToString(elementId) + " selected"))
      ensures hasApplication && (d.Overdue? || (d.Runs? && !(d.input.Some? && elementId in d.input.value)))
        ==> reply == SendError(500, "Element " + IntToString(elementId) + " not found or selection failed")
      ensures hasApplication && d.RaiseThrows?
        ==> reply == SendError(500, "Failed to select element: " + d.message)
    {
      if !hasApplication {
        reply := SendError(503, "Revit application not available");
        return;
      }
      selectHandler.elementId := elementId;
      match d {
        case RaiseThrows(message) =>
          reply := SendError(500, "Failed to select element: " + message);
        case Overdue =>
          reply := SendError(500, "Element " + IntToString(elementId) + " not found or selection failed");
        case Runs(document) =>
          var ok := selectHandler.Execute(document);
          if ok {
            reply := SendJson(SelectBody(true, "Element " + IntToString(elementId) + " selected"));
          } else {
            reply := SendError(500, "Element " + IntToString(elementId) + " not found or selection failed");
          }
      }
    }

    method HandleSelectByGuid(ifcGuid: string, d: Dispatch<Option<seq<Element>>>) returns (reply: Reply)
      requires Valid()
      ensures HasCors(reply)
      modifies byGuidHandler
      ensures !hasApplication ==> reply == SendError(503, "Revit application not available")
      ensures hasApplication ==> byGuidHandler.ifcGuid == ifcGuid
      ensures reply.statusCode == 200 <==> (
        && hasApplication && d.Runs? && d.input.Some?
        && exists k :: 0 <= k < |d.input.value| && ElementMatches(d.input.value[k], ifcGuid))
      ensures reply.statusCode == 200 ==> reply == SendJson(SelectBody(true, "Element with GUID " + ifcGuid + " selected"))
      ensures hasApplication && d.RaiseThrows?
        ==> reply == SendError(500, "Failed to select element by GUID: " + d.message)
      ensures hasApplication && !d.RaiseThrows? && reply.statusCode != 200
        ==> reply == SendError(500, "Element with GUID " + ifcGuid + " not found or selection failed")
    {
      if !hasApplication {
        reply := SendError(503, "Revit application not available");
        return;
      }
      byGuidHandler.ifcGuid := ifcGuid;
      match d {
        case RaiseThrows(message) =>
          reply := SendError(500, "Failed to select element by GUID: " + message);
        case Overdue =>
          reply := SendError(500, "Element with GUID " + ifcGuid + " not found or selection failed");
        case Runs(document) =>
          var ok, selected := byGuidHandler.Execute(document);
          if ok {
            reply := SendJson(SelectBody(true, "Element with GUID " + ifcGuid + " selected"));
          } else {
            reply := SendError(500, "Element with GUID " + ifcGuid + " not found or selection failed");
          }
      }
    }

    /** Clears the handler's list, raises, and answers with the list, or with
        the defaults on lateness or an exception.  An empty list completed in
        time gets the defaults added to it in place. */
    method HandleGetIfcConfigurations(d: Dispatch<ConfigSources>) returns (reply: Reply)
      requires Valid()
      ensures HasCors(reply)
      modifies configsHandler
      ensures !hasApplication ==> reply == SendError(503, "Revit application not available")
      ensures hasApplication ==>
        reply == ConfigurationsReply(CompletionOf(d, true), if d.Runs? then Discovered(d.input) else [])
      ensures hasApplication && d.Runs? ==> configsHandler.configurations == reply.body.configurations
      ensures hasApplication && !d.Runs? ==> configsHandler.configurations == []
    {
      if !hasApplication {
        reply := SendError(503, "Revit application not available");
        return;
      }
      configsHandler.configurations := [];
      match d {
        case Runs(src) =>
          var ok := configsHandler.Execute(src);
          if |configsHandler.configurations| == 0 {
            configsHandler.configurations := configsHandler.configurations + DefaultConfigurations;
          }
          reply := SendJson(ConfigurationsBody(configsHandler.configurations));
        case Overdue =>
          reply := SendJson(ConfigurationsBody(DefaultConfigurations));
        case RaiseThrows(_) =>
          reply := SendJson(ConfigurationsBody(DefaultConfigurations));
      }
    }

    /** Checks the body, hands the configuration name to the export handler,
        and replies with the file (which is then deleted) or an error.
        `files` is the file system before; `after` the one after. */
    method HandleExportIfc(body: ParsedBody, d: Dispatch<ExportHost>, files: map<string, seq<Byte>>)
      returns (reply: Reply, after: map<string, seq<Byte>>)
      requires Valid()
      ensures HasCors(reply)
      modifies exportHandler
      ensures !hasApplication ==> reply == SendError(503, "Revit application not available") && after == files
      ensures hasApplication && !(body.Fields? && "configuration" in body.fields) ==>
        reply == ExportReply(body, Late, old(exportHandler.outputFilePath), files) && after == files
      ensures hasApplication && body.Fields? && "configuration" in body.fields ==>
        && exportHandler.configurationName == body.fields["configuration"]
        && (d.Runs? ==> exportHandler.outputFilePath == ExportPath(old(exportHandler.outputFilePath), d.input))
        && (!d.Runs? ==> exportHandler.outputFilePath == old(exportHandler.outputFilePath))
      ensures reply.statusCode == 200 <==> (
        && hasApplication && body.Fields? && "configuration" in body.fields
        && d.Runs? && ExportSucceeds(d.input))
      ensures reply.statusCode == 200 ==> (
        && reply == FileReply(exportHandler.outputFilePath.value, d.input.ifcBytes)
        && after == files - {exportHandler.outputFilePath.value})
      ensures hasApplication && body.Fields? && "configuration" in body.fields ==>
        ExportAnswer(body, d, old(exportHandler.outputFilePath), exportHandler.outputFilePath, files, reply, after)
    {
      after := files;
      if !hasApplication {
        reply := SendError(503, "Revit application not available");
        return;
      }
      if !(body.Fields? && "configuration" in body.fields) {
        reply := ExportReply(body, Late, exportHandler.outputFilePath, files);
        return;
      }
      exportHandler.configurationName := body.fields["configuration"];
      var completion: Completion;
      match d {
        case Runs(host) =>
          var ok;
          ok, after := exportHandler.Execute(host, files);
          completion := InTime(ok);
        case Overdue =>
          completion := Late;
        case RaiseThrows(message) =>
          completion := Threw(message);
      }
      reply := ExportReply(body, completion, exportHandler.outputFilePath, after);
      if reply.statusCode == 200 {
        after := after - {exportHandler.outputFilePath.value};
      }
    }

    /** The handler's output path before a request, if it has a handler. */
    function OutputPath(): Option<string>
      reads this, exportHandler
    {
      if exportHandler != null then exportHandler.outputFilePath else None
    }

    /** Answers one request: CORS headers on every reply, preflight first,
        then the route table. */
    method HandleRequest(request: Request, revit: RevitBehaviour) returns (reply: Reply, after: map<string, seq<Byte>>)
      requires Valid() && |revit.probes| == MaxRetries
      modifies this`configsLoaded, selectHandler, byGuidHandler, configsHandler, exportHandler
      ensures Valid() && HasCors(reply)
      ensures Answers(RouteRequest(request.httpMethod, request.path), request.body, revit,
        old(configsLoaded), old(OutputPath()), reply, after)
    {
      reply, after := Respond(RouteRequest(request.httpMethod, request.path), request.body, revit);
    }

    /** The reply to a routed request and the state it leaves, as the
        route's handler promises them: `wasLoaded` and `previousPath` are the
        status flag and the export handler's path before the request.  Only
        the status route may set the flag, and only export changes files. */
    predicate Answers(route: Route, body: ParsedBody, revit: RevitBehaviour, wasLoaded: bool,
                      previousPath: Option<string>, reply: Reply, after: map<string, seq<Byte>>)
      requires Valid() && |revit.probes| == MaxRetries
      reads this, selectHandler, byGuidHandler, configsHandler, exportHandler
    {
      && (route.Status? || configsLoaded == wasLoaded)
      && (route.Export? || after == revit.files)
      && match route
        case Preflight => reply == PreflightReply()
        case BadId => reply == SendError(400, "Invalid element ID")
        case BadGuid => reply == SendError(400, "Invalid GUID")
        case NotFound => reply == SendError(404, "Not Found")
        case Status =>
          var ready := wasLoaded || (hasApplication && RetryFrom(ProbeAttempts(revit.probes), 0, 1000).ready);
          reply == StatusReply(ready) && configsLoaded == ready
        case SelectById(id) =>
          var d := revit.selectById;
          if !hasApplication then reply == SendError(503, "Revit application not available")
          else
            && selectHandler.elementId == id
            && reply == (
              if d.Runs? && d.input.Some? && id in d.input.value then
                SendJson(SelectBody(true, "Element " + IntToString(id) + " selected"))
              else if d.RaiseThrows? then SendError(500, "Failed to select element: " + d.message)
              else SendError(500, "Element " + IntToString(id) + " not found or selection failed"))
        case SelectByGuid(guid) =>
          var d := revit.selectByGuid;
          if !hasApplication then reply == SendError(503, "Revit application not available")
          else
            && byGuidHandler.ifcGuid == guid
            && reply == (
              if d.Runs? && d.input.Some? && exists k :: 0 <= k < |d.input.value| && ElementMatches(d.input.value[k], guid) then
                SendJson(SelectBody(true, "Element with GUID " + guid + " selected"))
              else if d.RaiseThrows? then SendError(500, "Failed to select element by GUID: " + d.message)
              else SendError(500, "Element with GUID " + guid + " not found or selection failed"))
        case Configurations =>
          var d := revit.configurations;
          if !hasApplication then reply == SendError(503, "Revit application not available")
          else
            && reply == ConfigurationsReply(CompletionOf(d, true), if d.Runs? then Discovered(d.input) else [])
            && configsHandler.configurations == (if d.Runs? then reply.body.configurations else [])
        case Export =>
          if !hasApplication then reply == SendError(503, "Revit application not available") && after == revit.files
          else if !(body.Fields? && "configuration" in body.fields) then
            reply == ExportReply(body, Late, None, revit.files) && after == revit.files
          else ExportAnswer(body, revit.exportIfc, previousPath, exportHandler.outputFilePath, revit.files, reply, after)
    }

    /** The route table's dispatch to the handlers. */
    method Respond(route: Route, body: ParsedBody, revit: RevitBehaviour) returns (reply: Reply, after: map<string, seq<Byte>>)
      requires Valid() && |revit.probes| == MaxRetries
      modifies this`configsLoaded, selectHandler, byGuidHandler, configsHandler, exportHandler
      ensures Valid() && HasCors(reply)
      ensures Answers(route, body, revit, old(configsLoaded), old(OutputPath()), reply, after)
    {
      after := revit.files;
      match route {
        case Preflight =>
          reply := PreflightReply();
        case Status =>
          reply := HandleStatus(revit.probes);
        case SelectById(elementId) =>
          reply := HandleSelectById(elementId, revit.selectById);
        case BadId =>
          reply := SendError(400, "Invalid element ID");
        case SelectByGuid(guid) =>
          reply := HandleSelectByGuid(guid, revit.selectByGuid);
        case BadGuid =>
          reply := SendError(400, "Invalid GUID");
        case Configurations =>
          reply := HandleGetIfcConfigurations(revit.configurations);
        case Export =>
          reply, after := HandleExportIfc(body, revit.exportIfc, revit.files);
        case NotFound =>
          reply := SendError(404, "Not Found");
      }
    }
  }

  /** The export exchange once the body names a configuration: the handler
      moves its path from `previous` to `path`, the reply is `ExportReply` on
      the files as the handler left them, and a file sent is deleted. */
  predicate ExportAnswer(body: ParsedBody, d: Dispatch<ExportHost>, previous: Option<string>, path: Option<string>,
                         files: map<string, seq<Byte>>, reply: Reply, after: map<string, seq<Byte>>)
    requires body.Fields? && "configuration" in body.fields
  {
    && (d.Runs? ==> path == ExportPath(previous, d.input))
    && (!d.Runs? ==> path == previous)
    && var ok := d.Runs? && ExportSucceeds(d.input);
      && reply == ExportReply(body, CompletionOf(d, ok), path, if ok then files[path.value := d.input.ifcBytes] else files)
      && after == (if reply.statusCode == 200 then files - {path.value} else files)
  }

  /** The export path, end to end: when Revit exports in time, the reply is
      the file the handler wrote, under the handler's output path. */
  lemma ExportRoundTrip(fields: map<string, string>, previous: Option<string>, host: ExportHost, files: map<string, seq<Byte>>)
    requires "configuration" in fields && ExportSucceeds(host)
    ensures var path := ExportPath(previous, host).value;
      ExportReply(Fields(fields), InTime(true), Some(path), files[path := host.ifcBytes]) == FileReply(path, host.ifcBytes)
  {
  }
}
