/** The native add-on's HTTP server object: the lifecycle flag, the cached
    configuration state, the selection queue handed to the host's main
    thread, and the handling of one connection. */
module NativeServer {
  import opened Text
  import opened NativeHttp
  import opened NativeRoutes
  import opened UriText

  const DefaultPort: int := 48882

  /** Bytes one `recv` call delivers at most (the buffer keeps one for NUL). */
  const ReceiveLimit: nat := 8191

  /** What the host's selection call did on the main thread. */
  datatype SelectOutcome = Selected(found: bool) | Threw

  /** An exception counts as a failed selection. */
  function SelectSucceeded(o: SelectOutcome): (ok: bool)
    ensures ok <==> o == Selected(true)
  {
    match o
    case Selected(found) => found
    case Threw => false
  }

  /** A queued selection request: the GUID and the flags the main thread sets. */
  datatype SelectionRequest = SelectionRequest(guid: string, processed: bool, success: bool)

  predicate Distinct(ids: seq<nat>)
  {
    forall i, j :: 0 <= i < j < |ids| ==> ids[i] != ids[j]
  }

  /** Marks the requests `ids` processed, front first, each with its outcome. */
  function ProcessAll(requests: map<nat, SelectionRequest>, ids: seq<nat>, outcomes: seq<SelectOutcome>)
    : (r: map<nat, SelectionRequest>)
    requires |outcomes| == |ids|
    requires forall k :: 0 <= k < |ids| ==> ids[k] in requests
    ensures r.Keys == requests.Keys
  {
    if |ids| == 0 then requests
    else
      var last := |ids| - 1;
      var before := ProcessAll(requests, ids[..last], outcomes[..last]);
      before[ids[last] := before[ids[last]].(processed := true, success := SelectSucceeded(outcomes[last]))]
  }

  /** Each of distinct queued requests ends processed with its own outcome;
      every other request is untouched. */
  lemma {:induction false} ProcessAllEach(requests: map<nat, SelectionRequest>, ids: seq<nat>, outcomes: seq<SelectOutcome>, id: nat)
    requires |outcomes| == |ids| && Distinct(ids)
    requires forall k :: 0 <= k < |ids| ==> ids[k] in requests
    requires id in requests
    ensures forall k :: 0 <= k < |ids| && ids[k] == id ==>
      ProcessAll(requests, ids, outcomes)[id]
        == SelectionRequest(requests[id].guid, true, SelectSucceeded(outcomes[k]))
    ensures id !in ids ==> ProcessAll(requests, ids, outcomes)[id] == requests[id]
  {
    if |ids| > 0 {
      var last := |ids| - 1;
      ProcessAllEach(requests, ids[..last], outcomes[..last], id);
      if id != ids[last] {
        assert id in ids ==> id in ids[..last];
      }
    }
  }

  /** Ids are fresh, every waiting request exists, and every queued request
      is distinct and still has a waiting owner. */
  predicate QueueInvariant(requests: map<nat, SelectionRequest>, waiting: set<nat>, queue: seq<nat>, nextId: nat)
  {
    (forall id :: id in requests ==> id < nextId)
    && waiting <= requests.Keys
    && (forall k :: 0 <= k < |queue| ==> queue[k] in waiting)
    && Distinct(queue)
  }

  /** Popping the front request and updating requests in place keeps the invariant. */
  lemma PopKeepsInvariant(requests: map<nat, SelectionRequest>, updated: map<nat, SelectionRequest>,
                          waiting: set<nat>, queue: seq<nat>, nextId: nat)
    requires QueueInvariant(requests, waiting, queue, nextId) && |queue| > 0
    requires updated.Keys == requests.Keys
    ensures QueueInvariant(updated, waiting, queue[1..], nextId)
  {
  }

  /** Processing one more request of the queue updates just that request. */
  lemma ProcessAllSnoc(requests: map<nat, SelectionRequest>, ids: seq<nat>, outcomes: seq<SelectOutcome>, i: nat)
    requires |outcomes| == |ids| && i < |ids|
    requires forall k :: 0 <= k < |ids| ==> ids[k] in requests
    ensures var before := ProcessAll(requests, ids[..i], outcomes[..i]);
      ProcessAll(requests, ids[..i + 1], outcomes[..i + 1])
        == before[ids[i] := before[ids[i]].(processed := true, success := SelectSucceeded(outcomes[i]))]
  {
    assert ids[..i + 1][..i] == ids[..i];
    assert outcomes[..i + 1][..i] == outcomes[..i];
  }

  /** One outcome per request: every selection failed. */
  function Failures(n: nat): (os: seq<SelectOutcome>)
    ensures |os| == n && forall k :: 0 <= k < n ==> os[k] == Threw
  {
    seq(n, _ => Threw)
  }

  /** Everything the server learns from the host while handling one request. */
  datatype Host = Host(
    configs: seq<IfcConfiguration>,        // what the host's configuration query returns
    exported: ExportResult,                // what the export call reports
    exportedFile: Option<seq<Byte>>,       // the exported file, if it can be read
    files: Files,                          // the web-app files that can be read
    selectedInTime: bool,                  // the main thread ran the queue within 10 seconds
    selectOutcomes: seq<SelectOutcome>)    // the host's selection results, queue order

  /** The answer to a CORS preflight: 200, text/plain, empty. */
  function PreflightResponse(): (r: HttpResponse)
    ensures r.statusCode == 200 && !r.isBinary && r.body == ""
  {
    HttpResponse(200, "text/plain", "", [], false)
  }

  /** The bytes a response puts on the wire. */
  function Wire(r: HttpResponse): seq<Byte>
  {
    Utf8(ResponseHead(r, ContentLength(r))) + Payload(r)
  }

  /** The request text: what one receive delivered, read as a C string. */
  function Received(bytes: string): (raw: string)
    ensures NoNul(raw) && |raw| <= ReceiveLimit
  {
    CStr(if |bytes| > ReceiveLimit then bytes[..ReceiveLimit] else bytes)
  }

  /** The part of the server's state that requests read and change: the
      configuration cache and the selection queue. */
  datatype Snapshot = Snapshot(
    configsLoaded: bool,
    cachedConfigs: seq<IfcConfiguration>,
    queue: seq<nat>,
    requests: map<nat, SelectionRequest>)

  class ApiServer {
    const port: int
    const webAppPath: string
    const hasMessageWindow: bool
    var configsLoaded: bool
    var cachedConfigs: seq<IfcConfiguration>
    /** Queued request ids, front first. */
    var queue: seq<nat>
    var requests: map<nat, SelectionRequest>
    /** Requests whose HTTP thread is still waiting (whose storage is alive). */
    var waiting: set<nat>
    var nextId: nat

    /** Every queued request still has a waiting owner, so the main thread
        only writes to live requests; ids are fresh and never queued twice. */
    predicate Valid()
      reads this
    {
      QueueInvariant(requests, waiting, queue, nextId)
    }

    constructor(port: int, webAppPath: string, hasMessageWindow: bool)
      ensures Valid()
      ensures this.port == port && this.webAppPath == webAppPath && this.hasMessageWindow == hasMessageWindow
      ensures !configsLoaded && cachedConfigs == []
      ensures queue == [] && requests == map[] && waiting == {}
    {
      this.port := port;
      this.webAppPath := webAppPath;
      this.hasMessageWindow := hasMessageWindow;
      configsLoaded := false;
      cachedConfigs := [];
      queue := [];
      requests := map[];
      waiting := {};
      nextId := 0;
    }

    /** Loads the configurations on first use; once loaded they stay loaded. */
    method HandleStatus(hostConfigs: seq<IfcConfiguration>) returns (r: HttpResponse)
      modifies this`configsLoaded, this`cachedConfigs
      ensures old(configsLoaded) ==> configsLoaded && cachedConfigs == old(cachedConfigs)
      ensures !old(configsLoaded) ==> cachedConfigs == hostConfigs && (configsLoaded <==> |hostConfigs| > 0)
      ensures r == CreateJsonResponse(StatusJson(configsLoaded))
    {
      if !configsLoaded {
        cachedConfigs := hostConfigs;
        configsLoaded := |cachedConfigs| > 0;
      }
      r := CreateJsonResponse(StatusJson(configsLoaded));
    }

    /** Lists the host's configurations and marks them loaded, even when there are none. */
    method HandleGetIfcConfigurations(hostConfigs: seq<IfcConfiguration>) returns (r: HttpResponse)
      modifies this`configsLoaded, this`cachedConfigs
      ensures configsLoaded && cachedConfigs == hostConfigs
      ensures r == CreateJsonResponse(ConfigurationsJson(hostConfigs))
    {
      var json := WriteConfigurations(hostConfigs);
      cachedConfigs := hostConfigs;
      configsLoaded := true;
      r := CreateJsonResponse(json);
    }

    /** Puts a new, unprocessed request for `guid` at the back of the queue. */
    method Enqueue(guid: string) returns (id: nat)
      requires Valid()
      modifies this`queue, this`requests, this`waiting, this`nextId
      ensures Valid()
      ensures id == old(nextId) && id !in old(requests)
      ensures queue == old(queue) + [id]
      ensures requests == old(requests)[id := SelectionRequest(guid, false, false)]
      ensures waiting == old(waiting) + {id}
      ensures nextId == old(nextId) + 1
    {
      id := nextId;
      nextId := nextId + 1;
      requests := requests[id := SelectionRequest(guid, false, false)];
      waiting := waiting + {id};
      queue := queue + [id];
    }

    /** The main thread's loop: pops every request, front first, and records
        whether the host selected its element (an exception counts as failure). */
    method ProcessSelectionQueue(outcomes: seq<SelectOutcome>)
      requires Valid() && |outcomes| == |queue|
      modifies this`queue, this`requests
      ensures Valid() && queue == []
      ensures requests == ProcessAll(old(requests), old(queue), outcomes)
    {
      ghost var queued := queue;
      ghost var before := requests;
      var i := 0;
      while |queue| > 0
        invariant 0 <= i <= |queued| && queue == queued[i..]
        invariant forall k :: 0 <= k < |queued| ==> queued[k] in before
        invariant requests == ProcessAll(before, queued[..i], outcomes[..i])
        invariant Valid()
        decreases |queue|
      {
        var id := queue[0];
        assert queue[1..] == queued[i + 1..];
        queue := queue[1..];
        var success := false;
        match outcomes[i] {
          case Selected(found) => success := found;
          case Threw => success := false;
        }
        ProcessAllSnoc(before, queued, outcomes, i);
        PopKeepsInvariant(requests, requests[id := requests[id].(processed := true, success := success)], waiting, queued[i..], nextId);
        requests := requests[id := requests[id].(processed := true, success := success)];
        i := i + 1;
      }
      assert queued[..i] == queued && outcomes[..i] == outcomes;
    }

    /** The selection handshake as written: queue the request, let the main
        thread run, and wait.  When the wait times out the request is left in
        the queue although its owner has stopped waiting, so the server is no
        longer `Valid`: the next run of the queue writes to a dead request. */
    method QueueSelectionRequestAsWritten(guid: string, selectedInTime: bool, outcomes: seq<SelectOutcome>)
      returns (success: bool)
      requires Valid()
      requires selectedInTime ==> |outcomes| == |queue| + 1
      modifies this`queue, this`requests, this`waiting, this`nextId
      ensures !hasMessageWindow ==> !success && queue == old(queue) && requests == old(requests)
      ensures hasMessageWindow && selectedInTime ==>
        Valid() && queue == [] && success == SelectSucceeded(outcomes[|outcomes| - 1])
      ensures hasMessageWindow && !selectedInTime ==>
        !success && queue == old(queue) + [old(nextId)] && !Valid()
    {
      if !hasMessageWindow {
        return false;
      }
      var id := Enqueue(guid);
      if selectedInTime {
        ProcessSelectionQueue(outcomes);
        ProcessAllEach(old(requests)[id := SelectionRequest(guid, false, false)], old(queue) + [id], outcomes, id);
      }
      waiting := waiting - {id};
      if !requests[id].processed {
        assert queue[|queue| - 1] == id;
        return false;
      }
      success := requests[id].success;
    }

    /** The handshake with the timeout withdrawing the request from the queue:
        the server stays `Valid` whatever the main thread does. */
    method QueueSelectionRequest(guid: string, selectedInTime: bool, outcomes: seq<SelectOutcome>)
      returns (success: bool)
      requires Valid()
      requires selectedInTime ==> |outcomes| == |queue| + 1
      modifies this`queue, this`requests, this`waiting, this`nextId
      ensures Valid()
      ensures !hasMessageWindow ==> !success && queue == old(queue) && requests == old(requests)
      ensures hasMessageWindow && selectedInTime ==>
        queue == [] && success == SelectSucceeded(outcomes[|outcomes| - 1])
      ensures hasMessageWindow && !selectedInTime ==> !success && queue == old(queue)
    {
      if !hasMessageWindow {
        return false;
      }
      var id := Enqueue(guid);
      if selectedInTime {
        ProcessSelectionQueue(outcomes);
        ProcessAllEach(old(requests)[id := SelectionRequest(guid, false, false)], old(queue) + [id], outcomes, id);
      }
      if !requests[id].processed {
        assert queue == old(queue) + [id];
        queue := queue[..|queue| - 1];
        waiting := waiting - {id};
        return false;
      }
      waiting := waiting - {id};
      success := requests[id].success;
    }

    /** The destructor's drain, after the server has stopped: every queued
        request is released as processed and failed. */
    method Drain()
      requires Valid()
      modifies this`queue, this`requests
      ensures Valid() && queue == []
      ensures requests == ProcessAll(old(requests), old(queue), Failures(|old(queue)|))
    {
      ghost var queued := queue;
      ghost var before := requests;
      ghost var failures := Failures(|queue|);
      var i := 0;
      while |queue| > 0
        invariant 0 <= i <= |queued| && queue == queued[i..]
        invariant forall k :: 0 <= k < |queued| ==> queued[k] in before
        invariant requests == ProcessAll(before, queued[..i], failures[..i])
        invariant Valid()
        decreases |queue|
      {
        var id := queue[0];
        assert queue[1..] == queued[i + 1..];
        queue := queue[1..];
        ProcessAllSnoc(before, queued, failures, i);
        PopKeepsInvariant(requests, requests[id := requests[id].(processed := true, success := false)], waiting, queued[i..], nextId);
        requests := requests[id := requests[id].(processed := true, success := false)];
        i := i + 1;
      }
      assert queued[..i] == queued && failures[..i] == failures;
    }

    /** Decodes the GUID, runs the handshake and reports the result. */
    method HandleSelectByGuid(encodedGuid: string, selectedInTime: bool, outcomes: seq<SelectOutcome>)
      returns (r: HttpResponse)
      requires Valid()
      requires selectedInTime ==> |outcomes| == |queue| + 1
      modifies this`queue, this`requests, this`waiting, this`nextId
      ensures Valid()
      ensures exists success: bool :: r == CreateJsonResponse(SelectJson(success))
      ensures !hasMessageWindow || !selectedInTime ==> r == CreateJsonResponse(SelectJson(false))
      ensures hasMessageWindow && selectedInTime ==>
        r == CreateJsonResponse(SelectJson(SelectSucceeded(outcomes[|outcomes| - 1])))
    {
      var guid := UrlDecode(encodedGuid);
      var success := QueueSelectionRequest(guid, selectedInTime, outcomes);
      r := CreateJsonResponse(SelectJson(success));
    }

    /** The cache and the queue as they stand. */
    function Current(): (state: Snapshot)
      reads this
      ensures state.configsLoaded == configsLoaded && state.cachedConfigs == cachedConfigs
      ensures state.queue == queue && state.requests == requests
    {
      Snapshot(configsLoaded, cachedConfigs, queue, requests)
    }

    /** What the dispatcher answers for `route` and the state it leaves,
        from the state `before` the request to the state `after` it. */
    predicate Answers(route: Route, request: HttpRequest, host: Host, before: Snapshot, after: Snapshot, r: HttpResponse)
    {
      && (route.Status? || route.Configurations? ||
          (after.configsLoaded == before.configsLoaded && after.cachedConfigs == before.cachedConfigs))
      && (route.SelectByGuid? || (after.queue == before.queue && after.requests == before.requests))
      && match route
        case Status =>
          && after.configsLoaded == (before.configsLoaded || |host.configs| > 0)
          && after.cachedConfigs == (if before.configsLoaded then before.cachedConfigs else host.configs)
          && r == CreateJsonResponse(StatusJson(after.configsLoaded))
        case SelectByGuid(_) =>
          var selected := hasMessageWindow && host.selectedInTime && |host.selectOutcomes| > 0
            && SelectSucceeded(host.selectOutcomes[|host.selectOutcomes| - 1]);
          r == CreateJsonResponse(SelectJson(selected))
        case Configurations =>
          && after.configsLoaded && after.cachedConfigs == host.configs
          && r == CreateJsonResponse(ConfigurationsJson(host.configs))
        case ExportIfc => r == ExportIfcResponse(request.body, host.exported, host.exportedFile)
        case StaticFile(path) => r == StaticFileResponse(webAppPath, path, host.files)
        case NotFound => r == CreateErrorResponse(404, "Not Found")
    }

    /** Dispatches one parsed request to its handler. */
    method HandleRequest(request: HttpRequest, host: Host) returns (r: HttpResponse)
      requires Valid()
      requires host.selectedInTime ==> |host.selectOutcomes| == |queue| + 1
      modifies this`configsLoaded, this`cachedConfigs, this`queue, this`requests, this`waiting, this`nextId
      ensures Valid()
      ensures Answers(RouteOf(request.httpMethod, request.path), request, host, old(Current()), Current(), r)
    {
      var route := RouteOf(request.httpMethod, request.path);
      match route
      case Status =>
        r := HandleStatus(host.configs);
      case SelectByGuid(encoded) =>
        r := HandleSelectByGuid(encoded, host.selectedInTime, host.selectOutcomes);
      case Configurations =>
        r := HandleGetIfcConfigurations(host.configs);
      case ExportIfc =>
        r := ExportIfcResponse(request.body, host.exported, host.exportedFile);
      case StaticFile(path) =>
        r := StaticFileResponse(webAppPath, path, host.files);
      case NotFound =>
        r := CreateErrorResponse(404, "Not Found");
    }

    /** The reply to one received request: a preflight is answered without
        touching the server's state; anything else goes through the dispatcher. */
    method Respond(raw: string, host: Host) returns (response: HttpResponse)
      requires Valid() && NoNul(raw)
      requires host.selectedInTime ==> |host.selectOutcomes| == |queue| + 1
      modifies this`configsLoaded, this`cachedConfigs, this`queue, this`requests, this`waiting, this`nextId
      ensures Valid()
      ensures MethodOf(raw) == "OPTIONS" ==> response == PreflightResponse() && Current() == old(Current())
      ensures MethodOf(raw) != "OPTIONS" ==>
        var request := HttpRequest(MethodOf(raw), PathOf(raw), BodyOf(raw), HeadersOf(raw));
        Answers(RouteOf(request.httpMethod, request.path), request, host, old(Current()), Current(), response)
    {
      var request := ParseRequest(raw);
      if request.httpMethod == "OPTIONS" {
        response := PreflightResponse();
      } else {
        response := HandleRequest(request, host);
      }
    }

    /** One connection: nothing is sent for an empty read; otherwise the
        request text is answered and the reply is the serialised response. */
    method Serve(bytes: string, host: Host) returns (response: HttpResponse, out: seq<Byte>)
      requires Valid()
      requires host.selectedInTime ==> |host.selectOutcomes| == |queue| + 1
      modifies this`configsLoaded, this`cachedConfigs, this`queue, this`requests, this`waiting, this`nextId
      ensures Valid()
      ensures |bytes| == 0 ==> out == [] && Current() == old(Current())
      ensures |bytes| > 0 ==> out == Wire(response)
      ensures |bytes| > 0 && MethodOf(Received(bytes)) == "OPTIONS" ==>
        response == PreflightResponse() && Current() == old(Current())
      ensures |bytes| > 0 && MethodOf(Received(bytes)) != "OPTIONS" ==>
        var raw := Received(bytes);
        var request := HttpRequest(MethodOf(raw), PathOf(raw), BodyOf(raw), HeadersOf(raw));
        Answers(RouteOf(request.httpMethod, request.path), request, host, old(Current()), Current(), response)
    {
      if |bytes| == 0 {
        return PreflightResponse(), [];
      }
      response := Respond(Received(bytes), host);
      out := FormatResponse(response);
    }
  }
}
