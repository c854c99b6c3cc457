/** The pure decisions of the native Archicad add-on server: the route
    dispatcher, the static-file mapping with its traversal guard, the MIME
    table, the configuration-name extractor and the JSON bodies. */
module NativeRoutes {
  import opened Text
  import opened NativeHttp

  /** Where a request goes.  `SelectByGuid` holds the still-encoded suffix. */
  datatype Route =
    | Status
    | SelectByGuid(encodedGuid: string)
    | Configurations
    | ExportIfc
    | StaticFile(path: string)
    | NotFound

  predicate IsApi(r: Route)
  {
    !r.StaticFile? && !r.NotFound?
  }

  /** The path with the query string removed. */
  function StripQuery(path: string): (r: string)
    ensures StartsWith(path, r)
    ensures forall i :: 0 <= i < |r| ==> r[i] != '?'
  {
    var q := IndexOfCharFrom(path, '?', 0);
    if q < 0 then path else path[..q]
  }

  /** The legacy routes, without the `/api` prefix: GET /status,
      GET /select-by-guid/{id}, GET /ifc-configurations, POST /export-ifc. */
  function EndpointRoute(httpMethod: string, path: string): (r: Option<Route>)
    ensures r.Some? ==> IsApi(r.value)
  {
    if path == "/status" && httpMethod == "GET" then Some(Status)
    else if StartsWith(path, "/select-by-guid/") && httpMethod == "GET" then Some(SelectByGuid(path[16..]))
    else if path == "/ifc-configurations" && httpMethod == "GET" then Some(Configurations)
    else if path == "/export-ifc" && httpMethod == "POST" then Some(ExportIfc)
    else None
  }

  /** The dispatch chain: the `/api/` routes (a legacy route behind the
      prefix, so `/api/select-by-guid/` keeps the text after its 20th
      character), then the legacy routes, then any other GET as a static
      file, else 404.  No path under `/api/` matches a legacy route, so the
      order is the handler's. */
  function RouteOf(httpMethod: string, rawPath: string): Route
  {
    var path := StripQuery(rawPath);
    if StartsWith(path, "/api/") && EndpointRoute(httpMethod, path[4..]).Some? then
      EndpointRoute(httpMethod, path[4..]).value
    else if EndpointRoute(httpMethod, path).Some? then EndpointRoute(httpMethod, path).value
    else if httpMethod == "GET" then StaticFile(path)
    else NotFound
  }

  /** The documented endpoints. */
  predicate DocumentedEndpoint(httpMethod: string, path: string)
  {
    (httpMethod == "GET" && (path == "/status" || StartsWith(path, "/select-by-guid/") || path == "/ifc-configurations"))
    || (httpMethod == "POST" && path == "/export-ifc")
  }

  /** A request reaches a handler exactly when its path, with or without the
      `/api` prefix, names a documented endpoint. */
  lemma ApiRoutesAreDocumented(httpMethod: string, rawPath: string)
    ensures var path := StripQuery(rawPath);
      IsApi(RouteOf(httpMethod, rawPath))
      <==> DocumentedEndpoint(httpMethod, path)
           || (StartsWith(path, "/api/") && DocumentedEndpoint(httpMethod, path[4..]))
  {
  }

  /** `/api/select-by-guid/` hands the text after its 20th character to the
      selection handler. */
  lemma ApiSelectSuffix(rawPath: string)
    requires StartsWith(StripQuery(rawPath), "/api/select-by-guid/")
    ensures RouteOf("GET", rawPath) == SelectByGuid(StripQuery(rawPath)[20..])
  {
    var path := StripQuery(rawPath);
    var rest := path[4..];
    assert StartsWith(path, "/api/") by {
      assert path[..5] == path[..20][..5];
      assert "/api/select-by-guid/"[..5] == "/api/";
    }
    assert StartsWith(rest, "/select-by-guid/") by {
      assert rest[..16] == path[..20][4..];
      assert "/api/select-by-guid/"[4..] == "/select-by-guid/";
    }
    assert rest != "/status" by {
      assert rest[2] == rest[..16][2] == 'e';
    }
    assert EndpointRoute("GET", rest) == Some(SelectByGuid(rest[16..]));
    assert rest[16..] == path[20..];
  }

  /** `/api/X` and the legacy `/X` reach the same handler with the same argument. */
  lemma ApiPrefixSameHandler(httpMethod: string, path: string)
    requires StartsWith(path, "/") && !StartsWith(path, "/api/") && '?' !in path
    requires IsApi(RouteOf(httpMethod, path))
    ensures RouteOf(httpMethod, "/api" + path) == RouteOf(httpMethod, path)
  {
    var full := "/api" + path;
    assert StripQuery(path) == path;
    assert '?' !in full;
    assert StripQuery(full) == full;
    assert full[4..] == path;
    assert StartsWith(full, "/api/");
  }

  /** The query string plays no part in routing. */
  lemma QueryIgnored(httpMethod: string, path: string, query: string)
    requires '?' !in path
    ensures RouteOf(httpMethod, path + "?" + query) == RouteOf(httpMethod, path)
  {
    var full := path + "?" + query;
    assert full[|path|] == '?';
    assert full[..|path|] == path;
    assert StripQuery(full) == path;
  }

  /** Any other GET is a static-file request; any other method gets 404. */
  lemma FallThrough(httpMethod: string, rawPath: string)
    requires !IsApi(RouteOf(httpMethod, rawPath))
    ensures httpMethod == "GET" ==> RouteOf(httpMethod, rawPath) == StaticFile(StripQuery(rawPath))
    ensures httpMethod != "GET" ==> RouteOf(httpMethod, rawPath) == NotFound
  {
  }

  // ---------------------------------------------------------------------
  // Static files

  /** The file a request path names under the web-app folder. */
  function StaticFilePath(webAppPath: string, path: string): string
  {
    if path == "/" || path == "" then webAppPath + "\\index.html"
    else
      var relative := if StartsWith(path, "/") then path[1..] else path;
      webAppPath + "\\" + ReplaceChar(relative, '/', '\\')
  }

  /** Readable files by full path, with their contents. */
  type Files = map<string, seq<Byte>>

  /** Serves the mapped file, falls back to index.html for client-side routes,
      and refuses any mapped path holding `..`. */
  function StaticFileResponse(webAppPath: string, path: string, files: Files): (r: HttpResponse)
    ensures webAppPath == "" ==> r == CreateErrorResponse(500, "WebApp path not configured")
    ensures webAppPath != "" && Contains(StaticFilePath(webAppPath, path), "..")
      ==> r == CreateErrorResponse(403, "Forbidden")
    ensures r.statusCode == 200 ==> r.isBinary && !Contains(StaticFilePath(webAppPath, path), "..")
    ensures r.statusCode == 200 ==>
      var file := StaticFilePath(webAppPath, path);
      var index := webAppPath + "\\index.html";
      (file in files && r.binaryBody == files[file] && r.contentType == GetMimeType(file))
      || (file !in files && index in files && r.binaryBody == files[index] && r.contentType == GetMimeType(index))
    ensures r.statusCode in {200, 403, 404, 500}
  {
    if webAppPath == "" then CreateErrorResponse(500, "WebApp path not configured")
    else
      var file := StaticFilePath(webAppPath, path);
      if Contains(file, "..") then CreateErrorResponse(403, "Forbidden")
      else if file in files then HttpResponse(200, GetMimeType(file), "", files[file], true)
      else
        var index := webAppPath + "\\index.html";
        if index in files then HttpResponse(200, GetMimeType(index), "", files[index], true)
        else CreateErrorResponse(404, "File not found")
  }

  /** `..` anywhere in the request path is refused with 403. */
  lemma TraversalForbidden(webAppPath: string, path: string, files: Files)
    requires webAppPath != "" && Contains(path, "..")
    ensures StaticFileResponse(webAppPath, path, files).statusCode == 403
  {
    var i := ContainsElim(path, "..");
    assert path[i] == '.' && path[i + 1] == '.' by {
      assert path[i..i + 2] == "..";
    }
    if StartsWith(path, "/") {
      assert path[0] == '/' by {
        assert path[..1] == "/";
      }
      var relative := path[1..];
      assert OccursAt(relative, "..", i - 1) by {
        assert relative[i - 1] == path[i] && relative[i] == path[i + 1];
        assert relative[i - 1..i + 1] == "..";
      }
      DotsSurvive(webAppPath, relative, i - 1);
    } else {
      DotsSurvive(webAppPath, path, i);
    }
    assert path != "/" && path != "" by {
      assert |path| >= 2;
    }
  }

  /** `..` in the relative path is still `..` in the full file path. */
  lemma DotsSurvive(webAppPath: string, relative: string, j: int)
    requires OccursAt(relative, "..", j)
    ensures Contains(webAppPath + "\\" + ReplaceChar(relative, '/', '\\'), "..")
  {
    var mapped := ReplaceChar(relative, '/', '\\');
    var file := webAppPath + "\\" + mapped;
    var k := |webAppPath| + 1 + j;
    assert file[k] == '.' && file[k + 1] == '.';
    assert OccursAt(file, "..", k);
    ContainsWitness(file, "..", k);
  }

  /** The root path serves index.html. */
  lemma RootIsIndex(webAppPath: string)
    ensures StaticFilePath(webAppPath, "/") == webAppPath + "\\index.html"
    ensures StaticFilePath(webAppPath, "") == webAppPath + "\\index.html"
  {
  }

  // ---------------------------------------------------------------------
  // MIME types

  const OctetStream: string := "application/octet-stream"

  const MimeTable: map<string, string> := map[
    "html" := "text/html; charset=utf-8",
    "htm" := "text/html; charset=utf-8",
    "css" := "text/css; charset=utf-8",
    "js" := "application/javascript; charset=utf-8",
    "mjs" := "application/javascript; charset=utf-8",
    "json" := "application/json; charset=utf-8",
    "png" := "image/png",
    "jpg" := "image/jpeg",
    "jpeg" := "image/jpeg",
    "gif" := "image/gif",
    "svg" := "image/svg+xml",
    "ico" := "image/x-icon",
    "woff" := "font/woff",
    "woff2" := "font/woff2",
    "ttf" := "font/ttf",
    "otf" := "font/otf",
    "eot" := "application/vnd.ms-fontobject",
    "wasm" := "application/wasm",
    "whl" := "application/zip",
    "zip" := "application/zip",
    "py" := "text/x-python; charset=utf-8",
    "map" := "application/json",
    "ifc" := "application/x-step"
  ]

  /** The text after the last `.`, lower-cased; `None` when there is no dot. */
  function Extension(path: string): (r: Option<string>)
    ensures r.None? <==> LastIndexOfChar(path, '.') < 0
  {
    var dot := LastIndexOfChar(path, '.');
    if dot < 0 then None else Some(ToLower(path[dot + 1..]))
  }

  function GetMimeType(path: string): (mime: string)
    ensures '.' !in path ==> mime == OctetStream
    ensures '.' in path && Extension(path).value !in MimeTable ==> mime == OctetStream
  {
    match Extension(path)
    case None => OctetStream
    case Some(ext) => if ext in MimeTable then MimeTable[ext] else OctetStream
  }

  lemma {:induction false} LastDotUnderLower(path: string)
    ensures LastIndexOfChar(ToLower(path), '.') == LastIndexOfChar(path, '.')
  {
    if |path| > 0 {
      var front := path[..|path| - 1];
      assert ToLower(path)[..|path| - 1] == ToLower(front);
      LastDotUnderLower(front);
    }
  }

  /** The extension is found the same way in the lower-cased path. */
  lemma ExtensionIgnoresCase(path: string)
    ensures Extension(ToLower(path)) == Extension(path)
  {
    var dot := LastIndexOfChar(path, '.');
    LastDotUnderLower(path);
    if dot >= 0 {
      ToLowerSuffix(path, dot + 1);
      ToLowerIdempotent(path[dot + 1..]);
    }
  }

  /** The MIME type does not depend on letter case anywhere in the path. */
  lemma MimeIgnoresCase(path: string)
    ensures GetMimeType(ToLower(path)) == GetMimeType(path)
  {
    ExtensionIgnoresCase(path);
  }

  // ---------------------------------------------------------------------
  // Export request body

  /** The text between the first two `"` after the `:` that follows the first
      `"configuration"`; empty when any of them is missing. */
  function ExtractConfigurationName(body: string): string
  {
    var key := IndexOf(body, "\"configuration\"");
    if key < 0 then ""
    else
      var colon := IndexOfCharFrom(body, ':', key);
      if colon < 0 then ""
      else
        var open := IndexOfCharFrom(body, '"', colon);
        if open < 0 then ""
        else
          var close := IndexOfCharFrom(body, '"', open + 1);
          if close > open then body[open + 1..close] else ""
  }

  /** The body a browser sends: `JSON.stringify({configuration: name})` for a
      name that needs no JSON escaping. */
  function ClientExportBody(name: string): string
  {
    "{\"configuration\":\"" + name + "\"}"
  }

  predicate NeedsNoJsonEscape(name: string)
  {
    forall i :: 0 <= i < |name| ==> name[i] != '"' && name[i] != '\\' && name[i] as int >= 0x20
  }

  lemma FirstChar(s: string, c: char, from: nat, at: nat)
    requires from <= at < |s| && s[at] == c
    requires forall i :: from <= i < at ==> s[i] != c
    ensures IndexOfCharFrom(s, c, from) == at
  {
  }

  /** The name the browser sends is the name the server extracts. */
  lemma ExtractClientBody(name: string)
    requires NeedsNoJsonEscape(name)
    ensures ExtractConfigurationName(ClientExportBody(name)) == name
  {
    var key := "\"configuration\"";
    var body := ClientExportBody(name);
    assert body == "{" + key + ":\"" + name + "\"}";
    assert OccursAt(body, key, 1);
    assert !OccursAt(body, key, 0) by {
      assert body[0] == '{';
    }
    assert IndexOf(body, key) == 1;
    FirstChar(body, ':', 1, 16);
    FirstChar(body, '"', 16, 17);
    assert body[18 + |name|] == '"';
    FirstChar(body, '"', 18, 18 + |name|);
    assert body[18..18 + |name|] == name;
  }

  /** Without a `"configuration"` key the name is empty. */
  lemma MissingKeyGivesEmpty(body: string)
    requires !Contains(body, "\"configuration\"")
    ensures ExtractConfigurationName(body) == ""
  {
  }

  // ---------------------------------------------------------------------
  // Export handler

  /** What the host's export call reported. */
  datatype ExportResult = ExportResult(success: bool, outputPath: string)

  /** The export endpoint given the body, the export call's result for the
      extracted name, and the exported file's contents if it could be read. */
  function ExportIfcResponse(body: string, exported: ExportResult, file: Option<seq<Byte>>): (r: HttpResponse)
    ensures ExtractConfigurationName(body) == ""
      ==> r == CreateErrorResponse(400, "Missing configuration parameter")
    ensures ExtractConfigurationName(body) != "" && (!exported.success || exported.outputPath == "")
      ==> r == CreateErrorResponse(500, "IFC export failed")
    ensures r.statusCode == 200 <==>
      ExtractConfigurationName(body) != "" && exported.success && exported.outputPath != "" && file.Some?
    ensures r.statusCode == 200 ==>
      r.isBinary && r.contentType == "application/octet-stream" && r.binaryBody == file.value
  {
    var name := ExtractConfigurationName(body);
    if name == "" then CreateErrorResponse(400, "Missing configuration parameter")
    else if !exported.success || exported.outputPath == "" then CreateErrorResponse(500, "IFC export failed")
    else if file.None? then CreateErrorResponse(500, "Failed to read exported IFC file")
    else HttpResponse(200, "application/octet-stream", "", file.value, true)
  }

  // ---------------------------------------------------------------------
  // JSON bodies

  function BoolText(b: bool): string
  {
    if b then "true" else "false"
  }

  function StatusWord(configsLoaded: bool): string
  {
    if configsLoaded then "ok" else "initializing"
  }

  /** The readiness field as it appears in the status body. */
  function ReadyField(configsLoaded: bool): string
  {
    "\"configsReady\":" + BoolText(configsLoaded)
  }

  /** Status body: `status` is "ok" exactly when the configurations are
      loaded, and `configsReady` carries the same flag. */
  function StatusJson(configsLoaded: bool): (json: string)
    ensures StartsWith(json, "{\"status\":\"ok\"") <==> configsLoaded
    ensures Contains(json, ReadyField(configsLoaded))
  {
    var head := "{\"status\":\"" + StatusWord(configsLoaded) + "\",\"connected\":true,";
    var tail := ",\"version\":\"1.0.0\"}";
    var json := head + (ReadyField(configsLoaded) + tail);
    StatusJsonFacts(configsLoaded, head, tail);
    json
  }

  lemma StatusJsonFacts(configsLoaded: bool, head: string, tail: string)
    requires head == "{\"status\":\"" + StatusWord(configsLoaded) + "\",\"connected\":true,"
    ensures StartsWith(head + (ReadyField(configsLoaded) + tail), "{\"status\":\"ok\"") <==> configsLoaded
    ensures Contains(head + (ReadyField(configsLoaded) + tail), ReadyField(configsLoaded))
  {
    var field := ReadyField(configsLoaded);
    var json := head + (field + tail);
    assert json[..14] == head[..14];
    if !configsLoaded {
      assert json[11] == 'i';
    }
    assert OccursAt(field + tail, field, 0);
    ContainsWitness(field + tail, field, 0);
    ContainsSuffix(head, field + tail, field);
  }

  /** Select body: `success` and the message follow the selection result. */
  function SelectJson(success: bool): string
  {
    "{\"success\":" + BoolText(success) + ",\"message\":\""
      + (if success then "Element selected" else "Element not found or selection failed") + "\"}"
  }

  /** One export configuration as the host reports it. */
  datatype IfcConfiguration = IfcConfiguration(name: string, description: string, version: string)

  /** The opening of an entry, up to and including its name. */
  function NameField(name: string): string
  {
    "{\"name\":\"" + name + "\""
  }

  function ConfigurationJson(c: IfcConfiguration): string
  {
    NameField(c.name) + (",\"description\":\"" + c.description + "\",\"version\":\"" + c.version + "\"}")
  }

  const ConfigurationsOpen: string := "{\"configurations\":["

  /** `{"configurations":[...]}` with the entries in the host's order. */
  function ConfigurationsJson(configs: seq<IfcConfiguration>): string
  {
    ConfigurationsOpen + (Join(ConfigurationObjects(configs), ",") + "]}")
  }

  function ConfigurationObjects(configs: seq<IfcConfiguration>): (objects: seq<string>)
    ensures |objects| == |configs|
    ensures forall i :: 0 <= i < |configs| ==> objects[i] == ConfigurationJson(configs[i])
  {
    if |configs| == 0 then [] else [ConfigurationJson(configs[0])] + ConfigurationObjects(configs[1..])
  }

  lemma ConfigurationObjectsSnoc(configs: seq<IfcConfiguration>, i: nat)
    requires i < |configs|
    ensures ConfigurationObjects(configs[..i + 1]) == ConfigurationObjects(configs[..i]) + [ConfigurationJson(configs[i])]
  {
  }

  /** Writing one more entry, after a comma unless it is the first, extends
      the text to the join of one more object. */
  lemma WriteStep(json: string, head: string, objects: seq<string>, entry: string)
    requires json == head + Join(objects, ",")
    ensures (if |objects| == 0 then json + entry else json + "," + entry)
      == head + Join(objects + [entry], ",")
  {
    JoinSnoc(objects, entry, ",");
    if |objects| > 0 {
      var joined := Join(objects, ",");
      assert (head + joined) + "," + entry == head + (joined + "," + entry);
    }
  }

  /** The configurations body as the handler's loop writes it: a comma before
      every entry but the first. */
  method WriteConfigurations(configs: seq<IfcConfiguration>) returns (json: string)
    ensures json == ConfigurationsJson(configs)
  {
    json := ConfigurationsOpen;
    var first := true;
    var i := 0;
    while i < |configs|
      invariant 0 <= i <= |configs|
      invariant first <==> i == 0
      invariant json == ConfigurationsOpen + Join(ConfigurationObjects(configs[..i]), ",")
    {
      ghost var objects := ConfigurationObjects(configs[..i]);
      var entry := ConfigurationJson(configs[i]);
      ConfigurationObjectsSnoc(configs, i);
      WriteStep(json, ConfigurationsOpen, objects, entry);
      if !first {
        json := json + ",";
      }
      first := false;
      json := json + entry;
      i := i + 1;
    }
    assert configs[..i] == configs;
    json := json + "]}";
  }

  /** Every configuration the host reports appears, with its name, in the body. */
  lemma ConfigurationsJsonListsEach(configs: seq<IfcConfiguration>, k: nat)
    requires k < |configs|
    ensures Contains(ConfigurationsJson(configs), NameField(configs[k].name))
  {
    var objects := ConfigurationObjects(configs);
    var entry := ConfigurationJson(configs[k]);
    var field := NameField(configs[k].name);
    JoinContains(objects, ",", k);
    ContainsWitness(field, field, 0);
    ContainsPrefix(field, entry[|field|..], field);
    assert field + entry[|field|..] == entry;
    ContainsTransitive(Join(objects, ","), entry, field);
    ContainsPrefix(Join(objects, ","), "]}", field);
    ContainsSuffix(ConfigurationsOpen, Join(objects, ",") + "]}", field);
  }
}
