/** The two WebView2 views (Revit and .NET Archicad) that host the web
    application: which `app.localhost` requests they answer themselves and
    how, the content-type table, the URL they navigate to and the script that
    hands the API URL to the page.  The browser, the `Uri` class's parsing and
    the file system are inputs. */
module WebViews {
  import opened Text
  import UriText
  import DotNetBridge
  import RevitWebAppConfig

  datatype View = RevitView | ArchicadView

  const VirtualHost: string := "http://app.localhost"

  /** A resource request as the view sees it: the URI text (none when the
      request carries none), the HTTP verb, and the absolute path the `Uri`
      class reports for it (an error message when parsing throws). */
  datatype ResourceRequest = ResourceRequest(uri: Option<string>, verb: string, absolutePath: Result<string, string>)

  /** Existing files, and the ones among them whose opening throws (with the message). */
  datatype FileSystem = FileSystem(existing: set<string>, unopenable: map<string, string>)

  type Header = (string, string)

  datatype ResponseBody = NoContent | FileContent(path: string) | TextContent(text: string)

  /** The view either leaves a request to the virtual-host mapping or answers it. */
  datatype ResourceResponse =
    | PassThrough
    | Answer(status: int, reason: string, headers: seq<Header>, body: ResponseBody)

  const CorsHeaders: seq<Header> := [
    ("Access-Control-Allow-Origin", "*"),
    ("Access-Control-Allow-Methods", "GET, POST, OPTIONS"),
    ("Access-Control-Allow-Headers", "Content-Type")
  ]

  /** The CORS headers followed by one more. */
  function WithCors(header: Header): (headers: seq<Header>)
    ensures |headers| == 4 && headers[..3] == CorsHeaders && headers[3] == header
  {
    CorsHeaders + [header]
  }

  /** The request is for the virtual host. */
  predicate Intercepted(request: Option<ResourceRequest>)
  {
    request.Some? && request.value.uri.Some? && StartsWith(request.value.uri.value, VirtualHost)
  }

  /** The absolute path without its leading slashes, with `/` turned into the
      platform's directory separator. */
  function RelativePath(absolutePath: string, separator: char): (r: string)
    ensures |r| <= |absolutePath|
    ensures separator != '/' ==> forall i :: 0 <= i < |r| ==> r[i] != '/'
    ensures |r| > 0 ==> absolutePath[|absolutePath| - |r|] != '/'
  {
    ReplaceChar(TrimStartSet(absolutePath, {'/'}), '/', separator)
  }

  /** Dropping the slashes once is enough: a relative path has no leading slash left to drop. */
  lemma RelativePathOfRelative(absolutePath: string)
    ensures RelativePath(RelativePath(absolutePath, '/'), '/') == RelativePath(absolutePath, '/')
  {
    var t := TrimStartSet(absolutePath, {'/'});
    assert ReplaceChar(t, '/', '/') == t;
    if |t| > 0 {
      assert t[0] !in {'/'};
    }
    assert TrimStartSet(t, {'/'}) == t;
  }

  /** Wheels, workers and Pyodide files are served with CORS headers; the
      comparison ignores case. */
  predicate NeedsCors(relativePath: string)
  {
    EndsWithIgnoreCase(relativePath, ".whl")
    || ContainsIgnoreCase(relativePath, "worker")
    || ContainsIgnoreCase(relativePath, "pyodide")
  }

  /** Whether a path needs CORS does not depend on its letter case. */
  lemma NeedsCorsIgnoresCase(relativePath: string)
    ensures NeedsCors(ToLower(relativePath)) == NeedsCors(relativePath)
  {
    ToLowerIdempotent(relativePath);
  }

  const PathSeparators: set<char> := {'/', '\\'}

  /** Index of the last `.` that is not followed by a directory separator, or -1. */
  function LastDot(path: string): (i: int)
    ensures -1 <= i < |path|
    ensures i >= 0 ==> path[i] == '.'
    ensures i >= 0 ==> forall k :: i < k < |path| ==> path[k] != '.' && path[k] !in PathSeparators
  {
    if |path| == 0 then -1
    else if path[|path| - 1] == '.' then |path| - 1
    else if path[|path| - 1] in PathSeparators then -1
    else LastDot(path[..|path| - 1])
  }

  /** `Path.GetExtension`: the text from the last dot of the file name, or
      empty when there is none or the dot ends the path. */
  function GetExtension(path: string): (ext: string)
    ensures ext != "" ==> |ext| >= 2 && ext[0] == '.' && EndsWith(path, ext)
    ensures forall k :: 0 < k < |ext| ==> ext[k] != '.' && ext[k] !in PathSeparators
  {
    var i := LastDot(path);
    if i < 0 || i == |path| - 1 then "" else path[i..]
  }

  /** A dot-free, separator-free tail does not move the last dot. */
  lemma {:induction false} LastDotSkips(s: string, t: string)
    requires forall k :: 0 <= k < |t| ==> t[k] != '.' && t[k] !in PathSeparators
    requires |s| > 0 && s[|s| - 1] == '.'
    ensures LastDot(s + t) == |s| - 1
  {
    if |t| > 0 {
      assert (s + t)[..|s + t| - 1] == s + t[..|t| - 1];
      LastDotSkips(s, t[..|t| - 1]);
    } else {
      assert s + t == s;
    }
  }

  /** A name followed by a proper extension has that extension. */
  lemma ExtensionOfName(name: string, ext: string)
    requires |ext| >= 2 && ext[0] == '.'
    requires forall k :: 0 < k < |ext| ==> ext[k] != '.' && ext[k] !in PathSeparators
    ensures GetExtension(name + ext) == ext
  {
    var tail := ext[1..];
    assert name + ext == (name + ".") + tail;
    LastDotSkips(name + ".", tail);
  }

  const OctetStream: string := "application/octet-stream"

  const ContentTypes: map<string, string> := map[
    ".whl" := "application/zip",
    ".js" := "application/javascript",
    ".mjs" := "application/javascript",
    ".wasm" := "application/wasm",
    ".json" := "application/json",
    ".html" := "text/html",
    ".css" := "text/css",
    ".py" := "text/x-python"
  ]

  /** The content type for the lower-cased extension, octet-stream when unknown. */
  function GetContentType(filePath: string): (contentType: string)
    ensures ToLower(GetExtension(filePath)) in ContentTypes ==> contentType == ContentTypes[ToLower(GetExtension(filePath))]
    ensures ToLower(GetExtension(filePath)) !in ContentTypes ==> contentType == OctetStream
  {
    var ext := ToLower(GetExtension(filePath));
    if ext in ContentTypes then ContentTypes[ext] else OctetStream
  }

  /** A file named with a known extension, in any letter case, gets that
      extension's type. */
  lemma KnownExtension(name: string, ext: string)
    requires |ext| >= 2 && ext[0] == '.'
    requires forall k :: 0 < k < |ext| ==> ext[k] != '.' && ext[k] !in PathSeparators
    ensures ToLower(ext) in ContentTypes ==> GetContentType(name + ext) == ContentTypes[ToLower(ext)]
    ensures ToLower(ext) !in ContentTypes ==> GetContentType(name + ext) == OctetStream
  {
    ExtensionOfName(name, ext);
  }

  /** The answer to an exception while serving: Revit returns 500 with the
      message, the Archicad view only logs it. */
  function Failure(view: View, message: string): (r: ResourceResponse)
    ensures view == ArchicadView <==> r == PassThrough
  {
    match view
    case RevitView =>
      Answer(500, "Internal Server Error", WithCors(("Content-Type", "text/plain")), TextContent("Error: " + message))
    case ArchicadView => PassThrough
  }

  /** The `WebResourceRequested` handler, installed only when a web folder
      exists: requests outside the virtual host and paths that need no CORS
      go through; CORS paths get a preflight answer, the file, a 404 or the
      view's exception answer. */
  function HandleResourceRequest(view: View, folder: Option<string>, request: Option<ResourceRequest>,
                                 files: FileSystem, separator: char): (r: ResourceResponse)
    ensures folder.None? || !Intercepted(request) ==> r == PassThrough
    ensures folder.Some? && Intercepted(request) && request.value.absolutePath.Ok? ==>
      (!NeedsCors(RelativePath(request.value.absolutePath.value, separator)) ==> r == PassThrough)
    ensures r.Answer? && r.status == 200 && r.body == NoContent ==> request.value.verb == "OPTIONS"
    ensures folder.Some? && Intercepted(request) && request.value.absolutePath.Err? ==>
      r == Failure(view, request.value.absolutePath.error)
    ensures folder.Some? && Intercepted(request) && request.value.absolutePath.Ok? ==>
      var relativePath := RelativePath(request.value.absolutePath.value, separator);
      var filePath := DotNetBridge.PathCombine(folder.value, relativePath);
      var served := NeedsCors(relativePath) && request.value.verb != "OPTIONS";
      && (NeedsCors(relativePath) && request.value.verb == "OPTIONS" ==>
            r == Answer(200, "OK", WithCors(("Access-Control-Max-Age", "86400")), NoContent))
      && (served && filePath in files.existing && filePath !in files.unopenable ==>
            r == Answer(200, "OK", WithCors(("Content-Type", GetContentType(filePath))), FileContent(filePath)))
      && (served && filePath !in files.existing ==>
            r == Answer(404, "Not Found", WithCors(("Content-Type", "text/plain")), TextContent("File not found: " + relativePath)))
      && (served && filePath in files.existing && filePath in files.unopenable ==>
            r == Failure(view, files.unopenable[filePath]))
  {
    if folder.None? || !Intercepted(request) then PassThrough
    else
      var req := request.value;
      match req.absolutePath
      case Err(message) => Failure(view, message)
      case Ok(absolutePath) =>
        var relativePath := RelativePath(absolutePath, separator);
        if !NeedsCors(relativePath) then PassThrough
        else if req.verb == "OPTIONS" then
          Answer(200, "OK", WithCors(("Access-Control-Max-Age", "86400")), NoContent)
        else
          var filePath := DotNetBridge.PathCombine(folder.value, relativePath);
          if filePath in files.existing && filePath in files.unopenable then Failure(view, files.unopenable[filePath])
          else if filePath in files.existing then
            Answer(200, "OK", WithCors(("Content-Type", GetContentType(filePath))), FileContent(filePath))
          else
            Answer(404, "Not Found", WithCors(("Content-Type", "text/plain")), TextContent("File not found: " + relativePath))
  }

  /** Every answer carries the CORS headers first and is a preflight or a
      file (200), a 404 naming the path, or an exception answer (500). */
  lemma AnswersCarryCors(view: View, folder: Option<string>, request: Option<ResourceRequest>,
                         files: FileSystem, separator: char)
    ensures var r := HandleResourceRequest(view, folder, request, files, separator);
      r.Answer? ==> |r.headers| == 4 && r.headers[..3] == CorsHeaders && r.status in {200, 404, 500}
  {
    var r := HandleResourceRequest(view, folder, request, files, separator);
    if folder.Some? && Intercepted(request) {
      match request.value.absolutePath
      case Err(message) =>
        assert r == Failure(view, message);
      case Ok(absolutePath) =>
        var relativePath := RelativePath(absolutePath, separator);
        if NeedsCors(relativePath) && request.value.verb != "OPTIONS" {
          var filePath := DotNetBridge.PathCombine(folder.value, relativePath);
          if filePath in files.existing && filePath in files.unopenable {
            assert r == Failure(view, files.unopenable[filePath]);
          }
        }
    }
  }

  /** A request path that is rooted once its slashes are dropped (a drive
      letter, as in `/C:/Users/u/worker.js`) is looked up as it stands, not
      under the web folder: `Path.Combine` keeps a rooted second argument. */
  lemma RootedPathServedAsIs(view: View, folder: string, request: ResourceRequest,
                             files: FileSystem, separator: char)
    requires Intercepted(Some(request)) && request.absolutePath.Ok? && request.verb != "OPTIONS"
    requires var relativePath := RelativePath(request.absolutePath.value, separator);
      NeedsCors(relativePath) && DotNetBridge.IsPathRooted(relativePath)
      && relativePath in files.existing && relativePath !in files.unopenable
    ensures var relativePath := RelativePath(request.absolutePath.value, separator);
      HandleResourceRequest(view, Some(folder), Some(request), files, separator)
        == Answer(200, "OK", WithCors(("Content-Type", GetContentType(relativePath))), FileContent(relativePath))
  {
  }

  /** Only the Revit view ever answers 500. */
  lemma OnlyRevitFails(view: View, folder: Option<string>, request: Option<ResourceRequest>,
                       files: FileSystem, separator: char)
    ensures var r := HandleResourceRequest(view, folder, request, files, separator);
      r.Answer? && r.status == 500 ==> view == RevitView
  {
  }

  /** The two views answer alike except that where Revit answers 500, the
      Archicad view lets the request go through. */
  lemma ViewsAgreeExceptOnFailure(folder: Option<string>, request: Option<ResourceRequest>,
                                  files: FileSystem, separator: char)
    ensures var revit := HandleResourceRequest(RevitView, folder, request, files, separator);
      var archicad := HandleResourceRequest(ArchicadView, folder, request, files, separator);
      revit == archicad || (revit.Answer? && revit.status == 500 && archicad == PassThrough)
  {
  }

  /** A preflight answer does not depend on the files. */
  lemma PreflightIgnoresFiles(view: View, folder: Option<string>, request: Option<ResourceRequest>,
                              files1: FileSystem, files2: FileSystem, separator: char)
    requires Intercepted(request) && request.value.verb == "OPTIONS"
    ensures HandleResourceRequest(view, folder, request, files1, separator)
         == HandleResourceRequest(view, folder, request, files2, separator)
  {
  }

  /** The page URL with `api=<escaped API URL>` added after `?`, or after
      `&` when the URL already has a query. */
  function NavigationUrl(webUrl: string, apiUrl: string): (url: string)
    ensures |url| >= |webUrl| + 5 && StartsWith(url, webUrl)
    ensures url[|webUrl|] == (if '?' in webUrl then '&' else '?')
    ensures url[|webUrl| + 1..] == "api=" + UriText.EscapeDataString(apiUrl)
  {
    webUrl + (if '?' in webUrl then "&" else "?") + "api=" + UriText.EscapeDataString(apiUrl)
  }

  /** An escaped value holds no `&` or `#`. */
  lemma EscapedHasNoDelimiters(s: string)
    ensures '&' !in UriText.EscapeDataString(s) && '#' !in UriText.EscapeDataString(s)
  {
    var value := UriText.EscapeDataString(s);
    UriText.EncodedAlphabet(UriText.DataString, s);
    forall k | 0 <= k < |value|
      ensures value[k] != '&' && value[k] != '#'
    {
      assert UriText.Emitted(UriText.DataString, value[k]);
    }
  }

  /** The `api` value reads back as the API URL and holds no `&` or `#`
      that would cut it short. */
  lemma NavigationApiParam(webUrl: string, apiUrl: string)
    ensures var value := NavigationUrl(webUrl, apiUrl)[|webUrl| + 5..];
      UriText.UnescapeDataString(value) == apiUrl && '&' !in value && '#' !in value
  {
    var url := NavigationUrl(webUrl, apiUrl);
    assert url[|webUrl| + 5..] == url[|webUrl| + 1..][4..];
    UriText.UnescapeEncodeRoundTrip(UriText.DataString, apiUrl);
    EscapedHasNoDelimiters(apiUrl);
  }

  /** The Revit view: the folder it maps (only when local files exist) and
      the URL it opens. */
  function RevitFolder(m: RevitWebAppConfig.Machine): (folder: Option<string>)
    ensures folder.Some? <==> RevitWebAppConfig.HasLocalWebApp(m)
  {
    if RevitWebAppConfig.HasLocalWebApp(m) then RevitWebAppConfig.GetWebAppFolder(m) else None
  }

  function RevitNavigation(m: RevitWebAppConfig.Machine): (url: string)
    ensures StartsWith(url, RevitWebAppConfig.GetWebAppUrl(m))
  {
    NavigationUrl(RevitWebAppConfig.GetWebAppUrl(m), RevitWebAppConfig.GetApiUrl(m))
  }

  /** Without local files the Revit view answers nothing itself. */
  lemma RevitWithoutLocalFilesPassesThrough(m: RevitWebAppConfig.Machine, request: Option<ResourceRequest>,
                                            files: FileSystem, separator: char)
    requires !RevitWebAppConfig.HasLocalWebApp(m)
    ensures HandleResourceRequest(RevitView, RevitFolder(m), request, files, separator) == PassThrough
  {
  }

  /** What the injected script touches in the page: the `api` query
      parameter, the view's global variable, the client record (when the
      page has one) and the events dispatched so far. */
  datatype PageState = PageState(apiParam: Option<string>, globalApiUrl: Option<string>,
                                 client: Option<ClientRecord>, events: seq<string>)

  datatype ClientRecord = ClientRecord(apiUrl: string, enabled: bool)

  function ApiUrlEvent(view: View): string
  {
    match view
    case RevitView => "revitApiUrlSet"
    case ArchicadView => "archicadApiUrlSet"
  }

  /** After a successful navigation: an absent or empty `api` parameter is
      set and announced; the global variable is always set; an existing
      client record is pointed at the API URL and enabled. */
  function InjectApiUrl(view: View, isSuccess: bool, page: PageState, apiUrl: string): (r: PageState)
    ensures !isSuccess ==> r == page
    ensures isSuccess ==> r.globalApiUrl == Some(apiUrl)
    ensures isSuccess && page.apiParam.Some? && page.apiParam.value != "" ==>
      r.apiParam == page.apiParam && r.events == page.events
    ensures isSuccess && !(page.apiParam.Some? && page.apiParam.value != "") ==>
      r.apiParam == Some(apiUrl) && r.events == page.events + [ApiUrlEvent(view)]
    ensures isSuccess ==> r.client.Some? == page.client.Some?
    ensures isSuccess && r.client.Some? ==> r.client.value == ClientRecord(apiUrl, true)
  {
    if !isSuccess then page
    else
      var missing := !(page.apiParam.Some? && page.apiParam.value != "");
      PageState(
        if missing then Some(apiUrl) else page.apiParam,
        Some(apiUrl),
        if page.client.Some? then Some(ClientRecord(apiUrl, true)) else None,
        if missing then page.events + [ApiUrlEvent(view)] else page.events)
  }

  /** Running the script again changes nothing when the API URL is not empty. */
  lemma InjectIdempotent(view: View, page: PageState, apiUrl: string)
    requires apiUrl != ""
    ensures InjectApiUrl(view, true, InjectApiUrl(view, true, page, apiUrl), apiUrl) == InjectApiUrl(view, true, page, apiUrl)
  {
  }
}
