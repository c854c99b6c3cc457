# IfcTester host bridges, modelled in Dafny

IfcTester checks IFC building models against IDS (Information Delivery
Specification) documents in the browser. The checking runs as Python
(IfcOpenShell and ifctester) on Pyodide, inside a web worker. Around that
browser application sit several bridges that connect it to a running
authoring tool:

- **Native Archicad add-on**: a small HTTP/1.1 server on port 48882
  (`ArchiCADApiServer.cpp`). It serves the built web application from disk
  and answers `/status`, `/select-by-guid/<guid>`, `/ifc-configurations` and
  `/export-ifc`, each also under `/api/...`. It also has a browser palette
  that hosts the page and offers a JavaScript `ACAPI` bridge
  (`BrowserPalette.cpp`). `WebAppConfig.cpp` decides which URL that palette
  loads.
- **.NET Revit server** (`RevitApiServer.cs`, port 48881) and **.NET Archicad
  server** (`ArchicadApiServer.cs`, port 48882). They share one route table.
  They run the host-side work through handlers that are raised and then
  awaited with timeouts. `/status` reports "ok" only once the IFC export
  configurations have loaded, retrying three times with back-off.
- **Two WebView2 views** (Revit and Archicad). They map `app.localhost` to
  a local folder, answer CORS-sensitive resource requests themselves, and
  inject the API URL into the page.
- **Browser clients** (`revit.svelte.js`, `archicad.svelte.js`): connection
  record, connecting, selecting an element by its IFC GlobalId, configurations,
  export download and audit.
- **Web worker** (`worker.js`), which installs the Python packages with
  fallbacks and dispatches API calls.
- **IDS error parser** (`toast.svelte.js`), which turns an XML-schema
  validation error into a short toast.

The model has one Dafny module per source concern:

- `Text`, `UriText`: string helpers, and the percent-encoding of RFC 3986
  section 2.1 applied to the UTF-8 bytes of each character (RFC 3629
  section 3). The decoder reads a well-formed escaped UTF-8 sequence back as
  its character and leaves an ill-formed escape as it stands.
- `NativeHttp`, `NativeRoutes`, `NativeServer`: the native server. The
  `ApiServer` class holds the configuration cache and the selection queue.
- `DotNetBridge`, `RevitHandlers`, `RevitServer`, `ArchicadNetServer`: the
  .NET servers. The handlers and servers are classes whose methods update
  their fields, as in the source.
- `BrowserPalette`, `ArchicadWebAppConfig`, `RevitWebAppConfig`, `WebViews`.
- `WebClient`, `RevitClient`, `ArchicadClient`, `Worker`, `IdsErrors`.

The model treats the outside world as inputs:
- what the host application does;
- how a timed wait ends;
- what the network answers;
- the file system, as a map from path to bytes.

## Model

Source paths are relative to the repository root.

| member | source | states |
|---|---|---|
| NativeHttp.DefaultResponse | archicad/Src/ArchiCADApiServer.hpp:29-37 | A fresh response is 200, `application/json`, text and empty |
| NativeHttp.CreateErrorResponse | archicad/Src/ArchiCADApiServer.cpp:691-702 | The body is exactly `{"error":"<message>"}` with the given status, as JSON text |
| NativeHttp.CreateJsonResponse | archicad/Src/ArchiCADApiServer.cpp:704-715 | A 200 JSON text response whose body is the given JSON |
| NativeHttp.CStr | archicad/Src/ArchiCADApiServer.cpp:246 | Reading a NUL-terminated buffer keeps the prefix before the first NUL, and the whole text when there is none |
| NativeHttp.StrtolHex2 | archicad/Src/ArchiCADApiServer.cpp:676-680 | `strtol(.., 16)` of two characters: their hexadecimal value when both are hex digits, 0 when neither is |
| NativeHttp.UrlDecode | archicad/Src/ArchiCADApiServer.cpp:670-689 | The decoding loop produces the specification function `UrlDecodeBytes`, cut at the first NUL |
| NativeHttp.UrlDecodeIdentity | archicad/Src/ArchiCADApiServer.cpp:670-689 | Text without `%` or `+` decodes to itself |
| NativeHttp.UrlDecodeEscapes | archicad/Src/ArchiCADApiServer.cpp:674-682 | `%HH` with two hex digits decodes to that byte; a `%` without two following characters is copied |
| NativeHttp.UrlDecodeMalformedEscapeTruncates | archicad/Src/ArchiCADApiServer.cpp:676-680 | A malformed escape `%zz` decodes to NUL, so the decoded GUID ends there |
| NativeHttp.UrlDecodePrefix | archicad/Src/ArchiCADApiServer.cpp:670-689 | Decoding is compositional over a prefix without `%` or `+` |
| NativeHttp.UrlDecodeInvertsEncodeUriComponent | archicad/Src/ArchiCADApiServer.cpp:670-689 | The server's decoding undoes the browser's `encodeURIComponent` on ASCII text without NUL |
| NativeHttp.DecodeEncodeBytes | archicad/Src/ArchiCADApiServer.cpp:670-689 | Byte-level decoding inverts `encodeURIComponent` on all ASCII text |
| NativeHttp.UrlDecodeStep | archicad/Src/ArchiCADApiServer.cpp:672-686 | One encoded ASCII character decodes back to itself, ahead of the rest |
| NativeHttp.NextLine | archicad/Src/ArchiCADApiServer.cpp:332-352 | `std::getline`: a line holds no newline and is followed by one, or is the unterminated end; none at the end of input |
| NativeHttp.TokenLength | archicad/Src/ArchiCADApiServer.cpp:322-329 | `>>` reads a word up to the first white space |
| NativeHttp.ParseRequest | archicad/Src/ArchiCADApiServer.cpp:316-355 | Method and path are the request line's first two words; the headers and body are those of the specification functions |
| NativeHttp.ReadHeaders | archicad/Src/ArchiCADApiServer.cpp:332-343 | The header loop computes `ScanHeaders`, which stops at an empty or `\r` line |
| NativeHttp.ReadBody | archicad/Src/ArchiCADApiServer.cpp:346-352 | The body loop yields the rest of the input with at most one final newline dropped |
| NativeHttp.BodyIsRestOfInput | archicad/Src/ArchiCADApiServer.cpp:346-352 | The body is everything after the headers, up to one dropped newline |
| NativeHttp.JoinedIsRest | archicad/Src/ArchiCADApiServer.cpp:346-352 | Rejoining the remaining lines with `\n` gives the rest of the input, ending in a newline |
| NativeHttp.RequestLineWords | archicad/Src/ArchiCADApiServer.cpp:322-329 | A request line `M P V` gives method M and path P |
| NativeHttp.RequestLineTokens | archicad/Src/ArchiCADApiServer.cpp:322-329 | The request line splits into exactly its three words |
| NativeHttp.HeadersLastWins | archicad/Src/ArchiCADApiServer.cpp:332-343 | A repeated header keeps its last value; a header never sent keeps its earlier value or stays absent |
| NativeHttp.HeadersOfRequest | archicad/Src/ArchiCADApiServer.cpp:332-343 | A request has a header exactly when one of its header lines names it, with the last such value |
| NativeHttp.Reason | archicad/Src/ArchiCADApiServer.cpp:363-369 | The reason phrase is "Unknown" exactly for codes other than 200, 400, 404 and 500 |
| NativeHttp.FormatResponse | archicad/Src/ArchiCADApiServer.cpp:357-393 | The bytes sent are the UTF-8 head followed by the payload, and Content-Length equals the payload's byte count (corrected) |
| NativeHttp.ResponseHeadFields | archicad/Src/ArchiCADApiServer.cpp:371-384 | The head starts with the status line and carries the three CORS headers and the Content-Length line |
| NativeHttp.ContentLengthAsWrittenAgreesOnAscii | archicad/Src/ArchiCADApiServer.cpp:378-382 | The source's `body.GetLength()` Content-Length is right for binary bodies and for ASCII text bodies, assuming the text is sent as UTF-8 |
| NativeHttp.ContentLengthAsWrittenUndercounts | archicad/Src/ArchiCADApiServer.cpp:378-382 | Assuming the text body is sent as UTF-8, the body "é" is two bytes but announced as one |
| NativeRoutes.StripQuery | archicad/Src/ArchiCADApiServer.cpp:405-408 | The routed path is the prefix before the first `?` |
| NativeRoutes.EndpointRoute | archicad/Src/ArchiCADApiServer.cpp:411-441 | An endpoint match is always an API route |
| NativeRoutes.ApiRoutesAreDocumented | archicad/Src/ArchiCADApiServer.cpp:400-451 | A request reaches an API handler exactly when its path is a documented endpoint, bare or under `/api` |
| NativeRoutes.ApiSelectSuffix | archicad/Src/ArchiCADApiServer.cpp:411-425 | `GET /api/select-by-guid/<g>` selects `<g>` |
| NativeRoutes.ApiPrefixSameHandler | archicad/Src/ArchiCADApiServer.cpp:411-441 | `/api/<p>` reaches the same handler as `/<p>` |
| NativeRoutes.QueryIgnored | archicad/Src/ArchiCADApiServer.cpp:405-408 | A query string never changes the route |
| NativeRoutes.FallThrough | archicad/Src/ArchiCADApiServer.cpp:443-449 | A non-API GET is a static file request; any other method is 404 |
| NativeRoutes.StaticFileResponse | archicad/Src/ArchiCADApiServer.cpp:717-790 | 500 without a web folder, 403 on `..`, the file or `index.html` with its MIME type as 200, otherwise 404 |
| NativeRoutes.TraversalForbidden | archicad/Src/ArchiCADApiServer.cpp:752-755 | Any request path containing `..` is refused with 403 |
| NativeRoutes.DotsSurvive | archicad/Src/ArchiCADApiServer.cpp:732-749 | Mapping the path onto the folder keeps every `..` |
| NativeRoutes.RootIsIndex | archicad/Src/ArchiCADApiServer.cpp:732-740 | `/` and the empty path map to `index.html` |
| NativeRoutes.Extension | archicad/Src/ArchiCADApiServer.cpp:794-798 | There is an extension exactly when the path has a dot |
| NativeRoutes.GetMimeType | archicad/Src/ArchiCADApiServer.cpp:792-830 | Without a dot, or with an unlisted extension, the type is octet-stream |
| NativeRoutes.ExtensionIgnoresCase | archicad/Src/ArchiCADApiServer.cpp:794-800 | The lower-cased extension does not depend on the path's case |
| NativeRoutes.MimeIgnoresCase | archicad/Src/ArchiCADApiServer.cpp:792-830 | The MIME type does not depend on letter case |
| NativeRoutes.ExtractClientBody | archicad/Src/ArchiCADApiServer.cpp:614-627 | The name extraction recovers the configuration name from the body the browser client sends |
| NativeRoutes.MissingKeyGivesEmpty | archicad/Src/ArchiCADApiServer.cpp:614-631 | A body without the `"configuration"` key gives the empty name |
| NativeRoutes.ExportIfcResponse | archicad/Src/ArchiCADApiServer.cpp:608-668 | 400 without a name, 500 when export fails or the file cannot be read, else the file as binary octet-stream |
| NativeRoutes.StatusJson | archicad/Src/ArchiCADApiServer.cpp:453-470 | The status reads "ok" exactly when configurations are loaded, and `configsReady` agrees |
| NativeRoutes.StatusJsonFacts | archicad/Src/ArchiCADApiServer.cpp:460-468 | The status object's fields as written |
| NativeRoutes.ConfigurationObjects | archicad/Src/ArchiCADApiServer.cpp:587-598 | One JSON object per configuration, in order |
| NativeRoutes.WriteStep | archicad/Src/ArchiCADApiServer.cpp:589-597 | Each loop step appends the next object after a comma separator |
| NativeRoutes.WriteConfigurations | archicad/Src/ArchiCADApiServer.cpp:585-600 | The string-building loop produces `ConfigurationsJson` |
| NativeRoutes.ConfigurationsJsonListsEach | archicad/Src/ArchiCADApiServer.cpp:585-600 | Every configuration's object appears in the JSON |
| NativeServer.SelectSucceeded | archicad/Src/ArchiCADApiServer.cpp:551-570 | A selection succeeds exactly when the host selected the element |
| NativeServer.ProcessAll | archicad/Src/ArchiCADApiServer.cpp:537-578 | Processing keeps the set of pending requests' ids |
| NativeServer.ProcessAllEach | archicad/Src/ArchiCADApiServer.cpp:537-578 | Each queued request is marked processed with its own outcome; others are untouched |
| NativeServer.ProcessAllSnoc | archicad/Src/ArchiCADApiServer.cpp:543-576 | Processing one more request updates exactly that request |
| NativeServer.PopKeepsInvariant | archicad/Src/ArchiCADApiServer.cpp:543-548 | Popping the queue head keeps the queue invariant |
| NativeServer.Failures | archicad/Src/ArchiCADApiServer.cpp:59-72 | Draining marks every request as failed |
| NativeServer.PreflightResponse | archicad/Src/ArchiCADApiServer.cpp:253-257 | OPTIONS gets 200 with an empty text body |
| NativeServer.Received | archicad/Src/ArchiCADApiServer.cpp:241-246 | The received request is at most 8191 characters and has no NUL |
| NativeServer.ApiServer.constructor | archicad/Src/ArchiCADApiServer.cpp:32-54 | Starts with no configurations cached and an empty selection queue |
| NativeServer.ApiServer.HandleStatus | archicad/Src/ArchiCADApiServer.cpp:453-470 | Loads and caches the configurations once; ready exactly when the host lists some |
| NativeServer.ApiServer.HandleGetIfcConfigurations | archicad/Src/ArchiCADApiServer.cpp:580-606 | Answers with the host's list and caches it |
| NativeServer.ApiServer.Enqueue | archicad/Src/ArchiCADApiServer.cpp:502-517 | A fresh id, appended to the queue, pending and awaited |
| NativeServer.ApiServer.ProcessSelectionQueue | archicad/Src/ArchiCADApiServer.cpp:537-578 | Empties the queue, and each request gets its outcome (`ProcessAll`) |
| NativeServer.ApiServer.QueueSelectionRequestAsWritten | archicad/Src/ArchiCADApiServer.cpp:493-535 | As written: after a timeout the queue keeps a request whose storage is gone, so the invariant is broken |
| NativeServer.ApiServer.QueueSelectionRequest | archicad/Src/ArchiCADApiServer.cpp:493-535 | Corrected: the invariant holds on every path; without a message window, or on a timeout, the result is false |
| NativeServer.ApiServer.Drain | archicad/Src/ArchiCADApiServer.cpp:56-78 | Destruction fails every queued request and empties the queue |
| NativeServer.ApiServer.HandleSelectByGuid | archicad/Src/ArchiCADApiServer.cpp:472-487 | Always a JSON success flag: true only when selected in time |
| NativeServer.ApiServer.HandleRequest | archicad/Src/ArchiCADApiServer.cpp:400-451 | Each route gets exactly its handler's reply (`Answers`): status and configurations update the cache as their handlers do, selection replies with the last queued outcome when the window ran in time and false otherwise, and the other routes leave the cache and the queue unchanged |
| NativeServer.ApiServer.Respond | archicad/Src/ArchiCADApiServer.cpp:250-262 | OPTIONS gets the preflight and leaves the state as it was; any other request gets the dispatcher's reply and state for the parsed request (`Answers`) |
| NativeServer.ApiServer.Serve | archicad/Src/ArchiCADApiServer.cpp:238-290 | An empty read sends nothing and changes nothing; OPTIONS gets the preflight and changes no state; any other request gets the dispatcher's reply and state for the parsed request (`Answers`), sent formatted |
| DotNetBridge.PreflightReply | revit/RevitApiServer.cs:1076-1087 | CORS headers, 200 and no body |
| DotNetBridge.SendError | revit/RevitApiServer.cs:1491-1501 | CORS, the status code, JSON `{error: message}` |
| DotNetBridge.SendJson | revit/RevitApiServer.cs:1329-1337 | CORS, 200, JSON body |
| DotNetBridge.StatusReply | revit/RevitApiServer.cs:1236-1246 | "ok" exactly when ready; always connected, version 1.0.0 |
| DotNetBridge.FileName | revit/RevitApiServer.cs:1436 | `Path.GetFileName` is a separator-free suffix |
| DotNetBridge.PathCombine | revit/IfcTesterRevitView.cs:129 | `Path.Combine`: an empty name gives the directory; an empty directory or a rooted name (leading separator or drive letter) gives the name itself; the result always ends with the name |
| DotNetBridge.FileNameOfCombine | revit/RevitApiServer.cs:1436 | The file name of a combined path is the combined non-empty, separator-free name |
| DotNetBridge.FileReply | revit/RevitApiServer.cs:1434-1444 | 200 octet-stream, the file bytes, and Content-Disposition naming the file |
| DotNetBridge.TryParseInt32 | revit/RevitApiServer.cs:1103 | `int.TryParse` only yields 32-bit values |
| DotNetBridge.ParseIntToString | revit/RevitApiServer.cs:1100-1110 | Every 32-bit integer in decimal parses back to itself |
| DotNetBridge.ParseNegative | revit/RevitApiServer.cs:1103 | A minus sign is accepted, down to -2^31 |
| DotNetBridge.NoDigitsNoNumber | revit/RevitApiServer.cs:1103-1110 | Text without digits never parses, so it gets the 400 reply |
| DotNetBridge.StripPrefix | revit/RevitApiServer.cs:1102 | `Replace(prefix, "")` on prefix + rest leaves rest |
| DotNetBridge.SelectByIdRoute | revit/RevitApiServer.cs:1100-1111 | Any 32-bit id written in decimal reaches the id handler |
| DotNetBridge.SelectByGuidRoute | revit/RevitApiServer.cs:1112-1125 | A non-empty GUID percent-encoded by either encoder arrives unchanged |
| DotNetBridge.EmptyGuidRejected | revit/RevitApiServer.cs:1121-1124 | A bare `/select-by-guid/` is rejected |
| DotNetBridge.LoadWithRetry | revit/RevitApiServer.cs:1164-1228 | The retry loop computes `RetryFrom` |
| DotNetBridge.RetryStep | revit/RevitApiServer.cs:1170-1224 | One attempt: success stops, failure waits (except after the last) and doubles the delay |
| DotNetBridge.RetryReady | revit/RevitApiServer.cs:1164-1228 | Ready exactly when some attempt loads a non-empty list |
| DotNetBridge.RetryBudgets | revit/RevitApiServer.cs:1170-1182 | One to three attempts, with budgets of 10 s, then 5 s, then 5 s |
| DotNetBridge.RetryWaits | revit/RevitApiServer.cs:1204-1221 | At most two waits, of 1 s and then 2 s |
| DotNetBridge.RetryWaitsFollowFailures | revit/RevitApiServer.cs:1204-1221 | A wait follows exactly the failed attempts other than the third |
| DotNetBridge.StatusTimeBound | revit/RevitApiServer.cs:1164-1228 | The status probe waits at most 23 s in all |
| DotNetBridge.ConfigurationsReply | revit/RevitApiServer.cs:1339-1398 | Never empty: the handler's list when it completed in time, the three defaults otherwise |
| DotNetBridge.ExportFailureDetail | revit/RevitApiServer.cs:1463-1476 | The failure detail, checked in source order |
| DotNetBridge.ExportReply | revit/RevitApiServer.cs:1400-1489 | 400 without `configuration`; 200 with the file exactly when the export completed in time and the file exists; the 500 variants otherwise |
| RevitHandlers.SelectElementHandler.Execute | revit/RevitApiServer.cs:182-213 | Completes true exactly when a document is open and holds the element |
| RevitHandlers.ParametersMatch | revit/RevitApiServer.cs:264-283 | True exactly when some IfcGUID or GlobalId parameter equals the GUID, ignoring case |
| RevitHandlers.FindByGuid | revit/RevitApiServer.cs:246-290 | Finds the first matching element, or reports that none matches |
| RevitHandlers.EmptyGuidNeverMatches | revit/RevitApiServer.cs:252-276 | The empty GUID matches nothing |
| RevitHandlers.MatchIgnoresCase | revit/RevitApiServer.cs:256-274 | Matching does not depend on the GUID's case |
| RevitHandlers.SelectByGuidHandler.Execute | revit/RevitApiServer.cs:225-310 | Completes true exactly when an element matches; selects the first |
| RevitHandlers.AddNamesFacts | revit/RevitApiServer.cs:369-375 | Adding keeps the list as a prefix and adds only non-empty given names; every non-empty name ends up in the list |
| RevitHandlers.AddNamesDistinct | revit/RevitApiServer.cs:477-490 | With de-duplication, the list stays free of duplicates |
| RevitHandlers.AddNamesEmpty | revit/RevitApiServer.cs:369-380 | Nothing is added exactly when all names are empty, or already present under de-duplication |
| RevitHandlers.AddNamesAppends | revit/RevitApiServer.cs:369-380 | A non-empty name always lengthens the list |
| RevitHandlers.AddNamesNew | revit/RevitApiServer.cs:477-490 | With de-duplication, added names are new |
| RevitHandlers.DiscoveredNamesNonEmpty | revit/RevitApiServer.cs:322-531 | No discovered configuration name is empty |
| RevitHandlers.DiscoveredEmpty | revit/RevitApiServer.cs:322-531 | The list is empty only when the options manager returns only empty names |
| RevitHandlers.ManagerFirst | revit/RevitApiServer.cs:342-379 | When the options manager yields names, the later strategies are not consulted |
| RevitHandlers.SetupsBeforeMap | revit/RevitApiServer.cs:411-460 | The configuration map is used only when the setups yield no name |
| RevitHandlers.MapNamesDistinct | revit/RevitApiServer.cs:460-494 | Names from the configuration map are free of duplicates |
| RevitHandlers.ConfigurationsHandler.AddEach | revit/RevitApiServer.cs:369-380 | The `foreach` computes `AddNames` |
| RevitHandlers.ConfigurationsHandler.Execute | revit/RevitApiServer.cs:322-531 | Always completes true, leaving `Discovered(src)` |
| RevitHandlers.DefaultVersion | revit/RevitApiServer.cs:716-729 | IFC2x3 wins over IFC4, which wins over IFC2X2, all ignoring case |
| RevitHandlers.DefaultVersionIgnoresCase | revit/RevitApiServer.cs:716-729 | The version does not depend on case |
| RevitHandlers.FirstIgnoringCase | revit/RevitApiServer.cs:595-607 | The first non-empty name equal to the target ignoring case, or none |
| RevitHandlers.ResolveOptions | revit/RevitApiServer.cs:576-735 | A name in the configuration map is used as it is, else the map's first case-insensitive match; otherwise the manager's options exactly when it knows the name, else defaults with the version taken from the name |
| RevitHandlers.DefaultsOnlyWhenUnknown | revit/RevitApiServer.cs:576-735 | Default options imply that no source knows the name |
| RevitHandlers.ExportPath | revit/RevitApiServer.cs:549-565 | Execute always leaves a non-empty output path |
| RevitHandlers.ExportFileName | revit/RevitApiServer.cs:564-565 | A successful export is named `Export_<title>_<stamp>.ifc` |
| RevitHandlers.TryExportSignatures | revit/RevitApiServer.cs:749-935 | The export overloads are tried in order only while none has produced the file: on success the last one tried worked and every earlier one failed; on failure all were tried and all failed |
| RevitHandlers.ExportHandler.Execute | revit/RevitApiServer.cs:544-960 | Sets the path first; completes true exactly when one export signature produces the file |
| RevitServer.ProbeAttempts | revit/RevitApiServer.cs:1170-1224 | Each probe becomes one attempt of the retry loop |
| RevitServer.ProbeReady | revit/RevitApiServer.cs:1164-1228 | The probe succeeds exactly when some attempt runs the handler and discovers names |
| RevitServer.ProbeReadyWhenRun | revit/RevitApiServer.cs:1164-1228 | A probe that runs is ready unless the manager returns only empty names |
| RevitServer.RevitApiServer.constructor | revit/RevitApiServer.cs:987-993 | Stopped, with no application and configurations not loaded |
| RevitServer.RevitApiServer.Start | revit/RevitApiServer.cs:995-1035 | A no-op when running; otherwise fresh handlers |
| RevitServer.RevitApiServer.Stop | revit/RevitApiServer.cs:1037-1048 | Not running afterwards |
| RevitServer.RevitApiServer.HandleStatus | revit/RevitApiServer.cs:1150-1247 | Ready once loaded, or when the retry loop succeeds; the flag is kept |
| RevitServer.RevitApiServer.HandleSelectById | revit/RevitApiServer.cs:1249-1287 | 503 without the application; 200 when selected in time; 500 otherwise |
| RevitServer.RevitApiServer.HandleSelectByGuid | revit/RevitApiServer.cs:1289-1327 | 200 exactly when an element matches in time |
| RevitServer.RevitApiServer.HandleGetIfcConfigurations | revit/RevitApiServer.cs:1339-1398 | 503 without the application; otherwise `ConfigurationsReply` |
| RevitServer.RevitApiServer.HandleExportIfc | revit/RevitApiServer.cs:1400-1489 | 200 exactly when the export succeeds in time; the file is sent and deleted |
| RevitServer.RevitApiServer.HandleRequest | revit/RevitApiServer.cs:1071-1148 | CORS on every reply, and each route's reply and state are its handler's (`Answers`): status from the retried probes, the select bodies, the configurations list, the export reply with its file written and deleted after a 200; only status changes the loaded flag and only export changes the files |
| RevitServer.RevitApiServer.Respond | revit/RevitApiServer.cs:1096-1136 | The route table's dispatch with the same per-route replies and state (`Answers`) |
| RevitServer.ExportRoundTrip | revit/RevitApiServer.cs:1400-1489 | A successful export reply names `Export_<title>_<stamp>.ifc` and carries the bytes |
| ArchicadNetServer.SelectElementHandler.Execute | archicad/ArchicadApiServer.cs:23-47 | The placeholder always completes true |
| ArchicadNetServer.SelectByGuidHandler.Execute | archicad/ArchicadApiServer.cs:55-78 | The placeholder always completes true |
| ArchicadNetServer.HandlerConfigurations | archicad/ArchicadApiServer.cs:86-117 | Four names, or the three defaults on an exception |
| ArchicadNetServer.ConfigurationsHandler.Execute | archicad/ArchicadApiServer.cs:86-117 | Fills the list and completes true |
| ArchicadNetServer.ExportOutcome | archicad/ArchicadApiServer.cs:126-179 | Completing true implies an output path |
| ArchicadNetServer.ExportHandler.Execute | archicad/ArchicadApiServer.cs:126-179 | Writes the placeholder at a fresh path; the files change only on success |
| ArchicadNetServer.ExportOutcomeSucceeds | archicad/ArchicadApiServer.cs:126-179 | Succeeds exactly when the directory and the file can be written |
| ArchicadNetServer.StampFileName | archicad/ArchicadApiServer.cs:134-135 | The file is named `Export_<stamp>.ifc` |
| ArchicadNetServer.ExportExchangeOutcome | archicad/ArchicadApiServer.cs:570-654 | The exchange returns 200 with the placeholder exactly when the write succeeds |
| ArchicadNetServer.ProbeFirstAttempt | archicad/ArchicadApiServer.cs:362-425 | The first probe always succeeds after one 10 s budget |
| ArchicadNetServer.ArchicadApiServer.constructor | archicad/ArchicadApiServer.cs:196-202 | Stopped, with no handlers |
| ArchicadNetServer.ArchicadApiServer.Start | archicad/ArchicadApiServer.cs:204-236 | A no-op when running; otherwise fresh handlers |
| ArchicadNetServer.ArchicadApiServer.Stop | archicad/ArchicadApiServer.cs:238-249 | Not running afterwards |
| ArchicadNetServer.ArchicadApiServer.HandleStatus | archicad/ArchicadApiServer.cs:350-428 | Ready exactly when loaded before or when the handlers exist |
| ArchicadNetServer.ArchicadApiServer.HandleSelectById | archicad/ArchicadApiServer.cs:430-464 | 503 without handlers; otherwise success |
| ArchicadNetServer.ArchicadApiServer.HandleSelectByGuid | archicad/ArchicadApiServer.cs:466-500 | 503 without handlers; otherwise success |
| ArchicadNetServer.ArchicadApiServer.HandleGetIfcConfigurations | archicad/ArchicadApiServer.cs:512-568 | The handler's list |
| ArchicadNetServer.ArchicadApiServer.HandleExportIfc | archicad/ArchicadApiServer.cs:570-654 | Missing configuration gives 400; otherwise the handler's outcome |
| ArchicadNetServer.ArchicadApiServer.HandleRequest | archicad/ArchicadApiServer.cs:272-348 | CORS on every reply, and each route's reply and state are its handler's (`Answers`): status from the handlers, the select bodies, the configurations list, the export outcome with its file; only status changes the loaded flag and only export changes the files |
| ArchicadNetServer.ArchicadApiServer.Respond | archicad/ArchicadApiServer.cs:297-338 | The route table's dispatch with the same per-route replies and state (`Answers`) |
| BrowserPalette.ExtractString | archicad/Src/BrowserPalette.cpp:17-25 | A JS string's text, otherwise empty |
| BrowserPalette.ElementsToJs | archicad/Src/BrowserPalette.cpp:33-55 | One four-item array per element, in order |
| BrowserPalette.ElementsRoundTrip | archicad/Src/BrowserPalette.cpp:33-55 | The page reads every element back field by field |
| BrowserPalette.CollectedExactly | archicad/Src/BrowserPalette.cpp:189-215 | Collected are exactly the elements whose header could be read |
| BrowserPalette.CollectSelectedElements | archicad/Src/BrowserPalette.cpp:189-215 | The loop computes `Collected` |
| BrowserPalette.SelectElementByGuid | archicad/Src/BrowserPalette.cpp:217-241 | Empty text is refused; a plain GUID is selected first, then the IFC conversion |
| BrowserPalette.PlainGuidFirst | archicad/Src/BrowserPalette.cpp:217-232 | A plain GUID never consults the IFC conversion |
| BrowserPalette.BridgeLacksUpperCaseGuid | archicad/Src/BrowserPalette.cpp:119-145 | The bridge registers `SelectElementByGuid`, not `SelectElementByGUID` |
| BrowserPalette.BridgeReply | archicad/Src/BrowserPalette.cpp:119-145 | The four bridge functions' answers |
| BrowserPalette.NonStringSelectsNothing | archicad/Src/BrowserPalette.cpp:127-130 | A non-string argument selects nothing |
| BrowserPalette.WithCheckedKeepsOtherBits | archicad/Src/BrowserPalette.cpp:157-172 | Only the checked bit of the menu flags changes |
| BrowserPalette.WithCheckedSetsBit | archicad/Src/BrowserPalette.cpp:157-172 | The checked bit is set exactly when asked |
| BrowserPalette.WithCheckedIdempotent | archicad/Src/BrowserPalette.cpp:157-172 | Setting the state twice is setting it once |
| BrowserPalette.Palette.constructor | archicad/Src/BrowserPalette.cpp:57-65 | Loads the configured URL and notifies the page |
| BrowserPalette.PaletteAddOn.CreateInstance | archicad/Src/BrowserPalette.cpp:77-83 | Creates the palette only when there is none |
| BrowserPalette.PaletteAddOn.DestroyInstance | archicad/Src/BrowserPalette.cpp:91-97 | No instance afterwards |
| BrowserPalette.PaletteAddOn.SetMenuItemCheckedState | archicad/Src/BrowserPalette.cpp:157-172 | The flags become `WithChecked` |
| BrowserPalette.PaletteAddOn.ShowPalette | archicad/Src/BrowserPalette.cpp:99-104 | Visible, checked, page notified |
| BrowserPalette.PaletteAddOn.HidePalette | archicad/Src/BrowserPalette.cpp:106-110 | Hidden and unchecked |
| BrowserPalette.PaletteAddOn.PanelCloseRequested | archicad/Src/BrowserPalette.cpp:181-187 | Hides, and accepts the close |
| BrowserPalette.PaletteAddOn.SelectionChangeHandler | archicad/Src/BrowserPalette.cpp:252-258 | Notifies the page when a palette exists; returns NoError |
| BrowserPalette.PaletteAddOn.ToggleBrowserPalette | archicad/Src/BrowserPalette.cpp:299-310 | Hides a shown palette, its scripts unchanged; otherwise creates if needed and shows, so an existing palette gets one more ready notification and a new one has two (one from loading, one from showing) |
| BrowserPalette.PaletteControlCallBack | archicad/Src/BrowserPalette.cpp:260-286 | Open shows (one more ready notification for an existing palette, two for a new one); close hides; the visibility query writes the flag; only open runs a script |
| ArchicadWebAppConfig.EnsureUrlHasHostParam | archicad/Src/WebAppConfig.cpp:20-44 | Adds `host=archicad` with the right separator, unless already present or the URL is empty |
| ArchicadWebAppConfig.HostParamAdded | archicad/Src/WebAppConfig.cpp:20-44 | The input stays a prefix, and a non-empty URL ends up carrying the parameter |
| ArchicadWebAppConfig.EnsureIdempotent | archicad/Src/WebAppConfig.cpp:20-44 | Adding the parameter twice is adding it once |
| ArchicadWebAppConfig.NormalizeFileUrl | archicad/Src/WebAppConfig.cpp:9-18 | `file://`, a `/` unless the path starts with a separator, then the path character by character with each backslash turned into `/` |
| ArchicadWebAppConfig.Create | archicad/Src/WebAppConfig.cpp:46-90 | The environment URL, else the local index, else the dev or production URL, each with the host parameter |
| ArchicadWebAppConfig.CreateCarriesHostParam | archicad/Src/WebAppConfig.cpp:46-90 | Every resolved URL carries the host parameter |
| RevitWebAppConfig.GetWebAppFolder | revit/WebAppConfig.cs:18-55 | `<plug-in>/web` if it exists, else the deployment folder, else none |
| RevitWebAppConfig.HasLocalWebAppIffFolder | revit/WebAppConfig.cs:106-113 | Local files exist exactly when a folder is found |
| RevitWebAppConfig.GetWebAppUrl | revit/WebAppConfig.cs:57-104 | Environment variable, else the trimmed settings file, else the dev or virtual-host URL |
| RevitWebAppConfig.WebAppUrlFallbacks | revit/WebAppConfig.cs:57-104 | Never empty; the dev URL only in debug without local files |
| RevitWebAppConfig.GetApiUrl | revit/WebAppConfig.cs:115-126 | `REVIT_API_URL` if set, otherwise localhost:48881 |
| WebViews.WithCors | revit/IfcTesterRevitView.cs:117-121 | The three CORS headers, then one more |
| WebViews.RelativePath | revit/IfcTesterRevitView.cs:95-96 | Leading slashes dropped and `/` replaced by the separator |
| WebViews.RelativePathOfRelative | revit/IfcTesterRevitView.cs:95 | Trimming is idempotent |
| WebViews.NeedsCorsIgnoresCase | revit/IfcTesterRevitView.cs:102-104 | The CORS decision ignores case |
| WebViews.GetExtension | revit/IfcTesterRevitView.cs:206 | `Path.GetExtension`: a dot plus a dot-free, separator-free tail |
| WebViews.ExtensionOfName | revit/IfcTesterRevitView.cs:206 | A name plus a proper extension has that extension |
| WebViews.GetContentType | revit/IfcTesterRevitView.cs:204-219 | The table entry for the lower-cased extension, else octet-stream |
| WebViews.KnownExtension | revit/IfcTesterRevitView.cs:204-219 | A known extension in any case gets its type |
| WebViews.Failure | archicad/IfcTesterArchicadView.cs:149-152 | Revit answers 500; Archicad lets the request through |
| WebViews.HandleResourceRequest | revit/IfcTesterRevitView.cs:82-200 | Pass-through unless intercepted and CORS-relevant; OPTIONS gets an empty 200; an existing file gets 200 with its content type and bytes; a missing one 404 `File not found: <path>`; an unopenable one, or a URI that does not parse, the view's failure reply |
| WebViews.RootedPathServedAsIs | revit/IfcTesterRevitView.cs:129 | A request path that is rooted after its slashes are dropped (`/C:/...`) is served from that path, not from under the web folder |
| WebViews.AnswersCarryCors | revit/IfcTesterRevitView.cs:113-197 | Every answer carries CORS and is 200, 404 or 500 |
| WebViews.NavigationUrl | revit/IfcTesterRevitView.cs:272-290 | The page URL plus `?` or `&` plus `api=<escaped>` |
| WebViews.EscapedHasNoDelimiters | revit/IfcTesterRevitView.cs:281 | An escaped value holds no `&` or `#` |
| WebViews.NavigationApiParam | revit/IfcTesterRevitView.cs:272-290 | The `api` value decodes back to the API URL, whatever its characters |
| WebViews.RevitFolder | revit/IfcTesterRevitView.cs:63-64 | A folder is mapped exactly when local files exist |
| WebViews.RevitNavigation | revit/IfcTesterRevitView.cs:272-290 | The navigation starts with the web-app URL |
| WebViews.RevitWithoutLocalFilesPassesThrough | revit/IfcTesterRevitView.cs:63-82 | Without local files the view answers nothing |
| WebViews.InjectApiUrl | revit/IfcTesterRevitView.cs:228-270 | Sets `api` only when absent, always sets the global, updates the client |
| WebViews.InjectIdempotent | revit/IfcTesterRevitView.cs:228-270 | Running the script twice is running it once |
| WebClient.InitialRecord | web/src/modules/api/revit.svelte.js:18-43 | The `api` parameter wins; otherwise localhost gets the local URL |
| WebClient.InitialEnabledIffUrl | web/src/modules/api/revit.svelte.js:18-43 | Enabled exactly when an API URL is set |
| WebClient.ValidTrimmedNonEmpty | web/src/modules/api/revit.svelte.js:165-172 | A valid GlobalId trims to non-blank text |
| WebClient.SelectPath | web/src/modules/api/revit.svelte.js:171-173 | The path starts with `/select-by-guid/` |
| WebClient.SelectPathRoutes | web/src/modules/api/revit.svelte.js:171-173 | The .NET servers route it to the trimmed GlobalId |
| WebClient.FileNameFrom | web/src/modules/api/revit.svelte.js:324 | The match is non-empty and quote-free |
| WebClient.FileNameRoundTrip | web/src/modules/api/revit.svelte.js:320-327 | The server's Content-Disposition gives back the file name |
| WebClient.SanitiseTime | web/src/modules/api/revit.svelte.js:322 | Same length; no `:` or `.` |
| WebClient.ExportFileName | web/src/modules/api/revit.svelte.js:320-327 | The header's name when it matches, else the timestamped fallback |
| WebClient.ConfigurationsResult | web/src/modules/api/revit.svelte.js:249-282 | The list from an ok response, else `[]` |
| WebClient.ExportResult | web/src/modules/api/revit.svelte.js:289-340 | A file exactly on an ok response with a configuration |
| WebClient.ExportKeepsServerName | web/src/modules/api/revit.svelte.js:320-327 | A .NET export keeps its server-side name |
| WebClient.AuditResult | web/src/modules/api/revit.svelte.js:123-150 | An id only when connected with a document, models and a report |
| RevitClient.ConnectToast | web/src/modules/api/revit.svelte.js:91-106 | Mixed content or "blocked" gives the mixed-content toast, else "timeout" the timeout toast, else `Failed to connect to Revit: <message>` |
| RevitClient.OutcomeToast | web/src/modules/api/revit.svelte.js:48-107 | Success exactly on an ok `/status` |
| RevitClient.SelectRequest.Fire | web/src/modules/api/revit.svelte.js:185-231 | Only the first callback resolves |
| RevitClient.SelectRequest.Run | web/src/modules/api/revit.svelte.js:178-236 | The first event decides |
| RevitClient.Client.constructor | web/src/modules/api/revit.svelte.js:18-43 | The initial record |
| RevitClient.Client.Connect | web/src/modules/api/revit.svelte.js:48-107 | Connected exactly on an ok status; not loading afterwards |
| RevitClient.Client.Disconnect | web/src/modules/api/revit.svelte.js:112-115 | Disconnected, with a toast |
| RevitClient.Client.SelectElement | web/src/modules/api/revit.svelte.js:158-243 | Refuses without a connection or id; otherwise the first image event decides |
| RevitClient.Client.GetIfcConfigurations | web/src/modules/api/revit.svelte.js:249-282 | `ConfigurationsResult` |
| RevitClient.Client.ExportIfc | web/src/modules/api/revit.svelte.js:289-340 | `ExportResult` with `Export_` |
| RevitClient.Client.RunAudit | web/src/modules/api/revit.svelte.js:123-150 | `AuditResult`; auditing cleared |
| ArchicadClient.Reworded | web/src/modules/api/archicad.svelte.js:86-94 | Fetch failures become the network message; otherwise CORS or cross-origin errors become the CORS message; any other message passes through |
| ArchicadClient.ConnectToast | web/src/modules/api/archicad.svelte.js:96-111 | "timeout" gives the timeout toast, else "Network error" the network toast, else `Failed to connect to ArchiCAD: <message>` |
| ArchicadClient.OutcomeToast | web/src/modules/api/archicad.svelte.js:42-112 | Success exactly on an ok `/status` |
| ArchicadClient.AcapiFor | web/src/modules/api/archicad.svelte.js:165-169 | The bridge is used exactly when it has `SelectElementByGUID` |
| ArchicadClient.PaletteBridgeLeavesHttp | web/src/modules/api/archicad.svelte.js:165-190 | With the palette's bridge, the client always falls back to HTTP |
| ArchicadClient.SelectToast | web/src/modules/api/archicad.svelte.js:192-223 | Success exactly on an ok response reporting success |
| ArchicadClient.Client.constructor | web/src/modules/api/archicad.svelte.js:17-37 | The initial record |
| ArchicadClient.Client.Connect | web/src/modules/api/archicad.svelte.js:42-112 | Connected exactly on an ok status |
| ArchicadClient.Client.Disconnect | web/src/modules/api/archicad.svelte.js:117-120 | Disconnected, with a toast |
| ArchicadClient.Client.SelectElement | web/src/modules/api/archicad.svelte.js:157-224 | Validation, then `ACAPI`, then HTTP when connected |
| ArchicadClient.Client.GetIfcConfigurations | web/src/modules/api/archicad.svelte.js:230-263 | `ConfigurationsResult` |
| ArchicadClient.Client.ExportIfc | web/src/modules/api/archicad.svelte.js:270-318 | `ExportResult` with `ArchiCAD_Export_` |
| ArchicadClient.Client.RunAudit | web/src/modules/api/archicad.svelte.js:126-150 | `AuditResult`; auditing cleared |
| Worker.ResolveUrl | web/src/modules/wasm/worker/worker.js:62-69 | Absolute URLs are kept; others get the origin and one slash |
| Worker.ResolveUrlIdempotent | web/src/modules/wasm/worker/worker.js:62-69 | Resolving twice is resolving once |
| Worker.Attempts | web/src/modules/wasm/worker/worker.js:85-164 | The local target, then the fallback only if needed |
| Worker.RunInitFailsUnlessAllSucceed | web/src/modules/wasm/worker/worker.js:55-173 | Set-up succeeds exactly when every stage does |
| Worker.LocalInstallsNeedNoFallback | web/src/modules/wasm/worker/worker.js:85-164 | Local targets only, when all install |
| Worker.LookUp | web/src/modules/wasm/worker/worker.js:181-194 | Clean-up, then the API table, then the IDS table, else an error |
| Worker.ApiTableShadowsIds | web/src/modules/wasm/worker/worker.js:187-190 | The API table wins |
| Worker.CallResult | web/src/modules/wasm/worker/worker.js:181-194 | The looked-up function's answer or its exception |
| Worker.WasmWorker.Install | web/src/modules/wasm/worker/worker.js:98-114 | Succeeds exactly when some attempt installs |
| Worker.WasmWorker.InitEnvironment | web/src/modules/wasm/worker/worker.js:55-173 | Nothing when ready; otherwise `RunInit` |
| Worker.WasmWorker.InstallAll | web/src/modules/wasm/worker/worker.js:85-164 | `InstallRun` |
| Worker.WasmWorker.InstallFromOdfpy | web/src/modules/wasm/worker/worker.js:116-164 | `OdfpyRun` |
| Worker.WasmWorker.HandleApiCall | web/src/modules/wasm/worker/worker.js:181-194 | Clean-up resets; otherwise `CallResult` |
| Worker.WasmWorker.HandleMessage | web/src/modules/wasm/worker/worker.js:13-53 | Exactly one reply, with the message's id |
| IdsErrors.Find | web/src/modules/utils/toast.svelte.js:20 | A found position matches the pattern |
| IdsErrors.FindLeftmost | web/src/modules/utils/toast.svelte.js:20 | No match before the found one |
| IdsErrors.FindIsFirst | web/src/modules/utils/toast.svelte.js:20 | The first match is found |
| IdsErrors.ReasonIsTrimmedLine | web/src/modules/utils/toast.svelte.js:19-23 | The reason is one trimmed line |
| IdsErrors.ReasonOfFirstLine | web/src/modules/utils/toast.svelte.js:19-23 | The reason is the trimmed rest of the first "Reason:" line |
| IdsErrors.PositionIsDigitRun | web/src/modules/utils/toast.svelte.js:48-52 | The position is the digit run after "at position" |
| IdsErrors.Pieces | web/src/modules/utils/toast.svelte.js:55-73 | Labelled pieces in order; empty iff all captures are |
| IdsErrors.ParseIdsValidationError | web/src/modules/utils/toast.svelte.js:8-80 | None exactly when the error does not look like IDS |
| IdsErrors.DetailsLayout | web/src/modules/utils/toast.svelte.js:55-77 | The default text exactly when nothing was found; otherwise starts with the reason and ends with the position |
| IdsErrors.DetailsContainPieces | web/src/modules/utils/toast.svelte.js:77 | Every piece appears |
| IdsErrors.IdsValidationError | web/src/modules/utils/toast.svelte.js:86-107 | A plain error exactly for non-IDS errors |
| Text.IndexOfFrom | revit/RevitApiServer.cs:1100 | The first occurrence from a position |
| Text.ToLower | revit/RevitApiServer.cs:256 | Pointwise case folding |
| Text.TrimStartSet | revit/IfcTesterRevitView.cs:95 | Drops exactly the leading characters in the set |
| Text.TrimEndSet | revit/WebAppConfig.cs:57-104 | Drops exactly the trailing characters in the set |
| Text.NatToStringRoundTrip | revit/RevitApiServer.cs:1103 | Decimal writing and reading are inverse |
| UriText.Utf8Append | web/src/modules/api/revit.svelte.js:172 | UTF-8 is compositional |
| UriText.EncodedAlphabet | web/src/modules/api/revit.svelte.js:172 | Encoded text holds only unreserved characters, `%` and hex digits |
| UriText.EncodeUnreservedIdentity | web/src/modules/api/revit.svelte.js:172 | Unreserved text is unchanged |
| UriText.Utf8RoundTrip | revit/RevitApiServer.cs:1117 | Decoding a character's UTF-8 bytes gives the character back, and the lead byte announces their number |
| UriText.IllFormedStaysEscaped | revit/RevitApiServer.cs:1117 | A lone escaped lead byte stays escaped; an escaped two-byte sequence becomes one character |
| UriText.UnescapeEncodeRoundTrip | revit/RevitApiServer.cs:1117 | `UnescapeDataString` undoes either encoder on any text |

## Left out

- Sockets, `HttpListener`, threads, mutexes and the Win32 message window are not modelled. What a request receives and what a handler waits for become inputs.
- Elapsed time is not modelled. A wait that runs out is an input, and the retry loop records its budgets and waits as numbers.
- The native `Start`, `Stop`, `IsRunning` and the `ServerLoop` thread body are not modelled, beyond `Serve` for one connection.
- Letter case folding is ASCII-only. .NET and JavaScript fold Unicode.
- The native server's text bodies are taken to be sent as UTF-8. `ToCStr()` converts in the host's default character code, which is not modelled.
- `Path.GetFullPath` is not modelled (archicad/IfcTesterArchicadView.cs:120). .NET Framework's exception for a path with invalid characters is not modelled either.
- Worker.WasmWorker.HandleMessage: each message is handled to completion before the next. The source's listener is asynchronous and sets `ready` only at the end of environment set-up (web/src/modules/wasm/worker/worker.js:13-53, 172). So a second `INIT` arriving mid-set-up runs the set-up again, and an `internal.cleanup` arriving then drops the runtime; neither interleaving is modelled.
- RevitServer.RevitApiServer.HandleRequest, ArchicadNetServer.ArchicadApiServer.HandleRequest: the catch-all that answers 500 `Internal Server Error: <message>` to an exception escaping a handler is not modelled (revit/RevitApiServer.cs:1139-1143, archicad/ArchicadApiServer.cs:339-343). Handlers that fail do so through their modelled error replies.
- DotNetBridge.FileNameOfCombine: holds for a non-empty name only, because `Path.Combine` of a directory and an empty name is the directory. Every caller combines a non-empty export file name.
- `new Uri(...)` parsing is not modelled; the parsed absolute path, or the exception message, is an input.
- Reflection-based discovery in the Revit handlers is not modelled. Each strategy's result is an input.
- RevitHandlers.ResolveOptions: Revit's `IFCExportOptions` duplication is not modelled. When the duplicated map configuration is null or lacks `UpdateOptions`, the source falls back to the options manager (revit/RevitApiServer.cs:650-668); the model always reports the map's configuration.
- The Revit handler's per-signature export attempts are reduced to a list of booleans.
- The injected JavaScript text, WebView2 set-up and the `PanelResized` and `RegisterPaletteControlCallBack` palette calls are not modelled.
- `console` logging is not modelled.
- Toasts are recorded as values, without their styling and durations, only by the clients' `Connect` and `Disconnect` and by `ArchicadClient.Client.SelectElement`.
- RevitClient.Client.GetIfcConfigurations, RevitClient.Client.ExportIfc, RevitClient.Client.RunAudit: their toasts (not connected, invalid name, failures, export and audit success) are not recorded.
- ArchicadClient.Client.GetIfcConfigurations, ArchicadClient.Client.ExportIfc, ArchicadClient.Client.RunAudit: their toasts (not connected, invalid name, failures, export and audit success) are not recorded.
- The worker's `HEAD` existence check is not modelled, and `API.init`/`IDS.init` are inputs.
- archicad/WebAppConfig.cs is not part of this model. The Archicad view's web-app folder and URLs are plain inputs of the `WebViews` members; only `WebViews.RevitFolder` and `WebViews.RevitNavigation` call the `RevitWebAppConfig` functions.
- IdsErrors.ParseIdsValidationError: the element, expected and property captures come from regular expressions that are not modelled here, so they are inputs. The reason and position captures are modelled.
- RevitClient.Client.SelectElement: the toasts shown for selection (not connected, invalid GlobalId, the outcome) are not recorded.
- ArchicadClient.Client.SelectElement: the "Invalid GlobalId" toast is not recorded. The toasts of the other paths are.
- RevitHandlers.SelectByGuidHandler.Execute: an exception inside the element loop is not modelled.
- Error objects are represented by their message text.

## Findings

| source | as written | input that shows it | evidently intended | confidence | as-written member | corrected member |
|---|---|---|---|---|---|---|
| archicad/Src/ArchiCADApiServer.cpp:493-535 | The selection request lives on the handler's stack and its address is queued. After the 10 s wait times out, the handler returns and the address stays queued. | A select request whose message-window processing has not run within 10 s | Remove the request from the queue on timeout, or let the queue own it | not executed | NativeServer.ApiServer.QueueSelectionRequestAsWritten | NativeServer.ApiServer.QueueSelectionRequest |
| archicad/Src/ArchiCADApiServer.cpp:378-382 | Content-Length for a text body is `body.GetLength()`, the count of the string's characters, while the body goes out through `ToCStr().Get()`; assuming that conversion is UTF-8, non-ASCII text has more bytes than characters | `CreateJsonResponse("é")`: Content-Length 1, two bytes sent | Content-Length is the number of UTF-8 bytes sent | not executed | NativeHttp.ContentLengthAsWrittenUndercounts | NativeHttp.FormatResponse |

Where the documented behaviour and the code differ, the model follows the code:
- `int.TryParse` accepts surrounding white space and a sign, so `/select-by-id/-5` routes to the id handler.
- The Archicad client looks for `ACAPI.SelectElementByGUID`. The palette registers `SelectElementByGuid`, so selection always goes over HTTP (`ArchicadClient.PaletteBridgeLeavesHttp`).
- archicad/Src/WebAppConfig.cpp:12 contains a malformed character literal. It is modelled as the evidently intended backslash.
- The native header declares fewer members than the `.cpp` uses. The model follows the `.cpp`.
