/** Where the native Archicad palette loads the web application from, and the
    `host=archicad` query parameter every such URL carries. */
module ArchicadWebAppConfig {
  import opened Text

  const HostParam: string := "host=archicad"

  /** Adds `host=archicad` to a URL that lacks it: after `&` (or directly
      after a trailing `?` or `&`) when the URL has a query, else after `/?`
      (or directly after a trailing `/`).  Empty URLs are left alone. */
  function EnsureUrlHasHostParam(url: string): (r: string)
    ensures url == "" ==> r == ""
    ensures Contains(url, HostParam) ==> r == url
    ensures url != "" && !Contains(url, HostParam) && '?' in url ==>
      r == url + (if EndsWith(url, "&") || EndsWith(url, "?") then "" else "&") + HostParam
    ensures url != "" && !Contains(url, HostParam) && '?' !in url ==>
      r == url + (if EndsWith(url, "/") then "" else "/") + "?" + HostParam
  {
    if url == "" then url
    else if Contains(url, HostParam) then url
    else if '?' in url then
      (if !EndsWith(url, "&") && !EndsWith(url, "?") then url + "&" else url) + HostParam
    else
      (if !EndsWith(url, "/") then url + "/" else url) + "?" + HostParam
  }

  /** The input is kept as a prefix, and any non-empty URL ends up carrying the parameter. */
  lemma HostParamAdded(url: string)
    ensures StartsWith(EnsureUrlHasHostParam(url), url)
    ensures url != "" ==> Contains(EnsureUrlHasHostParam(url), HostParam)
  {
    var r := EnsureUrlHasHostParam(url);
    if url != "" && !Contains(url, HostParam) {
      var head := r[..|r| - |HostParam|];
      assert r == head + HostParam;
      assert r[..|url|] == url;
      ContainsWitness(HostParam, HostParam, 0);
      ContainsSuffix(head, HostParam, HostParam);
    }
  }

  /** Adding the parameter twice is adding it once. */
  lemma EnsureIdempotent(url: string)
    ensures EnsureUrlHasHostParam(EnsureUrlHasHostParam(url)) == EnsureUrlHasHostParam(url)
  {
    HostParamAdded(url);
  }

  /** A `file://` URL for an absolute path: backslashes become `/` and a
      leading `/` is added when missing. */
  function NormalizeFileUrl(absolutePath: string): (r: string)
    ensures StartsWith(r, "file:///")
    ensures forall i :: 0 <= i < |r| ==> r[i] != '\\'
    ensures |r| == 7 + |absolutePath| + (if StartsWith(absolutePath, "/") || StartsWith(absolutePath, "\\") then 0 else 1)
    ensures var k := if StartsWith(absolutePath, "/") || StartsWith(absolutePath, "\\") then 7 else 8;
      forall i :: 0 <= i < |absolutePath| ==> r[k + i] == (if absolutePath[i] == '\\' then '/' else absolutePath[i])
  {
    var path := ReplaceChar(absolutePath, '\\', '/');
    assert StartsWith(path, "/") <==> StartsWith(absolutePath, "/") || StartsWith(absolutePath, "\\");
    var rooted := if StartsWith(path, "/") then path else "/" + path;
    assert rooted[0] == '/';
    "file://" + rooted
  }

  /** The resolved configuration. */
  datatype WebAppConfig = WebAppConfig(resolvedUrl: string, installRoot: string, usesDevServer: bool)

  /** What `Create` reads: the `IFCTESTER_ARCHICAD_URL` variable (none when
      unset), the path of `WebApp/index.html` beside the add-on and of the
      `WebApp` folder itself (none when the add-on location or the path
      conversion fails), and whether this is a debug build. */
  datatype Environment = Environment(envUrl: Option<string>, indexPath: Option<string>, rootPath: Option<string>, debug: bool)

  /** A non-empty environment URL, else the local `index.html`, else the
      build's default server; each resolved URL gets the host parameter. */
  function Create(env: Environment): (config: WebAppConfig)
    ensures env.envUrl.Some? && env.envUrl.value != "" ==>
      config == WebAppConfig(EnsureUrlHasHostParam(env.envUrl.value), "", true)
    ensures !(env.envUrl.Some? && env.envUrl.value != "") && env.indexPath.Some? ==>
      && config.resolvedUrl == EnsureUrlHasHostParam(NormalizeFileUrl(env.indexPath.value))
      && !config.usesDevServer
      && config.installRoot == (if env.rootPath.Some? then env.rootPath.value else "")
    ensures !(env.envUrl.Some? && env.envUrl.value != "") && env.indexPath.None? ==>
      config == WebAppConfig(
        EnsureUrlHasHostParam(if env.debug then "http://localhost:5173/" else "https://ifctester.app/"), "", true)
  {
    if env.envUrl.Some? && env.envUrl.value != "" then
      WebAppConfig(EnsureUrlHasHostParam(env.envUrl.value), "", true)
    else if env.indexPath.Some? then
      WebAppConfig(EnsureUrlHasHostParam(NormalizeFileUrl(env.indexPath.value)),
                   if env.rootPath.Some? then env.rootPath.value else "", false)
    else if env.debug then WebAppConfig(EnsureUrlHasHostParam("http://localhost:5173/"), "", true)
    else WebAppConfig(EnsureUrlHasHostParam("https://ifctester.app/"), "", true)
  }

  /** Every resolved URL carries the host parameter, and the dev-server flag
      is off exactly when the local files are used. */
  lemma CreateCarriesHostParam(env: Environment)
    ensures Contains(Create(env).resolvedUrl, HostParam)
    ensures !Create(env).usesDevServer <==> !(env.envUrl.Some? && env.envUrl.value != "") && env.indexPath.Some?
  {
    if env.envUrl.Some? && env.envUrl.value != "" {
      HostParamAdded(env.envUrl.value);
    } else if env.indexPath.Some? {
      HostParamAdded(NormalizeFileUrl(env.indexPath.value));
    } else if env.debug {
      HostParamAdded("http://localhost:5173/");
    } else {
      HostParamAdded("https://ifctester.app/");
    }
  }
}
