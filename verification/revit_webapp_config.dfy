/** Where the Revit view loads the web application from and which API server
    it tells the page to use.  Environment variables, the settings file and
    directory existence are inputs. */
module RevitWebAppConfig {
  import opened Text
  import opened DotNetBridge

  const DefaultDevUrl: string := "http://localhost:5173/"
  const VirtualHostUrl: string := "http://app.localhost/index.html"
  const DefaultApiUrl: string := "http://localhost:48881"

  /** The characters `String.Trim()` removes (`char.IsWhiteSpace`). */
  const WhiteSpace: set<char> := {
    '\t', '\n', '\U{000B}', '\U{000C}', '\r', ' ', '\U{0085}', '\U{00A0}', '\U{1680}',
    '\U{2000}', '\U{2001}', '\U{2002}', '\U{2003}', '\U{2004}', '\U{2005}', '\U{2006}',
    '\U{2007}', '\U{2008}', '\U{2009}', '\U{200A}', '\U{2028}', '\U{2029}', '\U{202F}',
    '\U{205F}', '\U{3000}'
  }

  /** What the configuration reads: the plug-in's directory (empty when
      unknown), the roaming application-data folder, the directories that
      exist, the two environment variables (none when unset), the settings
      file (none when missing or unreadable), and whether this is a debug build. */
  datatype Machine = Machine(
    pluginDir: string,
    appData: string,
    directories: set<string>,
    webAppUrlVariable: Option<string>,
    apiUrlVariable: Option<string>,
    settingsFile: Option<string>,
    debug: bool)

  function DeployDirectory(appData: string): string
  {
    PathCombine(PathCombine(PathCombine(PathCombine(PathCombine(PathCombine(
      appData, "Autodesk"), "Revit"), "Addins"), "2025"), "WebAecRevit"), "web")
  }

  /** `<plug-in dir>/web` if it exists, else the deployment folder under
      application data if that exists, else none. */
  function GetWebAppFolder(m: Machine): (folder: Option<string>)
    ensures folder.Some? ==> folder.value in m.directories
    ensures folder.None? ==> DeployDirectory(m.appData) !in m.directories
    ensures m.pluginDir != "" && PathCombine(m.pluginDir, "web") in m.directories ==>
      folder == Some(PathCombine(m.pluginDir, "web"))
  {
    if m.pluginDir != "" && PathCombine(m.pluginDir, "web") in m.directories then Some(PathCombine(m.pluginDir, "web"))
    else if DeployDirectory(m.appData) in m.directories then Some(DeployDirectory(m.appData))
    else None
  }

  predicate HasLocalWebApp(m: Machine)
  {
    var folder := GetWebAppFolder(m);
    folder.Some? && folder.value in m.directories
  }

  /** Local files are available exactly when one of the two candidate
      folders exists. */
  lemma HasLocalWebAppIffFolder(m: Machine)
    ensures HasLocalWebApp(m) <==> GetWebAppFolder(m).Some?
    ensures HasLocalWebApp(m) <==>
      (m.pluginDir != "" && PathCombine(m.pluginDir, "web") in m.directories) || DeployDirectory(m.appData) in m.directories
  {
  }

  /** `WEB_APP_URL` is set and not empty. */
  predicate UrlVariableSet(m: Machine)
  {
    m.webAppUrlVariable.Some? && m.webAppUrlVariable.value != ""
  }

  /** The settings file was read and holds something besides white space. */
  predicate SettingsFileSet(m: Machine)
  {
    m.settingsFile.Some? && TrimSet(m.settingsFile.value, WhiteSpace) != ""
  }

  /** A non-empty `WEB_APP_URL` verbatim; else the trimmed settings file if
      non-empty; else the virtual host, except that a debug build without
      local files uses the dev server. */
  function GetWebAppUrl(m: Machine): (url: string)
    ensures UrlVariableSet(m) ==> url == m.webAppUrlVariable.value
    ensures !UrlVariableSet(m) && SettingsFileSet(m) ==> url == TrimSet(m.settingsFile.value, WhiteSpace)
    ensures !UrlVariableSet(m) && !SettingsFileSet(m) ==>
      url == (if m.debug && !HasLocalWebApp(m) then DefaultDevUrl else VirtualHostUrl)
  {
    if UrlVariableSet(m) then m.webAppUrlVariable.value
    else if SettingsFileSet(m) then TrimSet(m.settingsFile.value, WhiteSpace)
    else if m.debug && !HasLocalWebApp(m) then DefaultDevUrl
    else VirtualHostUrl
  }

  /** The URL is never empty; a value from the settings file carries no
      surrounding white space; the dev server is used only by a debug build
      without local files unless it is named explicitly; a release build
      without overrides always uses the virtual host. */
  lemma WebAppUrlFallbacks(m: Machine)
    ensures GetWebAppUrl(m) != ""
    ensures !UrlVariableSet(m) && SettingsFileSet(m) ==>
      GetWebAppUrl(m)[0] !in WhiteSpace && GetWebAppUrl(m)[|GetWebAppUrl(m)| - 1] !in WhiteSpace
    ensures GetWebAppUrl(m) == DefaultDevUrl && !UrlVariableSet(m) && !SettingsFileSet(m) ==>
      m.debug && !HasLocalWebApp(m)
    ensures !m.debug && !UrlVariableSet(m) && !SettingsFileSet(m) ==> GetWebAppUrl(m) == VirtualHostUrl
  {
    if !UrlVariableSet(m) && SettingsFileSet(m) {
      var t := TrimStartSet(m.settingsFile.value, WhiteSpace);
      var r := TrimEndSet(t, WhiteSpace);
      assert r == t[..|r|];
    }
  }

  /** A non-empty `REVIT_API_URL`, else the default port on localhost. */
  function GetApiUrl(m: Machine): (url: string)
    ensures url != ""
    ensures m.apiUrlVariable.Some? && m.apiUrlVariable.value != "" ==> url == m.apiUrlVariable.value
    ensures !(m.apiUrlVariable.Some? && m.apiUrlVariable.value != "") ==> url == DefaultApiUrl
  {
    if m.apiUrlVariable.Some? && m.apiUrlVariable.value != "" then m.apiUrlVariable.value else DefaultApiUrl
  }
}
