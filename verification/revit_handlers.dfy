/** The four Revit external-event handlers.  Each holds the fields the server
    sets before raising it and the fields it leaves for the server to read;
    what the Revit document offers is an input. */
module RevitHandlers {
  import opened Text
  import opened DotNetBridge

  // ---------------------------------------------------------------------
  // Selection by element id

  class SelectElementHandler {
    var elementId: int

    constructor()
      ensures elementId == 0
    {
      elementId := 0;
    }

    /** Completes `true` exactly when a document is open and holds the element.
        `document` is the set of element ids of the active document, if any. */
    method Execute(document: Option<set<int>>) returns (completion: bool)
      ensures completion <==> document.Some? && elementId in document.value
    {
      match document {
        case None =>
          completion := false;
        case Some(ids) =>
          completion := elementId in ids;
      }
    }
  }

  // ---------------------------------------------------------------------
  // Selection by IFC GUID

  /** An element parameter: its definition name, whether it has a value, and
      its value as a string (empty when there is none). */
  datatype Parameter = Parameter(name: string, hasValue: bool, value: string)

  /** An element of the document: the value of its built-in IFC_GUID
      parameter when that has one, its other parameters in order, and whether
      reading its parameters throws. */
  datatype Element = Element(id: int, ifcGuid: Option<string>, parameters: seq<Parameter>, unreadable: bool)

  predicate IsGuidParameterName(name: string)
  {
    EqualsIgnoreCase(name, "IfcGUID") || EqualsIgnoreCase(name, "GlobalId")
  }

  /** A non-empty value that equals the target, ignoring case. */
  predicate GuidValueMatches(value: string, guid: string)
  {
    value != "" && EqualsIgnoreCase(value, guid)
  }

  predicate ParameterMatches(p: Parameter, guid: string)
  {
    p.hasValue && IsGuidParameterName(p.name) && GuidValueMatches(p.value, guid)
  }

  predicate ElementMatches(e: Element, guid: string)
  {
    && !e.unreadable
    && ((e.ifcGuid.Some? && GuidValueMatches(e.ifcGuid.value, guid))
        || exists i :: 0 <= i < |e.parameters| && ParameterMatches(e.parameters[i], guid))
  }

  /** `found` is the index of the first matching element, or none matches. */
  predicate IsFirstMatch(elements: seq<Element>, guid: string, found: Option<nat>)
  {
    match found
    case Some(k) => k < |elements| && ElementMatches(elements[k], guid)
      && forall j :: 0 <= j < k ==> !ElementMatches(elements[j], guid)
    case None => forall j :: 0 <= j < |elements| ==> !ElementMatches(elements[j], guid)
  }

  /** Scans one element's parameters for an IfcGUID or GlobalId value. */
  method ParametersMatch(parameters: seq<Parameter>, guid: string) returns (found: bool)
    ensures found <==> exists i :: 0 <= i < |parameters| && ParameterMatches(parameters[i], guid)
  {
    found := false;
    var i := 0;
    while i < |parameters| && !found
      invariant 0 <= i <= |parameters|
      invariant found ==> i > 0 && ParameterMatches(parameters[i - 1], guid)
      invariant !found ==> forall j :: 0 <= j < i ==> !ParameterMatches(parameters[j], guid)
    {
      if ParameterMatches(parameters[i], guid) {
        found := true;
      }
      i := i + 1;
    }
  }

  /** The element loop: the first element whose built-in IFC_GUID or
      IfcGUID/GlobalId parameter matches; unreadable elements are skipped. */
  method FindByGuid(elements: seq<Element>, guid: string) returns (found: Option<nat>)
    ensures IsFirstMatch(elements, guid, found)
  {
    found := None;
    var i := 0;
    while i < |elements|
      invariant 0 <= i <= |elements|
      invariant forall j :: 0 <= j < i ==> !ElementMatches(elements[j], guid)
    {
      var e := elements[i];
      if !e.unreadable {
        if e.ifcGuid.Some? && e.ifcGuid.value != "" && EqualsIgnoreCase(e.ifcGuid.value, guid) {
          found := Some(i);
          return;
        }
        var inParameters := ParametersMatch(e.parameters, guid);
        if inParameters {
          found := Some(i);
          return;
        }
      }
      i := i + 1;
    }
  }

  /** No element ever matches the empty GUID: empty values never match. */
  lemma EmptyGuidNeverMatches(e: Element)
    ensures !ElementMatches(e, "")
  {
    if e.ifcGuid.Some? && e.ifcGuid.value != "" {
      assert |ToLower(e.ifcGuid.value)| != |ToLower("")|;
    }
    forall i | 0 <= i < |e.parameters| && e.parameters[i].value != ""
      ensures !EqualsIgnoreCase(e.parameters[i].value, "")
    {
      assert |ToLower(e.parameters[i].value)| != |ToLower("")|;
    }
  }

  lemma GuidValueIgnoresCase(value: string, guid: string)
    ensures GuidValueMatches(value, ToLower(guid)) == GuidValueMatches(value, guid)
  {
    ToLowerIdempotent(guid);
  }

  /** The search does not depend on the letter case of the target. */
  lemma MatchIgnoresCase(e: Element, guid: string)
    ensures ElementMatches(e, ToLower(guid)) == ElementMatches(e, guid)
  {
    if e.ifcGuid.Some? {
      GuidValueIgnoresCase(e.ifcGuid.value, guid);
    }
    forall i | 0 <= i < |e.parameters|
      ensures ParameterMatches(e.parameters[i], ToLower(guid)) == ParameterMatches(e.parameters[i], guid)
    {
      GuidValueIgnoresCase(e.parameters[i].value, guid);
    }
  }

  class SelectByGuidHandler {
    var ifcGuid: string

    constructor()
      ensures ifcGuid == ""
    {
      ifcGuid := "";
    }

    /** Completes `true` exactly when a document is open and an element
        matches; `selected` is the first such element's id. */
    method Execute(document: Option<seq<Element>>) returns (completion: bool, selected: Option<int>)
      ensures document.None? ==> !completion
      ensures document.Some? ==> exists found :: (
        && IsFirstMatch(document.value, ifcGuid, found)
        && completion == found.Some?
        && selected == (if found.Some? then Some(document.value[found.value].id) else None))
      ensures completion <==> selected.Some?
    {
      match document {
        case None =>
          completion, selected := false, None;
        case Some(elements) =>
          var found := FindByGuid(elements, ifcGuid);
          completion := found.Some?;
          selected := if found.Some? then Some(elements[found.value].id) else None;
      }
    }
  }

  // ---------------------------------------------------------------------
  // Configuration discovery

  /** What the host offers to configuration discovery: whether reading the
      active document throws, whether one is open, and the names each
      strategy enumerates (none when the strategy is unavailable or fails
      before yielding a name). */
  datatype ConfigSources = ConfigSources(
    hostThrows: bool,
    hasDocument: bool,
    managerNames: Option<seq<string>>,
    setupNames: Option<seq<string>>,
    mapNames: Option<seq<string>>)

  const NoDocumentConfigurations: seq<string> := ["Default", "IFC2x3", "IFC4"]
  const FallbackConfigurations: seq<string> := [
    "Default", "IFC2x3 Coordination View", "IFC2x3 Coordination View 2.0",
    "IFC4 Reference View", "IFC4 Design Transfer View"
  ]
  const FaultConfigurations: seq<string> := ["Default", "IFC2x3 Coordination View", "IFC4 Reference View"]

  /** Appends the non-empty names in order; with `dedupe`, also skips any name
      the list already holds. */
  function AddNames(list: seq<string>, names: seq<string>, dedupe: bool): seq<string>
    decreases |names|
  {
    if |names| == 0 then list
    else
      var name := names[0];
      AddNames(if name != "" && !(dedupe && name in list) then list + [name] else list, names[1..], dedupe)
  }

  predicate NoEmptyNames(list: seq<string>)
  {
    forall i :: 0 <= i < |list| ==> list[i] != ""
  }

  predicate Distinct(list: seq<string>)
  {
    forall i, j :: 0 <= i < j < |list| ==> list[i] != list[j]
  }

  /** Adding keeps the list as a prefix, adds only non-empty names taken from
      `names`, and adds every non-empty name that was not already present. */
  lemma {:induction false} AddNamesFacts(list: seq<string>, names: seq<string>, dedupe: bool)
    ensures var r := AddNames(list, names, dedupe);
      && |list| <= |r| && r[..|list|] == list
      && (forall i :: |list| <= i < |r| ==> r[i] != "" && r[i] in names)
      && (forall n :: n in names && n != "" ==> n in r)
    decreases |names|
  {
    if |names| > 0 {
      var name := names[0];
      var next := if name != "" && !(dedupe && name in list) then list + [name] else list;
      AddNamesFacts(next, names[1..], dedupe);
      var r := AddNames(list, names, dedupe);
      assert r == AddNames(next, names[1..], dedupe);
      assert r[..|list|] == next[..|next|][..|list|];
      forall i | |list| <= i < |r|
        ensures r[i] != "" && r[i] in names
      {
        if i < |next| {
          assert r[i] == next[i] == name;
        }
      }
      forall n | n in names && n != ""
        ensures n in r
      {
        if n == name {
          assert name in next;
          var k :| 0 <= k < |next| && next[k] == name;
          assert r[k] == name;
        }
      }
    }
  }

  /** With `dedupe`, a duplicate-free list stays duplicate-free. */
  lemma {:induction false} AddNamesDistinct(list: seq<string>, names: seq<string>)
    requires Distinct(list)
    ensures Distinct(AddNames(list, names, true))
    decreases |names|
  {
    if |names| > 0 {
      var name := names[0];
      var next := if name != "" && name !in list then list + [name] else list;
      AddNamesDistinct(next, names[1..]);
    }
  }

  /** The configuration list Execute leaves: the fault list on an exception,
      three defaults without a document, else the first strategy that
      yields something (the options manager, then the document's setups,
      then the configuration map without duplicates), else five defaults. */
  function Discovered(src: ConfigSources): seq<string>
  {
    if src.hostThrows then FaultConfigurations
    else if !src.hasDocument then NoDocumentConfigurations
    else if src.managerNames.Some? && |src.managerNames.value| > 0 then AddNames([], src.managerNames.value, false)
    else
      var setups := if src.setupNames.Some? then AddNames([], src.setupNames.value, false) else [];
      if |setups| > 0 then setups
      else
        var mapped := if src.mapNames.Some? then AddNames([], src.mapNames.value, true) else [];
        if |mapped| > 0 then mapped else FallbackConfigurations
  }

  predicate AllEmpty(names: seq<string>)
  {
    forall i :: 0 <= i < |names| ==> names[i] == ""
  }

  lemma {:induction false} AddNamesEmpty(list: seq<string>, names: seq<string>, dedupe: bool)
    ensures AddNames(list, names, dedupe) == list <==> AllEmpty(names) || (dedupe && forall n :: n in names && n != "" ==> n in list)
    decreases |names|
  {
    AddNamesFacts(list, names, dedupe);
    var r := AddNames(list, names, dedupe);
    if r == list {
      if !AllEmpty(names) && !dedupe {
        var i :| 0 <= i < |names| && names[i] != "";
        assert names[i] in r;
        AddNamesAppends(list, names, i);
      }
    } else {
      assert |r| > |list|;
      assert r[|list|] in names && r[|list|] != "";
      if dedupe {
        AddNamesNew(list, names);
      }
    }
  }

  /** Without `dedupe`, a non-empty name lengthens the list. */
  lemma {:induction false} AddNamesAppends(list: seq<string>, names: seq<string>, i: nat)
    requires i < |names| && names[i] != ""
    ensures |AddNames(list, names, false)| > |list|
    decreases |names|
  {
    var name := names[0];
    var next := if name != "" then list + [name] else list;
    AddNamesFacts(next, names[1..], false);
    if i > 0 {
      AddNamesAppends(next, names[1..], i - 1);
    }
  }

  /** With `dedupe`, whatever is added was not in the list before. */
  lemma {:induction false} AddNamesNew(list: seq<string>, names: seq<string>)
    requires AddNames(list, names, true) != list
    ensures exists n :: n in names && n != "" && n !in list
    decreases |names|
  {
    var name := names[0];
    if name != "" && name !in list {
    } else {
      AddNamesNew(list, names[1..]);
      var n :| n in names[1..] && n != "" && n !in list;
      assert n in names;
    }
  }

  /** Every discovered name is non-empty. */
  lemma DiscoveredNamesNonEmpty(src: ConfigSources)
    ensures NoEmptyNames(Discovered(src))
  {
    if src.managerNames.Some? {
      AddNamesFacts([], src.managerNames.value, false);
    }
    if src.setupNames.Some? {
      AddNamesFacts([], src.setupNames.value, false);
    }
    if src.mapNames.Some? {
      AddNamesFacts([], src.mapNames.value, true);
    }
  }

  /** The list is empty only in one case: the options manager returned names
      and every one of them was empty.  The server then substitutes defaults. */
  lemma DiscoveredEmpty(src: ConfigSources)
    ensures Discovered(src) == [] <==>
      && !src.hostThrows && src.hasDocument
      && src.managerNames.Some? && |src.managerNames.value| > 0 && AllEmpty(src.managerNames.value)
  {
    if !src.hostThrows && src.hasDocument && src.managerNames.Some? && |src.managerNames.value| > 0 {
      AddNamesEmpty([], src.managerNames.value, false);
    }
  }

  /** Later strategies are consulted only when the earlier ones yield nothing:
      once the options manager returns names, the other two do not matter. */
  lemma ManagerFirst(src: ConfigSources, setupNames: Option<seq<string>>, mapNames: Option<seq<string>>)
    requires src.managerNames.Some? && |src.managerNames.value| > 0
    ensures Discovered(src) == Discovered(src.(setupNames := setupNames, mapNames := mapNames))
  {
  }

  /** The configuration map is consulted only when the setups yield no name. */
  lemma SetupsBeforeMap(src: ConfigSources, mapNames: Option<seq<string>>)
    requires src.setupNames.Some? && !AllEmpty(src.setupNames.value)
    ensures Discovered(src) == Discovered(src.(mapNames := mapNames))
  {
    AddNamesEmpty([], src.setupNames.value, false);
  }

  /** Names taken from the configuration map are free of duplicates. */
  lemma MapNamesDistinct(src: ConfigSources)
    requires src.mapNames.Some?
    requires !src.hostThrows && src.hasDocument
    requires src.managerNames.None? || |src.managerNames.value| == 0
    requires src.setupNames.None? || AllEmpty(src.setupNames.value)
    ensures Distinct(Discovered(src))
  {
    if src.setupNames.Some? {
      AddNamesEmpty([], src.setupNames.value, false);
    }
    AddNamesDistinct([], src.mapNames.value);
  }

  class ConfigurationsHandler {
    var configurations: seq<string>

    constructor()
      ensures configurations == []
    {
      configurations := [];
    }

    /** The `foreach` that adds names to the list in place. */
    method AddEach(names: seq<string>, dedupe: bool)
      modifies this
      ensures configurations == AddNames(old(configurations), names, dedupe)
    {
      var i := 0;
      while i < |names|
        invariant 0 <= i <= |names|
        invariant AddNames(configurations, names[i..], dedupe) == AddNames(old(configurations), names, dedupe)
      {
        var name := names[i];
        assert names[i..][1..] == names[i + 1..];
        if name != "" && !(dedupe && name in configurations) {
          configurations := configurations + [name];
        }
        i := i + 1;
      }
    }

    /** Clears the list, runs the strategies in order, and always completes `true`. */
    method Execute(src: ConfigSources) returns (completion: bool)
      modifies this
      ensures completion
      ensures configurations == Discovered(src)
    {
      configurations := [];
      completion := true;
      if src.hostThrows {
        configurations := FaultConfigurations;
        return;
      }
      if !src.hasDocument {
        configurations := NoDocumentConfigurations;
        return;
      }
      if src.managerNames.Some? && |src.managerNames.value| > 0 {
        AddEach(src.managerNames.value, false);
        return;
      }
      if |configurations| == 0 && src.setupNames.Some? {
        AddEach(src.setupNames.value, false);
        if |configurations| > 0 {
          return;
        }
      }
      if |configurations| == 0 && src.mapNames.Some? {
        AddEach(src.mapNames.value, true);
        if |configurations| > 0 {
          return;
        }
      }
      if |configurations| == 0 {
        configurations := FallbackConfigurations;
      }
    }
  }

  // ---------------------------------------------------------------------
  // Export

  /** The IFC schema chosen for default export options. */
  datatype IfcVersion = Ifc2x3 | Ifc4 | Ifc2x2 | ExporterDefault

  /** Where the export options come from. */
  datatype OptionsSource = NamedConfiguration(name: string) | OptionsManager | DefaultOptions(version: IfcVersion)

  /** The version picked from the configuration name, by case-insensitive
      substring, checked in the order IFC2x3, IFC4, IFC2X2. */
  function DefaultVersion(configurationName: string): (v: IfcVersion)
    ensures ContainsIgnoreCase(configurationName, "IFC2x3") ==> v == Ifc2x3
    ensures v == Ifc4 <==> !ContainsIgnoreCase(configurationName, "IFC2x3") && ContainsIgnoreCase(configurationName, "IFC4")
    ensures v == Ifc2x2 <==> (!ContainsIgnoreCase(configurationName, "IFC2x3") && !ContainsIgnoreCase(configurationName, "IFC4")
      && ContainsIgnoreCase(configurationName, "IFC2X2"))
  {
    if ContainsIgnoreCase(configurationName, "IFC2x3") then Ifc2x3
    else if ContainsIgnoreCase(configurationName, "IFC4") then Ifc4
    else if ContainsIgnoreCase(configurationName, "IFC2X2") then Ifc2x2
    else ExporterDefault
  }

  /** The version does not depend on the letter case of the name. */
  lemma DefaultVersionIgnoresCase(configurationName: string)
    ensures DefaultVersion(ToLower(configurationName)) == DefaultVersion(configurationName)
  {
    ToLowerIdempotent(configurationName);
  }

  /** The first non-empty name equal to `target` ignoring case. */
  function FirstIgnoringCase(names: seq<string>, target: string): (r: Option<string>)
    ensures r.Some? ==> r.value in names && r.value != "" && EqualsIgnoreCase(r.value, target)
    ensures r.None? ==> forall n :: n in names && n != "" ==> !EqualsIgnoreCase(n, target)
  {
    if |names| == 0 then None
    else if names[0] != "" && EqualsIgnoreCase(names[0], target) then Some(names[0])
    else
      var rest := FirstIgnoringCase(names[1..], target);
      assert forall n :: n in names ==> n == names[0] || n in names[1..];
      rest
  }

  /** The options: the configuration of that name in the configuration map
      (exact, else the first case-insensitive match), else the options
      manager's, else defaults with the version taken from the name. */
  function ResolveOptions(configurationName: string, mapNames: Option<seq<string>>, managerKnows: bool): (r: OptionsSource)
    ensures r.NamedConfiguration? ==> mapNames.Some? && r.name in mapNames.value
    ensures mapNames.Some? && configurationName in mapNames.value ==> r == NamedConfiguration(configurationName)
    ensures mapNames.Some? && configurationName !in mapNames.value && FirstIgnoringCase(mapNames.value, configurationName).Some? ==>
      r == NamedConfiguration(FirstIgnoringCase(mapNames.value, configurationName).value)
    ensures !r.NamedConfiguration? ==> (r.OptionsManager? <==> managerKnows)
    ensures r.OptionsManager? ==> managerKnows
    ensures r.DefaultOptions? ==> !managerKnows && r.version == DefaultVersion(configurationName)
  {
    if mapNames.Some? && configurationName in mapNames.value then NamedConfiguration(configurationName)
    else if mapNames.Some? && FirstIgnoringCase(mapNames.value, configurationName).Some? then
      NamedConfiguration(FirstIgnoringCase(mapNames.value, configurationName).value)
    else if managerKnows then OptionsManager
    else DefaultOptions(DefaultVersion(configurationName))
  }

  /** Defaults are used only when neither named source knows the configuration. */
  lemma DefaultsOnlyWhenUnknown(configurationName: string, mapNames: seq<string>, managerKnows: bool)
    requires ResolveOptions(configurationName, Some(mapNames), managerKnows).DefaultOptions?
    ensures configurationName !in mapNames
    ensures forall n :: n in mapNames && n != "" ==> !EqualsIgnoreCase(n, configurationName)
    ensures !managerKnows
  {
  }

  /** The host as the export handler sees it: whether an exception is thrown
      before the output path is set, whether a document is open, the temp
      directory, the document title, the time stamp, the configuration map's
      names (if the map is available), whether the options manager knows the
      name, whether each Export signature, tried in order, produced the file,
      and the bytes the exporter writes. */
  datatype ExportHost = ExportHost(
    earlyFault: bool,
    hasDocument: bool,
    tempPath: string,
    title: string,
    stamp: string,
    mapNames: Option<seq<string>>,
    managerKnows: bool,
    signatures: seq<bool>,
    ifcBytes: seq<Byte>)

  function ExportDirectory(host: ExportHost): string
  {
    PathCombine(host.tempPath, "IfcTesterRevit")
  }

  /** The output path Execute leaves, given the one it had. */
  function ExportPath(previous: Option<string>, host: ExportHost): (path: Option<string>)
    ensures path.Some? && path.value != ""
  {
    if host.earlyFault then
      if previous.None? || previous.value == "" then
        Some(PathCombine(PathCombine(host.tempPath, "WebAecRevit"), "Export_Error_" + host.stamp + ".ifc"))
      else previous
    else if !host.hasDocument then Some(PathCombine(ExportDirectory(host), "Export_Error_" + host.stamp + ".ifc"))
    else Some(PathCombine(ExportDirectory(host), "Export_" + host.title + "_" + host.stamp + ".ifc"))
  }

  predicate ExportSucceeds(host: ExportHost)
  {
    !host.earlyFault && host.hasDocument && exists k :: 0 <= k < |host.signatures| && host.signatures[k]
  }

  /** The exported file's name is `Export_<title>_<stamp>.ifc` when the title
      and stamp hold no path separator. */
  lemma ExportFileName(previous: Option<string>, host: ExportHost)
    requires ExportSucceeds(host)
    requires forall i :: 0 <= i < |host.title| ==> host.title[i] != '\\' && host.title[i] != '/'
    requires forall i :: 0 <= i < |host.stamp| ==> host.stamp[i] != '\\' && host.stamp[i] != '/'
    ensures FileName(ExportPath(previous, host).value) == "Export_" + host.title + "_" + host.stamp + ".ifc"
  {
    var name := "Export_" + host.title + "_" + host.stamp + ".ifc";
    forall i | 0 <= i < |name|
      ensures name[i] != '\\' && name[i] != '/'
    {
      if i < 7 {
      } else if i < 7 + |host.title| {
        assert name[i] == host.title[i - 7];
      } else if i == 7 + |host.title| {
      } else if i < 8 + |host.title| + |host.stamp| {
        assert name[i] == host.stamp[i - 8 - |host.title|];
      }
    }
    assert name[0] == 'E' && name[1] == 'x';
    assert !IsPathRooted(name);
    FileNameOfCombine(ExportDirectory(host), name);
  }

  /** The cascade of `Document.Export` overloads: each is tried only while
      none has produced the file yet, so the first that does is the last
      tried. */
  method TryExportSignatures(signatures: seq<bool>) returns (exportSucceeded: bool, tried: nat)
    ensures tried <= |signatures|
    ensures exportSucceeded ==> 0 < tried && signatures[tried - 1]
    ensures forall j :: 0 <= j < tried - 1 ==> !signatures[j]
    ensures !exportSucceeded ==> tried == |signatures| && forall j :: 0 <= j < |signatures| ==> !signatures[j]
  {
    exportSucceeded := false;
    tried := 0;
    while tried < |signatures| && !exportSucceeded
      invariant tried <= |signatures|
      invariant exportSucceeded ==> tried > 0 && signatures[tried - 1]
      invariant forall j :: 0 <= j < tried - 1 ==> !signatures[j]
      invariant !exportSucceeded ==> forall j :: 0 <= j < tried ==> !signatures[j]
    {
      exportSucceeded := signatures[tried];
      tried := tried + 1;
    }
  }

  class ExportHandler {
    var configurationName: string
    var outputFilePath: Option<string>

    constructor()
      ensures configurationName == "" && outputFilePath == None
    {
      configurationName := "";
      outputFilePath := None;
    }

    /** Sets the output path before anything can fail, resolves the options,
        tries the Export signatures in order until one produces the file,
        and completes `true` exactly when one did.  `files` is the file
        system before, `after` the one after. */
    method Execute(host: ExportHost, files: map<string, seq<Byte>>) returns (completion: bool, after: map<string, seq<Byte>>)
      modifies this`outputFilePath
      ensures outputFilePath == ExportPath(old(outputFilePath), host)
      ensures completion <==> ExportSucceeds(host)
      ensures completion ==> after == files[outputFilePath.value := host.ifcBytes]
      ensures !completion ==> after == files
    {
      after := files;
      completion := false;
      if host.earlyFault {
        if outputFilePath.None? || outputFilePath.value == "" {
          outputFilePath := Some(PathCombine(PathCombine(host.tempPath, "WebAecRevit"), "Export_Error_" + host.stamp + ".ifc"));
        }
        assert outputFilePath == ExportPath(old(outputFilePath), host);
        return;
      }
      var tempDir := PathCombine(host.tempPath, "IfcTesterRevit");
      if !host.hasDocument {
        outputFilePath := Some(PathCombine(tempDir, "Export_Error_" + host.stamp + ".ifc"));
        assert outputFilePath == ExportPath(old(outputFilePath), host);
        return;
      }
      outputFilePath := Some(PathCombine(tempDir, "Export_" + host.title + "_" + host.stamp + ".ifc"));
      assert outputFilePath == ExportPath(old(outputFilePath), host);
      var options := ResolveOptions(configurationName, host.mapNames, host.managerKnows);
      var exportSucceeded, tried := TryExportSignatures(host.signatures);
      if exportSucceeded {
        assert ExportSucceeds(host);
        after := files[outputFilePath.value := host.ifcBytes];
        completion := true;
      } else {
        assert !ExportSucceeds(host);
      }
    }
  }
}
