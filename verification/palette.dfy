/** The native Archicad add-on's browser palette: a single palette instance
    held by the add-on, its visibility, the check mark on its menu item, the
    scripts it runs in the embedded browser, and the JavaScript bridge it
    registers.  The host SDK (menu flags, element headers, GUID conversions,
    selection) is an input. */
module BrowserPalette {
  import opened Text
  import ArchicadWebAppConfig

  const NoError: int := 0

  /** The two scripts the palette runs in its browser: tell the page the host
      is ready, or that the selection changed. */
  datatype Script = NotifyReady | NotifySelection

  /** A value crossing the JavaScript bridge; `JsNull` stands for a value
      that is not a bridge value at all. */
  datatype JsValue = JsNull | JsBool(b: bool) | JsNumber(n: int) | JsString(s: string) | JsArray(items: seq<JsValue>)

  datatype ElementInfo = ElementInfo(guidStr: string, ifcGuid: string, typeName: string, elementId: string)

  /** The string inside a JS string, and the empty string for anything else. */
  function ExtractString(value: JsValue): (s: string)
    ensures value.JsString? ==> s == value.s
    ensures !value.JsString? ==> s == ""
  {
    match value
    case JsString(s) => s
    case _ => ""
  }

  /** An element travels as the array [guidStr, ifcGuid, typeName, elementId]. */
  function ElementToJs(e: ElementInfo): (v: JsValue)
    ensures v.JsArray? && |v.items| == 4
  {
    JsArray([JsString(e.guidStr), JsString(e.ifcGuid), JsString(e.typeName), JsString(e.elementId)])
  }

  function ElementsToJs(elements: seq<ElementInfo>): (v: JsValue)
    ensures v.JsArray? && |v.items| == |elements|
    ensures forall i :: 0 <= i < |elements| ==> v.items[i] == ElementToJs(elements[i])
  {
    JsArray(seq(|elements|, i requires 0 <= i < |elements| => ElementToJs(elements[i])))
  }

  /** What a page reads back from one element array. */
  function ElementFromJs(v: JsValue): Option<ElementInfo>
  {
    if v.JsArray? && |v.items| == 4 then
      Some(ElementInfo(ExtractString(v.items[0]), ExtractString(v.items[1]),
                       ExtractString(v.items[2]), ExtractString(v.items[3])))
    else None
  }

  /** The page recovers every element, field by field and in order. */
  lemma ElementsRoundTrip(elements: seq<ElementInfo>)
    ensures forall i :: 0 <= i < |elements| ==> ElementFromJs(ElementsToJs(elements).items[i]) == Some(elements[i])
  {
  }

  /** One selected element as the host reports it: whether its header could
      be read, its GUID text, type name, element id, and its IFC GUID (none
      when the conversion fails). */
  datatype Selected = Selected(headerOk: bool, guidStr: string, typeName: string, elementId: string, ifcGuid: Option<string>)

  function InfoOf(s: Selected): ElementInfo
  {
    ElementInfo(s.guidStr, if s.ifcGuid.Some? then s.ifcGuid.value else "", s.typeName, s.elementId)
  }

  /** The elements whose header could be read, in selection order. */
  function Collected(selection: seq<Selected>): (r: seq<ElementInfo>)
    ensures |r| <= |selection|
  {
    if |selection| == 0 then []
    else
      var last := selection[|selection| - 1];
      Collected(selection[..|selection| - 1]) + (if last.headerOk then [InfoOf(last)] else [])
  }

  /** Every collected element is one the host could read, and every readable
      one is collected. */
  lemma {:induction false} CollectedExactly(selection: seq<Selected>)
    ensures forall e :: e in Collected(selection) ==> exists i :: 0 <= i < |selection| && selection[i].headerOk && InfoOf(selection[i]) == e
    ensures forall i :: 0 <= i < |selection| && selection[i].headerOk ==> InfoOf(selection[i]) in Collected(selection)
  {
    if |selection| > 0 {
      var front := selection[..|selection| - 1];
      CollectedExactly(front);
      forall e | e in Collected(selection)
        ensures exists i :: 0 <= i < |selection| && selection[i].headerOk && InfoOf(selection[i]) == e
      {
        if e in Collected(front) {
          var i :| 0 <= i < |front| && front[i].headerOk && InfoOf(front[i]) == e;
          assert selection[i] == front[i];
        }
      }
      forall i | 0 <= i < |selection| && selection[i].headerOk
        ensures InfoOf(selection[i]) in Collected(selection)
      {
        if i < |front| {
          assert selection[i] == front[i];
        }
      }
    }
  }

  /** Walks the selection and keeps the elements whose header can be read. */
  method CollectSelectedElements(selection: seq<Selected>) returns (elements: seq<ElementInfo>)
    ensures elements == Collected(selection)
  {
    elements := [];
    var i := 0;
    while i < |selection|
      invariant 0 <= i <= |selection|
      invariant elements == Collected(selection[..i])
    {
      assert selection[..i + 1][..i] == selection[..i];
      if selection[i].headerOk {
        elements := elements + [InfoOf(selection[i])];
      }
      i := i + 1;
    }
    assert selection[..i] == selection;
  }

  /** The host's GUID services: parsing GUID text (the null GUID `0` when it
      does not parse), converting an IFC GUID (none on error), and selecting
      an element (true when the host reports no error). */
  datatype GuidHost = GuidHost(parse: string -> int, fromIfcGuid: string -> Option<int>, select: int -> bool)

  const NullGuid: int := 0

  /** The GUID the palette selects: the parsed GUID, else a successful,
      non-null IFC conversion, else none. */
  function ResolveGuid(guidValue: string, host: GuidHost): Option<int>
  {
    if host.parse(guidValue) != NullGuid then Some(host.parse(guidValue))
    else if host.fromIfcGuid(guidValue).Some? && host.fromIfcGuid(guidValue).value != NullGuid then host.fromIfcGuid(guidValue)
    else None
  }

  /** Empty text is refused; a plain GUID is selected as is; otherwise the
      IFC conversion must succeed with a non-null GUID. */
  function SelectElementByGuid(guidValue: string, host: GuidHost): (selected: bool)
    ensures guidValue == "" ==> !selected
    ensures guidValue != "" && host.parse(guidValue) != NullGuid ==> (selected <==> host.select(host.parse(guidValue)))
    ensures guidValue != "" && host.parse(guidValue) == NullGuid ==>
      (selected <==> (host.fromIfcGuid(guidValue).Some? && host.fromIfcGuid(guidValue).value != NullGuid
                      && host.select(host.fromIfcGuid(guidValue).value)))
  {
    if guidValue == "" then false
    else
      var guid := ResolveGuid(guidValue, host);
      guid.Some? && host.select(guid.value)
  }

  /** The IFC conversion is consulted only when the text is not a plain GUID. */
  lemma PlainGuidFirst(guidValue: string, h1: GuidHost, h2: GuidHost)
    requires h1.parse == h2.parse && h1.select == h2.select
    requires h1.parse(guidValue) != NullGuid
    ensures SelectElementByGuid(guidValue, h1) == SelectElementByGuid(guidValue, h2)
  {
  }

  /** The bridge's functions, as the page calls them. */
  datatype BridgeCall = GetSelectedElements | SelectByGuid(param: JsValue) | GetHostInfo | RefreshSelection

  /** The names the bridge registers under the `ACAPI` object. */
  const BridgeNames: seq<string> := ["GetSelectedElements", "SelectElementByGuid", "GetHostInfo", "RefreshSelection"]

  /** The bridge has no `SelectElementByGUID` (upper-case `UID`). */
  lemma BridgeLacksUpperCaseGuid()
    ensures "SelectElementByGUID" !in BridgeNames
  {
    assert "SelectElementByGUID"[17] != "SelectElementByGuid"[17];
  }

  /** The answer to one bridge call: the selection as element arrays, the
      selection outcome, or the host description. */
  function BridgeReply(call: BridgeCall, selection: seq<Selected>, host: GuidHost,
                       config: ArchicadWebAppConfig.WebAppConfig): (reply: JsValue)
    ensures call.GetSelectedElements? || call.RefreshSelection? ==> reply == ElementsToJs(Collected(selection))
    ensures call.SelectByGuid? ==> reply == JsBool(SelectElementByGuid(ExtractString(call.param), host))
    ensures call.GetHostInfo? ==>
      reply == JsArray([JsString("Archicad"), JsString(config.resolvedUrl), JsBool(config.usesDevServer)])
  {
    match call
    case GetSelectedElements => ElementsToJs(Collected(selection))
    case RefreshSelection => ElementsToJs(Collected(selection))
    case SelectByGuid(param) => JsBool(SelectElementByGuid(ExtractString(param), host))
    case GetHostInfo => JsArray([JsString("Archicad"), JsString(config.resolvedUrl), JsBool(config.usesDevServer)])
  }

  /** A non-string argument never selects anything. */
  lemma NonStringSelectsNothing(param: JsValue, selection: seq<Selected>, host: GuidHost,
                                config: ArchicadWebAppConfig.WebAppConfig)
    requires !param.JsString?
    ensures BridgeReply(SelectByGuid(param), selection, host, config) == JsBool(false)
  {
  }

  /** Menu flags with the checked bit set or cleared. */
  function WithChecked(flags: bv32, isChecked: bool, checkedBit: bv32): (r: bv32)
  {
    if isChecked then flags | checkedBit else flags & !checkedBit
  }

  lemma SetBit(flags: bv32, bit: bv32)
    ensures (flags | bit) & !bit == flags & !bit
    ensures (flags | bit) & bit == bit
    ensures (flags | bit) | bit == flags | bit
  {
  }

  lemma ClearBit(flags: bv32, bit: bv32)
    ensures (flags & !bit) & !bit == flags & !bit
    ensures (flags & !bit) & bit == 0
  {
  }

  /** Every bit other than the checked bit is kept. */
  lemma WithCheckedKeepsOtherBits(flags: bv32, isChecked: bool, checkedBit: bv32)
    ensures WithChecked(flags, isChecked, checkedBit) & !checkedBit == flags & !checkedBit
  {
    if isChecked {
      SetBit(flags, checkedBit);
    } else {
      ClearBit(flags, checkedBit);
    }
  }

  /** The checked bit ends up set exactly when asked to. */
  lemma WithCheckedSetsBit(flags: bv32, isChecked: bool, checkedBit: bv32)
    ensures WithChecked(flags, isChecked, checkedBit) & checkedBit == if isChecked then checkedBit else 0
  {
    if isChecked {
      SetBit(flags, checkedBit);
    } else {
      ClearBit(flags, checkedBit);
    }
  }

  /** Setting the state twice is setting it once. */
  lemma WithCheckedIdempotent(flags: bv32, isChecked: bool, checkedBit: bv32)
    ensures WithChecked(WithChecked(flags, isChecked, checkedBit), isChecked, checkedBit) == WithChecked(flags, isChecked, checkedBit)
  {
    if isChecked {
      SetBit(flags, checkedBit);
    } else {
      ClearBit(flags, checkedBit);
    }
  }

  /** A boolean written through a `bool*` out-parameter. */
  class Flag {
    var value: bool
    constructor()
      ensures !value
    {
      value := false;
    }
  }

  /** The palette window: its configuration, whether it is shown, and the
      scripts run so far in its browser. */
  class Palette {
    const config: ArchicadWebAppConfig.WebAppConfig
    var loadedUrl: string
    var visible: bool
    var scripts: seq<Script>

    /** Loads the configured URL, registers the bridge and tells the page the
        host is ready; the window starts hidden. */
    constructor(config: ArchicadWebAppConfig.WebAppConfig)
      ensures this.config == config && loadedUrl == config.resolvedUrl
      ensures !visible && scripts == [NotifyReady]
    {
      this.config := config;
      loadedUrl := config.resolvedUrl;
      visible := false;
      scripts := [NotifyReady];
    }
  }

  /** The add-on's static state: the single palette instance, the host's
      flags for the palette's menu item, and whether the add-on asked to stay
      in memory.  `checkedBit` is the host's checked-item mask. */
  class PaletteAddOn {
    const checkedBit: bv32
    var instance: Palette?
    var menuFlags: bv32
    var keptInMemory: bool

    constructor(checkedBit: bv32, menuFlags: bv32)
      ensures this.checkedBit == checkedBit && this.menuFlags == menuFlags
      ensures instance == null && !keptInMemory
    {
      this.checkedBit := checkedBit;
      this.menuFlags := menuFlags;
      instance := null;
      keptInMemory := false;
    }

    predicate HasInstance()
      reads this
    {
      instance != null
    }

    /** Creates the palette only when there is none. */
    method CreateInstance(env: ArchicadWebAppConfig.Environment)
      modifies this`instance, this`keptInMemory
      ensures instance != null
      ensures old(instance) != null ==> instance == old(instance) && keptInMemory == old(keptInMemory)
      ensures old(instance) == null ==>
        && fresh(instance) && keptInMemory
        && instance.config == ArchicadWebAppConfig.Create(env) && instance.loadedUrl == instance.config.resolvedUrl
        && !instance.visible && instance.scripts == [NotifyReady]
    {
      if instance == null {
        instance := new Palette(ArchicadWebAppConfig.Create(env));
        keptInMemory := true;
      }
    }

    /** Drops the palette; calling it again changes nothing. */
    method DestroyInstance()
      modifies this`instance
      ensures instance == null
    {
      if instance != null {
        instance := null;
      }
    }

    /** Sets or clears only the checked bit of the menu item's flags. */
    method SetMenuItemCheckedState(isChecked: bool)
      modifies this`menuFlags
      ensures menuFlags == WithChecked(old(menuFlags), isChecked, checkedBit)
    {
      if isChecked {
        menuFlags := menuFlags | checkedBit;
      } else {
        menuFlags := menuFlags & !checkedBit;
      }
    }

    /** Shows the window, checks the menu item and tells the page the host is ready. */
    method ShowPalette()
      requires instance != null
      modifies this`menuFlags, instance`visible, instance`scripts
      ensures instance.visible && instance.scripts == old(instance.scripts) + [NotifyReady]
      ensures menuFlags == WithChecked(old(menuFlags), true, checkedBit)
    {
      instance.visible := true;
      SetMenuItemCheckedState(true);
      instance.scripts := instance.scripts + [NotifyReady];
    }

    /** Hides the window and clears the menu check. */
    method HidePalette()
      requires instance != null
      modifies this`menuFlags, instance`visible
      ensures !instance.visible
      ensures menuFlags == WithChecked(old(menuFlags), false, checkedBit)
    {
      instance.visible := false;
      SetMenuItemCheckedState(false);
    }

    /** Closing the window hides it and accepts the close when asked to. */
    method PanelCloseRequested(accepted: Flag?)
      requires instance != null
      modifies this`menuFlags, instance`visible, accepted
      ensures !instance.visible
      ensures menuFlags == WithChecked(old(menuFlags), false, checkedBit)
      ensures accepted != null ==> accepted.value
    {
      HidePalette();
      if accepted != null {
        accepted.value := true;
      }
    }

    /** A selection change is passed to the page when a palette exists. */
    method SelectionChangeHandler() returns (err: int)
      modifies instance
      ensures err == NoError
      ensures instance != null ==> instance.scripts == old(instance.scripts) + [NotifySelection]
    {
      if instance != null {
        instance.scripts := instance.scripts + [NotifySelection];
      }
      err := NoError;
    }

    /** Hides a shown palette; otherwise creates one if needed and shows it. */
    method ToggleBrowserPalette(env: ArchicadWebAppConfig.Environment)
      modifies this`instance, this`keptInMemory, this`menuFlags, instance
      ensures instance != null
      ensures old(instance != null && instance.visible) ==>
        && instance == old(instance) && !instance.visible && menuFlags == WithChecked(old(menuFlags), false, checkedBit)
        && instance.scripts == old(instance.scripts)
      ensures !old(instance != null && instance.visible) ==>
        && instance.visible && menuFlags == WithChecked(old(menuFlags), true, checkedBit)
        && (old(instance) != null ==> instance == old(instance) && instance.scripts == old(instance.scripts) + [NotifyReady])
        && (old(instance) == null ==> fresh(instance) && instance.scripts == [NotifyReady, NotifyReady])
    {
      if instance != null && instance.visible {
        HidePalette();
      } else {
        CreateInstance(env);
        ShowPalette();
      }
    }
  }

  /** The palette messages the host sends. */
  datatype PaletteMessage = OpenPalette | ClosePalette | IsPaletteVisible | OtherMessage

  /** The host's palette callback: always answers `NoError`. */
  method PaletteControlCallBack(addOn: PaletteAddOn, message: PaletteMessage, param: Flag?,
                                env: ArchicadWebAppConfig.Environment) returns (err: int)
    modifies addOn, addOn.instance, param
    ensures err == NoError
    ensures message.OpenPalette? ==>
      && addOn.instance != null && addOn.instance.visible
      && addOn.menuFlags == WithChecked(old(addOn.menuFlags), true, addOn.checkedBit)
      && (old(addOn.instance) != null ==>
            addOn.instance == old(addOn.instance) && addOn.instance.scripts == old(addOn.instance.scripts) + [NotifyReady])
      && (old(addOn.instance) == null ==> fresh(addOn.instance) && addOn.instance.scripts == [NotifyReady, NotifyReady])
    ensures message.ClosePalette? ==>
      && addOn.instance == old(addOn.instance)
      && (addOn.instance != null ==>
            !addOn.instance.visible && addOn.menuFlags == WithChecked(old(addOn.menuFlags), false, addOn.checkedBit))
      && (addOn.instance == null ==> addOn.menuFlags == old(addOn.menuFlags))
    ensures message.IsPaletteVisible? ==>
      && addOn.instance == old(addOn.instance) && addOn.menuFlags == old(addOn.menuFlags)
      && (param != null ==> param.value == old(addOn.instance != null && addOn.instance.visible))
    ensures message.IsPaletteVisible? || message.OtherMessage? ==>
      addOn.instance == old(addOn.instance) && addOn.menuFlags == old(addOn.menuFlags)
      && (addOn.instance != null ==> addOn.instance.visible == old(addOn.instance.visible))
    ensures !message.OpenPalette? && addOn.instance != null ==> addOn.instance.scripts == old(addOn.instance.scripts)
    ensures !message.IsPaletteVisible? && param != null ==> param.value == old(param.value)
  {
    err := NoError;
    match message
    case OpenPalette =>
      if !addOn.HasInstance() {
        addOn.CreateInstance(env);
      }
      addOn.ShowPalette();
    case ClosePalette =>
      if addOn.HasInstance() {
        addOn.HidePalette();
      }
    case IsPaletteVisible =>
      if param != null {
        param.value := addOn.instance != null && addOn.instance.visible;
      }
    case OtherMessage =>
  }
}
