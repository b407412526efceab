/**
 * The browser component (`UBluEye`): owns one embedded browser view, its
 * settings and its client, and turns engine calls into browser calls. The
 * browser is modelled by the ordered log of calls it receives.
 */
module BluEye {
  import opened Common
  import opened FStrings
  import opened RenderHandler

  // ----- Settings -----

  /** `FBluEyeSettings`; the view size is kept as two integers. */
  datatype BluEyeSettings = BluEyeSettings(
    frameRate: real,
    viewWidth: int,
    viewHeight: int,
    isTransparent: bool,
    enableWebGL: bool,
    audioMuted: bool,
    autoPlayEnabled: bool,
    debugLogTick: bool)

  /** The settings a new component starts with. */
  function DefaultSettings(): (s: BluEyeSettings)
    ensures s.frameRate == 60.0 && s.viewWidth == 1280 && s.viewHeight == 720
    ensures !s.isTransparent && s.enableWebGL && !s.audioMuted && s.autoPlayEnabled && !s.debugLogTick
    ensures s.viewWidth > 0 && s.viewHeight > 0
  {
    BluEyeSettings(60.0, 1280, 720, false, true, false, true, false)
  }

  // ----- Keyboard events -----

  /** The kinds of key event the browser runtime accepts. */
  datatype KeyEventType = RawKeyDownType | KeyDownType | KeyUpType | CharType

  /** The browser runtime's key event; a zero-filled one is `RawKeyDownType` with no codes. */
  datatype KeyEvent = KeyEvent(
    kind: KeyEventType,
    modifiers: bv32,
    windowsKeyCode: int,
    nativeKeyCode: int,
    character: char)

  const NoKeyEvent := KeyEvent(RawKeyDownType, 0, 0, 0, '\0')

  // Modifier flags of the browser runtime's events.
  const EventFlagCapsLockOn: bv32 := 1
  const EventFlagShiftDown: bv32 := 2
  const EventFlagControlDown: bv32 := 4
  const EventFlagAltDown: bv32 := 8

  /** The engine's modifier-key state, left and right keys apart. */
  datatype ModifierKeysState = ModifierKeysState(
    leftShift: bool, rightShift: bool,
    leftControl: bool, rightControl: bool,
    leftAlt: bool, rightAlt: bool,
    leftCommand: bool, rightCommand: bool,
    capsLocked: bool)
  {
    predicate IsShiftDown() { leftShift || rightShift }
    predicate IsControlDown() { leftControl || rightControl }
    predicate IsAltDown() { leftAlt || rightAlt }
  }

  /** An engine key event: modifiers and the platform key code. */
  datatype KeyInput = KeyInput(keys: ModifierKeysState, keyCode: uint32)

  /** An engine character event. */
  datatype CharInput = CharInput(character: char, keys: ModifierKeysState, userIndex: nat, isRepeat: bool)

  /**
   * The modifier flags `ProcessKeyMods` computes: one flag at most, chosen
   * alt before control before shift; caps lock and command never show.
   */
  function KeyMods(keys: ModifierKeysState): (mods: bv32)
    ensures mods & (mods - 1) == 0
    ensures mods & !(EventFlagShiftDown | EventFlagControlDown | EventFlagAltDown) == 0
    ensures mods == EventFlagAltDown <==> keys.IsAltDown()
    ensures mods == EventFlagControlDown <==> !keys.IsAltDown() && keys.IsControlDown()
    ensures mods == EventFlagShiftDown <==> !keys.IsAltDown() && !keys.IsControlDown() && keys.IsShiftDown()
    ensures mods == 0 <==> !keys.IsAltDown() && !keys.IsControlDown() && !keys.IsShiftDown()
  {
    var none: bv32 := 0;
    if keys.IsAltDown() then none | EventFlagAltDown
    else if keys.IsControlDown() then none | EventFlagControlDown
    else if keys.IsShiftDown() then none | EventFlagShiftDown
    else none
  }

  /** The key event after `ProcessKeyMods` and `ProcessKeyCode` with the given kind. */
  function KeyEventFor(previous: KeyEvent, key: KeyInput, kind: KeyEventType): (r: KeyEvent)
    ensures r.kind == kind && r.character == previous.character
    ensures r.modifiers == KeyMods(key.keys)
    ensures r.windowsKeyCode == r.nativeKeyCode
    ensures -0x8000_0000 <= r.windowsKeyCode < 0x8000_0000
    ensures r.windowsKeyCode % 0x1_0000_0000 == key.keyCode
  {
    previous.(kind := kind, modifiers := KeyMods(key.keys),
              windowsKeyCode := Uint32ToInt32(key.keyCode),
              nativeKeyCode := Uint32ToInt32(key.keyCode))
  }

  /** The key event after `ProcessKeyMods` and the character taking the key codes. */
  function CharEventFor(previous: KeyEvent, input: CharInput, kind: KeyEventType): (r: KeyEvent)
    ensures r.kind == kind && r.character == previous.character
    ensures r.modifiers == KeyMods(input.keys)
    ensures r.windowsKeyCode == r.nativeKeyCode == input.character as int
  {
    previous.(kind := kind, modifiers := KeyMods(input.keys),
              windowsKeyCode := input.character as int,
              nativeKeyCode := input.character as int)
  }

  // ----- URLs -----

  const LocalScheme := "blui://"
  const DevToolsMarker := "chrome-devtools://devtools"
  const LegacyInspector := "chrome-devtools://devtools/bundled/inspector.html"
  const Inspector := "devtools://devtools/inspector.html"

  /**
   * The URL `LoadURL` hands to the browser. `gameDir` is the project
   * directory made absolute. The devtools rewrite is computed first but only
   * used when the URL holds no `blui://`.
   */
  function ResolveUrl(url: string, gameDir: string): (r: string)
    ensures Contains(url, LocalScheme) ==> |r| >= 8 && r[..8] == "file:///"
    ensures !Contains(url, LocalScheme) && !Contains(url, LegacyInspector) ==> r == url
  {
    var finalUrl := if Contains(url, DevToolsMarker) then Replace(url, LegacyInspector, Inspector) else url;
    if Contains(url, LocalScheme) then "file:///" + Replace(url, LocalScheme, gameDir)
    else finalUrl
  }

  /** A pattern holding a non-letter that `s` lacks does not occur in `s`. */
  lemma AbsentCharBlocksMatch(s: string, pattern: string, k: nat)
    requires k < |pattern|
    requires !('A' <= pattern[k] <= 'Z') && !('a' <= pattern[k] <= 'z')
    requires pattern[k] !in s
    ensures !Contains(s, pattern)
  {
  }

  /**
   * A URL that starts with `blui://` in any case, and holds no other,
   * loads `file:///` + the project directory + the rest of the URL.
   */
  lemma LocalFileUrl(scheme: string, path: string, gameDir: string)
    requires EqualsIgnoreCase(scheme, LocalScheme)
    requires !Contains(path, LocalScheme)
    ensures ResolveUrl(scheme + path, gameDir) == "file:///" + gameDir + path
  {
    var url := scheme + path;
    assert url[0..|LocalScheme|] == scheme;
    assert MatchesAt(url, 0, LocalScheme);
    ReplaceAtFront(scheme, path, LocalScheme, gameDir);
  }

  /**
   * Without `blui://`, the URL loaded is the URL with every legacy
   * inspector address replaced by the current one; the guard on the
   * shorter devtools marker changes nothing.
   */
  lemma DevToolsUrl(url: string, gameDir: string)
    requires !Contains(url, LocalScheme)
    ensures ResolveUrl(url, gameDir) == Replace(url, LegacyInspector, Inspector)
  {
    if !Contains(url, DevToolsMarker) {
      if Contains(url, LegacyInspector) {
        assert LegacyInspector == DevToolsMarker + "/bundled/inspector.html";
        ContainsPrefixOf(url, DevToolsMarker, "/bundled/inspector.html");
      }
    }
  }

  // ----- Script calls -----

  /** The script `ExecuteJSMethodWithParams` runs: `name(p1,p2,...);`. */
  function JsCall(methodName: string, params: seq<string>): (r: string)
    ensures |r| == |methodName| + |Join(params, ",")| + 3
    ensures r[..|methodName| + 1] == methodName + "("
    ensures r[|r| - 2..] == ");"
  {
    methodName + "(" + Join(params, ",") + ");"
  }

  /**
   * The call text is the method name, the parameters recoverable by
   * splitting at commas when none holds one, and the closing `);`.
   */
  lemma JsCallParts(methodName: string, params: seq<string>)
    requires params != []
    requires forall k :: 0 <= k < |params| ==> ',' !in params[k]
    ensures var call := JsCall(methodName, params);
      && |call| >= |methodName| + 3
      && call[..|methodName| + 1] == methodName + "("
      && call[|call| - 2..] == ");"
      && Split(call[|methodName| + 1..|call| - 2], ',') == params
  {
    var call := JsCall(methodName, params);
    assert call[|methodName| + 1..|call| - 2] == Join(params, ",");
    JoinSplitRoundTrip(params);
  }

  /** The loop's text after `i` parameters, without the opening parenthesis. */
  function ParamsSoFar(params: seq<string>, i: nat): string
    requires i <= |params|
  {
    if i == 0 then "" else Join(params[..i], ",") + ","
  }

  lemma ParamsSoFarStep(params: seq<string>, i: nat)
    requires i < |params|
    ensures "(" + ParamsSoFar(params, i) + params[i] + "," == "(" + ParamsSoFar(params, i + 1)
  {
    assert params[..i + 1] == params[..i] + [params[i]];
    if i > 0 {
      JoinSnoc(params[..i], params[i], ",");
    }
  }

  /** Dropping the last comma leaves the parameters joined with commas. */
  lemma ParamsSoFarClosed(params: seq<string>)
    ensures RemoveFromEnd("(" + ParamsSoFar(params, |params|), ",") == "(" + Join(params, ",")
  {
    assert params[..|params|] == params;
    if params == [] {
      assert ParamsSoFar(params, 0) == "";
      assert !EqualsIgnoreCase("(", ",") by {
        assert ToLower('(') != ToLower(',');
      }
      assert ("(" + "")[|"("| - |","|..] == "(";
    } else {
      var body := "(" + Join(params, ",");
      assert "(" + ParamsSoFar(params, |params|) == body + ",";
      assert (body + ",")[|body + ","| - 1..] == ",";
      assert (body + ",")[..|body + ","| - 1] == body;
    }
  }

  /**
   * `ExecuteJSMethodWithParams`' loop: open a parenthesis, append each
   * parameter and a comma, drop the last comma, close with `);`.
   */
  method ParamString(params: seq<string>) returns (text: string)
    ensures text == "(" + Join(params, ",") + ");"
  {
    text := "(";
    for i := 0 to |params|
      invariant text == "(" + ParamsSoFar(params, i)
    {
      ParamsSoFarStep(params, i);
      text := text + params[i];
      text := text + ",";
    }
    ParamsSoFarClosed(params);
    text := RemoveFromEnd(text, ",");
    text := text + ");";
  }

  // ----- The browser as a log of calls -----

  /** A call the browser view (or, for creation, the runtime) receives. */
  datatype BrowserCall =
    | CreateBrowserView(url: string, webGL: bool)
    | LoadUrl(url: string)
    | ExecuteJavaScript(code: string)
    | SendKeyEvent(event: KeyEvent)
    | WasResized
    | SetAudioMuted(muted: bool)
    | CloseDevTools
    | ForceCloseBrowser

  /** What teardown sends to a live browser, in order. */
  const CloseSequence := [SetAudioMuted(true), LoadUrl("about:blank"), CloseDevTools, ForceCloseBrowser]

  /** The engine state `Init` consults: whether it is the editor, and whether it is playing in it. */
  datatype EditorState = EditorState(isEditor: bool, isPlayInEditor: bool)

  /** The plugin manager's process-wide settings. */
  class BluManager {
    var cpuRenderSettings: bool
    var autoPlay: bool

    constructor (cpuRenderSettings: bool, autoPlay: bool)
      ensures this.cpuRenderSettings == cpuRenderSettings && this.autoPlay == autoPlay
    {
      this.cpuRenderSettings := cpuRenderSettings;
      this.autoPlay := autoPlay;
    }
  }

  class UBluEye {
    var settings: BluEyeSettings
    var enabled: bool
    var defaultUrl: string
    /** `Browser` is not null. */
    var browserLive: bool
    /** `BrowserSettings.webgl` has been set to enabled. */
    var browserSettingsWebGL: bool
    var clientHandler: BrowserClient?
    var keyEvent: KeyEvent
    /** Every call the browser received, in order. */
    var calls: seq<BrowserCall>
    var beginDestroyed: bool
    const scriptEventEmitter: ScriptEvent
    const logEventEmitter: LogEvent

    /** Everything but the call log and the key event is as it was. */
    twostate predicate ConfigUnchanged()
      reads this
    {
      && settings == old(settings) && enabled == old(enabled) && defaultUrl == old(defaultUrl)
      && browserLive == old(browserLive) && browserSettingsWebGL == old(browserSettingsWebGL)
      && clientHandler == old(clientHandler) && beginDestroyed == old(beginDestroyed)
    }

    /** A new component: default settings, no browser, a zero-filled key event. */
    constructor ()
      ensures settings == DefaultSettings()
      ensures !enabled && defaultUrl == "" && !browserLive && !browserSettingsWebGL
      ensures clientHandler == null && keyEvent == NoKeyEvent && calls == [] && !beginDestroyed
      ensures fresh(scriptEventEmitter) && fresh(logEventEmitter)
      ensures scriptEventEmitter.broadcasts == [] && logEventEmitter.messages == []
    {
      settings := DefaultSettings();
      enabled := false;
      defaultUrl := "";
      browserLive := false;
      browserSettingsWebGL := false;
      clientHandler := null;
      keyEvent := NoKeyEvent;
      calls := [];
      beginDestroyed := false;
      scriptEventEmitter := new ScriptEvent();
      logEventEmitter := new LogEvent();
    }

    /**
     * Outside play, or with a non-positive view size, nothing happens.
     * Otherwise the process-wide autoplay flag takes the setting, a client
     * wired to the component's events is made, a browser view is created on
     * `about:blank` and the default URL is loaded.
     */
    method Init(engine: Option<EditorState>, manager: BluManager, gameDir: string)
      modifies this, manager
      ensures var skipped := (engine.Some? && engine.value.isEditor && !engine.value.isPlayInEditor)
                             || old(settings).viewWidth <= 0 || old(settings).viewHeight <= 0;
        && (skipped ==> unchanged(this) && unchanged(manager))
        && (!skipped ==>
             && browserLive
             && browserSettingsWebGL == (old(browserSettingsWebGL) || settings.enableWebGL)
             && manager.autoPlay == settings.autoPlayEnabled
             && manager.cpuRenderSettings == old(manager.cpuRenderSettings)
             && calls == old(calls) + [CreateBrowserView("about:blank", browserSettingsWebGL),
                                       LoadUrl(ResolveUrl(defaultUrl, gameDir))]
             && clientHandler != null && fresh(clientHandler)
             && clientHandler.defaultUrl == defaultUrl
             && clientHandler.State() == Lifespan(null, None)
             && clientHandler.eventEmitter == scriptEventEmitter
             && clientHandler.logEmitter == logEventEmitter
             && settings == old(settings) && enabled == old(enabled) && defaultUrl == old(defaultUrl)
             && keyEvent == old(keyEvent) && beginDestroyed == old(beginDestroyed))
    {
      if engine.Some? && engine.value.isEditor && !engine.value.isPlayInEditor {
        return;
      }
      if settings.viewWidth <= 0 || settings.viewHeight <= 0 {
        return;
      }
      if settings.enableWebGL {
        browserSettingsWebGL := true;
      }
      manager.autoPlay := settings.autoPlayEnabled;
      var client := new BrowserClient(defaultUrl);
      clientHandler := client;
      browserLive := true;
      calls := calls + [CreateBrowserView("about:blank", browserSettingsWebGL)];
      client.SetEventEmitter(scriptEventEmitter);
      client.SetLogEmitter(logEventEmitter);
      LoadURL(defaultUrl, gameDir);
    }

    /** Exactly one load, of the resolved URL. */
    method LoadURL(newUrl: string, gameDir: string)
      requires browserLive
      modifies this
      ensures calls == old(calls) + [LoadUrl(ResolveUrl(newUrl, gameDir))]
      ensures ConfigUnchanged() && keyEvent == old(keyEvent)
    {
      var finalUrl := newUrl;
      if Contains(newUrl, DevToolsMarker) {
        finalUrl := Replace(finalUrl, LegacyInspector, Inspector);
      }
      if Contains(newUrl, LocalScheme) {
        var localFile := Replace(newUrl, LocalScheme, gameDir);
        localFile := "file:///" + localFile;
        calls := calls + [LoadUrl(localFile)];
        return;
      }
      calls := calls + [LoadUrl(finalUrl)];
    }

    /** Runs `code` in the main frame. */
    method ExecuteJS(code: string)
      requires browserLive
      modifies this
      ensures calls == old(calls) + [ExecuteJavaScript(code)]
      ensures ConfigUnchanged() && keyEvent == old(keyEvent)
    {
      calls := calls + [ExecuteJavaScript(code)];
    }

    /** Runs exactly `methodName(p1,...,pn);`, or `methodName();` with no parameters. */
    method ExecuteJSMethodWithParams(methodName: string, params: seq<string>)
      requires browserLive
      modifies this
      ensures calls == old(calls) + [ExecuteJavaScript(JsCall(methodName, params))]
      ensures ConfigUnchanged() && keyEvent == old(keyEvent)
    {
      var paramText := ParamString(params);
      assert methodName + paramText == JsCall(methodName, params);
      ExecuteJS(methodName + paramText);
    }

    /**
     * A non-positive width or height changes nothing and sends nothing.
     * Otherwise the view size is set, the component ends enabled and the
     * browser hears of the resize once.
     */
    method ResizeBrowser(newWidth: int32, newHeight: int32)
      requires newWidth > 0 && newHeight > 0 ==> browserLive
      modifies this
      ensures newWidth <= 0 || newHeight <= 0 ==> unchanged(this)
      ensures newWidth > 0 && newHeight > 0 ==>
        && settings == old(settings).(viewWidth := newWidth, viewHeight := newHeight)
        && enabled
        && calls == old(calls) + [WasResized]
        && keyEvent == old(keyEvent) && defaultUrl == old(defaultUrl) && browserLive == old(browserLive)
        && browserSettingsWebGL == old(browserSettingsWebGL) && clientHandler == old(clientHandler)
        && beginDestroyed == old(beginDestroyed)
    {
      if newWidth <= 0 || newHeight <= 0 {
        return;
      }
      enabled := false;
      settings := settings.(viewWidth := newWidth, viewHeight := newHeight);
      calls := calls + [WasResized];
      enabled := true;
    }

    /** Any size is taken, the offsets are ignored, and the browser hears nothing. */
    method CropWindow(y: int32, x: int32, newWidth: int32, newHeight: int32)
      modifies this
      ensures settings == old(settings).(viewWidth := newWidth, viewHeight := newHeight)
      ensures enabled
      ensures calls == old(calls) && keyEvent == old(keyEvent) && defaultUrl == old(defaultUrl)
      ensures browserLive == old(browserLive) && browserSettingsWebGL == old(browserSettingsWebGL)
      ensures clientHandler == old(clientHandler) && beginDestroyed == old(beginDestroyed)
    {
      enabled := false;
      settings := settings.(viewWidth := newWidth, viewHeight := newHeight);
      enabled := true;
    }

    /** Sets the size, transparency, WebGL, enabled flag and default URL; returns the component. */
    method SetProperties(setWidth: int32, setHeight: int32, setIsTransparent: bool, setEnabled: bool,
                         setWebGL: bool, setDefaultUrl: string) returns (self: UBluEye)
      modifies this
      ensures self == this
      ensures settings == old(settings).(viewWidth := setWidth, viewHeight := setHeight,
                                          isTransparent := setIsTransparent, enableWebGL := setWebGL)
      ensures enabled == setEnabled && defaultUrl == setDefaultUrl
      ensures calls == old(calls) && keyEvent == old(keyEvent) && browserLive == old(browserLive)
      ensures browserSettingsWebGL == old(browserSettingsWebGL) && clientHandler == old(clientHandler)
      ensures beginDestroyed == old(beginDestroyed)
    {
      settings := settings.(viewWidth := setWidth, viewHeight := setHeight);
      enabled := setEnabled;
      settings := settings.(isTransparent := setIsTransparent, enableWebGL := setWebGL);
      defaultUrl := setDefaultUrl;
      self := this;
    }

    /** The key event's modifiers become the single flag `KeyMods` picks. */
    method ProcessKeyMods(keys: ModifierKeysState)
      modifies this
      ensures keyEvent == old(keyEvent).(modifiers := KeyMods(keys))
      ensures calls == old(calls) && ConfigUnchanged()
    {
      var mods: bv32 := 0;
      if keys.IsAltDown() {
        mods := mods | EventFlagAltDown;
      } else if keys.IsControlDown() {
        mods := mods | EventFlagControlDown;
      } else if keys.IsShiftDown() {
        mods := mods | EventFlagShiftDown;
      }
      keyEvent := keyEvent.(modifiers := mods);
    }

    /** Both key codes take the engine key code. */
    method ProcessKeyCode(key: KeyInput)
      modifies this
      ensures keyEvent == old(keyEvent).(windowsKeyCode := Uint32ToInt32(key.keyCode),
                                         nativeKeyCode := Uint32ToInt32(key.keyCode))
      ensures calls == old(calls) && ConfigUnchanged()
    {
      keyEvent := keyEvent.(nativeKeyCode := Uint32ToInt32(key.keyCode));
      keyEvent := keyEvent.(windowsKeyCode := Uint32ToInt32(key.keyCode));
    }

    method KeyDown(key: KeyInput)
      requires browserLive
      modifies this
      ensures keyEvent == KeyEventFor(old(keyEvent), key, KeyDownType)
      ensures calls == old(calls) + [SendKeyEvent(keyEvent)]
      ensures ConfigUnchanged()
    {
      ProcessKeyMods(key.keys);
      ProcessKeyCode(key);
      keyEvent := keyEvent.(kind := KeyDownType);
      calls := calls + [SendKeyEvent(keyEvent)];
    }

    method KeyUp(key: KeyInput)
      requires browserLive
      modifies this
      ensures keyEvent == KeyEventFor(old(keyEvent), key, KeyUpType)
      ensures calls == old(calls) + [SendKeyEvent(keyEvent)]
      ensures ConfigUnchanged()
    {
      ProcessKeyMods(key.keys);
      ProcessKeyCode(key);
      keyEvent := keyEvent.(kind := KeyUpType);
      calls := calls + [SendKeyEvent(keyEvent)];
    }

    /** A key-down then a key-up that differ only in kind. */
    method KeyPress(key: KeyInput)
      requires browserLive
      modifies this
      ensures keyEvent == KeyEventFor(old(keyEvent), key, KeyUpType)
      ensures calls == old(calls) + [SendKeyEvent(keyEvent.(kind := KeyDownType)), SendKeyEvent(keyEvent)]
      ensures ConfigUnchanged()
    {
      KeyDown(key);
      KeyUp(key);
    }

    /** A single character event carrying the character in both key codes. */
    method CharKeyInput(input: CharInput)
      requires browserLive
      modifies this
      ensures keyEvent == CharEventFor(old(keyEvent), input, CharType)
      ensures calls == old(calls) + [SendKeyEvent(keyEvent)]
      ensures ConfigUnchanged()
    {
      ProcessKeyMods(input.keys);
      keyEvent := keyEvent.(windowsKeyCode := input.character as int, nativeKeyCode := input.character as int);
      keyEvent := keyEvent.(kind := CharType);
      calls := calls + [SendKeyEvent(keyEvent)];
    }

    /** A key-down then a key-up for the character, differing only in kind. */
    method CharKeyDownUp(input: CharInput)
      requires browserLive
      modifies this
      ensures keyEvent == CharEventFor(old(keyEvent), input, KeyUpType)
      ensures calls == old(calls) + [SendKeyEvent(keyEvent.(kind := KeyDownType)), SendKeyEvent(keyEvent)]
      ensures ConfigUnchanged()
    {
      ProcessKeyMods(input.keys);
      keyEvent := keyEvent.(windowsKeyCode := input.character as int, nativeKeyCode := input.character as int);
      keyEvent := keyEvent.(kind := KeyDownType);
      calls := calls + [SendKeyEvent(keyEvent)];
      keyEvent := keyEvent.(kind := KeyUpType);
      calls := calls + [SendKeyEvent(keyEvent)];
    }

    /** The first character of `charToPress` as one character event with the given modifiers. */
    method RawCharKeyPress(charToPress: string, isRepeat: bool,
                           leftShiftDown: bool, rightShiftDown: bool,
                           leftControlDown: bool, rightControlDown: bool,
                           leftAltDown: bool, rightAltDown: bool,
                           leftCommandDown: bool, rightCommandDown: bool,
                           capsLocksOn: bool)
      requires charToPress != []
      requires browserLive
      modifies this
      ensures var keys := ModifierKeysState(leftShiftDown, rightShiftDown, leftControlDown, rightControlDown,
                                            leftAltDown, rightAltDown, leftCommandDown, rightCommandDown,
                                            capsLocksOn);
        keyEvent == CharEventFor(old(keyEvent), CharInput(charToPress[0], keys, 0, isRepeat), CharType)
      ensures calls == old(calls) + [SendKeyEvent(keyEvent)]
      ensures ConfigUnchanged()
    {
      var keyState := ModifierKeysState(leftShiftDown, rightShiftDown, leftControlDown, rightControlDown,
                                        leftAltDown, rightAltDown, leftCommandDown, rightCommandDown,
                                        capsLocksOn);
      var charEvent := CharInput(charToPress[0], keyState, 0, isRepeat);
      CharKeyInput(charEvent);
    }

    /**
     * A key-down then a key-up with the special key's value in both codes;
     * the modifier arguments are ignored and the modifiers stay as they were.
     */
    method SpecialKeyPress(key: int32,
                           leftShiftDown: bool, rightShiftDown: bool,
                           leftControlDown: bool, rightControlDown: bool,
                           leftAltDown: bool, rightAltDown: bool,
                           leftCommandDown: bool, rightCommandDown: bool,
                           capsLocksOn: bool)
      requires browserLive
      modifies this
      ensures keyEvent == old(keyEvent).(kind := KeyUpType, windowsKeyCode := key, nativeKeyCode := key)
      ensures keyEvent.modifiers == old(keyEvent).modifiers
      ensures calls == old(calls) + [SendKeyEvent(keyEvent.(kind := KeyDownType)), SendKeyEvent(keyEvent)]
      ensures ConfigUnchanged()
    {
      var keyValue := key;
      keyEvent := keyEvent.(windowsKeyCode := keyValue, nativeKeyCode := keyValue);
      keyEvent := keyEvent.(kind := KeyDownType);
      calls := calls + [SendKeyEvent(keyEvent)];
      keyEvent := keyEvent.(windowsKeyCode := keyValue, nativeKeyCode := keyValue);
      keyEvent := keyEvent.(kind := KeyUpType);
      calls := calls + [SendKeyEvent(keyEvent)];
    }

    /**
     * With a live browser: mute, navigate to `about:blank`, close the
     * developer tools, force the browser closed, and drop it. Without one,
     * nothing is sent. Either way the component is marked as being destroyed.
     */
    method BeginDestroy()
      modifies this
      ensures calls == old(calls) + (if old(browserLive) then CloseSequence else [])
      ensures !browserLive && beginDestroyed
      ensures settings == old(settings) && enabled == old(enabled) && defaultUrl == old(defaultUrl)
      ensures browserSettingsWebGL == old(browserSettingsWebGL) && clientHandler == old(clientHandler)
      ensures keyEvent == old(keyEvent)
    {
      if browserLive {
        calls := calls + [SetAudioMuted(true)];
        calls := calls + [LoadUrl("about:blank")];
        calls := calls + [CloseDevTools];
        calls := calls + [ForceCloseBrowser];
        browserLive := false;
      }
      beginDestroyed := true;
    }

    /** `CloseBrowser` is teardown. */
    method CloseBrowser()
      modifies this
      ensures calls == old(calls) + (if old(browserLive) then CloseSequence else [])
      ensures !browserLive && beginDestroyed
      ensures settings == old(settings) && enabled == old(enabled) && defaultUrl == old(defaultUrl)
      ensures browserSettingsWebGL == old(browserSettingsWebGL) && clientHandler == old(clientHandler)
      ensures keyEvent == old(keyEvent)
    {
      BeginDestroy();
    }
  }

  /** Tearing down twice sends the close sequence at most once. */
  method TeardownTwice(eye: UBluEye)
    modifies eye
    ensures eye.calls == old(eye.calls) + (if old(eye.browserLive) then CloseSequence else [])
    ensures !eye.browserLive
  {
    eye.BeginDestroy();
    eye.BeginDestroy();
  }

  /**
   * A component with default settings, playing, whose default URL is
   * `blui://index.html`, creates its browser and loads
   * `file:///` + the project directory + `index.html`.
   */
  method DefaultComponentLoadsLocalFile(gameDir: string) returns (eye: UBluEye)
    ensures eye.browserLive
    ensures eye.calls == [CreateBrowserView("about:blank", true), LoadUrl("file:///" + gameDir + "index.html")]
  {
    eye := new UBluEye();
    eye.defaultUrl := "blui://index.html";
    var manager := new BluManager(false, false);
    eye.Init(None, manager, gameDir);
    AbsentCharBlocksMatch("index.html", LocalScheme, 4);
    assert "blui://index.html" == LocalScheme + "index.html";
    LocalFileUrl(LocalScheme, "index.html", gameDir);
  }
}
