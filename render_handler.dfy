/**
 * The browser client (`BrowserClient`): the object the embedded browser
 * runtime calls back into. It remembers the main browser for its lifespan,
 * turns `js_event` process messages into script-event broadcasts, forwards
 * console and title text to the log event, and places downloads in the
 * plugin's `Downloads` folder without asking.
 */
module RenderHandler {
  import opened Common
  import opened FStrings

  /** A browser instance of the embedded runtime; the client tells them apart by identifier. */
  class CefBrowser {
    const identifier: int

    constructor (identifier: int)
      ensures this.identifier == identifier
    {
      this.identifier := identifier;
    }
  }

  /** The component's script-event delegate: every broadcast (name, data) in order. */
  class ScriptEvent {
    var broadcasts: seq<(string, string)>

    constructor ()
      ensures broadcasts == []
    {
      broadcasts := [];
    }

    method Broadcast(name: string, data: string)
      modifies this
      ensures broadcasts == old(broadcasts) + [(name, data)]
    {
      broadcasts := broadcasts + [(name, data)];
    }
  }

  /** The component's log delegate: every broadcast message in order. */
  class LogEvent {
    var messages: seq<string>

    constructor ()
      ensures messages == []
    {
      messages := [];
    }

    method Broadcast(message: string)
      modifies this
      ensures messages == old(messages) + [message]
    {
      messages := messages + [message];
    }
  }

  // ----- Process messages -----

  /** One slot of a process message's argument list. */
  datatype CefValue = Null | Bool(b: bool) | Int(i: int32) | Double(d: real) | String(s: string)

  // The runtime's typed getters: a slot of another type, or past the end of
  // the list, reads as that type's default value.

  function GetString(args: seq<CefValue>, index: nat): string
  {
    if index < |args| && args[index].String? then args[index].s else ""
  }

  function GetBool(args: seq<CefValue>, index: nat): bool
  {
    index < |args| && args[index].Bool? && args[index].b
  }

  function GetInt(args: seq<CefValue>, index: nat): int32
  {
    if index < |args| && args[index].Int? then args[index].i else 0
  }

  function GetDouble(args: seq<CefValue>, index: nat): real
  {
    if index < |args| && args[index].Double? then args[index].d else 0.0
  }

  /** Slot 2 is the message type; only `js_event` (compared ignoring case) is acted on. */
  predicate IsJsEvent(args: seq<CefValue>)
  {
    EqualsIgnoreCase(GetString(args, 2), "js_event")
  }

  /** Slot 3 is the data type tag of slot 1. */
  predicate DataTypeIs(args: seq<CefValue>, tag: string)
  {
    EqualsIgnoreCase(GetString(args, 3), tag)
  }

  /**
   * The (name, value text) a message broadcasts, or None when it is not a
   * `js_event`. `sanitizeFloat` stands for the engine's float formatting.
   */
  function DecodeJsEvent(args: seq<CefValue>, sanitizeFloat: real -> string): (r: Option<(string, string)>)
    ensures r.Some? <==> IsJsEvent(args)
    ensures r.Some? ==> r.value.0 == GetString(args, 0)
  {
    if !IsJsEvent(args) then None
    else
      var data :=
        if DataTypeIs(args, "bool") then (if GetBool(args, 1) then "true" else "false")
        else if DataTypeIs(args, "int") then FromInt(GetInt(args, 1))
        else if DataTypeIs(args, "string") then GetString(args, 1)
        else if DataTypeIs(args, "double") then sanitizeFloat(GetDouble(args, 1))
        else "";
      Some((GetString(args, 0), data))
  }

  /**
   * What the value text of a `js_event` means for each data type: a bool
   * is exactly "true" or "false", an int is its canonical decimal text
   * (sign, digits, no leading zero), which reads back as the same integer, a string is passed through, an unknown tag gives "".
   */
  lemma DecodedValue(args: seq<CefValue>, sanitizeFloat: real -> string)
    requires IsJsEvent(args)
    ensures var data := DecodeJsEvent(args, sanitizeFloat).value.1;
      && (DataTypeIs(args, "bool") ==> (data == "true" || data == "false") && (data == "true" <==> GetBool(args, 1)))
      && (DataTypeIs(args, "int") ==> data == FromInt(GetInt(args, 1)) && ParseInt(data) == GetInt(args, 1))
      && (DataTypeIs(args, "string") ==> data == GetString(args, 1))
      && (DataTypeIs(args, "double") ==> data == sanitizeFloat(GetDouble(args, 1)))
      && ((!DataTypeIs(args, "bool") && !DataTypeIs(args, "int") && !DataTypeIs(args, "string")
           && !DataTypeIs(args, "double")) ==> data == "")
  {
    if DataTypeIs(args, "int") {
      FromIntRoundTrip(GetInt(args, 1));
    }
    if DataTypeIs(args, "double") {
      var tag := GetString(args, 3);
      assert |tag| == 6 && ToLower(tag[0]) == 'd';
      assert !DataTypeIs(args, "string");
    }
  }

  // ----- Download paths -----

  /** `ReversePathSlashes`: every `/` becomes `\`. */
  function ReversePathSlashes(path: string): (r: string)
    ensures |r| == |path|
    ensures forall k :: 0 <= k < |path| ==> r[k] == if path[k] == '/' then '\\' else path[k]
  {
    ReplaceCharPointwise(path, '/', '\\');
    Replace(path, "/", "\\")
  }

  /** No `/` is left, and a second reversal changes nothing. */
  lemma ReversePathSlashesIdempotent(path: string)
    ensures '/' !in ReversePathSlashes(path)
    ensures ReversePathSlashes(ReversePathSlashes(path)) == ReversePathSlashes(path)
  {
    var r := ReversePathSlashes(path);
    assert forall k :: 0 <= k < |r| ==> r[k] != '/';
  }

  /**
   * `UtilityBLUIDownloadsFolder`: the plugin's `Downloads/` directory, made
   * absolute by `toFull` (the engine's relative-to-full path conversion),
   * written with back-slashes.
   */
  function DownloadsFolder(pluginBaseDir: string, toFull: string -> string): (r: string)
    ensures |r| == |toFull(pluginBaseDir + "/Downloads/")|
    ensures '/' !in r
  {
    var full := toFull(pluginBaseDir + "/Downloads/");
    ReversePathSlashesIdempotent(full);
    ReversePathSlashes(full)
  }

  // ----- Lifespan -----

  /** What the client knows of the main browser: the reference and its identifier. */
  datatype Lifespan = Lifespan(browserRef: CefBrowser?, browserId: Option<int>)

  /** A lifespan callback from the runtime. */
  datatype LifespanEvent = AfterCreated(browser: CefBrowser) | BeforeClose(browser: CefBrowser)

  /** The identifier recorded is the held browser's own. */
  predicate Consistent(s: Lifespan)
  {
    s.browserRef != null ==> s.browserId == Some(s.browserRef.identifier)
  }

  /**
   * One callback: the first browser created while none is held is kept;
   * a close clears the reference only when its identifier is the recorded
   * one. The identifier itself is never cleared.
   */
  function Step(s: Lifespan, e: LifespanEvent): (r: Lifespan)
    ensures Consistent(s) ==> Consistent(r)
    ensures s.browserId.Some? ==> r.browserId.Some?
    ensures r.browserRef == null || r.browserRef == s.browserRef || s.browserRef == null
  {
    match e
    case AfterCreated(b) =>
      if s.browserRef == null then Lifespan(b, Some(b.identifier)) else s
    case BeforeClose(b) =>
      if s.browserId == Some(b.identifier) then s.(browserRef := null) else s
  }

  /** Every run of callbacks keeps the identifier matching the held browser. */
  function Run(s: Lifespan, events: seq<LifespanEvent>): (r: Lifespan)
    ensures Consistent(s) ==> Consistent(r)
    decreases |events|
  {
    if events == [] then s else Run(Step(s, events[0]), events[1..])
  }

  /** Once recorded, an identifier is never cleared (it may only be replaced by a later main browser). */
  lemma {:induction false} RunKeepsSomeId(s: Lifespan, events: seq<LifespanEvent>)
    requires s.browserId.Some?
    ensures Run(s, events).browserId.Some?
    decreases |events|
  {
    if events != [] {
      RunKeepsSomeId(Step(s, events[0]), events[1..]);
    }
  }

  /**
   * Popups cannot displace the main browser: while it is held, creations
   * of other browsers and closes of browsers with other identifiers leave
   * the reference and the identifier as they are.
   */
  lemma {:induction false} MainBrowserSurvivesPopups(s: Lifespan, events: seq<LifespanEvent>)
    requires s.browserRef != null && Consistent(s)
    requires forall k :: 0 <= k < |events| && events[k].BeforeClose? ==>
      events[k].browser.identifier != s.browserRef.identifier
    ensures Run(s, events) == s
    decreases |events|
  {
    if events != [] {
      assert Step(s, events[0]) == s;
      MainBrowserSurvivesPopups(s, events[1..]);
    }
  }

  /** The first browser created is the one held, however many popups follow. */
  lemma FirstCreatedIsMain(first: CefBrowser, events: seq<LifespanEvent>)
    requires forall k :: 0 <= k < |events| && events[k].BeforeClose? ==>
      events[k].browser.identifier != first.identifier
    ensures Run(Lifespan(null, None), [AfterCreated(first)] + events) == Lifespan(first, Some(first.identifier))
  {
    var evs := [AfterCreated(first)] + events;
    assert evs[1..] == events;
    MainBrowserSurvivesPopups(Lifespan(first, Some(first.identifier)), events);
  }

  // ----- The client object -----

  class BrowserClient {
    var eventEmitter: ScriptEvent?
    var logEmitter: LogEvent?
    var defaultUrl: string
    var browserRef: CefBrowser?
    var browserId: Option<int>

    /** The lifespan state the fields hold. */
    function State(): Lifespan
      reads this
    {
      Lifespan(browserRef, browserId)
    }

    /** The declared constructor: stores the URL; no browser is known yet. */
    constructor (defaultUrl: string)
      ensures this.defaultUrl == defaultUrl
      ensures State() == Lifespan(null, None) && Consistent(State())
      ensures eventEmitter == null && logEmitter == null
    {
      this.defaultUrl := defaultUrl;
      browserRef := null;
      browserId := None;
      eventEmitter := null;
      logEmitter := null;
    }

    method GetLifeSpanHandler() returns (handler: BrowserClient)
      ensures handler == this
    {
      handler := this;
    }

    method GetDownloadHandler() returns (handler: BrowserClient)
      ensures handler == this
    {
      handler := this;
    }

    method GetCEFBrowser() returns (browser: CefBrowser?)
      ensures browser == browserRef
    {
      browser := browserRef;
    }

    method OnAfterCreated(browser: CefBrowser)
      modifies this
      ensures State() == Step(old(State()), AfterCreated(browser))
      ensures old(browserRef) == null ==> browserRef == browser && browserId == Some(browser.identifier)
      ensures old(browserRef) != null ==> browserRef == old(browserRef) && browserId == old(browserId)
      ensures Consistent(old(State())) ==> Consistent(State())
      ensures eventEmitter == old(eventEmitter) && logEmitter == old(logEmitter) && defaultUrl == old(defaultUrl)
    {
      if browserRef == null {
        browserRef := browser;
        browserId := Some(browser.identifier);
      }
    }

    method OnBeforeClose(browser: CefBrowser)
      modifies this
      ensures State() == Step(old(State()), BeforeClose(browser))
      ensures browserRef == (if old(browserId) == Some(browser.identifier) then null else old(browserRef))
      ensures browserId == old(browserId)
      ensures Consistent(old(State())) ==> Consistent(State())
      ensures eventEmitter == old(eventEmitter) && logEmitter == old(logEmitter) && defaultUrl == old(defaultUrl)
    {
      if browserId == Some(browser.identifier) {
        browserRef := null;
      }
    }

    method SetEventEmitter(emitter: ScriptEvent?)
      modifies this
      ensures eventEmitter == emitter
      ensures State() == old(State()) && logEmitter == old(logEmitter) && defaultUrl == old(defaultUrl)
    {
      eventEmitter := emitter;
    }

    method SetLogEmitter(emitter: LogEvent?)
      modifies this
      ensures logEmitter == emitter
      ensures State() == old(State()) && eventEmitter == old(eventEmitter) && defaultUrl == old(defaultUrl)
    {
      logEmitter := emitter;
    }

    /** Console output goes to the log event unchanged; the message counts as handled. */
    method OnConsoleMessage(message: string) returns (handled: bool)
      requires logEmitter != null
      modifies logEmitter
      ensures handled
      ensures logEmitter.messages == old(logEmitter.messages) + [message]
    {
      logEmitter.Broadcast(message);
      handled := true;
    }

    /** A new page title goes to the log event unchanged. */
    method OnTitleChange(title: string)
      requires logEmitter != null
      modifies logEmitter
      ensures logEmitter.messages == old(logEmitter.messages) + [title]
    {
      logEmitter.Broadcast(title);
    }

    /**
     * A `js_event` message is broadcast exactly once as (name, value text);
     * any other message broadcasts nothing. Every message counts as handled.
     */
    method OnProcessMessageReceived(args: seq<CefValue>, sanitizeFloat: real -> string) returns (handled: bool)
      requires IsJsEvent(args) ==> eventEmitter != null
      modifies eventEmitter
      ensures handled
      ensures IsJsEvent(args) ==>
        eventEmitter.broadcasts == old(eventEmitter.broadcasts) + [DecodeJsEvent(args, sanitizeFloat).value]
      ensures !IsJsEvent(args) && eventEmitter != null ==> eventEmitter.broadcasts == old(eventEmitter.broadcasts)
    {
      var name := GetString(args, 0);
      var kind := GetString(args, 2);
      var dataType := GetString(args, 3);
      if EqualsIgnoreCase(kind, "js_event") {
        var data := "";
        if EqualsIgnoreCase(dataType, "bool") {
          data := if GetBool(args, 1) then "true" else "false";
        } else if EqualsIgnoreCase(dataType, "int") {
          data := FromInt(GetInt(args, 1));
        } else if EqualsIgnoreCase(dataType, "string") {
          data := GetString(args, 1);
        } else if EqualsIgnoreCase(dataType, "double") {
          data := sanitizeFloat(GetDouble(args, 1));
        }
        eventEmitter.Broadcast(name, data);
      }
      handled := true;
    }

    /**
     * A download continues, without a dialog, into the downloads folder
     * under the suggested name, appended verbatim.
     */
    method OnBeforeDownload(suggestedName: string, pluginBaseDir: string, toFull: string -> string)
      returns (downloadPath: string, showDialog: bool)
      ensures !showDialog
      ensures downloadPath == DownloadsFolder(pluginBaseDir, toFull) + suggestedName
      ensures '/' !in downloadPath[..|downloadPath| - |suggestedName|]
    {
      var folder := DownloadsFolder(pluginBaseDir, toFull);
      downloadPath := folder + suggestedName;
      assert downloadPath[..|downloadPath| - |suggestedName|] == folder;
      showDialog := false;
    }

    /** Popups are never cancelled here, and none of the out-parameters is touched. */
    method OnBeforePopup<W, C, S, X>(targetUrl: string, targetFrameName: string, userGesture: bool,
                                     windowInfo: W, client: C, settings: S, extraInfo: X,
                                     noJavascriptAccess: bool)
      returns (cancel: bool, windowInfo': W, client': C, settings': S, extraInfo': X,
               noJavascriptAccess': bool)
      ensures !cancel
      ensures windowInfo' == windowInfo && client' == client && settings' == settings
      ensures extraInfo' == extraInfo && noJavascriptAccess' == noJavascriptAccess
    {
      cancel := false;
      windowInfo', client', settings', extraInfo' := windowInfo, client, settings, extraInfo;
      noJavascriptAccess' := noJavascriptAccess;
    }
  }
}
