# BLUI browser component and client — a Dafny model

BLUI embeds a Chromium-based browser in an Unreal Engine component. This
project models the small part of the plugin that has logic of its own:

- the browser component `UBluEye`, as a class. Its fields are the settings
  (view size, transparency, WebGL, audio, autoplay, debug tick), the enabled
  flag, the default URL, whether a browser view is held, the key event it
  fills in, and the client handler. The browser view is represented by the
  ordered log of calls it receives (`BluEye.BrowserCall`): creation, loads,
  scripts, key events, resize notices, mute, closing the developer tools and
  closing the browser;
- the pure string logic of the component: how `LoadURL` resolves `blui://`
  and legacy devtools URLs, and the `name(p1,p2,…);` text that
  `ExecuteJSMethodWithParams` builds in a loop;
- the modifier-key rule: one flag at most, alt before control before shift;
- the browser client `BrowserClient`, as a class. It keeps the first browser
  created and forgets it only when a close carries its identifier. It turns
  `js_event` process messages into one (name, value text) broadcast, forwards
  console and title text to the log event, and sends downloads into the
  plugin's `Downloads` folder with the path's slashes reversed;
- the engine string operations these rely on (module `FStrings`). Engine
  strings search, replace and compare ignoring case by default. `FromInt`
  gives decimal text, and `RemoveFromEnd` drops one trailing suffix.

Files: `common.dfy` (Option, `int32`/`uint32`), `fstrings.dfy`,
`render_handler.dfy`, `blu_eye.dfy`.

Calls into code outside the model are parameters:
- the absolute project directory used by `LoadURL`;
- the engine's relative-to-full path conversion used for the downloads folder;
- the plugin's base directory, which the plugin manager looks up for the
  downloads folder;
- the engine's float formatting, for `double` values;
- whether the engine is an editor that is not playing;
- the plugin manager's process-wide autoplay and CPU-saver flags, held in a
  small `BluManager` object.

In `LoadURL` (`Source/Blu/Private/BluEye.cpp:205-222`), a URL containing
`blui://` is built from the URL as passed in, not from the devtools-rewritten
one, so any devtools rewrite computed for it is discarded.

## Model

| member | source | states |
|---|---|---|
| BluEye.DefaultSettings | Source/Blu/Private/BluEye.cpp:5-17 | defaults: 60 fps, 1280×720, not transparent, WebGL on, audio not muted, autoplay on, debug tick off; the default size is positive |
| BluEye.UBluEye.constructor | Source/Blu/Private/BluEye.cpp:5-22 | a new component has the default settings, no browser, a zero-filled key event and an empty call log |
| BluEye.UBluEye.Init | Source/Blu/Private/BluEye.cpp:93-163 | an editor that is not playing, or a non-positive view size, changes nothing; otherwise autoplay is copied to the manager, WebGL is switched on in the browser settings when asked, a fresh client wired to both events is made, one view is created on about:blank, then the default URL is loaded |
| BluEye.LocalFileUrl | Source/Blu/Private/BluEye.cpp:204-224 | a URL that starts with `blui://` in any case and holds no other loads `file:///` + project dir + rest of URL |
| BluEye.DevToolsUrl | Source/Blu/Private/BluEye.cpp:194-227 | without `blui://`, the URL loaded is the URL with every legacy inspector address replaced by the current one; the guard on the shorter marker never changes the outcome |
| BluEye.ResolveUrl | Source/Blu/Private/BluEye.cpp:192-227 | a URL containing `blui://` in any case loads a `file:///` URL; a URL with neither `blui://` nor the legacy inspector address is loaded unchanged |
| BluEye.UBluEye.LoadURL | Source/Blu/Private/BluEye.cpp:192-229 | exactly one load is sent, of the resolved URL; nothing else changes |
| BluEye.ParamString | Source/Blu/Private/BluEye.cpp:174-186 | the loop's text is `(` + parameters joined with `,` + `);`, which is `();` for no parameters |
| BluEye.JsCall | Source/Blu/Private/BluEye.cpp:171-190 | the script starts with the method name and `(`, ends with `);`, and holds exactly the comma-joined parameters in between |
| BluEye.JsCallParts | Source/Blu/Private/BluEye.cpp:171-190 | the script is the method name, `(`, the parameters (recovered by splitting at commas when none holds one) and `);` |
| BluEye.UBluEye.ExecuteJS | Source/Blu/Private/BluEye.cpp:165-169 | exactly one script run, of the given code |
| BluEye.UBluEye.ExecuteJSMethodWithParams | Source/Blu/Private/BluEye.cpp:171-190 | exactly one script run, of `name(p1,…,pn);` |
| BluEye.UBluEye.ResizeBrowser | Source/Blu/Private/BluEye.cpp:289-313 | a non-positive width or height changes no state and sends nothing; otherwise the view size is set, the component ends enabled and exactly one resize notice is sent |
| BluEye.UBluEye.CropWindow | Source/Blu/Private/BluEye.cpp:315-329 | any size is stored without a positivity check, the offsets are ignored, the component ends enabled and nothing is sent |
| BluEye.UBluEye.SetProperties | Source/Blu/Private/BluEye.cpp:331-349 | size, transparency, WebGL, enabled flag and default URL take the arguments; the component itself is returned |
| BluEye.KeyMods | Source/Blu/Private/BluEye.cpp:536-561 | at most one flag is set (never a combination, never caps lock or command); alt wins over control, control over shift; 0 when none is down |
| BluEye.KeyEventFor | Source/Blu/Private/BluEye.cpp:414-449 | a key event of the given kind, with the `KeyMods` flag and both key codes equal to the engine key code, wrapped into the signed 32-bit range |
| BluEye.CharEventFor | Source/Blu/Private/BluEye.cpp:451-508 | a key event of the given kind, with the `KeyMods` flag and both key codes equal to the character's code |
| BluEye.BluManager.constructor | Source/Blu/Public/BluManager.h:15-16 | the manager holds the process-wide CPU-saver and autoplay flags it is given |
| BluEye.UBluEye.ProcessKeyMods | Source/Blu/Private/BluEye.cpp:536-561 | only the key event's modifiers change, to the flag `KeyMods` picks |
| BluEye.UBluEye.ProcessKeyCode | Source/Blu/Private/BluEye.cpp:445-449 | the Windows and native key codes both take the engine key code, reinterpreted as a signed 32-bit value |
| BluEye.UBluEye.KeyDown | Source/Blu/Private/BluEye.cpp:414-423 | one KEYDOWN event is sent, carrying the key's modifiers and codes |
| BluEye.UBluEye.KeyUp | Source/Blu/Private/BluEye.cpp:425-434 | one KEYUP event is sent, carrying the key's modifiers and codes |
| BluEye.UBluEye.KeyPress | Source/Blu/Private/BluEye.cpp:436-443 | a KEYDOWN then a KEYUP are sent, identical except for their kind |
| BluEye.UBluEye.CharKeyInput | Source/Blu/Private/BluEye.cpp:451-467 | a single CHAR event is sent, with the character in both key codes |
| BluEye.UBluEye.CharKeyDownUp | Source/Blu/Private/BluEye.cpp:469-487 | a KEYDOWN then a KEYUP for the character are sent, identical except for their kind |
| BluEye.UBluEye.RawCharKeyPress | Source/Blu/Private/BluEye.cpp:489-508 | a single CHAR event for the first character of a non-empty string, with the given modifier state |
| BluEye.UBluEye.SpecialKeyPress | Source/Blu/Private/BluEye.cpp:510-534 | a KEYDOWN then a KEYUP are sent with the key's value in both codes; the modifier arguments are ignored and the modifiers are unchanged |
| BluEye.UBluEye.BeginDestroy | Source/Blu/Private/BluEye.cpp:573-591 | with a live browser: mute, load about:blank, close the developer tools, force-close, in that order, then drop the browser; without one nothing is sent; the component is marked as being destroyed |
| BluEye.UBluEye.CloseBrowser | Source/Blu/Private/BluEye.cpp:568-571 | the same as teardown |
| BluEye.TeardownTwice | Source/Blu/Private/BluEye.cpp:573-591 | a second teardown sends nothing: the close sequence is sent at most once |
| BluEye.DefaultComponentLoadsLocalFile | Source/Blu/Private/BluEye.cpp:93-224 | a component with default settings and default URL `blui://index.html` creates its view, then loads `file:///` + project dir + `index.html` |
| FStrings.Replace | Source/Blu/Private/BluEye.cpp:201 | engine `Replace` leaves a string without a case-insensitive match, or with an empty search text, unchanged |
| FStrings.Contains | Source/Blu/Private/BluEye.cpp:197 | engine `Contains` finds an empty pattern in every string and never finds a pattern longer than the string |
| FStrings.EqualsIgnoreCase | Source/Blu/Private/RenderHandler.cpp:55 | engine `==` holds between equal strings and only between strings of the same length |
| FStrings.FromInt | Source/Blu/Private/RenderHandler.cpp:63 | engine `FromInt` gives a non-empty text: a `-` exactly for negative values, then decimal digits without a leading zero; `"0"` exactly for zero |
| FStrings.ReplaceAtFront | Source/Blu/Private/BluEye.cpp:212 | a leading occurrence (in any case) is replaced by the replacement text |
| FStrings.RemoveFromEnd | Source/Blu/Private/BluEye.cpp:185 | one trailing copy of the suffix is removed when present; otherwise the string is unchanged |
| FStrings.JoinSplitRoundTrip | Source/Blu/Private/BluEye.cpp:178-186 | parameters without commas are recovered from their comma-joined text |
| FStrings.FromIntRoundTrip | Source/Blu/Private/RenderHandler.cpp:62-63 | the decimal text of an int reads back as the same int |
| RenderHandler.DecodeJsEvent | Source/Blu/Private/RenderHandler.cpp:48-73 | a broadcast exists exactly when argument 2 equals `js_event` (ignoring case); its name is argument 0 unchanged |
| RenderHandler.DecodedValue | Source/Blu/Private/RenderHandler.cpp:58-67 | bool gives exactly "true"/"false"; int gives `FromInt` of the int, canonical decimal text that reads back as the int; string gives argument 1 verbatim; an unknown type gives "" |
| RenderHandler.BrowserClient.OnProcessMessageReceived | Source/Blu/Private/RenderHandler.cpp:48-73 | a `js_event` message is broadcast exactly once; any other message broadcasts nothing; the result is always true |
| RenderHandler.ReversePathSlashes | Source/Blu/Private/RenderHandler.cpp:82-85 | the length is kept and every `/` becomes `\`; all other characters are unchanged |
| RenderHandler.ReversePathSlashesIdempotent | Source/Blu/Private/RenderHandler.cpp:82-85 | no `/` remains, and applying it twice equals applying it once |
| RenderHandler.DownloadsFolder | Source/Blu/Private/RenderHandler.cpp:86-89 | the downloads folder holds no `/` and is as long as the full `Downloads/` path |
| RenderHandler.BrowserClient.OnBeforeDownload | Source/Blu/Private/RenderHandler.cpp:102-117 | the download continues without a dialog, to the downloads folder + the suggested name appended verbatim |
| RenderHandler.BrowserClient.OnAfterCreated | Source/Blu/Private/RenderHandler.cpp:5-14 | the browser and its id are recorded only when none is held; otherwise reference and id are unchanged |
| RenderHandler.BrowserClient.OnBeforeClose | Source/Blu/Private/RenderHandler.cpp:16-23 | the reference is cleared only when the closing id equals the recorded id; the id itself is never reset |
| RenderHandler.Step | Source/Blu/Private/RenderHandler.cpp:5-23 | one lifespan callback keeps the recorded id matching the held browser, never clears a recorded id, and replaces the held browser only when none is held |
| RenderHandler.Run | Source/Blu/Private/RenderHandler.cpp:5-23 | across any run of callbacks, a held browser's id is the recorded id |
| RenderHandler.RunKeepsSomeId | Source/Blu/Private/RenderHandler.cpp:16-23 | once recorded, the id is never cleared |
| RenderHandler.MainBrowserSurvivesPopups | Source/Blu/Private/RenderHandler.cpp:5-23 | while the main browser is held, later creations and closes of other ids leave the state as it is |
| RenderHandler.FirstCreatedIsMain | Source/Blu/Private/RenderHandler.cpp:5-14 | from a fresh client, the first browser created stays held through any popups |
| RenderHandler.BrowserClient.OnConsoleMessage | Source/Blu/Private/RenderHandler.cpp:25-30 | the message goes to the log event unchanged, and the result is true |
| RenderHandler.BrowserClient.OnTitleChange | Source/Blu/Private/RenderHandler.cpp:37-41 | the title goes to the log event unchanged |
| RenderHandler.BrowserClient.GetCEFBrowser | Source/Blu/Private/RenderHandler.cpp:43-46 | returns the held browser reference |
| RenderHandler.BrowserClient.SetEventEmitter | Source/Blu/Private/RenderHandler.cpp:92-95 | only the event emitter changes |
| RenderHandler.BrowserClient.SetLogEmitter | Source/Blu/Private/RenderHandler.cpp:97-100 | only the log emitter changes |
| RenderHandler.BrowserClient.constructor | Source/Blu/Public/RenderHandler.h:17-25 | the argument becomes the default URL; no browser and no id are recorded yet |
| RenderHandler.BrowserClient.GetLifeSpanHandler | Source/Blu/Public/RenderHandler.h:30-33 | returns the client itself |
| RenderHandler.BrowserClient.GetDownloadHandler | Source/Blu/Public/RenderHandler.h:35-38 | returns the client itself |
| RenderHandler.BrowserClient.OnBeforePopup | Source/Blu/Public/RenderHandler.h:67-80 | returns false for every input and leaves every out-parameter untouched |

## Left out

- Case-insensitive matching folds ASCII letters only. The engine's folding of non-ASCII letters is not modelled.
- Engine strings are treated as sequences of characters. A NUL character inside a string, which would end the engine's C-string scan in `Replace`, is not modelled.
- Browser view and window delegates (`Source/Blu/Private/BluEye.cpp:28-89`): these are runtime callbacks with no logic of their own.
- `StartEventLoop` and the blocking message-loop call at the end of `Init`: this is runtime I/O and concurrency.
- BluEye.UBluEye.Init: the WebGL-versus-CPU-saver conflict is only logged, so the model leaves it out.
- BluEye.UBluEye.Init: the client is built with the component's default URL. The call site uses a constructor with no arguments, which the header does not declare.
- Mouse movement, clicks and the wheel (`BluEye.cpp:351-412`), `SetZoom`/`GetZoom` and the frame rate: these are floating-point pass-throughs. The frame rate is kept as a real number.
- The settings' view size is a floating-point vector in the engine. It is modelled as integers, and only `int32` values are written to it. Rounding above 2^24 is not modelled.
- `GetCurrentURL`, `IsBrowserLoading`, `ReloadBrowser`, `NavBack`, `NavForward` and `DownloadFile` only forward to the browser, so they are not modelled. `ExecuteJS` is modelled because `ExecuteJSMethodWithParams` uses it.
- `Super::BeginDestroy` is outside the plugin. Setting the begin-destroyed flag is modelled as a boolean.
- `OnDownloadUpdated`, `OnFullscreenModeChange`, `OnUncaughtException` and all log output only log, so they are not modelled.
- `BrowserClient::LoadURL` is declared in the header, but its definition is not part of this model.
- The unused `bIsClosing` field is not modelled. Callback parameters the code never reads are omitted: the browser, frame, source process, log level, source, line, and download item.
- RenderHandler.BrowserClient.constructor: in the source, `BrowserId` and the two emitter pointers are left uninitialised. The model starts them as "no id" and null.
- RenderHandler.BrowserClient.OnBeforeClose: in the source, a close before any creation compares against an uninitialised id. The model treats it as no match.
- The runtime's typed argument getters are modelled as returning the type's default (false, 0, "", 0.0) for a slot of another type or past the end of the list. This is an assumption about the runtime, which is outside this model.
- A `double` value is formatted by a function passed in for the engine's float formatting. Doubles are modelled as reals.
- The process-wide manager is reduced to the two flags `Init` reads and writes. `Source/Blu/Public/BluManager.h` has no other logic here.
- BluEye.UBluEye.RawCharKeyPress and BluEye.UBluEye.CharKeyInput: a character is a Unicode scalar value, not the engine's 16-bit UTF-16 code unit. For a character outside the Basic Multilingual Plane (U+1F600, say) the engine sends the high surrogate (0xD83D) in both key codes, while the model sends the whole code point (0x1F600). A lone surrogate, which the engine can deliver to `CharKeyInput`, cannot be expressed in the model at all.
- The source dereferences the browser view and the client's two event pointers without checking them (for example `Source/Blu/Private/BluEye.cpp:220` and `Source/Blu/Private/RenderHandler.cpp:28`). The model makes a live browser, and non-null emitters, preconditions of the methods that use them, instead of modelling a crash.
- Cross-thread delivery of callbacks is not modelled: every call is one sequential step.
