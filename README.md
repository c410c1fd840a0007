# minimal-wgpu-native — a Dafny model of its logic

minimal-wgpu-native is a small C++ host for WebGPU demos built on
sokol_app. It has three parts, and this project models the decision logic
of each:

- **Fragment-shader demo** (`DemoFragment`): a hot-reload state machine.
  - `rebuild` installs a freshly compiled fragment module as the pending
    candidate.
  - The backend may report a compilation error.
  - The next `frame` either discards the candidate or promotes it to a new
    render pipeline, releasing the old one.
  - The shader source lives in a fixed 65536-character buffer.
  - A known gap, kept as the code has it: an error that arrives only
    after a frame has promoted its candidate sets the error text and
    nothing else, so the promoted pipeline stays in use.
- **GUI demo** (`DemoImgui`): it translates platform input events into Dear
  ImGui input events (module `ImguiEvents`). It also keeps a list of demo
  windows, each with its own render target that is re-created when the
  window's content region changes size (module `ImguiWindows`).
- **Host** (`main.cpp`): it selects a demo from the registry and requests a
  device tier by tier. On each frame it follows window resizes and acts on
  the status of the surface texture.

GPU objects are opaque handles (module `Gpu`). A handle is a natural
number and 0 is the null handle. The device keeps a log: the next handle
it will hand out, and every release call in order. Ownership properties
are stated over that log:

- every handle created is released exactly once;
- nothing is released twice;
- the null handle is never released.

The code as written can leak a handle, so it breaks the first property.
From init through any events, the model proves that it keeps the other
two. Its cleanup releases the pipeline unguarded, so when no pipeline was
ever built it releases the null handle once (see "## Findings"). Over the
whole lifetime, cleanup included, no handle is released more than once.

Each core file takes the form of its source:

- **Fragment-shader demo.**
  - The demo is a class whose methods change its fields step by step
    (`FragmentDemo.DemoFragment`).
  - Each method is proved equal to a pure transition of `HotReload`.
  - The properties are lemmas about those transitions.
- **GUI demo.**
  - The event handler is a class method that queues events call by call
    (`ImguiEvents.GuiAdapter.Event`), proved equal to the pure `Translate`.
  - The window list is a class whose frame loop updates the windows in
    place (`ImguiWindows.DemoImgui.Frame`), proved equal to the pure
    `FrameWindows`.
- **Host.**
  - The registry loop and the device request are methods, proved equal
    to the functions `FirstMatch` and `DeviceRequest`.
  - The surface is a class. Its `Frame` states, for every texture status,
    the outcome the status switch (`ActionFor`) selects, and the calls and
    releases that outcome makes.

Several operations have defects (see "## Findings"). Where they do, a
`Revisions.Revision` parameter selects the behaviour:

- `AsWritten` is the code, and the class methods use it.
- `Corrected` is the evidently intended behaviour, and the lemmas prove
  its properties.

## Model

| member | source | states |
|---|---|---|
| HotReload.Rebuild | src/DemoFragment.cpp:182-184 | the error text is cleared and the pending module becomes the next handle the device creates; no other field changes; exactly one handle is created; as written nothing is released, corrected the previous candidate (if any) is released once |
| HotReload.OnError | src/DemoFragment.cpp:218-220 | the error text becomes the message and nothing else changes, the device log included |
| HotReload.Resize | src/DemoFragment.cpp:222-225 | the uniform size becomes the new size and nothing else changes |
| HotReload.PhaseOf | src/DemoFragment.cpp:273-280 | the three states of the machine: no candidate (idle), a candidate with no error (compiling), a candidate with an error (failed); `Frame` states its effect phase by phase and always ends idle |
| HotReload.Frame | src/DemoFragment.cpp:235-317 | afterwards no module is pending; the frame number goes up by one modulo 2^32 exactly when a pipeline exists; idle: no field but the frame number changes and the log is unchanged; failed: the same, except the candidate is cleared and released; compiling: only the candidate, the frame number and the pipeline change, and the pipeline becomes a newly created handle |
| HotReload.Init | src/DemoFragment.cpp:101-174 | the buffer, layout, bind group and vertex module are the next four handles created, and the candidate the fifth; the error text is cleared; no other field changes; the log gains those five creations and no release |
| HotReload.Cleanup | src/DemoFragment.cpp:227-233 | creates nothing and leaves the fields alone; what it releases is stated by `AsWrittenCleanupCounts` and `CleanupCounts` |
| HotReload.AsWrittenCleanupCounts | src/DemoFragment.cpp:227-233 | as written, cleanup releases each handle, null included, once per field among the pipeline, vertex module, buffer, bind group and layout that holds it; the pending candidate is not among them |
| HotReload.CleanupCounts | src/DemoFragment.cpp:227-233 | corrected cleanup of an initialised demo releases each handle once per field holding it, and never the null handle |
| HotReload.BlankAccounted | src/DemoFragment.cpp:74-76 | a freshly constructed demo on a fresh device satisfies the single-ownership accounting |
| HotReload.InitAccounted | src/DemoFragment.cpp:101-174 | init keeps the single-ownership accounting |
| HotReload.FramePreservesAccounted | src/DemoFragment.cpp:273-317 | every frame keeps the single-ownership accounting: each created handle is held by one field or released once, never both |
| HotReload.PromotionResult | src/DemoFragment.cpp:281-316 | promotion replaces the pipeline by the second handle it creates, clears the candidate and logs the old pipeline (if any), the candidate and the layout as released |
| HotReload.PromotionAccounted | src/DemoFragment.cpp:281-316 | promotion (old pipeline released, layout created and released, candidate released) keeps the accounting |
| HotReload.FrameReleasesPendingOnce | src/DemoFragment.cpp:273-317 | when nothing has been released twice (as written too), a pending candidate is unreleased before the frame and released exactly once after it, whichever way it is resolved |
| HotReload.FramePromotes | src/DemoFragment.cpp:281-316 | when nothing has been released twice (as written too), promotion installs a non-null pipeline different from the old one and never released, and the old pipeline (if any) has been released exactly once |
| HotReload.RebuildWhenIdlePreservesAccounted | src/DemoFragment.cpp:182-184 | a rebuild with nothing pending (or any corrected rebuild) keeps the accounting |
| HotReload.RebuildWhilePendingLeaks | src/DemoFragment.cpp:184 | as written, a rebuild while a candidate is pending leaks that candidate and breaks the accounting |
| HotReload.StepPreservesAccounted | src/DemoFragment.cpp:182-317 | every corrected transition (rebuild, error, frame, resize) keeps the accounting |
| HotReload.RunPreservesAccounted | src/DemoFragment.cpp:182-317 | any corrected sequence of transitions keeps the accounting and whether the demo is initialised |
| HotReload.RebuildPreservesAtMostOnce | src/DemoFragment.cpp:182-184 | a rebuild, as written or corrected, releases no handle twice and never the null handle; as written it may only leak |
| HotReload.FramePreservesAtMostOnce | src/DemoFragment.cpp:273-317 | every frame keeps the at-most-once invariant: each created handle held by at most one field or released at most once, never both |
| HotReload.StepPreservesAtMostOnce | src/DemoFragment.cpp:182-317 | every transition, as written or corrected, keeps the at-most-once invariant |
| HotReload.RunPreservesAtMostOnce | src/DemoFragment.cpp:182-317 | any sequence of transitions, as written or corrected, keeps the at-most-once invariant and whether the demo is initialised |
| HotReload.AsWrittenRunReleasesAtMostOnce | src/DemoFragment.cpp:101-317 | as written, after init and any events no handle has been released more than once and the null handle never |
| HotReload.AsWrittenCleanupAtMostOnce | src/DemoFragment.cpp:227-233 | as written, cleanup of an initialised demo in which nothing was released twice releases no handle twice, the null handle included |
| HotReload.AsWrittenLifetimeReleasesAtMostOnce | src/DemoFragment.cpp:101-233 | as written, init, any events, then cleanup: no handle, the null handle included, is released more than once |
| HotReload.CorrectedCleanupReleasesAll | src/DemoFragment.cpp:227-233 | corrected cleanup of an accounted, initialised demo releases every created handle exactly once and no other handle, null included |
| HotReload.CorrectedLifetimeReleasesEverything | src/DemoFragment.cpp:101-233 | corrected init, any events, then cleanup: every created handle released exactly once, the null handle never |
| HotReload.InitFromBlank | src/DemoFragment.cpp:101-184 | init on a fresh device holds handles 1 to 4 as its resources and 5 as the pending candidate, with nothing released |
| HotReload.AsWrittenRebuildTwiceLeaks | src/DemoFragment.cpp:182-233 | as written, init, a second rebuild, a frame and cleanup leave handle 5 created and never released |
| HotReload.AsWrittenEarlyCleanupLeaks | src/DemoFragment.cpp:227-233 | as written, cleanup before the first frame leaves the candidate (handle 5) unreleased and releases the null pipeline once |
| HotReload.FrameKeepsLeaked | src/DemoFragment.cpp:273-317 | a frame neither releases nor takes back a leaked handle |
| HotReload.LeakIsPermanent | src/DemoFragment.cpp:182-317 | a leaked handle stays leaked under every sequence of transitions as written |
| HotReload.ValidSourceIsPromoted | src/DemoFragment.cpp:182-316 | source that compiles, as written or corrected and whether or not a candidate was already pending: one frame after the rebuild the demo is idle, shows no error, and runs a new pipeline never released; the old one is released once |
| HotReload.InvalidSourceKeepsPipeline | src/DemoFragment.cpp:273-277 | source that fails, as written or corrected and after earlier leaks too: one frame after the error the demo is idle, shows the error, keeps its pipeline and has released the candidate once |
| HotReload.ResubmitKeepsLatest | src/DemoFragment.cpp:182-184 | two rebuilds leave one candidate pending, the one created last |
| FragmentDemo.CStringPrefix | src/DemoFragment.cpp:184 | the text read from the buffer is a prefix of it without NUL, ending at the first NUL or at the end of the buffer |
| FragmentDemo.CStringOfTerminated | src/DemoFragment.cpp:176-179 | text without NUL followed by a terminator reads back as itself, whatever follows |
| FragmentDemo.DemoFragment.constructor | src/DemoFragment.cpp:74-76 | the demo starts with every handle null, no error, zero counters and an all-NUL 65536-character buffer |
| FragmentDemo.DemoFragment.ReplaceShaderCode | src/DemoFragment.cpp:176-179 | the buffer starts with the shader and a NUL, the characters after it are unchanged, and the shader text reads back as the shader |
| FragmentDemo.DemoFragment.Rebuild | src/DemoFragment.cpp:182-184 | fields and device log after the call are those of `HotReload.Rebuild` as written |
| FragmentDemo.DemoFragment.OnError | src/DemoFragment.cpp:218-220 | fields and device log after the call are those of `HotReload.OnError` |
| FragmentDemo.DemoFragment.Resize | src/DemoFragment.cpp:222-225 | fields and device log after the call are those of `HotReload.Resize` |
| FragmentDemo.DemoFragment.Frame | src/DemoFragment.cpp:235-317 | fields and device log after the call are those of `HotReload.Frame` |
| FragmentDemo.DemoFragment.Init | src/DemoFragment.cpp:101-174 | fields and device log after the call are those of `HotReload.Init`, and the buffer holds the initial shader |
| FragmentDemo.DemoFragment.LoadShader | src/DemoFragment.cpp:328-341 | a shader button loads the shader into the buffer and does what `HotReload.Rebuild` as written does |
| FragmentDemo.DemoFragment.Cleanup | src/DemoFragment.cpp:227-233 | the device log after the call is that of `HotReload.Cleanup` as written |
| ImguiEvents.MapKeyCode | src/DemoImgui.cpp:100-208 | the key table, with the period case as written or corrected; its properties are stated by `MapKeyCodeTotal`, `MapKeyCodeSameName`, `PeriodReportedAsApostrophe`, `MapKeyCodeRoundTrip` and `MapKeyCodeInjective` |
| ImguiEvents.MapKeyCodeTotal | src/DemoImgui.cpp:100-208 | the table gives no GUI key exactly for Invalid, WORLD_1, WORLD_2 and F13 to F25 |
| ImguiEvents.MapKeyCodeSameName | src/DemoImgui.cpp:108-190 | never a modifier pseudo-key; digits, letters, keypad digits and F1 to F12 map to the same-named GUI key |
| ImguiEvents.PeriodReportedAsApostrophe | src/DemoImgui.cpp:103-106 | as written, PERIOD and APOSTROPHE both map to the apostrophe key |
| ImguiEvents.MapKeyCodeRoundTrip | src/DemoImgui.cpp:100-208 | corrected, every mapped key is read back from its GUI key |
| ImguiEvents.MapKeyCodeInjective | src/DemoImgui.cpp:100-208 | corrected, no two keys map to the same GUI key |
| ImguiEvents.ModifierEvents | src/DemoImgui.cpp:92-98 | exactly four key events, all for modifier pseudo-keys |
| ImguiEvents.ModifierEventsSynchronise | src/DemoImgui.cpp:92-98 | whatever the GUI held before, afterwards it holds Ctrl, Shift, Alt and Super each exactly when the platform's bit for it is set |
| ImguiEvents.CharPasses | src/DemoImgui.cpp:296-298 | the CHAR filter: code at least 32, not 127, none of Alt, Ctrl, Super; `CharForwarding` and `CharEventCharacter` tie it to what the event queues |
| ImguiEvents.IsCopyOrCut | src/DemoImgui.cpp:277 | X or C with the platform's copy/paste bit set; `ConsumedOnlyCopyOrCut` states that exactly these key events are withheld from the browser |
| ImguiEvents.PasteIntercepted | src/DemoImgui.cpp:285 | V with the mask bit set, the mask being the GUI pseudo-key value as written and the platform bit corrected; `PasteInterceptNeverFires` and `PasteKeyReleaseIntercepted` state its effect on KEY_UP |
| ImguiEvents.PasteSequence | src/DemoImgui.cpp:303-309 | the simulated paste; `PasteIsModifierV` states its four events and that it leaves no key held |
| ImguiEvents.Translate | src/DemoImgui.cpp:219-312 | the GUI events one platform event queues, in order, and whether it is withheld from the browser; `GuiAdapter.Event` is proved equal to it and the lemmas from `CharForwarding` to `PointerCrossingReleasesButtons` state its properties |
| ImguiEvents.ButtonReleases | src/DemoImgui.cpp:251-253 | the releases of buttons 0 to n-1, in order |
| ImguiEvents.CharForwarding | src/DemoImgui.cpp:294-302 | a character reaches the GUI exactly when it is a CHAR event's code, at least 32, not 127, with none of Alt, Ctrl, Super held |
| ImguiEvents.CharEventCharacter | src/DemoImgui.cpp:294-302 | a CHAR event queues a character exactly when it passes the filter, and then only its own code |
| ImguiEvents.NoCharacterOutsideChar | src/DemoImgui.cpp:219-312 | no event other than CHAR queues a character |
| ImguiEvents.PasteIsModifierV | src/DemoImgui.cpp:303-309 | a paste is exactly modifier down, V down, V up, modifier up, leaves no key held, and uses the modifier of the platform's copy/paste bit |
| ImguiEvents.PasteKeyReleaseIntercepted | src/DemoImgui.cpp:282-287 | corrected, releasing V with the copy/paste modifier held gives the modifier updates only, with no key event for V |
| ImguiEvents.PasteInterceptNeverFires | src/DemoImgui.cpp:285 | as written, for every modifier word the platform can produce the intercept does not fire and the release of V is queued |
| ImguiEvents.ConsumedOnlyCopyOrCut | src/DemoImgui.cpp:274-291 | only key events for X or C with the copy/paste modifier are withheld from the browser, and a key press of one always is |
| ImguiEvents.KeyEventsFromKeysOnly | src/DemoImgui.cpp:219-312 | a key event for a real key comes only from a key press, a key release or a paste |
| ImguiEvents.PointerCrossingReleasesButtons | src/DemoImgui.cpp:242-255 | the pointer entering or leaving releases button b exactly when on the web and b < 3 |
| ImguiEvents.GuiAdapter.UpdateModifiers | src/DemoImgui.cpp:92-98 | queues exactly `ModifierEvents` of the modifier word |
| ImguiEvents.GuiAdapter.Event | src/DemoImgui.cpp:219-312 | queues exactly the events of `Translate` as written and consumes exactly when it says |
| ImguiEvents.GuiAdapter.MouseButton | src/DemoImgui.cpp:226-237 | queues the modifier updates, the mouse source and position, then the button event |
| ImguiEvents.GuiAdapter.MouseMove | src/DemoImgui.cpp:238-241 | queues the mouse source then the pointer position |
| ImguiEvents.GuiAdapter.MouseScroll | src/DemoImgui.cpp:256-259 | queues the mouse source then the wheel offsets |
| ImguiEvents.GuiAdapter.ClipboardPasted | src/DemoImgui.cpp:303-309 | queues exactly the paste sequence: copy/paste modifier down, V down, V up, modifier up |
| ImguiEvents.GuiAdapter.KeyDown | src/DemoImgui.cpp:274-281 | queues the modifier updates then the key press, consuming exactly copy and cut |
| ImguiEvents.GuiAdapter.KeyUp | src/DemoImgui.cpp:282-293 | queues the modifier updates and, unless intercepted as written, the key release; consumes copy and cut that are not intercepted |
| ImguiEvents.GuiAdapter.CharInput | src/DemoImgui.cpp:294-302 | queues the modifier updates and the character exactly when it passes the filter |
| ImguiEvents.GuiAdapter.ReleaseButtons | src/DemoImgui.cpp:249-254 | queues the mouse source and, on the web, the releases of buttons 0, 1 and 2 in order |
| ImguiWindows.NatToString | src/DemoImgui.cpp:54 | decimal digits without a leading zero |
| ImguiWindows.ParseNatToString | src/DemoImgui.cpp:54 | the decimal text of n reads back as n |
| ImguiWindows.WindowName | src/DemoImgui.cpp:54 | "Demo-" followed by the position in decimal; `WindowNamesDistinct` states that different positions get different names |
| ImguiWindows.WindowNamesDistinct | src/DemoImgui.cpp:50-56 | windows at different positions get different names |
| ImguiWindows.StepWindow | src/DemoImgui.cpp:327-377 | one window in, one window out |
| ImguiWindows.StepWindowBookkeeping | src/DemoImgui.cpp:328-373 | hidden or empty window: nothing changes; otherwise the stored size becomes the region's, resize and target re-creation happen exactly when the size changed, invalidation exactly when an old texture was released, and the demo draws into the current view last |
| ImguiWindows.ResizeReplacesTarget | src/DemoImgui.cpp:345-371 | a resize releases the old texture and view (if there was a texture) and installs two new, distinct handles |
| ImguiWindows.FrameWindows | src/DemoImgui.cpp:327-377 | the frame keeps the number of windows |
| ImguiWindows.FrameWindowsSizes | src/DemoImgui.cpp:327-377 | window by window: hidden or empty windows unchanged, others take the region's size, names and demos never change |
| ImguiWindows.FrameWindowsKeepsNames | src/DemoImgui.cpp:327-377 | the frame never renames a window |
| ImguiWindows.FrameWindowsResizeCalls | src/DemoImgui.cpp:338-341 | every resize call names a window given a new, non-empty size this frame, with that size |
| ImguiWindows.DemoImgui.constructor | src/DemoImgui.cpp:38 | the window list starts empty |
| ImguiWindows.DemoImgui.AddDemoWindow | src/DemoImgui.cpp:50-56 | appends exactly one open window without a target, named "Demo-" and the count before; windows stay named by position |
| ImguiWindows.DemoImgui.FrameWindow | src/DemoImgui.cpp:328-375 | the window, device log, demo calls and invalidation after one window are those of `StepWindow` |
| ImguiWindows.DemoImgui.Frame | src/DemoImgui.cpp:327-377 | the windows, device log, demo calls and invalidation after the loop are those of `FrameWindows`; windows stay named by position |
| Host.FirstMatch | src/main.cpp:274-279 | the first entry with the wanted name, or none when no entry has it |
| Host.SelectDemo | src/main.cpp:274-279 | the registry loop finds exactly `FirstMatch` |
| Host.FirstMatchUnique | src/main.cpp:274-279 | the first match is the only position satisfying the first-match property |
| Host.MainDecision | src/main.cpp:272-306 | exit code -1 exactly when no entry matches; otherwise the app runs with exit code 0 the factory of the first entry with that name |
| Host.ActionFor | src/main.cpp:191-211 | the status switch: success statuses draw, Timeout, Outdated and Lost skip the frame, the others terminate; `Surface.Frame` states the outcome each one gives |
| Host.Surface.constructor | src/main.cpp:112-115 | `onDevice` leaves the surface configured as 1 x 1; `calls` records only the calls made after `onDevice`, so it starts empty |
| Host.Surface.ReconfigureSurface | src/main.cpp:171-184 | true exactly when the size is non-empty and differs from the configuration; then the configuration takes the size and the surface is configured and the demo resized once; otherwise nothing changes |
| Host.Surface.Frame | src/main.cpp:168-221 | the queue flag never changes; waits exactly when there is no queue, and then changes nothing; returns exactly when the size changed, with the new size configured; otherwise the configuration is kept and the outcome is the one `ActionFor` gives the status: skip statuses release a non-null texture only, fatal statuses exit with -1 and release nothing, success creates a view, draws and presents, then releases the view and the texture |
| Host.DeviceRequest | src/main.cpp:124-159 | the tier-by-tier request as a function of the backend's answers; `DeviceRequestFromFirstTier` and `DeviceRequestBeyondFirstTier` state every outcome, and `Wgpu.RequestDevice` is proved equal to it |
| Host.DeviceRequestFromFirstTier | src/main.cpp:124-159 | from tier 0 the device is acquired exactly when the first request succeeds; a failure ends the process reporting 2 tries |
| Host.DeviceRequestBeyondFirstTier | src/main.cpp:126-136 | any tier other than 0 ends the process reporting the tier plus one |
| Host.Wgpu.constructor | src/main.cpp:262-265 | tier 0, no request made, no device |
| Host.Wgpu.RequestDevice | src/main.cpp:124-159 | the outcome is `DeviceRequest` from the current tier; the device is set only when acquired; one request is made exactly when starting from tier 0; a failure from tier 0 moves to tier 1, and otherwise the tier is kept |

## Left out

- The WebGPU and sokol_app libraries are not part of this model. Their
  key codes, event kinds, modifier bits and GUI key values are taken as
  those libraries define them (`Sapp`, `ImGui`).
- Descriptor construction, queue writes, submission and presentation
  are left out. Command encoders, render-pass encoders and command
  buffers are not in the device log. Every other handle the core creates
  or releases is, including the pipeline layout and the texture view
  that a frame creates and releases within the same call.
- Time and DPI arithmetic are left out because they are floating point:
  - `BufferInfo::width` and `height` are floats in the source. The model
    keeps the integer size that `resize` receives;
  - `bufferInfo.time`;
  - the division of pointer positions by the display scale (a position
    event carries the raw coordinates and the scale);
  - the float to `uint32_t` truncation of a window's content region (a
    `Region` already holds the truncated size).
- The web build's asynchronous compilation-info callback is left out
  because it is backend-driven. Its effect, an error recorded before the
  next frame, is `OnError`.
- The web build's `frame` and `init` in src/main.cpp are left out. The
  native surface set-up (`onDevice`, instance and adapter creation) is
  left out too, as platform plumbing.
- The GUI demo's own `init`, `cleanup` and `resize` are left out because
  they only forward to the GUI backend. So are its render pass and the
  shader editor in `DemoFragment::imgui`. The shader buttons are modelled
  by `LoadShader`.
- The demos embedded in GUI windows are not part of this model. Their
  `resize` and `frame` appear only as recorded calls, so any handles they
  create or release are not in the device log.
- The fragment shader texts are left out: they are data for the GPU. A
  shader is any text without NUL.
- The shader buffer is 65536 Dafny characters, and its length bound
  counts characters. The source's `char[65536]` and `strlen` count the
  bytes of the UTF-8 encoding. So a shader with non-ASCII characters
  takes more room in the source than in the model. Encoding is not
  modelled.
- `sapp_width()`/`sapp_height()` are parameters read once per frame. The
  source's second reconfiguration after a skip status reads them again;
  the model passes the same size, so that reconfiguration changes nothing.
- FragmentDemo.DemoFragment.ReplaceShaderCode: requires the shader to be shorter than
  65536 characters. The source copies without a bound, so a longer
  shader overflows the buffer; the model does not describe that overflow.
- Host.Surface.Frame: on a success status the texture is taken to be a
  handle the surface returned. The source never checks it.
- `DemoFragment::pipeline` is declared without an initialiser. Value
  initialisation by `std::make_unique` zeroes it, so the demo starts with
  a null pipeline, as `FragmentDemo.DemoFragment.constructor` states.

## Findings

| source | as written | input that shows it | evidently intended | confidence | as-written member | corrected member |
|---|---|---|---|---|---|---|
| src/DemoFragment.cpp:184 | `rebuild` overwrites `fragmentModule` without releasing a candidate still pending | init, then press "compile" before the first frame: the module created by init (handle 5) is never released | release a pending candidate before creating the next one | high, not executed | HotReload.RebuildWhilePendingLeaks | HotReload.StepPreservesAccounted |
| src/DemoFragment.cpp:227-233 | `cleanup` releases `pipeline` even when null and never releases a pending `fragmentModule` | init, then cleanup before any frame: `wgpuRenderPipelineRelease(NULL)` is called and handle 5 leaks | release the pending module, and the pipeline only when it exists | high, not executed | HotReload.AsWrittenEarlyCleanupLeaks | HotReload.CorrectedCleanupReleasesAll |
| src/DemoImgui.cpp:106 | `SAPP_KEYCODE_PERIOD` maps to `ImGuiKey_Apostrophe` | a KEY_DOWN of the period key reaches the GUI as the apostrophe key | `ImGuiKey_Period` | high, not executed | ImguiEvents.PeriodReportedAsApostrophe | ImguiEvents.MapKeyCodeInjective |
| src/DemoImgui.cpp:285 | the paste intercept tests `ev->modifiers` against `CopyPasteModifier`, an ImGui pseudo-key value (`1 << 12` or `1 << 15`) | KEY_UP of V with modifiers = `SAPP_MODIFIER_CTRL`: the intercept does not fire and the release of V is queued | test `CopyPasteModifierSokol`, the platform's bit | high, not executed | ImguiEvents.PasteInterceptNeverFires | ImguiEvents.PasteKeyReleaseIntercepted |
