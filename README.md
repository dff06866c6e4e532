# UniGraphics bookkeeping layer, modelled in Dafny

UniGraphics puts one C++ interface over two native graphics libraries: SDL2 (with SDL_image and SDL_ttf) and raylib. This project models the state that the library keeps around those native calls, and proves properties of it:

- **The handle table `ResourceManager<T>`.** A map from integer handles to resources, plus a counter that is post-incremented and starts at 1.
- **The SDL keyboard edge tracker `SDLInput`.** Three scancode sets: keys down, keys pressed since the last event, keys released since the last event. It also holds the total key table `MapKey`.
- **The SDL renderer.** Its texture and font tables, the embedded default font, the guards of the draw calls, and its teardown order. It also contains the integer scan-line fill of `DrawTriangle`, with C++'s truncating division.
- **The two window classes.** The SDL window covers flag translation, create versus reconfigure, the sticky close flag and event forwarding. The raylib window covers flag translation and a shutdown that only acts on a ready window.
- **The backend objects and factories.** This covers staged SDL construction with early aborts, a teardown that always ends in `SDL_Quit`, unconditional raylib construction, the base-class window guard, and both `CreateBackend` functions.
- **The raylib struct converters.**
- **Two build tools:**
  - the path and glob helpers of `nob_util.c`, including the destinations and effects of `move_files`;
  - the log filter of `scripts/generate_compile_commands.py`.

## How native calls are modelled

The native libraries are processes the model cannot see into.

- Each library is a single object holding the ordered log of calls made into it: `SdlNative.SdlLib.calls` and `RaylibNative.RaylibLib.calls`. Teardown order across several objects can therefore be read off one sequence.
- When a native outcome matters (a handle or null, a load that works or fails, `SDL_Init`'s status), the operation receives that outcome as a parameter.
- Native handles are opaque values.
- `Option` stands for a nullable pointer.
- Keys and window flags are datatypes. `CommonTypes.h` is not part of this model; its types are rebuilt from their uses.

## Where the code differs from what its names and examples suggest

The model does what the code does in each of these places.

- **Edges are reset per event, not per frame.** The edge sets are named `m_PressedThisFrame` and `m_ReleasedThisFrame` (src/UniGraphics/backends/sdl/SDLInput.h:26-27). But `ProcessEvents` empties both on every event (SDLInput.cpp:23-24). After a poll, only the last event's edge survives. A poll with no events keeps the previous edges.
- **`Clear` does not reset the handle counter** (ResourceManager.h:20-25). Handles issued after a `Clear` are new.
- **The failure handle is 0.** examples/Capabilities.cpp:45 and :52 test `id == -1` to detect a failed load. But `LoadTexture` returns `{0, 0, 0}` on failure (SDLRenderer.cpp:215, 220) and `LoadFont` returns `{0}` (SDLRenderer.cpp:288).
- **`SDL_Quit` always runs.** The SDL backend's destructor calls it (SDLBackend.cpp:47) even when `SDL_Init` failed at SDLBackend.cpp:14-17. It also runs whether or not another SDL backend is still alive.
- **`CreateBackend(BackendType)` builds only raylib** (IGraphicsBackend.cpp:7-14). It returns null for every other kind, SDL included.
- **The SDL renderer clears a renderer it has already destroyed.** The destructor destroys the native renderer, then calls `ReleaseAllResources` (SDLRenderer.cpp:44-51). That call still sees the handle and issues `RenderClear` on it (SDLRenderer.cpp:75).
- **A slash pattern without `*` scans its whole directory.** A pattern such as `dir/file.c` does not select the single file: it collects every regular file of `dir` (nob_util.c:116-133).

## A choice the code leaves open

The SDL backend builds its window with `std::make_unique<SDLWindow>()` (SDLBackend.cpp:23). The constructor that takes no arguments is commented out (SDLWindow.cpp:5-6), and only `SDLWindow(IInput*)` is declared, so that line does not compile as written.

The model reads the call as `SDLWindow(nullptr)`. That constructor creates the 10x10 native window of SDLWindow.cpp:9 and stores a null input. Its consequences in the model:
- the backend's window forwards events to no input object, and polling an event through it would dereference null;
- construction reaches the renderer whenever SDL returns a native window.

Had the commented-out empty constructor been meant instead, it would create no native window, and SDLBackend.cpp:31-33 would stop before building the renderer.

## Model

| member | source | states |
|---|---|---|
| Resources.ResourceManager.constructor | src/UniGraphics/ResourceManager.h:28-29 | The table starts empty with counter 1, and no handle has been issued. |
| Resources.ResourceManager.Add | src/UniGraphics/ResourceManager.h:7-11 | Returns the old counter and bumps it by one. The handle is at least 1, was never issued and was not a key. `Get` on it yields the resource and every other handle reads as before. Handles stay below the counter. |
| Resources.ResourceManager.Get | src/UniGraphics/ResourceManager.h:13-16 | Gives a value exactly when the handle is a key, and then the stored value; otherwise null. Reads only. |
| Resources.ResourceManager.Remove | src/UniGraphics/ResourceManager.h:18 | Erases only that handle; an absent handle changes nothing. The counter and the issued set are unchanged, so a removed handle is never reissued. |
| Resources.ResourceManager.Clear | src/UniGraphics/ResourceManager.h:20-25 | Hands every stored resource to the deleter exactly once, one per key, and empties the map. The counter is kept. |
| SdlInput.KeyOfMapKey | src/UniGraphics/backends/sdl/SDLInput.cpp:65-287 | `KeyOf` inverts the key table on every listed key. |
| SdlInput.MapKey | src/UniGraphics/backends/sdl/SDLInput.cpp:65-287 | `key_null` and every key of the default branch fall back to `SDL_SCANCODE_UNKNOWN`. |
| SdlInput.LettersAToMRoundTrip | src/UniGraphics/backends/sdl/SDLInput.cpp:65-287 | The table is invertible on the letters A to M. |
| SdlInput.LettersNToZRoundTrip | src/UniGraphics/backends/sdl/SDLInput.cpp:65-287 | The table is invertible on the letters N to Z. |
| SdlInput.DigitRowRoundTrip | src/UniGraphics/backends/sdl/SDLInput.cpp:65-287 | The table is invertible on the digit row, Enter, Escape, Backspace and Tab. |
| SdlInput.PunctuationRoundTrip | src/UniGraphics/backends/sdl/SDLInput.cpp:65-287 | The table is invertible on punctuation, Space and Caps Lock. |
| SdlInput.FunctionKeysRoundTrip | src/UniGraphics/backends/sdl/SDLInput.cpp:65-287 | The table is invertible on F1 to F12. |
| SdlInput.NavigationRoundTrip | src/UniGraphics/backends/sdl/SDLInput.cpp:65-287 | The table is invertible on the editing and navigation keys. |
| SdlInput.KeypadOperatorsRoundTrip | src/UniGraphics/backends/sdl/SDLInput.cpp:65-287 | The table is invertible on the keypad operators. |
| SdlInput.KeypadLowDigitsRoundTrip | src/UniGraphics/backends/sdl/SDLInput.cpp:65-287 | The table is invertible on keypad 1 to 5. |
| SdlInput.KeypadHighDigitsRoundTrip | src/UniGraphics/backends/sdl/SDLInput.cpp:65-287 | The table is invertible on keypad 6 to 9 and 0. |
| SdlInput.KeypadMarksRoundTrip | src/UniGraphics/backends/sdl/SDLInput.cpp:65-287 | The table is invertible on keypad decimal and equals. |
| SdlInput.OthersRoundTrip | src/UniGraphics/backends/sdl/SDLInput.cpp:65-287 | The table is invertible on the modifier, back and volume keys. |
| SdlInput.MapKeyUnknownIffUnlisted | src/UniGraphics/backends/sdl/SDLInput.cpp:65-287 | A key maps to `SDL_SCANCODE_UNKNOWN` exactly when it is `key_null` or falls into the default branch; no listed key maps there. |
| SdlInput.MapKeyInjective | src/UniGraphics/backends/sdl/SDLInput.cpp:65-287 | Listed keys map to pairwise distinct scancodes. |
| SdlInput.Step | src/UniGraphics/backends/sdl/SDLInput.cpp:21-47 | After one event:<br>• pressed ⊆ down, released ∩ down = ∅, and at most one edge remains;<br>• edges come only from the event's own key, and no other key's down state changes;<br>• a press is recorded iff the event is a non-repeat KEYDOWN of a key that was up;<br>• a release is recorded iff the event is a KEYUP. |
| SdlInput.Run | src/UniGraphics/backends/sdl/SDLWindow.cpp:71-76 | No events leave the state as it was. Otherwise the invariant holds and every edge comes from the last event's key. |
| SdlInput.RunExtend | src/UniGraphics/backends/sdl/SDLWindow.cpp:71-76 | One more polled event is one more `ProcessEvents` step. |
| SdlInput.DownAfterRun | src/UniGraphics/backends/sdl/SDLInput.cpp:30-43 | After a run, a key is down iff its last non-repeat KEYDOWN or KEYUP was a press. With neither, it is down iff it was down before. |
| SdlInput.PressedAfterRun | src/UniGraphics/backends/sdl/SDLInput.cpp:23-37 | After a run, a key is pressed iff the last event is its non-repeat KEYDOWN and the key was up just before it. |
| SdlInput.PressLostByLaterEvent | src/UniGraphics/backends/sdl/SDLInput.cpp:23-24 | A press followed by any other event in the same poll is no longer reported as pressed. |
| SdlInput.EdgeScenario | src/UniGraphics/backends/sdl/SDLInput.cpp:21-47 | With one event per frame, the sequence is press, repeat, repeat, release. The key is pressed only in the first frame, down through the repeats, and released only in the last frame. |
| SdlInput.SDLInput.constructor | src/UniGraphics/backends/sdl/SDLInput.cpp:9-13 | All three sets start empty. |
| SdlInput.SDLInput.ProcessEvents | src/UniGraphics/backends/sdl/SDLInput.cpp:21-47 | The new sets are `Step` of the old ones, the last event is recorded, and the invariant is kept. |
| SdlInput.SDLInput.IsKeyDown | src/UniGraphics/backends/sdl/SDLInput.cpp:49-51 | Under the tracker's invariant, a key read as down is never also read as released. |
| SdlInput.SDLInput.IsKeyPressed | src/UniGraphics/backends/sdl/SDLInput.cpp:53-55 | A key reported as pressed is also reported as down. |
| SdlInput.SDLInput.IsKeyReleased | src/UniGraphics/backends/sdl/SDLInput.cpp:57-59 | A key reported as released is reported as up. |
| SdlInput.SDLInput.IsKeyUp | src/UniGraphics/backends/sdl/SDLInput.cpp:61-63 | Up is exactly not down. |
| SdlInput.UnlistedKeysShareUnknownBit | src/UniGraphics/backends/sdl/SDLInput.cpp:49-51 | Every unlisted key reads as down exactly when the `UNKNOWN` scancode is down. |
| SdlRendering.TeardownClearsDestroyedRenderer | src/UniGraphics/backends/sdl/SDLRenderer.cpp:44-51 | With a live renderer, the destructor destroys it. Later, as its very last call, it issues `RenderClear` on the same handle. |
| SdlRendering.RowCallsAreLines | src/UniGraphics/backends/sdl/SDLRenderer.cpp:199-203 | A fill loop's native calls are exactly the lines of `Triangle.Rows`. |
| SdlRendering.TriangleCallsAreSpans | src/UniGraphics/backends/sdl/SDLRenderer.cpp:198-210 | Both fill loops together draw exactly the lines of `Triangle.TriangleSpans`, in order. |
| SdlRendering.SDLRenderer.constructor | src/UniGraphics/backends/sdl/SDLRenderer.cpp:13-42 | Without a window, nothing is built. Otherwise it tries an accelerated renderer, then a software one. The default font opens only when a renderer exists and the memory stream opens. Both tables start empty with counter 1, and the calls are logged in source order. |
| SdlRendering.SDLRenderer.ResolveFont | src/UniGraphics/backends/sdl/SDLRenderer.cpp:306-308 | A stored handle gives its font; any other handle gives the default font. |
| SdlRendering.SDLRenderer.HandleZeroIsDefaultFont | src/UniGraphics/backends/sdl/SDLRenderer.cpp:328-334 | Handle 0, which the size-taking `DrawText` passes, always resolves to the default font. |
| SdlRendering.SDLRenderer.LoadTexture | src/UniGraphics/backends/sdl/SDLRenderer.cpp:213-227 | With no renderer or a failed load, it returns `{0,0,0}` and leaves the table unchanged. Otherwise it returns the table's new handle (at least 1, not previously a key) with the queried size, and the table maps that handle to the texture. Without a renderer it makes no native call. |
| SdlRendering.SDLRenderer.UnloadTexture | src/UniGraphics/backends/sdl/SDLRenderer.cpp:229-235 | A stored texture is destroyed and removed. An unknown handle, or a second call, makes no call and changes nothing. |
| SdlRendering.SDLRenderer.TextureDrawCalls | src/UniGraphics/backends/sdl/SDLRenderer.cpp:237-248 | Past the guard, a draw sets the texture mods and copies, both with the table's answer for the handle. An unknown handle reaches SDL as null. |
| SdlRendering.SDLRenderer.DrawTexture | src/UniGraphics/backends/sdl/SDLRenderer.cpp:237-248 | It draws unless the renderer is null or the handle is 0. No table changes. |
| SdlRendering.SDLRenderer.DrawTextureRegion | src/UniGraphics/backends/sdl/SDLRenderer.cpp:250-263 | It has the same guard and effect as `DrawTexture`. |
| SdlRendering.SDLRenderer.DrawTextureEx | src/UniGraphics/backends/sdl/SDLRenderer.cpp:265-282 | It has the same guard and effect as `DrawTexture`. |
| SdlRendering.SDLRenderer.LoadFont | src/UniGraphics/backends/sdl/SDLRenderer.cpp:284-292 | It does not look at the renderer. A failed open returns `{0}` and leaves the table unchanged. Otherwise it returns the table's new handle, mapped to the font. |
| SdlRendering.SDLRenderer.UnloadFont | src/UniGraphics/backends/sdl/SDLRenderer.cpp:294-300 | A stored font is closed and removed. An unknown handle, or a second call, makes no call and changes nothing. |
| SdlRendering.SDLRenderer.DrawText | src/UniGraphics/backends/sdl/SDLRenderer.cpp:302-326 | Without a renderer, nothing happens. Otherwise it renders once with the resolved font. |
| SdlRendering.SDLRenderer.DrawTextSized | src/UniGraphics/backends/sdl/SDLRenderer.cpp:328-334 | It needs both the renderer and the default font. It resizes the default font, then renders with it. |
| SdlRendering.SDLRenderer.ReleaseAllResources | src/UniGraphics/backends/sdl/SDLRenderer.cpp:71-77 | Every texture is destroyed and every font closed, exactly once each. Both tables end empty with their counters kept, then the renderer is cleared if the handle is set. |
| SdlRendering.SDLRenderer.Destroy | src/UniGraphics/backends/sdl/SDLRenderer.cpp:44-51 | The order is: default font closed, renderer destroyed, then `ReleaseAllResources` with the stale handle. Every table entry is released once. |
| SdlRendering.SDLRenderer.DrawTriangle | src/UniGraphics/backends/sdl/SDLRenderer.cpp:164-211 | Without a renderer, nothing happens. Otherwise it sets the colour, then draws exactly the lines of the sorted triangle's two fill loops. |
| SdlRendering.SDLRenderer.FillSorted | src/UniGraphics/backends/sdl/SDLRenderer.cpp:198-210 | The two `for` loops draw the bottom-half rows, then the top-half rows. |
| SdlRendering.SDLRenderer.DrawSpanCall | src/UniGraphics/backends/sdl/SDLRenderer.cpp:184-188 | `drawSpan` draws one horizontal line on row `y`, left end first, between the two given x values. |
| Triangle.TruncDiv | src/UniGraphics/backends/sdl/SDLRenderer.cpp:195 | This is C++ `/` on `int`. The magnitude is the floor of the magnitudes' quotient, and the sign is the product of the signs. |
| Triangle.TruncDivExact | src/UniGraphics/backends/sdl/SDLRenderer.cpp:195 | An exact multiple divides back to its factor, whatever the signs. |
| Triangle.TruncDivBounded | src/UniGraphics/backends/sdl/SDLRenderer.cpp:195 | If abs(n) ≤ m·d for a positive d, the quotient has magnitude at most m. |
| Triangle.EdgeInterpEndpoints | src/UniGraphics/backends/sdl/SDLRenderer.cpp:192-196 | `edgeInterp` gives `a.x` on row `a.y` and `b.x` on row `b.y`. A flat edge gives `a.x` on every row. |
| Triangle.EdgeInterpBetween | src/UniGraphics/backends/sdl/SDLRenderer.cpp:192-196 | On a row between the edge's end rows, the x lies between the end points' x values. |
| Triangle.SortByY | src/UniGraphics/backends/sdl/SDLRenderer.cpp:176-182 | The three swaps give a permutation of the vertices, ordered by y. |
| Triangle.DrawSpan | src/UniGraphics/backends/sdl/SDLRenderer.cpp:184-188 | A span is on row `y`, with its two ends in order and equal to the inputs in some order. |
| Triangle.Rows | src/UniGraphics/backends/sdl/SDLRenderer.cpp:199-203 | A fill loop over `[lo, hi)` draws `hi - lo` spans, or none when the range is empty. |
| Triangle.RowsAt | src/UniGraphics/backends/sdl/SDLRenderer.cpp:199-203 | The i-th span of a loop is the span for row `lo + i` between the two interpolated edges. |
| Triangle.TriangleRowCount | src/UniGraphics/backends/sdl/SDLRenderer.cpp:198-210 | Every row from the lowest to the highest vertex is drawn, in order. The middle vertex's row is drawn twice, so there are `maxY - minY + 2` spans. |
| Triangle.SpanInBox | src/UniGraphics/backends/sdl/SDLRenderer.cpp:200-202 | A span between two edges whose end points lie in `[lo, hi]` stays in `[lo, hi]`. |
| Triangle.RowsInBox | src/UniGraphics/backends/sdl/SDLRenderer.cpp:199-203 | Every span of a loop that stays within both edges' rows lies within the edges' x range. |
| Triangle.TriangleSpansInBox | src/UniGraphics/backends/sdl/SDLRenderer.cpp:164-211 | No span leaves the triangle's bounding box, and every span is ordered. |
| SdlWindowing.SdlFlags | src/UniGraphics/backends/sdl/SDLWindow.cpp:18-29 | `SHOWN` is always set. Fullscreen, borderless, resizable, hidden and always-on-top are each set exactly when asked. No other bit is set. |
| SdlWindowing.SdlFlagsIgnoreVsync | src/UniGraphics/backends/sdl/SDLWindow.cpp:18-29 | Vsync has no influence on the flags. |
| SdlWindowing.ReconfigureAgreesWithCreateFlags | src/UniGraphics/backends/sdl/SDLWindow.cpp:32-46 | Reconfiguring applies fullscreen, border, always-on-top and resizable exactly as the creation flags would. It depends on no other option, so hidden and vsync are ignored. |
| SdlWindowing.SDLWindow.constructor | src/UniGraphics/backends/sdl/SDLWindow.cpp:8-11 | It already creates a 10x10 untitled window and keeps the input pointer. The window does not close and does not pace. |
| SdlWindowing.SDLWindow.Create | src/UniGraphics/backends/sdl/SDLWindow.cpp:17-52 | An existing window is reconfigured in place and true is returned; no second window is made. Otherwise a window is created with `SdlFlags`, and the result says whether SDL returned one. |
| SdlWindowing.SDLWindow.SetTitle | src/UniGraphics/backends/sdl/SDLWindow.cpp:54-57 | It renames the window, or makes no call without one. |
| SdlWindowing.SDLWindow.PollEvents | src/UniGraphics/backends/sdl/SDLWindow.cpp:69-86 | The close flag is set iff it was set or a QUIT was polled; nothing clears it. Every event, QUIT included, is forwarded to the input in order. With no events, the input is untouched. |
| SdlWindowing.SDLWindow.Shutdown | src/UniGraphics/backends/sdl/SDLWindow.cpp:88-93 | It destroys and nulls a present window; without one it makes no call. |
| SdlWindowing.SDLWindow.Destroy | src/UniGraphics/backends/sdl/SDLWindow.cpp:13-15 | The destructor is `Shutdown`. |
| SdlWindowing.SDLWindow.SetTargetFPS | src/UniGraphics/backends/sdl/SDLWindow.cpp:95-101 | Pacing is on iff the rate is positive. |
| SdlWindowing.ShutdownTwice | src/UniGraphics/backends/sdl/SDLWindow.cpp:88-93 | Two shutdowns make at most one native call. |
| SdlBackends.BackendConstructionCalls | src/UniGraphics/backends/sdl/SDLBackend.cpp:13-41 | The calls are: `SDL_Init`; then, only on success, the window's 10x10 window; then, only when it exists, a renderer bound to that native window. |
| SdlBackends.TeardownOrder | src/UniGraphics/backends/sdl/SDLBackend.cpp:43-48 | All renderer calls come first, then the window's destruction. `SDL_Quit` is the last call and occurs only there. |
| SdlBackends.SDLBackend.constructor | src/UniGraphics/backends/sdl/SDLBackend.cpp:13-41 | If init fails, nothing is built. The window is the 10x10 window of `SDLWindow(nullptr)`, the model's reading of the uncompilable no-argument call, so it holds no input. A window without a native handle gets no renderer and no input. Otherwise the renderer is built on that handle and a fresh input comes last. |
| SdlBackends.SDLBackend.Destroy | src/UniGraphics/backends/sdl/SDLBackend.cpp:43-48 | The order is renderer teardown, then window shutdown, then input, then `SDL_Quit`, which runs even when init failed. Every table entry is released once. |
| SdlBackends.SDLBackend.BaseDestroy | src/UniGraphics/core/GraphicsBackend.cpp:13-16 | It shuts the window down only when `m_Window` is held. |
| SdlBackends.SDLBackend.Delete | src/UniGraphics/core/GraphicsBackend.cpp:13-16 | After the derived destructor, the base destructor finds no window and makes no second `Shutdown`. |
| GraphicsBackend.SelectedBackend | src/UniGraphics/core/GraphicsBackend.cpp:18-27 | `USE_SDL` wins. Otherwise `USE_RAYLIB` selects raylib. With neither, the build is rejected. |
| GraphicsBackend.CreateDefaultBackend | src/UniGraphics/core/GraphicsBackend.cpp:18-27 | It returns a fresh backend of exactly the selected kind. |
| BackendFactory.CreateBackend | src/UniGraphics/IGraphicsBackend.cpp:7-14 | The result is non-null iff the kind is Raylib, and is then a fresh valid backend. No native call is made. |
| BackendFactory.CreateTwice | src/UniGraphics/IGraphicsBackend.cpp:10 | Two successful calls return distinct instances. |
| RaylibBackends.RaylibBackend.constructor | src/UniGraphics/backends/raylib/RaylibBackend.cpp:9-13 | It builds window, input and renderer, all fresh, with no abort path and no native call. |
| RaylibBackends.RaylibBackend.BaseDestroy | src/UniGraphics/core/GraphicsBackend.cpp:13-16 | The base destructor closes a ready window, and otherwise makes no call. |
| RaylibBackends.RaylibBackend.Delete | src/UniGraphics/backends/raylib/RaylibBackend.cpp:15-17 | The empty destructor, then the base one, then the window's own: at most one `CloseWindow`. |
| RaylibWindowing.RaylibFlags | src/UniGraphics/backends/raylib/RaylibWindow.cpp:13-26 | Each option sets exactly its raylib flag, and no other bit is set. |
| RaylibWindowing.RaylibFlagsEmpty | src/UniGraphics/backends/raylib/RaylibWindow.cpp:13 | No options give 0. |
| RaylibWindowing.RaylibFlagsUnion | src/UniGraphics/backends/raylib/RaylibWindow.cpp:13-26 | The flags of a union are the OR of the parts' flags. |
| RaylibWindowing.RaylibFlagsInjective | src/UniGraphics/backends/raylib/RaylibWindow.cpp:15-26 | Different option sets give different flags. |
| RaylibWindowing.RaylibWindow.constructor | src/UniGraphics/backends/raylib/RaylibWindow.cpp:5-6 | It makes no native call. |
| RaylibWindowing.RaylibWindow.Create | src/UniGraphics/backends/raylib/RaylibWindow.cpp:12-31 | It sets the config flags before `InitWindow` and returns whether the window is ready. |
| RaylibWindowing.RaylibWindow.SetTitle | src/UniGraphics/backends/raylib/RaylibWindow.cpp:33-35 | The title is forwarded unconditionally. |
| RaylibWindowing.RaylibWindow.PollEvents | src/UniGraphics/backends/raylib/RaylibWindow.cpp:45-47 | It does nothing. |
| RaylibWindowing.RaylibWindow.Shutdown | src/UniGraphics/backends/raylib/RaylibWindow.cpp:49-53 | It closes only a ready window, so a second call makes no call. |
| RaylibWindowing.RaylibWindow.Destroy | src/UniGraphics/backends/raylib/RaylibWindow.cpp:8-10 | The destructor is `Shutdown`. |
| RaylibWindowing.RaylibWindow.SetTargetFPS | src/UniGraphics/backends/raylib/RaylibWindow.cpp:55-57 | The rate is forwarded unchanged, including zero and negative rates. |
| RaylibConverter.ToRaylibVector2 | src/UniGraphics/backends/raylib/RaylibConverter.h:9-11 | `FromRaylib` undoes it. |
| RaylibConverter.ToRaylibVector3 | src/UniGraphics/backends/raylib/RaylibConverter.h:13-15 | x, y and z are copied unchanged. |
| RaylibConverter.ToRaylibColor | src/UniGraphics/backends/raylib/RaylibConverter.h:17-19 | `FromRaylib` undoes it. |
| RaylibConverter.ToRaylibRectangle | src/UniGraphics/backends/raylib/RaylibConverter.h:21-23 | `FromRaylib` undoes it. The float casts change nothing. |
| RaylibConverter.FromRaylibRoundTrips | src/UniGraphics/backends/raylib/RaylibConverter.h:26-36 | `ToRaylib` undoes `FromRaylib` for Vector2, Color and Rectangle. |
| Strings.IndexOf | nob_util.c:108 | `strchr`: the first position of the character; none iff it does not occur. |
| Strings.LastIndexOf | nob_util.c:116 | `strrchr`: a position holding the character. |
| Strings.LastIndexOfIsLast | nob_util.c:207 | None iff the character does not occur. Otherwise, no occurrence follows the position found. |
| Strings.FindFrom | nob_util.c:100 | It finds the first occurrence at or after a start position. |
| Strings.FindSubstring | nob_util.c:100 | `strstr`: the first occurrence; none occurs before it. |
| NobUtil.Join | nob_util.c:19-27 | `a`, then `/`, then `b`, with length abs(a) + 1 + abs(b). |
| NobUtil.JoinPath | nob_util.c:19-27 | A fresh buffer holding the joined path and the terminating NUL. |
| NobUtil.EndsWithIffSuffix | nob_util.c:30-33 | `ends_with` holds iff the string is something followed by the suffix. The empty suffix always matches. |
| NobUtil.EndsWithJoin | nob_util.c:55-57 | A joined path ends with whatever its last part ends with. |
| NobUtil.BasenameOnly | nob_util.c:206-209 | The result has no slash and ends the path. It is the whole path when there is no slash, and otherwise starts right after a slash. |
| NobUtil.BasenameOfJoin | nob_util.c:206-209 | The base name of `join_path(a, b)` is `b` when `b` has no slash. |
| NobUtil.ExtAfterStar | nob_util.c:108-109 | The extension starts at the first `.` after the first `*` and runs to the end. It is none iff there is no such `.`. |
| NobUtil.ParsePattern | nob_util.c:99-135 | The classification is:<br>• `/**/` present: a recursive scan of the prefix before its first occurrence;<br>• no slash: the literal file iff there is no `*`;<br>• otherwise: a flat scan of the part before the last slash.<br>Extensions come from the text after `/**/` or after the last slash. |
| NobUtil.SlashedLiteralScansWholeDir | nob_util.c:116-133 | `d/f` with no `*` in `f` scans all of `d` with no extension filter. |
| NobUtil.DirMatches | nob_util.c:80-93 | A flat scan keeps at most one path per entry. Every kept path is a regular file inside the directory with the wanted extension. |
| NobUtil.DirMatchesMembers | nob_util.c:80-93 | A flat scan keeps a path iff it is the join of a listed entry other than `.` and `..` and is a wanted regular file. `dir/.` and `dir/..` are never kept. |
| NobUtil.TreeMatchesWanted | nob_util.c:40-67 | Everything a recursive scan collects is a wanted regular file below its root. |
| NobUtil.ChildrenMatchesWanted | nob_util.c:45-64 | The same holds for the entry loop of a recursive scan. |
| NobUtil.ChildrenMatchesMembers | nob_util.c:45-64 | The entry loop of a recursive scan collects a path iff some entry other than `.` and `..` yields it: as a wanted regular file, or through its own scan when it is a directory. |
| NobUtil.TreeMatchesMembers | nob_util.c:40-67 | An unreadable directory yields nothing. Otherwise a recursive scan collects exactly what the entries of its listing yield. |
| NobUtil.CollectFromDirRecursive | nob_util.c:40-67 | It appends the tree's wanted files depth first, in listing order, skipping `.` and `..`. An unreadable directory adds nothing. |
| NobUtil.CollectFromDir | nob_util.c:70-96 | It does the recursive scan, or appends one level of wanted regular files. |
| NobUtil.PatternMatchesAreRegularFiles | nob_util.c:99-135 | Every path a pattern collects is a regular file. |
| NobUtil.CollectFilesByPattern | nob_util.c:99-135 | It appends exactly the files the pattern's plan selects. |
| NobUtil.DestPath | nob_util.c:144-150 | The destination starts with `dst_path/`, and its length is as computed. |
| NobUtil.DestPathRelocates | nob_util.c:144-150 | The file `src/rel` goes to `dst/rel`. |
| NobUtil.FileOps | nob_util.c:150-161 | A file's effects are: create a directory, then copy the file to its destination. |
| NobUtil.FileOpsMakeDestinationDir | nob_util.c:152-158 | The directory created lies inside `dst_path` and is the directory part of the copy's destination. |
| NobUtil.MoveOps | nob_util.c:140-169 | Moving n files makes 3n effects. |
| NobUtil.MoveOpsCopies | nob_util.c:160-161 | File j is copied to its destination at effect 3j+1. |
| NobUtil.MoveOpsDeletesAfterCopy | nob_util.c:167-168 | File j is deleted at effect 3j+2, right after its own copy. |
| NobUtil.FirstFailure | nob_util.c:160-165 | This is the index of the first failed copy, or the count when none fails. |
| NobUtil.MoveFiles | nob_util.c:138-173 | It succeeds iff no copy fails. On success, every file is copied and then deleted. Otherwise it stops right after the first failed copy, with nothing deleted from that file on. |
| NobUtil.CopyStep | nob_util.c:144-161 | It builds the destination, creates its directory and copies: the effects are `FileOps`. |
| CompileCommands.Strip | scripts/generate_compile_commands.py:29 | The result starts right after the leading whitespace, and everything after it is whitespace. It neither starts nor ends with whitespace, and it is empty iff the line is all whitespace. |
| CompileCommands.SecondField | scripts/generate_compile_commands.py:32 | `split(sep)[1]` starts right after the first separator. No separator starts inside it, and it ends at the end of the line or where the next separator starts. It is none iff the separator is absent. |
| CompileCommands.MarkerInLine | scripts/generate_compile_commands.py:29-32 | A kept line contains the marker, so the split always has a second field. |
| CompileCommands.MatchIsRun | scripts/generate_compile_commands.py:41 | A match's group is the whole whitespace-free run after the leading whitespace. |
| CompileCommands.FindCpp | scripts/generate_compile_commands.py:41-43 | `re.search` returns the leftmost match and its group; no earlier position matches. |
| CompileCommands.ParseLineKeeps | scripts/generate_compile_commands.py:29-45 | A line gives an entry iff all of these hold: it is marked; its command starts with `g++`; a `\s\S+\.cpp\s` match exists. The entry holds the project directory, the command and the leftmost match's group. |
| CompileCommands.ArSkipSubsumed | scripts/generate_compile_commands.py:35-38 | An `ar ` command never starts with `g++`. |
| CompileCommands.Collect | scripts/generate_compile_commands.py:28-48 | There are at most as many entries as lines. |
| CompileCommands.CollectAppend | scripts/generate_compile_commands.py:28-48 | Entries keep log order across any split of the log. |
| CompileCommands.CommandsAppend | scripts/generate_compile_commands.py:28-48 | Processing a log in two parts gives the two parts' entries, in order. |
| CompileCommands.CollectAll | scripts/generate_compile_commands.py:45-48 | A property of every parsed line holds for every collected entry. |
| CompileCommands.CommandsAreCompilations | scripts/generate_compile_commands.py:28-48 | Every entry carries the project directory, a `g++` command and a file ending in `.cpp` with at least one character before it. There are at most as many entries as lines. |
| CompileCommands.CollectCommands | scripts/generate_compile_commands.py:28-48 | The loop appends exactly the entries `Commands` defines. |

## Left out

- Native library internals are not modelled: rendering, image decoding, font rasterising and the event queue. Calls appear only as log entries, and their outcomes are parameters.
- Floating-point geometry is left out. This covers `DrawLine`, `DrawCircle`, `DrawRectangle*`, `DrawPixel`, `Clear`, `BeginDrawing` and `EndDrawing` (SDLRenderer.cpp:53-162), and the scale, origin and rotation of `DrawTextureEx`. The texture and text draws keep only their guards and the handles they pass.
- `DrawTriangle` starts after the float-to-`int` casts; the casts themselves are not modelled.
- 32-bit overflow of the `edgeInterp` product is not modelled, because integers are unbounded here.
- SdlRendering.SDLRenderer.DrawText: the rasterise, texture, copy and free steps are one native step, and the failure paths of `TTF_RenderText_Solid` and `SDL_CreateTextureFromSurface` (SDLRenderer.cpp:312-321) are not modelled separately.
- Frame pacing is reduced to a boolean. The timing (`SDL_GetTicks`, `SDL_Delay`, the `1.0f / fps` target, `GetDeltaTime`'s shared static clock and `GetTicks`) is left out because it is clocks and floats.
- `SDLWindow::GetSize`, and `RaylibWindow`'s `GetSize`, `ShouldClose`, `GetDeltaTime` and `GetTicks`, only query the native library, and are left out. `SDLWindow::ShouldClose` reads the close flag and is modelled.
- `SDLInput::GetHandle` returns the recorded last event (`lastEvent`); it carries no contract of its own.
- The raylib renderer and input only forward to raylib, and are empty classes here.
- Resources.ResourceManager.Add: the counter's `int` overflow is excluded by a precondition rather than modelled, because it is undefined behaviour in C++.
- Resources.ResourceManager.Clear: the unordered map's visiting order is fixed to increasing handles, which is one of the orders it may produce.
- In `move_files`, a failed `malloc` (which silently skips the file) is not modelled. The copy outcomes are a parameter, and the directory creation is an effect without an outcome.
- The directory reads of the scans use a file-system snapshot whose listings are bounded in path length (`maxPath`), so the recursion provably ends. A snapshot with an unbounded chain of directories is outside the model.
- The Python script's file reading, `splitlines` and JSON writing are left out: the model takes the log as a list of lines.
- Whitespace is ASCII whitespace plus U+001C to U+001F. Unicode spaces beyond that are not recognised by `IsSpace`.
- The `IndexError` a marked line could raise at `split(...)[1]` cannot happen, as `MarkerInLine` shows, so it has no error path.
- The build orchestration (`nob.c`, `make_lib.py`), the archive and run helpers of `nob_util.c`, and the example programs are not part of this model.
- `CommonTypes.h` is not part of this model; `Key`, `WindowFlags` and `BackendType` are rebuilt from their uses.
- The order in which `RaylibBackend`'s members are constructed is not observable, since none of their constructors calls into raylib. The model therefore states only that all three exist afterwards.
