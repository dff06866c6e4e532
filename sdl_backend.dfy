/**
 * The SDL backend (src/UniGraphics/backends/sdl/SDLBackend.cpp): staged
 * construction of window, renderer and input with early aborts, and a fixed
 * teardown order that ends in `SDL_Quit`. The members inherited from
 * `GraphicsBackend` are the three nullable fields.
 */
module SdlBackends {
  import opened Wrappers
  import opened SdlNative
  import opened Resources
  import SdlInput
  import opened SdlWindowing
  import opened SdlRendering
  import opened Sequences

  /** What each native call made during construction returned. */
  datatype NativeOutcomes = NativeOutcomes(
    initOk: bool,
    window: Option<WindowHandle>,
    accelerated: Option<RendererHandle>,
    software: Option<RendererHandle>,
    fontMemoryOk: bool,
    embeddedFont: Option<FontHandle>)

  /**
   * The calls the constructor makes: `SDL_Init`; on success the window's own
   * 10x10 window; with a native window, the renderer's construction on it.
   */
  function BackendConstructionCalls(n: NativeOutcomes): (calls: seq<Call>)
    ensures |calls| >= 1 && calls[0] == Init(n.initOk)
    ensures !n.initOk ==> |calls| == 1
    ensures n.initOk ==> |calls| >= 2 && calls[1] == CreateWindow("", 10, 10, 0, n.window)
    ensures n.initOk && n.window.None? ==> |calls| == 2
    ensures n.initOk && n.window.Some? ==>
              |calls| >= 3 && calls[2] == CreateRenderer(n.window.value, Accelerated, n.accelerated)
    ensures forall i :: 0 <= i < |calls| && calls[i].CreateRenderer? ==> n.window == Some(calls[i].window)
  {
    [Init(n.initOk)] +
    if !n.initOk then []
    else [CreateWindow("", 10, 10, 0, n.window)] +
         ConstructionCalls(n.window, n.accelerated, n.software, n.fontMemoryOk, n.embeddedFont)
  }

  /**
   * The destructor's calls: the renderer's teardown (`rendererCalls`), then
   * the window's `Shutdown`, then `SDL_Quit`, which is always made.
   */
  function BackendTeardownCalls(rendererCalls: seq<Call>, nativeWindow: Option<WindowHandle>): seq<Call>
  {
    rendererCalls + (if nativeWindow.Some? then [DestroyWindow(nativeWindow.value)] else []) + [Quit]
  }

  /**
   * Teardown order: everything the renderer does comes first, the window is
   * destroyed after it, and `SDL_Quit` is the one and only last call.
   */
  lemma {:induction false} TeardownOrder(rendererCalls: seq<Call>, nativeWindow: Option<WindowHandle>)
    requires Quit !in rendererCalls
    ensures var t := BackendTeardownCalls(rendererCalls, nativeWindow);
            t[..|rendererCalls|] == rendererCalls &&
            (nativeWindow.Some? ==> t[|rendererCalls|] == DestroyWindow(nativeWindow.value)) &&
            t[|t| - 1] == Quit &&
            forall i :: 0 <= i < |t| - 1 ==> t[i] != Quit
  {
    var t := BackendTeardownCalls(rendererCalls, nativeWindow);
    var windowCalls := if nativeWindow.Some? then [DestroyWindow(nativeWindow.value)] else [];
    assert t == rendererCalls + windowCalls + [Quit];
    forall i | 0 <= i < |t| - 1
      ensures t[i] != Quit
    {
      if i < |rendererCalls| {
        assert t[i] == rendererCalls[i];
      } else {
        assert t[i] == windowCalls[i - |rendererCalls|];
      }
    }
  }

  class SDLBackend {
    const lib: SdlLib
    /** `m_Window`, `m_Renderer`, `m_Input`; `null` where construction stopped. */
    var window: SDLWindow?
    var renderer: SDLRenderer?
    var input: SdlInput.SDLInput?

    /** The renderer's handle tables, which its teardown modifies. */
    ghost function Tables(): set<object>
      reads this
    {
      if renderer != null then {renderer.textures, renderer.fonts} else {}
    }

    ghost predicate Valid()
      reads this, renderer, Tables()
    {
      (window != null ==> window.lib == lib) &&
      (renderer != null ==> renderer.lib == lib && renderer.Valid())
    }

    /** The native window behind `m_Window`, if both exist. */
    function NativeWindow(): Option<WindowHandle>
      reads this, window
    {
      if window == null then None else window.window
    }

    /**
     * `SDL_Init` failure builds nothing; a window without a native handle gets
     * no renderer and no input; otherwise the renderer is built on that
     * handle and the input comes last. The window is built by the
     * input-less constructor, so it forwards events to no input.
     */
    constructor (lib: SdlLib, n: NativeOutcomes)
      modifies lib
      ensures this.lib == lib && Valid()
      ensures lib.calls == old(lib.calls) + BackendConstructionCalls(n)
      ensures window != null <==> n.initOk
      ensures window != null ==> fresh(window) && window.window == n.window && window.input == null &&
                                 !window.shouldClose && !window.pacing
      ensures renderer != null <==> n.initOk && n.window.Some?
      ensures input != null <==> renderer != null
      ensures renderer != null ==>
                fresh(renderer) && fresh(renderer.textures) && fresh(renderer.fonts) &&
                renderer.renderer == (if n.accelerated.Some? then n.accelerated else n.software) &&
                renderer.textures.resources == map[] && renderer.fonts.resources == map[]
      ensures input != null ==> fresh(input) && input.Valid() && input.State() == SdlInput.Initial
    {
      this.lib := lib;
      window := null;
      renderer := null;
      input := null;
      new;
      lib.calls := lib.calls + [Init(n.initOk)];
      if !n.initOk {
        return;
      }
      ghost var afterInit := lib.calls;
      window := new SDLWindow(lib, null, n.window);
      if window.window.None? {
        return;
      }
      renderer := new SDLRenderer(lib, window.window, n.accelerated, n.software, n.fontMemoryOk, n.embeddedFont);
      input := new SdlInput.SDLInput();
      SeqAssoc(afterInit[..|afterInit| - 1], [Init(n.initOk)],
               [CreateWindow("", 10, 10, 0, n.window)] +
               ConstructionCalls(n.window, n.accelerated, n.software, n.fontMemoryOk, n.embeddedFont));
    }

    /**
     * The destructor body: reset the renderer (its own teardown), then the
     * window (its `Shutdown`), then the input, then `SDL_Quit`, whether or
     * not `SDL_Init` succeeded.
     */
    method Destroy() returns (ghost releasedTextures: seq<TextureHandle>, ghost releasedFonts: seq<FontHandle>)
      requires Valid()
      modifies this, lib, window, renderer, Tables()
      ensures window == null && renderer == null && input == null
      ensures old(renderer) == null ==>
                lib.calls == old(lib.calls) + BackendTeardownCalls([], old(NativeWindow()))
      ensures old(renderer) != null ==>
                ReleasedOnce(releasedTextures, old(renderer.textures.resources)) &&
                ReleasedOnce(releasedFonts, old(renderer.fonts.resources)) &&
                lib.calls == old(lib.calls) +
                  BackendTeardownCalls(TeardownCalls(old(renderer.defaultFont), old(renderer.renderer),
                                                     DestroyTextureCalls(releasedTextures),
                                                     CloseFontCalls(releasedFonts)),
                                       old(NativeWindow()))
    {
      ghost var before := lib.calls;
      ghost var nativeWindow := NativeWindow();
      ghost var rendererCalls: seq<Call> := [];
      releasedTextures, releasedFonts := [], [];
      if renderer != null {
        releasedTextures, releasedFonts := renderer.Destroy();
        rendererCalls := lib.calls[|before|..];
        renderer := null;
      }
      assert lib.calls == before + rendererCalls;
      ghost var windowCalls: seq<Call> := [];
      if window != null {
        window.Destroy();
        windowCalls := lib.calls[|before + rendererCalls|..];
        window := null;
      }
      assert windowCalls == if nativeWindow.Some? then [DestroyWindow(nativeWindow.value)] else [];
      input := null;
      lib.calls := lib.calls + [Quit];
      SeqAssoc3(before, rendererCalls, windowCalls, [Quit]);
    }

    /**
     * The inherited `GraphicsBackend` destructor: shut the window down only if
     * `m_Window` is still held.
     */
    method BaseDestroy()
      requires Valid()
      modifies lib, window
      ensures window == null ==> lib.calls == old(lib.calls)
      ensures window != null ==>
                window.window.None? &&
                lib.calls == old(lib.calls) +
                  (if old(window.window).Some? then [DestroyWindow(old(window.window).value)] else [])
    {
      if window != null {
        window.Shutdown();
      }
    }

    /**
     * Deleting the backend: the derived destructor, then the inherited one,
     * which finds `m_Window` already reset and makes no second `Shutdown`.
     */
    method Delete() returns (ghost releasedTextures: seq<TextureHandle>, ghost releasedFonts: seq<FontHandle>)
      requires Valid()
      modifies this, lib, window, renderer, Tables()
      ensures window == null && renderer == null && input == null
      ensures old(renderer) == null ==>
                lib.calls == old(lib.calls) + BackendTeardownCalls([], old(NativeWindow()))
      ensures old(renderer) != null ==>
                lib.calls == old(lib.calls) +
                  BackendTeardownCalls(TeardownCalls(old(renderer.defaultFont), old(renderer.renderer),
                                                     DestroyTextureCalls(releasedTextures),
                                                     CloseFontCalls(releasedFonts)),
                                       old(NativeWindow()))
    {
      releasedTextures, releasedFonts := Destroy();
      BaseDestroy();
    }
  }
}
