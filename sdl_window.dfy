/**
 * The SDL window (src/UniGraphics/backends/sdl/SDLWindow.cpp): the native
 * window handle, the sticky close request, frame pacing on or off, and the
 * input object every polled event is forwarded to.
 */
module SdlWindowing {
  import opened Wrappers
  import opened Common
  import opened SdlNative
  import SdlInput

  /**
   * The flags `Create` passes to `SDL_CreateWindow`: `SHOWN` plus one bit for
   * each of fullscreen, borderless, resizable, hidden and always-on-top.
   * SDL has no window flag for vsync, which is dropped.
   */
  function SdlFlags(f: WindowFlags): (bits: bv32)
    ensures bits & SDL_WINDOW_SHOWN != 0
    ensures bits & SDL_WINDOW_FULLSCREEN != 0 <==> f.fullscreen
    ensures bits & SDL_WINDOW_BORDERLESS != 0 <==> f.borderless
    ensures bits & SDL_WINDOW_RESIZABLE != 0 <==> f.resizable
    ensures bits & SDL_WINDOW_HIDDEN != 0 <==> f.hidden
    ensures bits & SDL_WINDOW_ALWAYS_ON_TOP != 0 <==> f.alwaysOnTop
    ensures bits & !(SDL_WINDOW_SHOWN | SDL_WINDOW_FULLSCREEN | SDL_WINDOW_BORDERLESS |
                     SDL_WINDOW_RESIZABLE | SDL_WINDOW_HIDDEN | SDL_WINDOW_ALWAYS_ON_TOP) == 0
  {
    SDL_WINDOW_SHOWN
    | (if f.fullscreen then SDL_WINDOW_FULLSCREEN else 0)
    | (if f.borderless then SDL_WINDOW_BORDERLESS else 0)
    | (if f.resizable then SDL_WINDOW_RESIZABLE else 0)
    | (if f.hidden then SDL_WINDOW_HIDDEN else 0)
    | (if f.alwaysOnTop then SDL_WINDOW_ALWAYS_ON_TOP else 0)
  }

  /** Vsync never reaches SDL: two masks that differ only in vsync give the same flags. */
  lemma SdlFlagsIgnoreVsync(f: WindowFlags)
    ensures SdlFlags(f) == SdlFlags(f.(vsync := !f.vsync))
  {
  }

  /**
   * The calls `Create` makes on an existing window: title, size, centre, then
   * fullscreen (desktop mode or windowed), border, always-on-top and resizable.
   */
  function ReconfigureCalls(w: WindowHandle, title: string, width: int, height: int, f: WindowFlags): (calls: seq<Call>)
  {
    [ SetWindowTitle(w, title), SetWindowSize(w, width, height), SetWindowPositionCentered(w),
      SetWindowFullscreen(w, if f.fullscreen then SDL_WINDOW_FULLSCREEN_DESKTOP else 0),
      SetWindowBordered(w, !f.borderless),
      SetWindowAlwaysOnTop(w, f.alwaysOnTop),
      SetWindowResizable(w, f.resizable) ]
  }

  /**
   * Reconfiguring applies the same fullscreen, border, always-on-top and
   * resizable choices that a fresh window would get from `SdlFlags`, and
   * ignores hidden and vsync: the result depends on no other option.
   */
  lemma ReconfigureAgreesWithCreateFlags(w: WindowHandle, title: string, width: int, height: int,
                                         f: WindowFlags, g: WindowFlags)
    requires f.fullscreen == g.fullscreen && f.borderless == g.borderless
    requires f.resizable == g.resizable && f.alwaysOnTop == g.alwaysOnTop
    ensures var calls := ReconfigureCalls(w, title, width, height, f);
            |calls| == 7 &&
            (calls[3].mode & SDL_WINDOW_FULLSCREEN != 0 <==> SdlFlags(f) & SDL_WINDOW_FULLSCREEN != 0) &&
            (!calls[4].bordered <==> SdlFlags(f) & SDL_WINDOW_BORDERLESS != 0) &&
            (calls[5].onTop <==> SdlFlags(f) & SDL_WINDOW_ALWAYS_ON_TOP != 0) &&
            (calls[6].resizable <==> SdlFlags(f) & SDL_WINDOW_RESIZABLE != 0)
    ensures ReconfigureCalls(w, title, width, height, f) == ReconfigureCalls(w, title, width, height, g)
  {
  }

  class SDLWindow {
    const lib: SdlLib
    /** `m_Input`; the pointer is never checked before an event is forwarded. */
    const input: SdlInput.SDLInput?
    /** `m_Window`; `None` is the null pointer. */
    var window: Option<WindowHandle>
    /** `m_ShouldClose`: set by a QUIT event, never cleared. */
    var shouldClose: bool
    /** `m_TargetFrameTime > 0`: whether `PollEvents` paces frames. */
    var pacing: bool

    /** The constructor already makes a 10x10 untitled native window; `created` is what SDL returned. */
    constructor (lib: SdlLib, input: SdlInput.SDLInput?, created: Option<WindowHandle>)
      modifies lib
      ensures this.lib == lib && this.input == input
      ensures window == created && !shouldClose && !pacing
      ensures lib.calls == old(lib.calls) + [CreateWindow("", 10, 10, 0, created)]
    {
      this.lib := lib;
      this.input := input;
      window := created;
      shouldClose := false;
      pacing := false;
      new;
      lib.calls := lib.calls + [CreateWindow("", 10, 10, 0, created)];
    }

    /**
     * An existing window is reconfigured in place and `Create` reports success;
     * otherwise a window is created with the computed flags and `Create`
     * reports whether SDL returned one. `created` is that native outcome.
     */
    method Create(title: string, width: int, height: int, flags: WindowFlags, created: Option<WindowHandle>)
      returns (ok: bool)
      modifies this, lib
      ensures shouldClose == old(shouldClose) && pacing == old(pacing)
      ensures old(window).Some? ==>
                ok && window == old(window) &&
                lib.calls == old(lib.calls) + ReconfigureCalls(old(window).value, title, width, height, flags)
      ensures old(window).None? ==>
                window == created && (ok <==> created.Some?) &&
                lib.calls == old(lib.calls) + [CreateWindow(title, width, height, SdlFlags(flags), created)]
    {
      var sdlFlags := SDL_WINDOW_SHOWN;
      if flags.fullscreen {
        sdlFlags := sdlFlags | SDL_WINDOW_FULLSCREEN;
      }
      if flags.borderless {
        sdlFlags := sdlFlags | SDL_WINDOW_BORDERLESS;
      }
      if flags.resizable {
        sdlFlags := sdlFlags | SDL_WINDOW_RESIZABLE;
      }
      if flags.hidden {
        sdlFlags := sdlFlags | SDL_WINDOW_HIDDEN;
      }
      if flags.alwaysOnTop {
        sdlFlags := sdlFlags | SDL_WINDOW_ALWAYS_ON_TOP;
      }

      if window.Some? {
        var w := window.value;
        var mode := if flags.fullscreen then SDL_WINDOW_FULLSCREEN_DESKTOP else 0;
        lib.calls := lib.calls +
          [ SetWindowTitle(w, title), SetWindowSize(w, width, height), SetWindowPositionCentered(w),
            SetWindowFullscreen(w, mode), SetWindowBordered(w, !flags.borderless),
            SetWindowAlwaysOnTop(w, flags.alwaysOnTop), SetWindowResizable(w, flags.resizable) ];
        return true;
      }

      lib.calls := lib.calls + [CreateWindow(title, width, height, sdlFlags, created)];
      window := created;
      ok := window.Some?;
    }

    /** Renames the window, or does nothing when there is none. */
    method SetTitle(title: string)
      modifies lib
      ensures window.None? ==> lib.calls == old(lib.calls)
      ensures window.Some? ==> lib.calls == old(lib.calls) + [SetWindowTitle(window.value, title)]
    {
      if window.Some? {
        lib.calls := lib.calls + [SetWindowTitle(window.value, title)];
      }
    }

    function ShouldClose(): bool
      reads this
    {
      shouldClose
    }

    /**
     * Drains the queue (`events`, oldest first): a QUIT sets the close flag,
     * and every event, QUIT included, is handed to the input in order. The
     * input pointer is dereferenced unchecked, so a window that polls any event
     * must have one.
     */
    method PollEvents(events: seq<SdlInput.Event>)
      requires events != [] ==> input != null
      modifies this, input
      ensures window == old(window) && pacing == old(pacing)
      ensures ShouldClose() <==> old(ShouldClose()) || SdlInput.Quit in events
      ensures input != null ==> input.State() == SdlInput.Run(old(input.State()), events)
      ensures input != null && events != [] ==> input.lastEvent == Some(events[|events| - 1]) && input.Valid()
      ensures input != null && events == [] ==> input.lastEvent == old(input.lastEvent)
    {
      var i := 0;
      while i < |events|
        invariant 0 <= i <= |events|
        invariant window == old(window) && pacing == old(pacing)
        invariant shouldClose <==> old(shouldClose) || SdlInput.Quit in events[..i]
        invariant input != null ==> input.State() == SdlInput.Run(old(input.State()), events[..i])
        invariant input != null ==> input.lastEvent == if i == 0 then old(input.lastEvent) else Some(events[i - 1])
      {
        var e := events[i];
        if e == SdlInput.Quit {
          shouldClose := true;
        }
        input.ProcessEvents(e);
        SdlInput.RunExtend(old(input.State()), events, i);
        assert events[..i + 1][..i] == events[..i];
        i := i + 1;
      }
      assert events[..i] == events;
    }

    /** Destroys the native window and nulls the handle; without a window it does nothing. */
    method Shutdown()
      modifies this, lib
      ensures window.None?
      ensures shouldClose == old(shouldClose) && pacing == old(pacing)
      ensures old(window).None? ==> lib.calls == old(lib.calls)
      ensures old(window).Some? ==> lib.calls == old(lib.calls) + [DestroyWindow(old(window).value)]
    {
      if window.Some? {
        lib.calls := lib.calls + [DestroyWindow(window.value)];
        window := None;
      }
    }

    /** The destructor is `Shutdown`. */
    method Destroy()
      modifies this, lib
      ensures window.None?
      ensures old(window).None? ==> lib.calls == old(lib.calls)
      ensures old(window).Some? ==> lib.calls == old(lib.calls) + [DestroyWindow(old(window).value)]
    {
      Shutdown();
    }

    /** A positive rate turns frame pacing on; zero or a negative rate turns it off. */
    method SetTargetFPS(fps: int)
      modifies this
      ensures pacing <==> fps > 0
      ensures window == old(window) && shouldClose == old(shouldClose)
    {
      pacing := fps > 0;
    }
  }

  /** A window shut down twice makes one native call: the second `Shutdown` finds no window. */
  method ShutdownTwice(w: SDLWindow)
    modifies w, w.lib
    ensures w.window.None?
    ensures old(w.window).None? ==> w.lib.calls == old(w.lib.calls)
    ensures old(w.window).Some? ==> w.lib.calls == old(w.lib.calls) + [DestroyWindow(old(w.window).value)]
  {
    w.Shutdown();
    w.Shutdown();
  }
}
