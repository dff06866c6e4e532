/**
 * The raylib backend (src/UniGraphics/backends/raylib/RaylibBackend.cpp):
 * three members built unconditionally, an empty destructor, and the
 * inherited `GraphicsBackend` destructor that shuts the window down.
 */
module RaylibBackends {
  import opened RaylibNative
  import opened RaylibWindowing

  /** `RaylibInput` forwards every query to raylib; it holds no state of its own. */
  class RaylibInput {
    constructor ()
    {
    }
  }

  /** `RaylibRenderer` forwards every draw call to raylib; it holds no state of its own. */
  class RaylibRenderer {
    constructor ()
    {
    }
  }

  class RaylibBackend {
    const lib: RaylibLib
    /** `m_Window`, `m_Input`, `m_Renderer` of the `GraphicsBackend` base. */
    var window: RaylibWindow?
    var input: RaylibInput?
    var renderer: RaylibRenderer?

    ghost predicate Valid()
      reads this
    {
      window != null && window.lib == lib && input != null && renderer != null
    }

    /**
     * Window, input, renderer, in that order, with no abort path; none of
     * the three constructors calls into raylib.
     */
    constructor (lib: RaylibLib)
      ensures Valid() && this.lib == lib
      ensures fresh(window) && fresh(input) && fresh(renderer)
      ensures lib.ready == old(lib.ready) && lib.calls == old(lib.calls)
    {
      this.lib := lib;
      new;
      window := new RaylibWindow(lib);
      input := new RaylibInput();
      renderer := new RaylibRenderer();
    }

    /** The inherited `GraphicsBackend` destructor: shut the window down if `m_Window` is held. */
    method BaseDestroy()
      requires Valid()
      modifies lib
      ensures !lib.ready
      ensures old(lib.ready) ==> lib.calls == old(lib.calls) + [CloseWindow]
      ensures !old(lib.ready) ==> lib.calls == old(lib.calls)
    {
      if window != null {
        window.Shutdown();
      }
    }

    /**
     * Deleting the backend: the empty derived destructor, the inherited one
     * (which closes a ready window), then the members' destructors, where the
     * window's own `Shutdown` finds it closed and makes no second call.
     */
    method Delete()
      requires Valid()
      modifies lib
      ensures !lib.ready
      ensures old(lib.ready) ==> lib.calls == old(lib.calls) + [CloseWindow]
      ensures !old(lib.ready) ==> lib.calls == old(lib.calls)
    {
      BaseDestroy();
      window.Destroy();
    }
  }
}
