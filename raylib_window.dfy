/**
 * The raylib window (src/UniGraphics/backends/raylib/RaylibWindow.cpp): a
 * flag translation, then configuration before `InitWindow`; everything else
 * is forwarded to raylib's single global window.
 */
module RaylibWindowing {
  import opened Common
  import opened RaylibNative

  /** The raylib config flags `Create` computes: one raylib bit per option, nothing else. */
  function RaylibFlags(f: WindowFlags): (bits: bv32)
    ensures bits & FLAG_FULLSCREEN_MODE != 0 <==> f.fullscreen
    ensures bits & FLAG_WINDOW_UNDECORATED != 0 <==> f.borderless
    ensures bits & FLAG_WINDOW_RESIZABLE != 0 <==> f.resizable
    ensures bits & FLAG_VSYNC_HINT != 0 <==> f.vsync
    ensures bits & FLAG_WINDOW_HIDDEN != 0 <==> f.hidden
    ensures bits & FLAG_WINDOW_TOPMOST != 0 <==> f.alwaysOnTop
    ensures bits & !(FLAG_FULLSCREEN_MODE | FLAG_WINDOW_UNDECORATED | FLAG_WINDOW_RESIZABLE |
                     FLAG_VSYNC_HINT | FLAG_WINDOW_HIDDEN | FLAG_WINDOW_TOPMOST) == 0
  {
    (if f.fullscreen then FLAG_FULLSCREEN_MODE else 0)
    | (if f.borderless then FLAG_WINDOW_UNDECORATED else 0)
    | (if f.resizable then FLAG_WINDOW_RESIZABLE else 0)
    | (if f.vsync then FLAG_VSYNC_HINT else 0)
    | (if f.hidden then FLAG_WINDOW_HIDDEN else 0)
    | (if f.alwaysOnTop then FLAG_WINDOW_TOPMOST else 0)
  }

  /** No options give no flags. */
  lemma RaylibFlagsEmpty()
    ensures RaylibFlags(NoFlags) == 0
  {
  }

  /** The flags of a union of masks are the bitwise OR of the parts' flags. */
  lemma RaylibFlagsUnion(f: WindowFlags, g: WindowFlags)
    ensures RaylibFlags(Union(f, g)) == RaylibFlags(f) | RaylibFlags(g)
  {
  }

  /** Every option reaches raylib: different masks give different flags. */
  lemma RaylibFlagsInjective(f: WindowFlags, g: WindowFlags)
    requires RaylibFlags(f) == RaylibFlags(g)
    ensures f == g
  {
  }

  class RaylibWindow {
    const lib: RaylibLib

    /** The constructor does nothing natively. */
    constructor (lib: RaylibLib)
      ensures this.lib == lib
    {
      this.lib := lib;
    }

    /**
     * Sets the config flags, then opens the window, and reports whether it is
     * ready; `initOk` is what `IsWindowReady` answers after `InitWindow`.
     */
    method Create(title: string, width: int, height: int, flags: WindowFlags, initOk: bool) returns (ok: bool)
      modifies lib
      ensures lib.calls == old(lib.calls) + [SetConfigFlags(RaylibFlags(flags)), InitWindow(width, height, title)]
      ensures lib.ready == initOk && ok == lib.ready
    {
      var rlFlags: bv32 := 0;
      if flags.fullscreen {
        rlFlags := rlFlags | FLAG_FULLSCREEN_MODE;
      }
      if flags.borderless {
        rlFlags := rlFlags | FLAG_WINDOW_UNDECORATED;
      }
      if flags.resizable {
        rlFlags := rlFlags | FLAG_WINDOW_RESIZABLE;
      }
      if flags.vsync {
        rlFlags := rlFlags | FLAG_VSYNC_HINT;
      }
      if flags.hidden {
        rlFlags := rlFlags | FLAG_WINDOW_HIDDEN;
      }
      if flags.alwaysOnTop {
        rlFlags := rlFlags | FLAG_WINDOW_TOPMOST;
      }
      lib.calls := lib.calls + [SetConfigFlags(rlFlags), InitWindow(width, height, title)];
      lib.ready := initOk;
      ok := lib.ready;
    }

    method SetTitle(title: string)
      modifies lib
      ensures lib.ready == old(lib.ready)
      ensures lib.calls == old(lib.calls) + [SetWindowTitle(title)]
    {
      lib.calls := lib.calls + [SetWindowTitle(title)];
    }

    /** raylib polls its own events; nothing happens here. */
    method PollEvents()
      ensures lib.ready == old(lib.ready) && lib.calls == old(lib.calls)
    {
    }

    /** Closes the window only if it is ready, so a second call makes no native call. */
    method Shutdown()
      modifies lib
      ensures !lib.ready
      ensures old(lib.ready) ==> lib.calls == old(lib.calls) + [CloseWindow]
      ensures !old(lib.ready) ==> lib.calls == old(lib.calls)
    {
      if lib.ready {
        lib.calls := lib.calls + [CloseWindow];
        lib.ready := false;
      }
    }

    /** The destructor is `Shutdown`. */
    method Destroy()
      modifies lib
      ensures !lib.ready
      ensures old(lib.ready) ==> lib.calls == old(lib.calls) + [CloseWindow]
      ensures !old(lib.ready) ==> lib.calls == old(lib.calls)
    {
      Shutdown();
    }

    /** Forwarded unchanged, including zero and negative rates. */
    method SetTargetFPS(fps: int)
      modifies lib
      ensures lib.ready == old(lib.ready)
      ensures lib.calls == old(lib.calls) + [RaylibCall.SetTargetFPS(fps)]
    {
      lib.calls := lib.calls + [RaylibCall.SetTargetFPS(fps)];
    }
  }
}
