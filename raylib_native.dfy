/**
 * The raylib library as the model sees it: whether its single window is
 * ready (`IsWindowReady`) and the log of calls made into it, in order.
 */
module RaylibNative {
  /** `ConfigFlags` bits, as in raylib.h. */
  const FLAG_VSYNC_HINT: bv32 := 0x40
  const FLAG_FULLSCREEN_MODE: bv32 := 0x2
  const FLAG_WINDOW_RESIZABLE: bv32 := 0x4
  const FLAG_WINDOW_UNDECORATED: bv32 := 0x8
  const FLAG_WINDOW_HIDDEN: bv32 := 0x80
  const FLAG_WINDOW_TOPMOST: bv32 := 0x1000

  datatype RaylibCall =
    | SetConfigFlags(flags: bv32)
    | InitWindow(width: int, height: int, title: string)
    | CloseWindow
    | SetWindowTitle(title: string)
    | SetTargetFPS(fps: int)

  /** The process-wide raylib state: one window, ready or not, and the calls made so far. */
  class RaylibLib {
    var ready: bool
    var calls: seq<RaylibCall>

    constructor ()
      ensures !ready && calls == []
    {
      ready := false;
      calls := [];
    }
  }
}
