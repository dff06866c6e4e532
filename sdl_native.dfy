/**
 * The SDL2, SDL_image and SDL_ttf libraries as the model sees them: opaque
 * handles and a process-wide log of the calls made into them, in order.
 * What a call does inside the library is not modelled; where its outcome
 * matters (a handle or null), the outcome is a parameter of the caller.
 */
module SdlNative {
  import opened Common
  import opened Wrappers

  datatype WindowHandle = WindowHandle(serial: nat)
  datatype RendererHandle = RendererHandle(serial: nat)
  datatype TextureHandle = TextureHandle(serial: nat)
  datatype FontHandle = FontHandle(serial: nat)

  /** `SDL_WINDOW_*` bits and the `SDL_WINDOWPOS_CENTERED` position, as in SDL_video.h. */
  const SDL_WINDOW_FULLSCREEN: bv32 := 0x1
  const SDL_WINDOW_SHOWN: bv32 := 0x4
  const SDL_WINDOW_HIDDEN: bv32 := 0x8
  const SDL_WINDOW_BORDERLESS: bv32 := 0x10
  const SDL_WINDOW_RESIZABLE: bv32 := 0x20
  const SDL_WINDOW_ALWAYS_ON_TOP: bv32 := 0x8000
  const SDL_WINDOW_FULLSCREEN_DESKTOP: bv32 := 0x1001

  datatype RendererKind = Accelerated | SoftwareRenderer

  datatype Call =
    | Init(ok: bool)
    | Quit
    | CreateWindow(title: string, width: int, height: int, flags: bv32, newWindow: Option<WindowHandle>)
    | SetWindowTitle(window: WindowHandle, title: string)
    | SetWindowSize(window: WindowHandle, width: int, height: int)
    | SetWindowPositionCentered(window: WindowHandle)
    | SetWindowFullscreen(window: WindowHandle, mode: bv32)
    | SetWindowBordered(window: WindowHandle, bordered: bool)
    | SetWindowAlwaysOnTop(window: WindowHandle, onTop: bool)
    | SetWindowResizable(window: WindowHandle, resizable: bool)
    | DestroyWindow(window: WindowHandle)
    | CreateRenderer(window: WindowHandle, kind: RendererKind, newRenderer: Option<RendererHandle>)
    | SetBlendModeBlend(renderer: RendererHandle)
    | OpenDefaultFont(size: int, defaultFont: Option<FontHandle>)
    | DestroyRenderer(renderer: RendererHandle)
    | RenderClear(renderer: RendererHandle)
    | RenderPresent(renderer: RendererHandle)
    | SetRenderDrawColor(renderer: RendererHandle, color: Color)
    | RenderDrawLine(renderer: RendererHandle, x1: int, y1: int, x2: int, y2: int)
    | LoadTexture(renderer: RendererHandle, path: string, loaded: Option<TextureHandle>)
    | QueryTexture(texture: TextureHandle)
    | SetTextureMods(source: Option<TextureHandle>, tint: Color)
    | RenderCopy(renderer: RendererHandle, source: Option<TextureHandle>)
    | DestroyTexture(texture: TextureHandle)
    | OpenFont(path: string, size: int, openedFont: Option<FontHandle>)
    | CloseFont(font: FontHandle)
    | SetFontSize(font: FontHandle, size: int)
    | RenderText(renderer: RendererHandle, textFont: Option<FontHandle>, text: string, color: Color)

  /** The process-wide SDL state: every call made into the libraries, oldest first. */
  class SdlLib {
    var calls: seq<Call>

    constructor ()
      ensures calls == []
    {
      calls := [];
    }
  }
}
