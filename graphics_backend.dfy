/**
 * The compile-time `CreateBackend()` of src/UniGraphics/core/GraphicsBackend.cpp:
 * the backend is chosen by the `USE_SDL` and `USE_RAYLIB` macros, SDL first,
 * and a build with neither does not compile. (The inherited destructor's
 * window guard is `BaseDestroy` of each backend class.)
 */
module GraphicsBackend {
  import opened Wrappers
  import opened Common
  import opened SdlNative
  import opened RaylibNative
  import opened SdlBackends
  import opened RaylibBackends

  /** Which of the two selection macros are defined. */
  datatype BuildConfig = BuildConfig(useSdl: bool, useRaylib: bool)

  /** The `static_assert`: some backend must be selected. */
  predicate Compiles(cfg: BuildConfig)
  {
    cfg.useSdl || cfg.useRaylib
  }

  /** The backend kind the preprocessor selects; `None` when the build is rejected. */
  function SelectedBackend(cfg: BuildConfig): (r: Option<BackendType>)
    ensures r.None? <==> !Compiles(cfg)
    ensures r == Some(SDL) <==> cfg.useSdl
    ensures r == Some(Raylib) <==> !cfg.useSdl && cfg.useRaylib
  {
    if cfg.useSdl then Some(SDL)
    else if cfg.useRaylib then Some(Raylib)
    else None
  }

  /**
   * `CreateBackend()` in a build that compiles: a fresh backend of the
   * selected kind, the other result null. `n` is what SDL's native calls
   * return when the SDL backend is built.
   */
  method CreateDefaultBackend(cfg: BuildConfig, sdl: SdlLib, n: NativeOutcomes, raylib: RaylibLib)
    returns (sdlBackend: SDLBackend?, raylibBackend: RaylibBackend?)
    requires Compiles(cfg)
    modifies sdl
    ensures sdlBackend != null <==> SelectedBackend(cfg) == Some(SDL)
    ensures raylibBackend != null <==> SelectedBackend(cfg) == Some(Raylib)
    ensures sdlBackend != null ==>
              fresh(sdlBackend) && sdlBackend.Valid() && sdlBackend.lib == sdl &&
              sdl.calls == old(sdl.calls) + BackendConstructionCalls(n)
    ensures raylibBackend != null ==>
              fresh(raylibBackend) && raylibBackend.Valid() && raylibBackend.lib == raylib &&
              sdl.calls == old(sdl.calls)
  {
    sdlBackend, raylibBackend := null, null;
    if cfg.useSdl {
      sdlBackend := new SDLBackend(sdl, n);
    } else {
      raylibBackend := new RaylibBackend(raylib);
    }
  }
}
