/**
 * The kind-dispatching factory of src/UniGraphics/IGraphicsBackend.cpp:
 * only raylib can be built this way; every other kind gives null.
 */
module BackendFactory {
  import opened Common
  import opened RaylibNative
  import opened RaylibBackends

  /** A fresh, caller-owned raylib backend for `Raylib`; null for SDL, OpenGL and Software. */
  method CreateBackend(kind: BackendType, lib: RaylibLib) returns (b: RaylibBackend?)
    ensures b != null <==> kind == Raylib
    ensures b != null ==> fresh(b) && b.Valid() && b.lib == lib
    ensures lib.ready == old(lib.ready) && lib.calls == old(lib.calls)
  {
    match kind
    case Raylib =>
      b := new RaylibBackend(lib);
    case _ =>
      b := null;
  }

  /** Two successful calls hand out two distinct instances. */
  method CreateTwice(lib: RaylibLib) returns (b1: RaylibBackend?, b2: RaylibBackend?)
    ensures b1 != null && b2 != null && b1 != b2
  {
    b1 := CreateBackend(Raylib, lib);
    b2 := CreateBackend(Raylib, lib);
  }
}
