/**
 * The struct conversions between the library's value types and raylib's
 * (src/UniGraphics/backends/raylib/RaylibConverter.h). Every field is copied
 * unchanged; the `(float)` casts of the rectangle apply to fields that are
 * already floats.
 */
module RaylibConverter {
  import opened Common

  datatype RlVector2 = RlVector2(x: Float, y: Float)
  datatype RlVector3 = RlVector3(x: Float, y: Float, z: Float)
  datatype RlColor = RlColor(r: Byte, g: Byte, b: Byte, a: Byte)
  datatype RlRectangle = RlRectangle(x: Float, y: Float, width: Float, height: Float)

  function ToRaylibVector2(v: Vector2): (w: RlVector2)
    ensures FromRaylibVector2(w) == v
  {
    RlVector2(v.x, v.y)
  }

  /** There is no `FromRaylib` for `Vector3`; the conversion keeps every coordinate. */
  function ToRaylibVector3(v: Vector3): (w: RlVector3)
    ensures (w.x, w.y, w.z) == (v.x, v.y, v.z)
  {
    RlVector3(v.x, v.y, v.z)
  }

  function ToRaylibColor(c: Color): (d: RlColor)
    ensures FromRaylibColor(d) == c
  {
    RlColor(c.r, c.g, c.b, c.a)
  }

  function ToRaylibRectangle(r: Rectangle): (s: RlRectangle)
    ensures FromRaylibRectangle(s) == r
  {
    RlRectangle(r.x, r.y, r.width, r.height)
  }

  function FromRaylibVector2(w: RlVector2): Vector2
  {
    Vector2(w.x, w.y)
  }

  function FromRaylibColor(d: RlColor): Color
  {
    Color(d.r, d.g, d.b, d.a)
  }

  function FromRaylibRectangle(s: RlRectangle): Rectangle
  {
    Rectangle(s.x, s.y, s.width, s.height)
  }

  /** The round trips starting on the raylib side. */
  lemma FromRaylibRoundTrips(w: RlVector2, d: RlColor, s: RlRectangle)
    ensures ToRaylibVector2(FromRaylibVector2(w)) == w
    ensures ToRaylibColor(FromRaylibColor(d)) == d
    ensures ToRaylibRectangle(FromRaylibRectangle(s)) == s
  {
  }
}
