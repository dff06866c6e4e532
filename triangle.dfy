/**
 * The integer scan-line fill inside `SDLRenderer::DrawTriangle`
 * (src/UniGraphics/backends/sdl/SDLRenderer.cpp:164-211), once the vertices
 * have been cast to `int`: the three conditional swaps, the `edgeInterp`
 * lambda with C++'s truncating division, and the `drawSpan` lambda.
 */
module Triangle {
  datatype Point = Point(x: int, y: int)

  /** One horizontal line handed to the native line call: row `y` from `xStart` to `xEnd`. */
  datatype Span = Span(y: int, xStart: int, xEnd: int)

  function Abs(n: int): nat { if n < 0 then -n else n }
  function Min(a: int, b: int): int { if a <= b then a else b }
  function Max(a: int, b: int): int { if a <= b then b else a }

  /** C++ integer division: the magnitude rounds down and the quotient rounds toward zero. */
  function TruncDiv(n: int, d: int): (q: int)
    requires d != 0
    ensures Abs(q) == Abs(n) / Abs(d)
    ensures q != 0 ==> (q > 0 <==> (n > 0) == (d > 0))
  {
    var an: nat, ad: nat := Abs(n), Abs(d);
    var m: nat := an / ad;
    assert m > 0 ==> an > 0 by { if an == 0 { assert an / ad == 0; } }
    if (n >= 0) == (d > 0) then m else -(m as int)
  }

  lemma MulAtLeast(b: int, x: int)
    requires b > 0 && x >= 1
    ensures b * x >= b
  {
    assert b * x == b * (x - 1) + b;
    assert b * (x - 1) >= 0;
  }

  /** The Euclidean quotient of naturals is the unique `q` with `b * q <= a < b * q + b`. */
  lemma DivUnique(a: nat, b: nat, q: int)
    requires b > 0 && b * q <= a < b * q + b
    ensures a / b == q
  {
    var q0, r := a / b, a % b;
    assert a == b * q0 + r && 0 <= r < b;
    var x := q - q0;
    assert b * q == b * q0 + b * x;
    if x >= 1 { MulAtLeast(b, x); }
    if x <= -1 { MulAtLeast(b, -x); }
  }

  lemma AbsMul(k: int, d: int)
    ensures Abs(k * d) == Abs(k) * Abs(d)
    ensures k * d > 0 <==> (k > 0 && d > 0) || (k < 0 && d < 0)
  {
    if k < 0 && d < 0 { assert k * d == (-k) * (-d); }
    else if k < 0 { assert k * d == -((-k) * d); }
    else if d < 0 { assert k * d == -(k * (-d)); }
  }

  /** An exact quotient is recovered whatever the signs. */
  lemma {:induction false} TruncDivExact(k: int, d: int)
    requires d != 0
    ensures TruncDiv(k * d, d) == k
  {
    var n := k * d;
    AbsMul(k, d);
    DivUnique(Abs(k) * Abs(d), Abs(d), Abs(k));
    var q := TruncDiv(n, d);
    assert Abs(q) == Abs(k);
    if k == 0 {
      assert q == 0;
    } else {
      assert n > 0 <==> (k > 0) == (d > 0);
      assert q > 0 <==> k > 0;
    }
  }

  /** If `|n| <= m * d` for a positive divisor, the truncated quotient has magnitude at most `m`. */
  lemma {:induction false} TruncDivBounded(n: int, d: int, m: nat)
    requires d > 0 && Abs(n) <= m * d
    ensures Abs(TruncDiv(n, d)) <= m
  {
    var an: nat := Abs(n);
    var q := an / d;
    assert d * q <= an;
    if q > m {
      MulAtLeast(d, q - m);
    }
  }

  /** `edgeInterp`: the x of edge a-b on row `y`; a flat edge yields `a.x`. */
  function EdgeInterp(a: Point, b: Point, y: int): int
  {
    if a.y == b.y then a.x else a.x + TruncDiv((b.x - a.x) * (y - a.y), b.y - a.y)
  }

  /** The edge starts at `a` and ends at `b`; a flat edge yields `a.x`. */
  lemma EdgeInterpEndpoints(a: Point, b: Point)
    ensures EdgeInterp(a, b, a.y) == a.x
    ensures a.y != b.y ==> EdgeInterp(a, b, b.y) == b.x
    ensures a.y == b.y ==> forall y :: EdgeInterp(a, b, y) == a.x
  {
    if a.y != b.y {
      var dx, d := b.x - a.x, b.y - a.y;
      assert dx * (a.y - a.y) == 0;
      assert Abs(TruncDiv(0, d)) == 0 / Abs(d) == 0;
      assert EdgeInterp(a, b, b.y) == a.x + TruncDiv(dx * d, d);
      TruncDivExact(dx, d);
    }
  }

  /** Scaling by a natural keeps the sign and scales the magnitude. */
  lemma MulByNat(x: int, t: nat)
    ensures Abs(x * t) == Abs(x) * t
    ensures x * t > 0 ==> x > 0
    ensures x * t < 0 ==> x < 0
  {
    if x < 0 {
      assert x * t == -((-x) * t);
    }
  }

  lemma MulMonotone(a: nat, t: nat, d: nat)
    requires t <= d
    ensures a * t <= a * d
  {
    assert a * d == a * t + a * (d - t);
  }

  /** On a row the edge spans, the interpolated x lies between the edge's end points. */
  lemma {:induction false} EdgeInterpBetween(a: Point, b: Point, y: int)
    requires a.y <= y <= b.y
    ensures Min(a.x, b.x) <= EdgeInterp(a, b, y) <= Max(a.x, b.x)
  {
    if a.y != b.y {
      var dx, t, d := b.x - a.x, y - a.y, b.y - a.y;
      var n := dx * t;
      MulByNat(dx, t);
      MulMonotone(Abs(dx), t, d);
      TruncDivBounded(n, d, Abs(dx));
      var q := TruncDiv(n, d);
      assert q > 0 ==> dx > 0;
      assert q < 0 ==> dx < 0;
    }
  }

  /** `r` is one of the six orderings of the three points. */
  predicate IsPermutation(r: (Point, Point, Point), p1: Point, p2: Point, p3: Point)
  {
    r == (p1, p2, p3) || r == (p1, p3, p2) || r == (p2, p1, p3) ||
    r == (p2, p3, p1) || r == (p3, p1, p2) || r == (p3, p2, p1)
  }

  /** The three conditional swaps of `DrawTriangle`, as a value. */
  function SortByY(p1: Point, p2: Point, p3: Point): (r: (Point, Point, Point))
    ensures r.0.y <= r.1.y <= r.2.y
    ensures IsPermutation(r, p1, p2, p3)
  {
    var (a1, a2) := if p2.y < p1.y then (p2, p1) else (p1, p2);
    var (b1, a3) := if p3.y < a1.y then (p3, a1) else (a1, p3);
    var (c2, c3) := if a3.y < a2.y then (a3, a2) else (a2, a3);
    (b1, c2, c3)
  }

  /** `drawSpan`: the end points are put in order before the line is drawn. */
  function DrawSpan(y: int, x1: int, x2: int): (s: Span)
    ensures s.y == y && s.xStart <= s.xEnd
    ensures (s.xStart, s.xEnd) == (x1, x2) || (s.xStart, s.xEnd) == (x2, x1)
  {
    if x1 > x2 then Span(y, x2, x1) else Span(y, x1, x2)
  }

  /**
   * The spans one fill loop draws for rows `lo` up to but excluding `hi`, with the
   * left end on edge a-b and the right end on edge c-d (before ordering).
   */
  function Rows(a: Point, b: Point, c: Point, d: Point, lo: int, hi: int): (s: seq<Span>)
    decreases hi - lo
    ensures |s| == if hi <= lo then 0 else hi - lo
  {
    if hi <= lo then [] else Rows(a, b, c, d, lo, hi - 1) + [DrawSpan(hi - 1, EdgeInterp(a, b, hi - 1), EdgeInterp(c, d, hi - 1))]
  }

  /** The `i`-th span of a fill loop is the one for row `lo + i`. */
  lemma {:induction false} RowsAt(a: Point, b: Point, c: Point, d: Point, lo: int, hi: int, i: int)
    requires 0 <= i < hi - lo
    decreases hi - lo
    ensures Rows(a, b, c, d, lo, hi)[i] == DrawSpan(lo + i, EdgeInterp(a, b, lo + i), EdgeInterp(c, d, lo + i))
  {
    if i < hi - 1 - lo {
      RowsAt(a, b, c, d, lo, hi - 1, i);
    }
  }

  /** Everything `DrawTriangle` draws, in order: bottom half, then top half. */
  function TriangleSpans(p1: Point, p2: Point, p3: Point): seq<Span>
  {
    var (a, b, c) := SortByY(p1, p2, p3);
    Rows(a, b, a, c, a.y, b.y + 1) + Rows(b, c, a, c, b.y, c.y + 1)
  }

  /**
   * Every row from the lowest to the highest vertex is drawn, in order, and the
   * middle vertex's row is drawn twice: once by each loop.
   */
  lemma {:induction false} TriangleRowCount(p1: Point, p2: Point, p3: Point)
    ensures var r := SortByY(p1, p2, p3);
            var s := TriangleSpans(p1, p2, p3);
            |s| == r.2.y - r.0.y + 2 &&
            s[r.1.y - r.0.y].y == r.1.y && s[r.1.y - r.0.y + 1].y == r.1.y &&
            (forall i :: 0 <= i <= r.1.y - r.0.y ==> s[i].y == r.0.y + i) &&
            (forall i :: r.1.y - r.0.y < i < |s| ==> s[i].y == r.0.y + i - 1)
  {
    var r := SortByY(p1, p2, p3);
    var (a, b, c) := r;
    var bottom, top := Rows(a, b, a, c, a.y, b.y + 1), Rows(b, c, a, c, b.y, c.y + 1);
    var s := TriangleSpans(p1, p2, p3);
    assert s == bottom + top;
    assert |bottom| == b.y - a.y + 1 && |top| == c.y - b.y + 1;
    forall i | 0 <= i <= b.y - a.y
      ensures s[i].y == a.y + i
    {
      assert s[i] == bottom[i];
      RowsAt(a, b, a, c, a.y, b.y + 1, i);
    }
    forall i | b.y - a.y < i < |s|
      ensures s[i].y == a.y + i - 1
    {
      assert s[i] == top[i - |bottom|];
      RowsAt(b, c, a, c, b.y, c.y + 1, i - |bottom|);
    }
  }

  /** A span between two edges whose end points lie in `[lo, hi]` stays in `[lo, hi]`. */
  lemma {:induction false} SpanInBox(a: Point, b: Point, c: Point, d: Point, y: int, lo: int, hi: int)
    requires a.y <= y <= b.y && c.y <= y <= d.y
    requires lo <= a.x <= hi && lo <= b.x <= hi && lo <= c.x <= hi && lo <= d.x <= hi
    ensures var s := DrawSpan(y, EdgeInterp(a, b, y), EdgeInterp(c, d, y));
            lo <= s.xStart <= s.xEnd <= hi
  {
    EdgeInterpBetween(a, b, y);
    EdgeInterpBetween(c, d, y);
  }

  /** Every span is ordered and lies within columns `lo..hi`. */
  predicate SpansWithin(s: seq<Span>, lo: int, hi: int)
  {
    forall i :: 0 <= i < |s| ==> lo <= s[i].xStart <= s[i].xEnd <= hi
  }

  lemma SpansWithinConcat(s: seq<Span>, t: seq<Span>, lo: int, hi: int)
    requires SpansWithin(s, lo, hi) && SpansWithin(t, lo, hi)
    ensures SpansWithin(s + t, lo, hi)
  {
    forall i | 0 <= i < |s + t|
      ensures lo <= (s + t)[i].xStart <= (s + t)[i].xEnd <= hi
    {
      if i >= |s| { assert (s + t)[i] == t[i - |s|]; }
    }
  }

  /** Every span of one fill loop stays in `[lo, hi]` when its two edges' end points do. */
  lemma {:induction false} RowsInBox(a: Point, b: Point, c: Point, d: Point, ylo: int, yhi: int, lo: int, hi: int)
    requires a.y <= ylo && yhi <= b.y + 1 && c.y <= ylo && yhi <= d.y + 1
    requires lo <= a.x <= hi && lo <= b.x <= hi && lo <= c.x <= hi && lo <= d.x <= hi
    ensures SpansWithin(Rows(a, b, c, d, ylo, yhi), lo, hi)
  {
    var s := Rows(a, b, c, d, ylo, yhi);
    forall i | 0 <= i < |s|
      ensures lo <= s[i].xStart <= s[i].xEnd <= hi
    {
      RowsAt(a, b, c, d, ylo, yhi, i);
      SpanInBox(a, b, c, d, ylo + i, lo, hi);
    }
  }

  /** No span leaves the triangle's bounding box. */
  lemma {:induction false} TriangleSpansInBox(p1: Point, p2: Point, p3: Point)
    ensures SpansWithin(TriangleSpans(p1, p2, p3), Min(p1.x, Min(p2.x, p3.x)), Max(p1.x, Max(p2.x, p3.x)))
  {
    var r := SortByY(p1, p2, p3);
    var (a, b, c) := r;
    var lo := Min(p1.x, Min(p2.x, p3.x));
    var hi := Max(p1.x, Max(p2.x, p3.x));
    assert lo <= a.x <= hi && lo <= b.x <= hi && lo <= c.x <= hi;
    RowsInBox(a, b, a, c, a.y, b.y + 1, lo, hi);
    RowsInBox(b, c, a, c, b.y, c.y + 1, lo, hi);
    SpansWithinConcat(Rows(a, b, a, c, a.y, b.y + 1), Rows(b, c, a, c, b.y, c.y + 1), lo, hi);
  }
}
