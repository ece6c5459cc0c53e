/**
 * The `julia` part of src/fractal.rs: the Julia-set escape-time function
 * and the viewport transforms `zoom` and `translate`.
 *
 * Complex and real arithmetic is over `real`. Every property below holds
 * exactly over the reals or does not depend on the arithmetic at all; none
 * is claimed for IEEE doubles.
 */
module Julia {

  /** `num::complex::Complex64`, as a pair of reals. */
  datatype Complex = Complex(re: real, im: real)

  /**
   * The viewport `[x0, x1] x [y0, y1]` as four reals: the `Bounds` value
   * the renderer hands to the kernel as `Double4(x0, x1, y0, y1)`.
   */
  datatype Bounds = Bounds(x0: real, x1: real, y0: real, y1: real)

  /** `interpolation::lerp(a, b, t)`, and the kernel's `my_lerp`. */
  function Lerp(a: real, b: real, t: real): (r: real)
    ensures t == 0.0 ==> r == a
    ensures t == 1.0 ==> r == b
  {
    a + t * (b - a)
  }

  /** Interpolating with `t` in [0, 1] stays between the ends. */
  lemma LerpWithin(a: real, b: real, t: real)
    requires a <= b && 0.0 <= t <= 1.0
    ensures a <= Lerp(a, b, t) <= b
  {
    NonnegativeProduct(t, b - a);
    NonnegativeProduct(1.0 - t, b - a);
  }

  lemma NonnegativeProduct(x: real, y: real)
    requires x >= 0.0 && y >= 0.0
    ensures x * y >= 0.0
  {
  }

  lemma PositiveProduct(x: real, y: real)
    requires x > 0.0 && y > 0.0
    ensures x * y > 0.0
  {
  }

  /** The start value `z0` for the normalised pixel `(x, y)`. */
  function StartPoint(xbounds: (real, real), ybounds: (real, real), x: real, y: real): Complex
  {
    Complex(Lerp(xbounds.0, xbounds.1, x), Lerp(ybounds.0, ybounds.1, y))
  }

  /** `f(z) = z.powu(2) + add`. */
  function Step(z: Complex, add: Complex): Complex
  {
    Complex(z.re * z.re - z.im * z.im + add.re, 2.0 * z.re * z.im + add.im)
  }

  /** The escape test `re * re + im * im >= 4`, with no square root. */
  predicate Escaped(z: Complex)
  {
    z.re * z.re + z.im * z.im >= 4.0
  }

  /** The value after `n` applications of `Step`: the reference orbit. */
  ghost function Orbit(z0: Complex, add: Complex, n: nat): Complex
  {
    if n == 0 then z0 else Step(Orbit(z0, add, n - 1), add)
  }

  /**
   * `r` is what the escape-time loop must return: among the checks
   * `0 ..= cap`, the first one at which the orbit has escaped, and `cap`
   * when none of `0 .. cap` escapes. An escape detected at check `cap`
   * itself is reported as `cap`, like no escape at all.
   */
  ghost predicate IsFirstEscape(z0: Complex, add: Complex, cap: nat, r: nat)
  {
    && r <= cap
    && (forall k :: 0 <= k < r ==> !Escaped(Orbit(z0, add, k)))
    && (r < cap ==> Escaped(Orbit(z0, add, r)))
  }

  /** The escape-time search resumed at check `k` with current value `z`. */
  function EscapeFrom(z: Complex, add: Complex, k: nat, cap: nat): (r: nat)
    requires k <= cap
    ensures k <= r <= cap
    decreases cap - k
  {
    if Escaped(z) then k
    else if k == cap then cap
    else EscapeFrom(Step(z, add), add, k + 1, cap)
  }

  /** The escape count of `z0` under iteration cap `cap`. */
  function EscapeTime(z0: Complex, add: Complex, cap: nat): (r: nat)
    ensures r <= cap
  {
    EscapeFrom(z0, add, 0, cap)
  }

  lemma {:induction false} EscapeFromIsFirstEscape(z0: Complex, add: Complex, k: nat, cap: nat)
    requires k <= cap
    requires forall j :: 0 <= j < k ==> !Escaped(Orbit(z0, add, j))
    ensures IsFirstEscape(z0, add, cap, EscapeFrom(Orbit(z0, add, k), add, k, cap))
    decreases cap - k
  {
    var z := Orbit(z0, add, k);
    if !Escaped(z) && k < cap {
      assert Orbit(z0, add, k + 1) == Step(z, add);
      EscapeFromIsFirstEscape(z0, add, k + 1, cap);
    }
  }

  /** `EscapeTime` meets its reference definition. */
  lemma EscapeTimeIsFirstEscape(z0: Complex, add: Complex, cap: nat)
    ensures IsFirstEscape(z0, add, cap, EscapeTime(z0, add, cap))
  {
    EscapeFromIsFirstEscape(z0, add, 0, cap);
  }

  /** The reference definition determines the escape count uniquely. */
  lemma FirstEscapeIsEscapeTime(z0: Complex, add: Complex, cap: nat, r: nat)
    requires IsFirstEscape(z0, add, cap, r)
    ensures r == EscapeTime(z0, add, cap)
  {
    EscapeTimeIsFirstEscape(z0, add, cap);
  }

  /** A start point that has already escaped gives 0. */
  lemma EscapedStartGivesZero(z0: Complex, add: Complex, cap: nat)
    requires Escaped(z0)
    ensures EscapeTime(z0, add, cap) == 0
  {
  }

  /**
   * Raising the cap never lowers the count, and a point that escaped at
   * check `e` below the old cap still escapes at `e` under the new one.
   */
  lemma EscapeTimeMonotone(z0: Complex, add: Complex, cap: nat, cap': nat)
    requires cap <= cap'
    ensures EscapeTime(z0, add, cap) <= EscapeTime(z0, add, cap')
    ensures EscapeTime(z0, add, cap) < cap ==> EscapeTime(z0, add, cap') == EscapeTime(z0, add, cap)
  {
    var e, e' := EscapeTime(z0, add, cap), EscapeTime(z0, add, cap');
    EscapeTimeIsFirstEscape(z0, add, cap);
    EscapeTimeIsFirstEscape(z0, add, cap');
    if e < cap {
      FirstEscapeIsEscapeTime(z0, add, cap', e);
    }
  }

  lemma {:induction false} FixedPointOrbit(z: Complex, add: Complex, n: nat)
    requires Step(z, add) == z
    ensures Orbit(z, add, n) == z
  {
    if n > 0 {
      FixedPointOrbit(z, add, n - 1);
    }
  }

  /** A fixed point of `z * z + add` that has not escaped never escapes. */
  lemma FixedPointNeverEscapes(z: Complex, add: Complex, cap: nat)
    requires Step(z, add) == z && !Escaped(z)
    ensures EscapeTime(z, add, cap) == cap
  {
    forall k | 0 <= k < cap
      ensures !Escaped(Orbit(z, add, k))
    {
      FixedPointOrbit(z, add, k);
    }
    FirstEscapeIsEscapeTime(z, add, cap, cap);
  }

  const DEFAULT_XBOUNDS: (real, real) := (-1.7, 1.7)
  const DEFAULT_YBOUNDS: (real, real) := (-1.7, 1.7)
  const DEFAULT_ADD: Complex := Complex(0.0, 0.0)
  const DEFAULT_MAX_ITERATIONS: nat := 60

  /**
   * With the defaults of `JuliaFractal::new`, the centre pixel lerps to
   * `z0 = 0`, a fixed point of `z * z + 0`, so it never escapes.
   */
  lemma DefaultCentreNeverEscapes(cap: nat)
    ensures StartPoint(DEFAULT_XBOUNDS, DEFAULT_YBOUNDS, 0.5, 0.5) == Complex(0.0, 0.0)
    ensures EscapeTime(StartPoint(DEFAULT_XBOUNDS, DEFAULT_YBOUNDS, 0.5, 0.5), DEFAULT_ADD, cap) == cap
  {
    FixedPointNeverEscapes(Complex(0.0, 0.0), DEFAULT_ADD, cap);
  }

  /**
   * With the defaults, the left-edge pixel `(0, 0.5)` starts at `-1.7`
   * (`|z|^2 = 2.89`), steps to `2.89` and escapes at check 1.
   */
  lemma DefaultLeftEdgeEscapesAtOne()
    ensures EscapeTime(StartPoint(DEFAULT_XBOUNDS, DEFAULT_YBOUNDS, 0.0, 0.5), DEFAULT_ADD, DEFAULT_MAX_ITERATIONS) == 1
  {
    LeftEdgeStart();
    LeftEdgeSearch();
  }

  lemma LeftEdgeStart()
    ensures StartPoint(DEFAULT_XBOUNDS, DEFAULT_YBOUNDS, 0.0, 0.5) == Complex(-1.7, 0.0)
  {
  }

  lemma LeftEdgeSearch()
    ensures EscapeFrom(Complex(-1.7, 0.0), DEFAULT_ADD, 0, DEFAULT_MAX_ITERATIONS) == 1
  {
    assert !Escaped(Complex(-1.7, 0.0));
    assert Step(Complex(-1.7, 0.0), DEFAULT_ADD) == Complex(2.89, 0.0);
    assert Escaped(Complex(2.89, 0.0));
  }

  /** `ZOOM` in `JuliaFractal::zoom`. */
  const ZOOM: real := 0.07

  /**
   * One axis of `zoom`: the cursor coordinate is inverted, and the two ends
   * move toward each other by shares of `ZOOM * scale * width` that keep the
   * point under the cursor in place.
   */
  function ZoomAxis(axis: (real, real), cursor: real, scale: real): (r: (real, real))
    ensures r.1 - r.0 == (axis.1 - axis.0) * (1.0 - ZOOM * scale)
    ensures scale == 0.0 ==> r.0 == axis.0 && r.1 == axis.1
  {
    var x := 1.0 - cursor;
    var s := (axis.1 - axis.0) * scale;
    (axis.0 + (1.0 - x) * ZOOM * s, axis.1 - x * ZOOM * s)
  }

  /** The point under the cursor stays where it was. */
  lemma ZoomKeepsCursorPoint(axis: (real, real), cursor: real, scale: real)
    ensures var r := ZoomAxis(axis, cursor, scale);
      Lerp(r.0, r.1, cursor) == Lerp(axis.0, axis.1, cursor)
  {
  }

  /** Zooming by less than the whole width keeps the axis ordered. */
  lemma ZoomKeepsOrder(axis: (real, real), cursor: real, scale: real)
    requires axis.0 < axis.1 && ZOOM * scale < 1.0
    ensures ZoomAxis(axis, cursor, scale).0 < ZoomAxis(axis, cursor, scale).1
  {
    var r := ZoomAxis(axis, cursor, scale);
    var w, f := axis.1 - axis.0, 1.0 - ZOOM * scale;
    assert r.1 - r.0 == w * f;
    PositiveProduct(w, f);
  }

  /**
   * Zooming out by the same factor does not undo a zoom: the width comes
   * back multiplied by `1 - (ZOOM * scale)^2`, even over the reals.
   */
  lemma ZoomOutAfterZoomIn(axis: (real, real), cursor: real, scale: real)
    ensures var r := ZoomAxis(ZoomAxis(axis, cursor, scale), cursor, -scale);
      r.1 - r.0 == (axis.1 - axis.0) * (1.0 - ZOOM * scale * ZOOM * scale)
  {
    var w := axis.1 - axis.0;
    var once := ZoomAxis(axis, cursor, scale);
    var w1 := once.1 - once.0;
    assert w1 == w * (1.0 - ZOOM * scale);
    calc {
      w1 * (1.0 - ZOOM * -scale);
      w * (1.0 - ZOOM * scale) * (1.0 + ZOOM * scale);
      w * (1.0 - ZOOM * scale * ZOOM * scale);
    }
  }

  /** `SCALE` in `JuliaFractal::translate`. */
  const PAN: real := 0.1

  /** The pan distance unit: nine tenths of the sum of both widths. */
  function PanSpan(xbounds: (real, real), ybounds: (real, real)): (s: real)
    ensures xbounds.0 < xbounds.1 && ybounds.0 < ybounds.1 ==> s > 0.0
  {
    var scale := (xbounds.1 - xbounds.0) + (ybounds.1 - ybounds.0);
    scale * 0.9
  }

  /** One axis of `translate`: both ends move by `(cursor - 0.5) * PAN * span`. */
  function PanAxis(axis: (real, real), cursor: real, span: real): (r: (real, real))
    ensures r.1 - r.0 == axis.1 - axis.0
    ensures cursor == 0.5 ==> r.0 == axis.0 && r.1 == axis.1
  {
    var d := cursor - 0.5;
    (axis.0 + d * PAN * span, axis.1 + d * PAN * span)
  }

  /** The sign of a product with a positive factor is the sign of the other factor. */
  lemma ProductSign(x: real, y: real)
    requires y > 0.0
    ensures x * y > 0.0 <==> x > 0.0
    ensures x * y < 0.0 <==> x < 0.0
  {
    if x > 0.0 {
      PositiveProduct(x, y);
    } else if x < 0.0 {
      PositiveProduct(-x, y);
    }
  }

  /**
   * With a positive span the view moves toward the cursor's side of the
   * centre: right of (or below) the centre moves both ends up, left moves
   * them down.
   */
  lemma PanDirection(axis: (real, real), cursor: real, span: real)
    requires span > 0.0
    ensures var r := PanAxis(axis, cursor, span);
      (r.0 > axis.0 <==> cursor > 0.5) && (r.0 < axis.0 <==> cursor < 0.5)
  {
    var r := PanAxis(axis, cursor, span);
    var d := cursor - 0.5;
    assert r.0 - axis.0 == d * (PAN * span);
    ProductSign(d, PAN * span);
  }

  /** `JuliaFractal`: the viewport, the Julia parameter and the iteration cap. */
  class JuliaFractal {
    var xbounds: (real, real)
    var ybounds: (real, real)
    var add: Complex
    var maxIterations: nat

    /** `JuliaFractal::new()`. */
    constructor New()
      ensures xbounds == DEFAULT_XBOUNDS && ybounds == DEFAULT_YBOUNDS
      ensures add == DEFAULT_ADD && maxIterations == DEFAULT_MAX_ITERATIONS
    {
      xbounds := (-1.7, 1.7);
      ybounds := (-1.7, 1.7);
      add := Complex(0.0, 0.0);
      maxIterations := 60;
    }

    /**
     * `get(x, y)`: up to `maxIterations + 1` escape checks, returning the
     * index of the first that fires, or `maxIterations` when none does.
     */
    method Get(x: real, y: real) returns (r: nat)
      ensures r <= maxIterations
      ensures IsFirstEscape(StartPoint(xbounds, ybounds, x, y), add, maxIterations, r)
      ensures r == EscapeTime(StartPoint(xbounds, ybounds, x, y), add, maxIterations)
    {
      var z0 := StartPoint(xbounds, ybounds, x, y);
      var z := z0;
      for iteration := 0 to maxIterations + 1
        invariant z == Orbit(z0, add, iteration)
        invariant forall k :: 0 <= k < iteration ==> !Escaped(Orbit(z0, add, k))
      {
        if Escaped(z) {
          r := iteration;
          FirstEscapeIsEscapeTime(z0, add, maxIterations, r);
          return;
        }
        z := Step(z, add);
      }
      r := maxIterations;
      FirstEscapeIsEscapeTime(z0, add, maxIterations, r);
    }

    /** `zoom(x, y, scale)`: both axes zoom about the cursor; nothing else changes. */
    method Zoom(x: real, y: real, scale: real)
      modifies this
      ensures xbounds == ZoomAxis(old(xbounds), x, scale)
      ensures ybounds == ZoomAxis(old(ybounds), y, scale)
      ensures add == old(add) && maxIterations == old(maxIterations)
    {
      xbounds, ybounds := ZoomAxis(xbounds, x, scale), ZoomAxis(ybounds, y, scale);
    }

    /** `translate(x, y)`: both axes pan by the same span unit; nothing else changes. */
    method Translate(x: real, y: real)
      modifies this
      ensures xbounds == PanAxis(old(xbounds), x, PanSpan(old(xbounds), old(ybounds)))
      ensures ybounds == PanAxis(old(ybounds), y, PanSpan(old(xbounds), old(ybounds)))
      ensures add == old(add) && maxIterations == old(maxIterations)
    {
      var span := PanSpan(xbounds, ybounds);
      xbounds, ybounds := PanAxis(xbounds, x, span), PanAxis(ybounds, y, span);
    }
  }
}
