/**
 * One sample of two-dimensional gradient noise: the four lattice corners
 * around a point contribute the dot product of their gradient with the
 * offset to the point, blended by the quintic fade curve. Numbers are
 * modelled as exact reals and `Math.floor` as `.Floor`.
 */
module Noise {
  import opened Gradients

  /** `fade(t) = t^3 (t (6t - 15) + 10)`, the quintic ease curve. */
  function Fade(t: real): real
  {
    t * t * t * (t * (t * 6.0 - 15.0) + 10.0)
  }

  /** `lerp(a, b, t) = (1 - t) a + t b`. */
  function Lerp(a: real, b: real, t: real): real
  {
    (1.0 - t) * a + t * b
  }

  /** `dot2D(g, x, y) = g[0] x + g[1] y`. */
  function Dot2D(g: Gradient, x: real, y: real): real
  {
    g.gx * x + g.gy * y
  }

  /** The gradient at a lattice point, which `grad2D` always finds in the table. */
  function LatticeGradient(ix: int, iy: int): (g: Gradient)
    ensures g in Grads
  {
    Grad2DTotal(ix, iy);
    Grad2D(ix, iy).value
  }

  /** `perlinNoise(x, y)`: split the point into its lattice cell and the offset inside it. */
  function PerlinNoise(x: real, y: real): real
  {
    var xi := x.Floor;
    var yi := y.Floor;
    CellNoise(xi, yi, Frac(x), Frac(y))
  }

  /** `f` is a fractional part of `x`: it lies in [0, 1) and takes `x` down to an integer. */
  predicate IsFraction(x: real, f: real)
  {
    0.0 <= f < 1.0 && (x - f).Floor as real == x - f
  }

  /** `x - Math.floor(x)`, the only fractional part `x` has. */
  function Frac(x: real): (f: real)
    ensures 0.0 <= f < 1.0
  {
    x - x.Floor as real
  }

  /** `x - Math.floor(x)` is a fractional part of `x`, and no other real is. */
  lemma FractionUnique(x: real)
    ensures IsFraction(x, x - x.Floor as real)
    ensures forall f :: IsFraction(x, f) ==> f == x - x.Floor as real
  {
    forall f | IsFraction(x, f)
      ensures f == x - x.Floor as real
    {
      assert (x - f).Floor == x.Floor;
    }
  }

  /** The rest of `perlinNoise`: the gradients at the four corners of cell (xi, yi), blended at offset (xf, yf). */
  function CellNoise(xi: int, yi: int, xf: real, yf: real): real
  {
    Blend(LatticeGradient(xi, yi), LatticeGradient(xi + 1, yi),
      LatticeGradient(xi, yi + 1), LatticeGradient(xi + 1, yi + 1), xf, yf)
  }

  /**
   * The corner influences `n00, n10, n01, n11` of corner gradients `g00 .. g11`
   * at offset (xf, yf), interpolated along x with `u = fade(xf)` and then
   * along y with `v = fade(yf)`.
   */
  function Blend(g00: Gradient, g10: Gradient, g01: Gradient, g11: Gradient, xf: real, yf: real): real
  {
    var n00 := Dot2D(g00, xf, yf);
    var n10 := Dot2D(g10, xf - 1.0, yf);
    var n01 := Dot2D(g01, xf, yf - 1.0);
    var n11 := Dot2D(g11, xf - 1.0, yf - 1.0);
    var u := Fade(xf);
    var v := Fade(yf);
    var nx0 := Lerp(n00, n10, u);
    var nx1 := Lerp(n01, n11, u);
    Lerp(nx0, nx1, v)
  }

  /** The fade curve fixes both ends of the unit interval. */
  lemma FadeEndpoints()
    ensures Fade(0.0) == 0.0 && Fade(1.0) == 1.0
  {
  }

  /** The fade curve is point-symmetric about (1/2, 1/2). */
  lemma FadeSymmetric(t: real)
    ensures Fade(t) + Fade(1.0 - t) == 1.0
  {
    var s := 1.0 - t;
    assert s * s * s == 1.0 - 3.0 * t + 3.0 * t * t - t * t * t;
  }

  /** The fade curve maps the unit interval into itself. */
  lemma FadeUnit(t: real)
    requires 0.0 <= t <= 1.0
    ensures 0.0 <= Fade(t) <= 1.0
  {
    FadeNonNegative(t);
    FadeNonNegative(1.0 - t);
    FadeSymmetric(t);
  }

  /** On non-negative inputs the fade curve is non-negative: `6t^2 - 15t + 10` has no real root. */
  lemma FadeNonNegative(t: real)
    requires 0.0 <= t
    ensures 0.0 <= Fade(t)
  {
    var q := t * (t * 6.0 - 15.0) + 10.0;
    assert q == 6.0 * ((t - 1.25) * (t - 1.25)) + 0.625;
    SquareNonNegative(t - 1.25);
    MulNonNegative(t, t);
    MulNonNegative(t * t, t);
    MulNonNegative(t * t * t, q);
  }

  /** The fade curve is non-decreasing on the unit interval. */
  lemma FadeMonotone(s: real, t: real)
    requires 0.0 <= s <= t <= 1.0
    ensures Fade(s) <= Fade(t)
  {
    if t <= 0.5 {
      FadeMonotoneLowerHalf(s, t);
    } else if 0.5 <= s {
      FadeMonotoneLowerHalf(1.0 - t, 1.0 - s);
      FadeSymmetric(s);
      FadeSymmetric(t);
    } else {
      FadeMonotoneLowerHalf(s, 0.5);
      FadeMonotoneLowerHalf(1.0 - t, 0.5);
      FadeSymmetric(t);
      FadeSymmetric(0.5);
    }
  }

  /**
   * On [0, 1/2], `fade(t) - fade(s) = (t - s) G(s, t)` where the bracket G is a
   * sum of products of non-negative factors (the helper lemmas below).
   */
  lemma FadeMonotoneLowerHalf(s: real, t: real)
    requires 0.0 <= s <= t <= 0.5
    ensures Fade(s) <= Fade(t)
  {
    BracketNonNegative(s, t);
    MulNonNegative(t - s, (t * t + t * s + s * s) * (t * (t * 6.0 - 15.0) + 10.0) + s * s * s * (6.0 * (t + s) - 15.0));
    FadeGrowth(s, t);
  }

  lemma FadeGrowth(s: real, t: real)
    requires (t - s) * ((t * t + t * s + s * s) * (t * (t * 6.0 - 15.0) + 10.0) + s * s * s * (6.0 * (t + s) - 15.0)) >= 0.0
    ensures Fade(s) <= Fade(t)
  {
    FadeDifference(s, t);
  }

  lemma FadeDifference(s: real, t: real)
    ensures Fade(t) - Fade(s)
      == (t - s) * ((t * t + t * s + s * s) * (t * (t * 6.0 - 15.0) + 10.0) + s * s * s * (6.0 * (t + s) - 15.0))
  {
  }

  lemma BracketNonNegative(s: real, t: real)
    requires 0.0 <= s <= t <= 0.5
    ensures (t * t + t * s + s * s) * (t * (t * 6.0 - 15.0) + 10.0) + s * s * s * (6.0 * (t + s) - 15.0) >= 0.0
  {
    BracketIdentity(s, t);
    BracketTerm1(s, t);
    BracketTerm2(s, t);
    BracketTerm3(s, t);
    SquareNonNegative(s);
    SumNonNegative((t - s) * (t + 2.0 * s) * (t * (t * 6.0 - 15.0) + 10.0), (s * s) * ((0.5 - t) * (2.0 - t)),
      (s * s) * (6.0 * (s * (t + s)) + 15.0 * (0.5 - s)), s * s);
  }

  lemma BracketIdentity(s: real, t: real)
    ensures (t * t + t * s + s * s) * (t * (t * 6.0 - 15.0) + 10.0) + s * s * s * (6.0 * (t + s) - 15.0)
      == (t - s) * (t + 2.0 * s) * (t * (t * 6.0 - 15.0) + 10.0)
       + 18.0 * ((s * s) * ((0.5 - t) * (2.0 - t)))
       + (s * s) * (6.0 * (s * (t + s)) + 15.0 * (0.5 - s))
       + 4.5 * (s * s)
  {
  }

  lemma BracketTerm1(s: real, t: real)
    requires 0.0 <= s <= t <= 0.5
    ensures (t - s) * (t + 2.0 * s) * (t * (t * 6.0 - 15.0) + 10.0) >= 0.0
  {
    var h := t * (t * 6.0 - 15.0) + 10.0;
    assert h == 4.0 + 6.0 * ((0.5 - t) * (2.0 - t));
    MulNonNegative(0.5 - t, 2.0 - t);
    MulNonNegative(t - s, t + 2.0 * s);
    MulNonNegative((t - s) * (t + 2.0 * s), h);
  }

  lemma BracketTerm2(s: real, t: real)
    requires 0.0 <= s <= t <= 0.5
    ensures (s * s) * ((0.5 - t) * (2.0 - t)) >= 0.0
  {
    SquareNonNegative(s);
    MulNonNegative(0.5 - t, 2.0 - t);
    MulNonNegative(s * s, (0.5 - t) * (2.0 - t));
  }

  lemma BracketTerm3(s: real, t: real)
    requires 0.0 <= s <= t <= 0.5
    ensures (s * s) * (6.0 * (s * (t + s)) + 15.0 * (0.5 - s)) >= 0.0
  {
    SquareNonNegative(s);
    MulNonNegative(s, t + s);
    MulNonNegative(s * s, 6.0 * (s * (t + s)) + 15.0 * (0.5 - s));
  }

  lemma SumNonNegative(a: real, b: real, c: real, d: real)
    requires 0.0 <= a && 0.0 <= b && 0.0 <= c && 0.0 <= d
    ensures 0.0 <= a + 18.0 * b + c + 4.5 * d
  {
  }

  /** Interpolation returns its first end at 0 and its second at 1. */
  lemma LerpEndpoints(a: real, b: real)
    ensures Lerp(a, b, 0.0) == a && Lerp(a, b, 1.0) == b
  {
  }

  /** For a weight in the unit interval, interpolation stays between its two ends. */
  lemma LerpBetween(a: real, b: real, t: real)
    requires 0.0 <= t <= 1.0
    ensures a <= b ==> a <= Lerp(a, b, t) <= b
    ensures b <= a ==> b <= Lerp(a, b, t) <= a
  {
    assert Lerp(a, b, t) == a + t * (b - a);
    assert Lerp(a, b, t) == b - (1.0 - t) * (b - a);
    if a <= b {
      MulNonNegative(t, b - a);
      MulNonNegative(1.0 - t, b - a);
    } else {
      MulNonNegative(t, a - b);
      MulNonNegative(1.0 - t, a - b);
    }
  }

  lemma MulNonNegative(x: real, y: real)
    requires 0.0 <= x && 0.0 <= y
    ensures 0.0 <= x * y
  {
  }

  lemma SquareNonNegative(x: real)
    ensures 0.0 <= x * x
  {
  }

  /** A gradient dotted with the zero offset is zero. */
  lemma DotAtOrigin(g: Gradient)
    ensures Dot2D(g, 0.0, 0.0) == 0.0
  {
  }

  /** A table gradient dotted with an offset inside the unit square around the corner is at most 2 in magnitude. */
  lemma DotBound(g: Gradient, x: real, y: real)
    requires g in Grads
    requires -1.0 <= x <= 1.0 && -1.0 <= y <= 1.0
    ensures -2.0 <= Dot2D(g, x, y) <= 2.0
  {
  }

  /** At a lattice point both offsets are zero, both fades are zero, and the sample is `n00 = 0`. */
  lemma PerlinAtLattice(ix: int, iy: int)
    ensures PerlinNoise(ix as real, iy as real) == 0.0
  {
    assert Frac(ix as real) == 0.0 && Frac(iy as real) == 0.0;
    BlendAtOrigin(LatticeGradient(ix, iy), LatticeGradient(ix + 1, iy),
      LatticeGradient(ix, iy + 1), LatticeGradient(ix + 1, iy + 1));
  }

  lemma BlendAtOrigin(g00: Gradient, g10: Gradient, g01: Gradient, g11: Gradient)
    ensures Blend(g00, g10, g01, g11, 0.0, 0.0) == 0.0
  {
    FadeEndpoints();
    DotAtOrigin(g00);
  }

  /** Every sample lies in [-2, 2]: each corner term does, and interpolation with weights in [0, 1] keeps it there. */
  lemma PerlinBounded(x: real, y: real)
    ensures -2.0 <= PerlinNoise(x, y) <= 2.0
  {
    CellBounded(x.Floor, y.Floor, Frac(x), Frac(y));
  }

  lemma CellBounded(xi: int, yi: int, xf: real, yf: real)
    requires 0.0 <= xf <= 1.0 && 0.0 <= yf <= 1.0
    ensures -2.0 <= CellNoise(xi, yi, xf, yf) <= 2.0
  {
    BlendBounded(LatticeGradient(xi, yi), LatticeGradient(xi + 1, yi),
      LatticeGradient(xi, yi + 1), LatticeGradient(xi + 1, yi + 1), xf, yf);
  }

  /** With table gradients and an offset inside the unit square, the blend stays in [-2, 2]. */
  lemma BlendBounded(g00: Gradient, g10: Gradient, g01: Gradient, g11: Gradient, xf: real, yf: real)
    requires g00 in Grads && g10 in Grads && g01 in Grads && g11 in Grads
    requires 0.0 <= xf <= 1.0 && 0.0 <= yf <= 1.0
    ensures -2.0 <= Blend(g00, g10, g01, g11, xf, yf) <= 2.0
  {
    var n00 := Dot2D(g00, xf, yf);
    var n10 := Dot2D(g10, xf - 1.0, yf);
    var n01 := Dot2D(g01, xf, yf - 1.0);
    var n11 := Dot2D(g11, xf - 1.0, yf - 1.0);
    DotBound(g00, xf, yf);
    DotBound(g10, xf - 1.0, yf);
    DotBound(g01, xf, yf - 1.0);
    DotBound(g11, xf - 1.0, yf - 1.0);
    var u, v := Fade(xf), Fade(yf);
    FadeUnit(xf);
    FadeUnit(yf);
    LerpBetween(n00, n10, u);
    LerpBetween(n01, n11, u);
    LerpBetween(Lerp(n00, n10, u), Lerp(n01, n11, u), v);
  }
}
