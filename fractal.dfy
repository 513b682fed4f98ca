/**
 * Fractal summation: octave `i` samples the noise at `lacunarity^i` times the
 * base frequency and weighs it by `persistence^i`; the height is the plain,
 * unnormalised sum over the octaves. The sum is stated for any sampler
 * `noise`; the generator instantiates it with `PerlinNoise`, and the bound
 * below needs only that every sample lies in [-2, 2].
 */
module Fractal {
  import opened Noise

  /** `b^n`, built the way the source's loop builds `amplitude` and `frequency`: one factor per octave. */
  function Pow(b: real, n: nat): real
  {
    if n == 0 then 1.0 else Pow(b, n - 1) * b
  }

  /** The coordinate octave `i` samples: `seed + s * lacunarity^i`. */
  function OctaveCoord(seed: real, s: real, lacunarity: real, i: nat): real
  {
    seed + s * Pow(lacunarity, i)
  }

  /** With `frequency` at `lacunarity^i`, the loop's `seed + s * frequency` is octave `i`'s coordinate. */
  lemma OctaveCoordAt(seed: real, s: real, lacunarity: real, i: nat, frequency: real)
    requires frequency == Pow(lacunarity, i)
    ensures seed + s * frequency == OctaveCoord(seed, s, lacunarity, i)
  {
  }

  /**
   * The sum, over octaves `i < n`, of
   * `noise(seed + sx * lacunarity^i, seed + sy * lacunarity^i) * persistence^i`,
   * where (sx, sy) is the cell's coordinate already offset and divided by the scale.
   */
  function OctaveSum(noise: (real, real) -> real, sx: real, sy: real, seed: real,
                     persistence: real, lacunarity: real, n: nat): real
  {
    if n == 0 then 0.0
    else
      OctaveSum(noise, sx, sy, seed, persistence, lacunarity, n - 1)
      + noise(OctaveCoord(seed, sx, lacunarity, n - 1), OctaveCoord(seed, sy, lacunarity, n - 1)) * Pow(persistence, n - 1)
  }

  /**
   * One pass of the octave loop: adding octave `i`'s sample, weighted by
   * `amplitude`, to the sum of the octaves before it gives the sum of the
   * first `i + 1` octaves, and the two multiplications move `amplitude`
   * and `frequency` on to octave `i + 1`.
   */
  lemma OctaveAdvance(noise: (real, real) -> real, sx: real, sy: real, seed: real,
                      persistence: real, lacunarity: real, i: nat,
                      amplitude: real, frequency: real, sampleX: real, sampleY: real, sum: real, value: real)
    requires amplitude == Pow(persistence, i) && frequency == Pow(lacunarity, i)
    requires sampleX == sx * frequency && sampleY == sy * frequency
    requires sum == OctaveSum(noise, sx, sy, seed, persistence, lacunarity, i)
    requires value == noise(seed + sampleX, seed + sampleY)
    ensures sum + value * amplitude == OctaveSum(noise, sx, sy, seed, persistence, lacunarity, i + 1)
    ensures amplitude * persistence == Pow(persistence, i + 1)
    ensures frequency * lacunarity == Pow(lacunarity, i + 1)
  {
    OctaveCoordAt(seed, sx, lacunarity, i, frequency);
    OctaveCoordAt(seed, sy, lacunarity, i, frequency);
    OctaveSumStep(noise, sx, sy, seed, persistence, lacunarity, i + 1);
  }

  /** The last octave's term, split off. */
  lemma OctaveSumStep(noise: (real, real) -> real, sx: real, sy: real, seed: real,
                      persistence: real, lacunarity: real, n: nat)
    requires n > 0
    ensures OctaveSum(noise, sx, sy, seed, persistence, lacunarity, n)
         == OctaveSum(noise, sx, sy, seed, persistence, lacunarity, n - 1)
            + noise(OctaveCoord(seed, sx, lacunarity, n - 1), OctaveCoord(seed, sy, lacunarity, n - 1)) * Pow(persistence, n - 1)
  {
  }

  /** Every sample of `noise` lies in [-2, 2], as every sample of `PerlinNoise` does. */
  ghost predicate SamplesBounded(noise: (real, real) -> real)
  {
    forall a: real, b: real :: -2.0 <= noise(a, b) <= 2.0
  }

  /** `PerlinNoise` is such a sampler. */
  lemma PerlinSamplesBounded()
    ensures SamplesBounded(PerlinNoise)
  {
    forall a: real, b: real
      ensures -2.0 <= PerlinNoise(a, b) <= 2.0
    {
      PerlinBounded(a, b);
    }
  }

  /** The sum of the amplitudes `a^i` for `i < n`. */
  function AmplitudeSum(a: real, n: nat): real
  {
    if n == 0 then 0.0 else AmplitudeSum(a, n - 1) + Pow(a, n - 1)
  }

  function Abs(r: real): real
  {
    if r < 0.0 then -r else r
  }

  /** A single octave is the bare noise sample at the seeded coordinate. */
  lemma OneOctave(noise: (real, real) -> real, sx: real, sy: real, seed: real, persistence: real, lacunarity: real)
    ensures OctaveSum(noise, sx, sy, seed, persistence, lacunarity, 1) == noise(seed + sx, seed + sy)
  {
  }

  /** The magnitude of a power is the power of the magnitude. */
  lemma {:induction false} PowAbs(b: real, n: nat)
    ensures Abs(Pow(b, n)) == Pow(Abs(b), n)
    ensures Pow(Abs(b), n) >= 0.0
  {
    if n > 0 {
      PowAbs(b, n - 1);
      AbsMul(Pow(b, n - 1), b);
      MulNonNegative(Pow(Abs(b), n - 1), Abs(b));
    }
  }

  lemma AbsMul(x: real, y: real)
    ensures Abs(x * y) == Abs(x) * Abs(y)
  {
    if x >= 0.0 && y >= 0.0 {
      MulNonNegative(x, y);
    } else if x < 0.0 && y >= 0.0 {
      MulNonNegative(-x, y);
    } else if x >= 0.0 && y < 0.0 {
      MulNonNegative(x, -y);
    } else {
      MulNonNegative(-x, -y);
    }
  }

  /** Adding a term `v w` with `v` in [-2, 2] widens a bound `2 b` on the sum by `2 |w|`. */
  lemma AddScaledTerm(total: real, sum: real, b: real, v: real, w: real, amplitude: real)
    requires total == sum + v * w
    requires Abs(sum) <= 2.0 * b
    requires -2.0 <= v <= 2.0
    requires amplitude == Abs(w)
    ensures Abs(total) <= 2.0 * (b + amplitude)
  {
    ScaledBound(v, w);
  }

  /** A value in [-2, 2] scaled by `w` lies within `2 |w|` of zero. */
  lemma ScaledBound(v: real, w: real)
    requires -2.0 <= v <= 2.0
    ensures -2.0 * Abs(w) <= v * w <= 2.0 * Abs(w)
  {
    if w >= 0.0 {
      MulNonNegative(2.0 - v, w);
      MulNonNegative(v + 2.0, w);
    } else {
      MulNonNegative(2.0 - v, -w);
      MulNonNegative(v + 2.0, -w);
    }
  }

  /**
   * Each octave contributes at most `2 |persistence|^i` in magnitude, so the
   * height is bounded by twice the sum of the amplitude magnitudes.
   */
  lemma {:induction false} OctaveSumBound(noise: (real, real) -> real, sx: real, sy: real, seed: real,
                                          persistence: real, lacunarity: real, n: nat)
    requires SamplesBounded(noise)
    ensures Abs(OctaveSum(noise, sx, sy, seed, persistence, lacunarity, n)) <= 2.0 * AmplitudeSum(Abs(persistence), n)
  {
    if n > 0 {
      OctaveSumBound(noise, sx, sy, seed, persistence, lacunarity, n - 1);
      PowAbs(persistence, n - 1);
      OctaveSumStep(noise, sx, sy, seed, persistence, lacunarity, n);
      AddScaledTerm(OctaveSum(noise, sx, sy, seed, persistence, lacunarity, n),
        OctaveSum(noise, sx, sy, seed, persistence, lacunarity, n - 1),
        AmplitudeSum(Abs(persistence), n - 1),
        noise(OctaveCoord(seed, sx, lacunarity, n - 1), OctaveCoord(seed, sy, lacunarity, n - 1)),
        Pow(persistence, n - 1), Pow(Abs(persistence), n - 1));
    }
  }

  /** When every octave samples a zero of the noise, the sum is zero. */
  lemma {:induction false} OctaveSumVanishes(noise: (real, real) -> real, sx: real, sy: real, seed: real,
                                             persistence: real, lacunarity: real, n: nat)
    requires forall i: nat :: i < n ==> noise(OctaveCoord(seed, sx, lacunarity, i), OctaveCoord(seed, sy, lacunarity, i)) == 0.0
    ensures OctaveSum(noise, sx, sy, seed, persistence, lacunarity, n) == 0.0
  {
    if n > 0 {
      OctaveSumVanishes(noise, sx, sy, seed, persistence, lacunarity, n - 1);
      OctaveSumStep(noise, sx, sy, seed, persistence, lacunarity, n);
    }
  }
}
