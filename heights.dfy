/**
 * What the maps hold, cell by cell: the noise map value of a cell is the
 * octave sum of Perlin noise at the cell's offset coordinate divided by the
 * scale, and the texture holds its colour.
 */
module Heights {
  import opened Noise
  import opened Fractal
  import opened Terrain
  import opened Raster

  /** The generator's fields that the noise map depends on. */
  datatype Settings = Settings(
    scale: real,
    octaves: nat,
    persistence: real,
    lacunarity: real,
    seed: real,
    offsetX: real,
    offsetY: real)

  /** A cell coordinate moved by the offset and divided by the scale, before the octave frequency applies. */
  function Scaled(c: int, offset: real, scale: real): real
    requires scale != 0.0
  {
    (c as real + offset) / scale
  }

  /**
   * `Math.floor(draw * 100000)` for a draw of `Math.random()`: a whole
   * number from 0 to 99999.
   */
  function DrawSeed(draw: real): (seed: real)
    requires 0.0 <= draw < 1.0
    ensures 0.0 <= seed < 100000.0
    ensures seed == seed.Floor as real
  {
    (draw * 100000.0).Floor as real
  }

  /** The octave sum of the sampler `noise` at ((x + offset.x) / scale, (y + offset.y) / scale). */
  function HeightWith(noise: (real, real) -> real, s: Settings, x: int, y: int): real
    requires s.scale != 0.0
  {
    OctaveSum(noise, Scaled(x, s.offsetX, s.scale), Scaled(y, s.offsetY, s.scale),
      s.seed, s.persistence, s.lacunarity, s.octaves)
  }

  /** `noiseMap[x][y]`: the octave sum of Perlin noise for cell (x, y). */
  function Height(s: Settings, x: int, y: int): real
    requires s.scale != 0.0
  {
    HeightWith(PerlinNoise, s, x, y)
  }

  /** The texture as columns: cell (x, y) holds the colour of its octave sum of `noise`. */
  function ColorGrid(noise: (real, real) -> real, s: Settings, threshold: real, width: nat, height: nat): (grid: seq<seq<Color>>)
    requires s.scale != 0.0
    ensures |grid| == width && Rectangular(grid, height)
    ensures forall x, y :: 0 <= x < width && 0 <= y < height ==> grid[x][y] == GetColor(HeightWith(noise, s, x, y), threshold)
  {
    seq(width, x => seq(height, y => GetColor(HeightWith(noise, s, x, y), threshold)))
  }

  /** A cell of the texture is water exactly when its height is below the threshold. */
  lemma GridWater(noise: (real, real) -> real, s: Settings, threshold: real, width: nat, height: nat, x: nat, y: nat)
    requires s.scale != 0.0 && x < width && y < height
    ensures IsWater(ColorGrid(noise, s, threshold, width, height)[x][y]) <==> HeightWith(noise, s, x, y) < threshold
  {
    WaterBelowThreshold(HeightWith(noise, s, x, y), threshold);
  }

  /** Raising the threshold keeps every water cell of the texture water. */
  lemma GridFloods(noise: (real, real) -> real, s: Settings, threshold: real, higher: real, width: nat, height: nat, x: nat, y: nat)
    requires s.scale != 0.0 && x < width && y < height && threshold <= higher
    ensures IsWater(ColorGrid(noise, s, threshold, width, height)[x][y])
        ==> IsWater(ColorGrid(noise, s, higher, width, height)[x][y])
  {
    GridWater(noise, s, threshold, width, height, x, y);
    GridWater(noise, s, higher, width, height, x, y);
  }

  /** No cell is higher or lower than twice the sum of the octave amplitudes. */
  lemma HeightBounded(s: Settings, x: int, y: int)
    requires s.scale != 0.0
    ensures Abs(Height(s, x, y)) <= 2.0 * AmplitudeSum(Abs(s.persistence), s.octaves)
  {
    PerlinSamplesBounded();
    OctaveSumBound(PerlinNoise, Scaled(x, s.offsetX, s.scale), Scaled(y, s.offsetY, s.scale),
      s.seed, s.persistence, s.lacunarity, s.octaves);
  }

  /** With the constructor's three octaves at persistence 0.5, heights lie in [-3.5, 3.5]. */
  lemma DefaultHeightBounded(s: Settings, x: int, y: int)
    requires s.scale != 0.0 && s.octaves == 3 && s.persistence == 0.5
    ensures -3.5 <= Height(s, x, y) <= 3.5
  {
    HeightBounded(s, x, y);
    assert AmplitudeSum(0.5, 3) == 1.75 by {
      assert Pow(0.5, 0) == 1.0;
      assert Pow(0.5, 1) == 0.5;
      assert Pow(0.5, 2) == 0.25;
    }
  }

  /** Without octaves the map is flat. */
  lemma NoOctavesFlat(s: Settings, x: int, y: int)
    requires s.scale != 0.0 && s.octaves == 0
    ensures Height(s, x, y) == 0.0
  {
  }

  /**
   * With no offset and a whole-number seed, which is what `RandomSeed`
   * produces, every octave samples cell (0, 0) at the lattice point
   * (seed, seed), so its height is 0.
   */
  lemma OriginHeightZero(s: Settings)
    requires s.scale != 0.0 && s.offsetX == 0.0 && s.offsetY == 0.0
    requires s.seed == s.seed.Floor as real
    ensures Height(s, 0, 0) == 0.0
  {
    var sx := Scaled(0, s.offsetX, s.scale);
    assert sx == 0.0;
    forall i: nat
      ensures PerlinNoise(OctaveCoord(s.seed, sx, s.lacunarity, i), OctaveCoord(s.seed, sx, s.lacunarity, i)) == 0.0
    {
      assert OctaveCoord(s.seed, sx, s.lacunarity, i) == s.seed;
      PerlinAtLattice(s.seed.Floor, s.seed.Floor);
    }
    OctaveSumVanishes(PerlinNoise, sx, sx, s.seed, s.persistence, s.lacunarity, s.octaves);
  }

  /**
   * Under the constructor's threshold of 0.1 (any threshold in (0, 0.2]),
   * that cell is therefore always ocean.
   */
  lemma OriginOcean(s: Settings, threshold: real)
    requires s.scale != 0.0 && s.offsetX == 0.0 && s.offsetY == 0.0
    requires s.seed == s.seed.Floor as real
    requires 0.0 < threshold <= 0.2
    ensures GetColor(Height(s, 0, 0), threshold) == Ocean
  {
    OriginHeightZero(s);
  }
}
