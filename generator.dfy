/**
 * `TerrainGenerator`: the generator's settings as fields, the noise map
 * built by nested loops, the texture it colours in place, and the flat
 * RGBA array handed to the canvas.
 */
module Generator {
  import opened Noise
  import opened Fractal
  import opened Terrain
  import opened Raster
  import opened Heights

  class TerrainGenerator {
    var mapWidth: nat
    var mapHeight: nat
    var scale: real
    var octaves: nat
    var persistence: real
    var lacunarity: real
    var seed: real
    /** `offset.x` and `offset.y`. */
    var offsetX: real
    var offsetY: real
    var baseContinentThreshold: real
    var continentThreshold: real
    /** `null` until the first map is built, then `mapWidth` columns of `mapHeight` colours. */
    var mapTexture: array2?<Color>
    var seaLevel: real

    /** Coordinates are divided by `scale`, which the constructor sets to 50 and nothing changes. */
    ghost predicate Valid()
      reads this`scale
    {
      scale != 0.0
    }

    /** The fields the noise map depends on. */
    function NoiseSettings(): Settings
      reads this`scale, this`octaves, this`persistence, this`lacunarity, this`seed, this`offsetX, this`offsetY
    {
      Settings(scale, octaves, persistence, lacunarity, seed, offsetX, offsetY)
    }

    /**
     * The texture holds the colour of every cell's height under the current
     * threshold, and `flat` is the array of RGBA values pushed from it.
     */
    ghost predicate Shows(flat: seq<real>)
      requires Valid()
      reads this, mapTexture
    {
      && mapTexture != null
      && mapTexture.Length0 == mapWidth && mapTexture.Length1 == mapHeight
      && (forall x, y :: 0 <= x < mapWidth && 0 <= y < mapHeight ==>
            mapTexture[x, y] == GetColor(Height(NoiseSettings(), x, y), continentThreshold))
      && flat == Flatten(ColorGrid(PerlinNoise, NoiseSettings(), continentThreshold, mapWidth, mapHeight))
    }

    constructor ()
      ensures mapWidth == 200 && mapHeight == 200 && scale == 50.0
      ensures octaves == 3 && persistence == 0.5 && lacunarity == 2.5 && seed == 0.0
      ensures offsetX == 0.0 && offsetY == 0.0
      ensures baseContinentThreshold == 0.1 && continentThreshold == 0.1
      ensures mapTexture == null && seaLevel == 0.0
      ensures Valid()
    {
      mapWidth := 200;
      mapHeight := 200;
      scale := 50.0;
      octaves := 3;
      persistence := 0.5;
      lacunarity := 2.5;
      seed := 0.0;
      offsetX := 0.0;
      offsetY := 0.0;
      baseContinentThreshold := 0.1;
      continentThreshold := 0.1;
      mapTexture := null;
      seaLevel := 0.0;
    }

    /** `GenerateNoiseMap`: one octave sum of Perlin noise per cell. */
    method GenerateNoiseMap() returns (noiseMap: array2<real>)
      requires Valid()
      ensures fresh(noiseMap)
      ensures noiseMap.Length0 == mapWidth && noiseMap.Length1 == mapHeight
      ensures forall x, y :: 0 <= x < mapWidth && 0 <= y < mapHeight ==> noiseMap[x, y] == Height(NoiseSettings(), x, y)
    {
      noiseMap := FillNoiseMap(PerlinNoise, NoiseSettings(), mapWidth, mapHeight);
    }

    /**
     * `GenerateContinentMap` without the canvas: colour every cell of a new
     * texture, then push its RGBA values column by column. The returned
     * array is what is copied into the canvas image.
     */
    method GenerateContinentMap() returns (flat: seq<real>)
      requires Valid()
      modifies this`mapTexture
      ensures Shows(flat) && fresh(mapTexture)
    {
      var noiseMap := GenerateNoiseMap();
      var texture := new Color[mapWidth, mapHeight];
      mapTexture := texture;
      ColourTexture(noiseMap, texture, continentThreshold);
      ghost var grid := ColorGrid(PerlinNoise, NoiseSettings(), continentThreshold, mapWidth, mapHeight);
      flat := FlattenTexture(texture, grid);
    }

    /** `RandomSeed`, with the value `Math.random()` returned passed in as `draw`. */
    method RandomSeed(draw: real) returns (flat: seq<real>)
      requires Valid()
      requires 0.0 <= draw < 1.0
      modifies this`seed, this`mapTexture
      ensures seed == DrawSeed(draw)
      ensures Shows(flat) && fresh(mapTexture)
    {
      seed := DrawSeed(draw);
      flat := GenerateContinentMap();
    }

    /** `updateSeaLevel`: move the threshold with the slider and rebuild the map. */
    method UpdateSeaLevel(level: real) returns (flat: seq<real>)
      requires Valid()
      modifies this`seaLevel, this`continentThreshold, this`mapTexture
      ensures seaLevel == level && continentThreshold == SeaThreshold(baseContinentThreshold, level)
      ensures NoiseSettings() == old(NoiseSettings()) && baseContinentThreshold == old(baseContinentThreshold)
      ensures Shows(flat) && fresh(mapTexture)
    {
      seaLevel := level;
      continentThreshold := baseContinentThreshold + seaLevel / 100.0;
      flat := GenerateContinentMap();
    }

    /** `start`: build the first map. */
    method Start() returns (flat: seq<real>)
      requires Valid()
      modifies this`mapTexture
      ensures Shows(flat) && fresh(mapTexture)
    {
      flat := GenerateContinentMap();
    }

    /**
     * A shown map has `4 * mapWidth * mapHeight` values, and channel `k` of
     * cell (x, y) is channel `k` of that cell's texture colour, at slot
     * `4 (x mapHeight + y) + k`; every fourth value is the opaque alpha.
     */
    lemma ShownLayout(flat: seq<real>)
      requires Valid() && Shows(flat)
      ensures |flat| == 4 * (mapWidth * mapHeight)
      ensures forall x, y, k :: 0 <= x < mapWidth && 0 <= y < mapHeight && 0 <= k < 4 ==>
        Slot(x, y, mapHeight, k) < |flat| && flat[Slot(x, y, mapHeight, k)] == Rgba(mapTexture[x, y])[k]
      ensures forall x, y :: 0 <= x < mapWidth && 0 <= y < mapHeight ==>
        Slot(x, y, mapHeight, 3) < |flat| && flat[Slot(x, y, mapHeight, 3)] == 255.0
    {
      var grid := ColorGrid(PerlinNoise, NoiseSettings(), continentThreshold, mapWidth, mapHeight);
      FlattenLayout(grid, mapHeight);
    }

    /** In a shown map a cell is water exactly when its height is below the continent threshold. */
    lemma ShownWater(flat: seq<real>, x: nat, y: nat)
      requires Valid() && Shows(flat)
      requires x < mapWidth && y < mapHeight
      ensures IsWater(mapTexture[x, y]) <==> Height(NoiseSettings(), x, y) < continentThreshold
    {
      WaterBelowThreshold(Height(NoiseSettings(), x, y), continentThreshold);
    }
  }

  /**
   * The octave loop of `GenerateNoiseMap` for cell (x, y), over the sampler
   * `noise`: `amplitude` and `frequency` start at 1 and are multiplied by
   * `persistence` and `lacunarity` after each octave.
   */
  method OctaveHeight(noise: (real, real) -> real, s: Settings, x: nat, y: nat) returns (noiseHeight: real)
    requires s.scale != 0.0
    ensures noiseHeight == HeightWith(noise, s, x, y)
  {
    var amplitude := 1.0;
    var frequency := 1.0;
    noiseHeight := 0.0;
    var i := 0;
    while i < s.octaves
      invariant 0 <= i <= s.octaves
      invariant amplitude == Pow(s.persistence, i) && frequency == Pow(s.lacunarity, i)
      invariant noiseHeight == OctaveSum(noise, Scaled(x, s.offsetX, s.scale), Scaled(y, s.offsetY, s.scale),
                                         s.seed, s.persistence, s.lacunarity, i)
    {
      var sampleX := Scaled(x, s.offsetX, s.scale) * frequency;
      var sampleY := Scaled(y, s.offsetY, s.scale) * frequency;
      var perlinValue := noise(s.seed + sampleX, s.seed + sampleY);
      OctaveAdvance(noise, Scaled(x, s.offsetX, s.scale), Scaled(y, s.offsetY, s.scale),
        s.seed, s.persistence, s.lacunarity, i, amplitude, frequency, sampleX, sampleY, noiseHeight, perlinValue);
      noiseHeight := noiseHeight + perlinValue * amplitude;
      amplitude := amplitude * s.persistence;
      frequency := frequency * s.lacunarity;
      i := i + 1;
    }
  }

  /** The cell loops of `GenerateNoiseMap`: rows `y` outside, columns `x` inside. */
  method FillNoiseMap(noise: (real, real) -> real, s: Settings, width: nat, height: nat) returns (noiseMap: array2<real>)
    requires s.scale != 0.0
    ensures fresh(noiseMap)
    ensures noiseMap.Length0 == width && noiseMap.Length1 == height
    ensures forall x, y :: 0 <= x < width && 0 <= y < height ==> noiseMap[x, y] == HeightWith(noise, s, x, y)
  {
    noiseMap := new real[width, height];
    var y := 0;
    while y < height
      invariant 0 <= y <= height
      invariant forall i, j :: 0 <= i < width && 0 <= j < y ==> noiseMap[i, j] == HeightWith(noise, s, i, j)
    {
      var x := 0;
      while x < width
        invariant 0 <= x <= width
        invariant forall i, j :: 0 <= i < width && 0 <= j < y ==> noiseMap[i, j] == HeightWith(noise, s, i, j)
        invariant forall i :: 0 <= i < x ==> noiseMap[i, y] == HeightWith(noise, s, i, y)
      {
        var noiseHeight := OctaveHeight(noise, s, x, y);
        noiseMap[x, y] := noiseHeight;
        x := x + 1;
      }
      y := y + 1;
    }
  }

  /** The texture loops of `GenerateContinentMap`: `x` outside, `y` inside, one colour per cell. */
  method ColourTexture(noiseMap: array2<real>, texture: array2<Color>, threshold: real)
    requires texture.Length0 == noiseMap.Length0 && texture.Length1 == noiseMap.Length1
    modifies texture
    ensures forall x, y :: 0 <= x < texture.Length0 && 0 <= y < texture.Length1 ==>
      texture[x, y] == GetColor(noiseMap[x, y], threshold)
  {
    var x := 0;
    while x < texture.Length0
      invariant 0 <= x <= texture.Length0
      invariant forall i, j :: 0 <= i < x && 0 <= j < texture.Length1 ==> texture[i, j] == GetColor(noiseMap[i, j], threshold)
    {
      var y := 0;
      while y < texture.Length1
        invariant 0 <= y <= texture.Length1
        invariant forall i, j :: 0 <= i < x && 0 <= j < texture.Length1 ==> texture[i, j] == GetColor(noiseMap[i, j], threshold)
        invariant forall j :: 0 <= j < y ==> texture[x, j] == GetColor(noiseMap[x, j], threshold)
      {
        var color := GetColor(noiseMap[x, y], threshold);
        texture[x, y] := color;
        y := y + 1;
      }
      x := x + 1;
    }
  }

  /**
   * The push loops of `GenerateContinentMap`, `x` outside and `y` inside:
   * four values per cell, in the order `Flatten` lays out the columns.
   */
  method FlattenTexture(texture: array2<Color>, ghost grid: seq<seq<Color>>) returns (flat: seq<real>)
    requires |grid| == texture.Length0 && Rectangular(grid, texture.Length1)
    requires forall x, y :: 0 <= x < texture.Length0 && 0 <= y < texture.Length1 ==> texture[x, y] == grid[x][y]
    ensures flat == Flatten(grid)
  {
    flat := [];
    var x := 0;
    while x < texture.Length0
      invariant 0 <= x <= texture.Length0
      invariant flat == Flatten(grid[..x])
    {
      var y := 0;
      while y < texture.Length1
        invariant 0 <= y <= texture.Length1
        invariant flat == Flatten(grid[..x]) + FlattenColumn(grid[x][..y])
      {
        var c := texture[x, y];
        ghost var before := flat;
        flat := flat + [c.r * 255.0];
        flat := flat + [c.g * 255.0];
        flat := flat + [c.b * 255.0];
        flat := flat + [255.0];
        PushCell(Flatten(grid[..x]), grid[x], y, before, flat);
        y := y + 1;
      }
      assert grid[..x + 1][..x] == grid[..x];
      assert grid[x][..texture.Length1] == grid[x];
      x := x + 1;
    }
    assert grid[..texture.Length0] == grid;
  }
}
