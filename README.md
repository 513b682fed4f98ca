# Terrain generator: lattice noise, octave sums and terrain colouring

This project models the `TerrainGenerator` class of `script.js` in Dafny. The class builds a
`mapWidth` × `mapHeight` terrain map from layered gradient noise and colours it by height; the
model states and proves what its code computes.

- **Lattice hash and gradient** (`Gradients`, `JsArith`). `grad2D` hashes a lattice point with
  JavaScript's 32-bit `^` and `>>`, which apply ToInt32 (section 7.1.6 of ECMA-262) to both
  operands of `^` and the left operand of `>>`; the shift count 13 passes ToUint32 and the mask to
  five bits unchanged. It then picks `grads[hash % 8]` with JavaScript's dividend-signed remainder. The result
  is modelled as an `Option<Gradient>`, so an index outside the table would show up as `None`. The
  model then proves that this never happens: `v >> 13` keeps the sign of `v`, so
  `(h >> 13) ^ h` always has a clear sign bit.
- **One noise sample** (`Noise`). `fade`, `lerp`, `dot2D` and `perlinNoise` are modelled over exact
  reals, with `.Floor` standing in for `Math.floor`. The sample is split into the lattice lookup
  (`CellNoise`) and the blend of four corner gradients (`Blend`). Proved properties:
  - fade and lerp endpoints;
  - fade symmetry and monotonicity;
  - the sample is zero at lattice points;
  - every sample lies in [-2, 2].
- **Octave sum** (`Fractal`, `Heights`). A cell's height is the sum over octaves `i` of
  `noise(seed + sx·lacunarity^i, seed + sy·lacunarity^i) · persistence^i`, where
  `(sx, sy) = ((x + offset.x)/scale, (y + offset.y)/scale)`.
  - The sum is written for any sampler `noise`; the generator instantiates it with `PerlinNoise`.
  - On that sum the model proves the amplitude bound, that zero octaves give a flat map, and that cell (0, 0) has height 0 whenever the offset is zero and the seed is a whole number, so that under the constructor's threshold (any threshold in (0, 0.2]) it is ocean.
- **Terrain bands** (`Terrain`). `GetColor` is a first-match chain of four strict `<` tests around
  `continentThreshold`. The model proves:
  - the chain equals counting the band edges a height has reached;
  - each colour owns exactly one half-open interval;
  - the band rises with the height and falls as the threshold rises;
  - raising the sea-level slider never turns water into land.
- **Flat RGBA array** (`Raster`). The texture is pushed `x` outside, `y` inside, four values per
  cell. Channel `k` of cell (x, y) lands at `4(x·mapHeight + y) + k`, and every alpha is 255.
- **The class** (`Generator`). `TerrainGenerator` keeps the source's fields.
  - `GenerateNoiseMap` fills a fresh `array2<real>`. `GenerateContinentMap` colours a fresh `mapTexture` in place and returns the flat RGBA array in place of drawing it.
  - `RandomSeed`, `UpdateSeaLevel` and `Start` change their fields and rebuild the map.
  - The loops live in module-level methods (`OctaveHeight`, `FillNoiseMap`, `ColourTexture`, `FlattenTexture`). The class methods call them with the generator's fields, and each loop is proved against the functions above.

A few behaviours of the code are worth knowing when reading the model:
- **Hash index.** `hash % 8` is used without normalisation, which is harmless because the hash is never negative (`Gradients.HashRange`).
- **Pixel order.** `ImageData` reads rows, but the code pushes column by column, so cell (x, y) lands at `4(x·mapHeight + y)` and a square map, such as the constructor's 200 × 200, is shown transposed. When `mapWidth` and `mapHeight` differ, the rows cut across columns and the image is not a transposition.
- **Validation.** The class validates nothing. Zero octaves give a flat map (`Heights.NoOctavesFlat`). `scale != 0` is the class invariant `Valid()`: the constructor sets 50 and nothing in the core changes it.
- **Colour values.** The code pushes the unrounded products `colour·255`, and `ImageData` rounds and clamps them.

## Model

| member | source | states |
|---|---|---|
| JsArith.ToInt32 | script.js:148-149 | the result is an int32 congruent to the input modulo 2^32, and is the input itself when that is already an int32 |
| JsArith.Xor | script.js:148-149 | `a ^ b` on int32 operands is an int32 that is negative exactly when exactly one operand is negative |
| JsArith.XorBitsTop | script.js:148-149 | the top bit of a k-bit exclusive or is set iff it is set in exactly one operand |
| JsArith.ShiftRight | script.js:149 | `a >> n` for n < 32 is `floor(a / 2^n)`: an int32 with the sign of `a` |
| JsArith.Remainder | script.js:160 | `n % d` is congruent to `n` modulo `d`, lies strictly between `-d` and `d` and has the sign of the dividend |
| Gradients.Hash | script.js:148-149 | definition: `((x·46335) ^ y)·16713`, then `(h >> 13) ^ h`, through the `JsArith` operators; no contract of its own, its range is `Gradients.HashRange` |
| Gradients.HashRange | script.js:148-149 | the lattice hash is never negative and is below 2^31 |
| Gradients.Lookup | script.js:160 | definition: indexing the table, `None` for an index outside it (JavaScript's `undefined`); no contract of its own, see `Gradients.LookupSelects` |
| Gradients.Grad2D | script.js:147-161 | definition: `grads[hash % 8]` as an `Option`, with JavaScript's remainder; no contract of its own, its totality is `Gradients.Grad2DTotal` |
| Gradients.LookupSelects | script.js:160 | for an int32 hash the index `hash % 8` has the hash's sign and magnitude below 8; it names a table entry iff the hash is non-negative or a multiple of 8, and that entry is `grads[hash mod 8]` |
| Gradients.Grad2DTotal | script.js:147-161 | `grad2D` is never undefined: it returns the table entry at `hash mod 8` |
| Gradients.GradsShape | script.js:150-159 | eight pairwise different entries, components in {-1, 0, 1}, none the zero vector |
| Noise.PerlinNoise | script.js:121-142 | definition: floor and fractional part of each coordinate, then `CellNoise`; no contract of its own, see `Noise.PerlinAtLattice` and `Noise.PerlinBounded` |
| Noise.CellNoise | script.js:131-139 | definition: the four corner gradients of the cell, blended; no contract of its own, see `Noise.CellBounded` |
| Noise.Blend | script.js:131-139 | definition: the four corner dot products, faded weights and three lerps; no contract of its own, see `Noise.BlendAtOrigin` and `Noise.BlendBounded` |
| Noise.LatticeGradient | script.js:131-134 | each corner's gradient is an entry of the table |
| Noise.Frac | script.js:123-128 | `x - Math.floor(x)` lies in [0, 1) |
| Noise.FractionUnique | script.js:123-128 | `x - floor(x)` is the only value in [0, 1) that takes `x` down to an integer |
| Noise.Fade | script.js:163-165 | definition: `t³(t(6t - 15) + 10)`; no contract of its own, its properties are `Noise.FadeEndpoints`, `Noise.FadeSymmetric`, `Noise.FadeUnit` and `Noise.FadeMonotone` |
| Noise.FadeEndpoints | script.js:163-165 | `fade(0) = 0` and `fade(1) = 1` |
| Noise.FadeSymmetric | script.js:163-165 | `fade(t) + fade(1 - t) = 1` |
| Noise.FadeUnit | script.js:163-165 | `fade` maps [0, 1] into [0, 1] |
| Noise.FadeMonotone | script.js:163-165 | `fade` is non-decreasing on [0, 1] |
| Noise.Lerp | script.js:167-169 | definition: `(1 - t)·a + t·b`; no contract of its own, see `Noise.LerpEndpoints` and `Noise.LerpBetween` |
| Noise.LerpEndpoints | script.js:167-169 | `lerp(a, b, 0) = a` and `lerp(a, b, 1) = b` |
| Noise.LerpBetween | script.js:167-169 | for a weight in [0, 1] the interpolation lies between its two ends |
| Noise.Dot2D | script.js:144-146 | definition: `g[0]·x + g[1]·y`; no contract of its own, see `Noise.DotAtOrigin` and `Noise.DotBound` |
| Noise.DotAtOrigin | script.js:144-146 | `dot2D(g, 0, 0) = 0` |
| Noise.DotBound | script.js:144-146 | a table gradient dotted with an offset in [-1, 1]² lies in [-2, 2] |
| Noise.BlendAtOrigin | script.js:131-139 | at offset (0, 0) the blend of any four corner gradients is 0 |
| Noise.BlendBounded | script.js:131-139 | with table gradients and an offset in [0, 1]² the blend lies in [-2, 2] |
| Noise.CellBounded | script.js:131-139 | a cell's noise at an offset in [0, 1]² lies in [-2, 2] |
| Noise.PerlinAtLattice | script.js:121-142 | `perlinNoise` is 0 at every integer lattice point |
| Noise.PerlinBounded | script.js:121-142 | every `perlinNoise` sample lies in [-2, 2] |
| Fractal.OctaveSum | script.js:27-42 | definition: the sum over octaves `i < n` of the noise at octave i's coordinates weighted by `persistence^i`; no contract of its own, the loop is proved equal to it in `Generator.OctaveHeight`, and its properties are `Fractal.OneOctave`, `Fractal.OctaveSumBound` and `Fractal.OctaveSumVanishes` |
| Fractal.OctaveAdvance | script.js:31-41 | one pass of the octave loop extends the sum by one octave and moves `amplitude` and `frequency` to the next powers |
| Fractal.OneOctave | script.js:31-42 | a single octave samples at `(seed + sx, seed + sy)` with weight 1 |
| Fractal.PerlinSamplesBounded | script.js:121-142 | the Perlin sampler is bounded by 2 everywhere |
| Fractal.OctaveSumBound | script.js:31-42 | with samples in [-2, 2], the octave sum is at most `2 · Σ abs(persistence)^i` in magnitude |
| Fractal.OctaveSumVanishes | script.js:31-42 | if every octave samples a zero of the noise, the sum is 0 |
| Terrain.GetColor | script.js:51-68 | the colour is one of the five palette colours |
| Terrain.PaletteDistinct | script.js:51-68 | the five colours are pairwise different |
| Terrain.GetColorIsBand | script.js:51-68 | the first-match chain returns the palette colour indexed by the number of band edges the value has reached |
| Terrain.GetColorIntervals | script.js:51-68 | each colour is returned exactly on its half-open interval of values (both directions) |
| Terrain.WaterBelowThreshold | script.js:51-57 | a value is coloured deep ocean or ocean iff it is below `continentThreshold` |
| Terrain.BandMonotone | script.js:51-68 | for a fixed threshold the band never falls as the value grows |
| Terrain.BandAntitone | script.js:51-68 | for a fixed value the band never rises as the threshold grows |
| Terrain.SeaLevelFloods | script.js:112-116 | a higher slider level never raises a cell's band, and water stays water |
| Terrain.SeaThreshold | script.js:114 | definition: `base + level / 100`; no contract of its own, see `Terrain.SeaThresholdSteps` and `Terrain.SeaLevelFloods` |
| Terrain.SeaThresholdSteps | script.js:112-114 | at level 0 the threshold is the base one, and each slider step adds 0.01 |
| Raster.Rgba | script.js:92-95 | definition: the four values pushed for one colour; no contract of its own, see `Raster.PushCell` and `Raster.AlphaOpaque` |
| Raster.Flatten | script.js:88-97 | definition: the pushes of every column in order; no contract of its own, the loops are proved equal to it in `Generator.FlattenTexture`, and its layout is `Raster.FlattenLayout` |
| Raster.FlattenColumn | script.js:91-96 | a column pushes four values per cell |
| Raster.PushCell | script.js:92-95 | the four pushes of a cell extend the column's pushes by that cell |
| Raster.ColumnLayout | script.js:91-96 | channel k of cell y of a column is at position `4y + k` |
| Raster.FlattenLayout | script.js:90-97 | the flat array has `4 · width · height` values and channel k of cell (x, y) is at `4(x·height + y) + k` |
| Raster.AlphaOpaque | script.js:95 | every alpha slot holds 255 |
| Heights.DrawSeed | script.js:109 | `Math.floor(draw · 100000)` for a draw in [0, 1) is a whole number in [0, 100000) |
| Heights.Height | script.js:27-44 | definition: the octave sum of Perlin noise at the cell's offset and scaled coordinates, stored as `noiseMap[x][y]`; no contract of its own, see `Heights.HeightBounded` and `Heights.OriginHeightZero` |
| Heights.ColorGrid | script.js:72-79 | definition of the texture as columns of `GetColor` of each height; its ensures only unpack the comprehension, and its properties are `Heights.GridWater` and `Heights.GridFloods` |
| Heights.GridWater | script.js:72-79 | a texture cell is water iff its height is below the threshold (both directions) |
| Heights.GridFloods | script.js:72-79 | raising the threshold keeps every water cell of the texture water |
| Heights.HeightBounded | script.js:19-48 | every height is at most `2 · Σ_{i<octaves} abs(persistence)^i` in magnitude |
| Heights.DefaultHeightBounded | script.js:27-42 | with the constructor's 3 octaves at persistence 0.5, heights lie in [-3.5, 3.5] |
| Heights.NoOctavesFlat | script.js:29-44 | with zero octaves every height is 0 |
| Heights.OriginHeightZero | script.js:31-38 | with zero offset and a whole-number seed, cell (0, 0) samples lattice points only and has height 0 |
| Heights.OriginOcean | script.js:51-57 | under such settings and a threshold in (0, 0.2], cell (0, 0) is ocean |
| Generator.OctaveHeight | script.js:27-42 | the octave loop returns the octave sum for the cell |
| Generator.FillNoiseMap | script.js:19-48 | a fresh `width × height` array whose every cell holds its octave sum |
| Generator.ColourTexture | script.js:72-79 | every texture cell becomes the colour of its noise-map value |
| Generator.FlattenTexture | script.js:88-97 | the pushes equal `Flatten` of the colour grid |
| Generator.TerrainGenerator.constructor | script.js:2-18 | every field gets the source's initial value, and the scale is non-zero |
| Generator.TerrainGenerator.GenerateNoiseMap | script.js:19-49 | a fresh `mapWidth × mapHeight` array whose cell (x, y) is that cell's height under the current settings |
| Generator.TerrainGenerator.GenerateContinentMap | script.js:69-97 | a fresh texture whose every cell is `GetColor` of its height, and the flat array built from it |
| Generator.TerrainGenerator.RandomSeed | script.js:108-111 | the seed becomes `floor(draw · 100000)` and the map is rebuilt with it |
| Generator.TerrainGenerator.UpdateSeaLevel | script.js:112-117 | `seaLevel = level`, `continentThreshold = base + level/100`, the noise settings and base threshold unchanged, and the map rebuilt |
| Generator.TerrainGenerator.Start | script.js:118-120 | the first map is built |
| Generator.TerrainGenerator.ShownLayout | script.js:88-97 | after a rebuild, the flat array has `4 · mapWidth · mapHeight` values, channel k of cell (x, y) is at `4(x·mapHeight + y) + k` and equals that channel of the texture cell, and every alpha is 255 |
| Generator.TerrainGenerator.ShownWater | script.js:72-79 | after a rebuild, a texture cell is water iff its height is below `continentThreshold` |

## Left out

- Canvas and DOM work (script.js:81-86 and 99-105): `GenerateContinentMap` returns the flat array instead of copying it into `ImageData`. The byte clamping and rounding that `ImageData` applies belong to the browser, not to the class.
- UI glue (script.js:172-190): `ClickRandom`, `ChangeSeaLevel`, `Regenerate` and the top-level instance are not modelled. `Regenerate` stores the seed input's string in `seed`, which turns `seed + sampleX` into string concatenation; that JavaScript coercion is not modelled.
- `UpdateSeaLevel`: the slider passes its value as a string. `/ 100` converts it to a number, but the `seaLevel` field keeps the string. The model takes `level` as a real.
- `RandomSeed`: `Math.random()` is an input (`draw`, in [0, 1)), not a random source.
- Floating point: numbers are exact reals. IEEE-754 rounding in the noise arithmetic is not modelled, nor is the narrowing of stored heights to 32-bit floats by `Float32Array` (script.js:22). `NaN` and infinities do not arise.
- `Hash`: `x * 46335` is taken as an exact integer before ToInt32. For |x| above 2^53 / 46335 the double product would already be rounded, and that is not modelled.
- `Generator.TerrainGenerator.Valid`: the scale must be non-zero. JavaScript would divide by zero and give infinite or `NaN` heights; nothing in the class sets the scale to 0.
- `mapTexture` and the noise map are two-dimensional arrays rather than arrays of column arrays, so the model cannot express one column array shared by two `x` indices or a column of the wrong length.
