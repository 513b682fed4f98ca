/**
 * Terrain classification: a height is coloured by the first of four
 * strictly-less-than tests against edges placed around the continent
 * threshold, and the sea-level slider moves that threshold.
 */
module Terrain {
  /** An `{ r, g, b }` colour with channels in [0, 1]. */
  datatype Color = Color(r: real, g: real, b: real)

  const DeepOcean := Color(0.1, 0.2, 0.4)
  const Ocean := Color(0.2, 0.4, 0.8)
  const LowLand := Color(0.894, 0.835, 0.643)
  const MediumLand := Color(0.2, 0.8, 0.2)
  const HighLand := Color(0.6, 0.4, 0.2)

  /** The five colours, from the lowest band to the highest. */
  const Palette: seq<Color> := [DeepOcean, Ocean, LowLand, MediumLand, HighLand]

  /** `GetColor(value)` with `this.continentThreshold` passed as `threshold`. */
  function GetColor(value: real, threshold: real): (c: Color)
    ensures c in Palette
  {
    if value < threshold - 0.2 then DeepOcean
    else if value < threshold then Ocean
    else if value < threshold + 0.05 then LowLand
    else if value < threshold + 0.3 then MediumLand
    else HighLand
  }

  /** The four band edges around `threshold`, in the order `GetColor` tests them. */
  function Edges(threshold: real): (e: seq<real>)
    ensures |e| == |Palette| - 1
    ensures forall i, j :: 0 <= i < j < |e| ==> e[i] < e[j]
  {
    [threshold - 0.2, threshold, threshold + 0.05, threshold + 0.3]
  }

  /** The number of edges at or below `value`. */
  function EdgesAtOrBelow(edges: seq<real>, value: real): (n: nat)
    ensures n <= |edges|
  {
    if |edges| == 0 then 0
    else (if edges[0] <= value then 1 else 0) + EdgesAtOrBelow(edges[1..], value)
  }

  /**
   * The band of `value`: 0 for deep ocean up to 4 for high land, counted
   * as the number of edges the value has reached.
   */
  function Band(value: real, threshold: real): (k: nat)
    ensures k < |Palette|
  {
    EdgesAtOrBelow(Edges(threshold), value)
  }

  /** Water is one of the two ocean colours. */
  predicate IsWater(c: Color)
  {
    c == DeepOcean || c == Ocean
  }

  /** `updateSeaLevel`: the threshold rises by a hundredth of the slider level. */
  function SeaThreshold(baseThreshold: real, level: real): real
  {
    baseThreshold + level / 100.0
  }

  /** The five colours are pairwise different, so every height gets exactly one of them. */
  lemma PaletteDistinct()
    ensures |Palette| == 5
    ensures forall i, j :: 0 <= i < j < |Palette| ==> Palette[i] != Palette[j]
  {
  }

  /** The first-match if-chain picks the colour of the band the value has reached. */
  lemma GetColorIsBand(value: real, threshold: real)
    ensures GetColor(value, threshold) == Palette[Band(value, threshold)]
  {
    CountFour(threshold - 0.2, threshold, threshold + 0.05, threshold + 0.3, value);
  }

  /** Counting over four edges, one at a time. */
  lemma CountFour(a: real, b: real, c: real, d: real, v: real)
    ensures EdgesAtOrBelow([a, b, c, d], v)
         == (if a <= v then 1 else 0) + (if b <= v then 1 else 0)
          + (if c <= v then 1 else 0) + (if d <= v then 1 else 0)
  {
    assert [d][1..] == [];
    assert EdgesAtOrBelow([d], v) == (if d <= v then 1 else 0);
    assert [c, d][1..] == [d];
    assert EdgesAtOrBelow([c, d], v) == (if c <= v then 1 else 0) + EdgesAtOrBelow([d], v);
    assert [b, c, d][1..] == [c, d];
    assert EdgesAtOrBelow([b, c, d], v) == (if b <= v then 1 else 0) + EdgesAtOrBelow([c, d], v);
    assert [a, b, c, d][1..] == [b, c, d];
  }

  /** Each colour is chosen on exactly one half-open interval of heights. */
  lemma GetColorIntervals(value: real, threshold: real)
    ensures GetColor(value, threshold) == DeepOcean <==> value < threshold - 0.2
    ensures GetColor(value, threshold) == Ocean <==> threshold - 0.2 <= value < threshold
    ensures GetColor(value, threshold) == LowLand <==> threshold <= value < threshold + 0.05
    ensures GetColor(value, threshold) == MediumLand <==> threshold + 0.05 <= value < threshold + 0.3
    ensures GetColor(value, threshold) == HighLand <==> threshold + 0.3 <= value
  {
    PaletteDistinct();
  }

  /** A cell is water exactly when its height is below the continent threshold. */
  lemma WaterBelowThreshold(value: real, threshold: real)
    ensures IsWater(GetColor(value, threshold)) <==> value < threshold
  {
    PaletteDistinct();
  }

  /** Counting reached edges is monotone in the value. */
  lemma {:induction false} EdgesMonotone(edges: seq<real>, v: real, w: real)
    requires v <= w
    ensures EdgesAtOrBelow(edges, v) <= EdgesAtOrBelow(edges, w)
  {
    if |edges| > 0 {
      EdgesMonotone(edges[1..], v, w);
    }
  }

  /** Raising every edge can only lower the count of edges a value has reached. */
  lemma {:induction false} EdgesRaised(lower: seq<real>, upper: seq<real>, v: real)
    requires |lower| == |upper|
    requires forall i :: 0 <= i < |lower| ==> lower[i] <= upper[i]
    ensures EdgesAtOrBelow(upper, v) <= EdgesAtOrBelow(lower, v)
  {
    if |lower| > 0 {
      EdgesRaised(lower[1..], upper[1..], v);
    }
  }

  /** For a fixed threshold the band never falls as the height grows. */
  lemma BandMonotone(v: real, w: real, threshold: real)
    requires v <= w
    ensures Band(v, threshold) <= Band(w, threshold)
  {
    EdgesMonotone(Edges(threshold), v, w);
  }

  /** For a fixed height the band never rises as the threshold grows. */
  lemma BandAntitone(value: real, t: real, u: real)
    requires t <= u
    ensures Band(value, u) <= Band(value, t)
  {
    EdgesRaised(Edges(t), Edges(u), value);
  }

  /** Raising the sea-level slider never lifts a cell into a higher band. */
  lemma SeaLevelFloods(value: real, baseThreshold: real, level: real, higher: real)
    requires level <= higher
    ensures Band(value, SeaThreshold(baseThreshold, higher)) <= Band(value, SeaThreshold(baseThreshold, level))
    ensures IsWater(GetColor(value, SeaThreshold(baseThreshold, level)))
        ==> IsWater(GetColor(value, SeaThreshold(baseThreshold, higher)))
  {
    BandAntitone(value, SeaThreshold(baseThreshold, level), SeaThreshold(baseThreshold, higher));
    WaterBelowThreshold(value, SeaThreshold(baseThreshold, level));
    WaterBelowThreshold(value, SeaThreshold(baseThreshold, higher));
  }

  /**
   * With the slider at 0 the threshold is the base one, and every step of
   * the slider moves all four band edges by a hundredth.
   */
  lemma SeaThresholdSteps(baseThreshold: real, level: real)
    ensures SeaThreshold(baseThreshold, 0.0) == baseThreshold
    ensures SeaThreshold(baseThreshold, level + 1.0) == SeaThreshold(baseThreshold, level) + 0.01
  {
  }
}
