/**
 * The flat RGBA array `GenerateContinentMap` builds from the texture: the
 * columns are walked x-outer, y-inner, and each cell pushes its three
 * channels scaled to 255 followed by an opaque alpha.
 */
module Raster {
  import opened Terrain

  /** The four values pushed for one cell. */
  function Rgba(c: Color): (px: seq<real>)
  {
    [c.r * 255.0, c.g * 255.0, c.b * 255.0, 255.0]
  }

  /**
   * Pushing the four values of cell `y` one at a time after the pushes of
   * the cells before it gives the pushes of the column up to and including `y`.
   */
  lemma PushCell(prefix: seq<real>, column: seq<Color>, y: nat, before: seq<real>, after: seq<real>)
    requires y < |column|
    requires before == prefix + FlattenColumn(column[..y])
    requires after == before + [column[y].r * 255.0] + [column[y].g * 255.0] + [column[y].b * 255.0] + [255.0]
    ensures after == prefix + FlattenColumn(column[..y + 1])
  {
    assert column[..y + 1][..y] == column[..y];
    assert after == before + Rgba(column[y]);
  }

  /** The pushes for one column, `y` ascending. */
  function FlattenColumn(column: seq<Color>): (flat: seq<real>)
    ensures |flat| == 4 * |column|
  {
    if |column| == 0 then []
    else FlattenColumn(column[..|column| - 1]) + Rgba(column[|column| - 1])
  }

  /** The pushes for all columns, `x` ascending. */
  function Flatten(columns: seq<seq<Color>>): (flat: seq<real>)
  {
    if |columns| == 0 then []
    else Flatten(columns[..|columns| - 1]) + FlattenColumn(columns[|columns| - 1])
  }

  /** Every column has `height` cells. */
  predicate Rectangular(columns: seq<seq<Color>>, height: nat)
  {
    forall x :: 0 <= x < |columns| ==> |columns[x]| == height
  }

  /** Cell `y` of a column occupies slots `4 y .. 4 y + 3` of the column's pushes. */
  lemma {:induction false} ColumnLayout(column: seq<Color>)
    ensures forall y, k :: 0 <= y < |column| && 0 <= k < 4 ==> FlattenColumn(column)[4 * y + k] == Rgba(column[y])[k]
  {
    if |column| > 0 {
      var init := column[..|column| - 1];
      ColumnLayout(init);
      forall y, k | 0 <= y < |column| && 0 <= k < 4
        ensures FlattenColumn(column)[4 * y + k] == Rgba(column[y])[k]
      {
        if y < |init| {
          assert column[y] == init[y];
        }
      }
    }
  }

  /** The slot of channel `k` of cell (x, y) when columns have `height` cells. */
  function Slot(x: nat, y: nat, height: nat, k: nat): nat
  {
    4 * (x * height + y) + k
  }

  /**
   * The flat array has `4 * width * height` slots, and channel `k` of cell
   * (x, y) sits at `Slot(x, y, height, k) = 4 (x height + y) + k`.
   */
  lemma {:induction false} FlattenLayout(columns: seq<seq<Color>>, height: nat)
    requires Rectangular(columns, height)
    ensures |Flatten(columns)| == 4 * (|columns| * height)
    ensures forall x, y, k :: 0 <= x < |columns| && 0 <= y < height && 0 <= k < 4 ==>
      Slot(x, y, height, k) < |Flatten(columns)| && Flatten(columns)[Slot(x, y, height, k)] == Rgba(columns[x][y])[k]
  {
    if |columns| > 0 {
      var n := |columns| - 1;
      var init := columns[..n];
      assert Rectangular(init, height) by {
        forall x | 0 <= x < |init| ensures |init[x]| == height {
          assert init[x] == columns[x];
        }
      }
      FlattenLayout(init, height);
      ColumnLayout(columns[n]);
      var prefix, last := Flatten(init), FlattenColumn(columns[n]);
      assert Flatten(columns) == prefix + last;
      SlotsAfterColumns(n, height);
      forall x, y, k | 0 <= x < |columns| && 0 <= y < height && 0 <= k < 4
        ensures Slot(x, y, height, k) < |Flatten(columns)| && Flatten(columns)[Slot(x, y, height, k)] == Rgba(columns[x][y])[k]
      {
        SlotSplit(x, y, n, height, k);
        if x < n {
          assert init[x] == columns[x];
        }
      }
    }
  }

  /** Column `n + 1` starts `4 height` slots after column `n`. */
  lemma SlotsAfterColumns(n: nat, height: nat)
    ensures 4 * (n * height) + 4 * height == 4 * ((n + 1) * height)
  {
  }

  /** A slot of columns `0 .. n - 1` comes before the slots of column `n`, which follow one another from there. */
  lemma SlotSplit(x: nat, y: nat, n: nat, height: nat, k: nat)
    requires x <= n && y < height && k < 4
    ensures x < n ==> Slot(x, y, height, k) < 4 * (n * height)
    ensures x == n ==> Slot(x, y, height, k) == 4 * (n * height) + (4 * y + k)
  {
    if x < n {
      assert (n - x) * height >= height by {
        MulAtLeast(n - x, height);
      }
      assert (n - x) * height == n * height - x * height;
    }
  }

  lemma MulAtLeast(a: nat, b: nat)
    requires a >= 1
    ensures a * b >= b
  {
    assert a * b == (a - 1) * b + b;
  }

  /** Every alpha slot of the flat array is 255. */
  lemma AlphaOpaque(columns: seq<seq<Color>>, height: nat, x: nat, y: nat)
    requires Rectangular(columns, height)
    requires x < |columns| && y < height
    ensures Slot(x, y, height, 3) < |Flatten(columns)| && Flatten(columns)[Slot(x, y, height, 3)] == 255.0
  {
    FlattenLayout(columns, height);
    assert Rgba(columns[x][y])[3] == 255.0;
  }
}
