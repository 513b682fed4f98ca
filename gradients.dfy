/**
 * The lattice gradient: an integer hash of a lattice point's coordinates,
 * computed with JavaScript's 32-bit bitwise operators, selects one of eight
 * fixed direction vectors.
 */
module Gradients {
  import opened Wrappers
  import opened JsArith

  /** A lattice direction vector `[gx, gy]`. */
  datatype Gradient = Gradient(gx: real, gy: real)

  /** The gradient table, in the order of the source's `grads` array. */
  const Grads: seq<Gradient> := [
    Gradient(1.0, 0.0), Gradient(-1.0, 0.0), Gradient(0.0, 1.0), Gradient(0.0, -1.0),
    Gradient(1.0, 1.0), Gradient(-1.0, 1.0), Gradient(1.0, -1.0), Gradient(-1.0, -1.0)
  ]

  /**
   * The hash of the lattice point (x, y). The product `x * 46335` is an exact
   * Number converted by `^`; `h1 * 16713` stays below 2^46 in magnitude, so it
   * is exact too, and the outer `>>` and `^` convert it with ToInt32.
   */
  function Hash(x: int, y: int): (hash: int)
  {
    var h1 := Xor(ToInt32(x * 46335), ToInt32(y));
    var h2 := h1 * 16713;
    Xor(ShiftRight(ToInt32(h2), 13), ToInt32(h2))
  }

  /** Looking up `i` in the table: JavaScript gives `undefined` for an index outside it. */
  function Lookup(i: int): Option<Gradient>
  {
    if 0 <= i < |Grads| then Some(Grads[i]) else None
  }

  /** `grad2D(x, y)`: the table entry at `hash % grads.length`, with JavaScript's remainder. */
  function Grad2D(x: int, y: int): Option<Gradient>
  {
    Lookup(Remainder(Hash(x, y), |Grads|))
  }

  /**
   * The hash is never negative: `v >> 13` keeps the sign of `v`, so the
   * exclusive or of the two clears the sign bit.
   */
  lemma HashRange(x: int, y: int)
    ensures 0 <= Hash(x, y) < TwoTo31
  {
  }

  /**
   * For any int32 hash, the JavaScript remainder by 8 has the sign of the hash
   * and magnitude below 8, and it names a table entry exactly when the hash is
   * non-negative or a multiple of 8 (a negative multiple gives `-0`, which
   * indexes like `0`).
   */
  lemma LookupSelects(h: int)
    requires IsInt32(h)
    ensures -8 < Remainder(h, 8) < 8
    ensures h < 0 ==> Remainder(h, 8) <= 0
    ensures Lookup(Remainder(h, 8)).Some? <==> (h >= 0 || h % 8 == 0)
    ensures Lookup(Remainder(h, 8)).Some? ==> Lookup(Remainder(h, 8)).value == Grads[h % 8]
  {
    if h < 0 {
      var m := -h;
      assert Remainder(h, 8) == -(m % 8);
      NegatedMultiple(m);
    } else {
      assert Remainder(h, 8) == h % 8;
    }
  }

  /** `m` is a multiple of 8 exactly when `-m` is. */
  lemma NegatedMultiple(m: int)
    ensures m % 8 == 0 <==> (-m) % 8 == 0
  {
    var q := m / 8;
    assert m == 8 * q + m % 8;
    if m % 8 == 0 {
      assert -m == 8 * (-q);
    }
    if (-m) % 8 == 0 {
      assert m == 8 * (-((-m) / 8));
    }
  }

  /** `grad2D` always returns an entry of the table, the one at `hash % 8`. */
  lemma Grad2DTotal(x: int, y: int)
    ensures Grad2D(x, y) == Some(Grads[Hash(x, y) % 8])
  {
    HashRange(x, y);
  }

  /** Every table entry has components in {-1, 0, 1}, and none is the zero vector. */
  lemma GradsShape()
    ensures |Grads| == 8
    ensures forall g :: g in Grads ==> g.gx in {-1.0, 0.0, 1.0} && g.gy in {-1.0, 0.0, 1.0}
    ensures forall g :: g in Grads ==> g != Gradient(0.0, 0.0)
    ensures forall i, j :: 0 <= i < j < |Grads| ==> Grads[i] != Grads[j]
  {
  }
}
