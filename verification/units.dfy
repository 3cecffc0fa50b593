/** `UnitConversion` (source/schediazo/units.py): a length unit as the number of points
    (1/72 inch) in one of it, built from the unit's length in metres. */
module Units {

  datatype UnitConversion = UnitConversion(scale: real)

  /** `UnitConversion(m)` (units.py:4-5): `m*72/25.4e-3`. The factor is exact here; the
      source computes it in floating point. */
  function New(metres: real): (u: UnitConversion)
    ensures u.scale * 0.0254 == metres * 72.0
  {
    UnitConversion(metres * 72.0 / 0.0254)
  }

  /** `u * v` and `v * u` (units.py:7-11): the length in points. */
  function Mul(u: UnitConversion, v: real): real
  {
    v * u.scale
  }

  function RMul(v: real, u: UnitConversion): real
  {
    v * u.scale
  }

  /** The defaults (units.py:14-17). */
  function Mm(): UnitConversion { New(0.001) }
  function Inch(): UnitConversion { New(0.0254) }
  function Cm(): UnitConversion { New(0.01) }
  function M(): UnitConversion { New(1.0) }

  /** An inch is 72 points, and the defaults stand in their metric ratios: ten millimetres to
      the centimetre, a hundred centimetres to the metre, 25.4 millimetres to the inch. */
  lemma {:induction false} DefaultRatios()
    ensures Mul(Inch(), 1.0) == 72.0
    ensures Cm().scale == 10.0 * Mm().scale && M().scale == 100.0 * Cm().scale
    ensures Inch().scale == 25.4 * Mm().scale
  {
    assert Inch().scale == 0.0254 * 72.0 / 0.0254;
  }

  /** Multiplying from either side gives the same length, and converting is linear. */
  lemma Linear(u: UnitConversion, a: real, b: real)
    ensures Mul(u, a) == RMul(a, u)
    ensures Mul(u, a + b) == Mul(u, a) + Mul(u, b)
  {
  }

  /** A length in metres converts to the same points through any unit it is expressed in. */
  lemma {:induction false} SameLength(metres: real, v: real, w: real)
    requires metres > 0.0 && v * metres == w * 1.0
    ensures Mul(New(metres), v) == Mul(M(), w)
  {
    assert Mul(New(metres), v) == v * metres * 72.0 / 0.0254;
  }
}
