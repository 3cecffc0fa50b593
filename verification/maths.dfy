/** `clip` (source/schediazo/maths.py:4-21): `max(min(x, xmax), xmin)`. */
module Maths {

  function Min(a: real, b: real): real
  {
    if b < a then b else a
  }

  function Max(a: real, b: real): real
  {
    if b > a then b else a
  }

  /** The value pulled into `[xmin, xmax]`. The lower bound is applied last, so with the
      bounds the wrong way round every value comes out as `xmin`. */
  function Clip(x: real, xmin: real, xmax: real): (r: real)
    ensures xmin <= xmax ==> xmin <= r <= xmax
    ensures xmin <= x <= xmax ==> r == x
    ensures xmin <= xmax && x > xmax ==> r == xmax
    ensures x < xmin ==> r == xmin
    ensures xmin > xmax ==> r == xmin
  {
    Max(Min(x, xmax), xmin)
  }

  /** Clipping a clipped value changes nothing, whatever the bounds. */
  lemma ClipIdempotent(x: real, xmin: real, xmax: real)
    ensures Clip(Clip(x, xmin, xmax), xmin, xmax) == Clip(x, xmin, xmax)
  {
  }

  /** A larger value never clips to a smaller one. */
  lemma ClipMonotone(x: real, y: real, xmin: real, xmax: real)
    requires x <= y
    ensures Clip(x, xmin, xmax) <= Clip(y, xmin, xmax)
  {
  }
}
