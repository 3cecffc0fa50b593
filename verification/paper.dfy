/** `PaperSize` (source/schediazo/_paper.py): the ISO 216 A series, each size a pair
    (short side, long side) converted from millimetres to points through `mm`. */
module Paper {
  import opened Wrappers
  import Units

  datatype PaperSize = A0 | A1 | A2 | A3 | A4 | A5 | A6 | A7 | A8 | A9 | A10

  /** The sides in millimetres as the table lists them (_paper.py:33-43). The docstring
      gives A1 as 594x811 mm (_paper.py:12); the value is 594 x 841. */
  function Millimetres(p: PaperSize): (real, real)
  {
    match p
    case A0 => (841.0, 1189.0)
    case A1 => (594.0, 841.0)
    case A2 => (420.0, 594.0)
    case A3 => (297.0, 420.0)
    case A4 => (210.0, 297.0)
    case A5 => (148.0, 210.0)
    case A6 => (105.0, 148.0)
    case A7 => (74.0, 105.0)
    case A8 => (52.0, 74.0)
    case A9 => (37.0, 52.0)
    case A10 => (26.0, 37.0)
  }

  /** The next smaller size, if the table has one. */
  function Next(p: PaperSize): Option<PaperSize>
  {
    match p
    case A0 => Some(A1)
    case A1 => Some(A2)
    case A2 => Some(A3)
    case A3 => Some(A4)
    case A4 => Some(A5)
    case A5 => Some(A6)
    case A6 => Some(A7)
    case A7 => Some(A8)
    case A8 => Some(A9)
    case A9 => Some(A10)
    case A10 => None
  }

  /** The member's value: each side times `mm`, in points. */
  function Value(p: PaperSize): (v: (real, real))
    ensures 0.0 < v.0 < v.1
    ensures v.0 == Units.Mul(Units.Mm(), Millimetres(p).0) && v.1 == Units.Mul(Units.Mm(), Millimetres(p).1)
  {
    var (s, l) := Millimetres(p);
    (s * Units.Mm().scale, l * Units.Mm().scale)
  }

  /** The ISO 216 rule: each size is the previous one halved across
      its long side, rounded down to the millimetre, so the next long side is this short
      side and the next short side is half this long side, rounded down. */
  lemma {:induction false} Halving(p: PaperSize)
    requires Next(p).Some?
    ensures Millimetres(Next(p).value).1 == Millimetres(p).0
    ensures Millimetres(Next(p).value).0 == (Millimetres(p).1 / 2.0).Floor as real
  {
    match p
    case A0 => assert (1189.0 / 2.0).Floor == 594;
    case A1 => assert (841.0 / 2.0).Floor == 420;
    case A2 => assert (594.0 / 2.0).Floor == 297;
    case A3 => assert (420.0 / 2.0).Floor == 210;
    case A4 => assert (297.0 / 2.0).Floor == 148;
    case A5 => assert (210.0 / 2.0).Floor == 105;
    case A6 => assert (148.0 / 2.0).Floor == 74;
    case A7 => assert (105.0 / 2.0).Floor == 52;
    case A8 => assert (74.0 / 2.0).Floor == 37;
    case A9 => assert (52.0 / 2.0).Floor == 26;
  }

  /** A0 is 841 mm by 1189 mm; A4 comes to 75600/127 by 106920/127 points, about 595.3 by
      841.9. */
  lemma {:induction false} Examples()
    ensures Millimetres(A0) == (841.0, 1189.0)
    ensures Value(A4) == (75600.0 / 127.0, 106920.0 / 127.0)
  {
    assert Units.Mm().scale == 0.001 * 72.0 / 0.0254;
  }
}
