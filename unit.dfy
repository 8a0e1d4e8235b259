/** Length units and their conversion to CSS pixels (app/_lib/unit.ts). */
module Units {

  datatype Unit = Inches | Centimeters

  /** CSS fixes 96 pixels to the inch. */
  const PixelsPerInch: real := 96.0

  const CentimetersPerInch: real := 2.54

  /** Centimetres are divided by 2.54; every other unit already is inches. */
  function ToInches(w: real, u: Unit): (r: real)
    ensures u != Centimeters ==> r == w
    ensures u == Centimeters ==> r * CentimetersPerInch == w
  {
    if u == Centimeters then w / CentimetersPerInch else w
  }

  /** A length in the given unit as pixels; total, also for negative lengths. */
  function ToPixels(w: real, u: Unit): (r: real)
    ensures u == Inches ==> r == PixelsPerInch * w
    ensures u == Centimeters ==> r * CentimetersPerInch == PixelsPerInch * w
  {
    ToInches(w, u) * PixelsPerInch
  }

  lemma ToPixelsOneInch()
    ensures ToPixels(1.0, Inches) == 96.0
  {
  }

  lemma ToPixelsInchInCentimeters()
    ensures ToPixels(2.54, Centimeters) == 96.0
  {
  }

  lemma ToPixelsZero(u: Unit)
    ensures ToPixels(0.0, u) == 0.0
  {
  }

  /** Conversion is linear: it distributes over sums and commutes with negation. */
  lemma ToPixelsLinear(a: real, b: real, u: Unit)
    ensures ToPixels(a + b, u) == ToPixels(a, u) + ToPixels(b, u)
    ensures ToPixels(-a, u) == -ToPixels(a, u)
  {
  }

  lemma ToPixelsStrictlyMonotone(a: real, b: real, u: Unit)
    requires a < b
    ensures ToPixels(a, u) < ToPixels(b, u)
  {
  }
}
