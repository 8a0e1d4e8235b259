/**
  The state transitions behind the header's buttons (app/_components/header.tsx):
  the display settings applied to the projected page, page navigation, the
  grid and mode toggles, and the small label helpers. The layout is not modelled.
*/
module Header {

  /** The page's scale factors; a flip negates one of them. */
  datatype Scale = Scale(x: real, y: real)

  datatype TransformSettings = TransformSettings(inverted: bool, scale: Scale, degrees: int)

  /** The selected unit of measure, compared against the CM constant. */
  datatype UnitOfMeasure = IN | CM

  /** The CSS visibility class for a flag. */
  function Visible(b: bool): (c: string)
    ensures c == "visible" <==> b
    ensures c == "hidden" <==> !b
  {
    if b then "visible" else "hidden"
  }

  /** The unit shown beside the width and height inputs. */
  function UnitLabel(u: UnitOfMeasure): (text: string)
    ensures text == "cm" <==> u == CM
    ensures text == "in" <==> u != CM
  {
    if u == CM then "cm" else "in"
  }

  // ---------------------------------------------------------------------------
  // Display settings
  // ---------------------------------------------------------------------------

  /** "Invert colours" toggles the inversion flag and nothing else. */
  function Invert(t: TransformSettings): (r: TransformSettings)
    ensures r.inverted == !t.inverted
    ensures r.scale == t.scale && r.degrees == t.degrees
  {
    t.(inverted := !t.inverted)
  }

  /** "Flip vertically" negates the horizontal scale factor. */
  function FlipVertically(t: TransformSettings): (r: TransformSettings)
    ensures r.scale.x == -t.scale.x && r.scale.y == t.scale.y
    ensures r.inverted == t.inverted && r.degrees == t.degrees
  {
    t.(scale := Scale(t.scale.x * -1.0, t.scale.y))
  }

  /** "Flip horizontally" negates the vertical scale factor. */
  function FlipHorizontally(t: TransformSettings): (r: TransformSettings)
    ensures r.scale.y == -t.scale.y && r.scale.x == t.scale.x
    ensures r.inverted == t.inverted && r.degrees == t.degrees
  {
    t.(scale := Scale(t.scale.x, t.scale.y * -1.0))
  }

  /** JavaScript's `%`: the remainder takes the sign of the dividend. */
  function JsRemainder(a: int, m: int): (r: int)
    requires m > 0
    ensures a >= 0 ==> 0 <= r < m
    ensures a < 0 ==> -m < r <= 0
    ensures -m < a < m ==> r == a
    ensures a == (if a >= 0 then a / m else -((-a) / m)) * m + r
  {
    if a >= 0 then
      NaturalRemainder(a, m);
      a % m
    else
      NaturalRemainder(-a, m);
      -((-a) % m)
  }

  lemma NaturalRemainder(a: nat, m: int)
    requires m > 0
    ensures 0 <= a % m < m
    ensures a < m ==> a % m == a
    ensures a == (a / m) * m + a % m
  {
    if a < m {
      assert a == (a / m) * m + a % m;
      assert a / m == 0;
    }
  }

  /** Quarter turn clockwise. */
  function Rotate(t: TransformSettings): (r: TransformSettings)
    ensures r.inverted == t.inverted && r.scale == t.scale
    ensures (r.degrees - (t.degrees + 90)) % 360 == 0
    ensures -360 < r.degrees < 360
  {
    t.(degrees := JsRemainder(t.degrees + 90, 360))
  }

  ghost predicate IsUnitFactor(v: real) {
    v == 1.0 || v == -1.0
  }

  /** Inverting twice restores the settings. */
  lemma InvertInvolution(t: TransformSettings)
    ensures Invert(Invert(t)) == t
  {
  }

  /** Each flip undoes itself and keeps a scale factor in {1, -1}. */
  lemma FlipInvolutions(t: TransformSettings)
    ensures FlipVertically(FlipVertically(t)) == t
    ensures FlipHorizontally(FlipHorizontally(t)) == t
    ensures IsUnitFactor(t.scale.x) ==> IsUnitFactor(FlipVertically(t).scale.x)
    ensures IsUnitFactor(t.scale.y) ==> IsUnitFactor(FlipHorizontally(t).scale.y)
  {
  }

  /** Flips about the two axes are independent of each other. */
  lemma FlipsCommute(t: TransformSettings)
    ensures FlipVertically(FlipHorizontally(t)) == FlipHorizontally(FlipVertically(t))
  {
  }

  /** From any angle of at least -90 degrees a rotation lands in [0, 360). */
  lemma RotateRange(t: TransformSettings)
    requires t.degrees >= -90
    ensures 0 <= Rotate(t).degrees < 360
  {
  }

  /** Within [0, 360) a rotation adds 90 degrees, wrapping 270 back to 0. */
  lemma RotateStep(t: TransformSettings)
    requires 0 <= t.degrees < 360
    ensures Rotate(t).degrees == if t.degrees < 270 then t.degrees + 90 else t.degrees - 270
  {
  }

  /** Four quarter turns restore any angle in [0, 360). */
  lemma RotateFourTimes(t: TransformSettings)
    requires 0 <= t.degrees < 360
    ensures Rotate(Rotate(Rotate(Rotate(t)))) == t
  {
    var t1 := Rotate(t);
    RotateStep(t);
    var t2 := Rotate(t1);
    RotateStep(t1);
    var t3 := Rotate(t2);
    RotateStep(t2);
    RotateStep(t3);
  }

  // ---------------------------------------------------------------------------
  // Page navigation
  // ---------------------------------------------------------------------------

  /** "Previous page" is disabled exactly when no page precedes the current one. */
  function PreviousDisabled(pageNumber: int): (d: bool)
    ensures !d <==> 1 <= pageNumber - 1
  {
    pageNumber <= 1
  }

  /** "Next page" is disabled exactly when no page follows the current one. */
  function NextDisabled(pageNumber: int, pageCount: int): (d: bool)
    ensures !d <==> pageNumber + 1 <= pageCount
  {
    pageNumber >= pageCount
  }

  /** An enabled navigation button keeps the page number within 1..pageCount. */
  lemma EnabledNavigationKeepsRange(pageNumber: int, pageCount: int)
    requires 1 <= pageNumber <= pageCount
    ensures !PreviousDisabled(pageNumber) <==> pageNumber > 1
    ensures !NextDisabled(pageNumber, pageCount) <==> pageNumber < pageCount
    ensures !PreviousDisabled(pageNumber) ==> 1 <= pageNumber - 1 <= pageCount
    ensures !NextDisabled(pageNumber, pageCount) ==> 1 <= pageNumber + 1 <= pageCount
  {
  }

  /** The state the header reads and, through its setters, replaces. */
  class HeaderState {
    var transformSettings: TransformSettings
    var pageNumber: int
    const pageCount: int
    var gridOn: bool
    var isCalibrating: bool

    ghost predicate PageInRange()
      reads this
    {
      1 <= pageNumber <= pageCount
    }

    /** The header receives all of its state from its parent. */
    constructor (settings: TransformSettings, pageNumber: int, pageCount: int, gridOn: bool, isCalibrating: bool)
      ensures transformSettings == settings && this.pageNumber == pageNumber && this.pageCount == pageCount
      ensures this.gridOn == gridOn && this.isCalibrating == isCalibrating
    {
      transformSettings := settings;
      this.pageNumber := pageNumber;
      this.pageCount := pageCount;
      this.gridOn := gridOn;
      this.isCalibrating := isCalibrating;
    }

    method ClickInvert()
      modifies this`transformSettings
      ensures transformSettings == Invert(old(transformSettings))
    {
      transformSettings := Invert(transformSettings);
    }

    method ClickFlipVertically()
      modifies this`transformSettings
      ensures transformSettings == FlipVertically(old(transformSettings))
    {
      transformSettings := FlipVertically(transformSettings);
    }

    method ClickFlipHorizontally()
      modifies this`transformSettings
      ensures transformSettings == FlipHorizontally(old(transformSettings))
    {
      transformSettings := FlipHorizontally(transformSettings);
    }

    method ClickRotate()
      modifies this`transformSettings
      ensures transformSettings == Rotate(old(transformSettings))
    {
      transformSettings := Rotate(transformSettings);
    }

    method ClickToggleGrid()
      modifies this`gridOn
      ensures gridOn == !old(gridOn)
    {
      gridOn := !gridOn;
    }

    /** The "Project"/"Calibrate" button switches the mode. */
    method ClickToggleCalibrating()
      modifies this`isCalibrating
      ensures isCalibrating == !old(isCalibrating)
    {
      isCalibrating := !isCalibrating;
    }

    method ChangePage(offset: int)
      modifies this`pageNumber
      ensures pageNumber == old(pageNumber) + offset
    {
      pageNumber := pageNumber + offset;
    }

    /** "Previous page", which is disabled on the first page. */
    method ClickPreviousPage()
      modifies this`pageNumber
      ensures old(pageNumber) > 1 ==> pageNumber == old(pageNumber) - 1
      ensures old(pageNumber) <= 1 ==> pageNumber == old(pageNumber)
      ensures old(PageInRange()) ==> PageInRange()
    {
      if !PreviousDisabled(pageNumber) {
        ChangePage(-1);
      }
    }

    /** "Next page", which is disabled on the last page. */
    method ClickNextPage()
      modifies this`pageNumber
      ensures old(pageNumber) < pageCount ==> pageNumber == old(pageNumber) + 1
      ensures old(pageNumber) >= pageCount ==> pageNumber == old(pageNumber)
      ensures old(PageInRange()) ==> PageInRange()
    {
      if !NextDisabled(pageNumber, pageCount) {
        ChangePage(1);
      }
    }
  }
}
