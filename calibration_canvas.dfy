/**
  The calibration canvas (app/_components/calibration-canvas.tsx): the drawing
  routines, which append path commands to a rendering context, and the editor
  of the four calibration handles, which reacts to mouse, touch and key events.
*/
module CalibrationCanvas {
  import opened Optional
  import opened Geometry
  import opened Units

  /** One point per vertex of the calibrated rectangle. */
  const MaxPoints: nat := 4

  /** A mouse drag snaps the handle onto the cursor. */
  const MouseFilter: real := 1.0

  /** A touch drag moves the handle 5% of the way, damping jitter. */
  const TouchFilter: real := 0.05

  // ---------------------------------------------------------------------------
  // The rendering context, seen as the log of the path commands it receives
  // ---------------------------------------------------------------------------

  datatype Command =
    | Translate(offset: Point)
    | BeginPath
    | MoveTo(p: Point)
    | LineTo(p: Point)

  class Context {
    var log: seq<Command>

    constructor ()
      ensures log == []
    {
      log := [];
    }

    method Emit(c: Command)
      modifies this
      ensures log == old(log) + [c]
    {
      log := log + [c];
    }
  }

  // ---------------------------------------------------------------------------
  // Specification of the drawing routines
  // ---------------------------------------------------------------------------

  /** What drawLine emits: one segment from p1 to p2. */
  function SegmentCommands(p1: Point, p2: Point): seq<Command> {
    [MoveTo(p1), LineTo(p2)]
  }

  /** LineTo of each point, in order. */
  function LineTos(ps: seq<Point>): (r: seq<Command>)
    ensures |r| == |ps|
  {
    seq(|ps|, k requires 0 <= k < |ps| => LineTo(ps[k]))
  }

  lemma LineTosSnoc(ps: seq<Point>, k: nat)
    requires k < |ps|
    ensures LineTos(ps[..k + 1]) == LineTos(ps[..k]) + [LineTo(ps[k])]
  {
    var a, b := LineTos(ps[..k + 1]), LineTos(ps[..k]) + [LineTo(ps[k])];
    assert |a| == |b|;
    forall j | 0 <= j < |a| ensures a[j] == b[j] {
    }
  }

  /** What drawPolygon emits: nothing for no points, else a closed path from the last point. */
  function PolygonCommands(ps: seq<Point>): seq<Command> {
    if ps == [] then [] else [MoveTo(ps[|ps| - 1])] + LineTos(ps)
  }

  /**
    The number of grid lines drawGrid draws along an extent: the count of
    integers i with 1 <= i < extent (the extent need not be an integer).
  */
  function LineCount(extent: real): (n: nat)
    ensures n > 0 ==> (n as real) < extent
    ensures extent <= (n + 1) as real
  {
    if extent <= 1.0 then 0
    else if extent.Floor as real == extent then extent.Floor - 1
    else extent.Floor
  }

  datatype Axis = Vertical | Horizontal

  /**
    The i-th grid line before the perspective transform: a vertical line at
    x = i runs from y = -outset to height + outset, a horizontal line at
    y = i from x = -outset to width + outset, all converted to pixels.
  */
  function GridLine(axis: Axis, i: int, width: real, height: real, outset: real, unit: Unit): (line: seq<Point>)
    ensures |line| == 2
  {
    match axis
    case Vertical =>
      [Point(ToPixels(i as real, unit), ToPixels(-outset, unit)),
       Point(ToPixels(i as real, unit), ToPixels(height + outset, unit))]
    case Horizontal =>
      [Point(ToPixels(-outset, unit), ToPixels(i as real, unit)),
       Point(ToPixels(width + outset, unit), ToPixels(i as real, unit))]
  }

  /** The commands of grid lines 1..n along one axis, each transformed and drawn in turn. */
  function PassCommands(axis: Axis, n: nat, width: real, height: real, h: Homography, outset: real, unit: Unit): seq<Command>
    decreases n
  {
    if n == 0 then []
    else
      var line := TransformPoints(GridLine(axis, n, width, height, outset, unit), h);
      PassCommands(axis, n - 1, width, height, h, outset, unit) + SegmentCommands(line[0], line[1])
  }

  /**
    Drawing line n, with the endpoints drawGrid builds for it, extends the pass
    of lines 1..n-1 by one segment; line n is drawn only if n < extent.
  */
  lemma PassCommandsStep(axis: Axis, n: int, width: real, height: real, h: Homography, outset: real, unit: Unit)
    requires 1 <= n && (n as real) < (if axis == Vertical then width else height)
    ensures n <= LineCount(if axis == Vertical then width else height)
    ensures var line := TransformPoints(
              if axis == Vertical then
                [Point(ToPixels(n as real, unit), ToPixels(-outset, unit)),
                 Point(ToPixels(n as real, unit), ToPixels(height + outset, unit))]
              else
                [Point(ToPixels(-outset, unit), ToPixels(n as real, unit)),
                 Point(ToPixels(width + outset, unit), ToPixels(n as real, unit))], h);
            PassCommands(axis, n, width, height, h, outset, unit)
            == PassCommands(axis, n - 1, width, height, h, outset, unit) + SegmentCommands(line[0], line[1])
  {
  }

  /** What drawGrid emits: all vertical lines, then all horizontal lines. */
  function GridCommands(width: real, height: real, h: Homography, outset: real, unit: Unit): seq<Command> {
    PassCommands(Vertical, LineCount(width), width, height, h, outset, unit)
    + PassCommands(Horizontal, LineCount(height), width, height, h, outset, unit)
  }

  /** The outset of draw's first, background grid pass: 2 units when calibrating, 8 when projecting. */
  function OuterOutset(isCalibrating: bool): (o: real)
    ensures o > 0.0
  {
    if isCalibrating then 2.0 else 8.0
  }

  /** The outset of draw's second pass, the primary grid. */
  const InnerOutset: real := 0.0

  // ---------------------------------------------------------------------------
  // Properties of the drawing specification
  // ---------------------------------------------------------------------------

  lemma {:induction false} PassCommandsLength(axis: Axis, n: nat, width: real, height: real, h: Homography, outset: real, unit: Unit)
    ensures |PassCommands(axis, n, width, height, h, outset, unit)| == 2 * n
    decreases n
  {
    if n > 0 {
      PassCommandsLength(axis, n - 1, width, height, h, outset, unit);
    }
  }

  /** Line i (1-based, as in the source's loop) is the i-th segment of its pass. */
  lemma {:induction false} PassCommandsAt(axis: Axis, n: nat, width: real, height: real, h: Homography, outset: real, unit: Unit, i: nat)
    requires 1 <= i <= n
    ensures var cmds := PassCommands(axis, n, width, height, h, outset, unit);
            var line := TransformPoints(GridLine(axis, i, width, height, outset, unit), h);
            |cmds| == 2 * n && cmds[2 * i - 2] == MoveTo(line[0]) && cmds[2 * i - 1] == LineTo(line[1])
    decreases n
  {
    PassCommandsLength(axis, n, width, height, h, outset, unit);
    if i < n {
      PassCommandsAt(axis, n - 1, width, height, h, outset, unit, i);
      PassCommandsLength(axis, n - 1, width, height, h, outset, unit);
    } else {
      PassCommandsLength(axis, n - 1, width, height, h, outset, unit);
    }
  }

  /** Exactly the integers 1 <= i < extent are counted. */
  lemma LineCountExact(extent: real, i: int)
    ensures (1 <= i <= LineCount(extent)) <==> (1 <= i && (i as real) < extent)
  {
  }

  /** For an integer extent W >= 1 there are W - 1 interior grid lines. */
  lemma LineCountOfInteger(w: int)
    requires w >= 1
    ensures LineCount(w as real) == w - 1
  {
    assert (w as real).Floor == w;
  }

  /** drawGrid emits two commands for each of LineCount(width) vertical and LineCount(height) horizontal lines. */
  lemma GridCommandsLength(width: real, height: real, h: Homography, outset: real, unit: Unit)
    ensures |GridCommands(width, height, h, outset, unit)| == 2 * (LineCount(width) + LineCount(height))
  {
    PassCommandsLength(Vertical, LineCount(width), width, height, h, outset, unit);
    PassCommandsLength(Horizontal, LineCount(height), width, height, h, outset, unit);
  }

  /** For integer W and H, W - 1 vertical and H - 1 horizontal segments. */
  lemma GridCommandsLengthOfIntegers(w: int, ht: int, h: Homography, outset: real, unit: Unit)
    requires w >= 1 && ht >= 1
    ensures |GridCommands(w as real, ht as real, h, outset, unit)| == 2 * ((w - 1) + (ht - 1))
  {
    LineCountOfInteger(w);
    LineCountOfInteger(ht);
    GridCommandsLength(w as real, ht as real, h, outset, unit);
  }

  /** The i-th vertical segment, from (i, -outset) to (i, height + outset) transformed, comes first. */
  lemma GridVerticalSegment(width: real, height: real, h: Homography, outset: real, unit: Unit, i: nat)
    requires 1 <= i <= LineCount(width)
    ensures var cmds := GridCommands(width, height, h, outset, unit);
            var line := TransformPoints(
              [Point(ToPixels(i as real, unit), ToPixels(-outset, unit)),
               Point(ToPixels(i as real, unit), ToPixels(height + outset, unit))], h);
            |cmds| > 2 * i - 1 && cmds[2 * i - 2] == MoveTo(line[0]) && cmds[2 * i - 1] == LineTo(line[1])
  {
    PassCommandsAt(Vertical, LineCount(width), width, height, h, outset, unit, i);
    GridCommandsLength(width, height, h, outset, unit);
  }

  /** The i-th horizontal segment, from (-outset, i) to (width + outset, i) transformed, follows all vertical ones. */
  lemma GridHorizontalSegment(width: real, height: real, h: Homography, outset: real, unit: Unit, i: nat)
    requires 1 <= i <= LineCount(height)
    ensures var cmds := GridCommands(width, height, h, outset, unit);
            var line := TransformPoints(
              [Point(ToPixels(-outset, unit), ToPixels(i as real, unit)),
               Point(ToPixels(width + outset, unit), ToPixels(i as real, unit))], h);
            var base := 2 * LineCount(width);
            |cmds| > base + 2 * i - 1 && cmds[base + 2 * i - 2] == MoveTo(line[0]) && cmds[base + 2 * i - 1] == LineTo(line[1])
  {
    PassCommandsAt(Horizontal, LineCount(height), width, height, h, outset, unit, i);
    PassCommandsLength(Vertical, LineCount(width), width, height, h, outset, unit);
  }

  /**
    Before the transform, a line of a pass with positive outset lies on the
    same grid coordinate as the line of the outset-0 pass and strictly extends
    it at both ends.
  */
  lemma OutsetExtendsGridLine(axis: Axis, i: int, width: real, height: real, outset: real, unit: Unit)
    requires outset > 0.0
    ensures var outer := GridLine(axis, i, width, height, outset, unit);
            var inner := GridLine(axis, i, width, height, 0.0, unit);
            match axis
            case Vertical =>
              outer[0].x == inner[0].x == outer[1].x == inner[1].x
              && outer[0].y < inner[0].y && inner[1].y < outer[1].y
            case Horizontal =>
              outer[0].y == inner[0].y == outer[1].y == inner[1].y
              && outer[0].x < inner[0].x && inner[1].x < outer[1].x
  {
    ToPixelsStrictlyMonotone(-outset, 0.0, unit);
    ToPixelsStrictlyMonotone(height, height + outset, unit);
    ToPixelsStrictlyMonotone(width, width + outset, unit);
  }

  /**
    drawPolygon moves to the last point, then draws to every point in order,
    so the path it emits is closed and has one command more than points.
  */
  lemma PolygonCommandsShape(ps: seq<Point>, k: nat)
    requires k < |ps|
    ensures var cmds := PolygonCommands(ps);
            |cmds| == |ps| + 1 && cmds[0] == MoveTo(ps[|ps| - 1]) && cmds[k + 1] == LineTo(ps[k])
            && cmds[|ps|].p == cmds[0].p
  {
  }

  lemma PolygonCommandsEmpty()
    ensures PolygonCommands([]) == []
  {
  }

  // ---------------------------------------------------------------------------
  // The drawing routines
  // ---------------------------------------------------------------------------

  method DrawLine(ctx: Context, p1: Point, p2: Point)
    modifies ctx
    ensures ctx.log == old(ctx.log) + SegmentCommands(p1, p2)
  {
    ctx.Emit(MoveTo(p1));
    ctx.Emit(LineTo(p2));
  }

  method DrawPolygon(ctx: Context, points: seq<Point>)
    modifies ctx
    ensures ctx.log == old(ctx.log) + PolygonCommands(points)
  {
    if |points| == 0 {
      return;
    }
    var last := points[|points| - 1];
    ctx.Emit(MoveTo(last));
    ghost var start := ctx.log;
    for k := 0 to |points|
      invariant ctx.log == start + LineTos(points[..k])
    {
      ctx.Emit(LineTo(points[k]));
      LineTosSnoc(points, k);
    }
    assert points[..|points|] == points;
  }

  /** drawGrid: the vertical lines, then the horizontal lines. */
  method DrawGrid(ctx: Context, width: real, height: real, perspective: Homography, outset: real, unit: Unit)
    modifies ctx
    ensures ctx.log == old(ctx.log) + GridCommands(width, height, perspective, outset, unit)
  {
    DrawVerticalLines(ctx, width, height, perspective, outset, unit);
    DrawHorizontalLines(ctx, width, height, perspective, outset, unit);
  }

  /** drawGrid's first loop: for i = 1, 2, ... while i < width. */
  method DrawVerticalLines(ctx: Context, width: real, height: real, perspective: Homography, outset: real, unit: Unit)
    modifies ctx
    ensures ctx.log == old(ctx.log) + PassCommands(Vertical, LineCount(width), width, height, perspective, outset, unit)
  {
    var i := 1;
    while (i as real) < width
      invariant 1 <= i <= LineCount(width) + 1
      invariant ctx.log == old(ctx.log) + PassCommands(Vertical, i - 1, width, height, perspective, outset, unit)
      decreases LineCount(width) + 1 - i
    {
      var ends := [Point(ToPixels(i as real, unit), ToPixels(-outset, unit)),
                   Point(ToPixels(i as real, unit), ToPixels(height + outset, unit))];
      var line := TransformPoints(ends, perspective);
      PassCommandsStep(Vertical, i, width, height, perspective, outset, unit);
      DrawLine(ctx, line[0], line[1]);
      i := i + 1;
    }
    LineCountExact(width, i);
  }

  /** drawGrid's second loop: for i = 1, 2, ... while i < height. */
  method DrawHorizontalLines(ctx: Context, width: real, height: real, perspective: Homography, outset: real, unit: Unit)
    modifies ctx
    ensures ctx.log == old(ctx.log) + PassCommands(Horizontal, LineCount(height), width, height, perspective, outset, unit)
  {
    var i := 1;
    while (i as real) < height
      invariant 1 <= i <= LineCount(height) + 1
      invariant ctx.log == old(ctx.log) + PassCommands(Horizontal, i - 1, width, height, perspective, outset, unit)
      decreases LineCount(height) + 1 - i
    {
      var ends := [Point(ToPixels(-outset, unit), ToPixels(i as real, unit)),
                   Point(ToPixels(width + outset, unit), ToPixels(i as real, unit))];
      var line := TransformPoints(ends, perspective);
      PassCommandsStep(Horizontal, i, width, height, perspective, outset, unit);
      DrawLine(ctx, line[0], line[1]);
      i := i + 1;
    }
    LineCountExact(height, i);
  }

  /**
    draw: shift by the canvas offset, outline the handle polygon, then two
    grid passes, each on a fresh path: the outer one with the mode's outset,
    the primary one with outset 0.
  */
  method Draw(ctx: Context, offset: Point, points: seq<Point>, width: real, height: real,
              perspective: Homography, isCalibrating: bool, unit: Unit)
    modifies ctx
    ensures ctx.log == old(ctx.log) + [Translate(offset)] + PolygonCommands(points)
                       + [BeginPath] + GridCommands(width, height, perspective, OuterOutset(isCalibrating), unit)
                       + [BeginPath] + GridCommands(width, height, perspective, InnerOutset, unit)
  {
    ctx.Emit(Translate(offset));
    DrawPolygon(ctx, points);
    ctx.Emit(BeginPath);
    if isCalibrating {
      DrawGrid(ctx, width, height, perspective, 2.0, unit);
      ctx.Emit(BeginPath);
      DrawGrid(ctx, width, height, perspective, 0.0, unit);
    } else {
      DrawGrid(ctx, width, height, perspective, 8.0, unit);
      ctx.Emit(BeginPath);
      DrawGrid(ctx, width, height, perspective, 0.0, unit);
    }
  }

  // ---------------------------------------------------------------------------
  // The handle editor
  // ---------------------------------------------------------------------------

  /** The squared distance of every point to p, in order. */
  function SqrDists(ps: seq<Point>, p: Point): (r: seq<real>)
    ensures |r| == |ps|
    ensures forall j :: 0 <= j < |ps| ==> r[j] == SqrDist(ps[j], p)
  {
    seq(|ps|, j requires 0 <= j < |ps| => SqrDist(ps[j], p))
  }

  /** The handle nearest to p; of equally near ones, the first. */
  function NearestIndex(ps: seq<Point>, p: Point): (k: nat)
    requires |ps| > 0
    ensures k < |ps|
    ensures forall j :: 0 <= j < |ps| ==> SqrDist(ps[k], p) <= SqrDist(ps[j], p)
    ensures forall j :: 0 <= j < k ==> SqrDist(ps[k], p) < SqrDist(ps[j], p)
  {
    var d := SqrDists(ps, p);
    var k := MinIndex(d);
    assert forall j :: 0 <= j < |ps| ==> d[j] == SqrDist(ps[j], p);
    k
  }

  /**
    The direction an arrow key nudges the selected handle by, one pixel along
    one axis; no direction for any other key.
  */
  function KeyOffset(code: string): (d: Option<(real, real)>)
    ensures d.Some? <==> code in ["ArrowLeft", "ArrowUp", "ArrowRight", "ArrowDown"]
    ensures d.Some? ==> (d.value.0 == 0.0 || d.value.1 == 0.0)
                        && (d.value.0 + d.value.1 == 1.0 || d.value.0 + d.value.1 == -1.0)
  {
    if code == "ArrowLeft" then Some((-1.0, 0.0))
    else if code == "ArrowUp" then Some((0.0, -1.0))
    else if code == "ArrowRight" then Some((1.0, 0.0))
    else if code == "ArrowDown" then Some((0.0, 1.0))
    else None
  }

  /** Left and up decrease a coordinate, right and down increase it (canvas y grows downwards). */
  lemma KeyOffsetDirections()
    ensures KeyOffset("ArrowLeft") == Some((-1.0, 0.0))
    ensures KeyOffset("ArrowUp") == Some((0.0, -1.0))
    ensures KeyOffset("ArrowRight") == Some((1.0, 0.0))
    ensures KeyOffset("ArrowDown") == Some((0.0, 1.0))
  {
  }

  /** The primary-button bit of a MouseEvent's `buttons` mask: held exactly when the mask is odd. */
  function PrimaryButtonHeld(buttons: bv16): (held: bool)
    ensures held <==> buttons % 2 == 1
  {
    buttons & 1 != 0
  }

  /**
    The handles (`points`), the selected handle (`pointToModify`) and the last
    snapshot written to storage (`saved`).
  */
  class Editor {
    var points: seq<Point>
    var pointToModify: Option<nat>
    var saved: seq<Point>

    /** At most four handles, and a selection names one of them. */
    ghost predicate Valid()
      reads this
    {
      |points| <= MaxPoints
      && (pointToModify.Some? ==> pointToModify.value < |points|)
    }

    constructor ()
      ensures Valid()
      ensures points == [] && pointToModify == None && saved == []
    {
      points, pointToModify, saved := [], None, [];
    }

    /** A press adds a handle while fewer than four exist, else selects the nearest one. */
    method HandleDown(newPoint: Point)
      requires Valid()
      modifies this
      ensures Valid()
      ensures saved == old(saved)
      ensures |old(points)| < MaxPoints ==>
                points == old(points) + [newPoint] && pointToModify == old(pointToModify)
      ensures |old(points)| >= MaxPoints ==>
                points == old(points) && pointToModify == Some(NearestIndex(old(points), newPoint))
    {
      if |points| < MaxPoints {
        points := points + [newPoint];
      } else {
        pointToModify := Some(MinIndex(SqrDists(points, newPoint)));
      }
    }

    /** A drag moves the selected handle towards p by the filter fraction. */
    method HandleMove(p: Point, filter: real)
      requires Valid()
      modifies this
      ensures Valid()
      ensures saved == old(saved) && pointToModify == old(pointToModify)
      ensures old(pointToModify).None? ==> points == old(points)
      ensures old(pointToModify).Some? ==>
                var i := old(pointToModify).value;
                |points| == |old(points)|
                && points[i] == Interp(old(points)[i], p, filter)
                && forall j :: 0 <= j < |points| && j != i ==> points[j] == old(points)[j]
    {
      if pointToModify.Some? {
        var i := pointToModify.value;
        var newPoints := points;
        newPoints := newPoints[i := Interp(newPoints[i], p, filter)];
        points := newPoints;
      }
    }

    /** Releasing the mouse saves the handles and keeps the selection for nudging. */
    method HandleMouseUp()
      requires Valid()
      modifies this
      ensures Valid()
      ensures saved == old(points)
      ensures points == old(points) && pointToModify == old(pointToModify)
    {
      saved := points;
    }

    /** Lifting a finger saves the handles and clears the selection. */
    method HandleTouchUp()
      requires Valid()
      modifies this
      ensures Valid()
      ensures saved == old(points)
      ensures points == old(points) && pointToModify == None
    {
      saved := points;
      pointToModify := None;
    }

    /** Shifts the selected handle by exactly (xOffset, yOffset). */
    method ModifyPoint(xOffset: real, yOffset: real)
      requires Valid()
      modifies this
      ensures Valid()
      ensures saved == old(saved) && pointToModify == old(pointToModify)
      ensures old(pointToModify).None? ==> points == old(points)
      ensures old(pointToModify).Some? ==>
                var i := old(pointToModify).value;
                |points| == |old(points)|
                && points[i] == Point(old(points)[i].x + xOffset, old(points)[i].y + yOffset)
                && forall j :: 0 <= j < |points| && j != i ==> points[j] == old(points)[j]
    {
      if pointToModify.Some? {
        var i := pointToModify.value;
        var newPoints := points;
        newPoints := newPoints[i := Point(newPoints[i].x + xOffset, newPoints[i].y + yOffset)];
        points := newPoints;
      }
    }

    /** Arrow keys nudge the selected handle by one pixel; other keys do nothing. */
    method HandleKeyDown(code: string)
      requires Valid()
      modifies this
      ensures Valid()
      ensures saved == old(saved) && pointToModify == old(pointToModify)
      ensures old(pointToModify).None? || KeyOffset(code).None? ==> points == old(points)
      ensures old(pointToModify).Some? && KeyOffset(code).Some? ==>
                var i, d := old(pointToModify).value, KeyOffset(code).value;
                |points| == |old(points)|
                && points[i] == Point(old(points)[i].x + d.0, old(points)[i].y + d.1)
                && forall j :: 0 <= j < |points| && j != i ==> points[j] == old(points)[j]
    {
      if pointToModify.Some? {
        if code == "ArrowLeft" {
          ModifyPoint(-1.0, 0.0);
        } else if code == "ArrowUp" {
          ModifyPoint(0.0, -1.0);
        } else if code == "ArrowRight" {
          ModifyPoint(1.0, 0.0);
        } else if code == "ArrowDown" {
          ModifyPoint(0.0, 1.0);
        }
      }
    }

    /** A mouse move with the primary button released acts as a release; otherwise it drags. */
    method HandleMouseMove(buttons: bv16, p: Point)
      requires Valid()
      modifies this
      ensures Valid()
      ensures pointToModify == old(pointToModify)
      ensures !PrimaryButtonHeld(buttons) ==> saved == old(points) && points == old(points)
      ensures PrimaryButtonHeld(buttons) ==> saved == old(saved)
      ensures PrimaryButtonHeld(buttons) && old(pointToModify).None? ==> points == old(points)
      ensures PrimaryButtonHeld(buttons) && old(pointToModify).Some? ==>
                var i := old(pointToModify).value;
                |points| == |old(points)|
                && points[i] == p
                && forall j :: 0 <= j < |points| && j != i ==> points[j] == old(points)[j]
    {
      if buttons & 1 == 0 {
        HandleMouseUp();
      } else {
        HandleMove(p, MouseFilter);
      }
    }

    /** A touch move drags the selected handle with the damping filter. */
    method HandleTouchMove(p: Point)
      requires Valid()
      modifies this
      ensures Valid()
      ensures saved == old(saved) && pointToModify == old(pointToModify)
      ensures old(pointToModify).None? ==> points == old(points)
      ensures old(pointToModify).Some? ==>
                var i := old(pointToModify).value;
                |points| == |old(points)|
                && points[i] == Interp(old(points)[i], p, TouchFilter)
                && forall j :: 0 <= j < |points| && j != i ==> points[j] == old(points)[j]
    {
      HandleMove(p, TouchFilter);
    }
  }

  /**
    A session: four presses place the corners of a square, a press near the
    first corner selects it, and a mouse drag puts it under the cursor.
  */
  method FourCornerSession() {
    var e := new Editor();
    e.HandleDown(Point(0.0, 0.0));
    e.HandleDown(Point(100.0, 0.0));
    e.HandleDown(Point(100.0, 100.0));
    e.HandleDown(Point(0.0, 100.0));
    assert e.points == [Point(0.0, 0.0), Point(100.0, 0.0), Point(100.0, 100.0), Point(0.0, 100.0)];
    assert e.pointToModify == None;
    var corners := e.points;
    e.HandleDown(Point(1.0, 1.0));
    assert SqrDist(corners[0], Point(1.0, 1.0)) == 2.0;
    assert e.pointToModify == Some(0);
    e.HandleMouseMove(1, Point(5.0, 5.0));
    assert e.points[0] == Point(5.0, 5.0);
    e.HandleMouseUp();
    assert e.saved[0] == Point(5.0, 5.0);
  }
}
