# Pattern projector calibration, modelled in Dafny

This project models the core of a projector-calibration tool. The user drags
four handles on a full-screen canvas until a projected measurement grid
matches real-world lengths. The model has three parts:

- **Unit conversion** (`Units`): lengths in inches or centimetres become CSS
  pixels at 96 pixels per inch, and centimetres are first divided by 2.54.
- **The calibration canvas** (`CalibrationCanvas`):
  - The drawing routines (`drawLine`, `drawPolygon`, `drawGrid`, `draw`) are
    methods that append path commands to a rendering `Context`.
  - The context is modelled as an append-only log of `Translate`, `BeginPath`,
    `MoveTo` and `LineTo` commands.
  - Each method is proved against a function that states which commands it
    emits. Lemmas about those functions give the command count, the order, and
    the endpoints of the i-th grid segment.
  - The handle editor is a class `Editor`. It holds `points` (at most four
    handles), `pointToModify` (the optional selected handle) and `saved` (the
    last snapshot written to storage).
  - Its methods are the press, drag, release, nudge and key handlers. Each one
    keeps the editor invariant and states the whole new state.
- **The header's state transitions** (`Header`):
  - The invert, flip and rotate updates are pure record functions, with
    lemmas for involution, periodicity and range.
  - The grid and mode toggles and guarded page navigation are methods on
    `HeaderState`. So are the button clicks that apply the record updates.

`Geometry` stands in for the geometry library the canvas imports
(`interp`, `minIndex`, `sqrdist`, `transformPoints`). That library is not part
of this model. Each primitive has only the contract its call sites need:

- `MinIndex` returns an index of a smallest value of a non-empty sequence; on
  ties it returns the first such index. This tie rule is an assumption about
  the library.
- `TransformPoints` keeps the number of points.
- `Interp` returns `b` exactly for `t = 1` and `a` for `t = 0`.

The bodies of `Interp` (a linear interpolation) and `SqrDist` (a squared
Euclidean distance) are assumptions. So is applying the perspective transform
point by point. A `Homography` is an opaque point-to-point map.

All numbers are exact `real`s and unbounded `int`s. JavaScript's `%` is written
out as `JsRemainder`, whose result takes the sign of the dividend. Limits of
the model:

- The mouse `buttons` mask is a `bv16`.
- Key codes are strings.
- The unit of measure shown in the header is a two-valued type.

Where the code's behaviour is not obvious, the model follows the code:

- The code's grid loops run `for (i = 1; i < width; i++)` on any number, so
  `width` and `height` are reals here. `LineCount` counts the integers
  `1 <= i < extent`, and `LineCountOfInteger` gives the `W - 1` lines of an
  integer extent.
- The code does not bound the length of the point list it receives. The model
  states the bound of four as the editor invariant `Editor.Valid`, and every
  handler keeps it.

## Model

| member | source | states |
|---|---|---|
| Geometry.TransformPoints | app/_components/calibration-canvas.tsx:95-101 | transforming a list of points gives a list of the same length, so `line[0]` and `line[1]` exist for each grid line |
| Geometry.Interp | app/_components/calibration-canvas.tsx:204 | interpolation with fraction 1 gives the target point exactly (mouse snap), and with fraction 0 the start point |
| Geometry.MinIndex | app/_components/calibration-canvas.tsx:197 | on a non-empty list: an in-range index whose value is no larger than any other, and strictly smaller than every earlier one (first minimum) |
| Units.ToInches | app/_lib/unit.ts:6-8 | any unit other than centimetres is returned unchanged; for centimetres the result times 2.54 is the input |
| Units.ToPixels | app/_lib/unit.ts:10-13 | inches give 96 pixels per unit; for centimetres the result times 2.54 equals 96 times the input |
| Units.ToPixelsOneInch | app/_lib/unit.ts:10-12 | one inch is 96 pixels |
| Units.ToPixelsInchInCentimeters | app/_lib/unit.ts:6-13 | 2.54 centimetres are 96 pixels |
| Units.ToPixelsZero | app/_lib/unit.ts:6-13 | zero converts to zero pixels in both units |
| Units.ToPixelsLinear | app/_lib/unit.ts:6-13 | conversion distributes over addition and commutes with negation, as the negative outset at line 97 of the canvas relies on |
| Units.ToPixelsStrictlyMonotone | app/_lib/unit.ts:6-13 | a strictly smaller length converts to strictly fewer pixels |
| CalibrationCanvas.LineTos | app/_components/calibration-canvas.tsx:127-129 | the loop of drawPolygon emits one command per point |
| CalibrationCanvas.LineCount | app/_components/calibration-canvas.tsx:94 | the number n of lines drawn is the largest count with n < extent (when positive) and extent <= n + 1 |
| CalibrationCanvas.LineCountExact | app/_components/calibration-canvas.tsx:94-104 | an integer i is among the lines drawn exactly when 1 <= i and i < extent, in both directions |
| CalibrationCanvas.LineCountOfInteger | app/_components/calibration-canvas.tsx:94-104 | an integer extent W >= 1 yields W - 1 grid lines |
| CalibrationCanvas.GridLine | app/_components/calibration-canvas.tsx:95-111 | every grid line before transformation has exactly two endpoints |
| CalibrationCanvas.PassCommandsStep | app/_components/calibration-canvas.tsx:94-113 | for 1 <= i < extent, line i is within LineCount(extent), and drawing it with the endpoints the loop builds appends exactly one MoveTo/LineTo pair to the pass |
| CalibrationCanvas.PassCommandsLength | app/_components/calibration-canvas.tsx:94-113 | a pass of n lines emits 2n commands |
| CalibrationCanvas.PassCommandsAt | app/_components/calibration-canvas.tsx:94-113 | line i of a pass is its i-th segment: MoveTo the first and LineTo the second transformed endpoint, at positions 2i-2 and 2i-1 |
| CalibrationCanvas.GridCommandsLength | app/_components/calibration-canvas.tsx:86-114 | drawGrid emits two commands for each vertical and each horizontal line |
| CalibrationCanvas.GridCommandsLengthOfIntegers | app/_components/calibration-canvas.tsx:86-114 | for integer W and H, drawGrid emits W-1 vertical and H-1 horizontal segments, 2((W-1)+(H-1)) commands |
| CalibrationCanvas.GridVerticalSegment | app/_components/calibration-canvas.tsx:94-103 | the i-th segment is the vertical line from (toPixels(i), toPixels(-outset)) to (toPixels(i), toPixels(height+outset)), transformed |
| CalibrationCanvas.GridHorizontalSegment | app/_components/calibration-canvas.tsx:104-113 | after all vertical segments, the i-th horizontal one runs from (toPixels(-outset), toPixels(i)) to (toPixels(width+outset), toPixels(i)), transformed |
| CalibrationCanvas.OutsetExtendsGridLine | app/_components/calibration-canvas.tsx:86-113 | with a positive outset a grid line keeps its coordinate and extends the outset-0 line strictly at both ends |
| CalibrationCanvas.OuterOutset | app/_components/calibration-canvas.tsx:41-67 | the first grid pass of draw uses a positive outset: 2 when calibrating, 8 when projecting |
| CalibrationCanvas.PolygonCommandsShape | app/_components/calibration-canvas.tsx:121-130 | for a non-empty list: MoveTo the last point, then LineTo each point in order, one command more than points, ending where it started |
| CalibrationCanvas.PolygonCommandsEmpty | app/_components/calibration-canvas.tsx:122-125 | an empty list draws nothing |
| CalibrationCanvas.DrawLine | app/_components/calibration-canvas.tsx:116-119 | appends MoveTo p1 then LineTo p2 to the context |
| CalibrationCanvas.DrawPolygon | app/_components/calibration-canvas.tsx:121-130 | appends exactly the polygon commands of the points |
| CalibrationCanvas.DrawGrid | app/_components/calibration-canvas.tsx:86-114 | appends exactly the vertical pass, then the horizontal pass |
| CalibrationCanvas.DrawVerticalLines | app/_components/calibration-canvas.tsx:94-103 | the first loop appends lines 1..LineCount(width) in increasing order |
| CalibrationCanvas.DrawHorizontalLines | app/_components/calibration-canvas.tsx:104-113 | the second loop appends lines 1..LineCount(height) in increasing order |
| CalibrationCanvas.Draw | app/_components/calibration-canvas.tsx:10-84 | appends the translation, the handle polygon, and two grid passes on fresh paths: outset 2 then 0 when calibrating, 8 then 0 when projecting |
| CalibrationCanvas.NearestIndex | app/_components/calibration-canvas.tsx:197 | the selected index is in range, no point is nearer to the press, and every earlier point is strictly farther |
| CalibrationCanvas.KeyOffset | app/_components/calibration-canvas.tsx:229-246 | exactly the four arrow codes move the handle, each by one pixel along one axis; every other code moves nothing |
| CalibrationCanvas.KeyOffsetDirections | app/_components/calibration-canvas.tsx:231-243 | ArrowLeft, ArrowUp, ArrowRight and ArrowDown move by (-1,0), (0,-1), (1,0) and (0,1) |
| CalibrationCanvas.PrimaryButtonHeld | app/_components/calibration-canvas.tsx:254 | the primary-button bit is set exactly when the buttons mask is odd |
| CalibrationCanvas.Editor.Valid | app/_components/calibration-canvas.tsx:193-227 | the editor invariant every handler keeps: at most four handles, and a selection names an existing handle |
| CalibrationCanvas.Editor.HandleDown | app/_components/calibration-canvas.tsx:193-199 | with fewer than 4 points, appends the press and keeps earlier points and the selection; otherwise leaves the points and selects the nearest one; keeps the invariant |
| CalibrationCanvas.Editor.HandleMove | app/_components/calibration-canvas.tsx:201-207 | with no selection nothing changes; otherwise only the selected point changes, to interp(old, p, filter), and the length is kept |
| CalibrationCanvas.Editor.HandleMouseUp | app/_components/calibration-canvas.tsx:209-211 | saves the current points and keeps points and selection |
| CalibrationCanvas.Editor.HandleTouchUp | app/_components/calibration-canvas.tsx:213-216 | saves the current points and clears the selection |
| CalibrationCanvas.Editor.ModifyPoint | app/_components/calibration-canvas.tsx:218-227 | with no selection nothing changes; otherwise only the selected point moves, by exactly (xOffset, yOffset), and the length is kept |
| CalibrationCanvas.Editor.HandleKeyDown | app/_components/calibration-canvas.tsx:229-246 | an arrow key with a selection nudges only the selected point by the key's offset; any other key, or no selection, changes nothing |
| CalibrationCanvas.Editor.HandleMouseMove | app/_components/calibration-canvas.tsx:253-259 | with the primary bit clear it acts as a mouse-up (saves, keeps the selection); with it set the selected point moves onto the cursor (filter 1) |
| CalibrationCanvas.Editor.HandleTouchMove | app/_components/calibration-canvas.tsx:263-265 | drags the selected point with the touch filter 0.05 and changes nothing else |
| Header.Visible | app/_components/header.tsx:26-28 | "visible" exactly for true and "hidden" exactly for false |
| Header.UnitLabel | app/_components/header.tsx:104 | the label is "cm" exactly when the unit is CM, and "in" otherwise |
| Header.JsRemainder | app/_components/header.tsx:208 | JavaScript's remainder: a equals the quotient truncated toward zero times m plus the result; the result is in [0, m) for non-negative dividends, in (-m, 0] for negative ones, and the dividend itself when it is below m in magnitude |
| Header.Invert | app/_components/header.tsx:151-156 | toggles the inversion flag and keeps scale and degrees |
| Header.FlipVertically | app/_components/header.tsx:166-175 | negates scale.x and keeps scale.y, the flag and the degrees |
| Header.FlipHorizontally | app/_components/header.tsx:186-195 | negates scale.y and keeps scale.x, the flag and the degrees |
| Header.Rotate | app/_components/header.tsx:205-209 | keeps the flag and the scale; the new degrees differ from degrees + 90 by a multiple of 360 and lie strictly between -360 and 360 |
| Header.PreviousDisabled | app/_components/header.tsx:216 | "previous page" is enabled exactly when a page precedes the current one (pageNumber - 1 >= 1) |
| Header.NextDisabled | app/_components/header.tsx:224 | "next page" is enabled exactly when a page follows the current one (pageNumber + 1 <= pageCount) |
| Header.InvertInvolution | app/_components/header.tsx:151-156 | inverting twice restores the settings |
| Header.FlipInvolutions | app/_components/header.tsx:166-194 | each flip applied twice restores the settings, and each keeps a factor in {1, -1} |
| Header.FlipsCommute | app/_components/header.tsx:166-194 | the two flips commute |
| Header.RotateRange | app/_components/header.tsx:205-209 | from degrees >= -90 a rotation yields degrees in [0, 360) |
| Header.RotateStep | app/_components/header.tsx:205-209 | within [0, 360) a rotation adds 90, wrapping 270 to 0 |
| Header.RotateFourTimes | app/_components/header.tsx:205-209 | four rotations restore any settings whose degrees lie in [0, 360) |
| Header.EnabledNavigationKeepsRange | app/_components/header.tsx:214-229 | "previous" is enabled exactly when pageNumber > 1 and "next" exactly when pageNumber < pageCount; an enabled step keeps 1 <= pageNumber <= pageCount |
| Header.HeaderState.ClickInvert | app/_components/header.tsx:151-156 | the settings become their inverted version |
| Header.HeaderState.ClickFlipVertically | app/_components/header.tsx:166-175 | the settings become their vertically flipped version |
| Header.HeaderState.ClickFlipHorizontally | app/_components/header.tsx:186-195 | the settings become their horizontally flipped version |
| Header.HeaderState.ClickRotate | app/_components/header.tsx:205-210 | the settings become their rotated version |
| Header.HeaderState.ClickToggleGrid | app/_components/header.tsx:144 | negates gridOn |
| Header.HeaderState.ClickToggleCalibrating | app/_components/header.tsx:251 | negates isCalibrating |
| Header.HeaderState.ChangePage | app/_components/header.tsx:68-70 | adds the offset to the page number |
| Header.HeaderState.ClickPreviousPage | app/_components/header.tsx:214-221 | decrements the page exactly when pageNumber > 1, else changes nothing; keeps 1 <= pageNumber <= pageCount |
| Header.HeaderState.ClickNextPage | app/_components/header.tsx:222-229 | increments the page exactly when pageNumber < pageCount, else changes nothing; keeps 1 <= pageNumber <= pageCount |

## Left out

- Homography estimation is not modelled. That is the 8x8 linear system over `ml-matrix` that builds `perspective`. A `Homography` is an opaque point-to-point map supplied by the caller.
- Geometry.TransformPoints: states only that the length is kept, as the call sites need. Applying the transform point by point is an assumption, because the geometry library is not part of this model.
- Geometry.Interp: states only the fractions 0 and 1. The lerp body is an assumption, because the geometry library is not part of this model.
- SqrDist has no contract of its own, and its squared-distance body is an assumption. Nearest-point selection is stated in terms of it.
- Geometry.MinIndex: the first-minimum tie rule is an assumption, because the library's code is not part of this model.
- Pointer-to-canvas conversion (`mouseToCanvasPoint`, `touchToCanvasPoint`) is not modelled. The handlers take a `Point` directly.
- The direct event wiring is not modelled separately. `onMouseDown`, `onTouchStart`, `onMouseUp` and `onTouchEnd` call `HandleDown`, `HandleMouseUp` and `HandleTouchUp` unchanged.
- Canvas styling is not modelled: colours, line widths, dash patterns, `fill` versus `stroke`, the 20-pixel ring around the selected handle, and the resize to the window size. These only affect rendering.
- `CalibrationCanvas.DrawGrid` runs its two loops in two helper methods, `DrawVerticalLines` and `DrawHorizontalLines`, called in the same order. This changes the layout, not the behaviour. It keeps each proof small.
- Storage and JSON are not modelled. `localStorage.setItem` becomes the assignment to the `saved` snapshot, and the later restore of the points is not modelled. An `Editor` starts with no points.
- React plumbing is not modelled: effects, refs, and the timing of state setters. Each handler is atomic on the current state.
- `handleResetCalibration`, the width, height and unit handlers, file input, full-screen handling, links, icons and all layout are outside the header's own logic.
- `app/_components/labelled-radio-input.tsx` is not modelled. It is UI only.
- `console.log` calls are not modelled.
- IEEE floating point: reals are exact, so 2.54 divides exactly. NaN and Infinity are not represented.
- The `CM` and `IN` constants the header imports are not defined in `app/_lib/unit.ts`. `UnitOfMeasure` is therefore an abstract two-valued type.
- Rotation degrees are integers because the settings only ever change by 90. The definition of the settings type is not part of this model.
