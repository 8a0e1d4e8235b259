/**
  The geometry primitives the calibration canvas calls (`interp`, `minIndex`,
  `sqrdist`, `transformPoints` from `@/_lib/geometry`). That library is not part
  of this model: each primitive below is given the contract its call sites rely
  on, and the bodies of Interp and SqrDist are the textbook definitions
  (a linear interpolation and a squared Euclidean distance), which are ASSUMED.
*/
module Geometry {

  /** A point in canvas pixel coordinates. */
  datatype Point = Point(x: real, y: real)

  /**
    A perspective transform. How it is estimated from the four calibration
    points is not modelled; only its action on single points is used.
  */
  datatype Homography = Homography(apply: Point -> Point)

  /** Maps every point through the transform, keeping count and order. */
  function TransformPoints(ps: seq<Point>, h: Homography): (r: seq<Point>)
    ensures |r| == |ps|
  {
    seq(|ps|, i requires 0 <= i < |ps| => h.apply(ps[i]))
  }

  /** Linear interpolation from a towards b by the fraction t (assumed body). */
  function Interp(a: Point, b: Point, t: real): (r: Point)
    ensures t == 0.0 ==> r == a
    ensures t == 1.0 ==> r == b
  {
    Point(a.x + t * (b.x - a.x), a.y + t * (b.y - a.y))
  }

  /** Squared Euclidean distance (assumed body). */
  function SqrDist(a: Point, b: Point): real {
    (a.x - b.x) * (a.x - b.x) + (a.y - b.y) * (a.y - b.y)
  }

  /**
    The index of the smallest value; on ties the first such index. The
    callers guarantee a non-empty input.
  */
  function MinIndex(s: seq<real>): (k: nat)
    requires |s| > 0
    ensures k < |s|
    ensures forall j :: 0 <= j < |s| ==> s[k] <= s[j]
    ensures forall j :: 0 <= j < k ==> s[k] < s[j]
    decreases |s|
  {
    if |s| == 1 then 0
    else
      var k := MinIndex(s[..|s| - 1]);
      if s[|s| - 1] < s[k] then |s| - 1 else k
  }
}
