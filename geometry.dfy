/**
  The coordinate correction applied to every GeoJSON vertex before upload
  (cytomine_utils/_utils.py, lines 267-269): x is kept, y becomes the absolute
  difference between y and the image height.
 */
module Geometry {

  /** One vertex of a geometry's coordinate array, in integer pixels. */
  datatype Point = Point(x: int, y: int)

  /** `abs(y - height)`, the per-coordinate flip of the source. */
  function FlipY(y: int, height: int): (r: int)
    ensures r >= 0
    ensures r == y - height || r == height - y
  {
    if y >= height then y - height else height - y
  }

  /** The column-wise flip of a coordinate array: x unchanged, y flipped. */
  function FlipPoints(pts: seq<Point>, height: int): (r: seq<Point>)
    ensures |r| == |pts|
    ensures forall i :: 0 <= i < |r| ==> r[i].x == pts[i].x
    ensures forall i :: 0 <= i < |r| ==> r[i].y == FlipY(pts[i].y, height)
  {
    seq(|pts|, i requires 0 <= i < |pts| => Point(pts[i].x, FlipY(pts[i].y, height)))
  }

  /** Within the image, the flip is the familiar `height - y` and stays within the image. */
  lemma FlipInsideImage(y: int, height: int)
    requires 0 <= y <= height
    ensures FlipY(y, height) == height - y
    ensures 0 <= FlipY(y, height) <= height
  {
  }

  /** For a positive height, flipping twice gives back y exactly when y lies inside the image. */
  lemma FlipTwice(y: int, height: int)
    requires height > 0
    ensures FlipY(FlipY(y, height), height) == y <==> 0 <= y <= height
  {
  }

  /** Every vertex whose y lies inside the image. */
  ghost predicate InsideHeight(pts: seq<Point>, height: int)
  {
    forall i :: 0 <= i < |pts| ==> 0 <= pts[i].y <= height
  }

  /** The flip keeps a coordinate array inside the image and is then its own inverse. */
  lemma FlipPointsTwice(pts: seq<Point>, height: int)
    requires InsideHeight(pts, height)
    ensures InsideHeight(FlipPoints(pts, height), height)
    ensures FlipPoints(FlipPoints(pts, height), height) == pts
  {
    var once := FlipPoints(pts, height);
    forall i | 0 <= i < |pts|
      ensures 0 <= once[i].y <= height && FlipY(once[i].y, height) == pts[i].y
    {
      FlipInsideImage(pts[i].y, height);
      FlipInsideImage(once[i].y, height);
    }
  }

  /** The closed square of a 1000 x 800 image, in top-left-origin pixels, and its flip. */
  lemma SquareExample()
    ensures FlipPoints([Point(10, 10), Point(10, 20), Point(20, 20), Point(20, 10), Point(10, 10)], 800)
         == [Point(10, 790), Point(10, 780), Point(20, 780), Point(20, 790), Point(10, 790)]
  {
  }
}
