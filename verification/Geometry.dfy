/** Rectangles with rounded corners, and comparisons with the service's tolerance. */
module Geometry {

  datatype BorderRadius = BorderRadius(leftTop: real, rightTop: real, leftBottom: real, rightBottom: real)

  datatype Rect = Rect(x: real, y: real, width: real, height: real, radius: BorderRadius)

  const EPSILON := 0.001

  predicate GreatOrEqual(left: real, right: real) {
    left - right > -EPSILON
  }

  predicate GreatNotEqual(left: real, right: real) {
    left - right > EPSILON
  }

  predicate IsInRect(r: Rect, x: real, y: real) {
    && GreatOrEqual(x, r.x - 1.0) && GreatOrEqual(r.x + r.width, x - 1.0)
    && GreatOrEqual(y, r.y - 1.0) && GreatOrEqual(r.y + r.height, y - 1.0)
  }
}
