/**
 Whether a component lies on its screen and in its window. On a round watch the
 code looks at the four corner centres only; that decides every point of the shape.
 */
module ScreenCheck {
  import opened Types
  import opened Geometry
  import opened RoundedRect
  import opened Entity

  const MAX_THRESHOLD_PERCENT := 0.1

  /** The five square roots the watch check computes. */
  datatype WatchRoots = WatchRoots(diagonal: real, leftTop: real, leftBottom: real, rightTop: real, rightBottom: real)

  function DistanceAt(roots: WatchRoots, k: Corner): real {
    match k
    case LeftTop => roots.leftTop
    case RightTop => roots.rightTop
    case LeftBottom => roots.leftBottom
    case RightBottom => roots.rightBottom
  }

  ghost predicate AreRoots(rect: Rect, radius: real, roots: WatchRoots) {
    && IsRoot(roots.diagonal, Square(rect.width) + Square(rect.height))
    && forall k :: IsRoot(DistanceAt(roots, k), Apart(CentreX(rect, k), CentreY(rect, k), radius, radius))
  }

  function Max(a: real, b: real): real {
    if a < b then b else a
  }

  function Threshold(length: real): real {
    Max(length * MAX_THRESHOLD_PERCENT, 1.0)
  }

  /** The tolerance in numbers: a tenth of the length, and at least 1. */
  function Tenth(length: real): real {
    if length > 10.0 then length / 10.0 else 1.0
  }

  predicate IsOutOfWatchScreen(rect: Rect, radius: real, roots: WatchRoots) {
    var threshold := Threshold(roots.diagonal);
    || GreatNotEqual(roots.leftTop, radius - rect.radius.leftTop + threshold)
    || GreatNotEqual(roots.leftBottom, radius - rect.radius.leftBottom + threshold)
    || GreatNotEqual(roots.rightTop, radius - rect.radius.rightTop + threshold)
    || GreatNotEqual(roots.rightBottom, radius - rect.radius.rightBottom + threshold)
  }

  ghost predicate OnWatch(rect: Rect, radius: real, bound: real) {
    forall x, y :: InRounded(rect, x, y) ==> Within(x, y, radius, radius, bound)
  }

  predicate CentresClose(rect: Rect, roots: WatchRoots, bound: real) {
    && roots.leftTop + rect.radius.leftTop <= bound && roots.rightTop + rect.radius.rightTop <= bound
    && roots.leftBottom + rect.radius.leftBottom <= bound && roots.rightBottom + rect.radius.rightBottom <= bound
  }

  lemma DiscWithin(rect: Rect, radius: real, roots: WatchRoots, bound: real, k: Corner, x: real, y: real)
    requires RadiiFit(rect) && AreRoots(rect, radius, roots) && CentresClose(rect, roots, bound)
    requires Apart(x, y, CentreX(rect, k), CentreY(rect, k)) <= Square(RadiusAt(rect, k))
    ensures Within(x, y, radius, radius, bound)
  {
    Triangle(x, y, CentreX(rect, k), CentreY(rect, k), RadiusAt(rect, k), radius, radius, DistanceAt(roots, k), bound);
  }

  predicate InCornerSquare(rect: Rect, k: Corner, x: real, y: real) {
    DepthX(rect, k, x) < RadiusAt(rect, k) && DepthY(rect, k, y) < RadiusAt(rect, k)
  }

  /**
   On each side of a point outside the corner squares lies one at the same height that a
   corner's disc accounts for.
   */
  lemma SidePoint(rect: Rect, radius: real, roots: WatchRoots, bound: real, k: Corner, x: real, y: real)
    returns (s: real)
    requires RadiiFit(rect) && AreRoots(rect, radius, roots) && CentresClose(rect, roots, bound)
    requires k == LeftTop || k == RightTop
    requires InPlain(rect, x, y) && !InCornerSquare(rect, k, x, y) && !InCornerSquare(rect, Down(k), x, y)
    ensures DepthX(rect, k, s) <= DepthX(rect, k, x) && Within(s, y, radius, radius, bound)
  {
    var d := Down(k);
    if DepthY(rect, k, y) < RadiusAt(rect, k) {
      s := CentreX(rect, k);
      SquareGrows(CentreY(rect, k) - y, RadiusAt(rect, k));
      SquareOfOpposite(y - CentreY(rect, k));
      DiscWithin(rect, radius, roots, bound, k, s, y);
    } else if DepthY(rect, d, y) < RadiusAt(rect, d) {
      s := CentreX(rect, d);
      SquareGrows(y - CentreY(rect, d), RadiusAt(rect, d));
      DiscWithin(rect, radius, roots, bound, d, s, y);
    } else {
      s := if k == LeftTop then rect.x else rect.x + rect.width;
      SquareOfOpposite(RadiusAt(rect, k));
      SquareOfOpposite(RadiusAt(rect, d));
      DiscWithin(rect, radius, roots, bound, k, s, CentreY(rect, k));
      DiscWithin(rect, radius, roots, bound, d, s, CentreY(rect, d));
      BetweenOnColumn(s, CentreY(rect, k), y, CentreY(rect, d), radius, radius, bound);
    }
  }

  lemma CornerSquareWithin(rect: Rect, radius: real, roots: WatchRoots, bound: real, k: Corner, x: real, y: real)
    requires RadiiFit(rect) && AreRoots(rect, radius, roots) && CentresClose(rect, roots, bound)
    requires InRounded(rect, x, y) && InCornerSquare(rect, k, x, y)
    ensures Within(x, y, radius, radius, bound)
  {
    SeenFromCorner(rect, k, x, y);
    DepthOfCentre(rect, k, x, y);
    DiscWithin(rect, radius, roots, bound, k, x, y);
  }

  lemma PointWithin(rect: Rect, radius: real, roots: WatchRoots, bound: real, x: real, y: real)
    requires RadiiFit(rect) && AreRoots(rect, radius, roots) && CentresClose(rect, roots, bound)
    requires InRounded(rect, x, y)
    ensures Within(x, y, radius, radius, bound)
  {
    if k :| InCornerSquare(rect, k, x, y) {
      CornerSquareWithin(rect, radius, roots, bound, k, x, y);
    } else {
      var l := SidePoint(rect, radius, roots, bound, LeftTop, x, y);
      var r := SidePoint(rect, radius, roots, bound, RightTop, x, y);
      BetweenOnRow(l, x, r, y, radius, radius, bound);
    }
  }

  lemma CentreClose(rect: Rect, radius: real, roots: WatchRoots, bound: real, k: Corner)
    requires RadiiFit(rect) && AreRoots(rect, radius, roots) && OnWatch(rect, radius, bound)
    ensures DistanceAt(roots, k) + RadiusAt(rect, k) <= bound
  {
    var d, r := DistanceAt(roots, k), RadiusAt(rect, k);
    var x, y := FarPoint(CentreX(rect, k), CentreY(rect, k), r, radius, radius, d);
    CornerDiscInside(rect, k, x, y);
    assert Within(x, y, radius, radius, bound);
    SquareShrinks(d + r, bound);
  }

  /**
   For corner radii up to half the shorter side, the four centres pass exactly when
   every point of the rounded rectangle is within the tolerance of the round screen,
   which is a tenth of the rectangle's diagonal.
   */
  lemma WatchScreenExact(rect: Rect, radius: real, roots: WatchRoots)
    requires RadiiFit(rect) && AreRoots(rect, radius, roots)
    ensures !IsOutOfWatchScreen(rect, radius, roots) <==>
            OnWatch(rect, radius, radius + Tenth(roots.diagonal) + 0.001)
  {
    var bound := radius + Tenth(roots.diagonal) + 0.001;
    assert Threshold(roots.diagonal) == Tenth(roots.diagonal);
    assert !IsOutOfWatchScreen(rect, radius, roots) <==> CentresClose(rect, roots, bound);
    if CentresClose(rect, roots, bound) {
      forall x, y | InRounded(rect, x, y) ensures Within(x, y, radius, radius, bound) {
        PointWithin(rect, radius, roots, bound, x, y);
      }
    }
    if OnWatch(rect, radius, bound) {
      forall k: Corner ensures DistanceAt(roots, k) + RadiusAt(rect, k) <= bound {
        CentreClose(rect, radius, roots, bound, k);
      }
      assert DistanceAt(roots, LeftTop) + RadiusAt(rect, LeftTop) <= bound;
      assert DistanceAt(roots, RightTop) + RadiusAt(rect, RightTop) <= bound;
      assert DistanceAt(roots, LeftBottom) + RadiusAt(rect, LeftBottom) <= bound;
      assert DistanceAt(roots, RightBottom) + RadiusAt(rect, RightBottom) <= bound;
    }
  }

  // Any screen, and the window

  datatype Screen = Screen(
    width: real, height: real, isRound: bool, isWearable: bool, displayId: nat,
    crossAxis: CrossAxisState, isCompatScale: bool, foldOffset: int)

  /** On the virtual lower half of a folded screen a compatible window reports unshifted positions. */
  function OnVirtualDisplay(rect: Rect, screen: Screen): Rect {
    if screen.displayId == FOLD_VIRTUAL_DISPLAY_ID && screen.crossAxis == StateNoCross && screen.isCompatScale
    then rect.(y := rect.y - screen.foldOffset as real) else rect
  }

  predicate IsOutOfScreen(rect: Rect, screen: Screen, roots: WatchRoots) {
    if screen.isWearable && screen.isRound then
      IsOutOfWatchScreen(rect, screen.height / 2.0, roots)
    else
      var r := OnVirtualDisplay(rect, screen);
      var (tx, ty) := (Threshold(r.width), Threshold(r.height));
      || GreatNotEqual(0.0 - tx, r.x) || GreatNotEqual(0.0 - ty, r.y)
      || GreatNotEqual(r.x, screen.width + tx) || GreatNotEqual(r.y, screen.height + ty)
      || GreatNotEqual(r.x + r.width, screen.width + tx) || GreatNotEqual(r.y + r.height, screen.height + ty)
  }

  predicate IsOutOfWindow(rect: Rect, window: Rect, scale: real) {
    || GreatNotEqual(window.x, rect.x + 1.0 + scale) || GreatNotEqual(window.y, rect.y + 1.0 + scale)
    || GreatNotEqual(rect.x + rect.width, window.x + window.width + 1.0 + scale)
    || GreatNotEqual(rect.y + rect.height, window.y + window.height + 1.0 + scale)
  }

  function CheckRectValid(displayFound: bool, rect: Rect, window: Rect, screen: Screen, scale: real, roots: WatchRoots)
    : RectAnswer
  {
    if !displayFound then RectWithoutMessage
    else if GreatOrEqual(0.0, rect.width) || GreatOrEqual(0.0, rect.height) then RectWithoutMessage
    else if IsOutOfScreen(rect, screen, roots) then RectWithMessage
    else if IsOutOfWindow(rect, window, scale) then RectWithMessage
    else RectValid
  }

  /** Every point of `rect` lies in `area` widened by these margins. */
  ghost predicate Covers(area: Rect, marginX: real, marginY: real, rect: Rect) {
    forall x, y :: InPlain(rect, x, y) ==>
      && area.x - marginX <= x <= area.x + area.width + marginX
      && area.y - marginY <= y <= area.y + area.height + marginY
  }

  function WholeScreen(screen: Screen): Rect {
    Rect(0.0, 0.0, screen.width, screen.height, BorderRadius(0.0, 0.0, 0.0, 0.0))
  }

  ghost predicate OnScreen(rect: Rect, screen: Screen, roots: WatchRoots) {
    if screen.isWearable && screen.isRound then
      OnWatch(rect, screen.height / 2.0, screen.height / 2.0 + Tenth(roots.diagonal) + 0.001)
    else
      var lower := screen.displayId == 999 && screen.crossAxis == StateNoCross && screen.isCompatScale;
      var r := if lower then rect.(y := rect.y - screen.foldOffset as real) else rect;
      Covers(WholeScreen(screen), Tenth(rect.width) + 0.001, Tenth(rect.height) + 0.001, r)
  }

  /** The opposite corners of a rectangle decide whether an area covers it. */
  lemma CoversByCorners(area: Rect, marginX: real, marginY: real, rect: Rect)
    requires 0.0 <= rect.width && 0.0 <= rect.height
    ensures Covers(area, marginX, marginY, rect) <==>
            && area.x - marginX <= rect.x && rect.x + rect.width <= area.x + area.width + marginX
            && area.y - marginY <= rect.y && rect.y + rect.height <= area.y + area.height + marginY
  {
    assert InPlain(rect, rect.x, rect.y) && InPlain(rect, rect.x + rect.width, rect.y + rect.height);
  }

  /**
   A reported rectangle passes exactly when its display is known, it is not empty,
   every point of it is on the screen and every point of it is in its window, each
   with its tolerance; only the first two failures come without a message.
   */
  lemma RectCheckExact(displayFound: bool, rect: Rect, window: Rect, screen: Screen, scale: real, roots: WatchRoots)
    requires screen.isWearable && screen.isRound ==> RadiiFit(rect) && AreRoots(rect, screen.height / 2.0, roots)
    ensures CheckRectValid(displayFound, rect, window, screen, scale, roots) == RectValid <==>
            && displayFound && 0.001 <= rect.width && 0.001 <= rect.height
            && OnScreen(rect, screen, roots)
            && Covers(window, scale + 1.001, scale + 1.001, rect)
    ensures CheckRectValid(displayFound, rect, window, screen, scale, roots) == RectWithoutMessage <==>
            !displayFound || rect.width < 0.001 || rect.height < 0.001
  {
    if EPSILON <= rect.width && EPSILON <= rect.height {
      CoversByCorners(window, scale + 1.001, scale + 1.001, rect);
      if screen.isWearable && screen.isRound {
        WatchScreenExact(rect, screen.height / 2.0, roots);
      } else {
        var r := OnVirtualDisplay(rect, screen);
        CoversByCorners(WholeScreen(screen), Tenth(rect.width) + 0.001, Tenth(rect.height) + 0.001, r);
      }
    }
  }
}
