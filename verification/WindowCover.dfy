/**
 Windows above a component. First the test of one window against the rounded
 rectangle, which looks only at one corner of the window; then the scan over all
 windows, which stops early.
 */
module WindowCover {
  import opened Types
  import opened Geometry
  import opened RoundedRect

  /** Rosen::Rect: signed 32-bit position, unsigned 32-bit size. */
  datatype WindowRect = WindowRect(posX: int, posY: int, width: nat, height: nat)

  /** The sizes and the far edges fit a signed 32-bit number, so that the first comparisons are exact. */
  predicate Int32Edges(wind: WindowRect) {
    && -INT32_RANGE <= wind.posX && -INT32_RANGE <= wind.posY
    && wind.width < INT32_RANGE && wind.height < INT32_RANGE
    && wind.posX + wind.width < INT32_RANGE && wind.posY + wind.height < INT32_RANGE
  }

  /**
   The window's corner that the code holds against corner `k` of the component.
   A right or bottom edge is a signed number plus an unsigned one: it wraps.
   */
  function CodeCornerX(wind: WindowRect, k: Corner): int {
    if k.RightTop? || k.RightBottom? then wind.posX else (wind.posX + wind.width) % UINT32_RANGE
  }

  function CodeCornerY(wind: WindowRect, k: Corner): int {
    if k.LeftBottom? || k.RightBottom? then wind.posY else (wind.posY + wind.height) % UINT32_RANGE
  }

  /** The window leaves no more than the square of corner `k` to be shared. */
  predicate LeavesOnly(wind: WindowRect, sec: Rect, k: Corner) {
    var (px, py) := (CodeCornerX(wind, k) as real, CodeCornerY(wind, k) as real);
    && (if k.RightTop? || k.RightBottom? then GreatOrEqual(px, CentreX(sec, k)) else GreatOrEqual(CentreX(sec, k), px))
    && (if k.LeftBottom? || k.RightBottom? then GreatOrEqual(py, CentreY(sec, k))
         else GreatOrEqual(CentreY(sec, k), py))
  }

  function TestedCorner(wind: WindowRect, sec: Rect): Option<Corner> {
    if LeavesOnly(wind, sec, RightBottom) then Some(RightBottom)
    else if LeavesOnly(wind, sec, LeftBottom) then Some(LeftBottom)
    else if LeavesOnly(wind, sec, RightTop) then Some(RightTop)
    else if LeavesOnly(wind, sec, LeftTop) then Some(LeftTop)
    else None
  }

  predicate PlainOverlap(wind: WindowRect, sec: Rect) {
    && sec.x + sec.width > wind.posX as real && sec.x < (wind.posX + Signed32(wind.width)) as real
    && sec.y + sec.height > wind.posY as real && sec.y < (wind.posY + Signed32(wind.height)) as real
  }

  /** `distance` is the one square root the test takes, if it takes any. */
  predicate IsRectInWindRect(wind: WindowRect, sec: Rect, distance: real) {
    && PlainOverlap(wind, sec)
    && var tested := TestedCorner(wind, sec);
    tested.Some? ==> !GreatNotEqual(distance, RadiusAt(sec, tested.value) - 1.0)
  }

  predicate IsTestedDistance(wind: WindowRect, sec: Rect, distance: real) {
    var tested := TestedCorner(wind, sec);
    tested.Some? ==>
      var k := tested.value;
      IsRoot(distance, Apart(CodeCornerX(wind, k) as real, CodeCornerY(wind, k) as real, CentreX(sec, k),
        CentreY(sec, k)))
  }

  // What the test decides

  predicate InWindow(wind: WindowRect, x: real, y: real) {
    && wind.posX as real <= x <= (wind.posX + wind.width) as real
    && wind.posY as real <= y <= (wind.posY + wind.height) as real
  }

  ghost predicate Share(wind: WindowRect, sec: Rect) {
    exists x, y :: InWindow(wind, x, y) && InRounded(sec, x, y)
  }

  /** In the square of the corner, and less than 1.01 away from its arc. */
  predicate NearArc(sec: Rect, k: Corner, x: real, y: real) {
    var r := RadiusAt(sec, k);
    var apart := Apart(x, y, CentreX(sec, k), CentreY(sec, k));
    && DepthX(sec, k, x) <= r + 0.01 && DepthY(sec, k, y) <= r + 0.01
    && apart <= Square(r + 0.01)
    && (r <= 1.01 || Square(r - 1.01) <= apart)
  }

  ghost predicate SharesOnlyArc(wind: WindowRect, sec: Rect, k: Corner) {
    forall x, y :: InWindow(wind, x, y) && InRounded(sec, x, y) ==> NearArc(sec, k, x, y)
  }

  predicate PlainlyApart(wind: WindowRect, sec: Rect) {
    || sec.x + sec.width <= wind.posX as real || (wind.posX + wind.width) as real <= sec.x
    || sec.y + sec.height <= wind.posY as real || (wind.posY + wind.height) as real <= sec.y
  }

  /** Yes means a shared point; no means none but along one corner's arc. */
  ghost predicate Decides(wind: WindowRect, sec: Rect, res: bool) {
    if res then Share(wind, sec) else PlainlyApart(wind, sec) || exists k :: SharesOnlyArc(wind, sec, k)
  }

  predicate EdgesOnScreen(wind: WindowRect) {
    0 <= wind.posX + wind.width && 0 <= wind.posY + wind.height
  }

  function Clamp(a: real, lo: real, hi: real): real {
    if a < lo then lo else if a > hi then hi else a
  }

  function MiddleX(wind: WindowRect, sec: Rect): real {
    Clamp(sec.x + sec.width / 2.0, wind.posX as real, (wind.posX + wind.width) as real)
  }

  function MiddleY(wind: WindowRect, sec: Rect): real {
    Clamp(sec.y + sec.height / 2.0, wind.posY as real, (wind.posY + wind.height) as real)
  }

  lemma MiddleAvoids(wind: WindowRect, sec: Rect, k: Corner)
    requires Int32Edges(wind) && EdgesOnScreen(wind) && Fits(RadiusAt(sec, k), sec) && !LeavesOnly(wind, sec, k)
    ensures DepthX(sec, k, MiddleX(wind, sec)) >= RadiusAt(sec, k) ||
            DepthY(sec, k, MiddleY(wind, sec)) >= RadiusAt(sec, k)
  {
  }

  /** No corner tested: the window's point nearest the component's middle is shared. */
  lemma MiddleShared(wind: WindowRect, sec: Rect)
    requires Int32Edges(wind) && EdgesOnScreen(wind) && RadiiFit(sec)
    requires PlainOverlap(wind, sec) && TestedCorner(wind, sec).None?
    ensures Share(wind, sec)
  {
    var (x, y) := (MiddleX(wind, sec), MiddleY(wind, sec));
    MiddleAvoids(wind, sec, LeftTop);
    MiddleAvoids(wind, sec, RightTop);
    MiddleAvoids(wind, sec, LeftBottom);
    MiddleAvoids(wind, sec, RightBottom);
    OutsideSquares(sec, x, y);
    assert InWindow(wind, x, y);
  }

  lemma OutsideSquares(sec: Rect, x: real, y: real)
    requires InPlain(sec, x, y)
    requires DepthX(sec, LeftTop, x) >= RadiusAt(sec, LeftTop) || DepthY(sec, LeftTop, y) >= RadiusAt(sec, LeftTop)
    requires DepthX(sec, RightTop, x) >= RadiusAt(sec, RightTop) || DepthY(sec, RightTop, y) >= RadiusAt(sec, RightTop)
    requires DepthX(sec, LeftBottom, x) >= RadiusAt(sec, LeftBottom) ||
             DepthY(sec, LeftBottom, y) >= RadiusAt(sec, LeftBottom)
    requires DepthX(sec, RightBottom, x) >= RadiusAt(sec, RightBottom) ||
             DepthY(sec, RightBottom, y) >= RadiusAt(sec, RightBottom)
    ensures InRounded(sec, x, y)
  {
  }

  lemma CodeCornerInWindow(wind: WindowRect, k: Corner)
    requires Int32Edges(wind) && EdgesOnScreen(wind)
    ensures InWindow(wind, CodeCornerX(wind, k) as real, CodeCornerY(wind, k) as real)
  {
  }

  lemma RootWithin(x: real, y: real, cx: real, cy: real, r: real, distance: real)
    requires IsRoot(distance, Apart(x, y, cx, cy)) && distance <= r
    ensures Within(x, y, cx, cy, r)
  {
  }

  /** The tested corner of the window is deep enough inside the disc. */
  lemma CornerShared(wind: WindowRect, sec: Rect, distance: real, k: Corner)
    requires Int32Edges(wind) && EdgesOnScreen(wind) && RadiiFit(sec) && IsTestedDistance(wind, sec, distance)
    requires TestedCorner(wind, sec) == Some(k) && distance - (RadiusAt(sec, k) - 1.0) <= EPSILON
    ensures Share(wind, sec)
  {
    CodeCornerInWindow(wind, k);
    PointShared(wind, sec, distance, k, CodeCornerX(wind, k) as real, CodeCornerY(wind, k) as real);
  }

  lemma PointShared(wind: WindowRect, sec: Rect, distance: real, k: Corner, px: real, py: real)
    requires RadiiFit(sec) && InWindow(wind, px, py) &&
             IsRoot(distance, Apart(px, py, CentreX(sec, k), CentreY(sec, k)))
    requires distance <= RadiusAt(sec, k)
    ensures Share(wind, sec)
  {
    RootWithin(px, py, CentreX(sec, k), CentreY(sec, k), RadiusAt(sec, k), distance);
    CornerDiscInside(sec, k, px, py);
  }

  lemma DeeperIsFarther(u: real, p: real, r: real)
    requires u <= p <= r + EPSILON
    ensures Square(p - r) <= Square(u - r) + 0.000001
  {
    SquareNonNegative(u - r);
    SquareOfOpposite(p - r);
    SquareOfOpposite(u - r);
    if p <= r {
      SquareGrows(r - p, r - u);
    } else {
      SquareGrows(p - r, EPSILON);
      assert Square(EPSILON) == 0.000001;
    }
  }

  /** A point no deeper than a corner of the window that is itself farther than `b` from the centre. */
  lemma FartherThanArc(u: real, v: real, p: real, q: real, r: real, distance: real)
    requires u <= p <= r + EPSILON && v <= q <= r + EPSILON
    requires IsRoot(distance, Square(p - r) + Square(q - r)) && distance > r - 1.0 + EPSILON
    ensures r <= 1.01 || Square(r - 1.01) <= Square(u - r) + Square(v - r)
  {
    DeeperIsFarther(u, p, r);
    DeeperIsFarther(v, q, r);
    if r > 1.01 {
      var b := r - 1.01;
      SquareGrows(b + 0.011, distance);
      SquareOfSum(b, 0.011);
      assert Square(0.011) == 0.000121 && Times(b, 0.011) == 0.011 * b;
    }
  }

  lemma NotFartherThanArc(u: real, v: real, r: real)
    requires 0.0 <= u <= r + EPSILON && 0.0 <= v <= r + EPSILON && NotCut(u, v, r) && 0.0 <= r
    ensures Square(u - r) + Square(v - r) <= Square(r + 0.01)
  {
    SquareOfSum(r, 0.01);
    assert Square(0.01) == 0.0001 && Times(r, 0.01) == 0.01 * r;
    if u >= r || v >= r {
      SmallOrInside(u, r);
      SmallOrInside(v, r);
      SquareNonNegative(r);
    }
  }

  lemma SmallOrInside(u: real, r: real)
    requires 0.0 <= u <= r + EPSILON
    ensures if u >= r then Square(u - r) <= 0.000001 else Square(u - r) <= Square(r)
  {
    if u >= r {
      SquareGrows(u - r, EPSILON);
      assert Square(EPSILON) == 0.000001;
    } else {
      SquareOfOpposite(u - r);
      SquareGrows(r - u, r);
    }
  }

  /** Every point of the window is no deeper in the corner than the window's own corner. */
  lemma NoDeeperThanCorner(wind: WindowRect, sec: Rect, k: Corner, x: real, y: real)
    requires Int32Edges(wind) && EdgesOnScreen(wind) && LeavesOnly(wind, sec, k) && InWindow(wind, x, y)
    ensures DepthX(sec, k, x) <= DepthX(sec, k, CodeCornerX(wind, k) as real) <= RadiusAt(sec, k) + EPSILON
    ensures DepthY(sec, k, y) <= DepthY(sec, k, CodeCornerY(wind, k) as real) <= RadiusAt(sec, k) + EPSILON
  {
  }

  lemma NearArcFrom(sec: Rect, k: Corner, x: real, y: real, px: real, py: real, distance: real)
    requires 0.0 <= RadiusAt(sec, k) && InRounded(sec, x, y)
    requires DepthX(sec, k, x) <= DepthX(sec, k, px) <= RadiusAt(sec, k) + EPSILON
    requires DepthY(sec, k, y) <= DepthY(sec, k, py) <= RadiusAt(sec, k) + EPSILON
    requires IsRoot(distance, Apart(px, py, CentreX(sec, k), CentreY(sec, k))) &&
             distance > RadiusAt(sec, k) - 1.0 + EPSILON
    ensures NearArc(sec, k, x, y)
  {
    var (u, v, r) := (DepthX(sec, k, x), DepthY(sec, k, y), RadiusAt(sec, k));
    SeenFromCorner(sec, k, x, y);
    DepthOfCentre(sec, k, x, y);
    DepthOfCentre(sec, k, px, py);
    NotFartherThanArc(u, v, r);
    FartherThanArc(u, v, DepthX(sec, k, px), DepthY(sec, k, py), r, distance);
  }

  lemma ArcOnly(wind: WindowRect, sec: Rect, distance: real, k: Corner, x: real, y: real)
    requires Int32Edges(wind) && EdgesOnScreen(wind) && RadiiFit(sec) && IsTestedDistance(wind, sec, distance)
    requires TestedCorner(wind, sec) == Some(k) && distance - (RadiusAt(sec, k) - 1.0) > EPSILON
    requires InWindow(wind, x, y) && InRounded(sec, x, y)
    ensures NearArc(sec, k, x, y)
  {
    NoDeeperThanCorner(wind, sec, k, x, y);
    NearArcFrom(sec, k, x, y, CodeCornerX(wind, k) as real, CodeCornerY(wind, k) as real, distance);
  }

  lemma ArcOnlyShared(wind: WindowRect, sec: Rect, distance: real, k: Corner)
    requires Int32Edges(wind) && EdgesOnScreen(wind) && RadiiFit(sec) && IsTestedDistance(wind, sec, distance)
    requires TestedCorner(wind, sec) == Some(k) && distance - (RadiusAt(sec, k) - 1.0) > EPSILON
    ensures SharesOnlyArc(wind, sec, k)
  {
    forall x, y | InWindow(wind, x, y) && InRounded(sec, x, y) ensures NearArc(sec, k, x, y) {
      ArcOnly(wind, sec, distance, k, x, y);
    }
  }

  lemma NoPlainOverlap(wind: WindowRect, sec: Rect)
    requires Int32Edges(wind) && !PlainOverlap(wind, sec)
    ensures PlainlyApart(wind, sec)
  {
  }

  lemma TestedDecides(wind: WindowRect, sec: Rect, distance: real, k: Corner)
    requires Int32Edges(wind) && EdgesOnScreen(wind) && RadiiFit(sec) && IsTestedDistance(wind, sec, distance)
    requires TestedCorner(wind, sec) == Some(k)
    ensures if GreatNotEqual(distance, RadiusAt(sec, k) - 1.0) then SharesOnlyArc(wind, sec, k) else Share(wind, sec)
  {
    if GreatNotEqual(distance, RadiusAt(sec, k) - 1.0) {
      ArcOnlyShared(wind, sec, distance, k);
    } else {
      CornerShared(wind, sec, distance, k);
    }
  }

  /** Rectangles that only touch do not overlap. */
  lemma TouchingIsApart(wind: WindowRect, sec: Rect, distance: real)
    requires Int32Edges(wind) && PlainlyApart(wind, sec)
    ensures !IsRectInWindRect(wind, sec, distance)
  {
  }

  lemma OverlapDecides(wind: WindowRect, sec: Rect, distance: real)
    requires Int32Edges(wind) && EdgesOnScreen(wind) && RadiiFit(sec) && IsTestedDistance(wind, sec, distance)
    ensures Decides(wind, sec, IsRectInWindRect(wind, sec, distance))
  {
    if !PlainOverlap(wind, sec) {
      NoPlainOverlap(wind, sec);
    } else {
      match TestedCorner(wind, sec) {
        case None => MiddleShared(wind, sec);
        case Some(k) => TestedDecides(wind, sec, distance, k);
      }
    }
  }

  /** A component whose left top corner, with a radius of 10, reaches the window by a tenth in each direction. */
  function Tucked(wind: WindowRect): Rect {
    Rect((wind.posX + wind.width) as real - 0.1, (wind.posY + wind.height) as real - 0.1, 20.0, 20.0,
         BorderRadius(10.0, 10.0, 10.0, 10.0))
  }

  lemma TuckedIsUntested(wind: WindowRect)
    requires Int32Edges(wind) && !EdgesOnScreen(wind)
    ensures PlainOverlap(wind, Tucked(wind)) && TestedCorner(wind, Tucked(wind)).None? && RadiiFit(Tucked(wind))
  {
  }

  lemma OutsideDisc(u: real, v: real)
    requires u <= 0.1 && v <= 0.1
    ensures !NotCut(u, v, 10.0)
  {
  }

  /**
   An edge left of the screen or above it wraps: the corner is not tested, and the gap beside
   the arc counts as covered.
   */
  lemma WrappedEdgeMisjudged(wind: WindowRect)
    requires Int32Edges(wind) && !EdgesOnScreen(wind)
    ensures var sec := Tucked(wind);
            && RadiiFit(sec) && IsTestedDistance(wind, sec, 0.0)
            && IsRectInWindRect(wind, sec, 0.0) && !Share(wind, sec)
  {
    var sec := Tucked(wind);
    TuckedIsUntested(wind);
    forall x, y | InWindow(wind, x, y) ensures !InRounded(sec, x, y) {
      OutsideDisc(x - sec.x, y - sec.y);
    }
  }

  ghost predicate DecidesAlways(wind: WindowRect) {
    forall sec, distance :: RadiiFit(sec) && IsTestedDistance(wind, sec, distance) ==>
      Decides(wind, sec, IsRectInWindRect(wind, sec, distance))
  }

  /**
   The overlap test is right about every component with fitting radii exactly for
   the windows whose right and bottom edges are not negative.
   */
  lemma OverlapExact(wind: WindowRect)
    requires Int32Edges(wind)
    ensures DecidesAlways(wind) <==> EdgesOnScreen(wind)
  {
    if EdgesOnScreen(wind) {
      forall sec, distance | RadiiFit(sec) && IsTestedDistance(wind, sec, distance)
        ensures Decides(wind, sec, IsRectInWindRect(wind, sec, distance))
      {
        OverlapDecides(wind, sec, distance);
      }
    } else {
      WrappedEdgeMisjudged(wind);
      assert !Decides(wind, Tucked(wind), IsRectInWindRect(wind, Tucked(wind), 0.0));
    }
  }
}
