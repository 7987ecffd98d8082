/** The points of a rounded rectangle, and the plane geometry the screen and window checks rest on. */
module RoundedRect {
  import opened Geometry

  function Times(a: real, b: real): real {
    a * b
  }

  function Square(a: real): real {
    a * a
  }

  /** Squared distance. */
  function Apart(x1: real, y1: real, x2: real, y2: real): real {
    Square(x1 - x2) + Square(y1 - y2)
  }

  /** `root` is what the square root of `a` would be. */
  predicate IsRoot(root: real, a: real) {
    root >= 0.0 && Square(root) == a
  }

  /** Not farther than `bound`. */
  predicate Within(x: real, y: real, ox: real, oy: real, bound: real) {
    bound >= 0.0 && Apart(x, y, ox, oy) <= Square(bound)
  }

  /**
   `u` and `v` are how far a point lies inside the two sides that meet in a corner
   of radius `r`: the corner is cut off outside the disc that touches both sides.
   */
  predicate NotCut(u: real, v: real, r: real) {
    u >= r || v >= r || Square(u - r) + Square(v - r) <= Square(r)
  }

  predicate InPlain(rect: Rect, x: real, y: real) {
    rect.x <= x <= rect.x + rect.width && rect.y <= y <= rect.y + rect.height
  }

  predicate InRounded(rect: Rect, x: real, y: real) {
    var (l, t) := (x - rect.x, y - rect.y);
    var (r, b) := (rect.width - l, rect.height - t);
    && InPlain(rect, x, y)
    && NotCut(l, t, rect.radius.leftTop) && NotCut(r, t, rect.radius.rightTop)
    && NotCut(l, b, rect.radius.leftBottom) && NotCut(r, b, rect.radius.rightBottom)
  }

  predicate Fits(r: real, rect: Rect) {
    0.0 <= r && 2.0 * r <= rect.width && 2.0 * r <= rect.height
  }

  /** Every corner radius is at most half the shorter side. */
  predicate RadiiFit(rect: Rect) {
    && Fits(rect.radius.leftTop, rect) && Fits(rect.radius.rightTop, rect)
    && Fits(rect.radius.leftBottom, rect) && Fits(rect.radius.rightBottom, rect)
  }

  // Distances

  lemma TimesPositive(a: real, b: real)
    requires 0.0 < a && 0.0 < b
    ensures 0.0 < Times(a, b)
  {
  }

  lemma TimesNonNegative(a: real, b: real)
    requires 0.0 <= a && 0.0 <= b
    ensures 0.0 <= Times(a, b)
  {
  }

  lemma SquareNonNegative(a: real)
    ensures 0.0 <= Square(a) && (Square(a) == 0.0 ==> a == 0.0)
  {
    if a > 0.0 {
      TimesPositive(a, a);
    } else if a < 0.0 {
      TimesPositive(-a, -a);
      assert Times(-a, -a) == Square(a);
    }
  }

  lemma SquareGrows(a: real, b: real)
    requires 0.0 <= a <= b
    ensures Square(a) <= Square(b)
  {
  }

  lemma SquareShrinks(a: real, b: real)
    requires 0.0 <= b && Square(a) <= Square(b)
    ensures a <= b
  {
    if a > b {
      assert Square(a) - Square(b) == Times(a - b, a + b);
      TimesPositive(a - b, a + b);
    }
  }

  lemma TimesOfOpposite(a: real, b: real)
    ensures Times(-a, b) == -Times(a, b)
  {
  }

  lemma SquareOfOpposite(a: real)
    ensures Square(-a) == Square(a)
  {
  }

  lemma SquareOfTimes(r: real, d: real)
    ensures Square(Times(r, d)) == Times(Square(r), Square(d))
  {
  }

  lemma TimesGrows(p: real, q: real, r: real, s: real)
    requires p <= r && 0.0 <= q <= s && 0.0 <= r
    ensures Times(p, q) <= Times(r, s)
  {
  }

  lemma Lagrange(a: real, b: real, c: real, e: real)
    ensures Square(Times(a, c) + Times(b, e)) + Square(Times(a, e) - Times(b, c))
            == Times(Square(a) + Square(b), Square(c) + Square(e))
  {
  }

  lemma CauchySchwarz(a: real, b: real, c: real, e: real, r: real, d: real)
    requires 0.0 <= r && 0.0 <= d
    requires Square(a) + Square(b) <= Square(r) && Square(c) + Square(e) <= Square(d)
    ensures Times(a, c) + Times(b, e) <= Times(r, d)
  {
    Lagrange(a, b, c, e);
    SquareNonNegative(Times(a, e) - Times(b, c));
    SquareNonNegative(c);
    SquareNonNegative(e);
    SquareNonNegative(r);
    TimesGrows(Square(a) + Square(b), Square(c) + Square(e), Square(r), Square(d));
    SquareOfTimes(r, d);
    TimesNonNegative(r, d);
    SquareShrinks(Times(a, c) + Times(b, e), Times(r, d));
  }

  lemma SquareOfSum(a: real, b: real)
    ensures Square(a + b) == Square(a) + 2.0 * Times(a, b) + Square(b)
  {
  }

  /** The triangle inequality through a centre `c`, with the distance from there to the origin given as a root. */
  lemma Triangle(x: real, y: real, cx: real, cy: real, r: real, ox: real, oy: real, d: real, bound: real)
    requires Within(x, y, cx, cy, r) && IsRoot(d, Apart(cx, cy, ox, oy)) && r + d <= bound
    ensures Within(x, y, ox, oy, bound)
  {
    var (a, b, c, e) := (x - cx, y - cy, cx - ox, cy - oy);
    CauchySchwarz(a, b, c, e, r, d);
    assert a + c == x - ox && b + e == y - oy;
    SquareOfSum(a, c);
    SquareOfSum(b, e);
    SquareOfSum(r, d);
    SquareGrows(r + d, bound);
  }

  /** The point of a disc farthest from an origin is as far as centre and radius together. */
  lemma FarPoint(cx: real, cy: real, r: real, ox: real, oy: real, d: real) returns (x: real, y: real)
    requires 0.0 <= r && IsRoot(d, Apart(cx, cy, ox, oy))
    ensures Within(x, y, cx, cy, r) && Apart(x, y, ox, oy) == Square(d + r)
  {
    var (c, e) := (cx - ox, cy - oy);
    if d == 0.0 {
      SquareNonNegative(c);
      SquareNonNegative(e);
      assert c == 0.0 && e == 0.0;
      x, y := cx + r, cy;
    } else {
      var k := r / d;
      x, y := cx + Times(k, c), cy + Times(k, e);
      assert Times(k, d) == r && Times(1.0 + k, d) == d + r;
      assert x - ox == Times(1.0 + k, c) && y - oy == Times(1.0 + k, e);
      ScaledLength(k, c, e, d);
      ScaledLength(1.0 + k, c, e, d);
    }
  }

  lemma ScaledLength(k: real, c: real, e: real, d: real)
    requires Square(c) + Square(e) == Square(d)
    ensures Square(Times(k, c)) + Square(Times(k, e)) == Square(Times(k, d))
  {
  }

  /** Between two points at the same height, one is at least as far from any origin. */
  lemma BetweenOnRow(xl: real, x: real, xr: real, y: real, ox: real, oy: real, bound: real)
    requires xl <= x <= xr && Within(xl, y, ox, oy, bound) && Within(xr, y, ox, oy, bound)
    ensures Within(x, y, ox, oy, bound)
  {
  }

  lemma BetweenOnColumn(x: real, yl: real, y: real, yr: real, ox: real, oy: real, bound: real)
    requires yl <= y <= yr && Within(x, yl, ox, oy, bound) && Within(x, yr, ox, oy, bound)
    ensures Within(x, y, ox, oy, bound)
  {
  }

  // A corner's disc lies inside the rounded rectangle

  function Cut(x: real, y: real, t: real): real {
    Square(x - t) + Square(y - t) - Square(t)
  }

  lemma CutChord(x: real, y: real, lo: real, t: real, hi: real)
    ensures Times(Cut(x, y, lo), hi - t) + Times(Cut(x, y, hi), t - lo) - Times(Cut(x, y, t), hi - lo)
         == Times(Times(hi - lo, hi - t), t - lo)
  {
  }

  /** `Cut` is a convex function of the radius. */
  lemma CutConvex(x: real, y: real, lo: real, t: real, hi: real)
    requires lo <= t <= hi && Cut(x, y, lo) <= 0.0 && Cut(x, y, hi) <= 0.0
    ensures Cut(x, y, t) <= 0.0
  {
    if lo < t < hi && Cut(x, y, t) > 0.0 {
      var (f, g, h) := (Cut(x, y, lo), Cut(x, y, t), Cut(x, y, hi));
      CutChord(x, y, lo, t, hi);
      TimesNonNegative(hi - lo, hi - t);
      TimesNonNegative(Times(hi - lo, hi - t), t - lo);
      TimesNonNegative(-f, hi - t);
      TimesNonNegative(-h, t - lo);
      TimesOfOpposite(f, hi - t);
      TimesOfOpposite(h, t - lo);
      TimesPositive(g, hi - lo);
    }
  }

  lemma CutAtSide(m: real, n: real)
    requires 0.0 <= n <= m
    ensures Cut(m, n, m) <= 0.0
  {
  }

  /** A smaller corner cuts less. */
  lemma SmallerCornerCutsLess(u: real, v: real, a: real, b: real)
    requires 0.0 <= u && 0.0 <= v && b <= a && NotCut(u, v, a)
    ensures NotCut(u, v, b)
  {
  }

  /** Points of one corner's disc, seen from the corner at the other end of the same side. */
  lemma NeighbourCutsNothing(u: real, v: real, a: real, w: real, b: real)
    requires Square(u - a) + Square(v - a) <= Square(a) && 0.0 <= u <= 2.0 * a && 0.0 <= v
    requires 2.0 * a <= w && 2.0 * b <= w
    ensures NotCut(w - u, v, b)
  {
    var u' := 2.0 * a - u;
    if b <= a {
      assert Square(u' - a) == Square(u - a);
      SmallerCornerCutsLess(u', v, a, b);
      if w - u < b && v < b {
        SquareGrows(b - (w - u), b - u');
        assert Square(w - u - b) == Square(b - (w - u)) && Square(u' - b) == Square(b - u');
      }
    } else if w - u < b && v < b {
      CutAtSide(u, v);
      CutConvex(u, v, a, b, u);
      SquareGrows(b - (w - u), u - b);
      assert Square(w - u - b) == Square(b - (w - u));
    }
  }

  lemma OppositeSmaller(u: real, v: real, a: real, p: real, q: real, b: real)
    requires Square(u - a) + Square(v - a) <= Square(a) && u <= 2.0 * a && v <= 2.0 * a && b <= a
    requires 0.0 < p <= b - (2.0 * a - u) && 0.0 < q <= b - (2.0 * a - v)
    ensures Square(p) + Square(q) <= Square(b)
  {
    var (u', v') := (2.0 * a - u, 2.0 * a - v);
    SquareOfOpposite(u - a);
    SquareOfOpposite(v - a);
    assert u' - a == -(u - a) && v' - a == -(v - a);
    SmallerCornerCutsLess(u', v', a, b);
    SquareGrows(p, b - u');
    SquareGrows(q, b - v');
    SquareOfOpposite(b - u');
    SquareOfOpposite(b - v');
  }

  lemma OppositeLarger(u: real, v: real, a: real, p: real, q: real, b: real)
    requires Square(u - a) + Square(v - a) <= Square(a) && 0.0 <= a < b
    requires 0.0 < p <= u - a && 0.0 < q <= v - a
    ensures Square(p) + Square(q) <= Square(b)
  {
    SquareGrows(p, u - a);
    SquareGrows(q, v - a);
    SquareGrows(a, b);
  }

  /** The same from the corner opposite. */
  lemma OppositeCutsNothing(u: real, v: real, a: real, w: real, h: real, b: real)
    requires Square(u - a) + Square(v - a) <= Square(a) && 0.0 <= u <= 2.0 * a && 0.0 <= v <= 2.0 * a
    requires 2.0 * a <= w && 2.0 * b <= w && 2.0 * a <= h && 2.0 * b <= h
    ensures NotCut(w - u, h - v, b)
  {
    var (p, q) := (b - (w - u), b - (h - v));
    if 0.0 < p && 0.0 < q {
      if b <= a {
        OppositeSmaller(u, v, a, p, q, b);
      } else {
        OppositeLarger(u, v, a, p, q, b);
      }
      SquareOfOpposite(p);
      SquareOfOpposite(q);
      assert w - u - b == -p && h - v - b == -q;
    }
  }

  lemma DiscBounds(u: real, v: real, a: real)
    requires 0.0 <= a && Square(u - a) + Square(v - a) <= Square(a)
    ensures 0.0 <= u <= 2.0 * a && 0.0 <= v <= 2.0 * a
  {
    SquareNonNegative(u - a);
    SquareNonNegative(v - a);
    SquareShrinks(u - a, a);
    SquareShrinks(v - a, a);
    SquareOfOpposite(u - a);
    SquareOfOpposite(v - a);
    assert a - u == -(u - a) && a - v == -(v - a);
    SquareShrinks(a - u, a);
    SquareShrinks(a - v, a);
  }

  /** A corner's disc is cut by none of the four corners; `b`, `c` and `e` are the neighbours and the opposite one. */
  lemma DiscInside(u: real, v: real, w: real, h: real, a: real, b: real, c: real, e: real)
    requires 0.0 <= a && Square(u - a) + Square(v - a) <= Square(a)
    requires 2.0 * a <= w && 2.0 * b <= w && 2.0 * c <= w && 2.0 * e <= w
    requires 2.0 * a <= h && 2.0 * b <= h && 2.0 * c <= h && 2.0 * e <= h
    ensures 0.0 <= u <= w && 0.0 <= v <= h
    ensures NotCut(u, v, a) && NotCut(w - u, v, b) && NotCut(u, h - v, c) && NotCut(w - u, h - v, e)
  {
    DiscBounds(u, v, a);
    NeighbourCutsNothing(u, v, a, w, b);
    NeighbourCutsNothing(v, u, a, h, c);
    OppositeCutsNothing(u, v, a, w, h, e);
  }

  datatype Corner = LeftTop | RightTop | LeftBottom | RightBottom

  function RadiusAt(rect: Rect, k: Corner): real {
    match k
    case LeftTop => rect.radius.leftTop
    case RightTop => rect.radius.rightTop
    case LeftBottom => rect.radius.leftBottom
    case RightBottom => rect.radius.rightBottom
  }

  function CentreX(rect: Rect, k: Corner): real {
    if k.LeftTop? || k.LeftBottom? then rect.x + RadiusAt(rect, k) else rect.x + rect.width - RadiusAt(rect, k)
  }

  function CentreY(rect: Rect, k: Corner): real {
    if k.LeftTop? || k.RightTop? then rect.y + RadiusAt(rect, k) else rect.y + rect.height - RadiusAt(rect, k)
  }

  /** How far a point lies inside the two sides that meet in a corner. */
  function DepthX(rect: Rect, k: Corner, x: real): real {
    if k.LeftTop? || k.LeftBottom? then x - rect.x else rect.x + rect.width - x
  }

  function DepthY(rect: Rect, k: Corner, y: real): real {
    if k.LeftTop? || k.RightTop? then y - rect.y else rect.y + rect.height - y
  }

  function Across(k: Corner): Corner {
    match k
    case LeftTop => RightTop
    case RightTop => LeftTop
    case LeftBottom => RightBottom
    case RightBottom => LeftBottom
  }

  function Down(k: Corner): Corner {
    match k
    case LeftTop => LeftBottom
    case RightTop => RightBottom
    case LeftBottom => LeftTop
    case RightBottom => RightTop
  }

  /** Being in the rounded rectangle, said from any one corner. */
  lemma SeenFromCorner(rect: Rect, k: Corner, x: real, y: real)
    ensures var (u, v) := (DepthX(rect, k, x), DepthY(rect, k, y));
            var (w, h) := (rect.width, rect.height);
            InRounded(rect, x, y) <==>
              && 0.0 <= u <= w && 0.0 <= v <= h
              && NotCut(u, v, RadiusAt(rect, k)) && NotCut(w - u, v, RadiusAt(rect, Across(k)))
              && NotCut(u, h - v, RadiusAt(rect, Down(k))) && NotCut(w - u, h - v, RadiusAt(rect, Down(Across(k))))
  {
  }

  lemma DepthOfCentre(rect: Rect, k: Corner, x: real, y: real)
    ensures Apart(x, y, CentreX(rect, k), CentreY(rect, k))
         == Square(DepthX(rect, k, x) - RadiusAt(rect, k)) + Square(DepthY(rect, k, y) - RadiusAt(rect, k))
  {
  }

  lemma RadiusFits(rect: Rect, k: Corner)
    requires RadiiFit(rect)
    ensures 0.0 <= RadiusAt(rect, k) && 2.0 * RadiusAt(rect, k) <= rect.width && 2.0 * RadiusAt(rect, k) <= rect.height
  {
  }

  lemma DiscSeenFromCorner(rect: Rect, k: Corner, u: real, v: real)
    requires RadiiFit(rect)
    requires Square(u - RadiusAt(rect, k)) + Square(v - RadiusAt(rect, k)) <= Square(RadiusAt(rect, k))
    ensures var (w, h) := (rect.width, rect.height);
            && 0.0 <= u <= w && 0.0 <= v <= h
            && NotCut(u, v, RadiusAt(rect, k)) && NotCut(w - u, v, RadiusAt(rect, Across(k)))
            && NotCut(u, h - v, RadiusAt(rect, Down(k))) && NotCut(w - u, h - v, RadiusAt(rect, Down(Across(k))))
  {
    RadiusFits(rect, k);
    RadiusFits(rect, Across(k));
    RadiusFits(rect, Down(k));
    RadiusFits(rect, Down(Across(k)));
    DiscInside(u, v, rect.width, rect.height,
               RadiusAt(rect, k), RadiusAt(rect, Across(k)), RadiusAt(rect, Down(k)), RadiusAt(rect, Down(Across(k))));
  }

  lemma CornerDiscInside(rect: Rect, k: Corner, x: real, y: real)
    requires RadiiFit(rect) && Within(x, y, CentreX(rect, k), CentreY(rect, k), RadiusAt(rect, k))
    ensures InRounded(rect, x, y)
  {
    DepthOfCentre(rect, k, x, y);
    DiscSeenFromCorner(rect, k, DepthX(rect, k, x), DepthY(rect, k, y));
    SeenFromCorner(rect, k, x, y);
  }
}
