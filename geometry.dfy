/** Plane geometry of the scene: points, rectangles, and the cubic paths that connections draw.
    Coordinates are exact reals; the items add, subtract, multiply and divide. */
module Geometry {

  datatype Point = Point(x: real, y: real)

  const Origin: Point := Point(0.0, 0.0)

  function Add(p: Point, q: Point): Point
  {
    Point(p.x + q.x, p.y + q.y)
  }

  function Sub(p: Point, q: Point): Point
  {
    Point(p.x - q.x, p.y - q.y)
  }

  function Min(a: real, b: real): (m: real)
    ensures m <= a && m <= b && (m == a || m == b)
  {
    if a <= b then a else b
  }

  function Max(a: real, b: real): (m: real)
    ensures a <= m && b <= m && (m == a || m == b)
  {
    if a <= b then b else a
  }

  /** A rectangle stored as a top-left corner and a size, as a QRectF is. */
  datatype Rect = Rect(x: real, y: real, w: real, h: real) {

    function Right(): real { x + w }

    function Bottom(): real { y + h }

    function TopLeft(): Point { Point(x, y) }

    /** The centre lies half-way between opposite edges. */
    function Center(): (c: Point)
      ensures c.x - x == Right() - c.x
      ensures c.y - y == Bottom() - c.y
    {
      Point(x + w / 2.0, y + h / 2.0)
    }

    /** QRectF.adjusted: moves each edge by its own offset. */
    function Adjusted(dx1: real, dy1: real, dx2: real, dy2: real): (r: Rect)
      ensures r.x == x + dx1 && r.y == y + dy1
      ensures r.Right() == Right() + dx2 && r.Bottom() == Bottom() + dy2
    {
      Rect(x + dx1, y + dy1, w - dx1 + dx2, h - dy1 + dy2)
    }

    predicate Contains(p: Point)
    {
      x <= p.x <= Right() && y <= p.y <= Bottom()
    }
  }

  /** The smallest rectangle holding both points. */
  function Span(p: Point, q: Point): (r: Rect)
    ensures r.Contains(p) && r.Contains(q)
    ensures r.x == p.x || r.x == q.x
    ensures r.y == p.y || r.y == q.y
    ensures r.Right() == p.x || r.Right() == q.x
    ensures r.Bottom() == p.y || r.Bottom() == q.y
  {
    Rect(Min(p.x, q.x), Min(p.y, q.y), Max(p.x, q.x) - Min(p.x, q.x), Max(p.y, q.y) - Min(p.y, q.y))
  }

  /** Where a shape must be placed so that its centre lands on `p`, given its bounding
      rectangle `b` in its own coordinates: `p` minus half the size. The shape's centre then
      sits at `p` shifted by the corner of `b`, and exactly at `p` when `b` starts at the origin. */
  function CentredAt(p: Point, b: Rect): (topLeft: Point)
    ensures Add(topLeft, b.Center()) == Add(p, b.TopLeft())
    ensures b.TopLeft() == Origin ==> Add(topLeft, b.Center()) == p
  {
    Sub(p, Point(b.w / 2.0, b.h / 2.0))
  }

  /** The scene position of a point given in a port's coordinates, for a port at `portPos`
      inside a node at `nodePos`; items only translate. */
  function ToScene(nodePos: Point, portPos: Point, local: Point): (scene: Point)
    ensures FromScene(nodePos, portPos, scene) == local
  {
    Add(nodePos, Add(portPos, local))
  }

  /** The inverse mapping: from the scene back into a port's coordinates. */
  function FromScene(nodePos: Point, portPos: Point, scene: Point): Point
  {
    Sub(Sub(scene, nodePos), portPos)
  }

  /** Moving the node moves every point mapped through it by the same offset. */
  lemma ToSceneFollowsNode(nodePos: Point, d: Point, portPos: Point, local: Point)
    ensures ToScene(Add(nodePos, d), portPos, local) == Add(ToScene(nodePos, portPos, local), d)
  {
  }

  /** A painter path: empty, or a move to `start` followed by one cubic segment. */
  datatype Path = Empty | Cubic(start: Point, ctrl1: Point, ctrl2: Point, finish: Point)

  /** The connection curve from a plug to a socket: it leaves the plug and enters the socket
      horizontally, with the control points one third of the horizontal distance in. */
  function Curve(plug: Point, socket: Point): (p: Path)
    ensures p.Cubic? && p.start == plug && p.finish == socket
    ensures p.ctrl1.y == plug.y && p.ctrl2.y == socket.y
    ensures 3.0 * (p.ctrl1.x - plug.x) == socket.x - plug.x
    ensures 3.0 * (socket.x - p.ctrl2.x) == socket.x - plug.x
  {
    Cubic(plug,
          Point((plug.x * 2.0 + socket.x) / 3.0, plug.y),
          Point((socket.x * 2.0 + plug.x) / 3.0, socket.y),
          socket)
  }

  /** The four cubic Bernstein weights at parameter `t`. */
  function Weight0(t: real): real { (1.0 - t) * (1.0 - t) * (1.0 - t) }

  function Weight1(t: real): real { 3.0 * (1.0 - t) * (1.0 - t) * t }

  function Weight2(t: real): real { 3.0 * (1.0 - t) * t * t }

  function Weight3(t: real): real { t * t * t }

  /** Cubic Bernstein combination of four coordinates at parameter `t`. */
  function Bernstein(a: real, b: real, c: real, d: real, t: real): real
  {
    Weight0(t) * a + Weight1(t) * b + Weight2(t) * c + Weight3(t) * d
  }

  /** The point of a cubic path at parameter `t`: the start at 0, the end at 1. */
  function PointAt(p: Path, t: real): (q: Point)
    requires p.Cubic?
    ensures t == 0.0 ==> q == p.start
    ensures t == 1.0 ==> q == p.finish
  {
    Point(Bernstein(p.start.x, p.ctrl1.x, p.ctrl2.x, p.finish.x, t),
          Bernstein(p.start.y, p.ctrl1.y, p.ctrl2.y, p.finish.y, t))
  }

  /** The bounding rectangle of a path: for an empty path the null rectangle at the origin,
      otherwise the box around its points. */
  function Bounds(p: Path): (r: Rect)
    ensures p.Empty? ==> r == Rect(0.0, 0.0, 0.0, 0.0)
    ensures p.Cubic? ==>
      r.Contains(p.start) && r.Contains(p.ctrl1) && r.Contains(p.ctrl2) && r.Contains(p.finish)
    ensures p.Cubic? ==>
      (r.x == p.start.x || r.x == p.ctrl1.x || r.x == p.ctrl2.x || r.x == p.finish.x) &&
      (r.y == p.start.y || r.y == p.ctrl1.y || r.y == p.ctrl2.y || r.y == p.finish.y) &&
      (r.Right() == p.start.x || r.Right() == p.ctrl1.x || r.Right() == p.ctrl2.x || r.Right() == p.finish.x) &&
      (r.Bottom() == p.start.y || r.Bottom() == p.ctrl1.y || r.Bottom() == p.ctrl2.y || r.Bottom() == p.finish.y)
  {
    match p
    case Empty => Rect(0.0, 0.0, 0.0, 0.0)
    case Cubic(a, b, c, d) =>
      var left := Min(Min(a.x, b.x), Min(c.x, d.x));
      var top := Min(Min(a.y, b.y), Min(c.y, d.y));
      var right := Max(Max(a.x, b.x), Max(c.x, d.x));
      var bottom := Max(Max(a.y, b.y), Max(c.y, d.y));
      Rect(left, top, right - left, bottom - top)
  }

  /** The control points of a connection curve never leave the box of its two ends, so the
      curve's bounding rectangle is exactly that box. */
  lemma CurveBounds(plug: Point, socket: Point)
    ensures Bounds(Curve(plug, socket)) == Span(plug, socket)
  {
  }

  lemma MulNonNegative(a: real, b: real)
    requires 0.0 <= a && 0.0 <= b
    ensures 0.0 <= a * b
  {
  }

  lemma ScaleBetween(w: real, lo: real, v: real, hi: real)
    requires 0.0 <= w && lo <= v <= hi
    ensures w * lo <= w * v <= w * hi
  {
  }

  lemma SumAtMost(p0: real, p1: real, p2: real, p3: real, q0: real, q1: real, q2: real, q3: real)
    requires p0 <= q0 && p1 <= q1 && p2 <= q2 && p3 <= q3
    ensures p0 + p1 + p2 + p3 <= q0 + q1 + q2 + q3
  {
  }

  lemma WeightedCopies(w0: real, w1: real, w2: real, w3: real, x: real)
    requires w0 + w1 + w2 + w3 == 1.0
    ensures w0 * x + w1 * x + w2 * x + w3 * x == x
  {
    assert w3 == 1.0 - w0 - w1 - w2;
    assert w3 * x == x - w0 * x - w1 * x - w2 * x;
  }

  /** A combination with non-negative weights summing to one is at least the least of
      the values it combines. */
  lemma ConvexAtLeast(w0: real, w1: real, w2: real, w3: real, a: real, b: real, c: real, d: real, lo: real)
    requires 0.0 <= w0 && 0.0 <= w1 && 0.0 <= w2 && 0.0 <= w3 && w0 + w1 + w2 + w3 == 1.0
    requires lo <= a && lo <= b && lo <= c && lo <= d
    ensures lo <= w0 * a + w1 * b + w2 * c + w3 * d
  {
    ScaleBetween(w0, lo, a, a);
    ScaleBetween(w1, lo, b, b);
    ScaleBetween(w2, lo, c, c);
    ScaleBetween(w3, lo, d, d);
    WeightedCopies(w0, w1, w2, w3, lo);
    assert w0 * lo <= w0 * a && w1 * lo <= w1 * b && w2 * lo <= w2 * c && w3 * lo <= w3 * d;
    SumAtMost(w0 * lo, w1 * lo, w2 * lo, w3 * lo, w0 * a, w1 * b, w2 * c, w3 * d);
  }

  /** A combination with non-negative weights summing to one is at most the greatest of
      the values it combines. */
  lemma ConvexAtMost(w0: real, w1: real, w2: real, w3: real, a: real, b: real, c: real, d: real, hi: real)
    requires 0.0 <= w0 && 0.0 <= w1 && 0.0 <= w2 && 0.0 <= w3 && w0 + w1 + w2 + w3 == 1.0
    requires a <= hi && b <= hi && c <= hi && d <= hi
    ensures w0 * a + w1 * b + w2 * c + w3 * d <= hi
  {
    ScaleBetween(w0, a, a, hi);
    ScaleBetween(w1, b, b, hi);
    ScaleBetween(w2, c, c, hi);
    ScaleBetween(w3, d, d, hi);
    WeightedCopies(w0, w1, w2, w3, hi);
    assert w0 * a <= w0 * hi && w1 * b <= w1 * hi && w2 * c <= w2 * hi && w3 * d <= w3 * hi;
    SumAtMost(w0 * a, w1 * b, w2 * c, w3 * d, w0 * hi, w1 * hi, w2 * hi, w3 * hi);
  }

  /** The four cubic Bernstein weights at `t` in [0, 1] are non-negative and sum to one. */
  lemma BernsteinWeights(t: real)
    requires 0.0 <= t <= 1.0
    ensures 0.0 <= Weight0(t) && 0.0 <= Weight1(t) && 0.0 <= Weight2(t) && 0.0 <= Weight3(t)
    ensures Weight0(t) + Weight1(t) + Weight2(t) + Weight3(t) == 1.0
  {
    var s := 1.0 - t;
    MulNonNegative(s, s);
    MulNonNegative(s, t);
    MulNonNegative(s * s, s);
    MulNonNegative(s * s, t);
    MulNonNegative(s * t, t);
    MulNonNegative(t * t, t);
  }

  /** A Bernstein combination whose inner values lie between the outer two lies between
      them as well. */
  lemma {:induction false} BernsteinBetween(a: real, b: real, c: real, d: real, t: real)
    requires 0.0 <= t <= 1.0
    requires Min(a, d) <= b <= Max(a, d) && Min(a, d) <= c <= Max(a, d)
    ensures Min(a, d) <= Bernstein(a, b, c, d, t) <= Max(a, d)
  {
    BernsteinWeights(t);
    ConvexAtLeast(Weight0(t), Weight1(t), Weight2(t), Weight3(t), a, b, c, d, Min(a, d));
    ConvexAtMost(Weight0(t), Weight1(t), Weight2(t), Weight3(t), a, b, c, d, Max(a, d));
  }

  /** Every point of a connection curve lies inside the box of its two ends. */
  lemma {:induction false} CurveInsideSpan(plug: Point, socket: Point, t: real)
    requires 0.0 <= t <= 1.0
    ensures Span(plug, socket).Contains(PointAt(Curve(plug, socket), t))
  {
    var p := Curve(plug, socket);
    BernsteinBetween(plug.x, p.ctrl1.x, p.ctrl2.x, socket.x, t);
    BernsteinBetween(plug.y, p.ctrl1.y, p.ctrl2.y, socket.y, t);
  }
}
