/**
 * Floating-edge attachment: a ray from one node's centre towards the other
 * node's centre, cut where it leaves the first node's bounding box, together
 * with the side of the box the cut lies on.
 */
module EdgeGeometry {
  import opened Wrappers

  datatype Side = Top | Bottom | Left | Right

  datatype Point = Point(x: real, y: real)

  /** What the router reads of an internal node: its absolute position and its measured size (absent before measurement). */
  datatype NodeBox = NodeBox(position: Point, measuredWidth: Option<real>, measuredHeight: Option<real>)

  /** A boundary point and the side it lies on. */
  datatype Attachment = Attachment(point: Point, side: Side)

  /** The parameters an edge path is drawn from. */
  datatype EdgeParams = EdgeParams(sx: real, sy: real, tx: real, ty: real, sourcePos: Side, targetPos: Side)

  /** A JavaScript quotient of a positive number: finite, or `Infinity` when the divisor is zero. */
  datatype Extended = Finite(v: real) | Infinite

  function Abs(r: real): real { if r < 0.0 then -r else r }

  /** A node whose measured width and height are both positive. */
  predicate HasSize(n: NodeBox) {
    n.measuredWidth.GetOr(0.0) > 0.0 && n.measuredHeight.GetOr(0.0) > 0.0
  }

  /** `(node.measured.width || 0) / 2` */
  function HalfWidth(n: NodeBox): real { n.measuredWidth.GetOr(0.0) / 2.0 }

  /** `(node.measured.height || 0) / 2` */
  function HalfHeight(n: NodeBox): real { n.measuredHeight.GetOr(0.0) / 2.0 }

  /** The centre of a node's box: its absolute position plus the half-extents. */
  function Center(n: NodeBox): Point {
    Point(n.position.x + HalfWidth(n), n.position.y + HalfHeight(n))
  }

  /** `Math.abs(num / den)` for a positive numerator, written `num / |den|`. */
  function AbsQuotient(num: real, den: real): (q: Extended)
    requires num > 0.0
    ensures q.Infinite? <==> den == 0.0
    ensures q.Finite? ==> q.v > 0.0 && q.v * Abs(den) == num
  {
    if den == 0.0 then Infinite else Finite(num / Abs(den))
  }

  /** `a < b` on extended values. */
  predicate Less(a: Extended, b: Extended) {
    match (a, b)
    case (Finite(x), Finite(y)) => x < y
    case (Finite(_), Infinite) => true
    case (Infinite, _) => false
  }

  /** `Less` is a strict total order, with `Infinity` above every finite value. */
  lemma LessIsStrictTotal(a: Extended, b: Extended, c: Extended)
    ensures Less(a, b) ==> a.Finite? && !Less(b, a)
    ensures !Less(a, b) && !Less(b, a) ==> a == b
    ensures Less(a, b) && Less(b, c) ==> Less(a, c)
    ensures a.Finite? && b.Infinite? ==> Less(a, b)
  {
  }

  /** `Math.min(a, b)` */
  function Min(a: Extended, b: Extended): (m: Extended)
    ensures m == a || m == b
    ensures !Less(a, m) && !Less(b, m)
  {
    if Less(b, a) then b else a
  }

  /**
   * The exit of the ray with direction (dx, dy) from the centre of a box with
   * half-extents w and h, as an offset from the centre, with its side.
   */
  function Exit(w: real, h: real, dx: real, dy: real): (e: Attachment)
    requires w > 0.0 && h > 0.0 && (dx != 0.0 || dy != 0.0)
    ensures OnRay(dx, dy, e.point)
  {
    var ratioX := AbsQuotient(w, dx);
    var ratioY := AbsQuotient(h, dy);
    var ratio := Min(ratioX, ratioY).v;
    var side :=
      if Less(ratioX, ratioY) then (if dx > 0.0 then Right else Left)
      else (if dy > 0.0 then Bottom else Top);
    ScaledOnRay(dx, dy, ratio);
    Attachment(Point(dx * ratio, dy * ratio), side)
  }

  /** The offset `o` lies on the open ray from the origin in direction (dx, dy): collinear with it and pointing the same way. */
  ghost predicate OnRay(dx: real, dy: real, o: Point) {
    o.x * dy == o.y * dx && o.x * dx + o.y * dy > 0.0
  }

  /** A positive multiple of a non-zero direction lies on its ray. */
  lemma ScaledOnRay(dx: real, dy: real, r: real)
    requires r > 0.0 && (dx != 0.0 || dy != 0.0)
    ensures OnRay(dx, dy, Point(dx * r, dy * r))
  {
    var n := dx * dx + dy * dy;
    assert dx * dx >= 0.0 && dy * dy >= 0.0;
    if dx != 0.0 {
      assert dx * dx > 0.0;
    } else {
      assert dy * dy > 0.0;
    }
    assert n > 0.0;
    assert (dx * r) * dx + (dy * r) * dy == r * n;
    assert r * n > 0.0;
    assert (dx * r) * dy == (dy * r) * dx;
  }

  /**
   * `getIntersectionAndPosition(node, targetNode)`: where the ray from the
   * centre of `node` to the centre of `target` leaves `node`'s box, and on
   * which side.
   */
  function Intersection(node: NodeBox, target: NodeBox): (a: Attachment)
    requires HasSize(node)
    ensures var c, t := Center(node), Center(target);
      c != t ==> OnRay(t.x - c.x, t.y - c.y, Point(a.point.x - c.x, a.point.y - c.y))
  {
    var c := Center(node);
    var t := Center(target);
    var dx := t.x - c.x;
    var dy := t.y - c.y;
    if dx == 0.0 && dy == 0.0 then
      assert c == t;
      Attachment(c, Top)
    else
      var e := Exit(HalfWidth(node), HalfHeight(node), dx, dy);
      assert Point((c.x + e.point.x) - c.x, (c.y + e.point.y) - c.y) == e.point;
      Attachment(Point(c.x + e.point.x, c.y + e.point.y), e.side)
  }

  /** `getEdgeParams(source, target)`: the routine applied in both directions. */
  function GetEdgeParams(source: NodeBox, target: NodeBox): (p: EdgeParams)
    requires HasSize(source) && HasSize(target)
    ensures Center(source) == Center(target) ==>
      Point(p.sx, p.sy) == Center(source) && Point(p.tx, p.ty) == Center(target) && p.sourcePos == Top && p.targetPos == Top
    ensures var cs, ct := Center(source), Center(target);
      cs != ct ==>
        && OnBoundary(HalfWidth(source), HalfHeight(source), Point(p.sx - cs.x, p.sy - cs.y))
        && SideAgrees(HalfWidth(source), HalfHeight(source), Attachment(Point(p.sx - cs.x, p.sy - cs.y), p.sourcePos))
        && OnBoundary(HalfWidth(target), HalfHeight(target), Point(p.tx - ct.x, p.ty - ct.y))
        && SideAgrees(HalfWidth(target), HalfHeight(target), Attachment(Point(p.tx - ct.x, p.ty - ct.y), p.targetPos))
  {
    if Center(source) != Center(target) then
      IntersectionOnBoundary(source, target);
      IntersectionOnBoundary(target, source);
      EdgeEnds(source, target)
    else
      EdgeEnds(source, target)
  }

  /** The two ends: the routine applied in both directions. */
  function EdgeEnds(source: NodeBox, target: NodeBox): EdgeParams
    requires HasSize(source) && HasSize(target)
  {
    var s := Intersection(source, target);
    var t := Intersection(target, source);
    EdgeParams(s.point.x, s.point.y, t.point.x, t.point.y, s.side, t.side)
  }

  /** The offset lies on the boundary of the box with half-extents w and h centred at the origin. */
  ghost predicate OnBoundary(w: real, h: real, o: Point) {
    (Abs(o.x) == w && Abs(o.y) <= h) || (Abs(o.y) == h && Abs(o.x) <= w)
  }

  /** The side named agrees with the offset: it lies on that side's line. */
  ghost predicate SideAgrees(w: real, h: real, a: Attachment) {
    match a.side
    case Right => a.point.x == w
    case Left => a.point.x == -w
    case Bottom => a.point.y == h
    case Top => a.point.y == -h
  }

  /** Offsetting by `d * r`, where `r * |d| == w`, moves exactly `w` in the direction of `d`. */
  lemma ScaledStep(d: real, r: real, w: real)
    requires r >= 0.0 && r * Abs(d) == w
    ensures d > 0.0 ==> d * r == w
    ensures d < 0.0 ==> d * r == -w
    ensures Abs(d * r) == w
  {
    if d < 0.0 {
      assert d * r == -(r * Abs(d));
    } else {
      assert d * r == r * Abs(d);
    }
  }

  /** Offsetting by `d * r`, where `r <= q` and `q * |d| == h`, moves at most `h`. */
  lemma ScaledWithin(d: real, r: real, q: real, h: real)
    requires 0.0 <= r <= q && q * Abs(d) == h
    ensures Abs(d * r) <= h
  {
    assert Abs(d * r) == r * Abs(d);
    assert r * Abs(d) <= q * Abs(d);
  }

  /** Leaving through a vertical side: the step `r` reaches `w` along x first. */
  lemma VerticalExit(w: real, h: real, dx: real, dy: real, r: real, ratioY: Extended)
    requires w > 0.0 && h > 0.0 && r >= 0.0 && r * Abs(dx) == w
    requires ratioY.Finite? ==> r <= ratioY.v && ratioY.v * Abs(dy) == h
    requires ratioY.Infinite? ==> dy == 0.0
    ensures OnBoundary(w, h, Point(dx * r, dy * r))
    ensures SideAgrees(w, h, Attachment(Point(dx * r, dy * r), if dx > 0.0 then Right else Left))
  {
    ScaledStep(dx, r, w);
    if ratioY.Finite? {
      ScaledWithin(dy, r, ratioY.v, h);
    } else {
      assert dy * r == 0.0;
    }
  }

  /** Leaving through a horizontal side: the step `r` reaches `h` along y no later than `w` along x. */
  lemma HorizontalExit(w: real, h: real, dx: real, dy: real, r: real, ratioX: Extended)
    requires w > 0.0 && h > 0.0 && r >= 0.0 && r * Abs(dy) == h
    requires ratioX.Finite? ==> r <= ratioX.v && ratioX.v * Abs(dx) == w
    requires ratioX.Infinite? ==> dx == 0.0
    ensures OnBoundary(w, h, Point(dx * r, dy * r))
    ensures SideAgrees(w, h, Attachment(Point(dx * r, dy * r), if dy > 0.0 then Bottom else Top))
  {
    ScaledStep(dy, r, h);
    if ratioX.Finite? {
      ScaledWithin(dx, r, ratioX.v, w);
    } else {
      assert dx * r == 0.0;
    }
  }

  /** When x's ratio is the smaller, the exit is on the Left or Right side. */
  lemma ExitThroughVerticalSide(w: real, h: real, dx: real, dy: real)
    requires w > 0.0 && h > 0.0 && (dx != 0.0 || dy != 0.0)
    requires Less(AbsQuotient(w, dx), AbsQuotient(h, dy))
    ensures OnBoundary(w, h, Exit(w, h, dx, dy).point)
    ensures SideAgrees(w, h, Exit(w, h, dx, dy))
  {
    var ratioX, ratioY := AbsQuotient(w, dx), AbsQuotient(h, dy);
    assert ratioX.Finite? && (ratioY.Finite? ==> ratioX.v < ratioY.v);
    var r := ratioX.v;
    assert Exit(w, h, dx, dy).point == Point(dx * r, dy * r);
    VerticalExit(w, h, dx, dy, r, ratioY);
  }

  /** Otherwise (corner ties included) the exit is on the Top or Bottom side. */
  lemma ExitThroughHorizontalSide(w: real, h: real, dx: real, dy: real)
    requires w > 0.0 && h > 0.0 && (dx != 0.0 || dy != 0.0)
    requires !Less(AbsQuotient(w, dx), AbsQuotient(h, dy))
    ensures OnBoundary(w, h, Exit(w, h, dx, dy).point)
    ensures SideAgrees(w, h, Exit(w, h, dx, dy))
  {
    var ratioX, ratioY := AbsQuotient(w, dx), AbsQuotient(h, dy);
    assert ratioY.Finite? && (ratioX.Finite? ==> ratioY.v <= ratioX.v);
    var r := ratioY.v;
    assert Exit(w, h, dx, dy).point == Point(dx * r, dy * r);
    HorizontalExit(w, h, dx, dy, r, ratioX);
  }

  /** The exit point lies on the boundary, on the side reported. */
  lemma ExitOnBoundary(w: real, h: real, dx: real, dy: real)
    requires w > 0.0 && h > 0.0 && (dx != 0.0 || dy != 0.0)
    ensures OnBoundary(w, h, Exit(w, h, dx, dy).point)
    ensures SideAgrees(w, h, Exit(w, h, dx, dy))
  {
    if Less(AbsQuotient(w, dx), AbsQuotient(h, dy)) {
      ExitThroughVerticalSide(w, h, dx, dy);
    } else {
      ExitThroughHorizontalSide(w, h, dx, dy);
    }
  }

  /** When the centres coincide the result is the source centre on the Top side. */
  lemma CoincidentCenters(node: NodeBox, target: NodeBox)
    requires HasSize(node) && Center(node) == Center(target)
    ensures Intersection(node, target) == Attachment(Center(node), Top)
  {
  }

  /**
   * For distinct centres, the intersection lies on the boundary of the node's
   * box, and the side it reports is the side the point lies on.
   */
  lemma IntersectionOnBoundary(node: NodeBox, target: NodeBox)
    requires HasSize(node) && Center(node) != Center(target)
    ensures var a, c := Intersection(node, target), Center(node);
      OnBoundary(HalfWidth(node), HalfHeight(node), Point(a.point.x - c.x, a.point.y - c.y))
      && SideAgrees(HalfWidth(node), HalfHeight(node), Attachment(Point(a.point.x - c.x, a.point.y - c.y), a.side))
  {
    var c, t := Center(node), Center(target);
    var e := Exit(HalfWidth(node), HalfHeight(node), t.x - c.x, t.y - c.y);
    ExitOnBoundary(HalfWidth(node), HalfHeight(node), t.x - c.x, t.y - c.y);
    assert Point((c.x + e.point.x) - c.x, (c.y + e.point.y) - c.y) == e.point;
  }

  /** The opposite side. */
  function Opposite(s: Side): Side {
    match s
    case Top => Bottom
    case Bottom => Top
    case Left => Right
    case Right => Left
  }

  /** Swapping source and target swaps the two ends of the edge parameters. */
  lemma SwapEnds(a: NodeBox, b: NodeBox)
    requires HasSize(a) && HasSize(b)
    ensures var p, q := GetEdgeParams(a, b), GetEdgeParams(b, a);
      q == EdgeParams(p.tx, p.ty, p.sx, p.sy, p.targetPos, p.sourcePos)
  {
  }

  /** Reversing the direction of the ray reverses the side it leaves by. */
  lemma ExitReversed(w: real, h: real, dx: real, dy: real)
    requires w > 0.0 && h > 0.0 && (dx != 0.0 || dy != 0.0)
    ensures Exit(w, h, -dx, -dy).side == Opposite(Exit(w, h, dx, dy).side)
  {
    assert Abs(-dx) == Abs(dx) && Abs(-dy) == Abs(dy);
    assert AbsQuotient(w, -dx) == AbsQuotient(w, dx);
    assert AbsQuotient(h, -dy) == AbsQuotient(h, dy);
  }

  /** For boxes of equal size with distinct centres, the target side is the opposite of the source side. */
  lemma EqualSizesOppositeSides(a: NodeBox, b: NodeBox)
    requires HasSize(a) && HasSize(b)
    requires HalfWidth(a) == HalfWidth(b) && HalfHeight(a) == HalfHeight(b)
    requires Center(a) != Center(b)
    ensures GetEdgeParams(a, b).targetPos == Opposite(GetEdgeParams(a, b).sourcePos)
  {
    var ca, cb := Center(a), Center(b);
    var dx, dy := cb.x - ca.x, cb.y - ca.y;
    ExitReversed(HalfWidth(a), HalfHeight(a), dx, dy);
    assert ca.x - cb.x == -dx && ca.y - cb.y == -dy;
  }

  /** Two 100x100 boxes side by side at (0,0) and (300,0) attach at (100,50) Right and (300,50) Left. */
  lemma SideBySideExample()
    ensures var a := NodeBox(Point(0.0, 0.0), Some(100.0), Some(100.0));
      var b := NodeBox(Point(300.0, 0.0), Some(100.0), Some(100.0));
      GetEdgeParams(a, b) == EdgeParams(100.0, 50.0, 300.0, 50.0, Right, Left)
  {
    var a := NodeBox(Point(0.0, 0.0), Some(100.0), Some(100.0));
    var b := NodeBox(Point(300.0, 0.0), Some(100.0), Some(100.0));
    assert AbsQuotient(50.0, 300.0) == Finite(1.0 / 6.0);
    assert AbsQuotient(50.0, -300.0) == Finite(1.0 / 6.0);
    assert Exit(50.0, 50.0, 300.0, 0.0) == Attachment(Point(50.0, 0.0), Right);
    assert Exit(50.0, 50.0, -300.0, 0.0) == Attachment(Point(-50.0, 0.0), Left);
    assert Center(a) == Point(50.0, 50.0) && Center(b) == Point(350.0, 50.0);
    assert Intersection(a, b) == Attachment(Point(100.0, 50.0), Right);
    assert Intersection(b, a) == Attachment(Point(300.0, 50.0), Left);
    assert EdgeEnds(a, b) == EdgeParams(100.0, 50.0, 300.0, 50.0, Right, Left);
  }
}
