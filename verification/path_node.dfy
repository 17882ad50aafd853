/**
 * The freehand path node: the SVG path serialiser for a stroke outline and
 * the bounding-box translation of the pressure points into the node's own
 * coordinates. The outline itself comes from a stroke library and is an input.
 */
module PathNode {
  import opened Wrappers

  /** A vertex of the stroke outline polygon. */
  datatype Vertex = Vertex(x: real, y: real)

  /** One token of SVG path data; the path string is the tokens joined by spaces. */
  datatype Token = Command(c: char) | Number(n: real)

  /** The four numbers emitted for vertex i: the vertex, then the midpoint to the next vertex (wrapping to the first). */
  function Segment(stroke: seq<Vertex>, i: nat): seq<Token>
    requires i < |stroke|
  {
    var p, q := stroke[i], stroke[(i + 1) % |stroke|];
    [Number(p.x), Number(p.y), Number((p.x + q.x) / 2.0), Number((p.y + q.y) / 2.0)]
  }

  /**
   * `getSvgPathFromStroke`: nothing for an empty outline; otherwise a move to
   * the first vertex, a quadratic-curve command, the four numbers of each
   * vertex in order, and a closing command.
   */
  method SvgPathFromStroke(stroke: seq<Vertex>) returns (d: seq<Token>)
    ensures |stroke| == 0 ==> d == []
    ensures |stroke| > 0 ==>
      && |d| == 4 * |stroke| + 5
      && d[..4] == [Command('M'), Number(stroke[0].x), Number(stroke[0].y), Command('Q')]
      && d[|d| - 1] == Command('Z')
      && forall i :: 0 <= i < |stroke| ==> d[4 + 4 * i .. 8 + 4 * i] == Segment(stroke, i)
  {
    if |stroke| == 0 {
      return [];
    }
    d := [Command('M'), Number(stroke[0].x), Number(stroke[0].y), Command('Q')];
    var i := 0;
    while i < |stroke|
      invariant 0 <= i <= |stroke|
      invariant |d| == 4 * i + 4
      invariant d[..4] == [Command('M'), Number(stroke[0].x), Number(stroke[0].y), Command('Q')]
      invariant forall k :: 0 <= k < i ==> d[4 + 4 * k .. 8 + 4 * k] == Segment(stroke, k)
    {
      var seg := Segment(stroke, i);
      var prev := d;
      d := d + seg;
      assert |prev| == 4 + 4 * i && |seg| == 4;
      assert d[|prev|..|prev| + 4] == seg;
      assert forall k :: 0 <= k < i ==> d[4 + 4 * k .. 8 + 4 * k] == prev[4 + 4 * k .. 8 + 4 * k];
      i := i + 1;
    }
    var body := d;
    d := d + [Command('Z')];
    assert forall k :: 0 <= k < |stroke| ==> d[4 + 4 * k .. 8 + 4 * k] == body[4 + 4 * k .. 8 + 4 * k];
  }

  /** The last vertex's midpoint is taken towards the first vertex. */
  lemma LastSegmentWraps(stroke: seq<Vertex>)
    requires |stroke| > 0
    ensures var last, first := stroke[|stroke| - 1], stroke[0];
      Segment(stroke, |stroke| - 1)[2..] == [Number((last.x + first.x) / 2.0), Number((last.y + first.y) / 2.0)]
  {
  }

  /** A sampled pointer position with its pressure. */
  datatype InputPoint = InputPoint(x: real, y: real, pressure: real)

  datatype PathNodeData = PathNodeData(points: Option<seq<InputPoint>>, color: Option<string>, strokeWidth: Option<real>)

  const DefaultColor: string := "#0f172a"
  const DefaultStrokeWidth: real := 4.0

  /** What the node lays out: the box of the stroke, the padding, the container size and the shifted points. */
  datatype Layout = Layout(width: real, height: real, padding: real,
                           containerWidth: real, containerHeight: real,
                           shifted: seq<InputPoint>, color: string, strokeWidth: real)

  /** `Math.min(...xs)` for a non-empty list. */
  function SeqMin(xs: seq<real>): (m: real)
    requires |xs| > 0
    ensures forall k :: 0 <= k < |xs| ==> m <= xs[k]
    ensures exists k :: 0 <= k < |xs| && m == xs[k]
  {
    if |xs| == 1 then xs[0]
    else
      var rest := SeqMin(xs[1..]);
      assert forall k :: 1 <= k < |xs| ==> xs[k] == xs[1..][k - 1];
      if xs[0] <= rest then xs[0] else rest
  }

  /** `Math.max(...xs)` for a non-empty list. */
  function SeqMax(xs: seq<real>): (m: real)
    requires |xs| > 0
    ensures forall k :: 0 <= k < |xs| ==> xs[k] <= m
    ensures exists k :: 0 <= k < |xs| && m == xs[k]
  {
    if |xs| == 1 then xs[0]
    else
      var rest := SeqMax(xs[1..]);
      assert forall k :: 1 <= k < |xs| ==> xs[k] == xs[1..][k - 1];
      if xs[0] >= rest then xs[0] else rest
  }

  function Xs(points: seq<InputPoint>): (xs: seq<real>)
    ensures |xs| == |points|
  {
    seq(|points|, k requires 0 <= k < |points| => points[k].x)
  }

  function Ys(points: seq<InputPoint>): (ys: seq<real>)
    ensures |ys| == |points|
  {
    seq(|points|, k requires 0 <= k < |points| => points[k].y)
  }

  /** Every point moved by `x - minX + padding`, `y - minY + padding`, pressure kept. */
  function Shift(points: seq<InputPoint>, minX: real, minY: real, padding: real): (r: seq<InputPoint>)
    ensures |r| == |points|
    ensures forall k :: 0 <= k < |points| ==>
      r[k] == InputPoint(points[k].x - minX + padding, points[k].y - minY + padding, points[k].pressure)
  {
    seq(|points|, k requires 0 <= k < |points| => InputPoint(points[k].x - minX + padding, points[k].y - minY + padding, points[k].pressure))
  }

  /** The PathNode render: nothing for an empty point list, else the layout of the translated stroke. */
  function PathLayout(data: PathNodeData): (r: Option<Layout>)
    ensures r.None? <==> data.points.None? || data.points.value == []
    ensures r.Some? ==> r.value.color == data.color.GetOr(DefaultColor)
    ensures r.Some? ==> r.value.strokeWidth == data.strokeWidth.GetOr(DefaultStrokeWidth)
  {
    var points := data.points.GetOr([]);
    var color := data.color.GetOr(DefaultColor);
    var strokeWidth := data.strokeWidth.GetOr(DefaultStrokeWidth);
    if |points| == 0 then None
    else Some(LayoutOf(points, color, strokeWidth))
  }

  /** The layout of a non-empty stroke: its bounding box, padded by twice the stroke width. */
  function LayoutOf(points: seq<InputPoint>, color: string, strokeWidth: real): (l: Layout)
    requires |points| > 0
    ensures l.padding == 2.0 * strokeWidth && |l.shifted| == |points|
    ensures l.containerWidth == l.width + 2.0 * l.padding && l.containerHeight == l.height + 2.0 * l.padding
    ensures l.color == color && l.strokeWidth == strokeWidth
  {
    BoxLayout(points, SeqMin(Xs(points)), SeqMin(Ys(points)), SeqMax(Xs(points)), SeqMax(Ys(points)), color, strokeWidth)
  }

  function BoxLayout(points: seq<InputPoint>, minX: real, minY: real, maxX: real, maxY: real, color: string, strokeWidth: real): Layout {
    var width, height := maxX - minX, maxY - minY;
    var padding := strokeWidth * 2.0;
    Layout(width, height, padding, width + padding * 2.0, height + padding * 2.0,
           Shift(points, minX, minY, padding), color, strokeWidth)
  }

  /**
   * The layout keeps the number, order and pressure of the points, puts each
   * shifted point inside [padding, width + padding] x [padding, height + padding],
   * and so at least `padding` inside a container of (width + 2 padding) x (height + 2 padding).
   */
  lemma LayoutBounds(data: PathNodeData)
    requires data.points.Some? && |data.points.value| > 0
    ensures PathLayout(data).Some?
    ensures var l, pts := PathLayout(data).value, data.points.value;
      && |l.shifted| == |pts|
      && l.padding == 2.0 * l.strokeWidth
      && l.containerWidth == l.width + 2.0 * l.padding && l.containerHeight == l.height + 2.0 * l.padding
      && l.width >= 0.0 && l.height >= 0.0
      && forall k :: 0 <= k < |pts| ==>
        && l.shifted[k].pressure == pts[k].pressure
        && l.shifted[k].x - pts[k].x == l.shifted[0].x - pts[0].x
        && l.shifted[k].y - pts[k].y == l.shifted[0].y - pts[0].y
        && l.padding <= l.shifted[k].x <= l.width + l.padding
        && l.padding <= l.shifted[k].y <= l.height + l.padding
        && l.shifted[k].x <= l.containerWidth - l.padding
        && l.shifted[k].y <= l.containerHeight - l.padding
  {
    var pts := data.points.value;
    var xs, ys := Xs(pts), Ys(pts);
    var l := PathLayout(data).value;
    assert l == LayoutOf(pts, l.color, l.strokeWidth);
    var minX, minY := SeqMin(xs), SeqMin(ys);
    assert l.width == SeqMax(xs) - minX && l.height == SeqMax(ys) - minY;
    assert l.shifted == Shift(pts, minX, minY, l.padding);
    assert minX <= xs[0] <= SeqMax(xs);
    assert minY <= ys[0] <= SeqMax(ys);
    forall k | 0 <= k < |pts|
      ensures l.padding <= l.shifted[k].x <= l.width + l.padding
      ensures l.padding <= l.shifted[k].y <= l.height + l.padding
    {
      assert xs[k] == pts[k].x && ys[k] == pts[k].y;
      assert minX <= xs[k] <= SeqMax(xs);
      assert minY <= ys[k] <= SeqMax(ys);
    }
  }

  /**
   * The box is tight: its width and height are exactly the spread of the
   * points, and some shifted point lies on each of the four padded edges.
   */
  lemma LayoutTight(data: PathNodeData)
    requires data.points.Some? && |data.points.value| > 0
    ensures PathLayout(data).Some?
    ensures var l, pts := PathLayout(data).value, data.points.value;
      && l.width == SeqMax(Xs(pts)) - SeqMin(Xs(pts))
      && l.height == SeqMax(Ys(pts)) - SeqMin(Ys(pts))
      && (exists k :: 0 <= k < |pts| && l.shifted[k].x == l.padding)
      && (exists k :: 0 <= k < |pts| && l.shifted[k].x == l.width + l.padding)
      && (exists k :: 0 <= k < |pts| && l.shifted[k].y == l.padding)
      && (exists k :: 0 <= k < |pts| && l.shifted[k].y == l.height + l.padding)
  {
    var pts := data.points.value;
    var color, strokeWidth := data.color.GetOr(DefaultColor), data.strokeWidth.GetOr(DefaultStrokeWidth);
    assert PathLayout(data).value == LayoutOf(pts, color, strokeWidth);
    LayoutTouchesX(pts, color, strokeWidth);
    LayoutTouchesY(pts, color, strokeWidth);
  }

  lemma LayoutTouchesX(pts: seq<InputPoint>, color: string, strokeWidth: real)
    requires |pts| > 0
    ensures var l := LayoutOf(pts, color, strokeWidth);
      && l.width == SeqMax(Xs(pts)) - SeqMin(Xs(pts))
      && (exists k :: 0 <= k < |pts| && l.shifted[k].x == l.padding)
      && (exists k :: 0 <= k < |pts| && l.shifted[k].x == l.width + l.padding)
  {
    var l := LayoutOf(pts, color, strokeWidth);
    var xs := Xs(pts);
    var a :| 0 <= a < |xs| && SeqMin(xs) == xs[a];
    var b :| 0 <= b < |xs| && SeqMax(xs) == xs[b];
    assert l.shifted[a].x == l.padding by { assert xs[a] == pts[a].x; }
    assert l.shifted[b].x == l.width + l.padding by { assert xs[b] == pts[b].x; }
  }

  lemma LayoutTouchesY(pts: seq<InputPoint>, color: string, strokeWidth: real)
    requires |pts| > 0
    ensures var l := LayoutOf(pts, color, strokeWidth);
      && l.height == SeqMax(Ys(pts)) - SeqMin(Ys(pts))
      && (exists k :: 0 <= k < |pts| && l.shifted[k].y == l.padding)
      && (exists k :: 0 <= k < |pts| && l.shifted[k].y == l.height + l.padding)
  {
    var l := LayoutOf(pts, color, strokeWidth);
    var ys := Ys(pts);
    var a :| 0 <= a < |ys| && SeqMin(ys) == ys[a];
    var b :| 0 <= b < |ys| && SeqMax(ys) == ys[b];
    assert l.shifted[a].y == l.padding by { assert ys[a] == pts[a].y; }
    assert l.shifted[b].y == l.height + l.padding by { assert ys[b] == pts[b].y; }
  }

  /** No points, nothing rendered. */
  lemma EmptyPathRendersNothing(data: PathNodeData)
    requires data.points.None? || data.points.value == []
    ensures PathLayout(data) == None
  {
  }

  /** Defaults: colour "#0f172a", stroke width 4 and so padding 8. */
  lemma PathDefaults(points: seq<InputPoint>)
    requires |points| > 0
    ensures var l := PathLayout(PathNodeData(Some(points), None, None)).value;
      l.color == "#0f172a" && l.strokeWidth == 4.0 && l.padding == 8.0
  {
  }

  function Translate(points: seq<InputPoint>, ox: real, oy: real): (r: seq<InputPoint>)
    ensures |r| == |points|
    ensures forall k :: 0 <= k < |points| ==> r[k] == InputPoint(points[k].x + ox, points[k].y + oy, points[k].pressure)
  {
    seq(|points|, k requires 0 <= k < |points| => InputPoint(points[k].x + ox, points[k].y + oy, points[k].pressure))
  }

  function Offset(xs: seq<real>, o: real): (r: seq<real>)
    ensures |r| == |xs|
  {
    seq(|xs|, k requires 0 <= k < |xs| => xs[k] + o)
  }

  /** Moving every value by `o` moves the minimum by `o`. */
  lemma {:induction false} SeqMinOffset(xs: seq<real>, o: real)
    requires |xs| > 0
    ensures SeqMin(Offset(xs, o)) == SeqMin(xs) + o
  {
    if |xs| > 1 {
      SeqMinOffset(xs[1..], o);
      assert Offset(xs, o)[1..] == Offset(xs[1..], o);
    }
  }

  /** Moving every value by `o` moves the maximum by `o`. */
  lemma {:induction false} SeqMaxOffset(xs: seq<real>, o: real)
    requires |xs| > 0
    ensures SeqMax(Offset(xs, o)) == SeqMax(xs) + o
  {
    if |xs| > 1 {
      SeqMaxOffset(xs[1..], o);
      assert Offset(xs, o)[1..] == Offset(xs[1..], o);
    }
  }

  lemma XsTranslate(points: seq<InputPoint>, ox: real, oy: real)
    ensures Xs(Translate(points, ox, oy)) == Offset(Xs(points), ox)
    ensures Ys(Translate(points, ox, oy)) == Offset(Ys(points), oy)
  {
  }

  lemma ShiftTranslate(points: seq<InputPoint>, ox: real, oy: real, minX: real, minY: real, padding: real)
    ensures Shift(Translate(points, ox, oy), minX + ox, minY + oy, padding) == Shift(points, minX, minY, padding)
  {
  }

  lemma BoxTranslate(points: seq<InputPoint>, ox: real, oy: real, minX: real, minY: real, maxX: real, maxY: real, color: string, strokeWidth: real)
    ensures BoxLayout(Translate(points, ox, oy), minX + ox, minY + oy, maxX + ox, maxY + oy, color, strokeWidth)
         == BoxLayout(points, minX, minY, maxX, maxY, color, strokeWidth)
  {
    ShiftTranslate(points, ox, oy, minX, minY, strokeWidth * 2.0);
  }

  lemma TranslateBounds(points: seq<InputPoint>, ox: real, oy: real)
    requires |points| > 0
    ensures var moved := Translate(points, ox, oy);
      && SeqMin(Xs(moved)) == SeqMin(Xs(points)) + ox && SeqMin(Ys(moved)) == SeqMin(Ys(points)) + oy
      && SeqMax(Xs(moved)) == SeqMax(Xs(points)) + ox && SeqMax(Ys(moved)) == SeqMax(Ys(points)) + oy
  {
    XsTranslate(points, ox, oy);
    SeqMinOffset(Xs(points), ox);
    SeqMinOffset(Ys(points), oy);
    SeqMaxOffset(Xs(points), ox);
    SeqMaxOffset(Ys(points), oy);
  }

  lemma LayoutOfTranslate(points: seq<InputPoint>, ox: real, oy: real, color: string, strokeWidth: real)
    requires |points| > 0
    ensures LayoutOf(Translate(points, ox, oy), color, strokeWidth) == LayoutOf(points, color, strokeWidth)
  {
    var moved := Translate(points, ox, oy);
    var minX, minY, maxX, maxY := SeqMin(Xs(points)), SeqMin(Ys(points)), SeqMax(Xs(points)), SeqMax(Ys(points));
    TranslateBounds(points, ox, oy);
    BoxTranslate(points, ox, oy, minX, minY, maxX, maxY, color, strokeWidth);
    calc {
      LayoutOf(moved, color, strokeWidth);
      BoxLayout(moved, SeqMin(Xs(moved)), SeqMin(Ys(moved)), SeqMax(Xs(moved)), SeqMax(Ys(moved)), color, strokeWidth);
      { assert SeqMin(Xs(moved)) == minX + ox && SeqMin(Ys(moved)) == minY + oy;
        assert SeqMax(Xs(moved)) == maxX + ox && SeqMax(Ys(moved)) == maxY + oy; }
      BoxLayout(moved, minX + ox, minY + oy, maxX + ox, maxY + oy, color, strokeWidth);
      BoxLayout(points, minX, minY, maxX, maxY, color, strokeWidth);
    }
  }

  /** Translating the whole stroke changes neither its layout size nor its shifted points. */
  lemma LayoutTranslationInvariant(data: PathNodeData, ox: real, oy: real)
    requires data.points.Some? && |data.points.value| > 0
    ensures PathLayout(data.(points := Some(Translate(data.points.value, ox, oy)))) == PathLayout(data)
  {
    LayoutOfTranslate(data.points.value, ox, oy, data.color.GetOr(DefaultColor), data.strokeWidth.GetOr(DefaultStrokeWidth));
  }
}
