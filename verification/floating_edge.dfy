/**
 * The floating edge: an edge that is drawn between the borders of its two
 * nodes, wherever they are, rather than between fixed handles.
 */
module FloatingEdge {
  import opened Wrappers
  import opened EdgeGeometry
  import opened EdgeLabel

  /** The corner radius the floating edge asks of the smooth-step generator. */
  const StepRadius: int := 16

  /** What is drawn: the end points and sides from the geometry, and the generator to use. */
  datatype Route = Route(params: EdgeParams, shape: PathShape)

  /**
   * The render: nothing when either node cannot be resolved; otherwise the
   * end points of `getEdgeParams` joined by the generator the path type picks,
   * with a 16 px radius for smooth steps.
   */
  function RouteOf(source: Option<NodeBox>, target: Option<NodeBox>, data: Option<EdgeData>): (r: Option<Route>)
    requires source.Some? ==> HasSize(source.value)
    requires target.Some? ==> HasSize(target.value)
    ensures r.None? <==> source.None? || target.None?
    ensures r.Some? ==> r.value.params == GetEdgeParams(source.value, target.value)
    ensures r.Some? ==> r.value.shape == ChoosePath(StyleOf(data).pathType, Some(StepRadius))
  {
    if source.None? || target.None? then None
    else Some(Route(GetEdgeParams(source.value, target.value), ChoosePath(StyleOf(data).pathType, Some(StepRadius))))
  }

  /**
   * Whenever the edge is drawn between nodes with distinct centres, each end
   * lies on its own node's border, on the side it reports.
   */
  lemma EndsOnBorders(source: NodeBox, target: NodeBox, data: Option<EdgeData>)
    requires HasSize(source) && HasSize(target) && Center(source) != Center(target)
    ensures var r := RouteOf(Some(source), Some(target), data).value.params;
      var cs, ct := Center(source), Center(target);
      && OnBoundary(HalfWidth(source), HalfHeight(source), Point(r.sx - cs.x, r.sy - cs.y))
      && SideAgrees(HalfWidth(source), HalfHeight(source), Attachment(Point(r.sx - cs.x, r.sy - cs.y), r.sourcePos))
      && OnBoundary(HalfWidth(target), HalfHeight(target), Point(r.tx - ct.x, r.ty - ct.y))
      && SideAgrees(HalfWidth(target), HalfHeight(target), Attachment(Point(r.tx - ct.x, r.ty - ct.y), r.targetPos))
  {
    IntersectionOnBoundary(source, target);
    IntersectionOnBoundary(target, source);
  }

  /** A floating edge with no path type is a smooth step with rounded 16 px corners. */
  lemma DefaultFloatingShape(source: NodeBox, target: NodeBox)
    requires HasSize(source) && HasSize(target)
    ensures RouteOf(Some(source), Some(target), None).value.shape == SmoothStep(Some(16))
  {
    DefaultPathIsSmoothStep(None, Some(StepRadius));
  }
}
