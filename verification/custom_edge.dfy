/** The custom edge: an edge drawn between the handle coordinates the canvas gives it. */
module CustomEdge {
  import opened Wrappers
  import opened EdgeGeometry
  import opened EdgeLabel

  /** The handle end points and their sides, as the canvas passes them in. */
  datatype Handles = Handles(sourceX: real, sourceY: real, targetX: real, targetY: real,
                             sourcePosition: Side, targetPosition: Side)

  /** What is drawn: the end points and the generator to use. */
  datatype Route = Route(params: EdgeParams, shape: PathShape)

  /**
   * The render: the handle coordinates unchanged, joined by the generator the
   * path type picks; smooth steps get no corner radius of their own.
   */
  function RouteOf(h: Handles, data: Option<EdgeData>): (r: Route)
    ensures r.params.sx == h.sourceX && r.params.sy == h.sourceY && r.params.sourcePos == h.sourcePosition
    ensures r.params.tx == h.targetX && r.params.ty == h.targetY && r.params.targetPos == h.targetPosition
    ensures r.shape == ChoosePath(StyleOf(data).pathType, None)
  {
    Route(EdgeParams(h.sourceX, h.sourceY, h.targetX, h.targetY, h.sourcePosition, h.targetPosition),
          ChoosePath(StyleOf(data).pathType, None))
  }

  /**
   * The custom edge picks the same generator as the floating edge for every
   * path type; the two only differ in the smooth-step corner radius.
   */
  lemma SameGeneratorAsFloating(data: Option<EdgeData>, h: Handles)
    ensures var c, f := RouteOf(h, data).shape, ChoosePath(StyleOf(data).pathType, Some(16));
      && (c == Bezier <==> f == Bezier)
      && (c == Straight <==> f == Straight)
      && (c.SmoothStep? <==> f.SmoothStep?)
      && (c.SmoothStep? ==> c.borderRadius.None? && f.borderRadius == Some(16))
  {
  }
}
