/** The shape node: an SVG shape with a text label edited in a textarea. */
module ShapeNode {
  import opened Wrappers

  /** The shapes the node can draw. */
  datatype ShapeKind = Rectangle | Circle | Triangle | Diamond

  const DefaultColor: string := "#fff"
  const BorderColor: string := "#0f172a"
  const SelectedStroke: string := "#3b82f6"

  /** `data.shapeType ?? "rectangle"`. */
  function ShapeTypeOf(shapeType: Option<string>): (name: string)
    ensures shapeType.Some? ==> name == shapeType.value
    ensures shapeType.None? ==> name == "rectangle" && RenderShape(name) == Some(Rectangle)
  {
    shapeType.GetOr("rectangle")
  }

  /** `data.color ?? "#fff"`. */
  function FillOf(color: Option<string>): (fill: string)
    ensures color.Some? ==> fill == color.value
    ensures color.None? ==> fill == "#fff"
  {
    color.GetOr(DefaultColor)
  }

  /** The `renderShape` switch: one of the four shapes, or nothing for any other name. */
  function RenderShape(shapeType: string): (k: Option<ShapeKind>)
    ensures k.Some? <==> shapeType in {"rectangle", "circle", "triangle", "diamond"}
    ensures k == Some(Rectangle) <==> shapeType == "rectangle"
    ensures k == Some(Circle) <==> shapeType == "circle"
    ensures k == Some(Triangle) <==> shapeType == "triangle"
    ensures k == Some(Diamond) <==> shapeType == "diamond"
  {
    match shapeType
    case "rectangle" => Some(Rectangle)
    case "circle" => Some(Circle)
    case "triangle" => Some(Triangle)
    case "diamond" => Some(Diamond)
    case _ => None
  }

  /** The polygons are drawn in a 100 x 100 box, so only they get a viewBox. */
  function ViewBox(shapeType: string): (v: Option<string>)
    ensures v.Some? <==> shapeType == "triangle" || shapeType == "diamond"
    ensures v.Some? ==> v.value == "0 0 100 100"
  {
    if shapeType == "triangle" || shapeType == "diamond" then Some("0 0 100 100") else None
  }

  /** The outline colour: blue when selected, slate otherwise. */
  function StrokeOf(selected: bool): (c: string)
    ensures selected <==> c == SelectedStroke
    ensures !selected <==> c == BorderColor
  {
    if selected then SelectedStroke else BorderColor
  }

  /**
   * A node without a shape type or colour draws a white rectangle without a
   * viewBox; stored values are used as they are, even an empty one.
   */
  lemma ShapeDefaults(shapeType: Option<string>, color: Option<string>)
    ensures RenderShape(ShapeTypeOf(None)) == Some(Rectangle) && ViewBox(ShapeTypeOf(None)).None?
    ensures FillOf(None) == "#fff"
    ensures shapeType.Some? ==> ShapeTypeOf(shapeType) == shapeType.value
    ensures color.Some? ==> FillOf(color) == color.value
  {
  }

  /** The viewBox is set exactly for the shapes drawn as polygons. */
  lemma ViewBoxForPolygons(shapeType: string)
    ensures ViewBox(shapeType).Some? <==> RenderShape(shapeType) in {Some(Triangle), Some(Diamond)}
  {
  }

  /** The closed label: the text, or an invisible placeholder when it is empty. */
  datatype LabelView = Text(content: string) | InvisiblePlaceholder

  function LabelOf(text: string): (v: LabelView)
    ensures v.Text? <==> text != ""
    ensures v.Text? ==> v.content == text
  {
    if text != "" then Text(text) else InvisiblePlaceholder
  }
}
