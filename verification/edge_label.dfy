/**
 * What the two edge components (the floating edge and the custom edge)
 * share: the defaults read from the edge's data, the choice of path
 * generator, the stroke styling, and the label editor, whose handlers are
 * the same in both components.
 */
module EdgeLabel {
  import opened Wrappers
  import opened Messages
  import BoardRole

  /** The edge's `data`; every field may be missing, and so may `data` itself. */
  datatype EdgeData = EdgeData(labelText: Option<string>, pathType: Option<string>, color: Option<string>)

  const DefaultPathType: string := "step"
  const DefaultColor: string := "#6366f1"

  /** The fields the component works with once the defaults are filled in. */
  datatype EdgeStyle = EdgeStyle(labelText: string, pathType: string, color: string)

  /** `(data || {})` followed by `label ?? ""`, `pathType ?? "step"` and `color ?? "#6366f1"`. */
  function StyleOf(data: Option<EdgeData>): (s: EdgeStyle)
    ensures data.Some? && data.value.labelText.Some? ==> s.labelText == data.value.labelText.value
    ensures data.Some? && data.value.pathType.Some? ==> s.pathType == data.value.pathType.value
    ensures data.Some? && data.value.color.Some? ==> s.color == data.value.color.value
    ensures data.None? || data.value.labelText.None? ==> s.labelText == ""
    ensures data.None? || data.value.pathType.None? ==> s.pathType == "step"
    ensures data.None? || data.value.color.None? ==> s.color == "#6366f1"
  {
    var d := data.GetOr(EdgeData(None, None, None));
    EdgeStyle(d.labelText.GetOr(""), d.pathType.GetOr(DefaultPathType), d.color.GetOr(DefaultColor))
  }

  /**
   * Each missing field falls back on its own: missing data gives an empty
   * label, a step path and indigo, and an edge that only names its path type
   * keeps that type with the other two defaults.
   */
  lemma StyleDefaults()
    ensures StyleOf(None) == EdgeStyle("", "step", "#6366f1")
    ensures StyleOf(Some(EdgeData(None, Some("bezier"), None))) == EdgeStyle("", "bezier", "#6366f1")
    ensures StyleOf(Some(EdgeData(Some("link"), None, Some("#000")))) == EdgeStyle("link", "step", "#000")
  {
  }

  /** The path generators of the drawing library; the smooth-step one may take a corner radius. */
  datatype PathShape = Bezier | Straight | SmoothStep(borderRadius: Option<int>)

  /** The `if (pathType === "bezier") … else if (pathType === "straight") … else …` dispatch. */
  function ChoosePath(pathType: string, stepRadius: Option<int>): (shape: PathShape)
    ensures shape == Bezier <==> pathType == "bezier"
    ensures shape == Straight <==> pathType == "straight"
    ensures shape.SmoothStep? <==> pathType != "bezier" && pathType != "straight"
    ensures shape.SmoothStep? ==> shape.borderRadius == stepRadius
  {
    if pathType == "bezier" then Bezier
    else if pathType == "straight" then Straight
    else SmoothStep(stepRadius)
  }

  /** A missing path type is drawn as a smooth step. */
  lemma DefaultPathIsSmoothStep(data: Option<EdgeData>, stepRadius: Option<int>)
    requires data.None? || data.value.pathType.None?
    ensures ChoosePath(StyleOf(data).pathType, stepRadius) == SmoothStep(stepRadius)
  {
  }

  /** A selected edge is drawn 4 wide, any other 2 wide. */
  function StrokeWidth(selected: bool): (w: nat)
    ensures w == 2 || w == 4
    ensures w == 4 <==> selected
  {
    if selected then 4 else 2
  }

  /** The styling and delete menu is rendered for anyone who is not a viewer. */
  predicate MenuOffered(role: Option<BoardRole.Role>)
    ensures MenuOffered(role) <==> BoardRole.CanEdit(role)
  {
    role != Some(BoardRole.Viewer)
  }

  /**
   * The label state of one edge component: the stored label from the edge's
   * data, the text in the input, and whether the input is open.
   */
  class LabelEditor {
    const id: string
    var storedLabel: string
    var localLabel: string
    var isEditing: bool

    /** Mounting: the input starts with the stored label and closed. */
    constructor (id: string, data: Option<EdgeData>)
      ensures this.id == id && storedLabel == StyleOf(data).labelText
      ensures localLabel == storedLabel && !isEditing
    {
      this.id := id;
      storedLabel := StyleOf(data).labelText;
      localLabel := StyleOf(data).labelText;
      isEditing := false;
    }

    /** New data from the document: a changed label overwrites the input text, even mid-edit. */
    method ReceiveData(data: Option<EdgeData>)
      modifies this
      ensures storedLabel == StyleOf(data).labelText && isEditing == old(isEditing)
      ensures storedLabel != old(storedLabel) ==> localLabel == storedLabel
      ensures storedLabel == old(storedLabel) ==> localLabel == old(localLabel)
    {
      var newLabel := StyleOf(data).labelText;
      if newLabel != storedLabel {
        localLabel := newLabel;
      }
      storedLabel := newLabel;
    }

    /** `handleDoubleClick`: opens the input unless the caller is a viewer; a loading role may edit. */
    method DoubleClick(role: Option<BoardRole.Role>)
      modifies this
      ensures isEditing == (old(isEditing) || BoardRole.CanEdit(role))
      ensures storedLabel == old(storedLabel) && localLabel == old(localLabel)
    {
      if BoardRole.CanEdit(role) {
        isEditing := true;
      }
    }

    /** The "Format Label" menu item: opens the input (the menu is only offered to non-viewers). */
    method FormatLabel()
      modifies this
      ensures isEditing && storedLabel == old(storedLabel) && localLabel == old(localLabel)
    {
      isEditing := true;
    }

    /** The input's `onChange`. */
    method Input(value: string)
      modifies this
      ensures localLabel == value && storedLabel == old(storedLabel) && isEditing == old(isEditing)
    {
      localLabel := value;
    }

    /**
     * `finishEditing` (also the input's `onBlur`): when the input is open, close
     * it and ask for the label to be stored; otherwise do nothing. The stored
     * label itself only changes when the document sends it back.
     */
    method FinishEditing() returns (m: Option<Message>)
      modifies this
      ensures m.Some? <==> old(isEditing)
      ensures m.Some? ==> m.value == EdgeDataChange(id, LabelPatch(old(localLabel)))
      ensures !isEditing && storedLabel == old(storedLabel) && localLabel == old(localLabel)
    {
      m := None;
      if isEditing {
        isEditing := false;
        m := Some(EdgeDataChange(id, LabelPatch(localLabel)));
      }
    }

    /** `handleKeyDown`: Enter and Escape both commit; Escape does not discard the typed text. */
    method KeyDown(key: string) returns (m: Option<Message>)
      modifies this
      ensures key == "Enter" || key == "Escape" ==>
        && (m.Some? <==> old(isEditing))
        && (m.Some? ==> m.value == EdgeDataChange(id, LabelPatch(old(localLabel))))
        && !isEditing
      ensures key != "Enter" && key != "Escape" ==> m.None? && isEditing == old(isEditing)
      ensures storedLabel == old(storedLabel) && localLabel == old(localLabel)
    {
      m := None;
      if key == "Enter" || key == "Escape" {
        m := FinishEditing();
      }
    }

    /** `updatePathType`: a message carrying only the path type, for this edge. */
    function UpdatePathType(pathType: string): (m: Message)
      ensures m.EdgeDataChange? && m.edgeId == id && m.edgePatch.PathTypePatch?
      ensures m.edgePatch.pathType == pathType
    {
      EdgeDataChange(id, PathTypePatch(pathType))
    }

    /** `deleteEdge`: a delete request naming only this edge. */
    function DeleteEdge(): (m: Message)
      ensures m.EdgeDelete? && m.deletedId == id
    {
      EdgeDelete(id)
    }

    /** The label box is rendered when there is a stored label or the input is open. */
    predicate LabelBoxShown()
      reads this
      ensures !LabelBoxShown() <==> storedLabel == "" && !isEditing
    {
      storedLabel != "" || isEditing
    }
  }

  /**
   * A viewer's double-click leaves the label closed, and a later commit has
   * nothing to send.
   */
  method ViewerCannotRelabel(id: string, data: Option<EdgeData>) returns (m: Option<Message>)
    ensures m.None?
  {
    var e := new LabelEditor(id, data);
    e.DoubleClick(Some(BoardRole.Viewer));
    e.Input("renamed");
    m := e.KeyDown("Enter");
  }

  /**
   * An editor opens the input, types, and presses Escape: the typed label is
   * committed once, and a second commit sends nothing.
   */
  method EscapeCommitsOnce(id: string, data: Option<EdgeData>) returns (first: Option<Message>, second: Option<Message>)
    ensures first == Some(EdgeDataChange(id, LabelPatch("renamed")))
    ensures second.None?
  {
    var e := new LabelEditor(id, data);
    e.DoubleClick(Some(BoardRole.Editor));
    e.Input("renamed");
    first := e.KeyDown("Escape");
    second := e.FinishEditing();
  }
}
