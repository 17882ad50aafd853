/**
 * The rich-text node: an editor whose content is committed on blur and
 * refreshed from the node's data when someone else changes it.
 */
module TextNode {
  import opened Wrappers
  import opened Messages

  /** The node's `data`: its HTML, its plain text, either of which may be missing. */
  datatype TextData = TextData(html: Option<string>, text: Option<string>)

  const Placeholder: string := "<p>Double-click to edit\U{2026}</p>"

  /** The text wrapped in one paragraph. */
  function Paragraph(text: string): (p: string)
    ensures |p| == |text| + 7 && p[..3] == "<p>" && p[3..3 + |text|] == text && p[3 + |text|..] == "</p>"
  {
    "<p>" + text + "</p>"
  }

  /** What the editor is created with: the HTML if present (even ""), else the text as a paragraph, else the placeholder. */
  function InitialContent(data: TextData): (c: string)
    ensures data.html.Some? ==> c == data.html.value
    ensures data.html.None? && data.text.Some? && data.text.value != "" ==> c == Paragraph(data.text.value)
    ensures data.html.None? && (data.text.None? || data.text.value == "") ==> c == Placeholder
  {
    match data.html
    case Some(h) => h
    case None => if data.text.Some? && data.text.value != "" then Paragraph(data.text.value) else Placeholder
  }

  /** What an external change offers: as `InitialContent`, but "" where that would use the placeholder. */
  function ExternalContent(data: TextData): (c: string)
    ensures data.html.Some? ==> c == data.html.value
    ensures data.html.None? && data.text.Some? && data.text.value != "" ==> c == Paragraph(data.text.value)
    ensures data.html.None? && (data.text.None? || data.text.value == "") ==> c == ""
    ensures c != "" ==> c == InitialContent(data)
  {
    match data.html
    case Some(h) => h
    case None => if data.text.Some? && data.text.value != "" then Paragraph(data.text.value) else ""
  }

  /** The external content is empty exactly when there is no HTML field or an empty one and no text. */
  lemma ExternalContentEmpty(data: TextData)
    ensures ExternalContent(data) == "" <==>
      (data.html == Some("") || (data.html.None? && (data.text.None? || data.text.value == "")))
  {
  }

  /** The sync rule: keep the content while focused, or when the data offers nothing new; otherwise take the offer. */
  function Synced(focused: bool, current: string, data: TextData): (c: string)
    ensures focused ==> c == current
    ensures c != current ==> c == ExternalContent(data) && c != ""
    ensures !focused && ExternalContent(data) != "" ==> c == ExternalContent(data)
  {
    var offered := ExternalContent(data);
    if focused || offered == "" || offered == current then current else offered
  }

  /** Syncing again with the same data changes nothing. */
  lemma SyncIdempotent(focused: bool, current: string, data: TextData)
    ensures Synced(focused, Synced(focused, current, data), data) == Synced(focused, current, data)
  {
  }

  /** Empty data never clears the editor: it keeps its content, whatever it was. */
  lemma EmptyDataKeepsContent(focused: bool, current: string, data: TextData)
    requires ExternalContent(data) == ""
    ensures Synced(focused, current, data) == current
  {
  }

  /** The effect's run at mount, with the data the editor was created from, changes nothing. */
  lemma MountSyncIsNoOp(data: TextData)
    ensures Synced(false, InitialContent(data), data) == InitialContent(data)
  {
  }

  /**
   * The editor state of one text node. `html` stands for the editor's
   * `getHTML()`, taken to be the content last set or typed.
   */
  class TextEditor {
    const id: string
    var isFocused: bool
    var html: string
    /** The `html` and `text` the sync effect last ran with (its dependency list). */
    var seenData: TextData

    constructor (id: string, data: TextData)
      ensures this.id == id && !isFocused && html == InitialContent(data) && seenData == data
    {
      this.id := id;
      isFocused := false;
      html := InitialContent(data);
      seenData := data;
    }

    /** `onFocus`. */
    method Focus()
      modifies this
      ensures isFocused && html == old(html) && seenData == old(seenData)
    {
      isFocused := true;
    }

    /** The user editing the content. */
    method Edit(newHtml: string)
      modifies this
      ensures html == newHtml && isFocused == old(isFocused) && seenData == old(seenData)
    {
      html := newHtml;
    }

    /**
     * `onBlur`: the editor loses focus and asks for both its HTML and its plain
     * text (`getText()`, supplied by the editor) to be stored.
     */
    method Blur(plainText: string) returns (m: Message)
      modifies this
      ensures !isFocused && html == old(html) && seenData == old(seenData)
      ensures m == NodeDataChange(id, RichTextPatch(html, plainText))
    {
      isFocused := false;
      m := NodeDataChange(id, RichTextPatch(html, plainText));
    }

    /**
     * A render with the node's current data. The effect runs only when `html`
     * or `text` differs from its last run; it is then skipped while focused,
     * and otherwise applies the sync rule.
     */
    method SyncExternal(data: TextData)
      modifies this
      ensures isFocused == old(isFocused) && seenData == data
      ensures html == if data == old(seenData) then old(html) else Synced(old(isFocused), old(html), data)
    {
      if data == seenData {
        return;
      }
      seenData := data;
      if isFocused {
        return;
      }
      var newContent := ExternalContent(data);
      if newContent != "" && newContent != html {
        html := newContent;
      }
    }

    /** The formatting toolbar floats above the node while the editor has focus. */
    predicate ToolbarShown()
      reads this
      ensures ToolbarShown() <==> isFocused
    {
      isFocused
    }
  }

  /** Remote text reaches an unfocused editor as a paragraph; while focused, the user's edit wins. */
  method RemoteEditWhileFocused(id: string) returns (unfocused: string, focused: string)
    ensures unfocused == "<p>remote</p>"
    ensures focused == "<p>mine</p>"
  {
    var a := new TextEditor(id, TextData(None, None));
    a.SyncExternal(TextData(None, Some("remote")));
    unfocused := a.html;
    var b := new TextEditor(id, TextData(None, None));
    b.Focus();
    b.Edit("<p>mine</p>");
    b.SyncExternal(TextData(None, Some("remote")));
    focused := b.html;
  }

  /**
   * A remote edit that arrives while the editor is focused is consumed by the
   * skipped effect: once the user blurs, later renders with the same data do
   * not apply it, and the blur itself stores the local HTML over it.
   */
  method RemoteEditLostAfterBlur(id: string) returns (stored: Message, after: string)
    ensures stored == NodeDataChange(id, RichTextPatch("<p>mine</p>", "mine"))
    ensures after == "<p>mine</p>"
    ensures Synced(false, "<p>mine</p>", TextData(None, Some("remote"))) == "<p>remote</p>"
  {
    var remote := TextData(None, Some("remote"));
    var e := new TextEditor(id, TextData(None, None));
    e.Focus();
    e.Edit("<p>mine</p>");
    e.SyncExternal(remote);
    stored := e.Blur("mine");
    e.SyncExternal(remote);
    after := e.html;
  }
}
