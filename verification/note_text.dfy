/**
 * The plain-text editor shared by the sticky note and the shape node: a
 * textarea opened by double-click and committed on blur.
 */
module NoteText {
  import opened Wrappers
  import opened Messages

  class NoteEditor {
    const id: string
    /** The `data.text` last seen, to tell when it changes. */
    var seenText: Option<string>
    /** The local text shown and edited. */
    var text: string
    var isEditing: bool

    /** Mounting: the local text is `data.text ?? ""`, and the textarea is closed. */
    constructor (id: string, dataText: Option<string>)
      ensures this.id == id && seenText == dataText && text == dataText.GetOr("") && !isEditing
    {
      this.id := id;
      seenText := dataText;
      text := dataText.GetOr("");
      isEditing := false;
    }

    /**
     * The effect keyed on `data.text`: when it differs from the last value seen,
     * the local text is reset to it (or ""), even mid-edit; otherwise nothing happens.
     */
    method ReceiveText(dataText: Option<string>)
      modifies this
      ensures seenText == dataText && isEditing == old(isEditing)
      ensures dataText != old(seenText) ==> text == dataText.GetOr("")
      ensures dataText == old(seenText) ==> text == old(text)
    {
      if dataText != seenText {
        text := dataText.GetOr("");
      }
      seenText := dataText;
    }

    /** `handleDoubleClick`: opens the textarea, for any role. */
    method DoubleClick()
      modifies this
      ensures isEditing && text == old(text) && seenText == old(seenText)
    {
      isEditing := true;
    }

    /** The textarea's `onChange`. */
    method Input(value: string)
      modifies this
      ensures text == value && isEditing == old(isEditing) && seenText == old(seenText)
    {
      text := value;
    }

    /** `handleBlur`: closes the textarea and asks for the local text to be stored, every time. */
    method Blur() returns (m: Message)
      modifies this
      ensures !isEditing && text == old(text) && seenText == old(seenText)
      ensures m == NodeDataChange(id, TextPatch(text))
    {
      isEditing := false;
      m := NodeDataChange(id, TextPatch(text));
    }

    /** `handleKeyDown`: Escape closes the textarea without sending anything; other keys change nothing. */
    method KeyDown(key: string)
      modifies this
      ensures isEditing == (old(isEditing) && key != "Escape")
      ensures text == old(text) && seenText == old(seenText)
    {
      if key == "Escape" {
        isEditing := false;
      }
    }
  }

  /** A remote change to the text replaces what is being typed; the blur then commits the remote text. */
  method RemoteChangeOverwritesDraft(id: string) returns (m: Message)
    ensures m == NodeDataChange(id, TextPatch("remote"))
  {
    var e := new NoteEditor(id, Some("old"));
    e.DoubleClick();
    e.Input("draft");
    e.ReceiveText(Some("remote"));
    m := e.Blur();
  }
}
