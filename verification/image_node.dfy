/**
 * The image node: a URL input that, once applied, shows the image, with an
 * error view when the image fails to load.
 */
module ImageNode {
  import opened Wrappers
  import opened Messages
  import JsStrings

  /** The input view (URL field, Apply, maybe Cancel) replaces the image when there is no URL or the input is open. */
  predicate InputView(url: string, isEditing: bool)
    ensures !InputView(url, isEditing) ==> url != "" && !isEditing
    ensures isEditing ==> InputView(url, isEditing)
  {
    url == "" || isEditing
  }

  /** The "Change URL" button's condition as the component writes it: no URL and a closed input. */
  predicate ChangeUrlButtonAsWritten(url: string, isEditing: bool)
    ensures ChangeUrlButtonAsWritten(url, isEditing) ==> url == "" && !isEditing
  {
    url == "" && !isEditing
  }

  /**
   * As written, the button only appears while the input view is already
   * shown, so it is never drawn over an image: with a URL set and the input
   * closed (an image on display) there is no button.
   */
  lemma ChangeUrlButtonNeverOverImage(url: string, isEditing: bool)
    ensures ChangeUrlButtonAsWritten(url, isEditing) ==> InputView(url, isEditing)
    ensures !InputView("a.png", false) && !ChangeUrlButtonAsWritten("a.png", false)
  {
  }

  /** The evident intent: the button floats over the displayed image, when a URL is set and the input is closed. */
  predicate ChangeUrlButton(url: string, isEditing: bool)
    ensures ChangeUrlButton(url, isEditing) ==> url != "" && !isEditing
  {
    url != "" && !isEditing
  }

  /** Corrected, the button is offered exactly when the image (or its error view) is on display. */
  lemma ChangeUrlButtonWithImage(url: string, isEditing: bool)
    ensures ChangeUrlButton(url, isEditing) <==> !InputView(url, isEditing)
  {
  }

  class ImageEditor {
    const id: string
    /** The URL the node displays; it changes only when an input is applied. */
    var url: string
    /** The text in the URL input. */
    var inputUrl: string
    var isEditing: bool
    var hasError: bool

    /**
     * Mounting from the node's `data.url`: both fields start with it (or ""),
     * and the input starts open exactly when there is no URL yet.
     */
    constructor (id: string, dataUrl: Option<string>)
      ensures this.id == id && url == dataUrl.GetOr("") && inputUrl == url
      ensures isEditing <==> dataUrl.None? || dataUrl.value == ""
      ensures !hasError
    {
      this.id := id;
      url := dataUrl.GetOr("");
      inputUrl := dataUrl.GetOr("");
      isEditing := dataUrl.None? || dataUrl.value == "";
      hasError := false;
    }

    /** The input's `onChange`. */
    method Input(value: string)
      modifies this
      ensures inputUrl == value
      ensures url == old(url) && isEditing == old(isEditing) && hasError == old(hasError)
    {
      inputUrl := value;
    }

    /**
     * `handleApply`: display the trimmed input, clear any error, close the
     * input, and ask for the trimmed URL to be stored in the node.
     */
    method Apply() returns (m: Message)
      modifies this
      ensures url == JsStrings.Trim(old(inputUrl)) && inputUrl == old(inputUrl)
      ensures !hasError && !isEditing
      ensures m == NodeDataChange(id, UrlPatch(url))
    {
      url := JsStrings.Trim(inputUrl);
      hasError := false;
      isEditing := false;
      m := NodeDataChange(id, UrlPatch(JsStrings.Trim(inputUrl)));
    }

    /** `handleKeyDown`: Enter applies; Escape closes the input and sends nothing; other keys do nothing. */
    method KeyDown(key: string) returns (m: Option<Message>)
      modifies this
      ensures key == "Enter" ==>
        && m == Some(NodeDataChange(id, UrlPatch(JsStrings.Trim(old(inputUrl)))))
        && url == JsStrings.Trim(old(inputUrl)) && !isEditing && !hasError
      ensures key == "Escape" ==>
        m.None? && !isEditing && url == old(url) && hasError == old(hasError)
      ensures key != "Enter" && key != "Escape" ==>
        m.None? && url == old(url) && isEditing == old(isEditing) && hasError == old(hasError)
      ensures inputUrl == old(inputUrl)
    {
      m := None;
      if key == "Enter" {
        var applied := Apply();
        m := Some(applied);
      }
      if key == "Escape" {
        isEditing := false;
      }
    }

    /** The Cancel button: closes the input without applying it. */
    method Cancel()
      modifies this
      ensures !isEditing
      ensures url == old(url) && inputUrl == old(inputUrl) && hasError == old(hasError)
    {
      isEditing := false;
    }

    /** The image's `onError`. */
    method ImageFailed()
      modifies this
      ensures hasError
      ensures url == old(url) && inputUrl == old(inputUrl) && isEditing == old(isEditing)
    {
      hasError := true;
    }

    /** "Edit URL" in the error view: reopen the input and forget the error. */
    method EditUrl()
      modifies this
      ensures isEditing && !hasError
      ensures url == old(url) && inputUrl == old(inputUrl)
    {
      isEditing := true;
      hasError := false;
    }

    /** The "Change URL" button: opens the input. */
    method ChangeUrl()
      modifies this
      ensures isEditing
      ensures url == old(url) && inputUrl == old(inputUrl) && hasError == old(hasError)
    {
      isEditing := true;
    }

    /** The input view is shown when there is no URL or the input is open. */
    predicate InputShown()
      reads this
      ensures !InputShown() ==> url != ""
    {
      InputView(url, isEditing)
    }

    /** Cancel is offered, inside the input view, only when there is a URL to go back to. */
    predicate CancelOffered()
      reads this
      ensures CancelOffered() ==> InputShown() && isEditing && !ChangeUrlOffered()
    {
      InputShown() && url != ""
    }

    /** The "Change URL" button over the displayed image (the corrected condition). */
    predicate ChangeUrlOffered()
      reads this
      ensures ChangeUrlOffered() <==> !InputShown()
    {
      ChangeUrlButton(url, isEditing)
    }

    /** The error view is shown in place of the image after a load failure. */
    predicate ErrorShown()
      reads this
      ensures ErrorShown() ==> hasError && url != "" && !isEditing && ChangeUrlOffered()
    {
      !InputShown() && hasError
    }
  }

  /**
   * Applying an input that is only blanks stores and displays "", so the node
   * falls back to the input view even though the input was closed.
   */
  method BlankApplyShowsInput(id: string, blanks: string) returns (m: Message, shown: bool)
    requires forall i :: 0 <= i < |blanks| ==> JsStrings.IsWhitespace(blanks[i])
    ensures m == NodeDataChange(id, UrlPatch(""))
    ensures shown
  {
    var n := new ImageEditor(id, Some("https://example.com/a.png"));
    n.Input(blanks);
    m := n.Apply();
    shown := n.InputShown();
  }

  /**
   * Padded input is trimmed before it is displayed and sent; Escape on a
   * later edit keeps the applied URL and sends nothing.
   */
  method TrimThenEscape(id: string) returns (applied: Option<Message>, escaped: Option<Message>, url: string)
    ensures applied == Some(NodeDataChange(id, UrlPatch("a.png")))
    ensures escaped.None? && url == "a.png"
  {
    var n := new ImageEditor(id, None);
    n.Input(" a.png\n");
    TrimPadded();
    applied := n.KeyDown("Enter");
    n.EditUrl();
    n.Input("b.png");
    escaped := n.KeyDown("Escape");
    url := n.url;
  }

  /** A leading space and a trailing newline are both trimmed. */
  lemma TrimPadded()
    ensures JsStrings.Trim(" a.png\n") == "a.png"
  {
    assert !JsStrings.IsWhitespace('a') && !JsStrings.IsWhitespace('g');
    assert JsStrings.LeadingWhitespace("a.png\n") == 0;
    assert " a.png\n"[1..] == "a.png\n";
    assert JsStrings.LeadingWhitespace(" a.png\n") == 1;
    assert JsStrings.TrailingWhitespace("a.png") == 0;
    assert "a.png\n"[..5] == "a.png";
    assert JsStrings.TrailingWhitespace("a.png\n") == 1;
    assert " a.png\n"[1..6] == "a.png";
  }
}
