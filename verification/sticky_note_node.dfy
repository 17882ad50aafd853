/** The sticky note: a coloured note whose text is edited in a textarea and shown as markdown. */
module StickyNoteNode {
  import opened Wrappers

  /** The four note colours. */
  datatype NoteColor = Yellow | Blue | Pink | Green

  /** The colour table, keyed by the names stored in the node's data. */
  const Colors: map<string, NoteColor> :=
    map["yellow" := Yellow, "blue" := Blue, "pink" := Pink, "green" := Green]

  /** `colors[data.color ?? "yellow"]`: a name outside the table has no colour classes. */
  function ColorOf(color: Option<string>): (c: Option<NoteColor>)
    ensures color.None? ==> c == Some(Yellow)
    ensures c.Some? <==> color.None? || color.value in {"yellow", "blue", "pink", "green"}
  {
    var name := color.GetOr("yellow");
    if name in Colors then Some(Colors[name]) else None
  }

  /** Every colour has exactly one name, and looking the name up gives the colour back. */
  lemma ColorNamesRoundTrip(c: NoteColor)
    ensures exists name :: name in Colors && Colors[name] == c
    ensures forall n1, n2 :: n1 in Colors && n2 in Colors && Colors[n1] == c && Colors[n2] == c ==> n1 == n2
  {
    match c
    case Yellow => assert Colors["yellow"] == Yellow;
    case Blue => assert Colors["blue"] == Blue;
    case Pink => assert Colors["pink"] == Pink;
    case Green => assert Colors["green"] == Green;
  }

  /** The placeholder as it appears in the component's source: the ellipsis is garbled. */
  const PlaceholderAsWritten: string := "Double-click to edit\U{E2}\U{20AC}\U{A6}"

  /** The placeholder the text node uses, and evidently the one meant here. */
  const Placeholder: string := "Double-click to edit\U{2026}"

  /** The three UTF-8 bytes of a character in the range U+0800..U+FFFF. */
  function Utf8Bytes3(c: int): (b: seq<int>)
    requires 0x800 <= c < 0x10000
    ensures |b| == 3 && 0xE0 <= b[0] < 0xF0 && 0x80 <= b[1] < 0xC0 && 0x80 <= b[2] < 0xC0
  {
    [0xE0 + c / 0x1000, 0x80 + (c / 0x40) % 0x40, 0x80 + c % 0x40]
  }

  /** The Windows-1252 reading of the bytes involved here (0x80 is the euro sign; the others are Latin-1). */
  function Cp1252(b: int): (c: char)
    requires 0xA0 <= b < 0x100 || b == 0x80
  {
    if b == 0x80 then '\U{20AC}' else b as char
  }

  /**
   * The garbled tail is exactly the UTF-8 encoding of the ellipsis read back
   * as Windows-1252, so the placeholder shows three stray characters instead
   * of one ellipsis.
   */
  lemma PlaceholderMojibake()
    ensures PlaceholderAsWritten[..20] == Placeholder[..20] == "Double-click to edit"
    ensures Placeholder[20..] == "\U{2026}"
    ensures var b := Utf8Bytes3(0x2026);
      b == [0xE2, 0x80, 0xA6] && PlaceholderAsWritten[20..] == [Cp1252(b[0]), Cp1252(b[1]), Cp1252(b[2])]
    ensures PlaceholderAsWritten != Placeholder
  {
    assert |PlaceholderAsWritten| != |Placeholder|;
  }

  /** What the closed note shows. */
  datatype NoteView = Markdown(source: string) | PlaceholderText(hint: string)

  /** Non-empty text is rendered as markdown; empty text shows the (ungarbled) placeholder. */
  function ViewOf(text: string): (v: NoteView)
    ensures v.Markdown? <==> text != ""
    ensures v.Markdown? ==> v.source == text
    ensures v.PlaceholderText? ==> v.hint == Placeholder
  {
    if text != "" then Markdown(text) else PlaceholderText(Placeholder)
  }
}
