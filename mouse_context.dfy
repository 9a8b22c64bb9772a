/**
 * The shared cursor store (src/context/MouseContext.tsx): the cursor's
 * variant, its caption and the pointer position, each with its own setter.
 * The click ripple only creates and removes a DOM element and is not modelled.
 */
module MouseContext {
  import opened Options

  /** `'default' | 'text' | 'link' | 'button' | 'hidden'`: the type admits no other value. */
  datatype CursorVariant = Default | Text | Link | Button | Hidden

  datatype Position = Position(x: int, y: int)

  /** Off screen, until the first pointer move arrives. */
  const InitialPosition: Position := Position(-100, -100)

  const MissingProviderMessage: string := "useMouseContext must be used within a MouseProvider"

  class MouseStore {
    var cursorVariant: CursorVariant
    var cursorText: string
    var cursorPosition: Position

    constructor ()
      ensures cursorVariant == Default && cursorText == "" && cursorPosition == InitialPosition
    {
      cursorVariant := Default;
      cursorText := "";
      cursorPosition := InitialPosition;
    }

    method SetCursorVariant(variant: CursorVariant)
      modifies this
      ensures cursorVariant == variant
      ensures cursorText == old(cursorText) && cursorPosition == old(cursorPosition)
    {
      cursorVariant := variant;
    }

    method SetCursorText(text: string)
      modifies this
      ensures cursorText == text
      ensures cursorVariant == old(cursorVariant) && cursorPosition == old(cursorPosition)
    {
      cursorText := text;
    }

    /** Called with the pointer's client coordinates on every `mousemove`. */
    method UpdateCursorPosition(x: int, y: int)
      modifies this
      ensures cursorPosition == Position(x, y)
      ensures cursorVariant == old(cursorVariant) && cursorText == old(cursorText)
    {
      cursorPosition := Position(x, y);
    }
  }

  /** The context hook: the provider's store, or a thrown error outside any provider. */
  function UseMouseContext(provider: Option<MouseStore>): (r: Result<MouseStore>)
    ensures r.Ok? <==> provider.Some?
    ensures r.Ok? ==> r.value == provider.value
    ensures r.Thrown? ==> r.message == MissingProviderMessage
  {
    match provider
    case Some(store) => Ok(store)
    case None => Thrown(MissingProviderMessage)
  }

  /** The enter handler of a captioned element ("View Details", "Visit", "Code", ...). */
  method EnterCaptioned(store: MouseStore, variant: CursorVariant, caption: string)
    modifies store
    ensures store.cursorVariant == variant && store.cursorText == caption
    ensures store.cursorPosition == old(store.cursorPosition)
  {
    store.SetCursorVariant(variant);
    store.SetCursorText(caption);
  }

  /** The leave handler of a captioned element: both fields back to their initial values. */
  method LeaveCaptioned(store: MouseStore)
    modifies store
    ensures store.cursorVariant == Default && store.cursorText == ""
    ensures store.cursorPosition == old(store.cursorPosition)
  {
    store.SetCursorVariant(Default);
    store.SetCursorText("");
  }

  /** The leave handler of an uncaptioned element resets the variant only; the caption stays as it was. */
  method LeavePlain(store: MouseStore)
    modifies store
    ensures store.cursorVariant == Default
    ensures store.cursorText == old(store.cursorText) && store.cursorPosition == old(store.cursorPosition)
  {
    store.SetCursorVariant(Default);
  }

  /** A captioned hover followed by its leave restores the initial variant and caption, whatever came before. */
  method CaptionedHover(store: MouseStore, variant: CursorVariant, caption: string)
    modifies store
    ensures store.cursorVariant == Default && store.cursorText == ""
    ensures store.cursorPosition == old(store.cursorPosition)
  {
    EnterCaptioned(store, variant, caption);
    LeaveCaptioned(store);
  }
}
