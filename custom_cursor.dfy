/**
 * The cursor renderer (src/components/ui/CustomCursor.tsx): a pure function
 * of the store's variant, caption and position. Sizes and offsets are whole
 * pixels; the spring animation itself is framer-motion's and not modelled.
 */
module CustomCursor {
  import opened Options
  import opened MouseContext

  datatype Size = Size(width: int, height: int)

  /** `getCursorSize`: `'hidden'` has no case of its own and takes the default. */
  function CursorSize(variant: CursorVariant): (s: Size)
    ensures s.width == s.height && s.width % 2 == 0
    ensures s.width == 8 <==> variant == Text
    ensures s.width == 50 <==> IsInteractive(variant)
    ensures s.width == 20 <==> variant in {Default, Hidden}
  {
    match variant
    case Text => Size(8, 8)
    case Link | Button => Size(50, 50)
    case _ => Size(20, 20)
  }

  /** The variants that turn the cursor into a target; the other three keep the plain blob. */
  function IsInteractive(variant: CursorVariant): (b: bool)
    ensures !b <==> variant in {Default, Text, Hidden}
  {
    variant == Link || variant == Button
  }

  /** The main cursor's body: the crosshair ("sniper") or the default blob. */
  datatype Body = Sniper | Blob

  datatype Spring = Spring(damping: int, stiffness: int)

  /** An extra ring drawn behind the main cursor: its top-left corner and its side. */
  datatype Ring = Ring(corner: Position, side: int)

  datatype CursorView = CursorView(
    target: Position,          // where the main cursor's top-left corner is animated to
    size: Size,
    spring: Spring,
    body: Body,
    caption: Option<string>,   // the caption box inside the crosshair
    trailing: Option<Ring>,    // the 12 px trailing dot
    pulse: Option<Ring>)       // the 60 px pulsing ring

  function Render(variant: CursorVariant, text: string, pos: Position): (v: CursorView)
    ensures v.size == CursorSize(variant)
    ensures 2 * (pos.x - v.target.x) == v.size.width && 2 * (pos.y - v.target.y) == v.size.height
    ensures v.body == Sniper <==> IsInteractive(variant)
    ensures v.spring == if IsInteractive(variant) then Spring(15, 300) else Spring(20, 400)
    ensures v.trailing.Some? <==> v.body == Blob
    ensures v.pulse.Some? <==> v.body == Sniper
    ensures v.caption.Some? <==> variant == Link && text != ""
    ensures v.caption.Some? ==> v.caption.value == text
    ensures v.trailing.Some? ==> v.trailing.value == Ring(Position(pos.x - 6, pos.y - 6), 12)
    ensures v.pulse.Some? ==> v.pulse.value == Ring(Position(pos.x - 30, pos.y - 30), 60)
  {
    var size := CursorSize(variant);
    var interactive := IsInteractive(variant);
    CursorView(
      Position(pos.x - size.width / 2, pos.y - size.height / 2),
      size,
      if interactive then Spring(15, 300) else Spring(20, 400),
      if interactive then Sniper else Blob,
      if interactive && variant == Link && text != "" then Some(text) else None,
      if interactive then None else Some(Ring(Position(pos.x - 6, pos.y - 6), 12)),
      if interactive then Some(Ring(Position(pos.x - 30, pos.y - 30), 60)) else None)
  }

  /** Every preset is square and has an even side, so the cursor is centred on the pointer exactly. */
  lemma SizePresets(variant: CursorVariant)
    ensures CursorSize(variant).width == CursorSize(variant).height
    ensures CursorSize(variant).width % 2 == 0
    ensures CursorSize(variant).width in {8, 20, 50}
  {
  }

  /** The large preset belongs exactly to the interactive variants. */
  lemma LargeIffInteractive(variant: CursorVariant)
    ensures CursorSize(variant).width == 50 <==> IsInteractive(variant)
  {
  }

  /** `'hidden'` does not hide anything: it renders exactly like `'default'`. */
  lemma HiddenRendersAsDefault(text: string, pos: Position)
    ensures Render(Hidden, text, pos) == Render(Default, text, pos)
    ensures Render(Hidden, text, pos).size == Size(20, 20)
  {
  }

  /** A button never shows its caption, whatever the caption is. */
  lemma ButtonHasNoCaption(text: string, pos: Position)
    ensures Render(Button, text, pos).caption == None
  {
  }

  /** The softer spring belongs exactly to the interactive variants. */
  lemma SpringPresets(variant: CursorVariant, text: string, pos: Position)
    ensures var s := Render(variant, text, pos).spring;
      (s == Spring(15, 300) <==> IsInteractive(variant)) &&
      (s == Spring(20, 400) <==> !IsInteractive(variant))
  {
  }
}
