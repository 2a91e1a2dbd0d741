/** Colours and the rendered layers of the switch, shared by both revisions. */
module Style {
  import opened Geometry

  /** A colour is an opaque token. The named ones are the stock colours the
      switch uses as defaults; any other colour a client sets is `Custom`. */
  datatype Color = Clear | LightGray | Gray | DarkGray | Green | White | Blue | Custom(id: nat)

  /** What the background view shows: its fill, its border and its corners. */
  datatype BackgroundLayer = BackgroundLayer(
    fill: Color,
    borderColor: Color,
    borderWidth: real,
    cornerRadius: real)

  /** What the knob view shows besides its border shape: its frame, its
      corners and its shadow colour. */
  datatype ThumbLayer = ThumbLayer(
    frame: Frame,
    cornerRadius: real,
    shadowColor: Color)

  /** The shape layer drawn on the knob ("arc"): its stroke and fill. */
  datatype Arc = Arc(
    strokeColor: Color,
    fillColor: Color,
    lineWidth: real,
    shadowColor: Color)

  /** The control's style properties. Each is a separate property of the
      control whose setter re-renders the views it affects. */
  datatype SwitchStyle = SwitchStyle(
    backgroundBorderOnColor: Color,
    backgroundBorderOffColor: Color,
    backgroundOnColor: Color,
    backgroundOffColor: Color,
    thumbOffColor: Color,
    thumbOnColor: Color,
    thumbBorderOnColor: Color,
    thumbBorderOffColor: Color,
    thumbShadowColor: Color,
    isRounded: bool,
    thumbBorderWidth: real,
    backgroundBorderWidth: real)

  /** The properties' initial values. */
  const DefaultStyle: SwitchStyle := SwitchStyle(
    LightGray, Clear, Green, LightGray, LightGray, White, DarkGray, DarkGray, Gray, true, 6.0, 5.0)

  /** What setupBackground draws when the committed value is `on`: the on
      fill and border exactly when `on` (distinguishable whenever the on and
      off colours differ), with the current border width and corner shape. */
  function BackgroundFor(on: bool, st: SwitchStyle): (b: BackgroundLayer)
    ensures st.backgroundOnColor != st.backgroundOffColor ==> (b.fill == st.backgroundOnColor <==> on)
    ensures st.backgroundBorderOnColor != st.backgroundBorderOffColor ==>
              (b.borderColor == st.backgroundBorderOnColor <==> on)
    ensures on ==> b.fill == st.backgroundOnColor && b.borderColor == st.backgroundBorderOnColor
    ensures !on ==> b.fill == st.backgroundOffColor && b.borderColor == st.backgroundBorderOffColor
    ensures b.borderWidth == st.backgroundBorderWidth
    ensures b.cornerRadius == BackgroundCornerRadius(st.isRounded)
  {
    BackgroundLayer(
      if on then st.backgroundOnColor else st.backgroundOffColor,
      if on then st.backgroundBorderOnColor else st.backgroundBorderOffColor,
      st.backgroundBorderWidth,
      BackgroundCornerRadius(st.isRounded))
  }

  /** What setupThumb draws on the knob's shape layer: the on colours when
      `lit`, the off colours otherwise, with the given shadow colour. */
  function ArcFor(lit: bool, st: SwitchStyle, shadow: Color): (a: Arc)
    ensures st.thumbOnColor != st.thumbOffColor ==> (a.fillColor == st.thumbOnColor <==> lit)
    ensures st.thumbBorderOnColor != st.thumbBorderOffColor ==> (a.strokeColor == st.thumbBorderOnColor <==> lit)
    ensures lit ==> a.fillColor == st.thumbOnColor && a.strokeColor == st.thumbBorderOnColor
    ensures !lit ==> a.fillColor == st.thumbOffColor && a.strokeColor == st.thumbBorderOffColor
    ensures a.lineWidth == st.thumbBorderWidth && a.shadowColor == shadow
  {
    Arc(
      if lit then st.thumbBorderOnColor else st.thumbBorderOffColor,
      if lit then st.thumbOnColor else st.thumbOffColor,
      st.thumbBorderWidth,
      shadow)
  }

  /** Corner radius of a square (not rounded) switch, background and knob. */
  const SquareCornerRadius: real := 2.0

  /** Corner radius of the background: a rounded switch has half-circle ends,
      a square one small fixed corners. */
  function BackgroundCornerRadius(rounded: bool): (r: real)
    ensures rounded ==> 2.0 * r == Height
    ensures !rounded ==> r == SquareCornerRadius
  {
    if rounded then Height * 0.5 else SquareCornerRadius
  }

  /** Corner radius of the knob: for a rounded switch it is half the knob's
      height, for a square one small fixed corners. */
  function KnobCornerRadius(rounded: bool): (r: real)
    ensures rounded ==> 2.0 * r == InitialKnob.height
    ensures rounded ==> r == BackgroundCornerRadius(true) - 1.0
    ensures !rounded ==> r == SquareCornerRadius
  {
    if rounded then Height * 0.5 - 1.0 else SquareCornerRadius
  }
}
