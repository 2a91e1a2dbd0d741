/** Fixed geometry of the switch: the control's frame, where the knob sits
    for each value, the alphas of the on/off images and labels, and the rule
    that turns a touch position into a side. All lengths are in points. */
module Geometry {

  /** The control's fixed frame (initialFrame), 61 x 22. */
  const Width: real := 61.0
  const Height: real := 22.0

  /** The knob is laid out as wide as the control is high. */
  const KnobWidth: real := Height

  /** Left inset of the knob when the switch shows off. */
  const OffInset: real := 1.0

  /** A rectangle: origin and size. */
  datatype Frame = Frame(x: real, y: real, width: real, height: real)

  /** The frame the knob view is created with, before its first layout. */
  const InitialKnob: Frame := Frame(0.5, 0.5, Height - 2.0, Height - 2.0)

  /** Horizontal origin of the knob when the switch shows `value`: the knob
      always lies inside the control, and it touches the right edge exactly
      when the switch shows on. */
  function KnobX(value: bool): (x: real)
    ensures 0.0 <= x && x + KnobWidth <= Width
    ensures value <==> x + KnobWidth == Width
    ensures !value ==> x == OffInset
  {
    if value then Width - KnobWidth else OffInset
  }

  /** The knob frame after a layout for `value` from frame `current`: the
      knob moves to its side and takes its layout width, and keeps its
      vertical position and height. */
  function LaidOutKnob(value: bool, current: Frame): (f: Frame)
    ensures f.x == KnobX(value) && (!value ==> f.x == OffInset)
    ensures f.y == current.y && f.height == current.height
    ensures f.width == KnobWidth
    ensures 0.0 <= f.x && f.x + f.width <= Width
    ensures value <==> f.x + f.width == Width
  {
    Frame(KnobX(value), current.y, KnobWidth, current.height)
  }

  /** Alpha of the on image and the on label when the switch shows `value`:
      fully visible exactly when it shows on, transparent otherwise. */
  function OnAlpha(value: bool): (a: real)
    ensures a == 1.0 <==> value
    ensures a == 0.0 <==> !value
  {
    if value then 1.0 else 0.0
  }

  /** Alpha of the off image and the off label: the complement of the on one. */
  function OffAlpha(value: bool): (a: real)
    ensures a + OnAlpha(value) == 1.0
    ensures a == OnAlpha(!value)
  {
    if value then 0.0 else 1.0
  }

  /** A touch at horizontal position `x` (in the control's coordinates)
      selects the on side when it lies right of the middle; the middle itself
      selects off. */
  predicate MovedToOn(x: real)
  {
    x > Width * 0.5
  }
}
