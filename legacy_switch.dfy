/** The earlier revision of the switch control (FRSwitch/FRSwitch.swift).
    Its state machine differs from the pod's in one place: a tap sends no
    valueChanged. Besides, its knob colours ignore the enabled flag, its knob
    view is painted blue, `isRounded` reshapes the corners itself in a willSet
    observer, and `thumbShadowColor` re-renders in a willSet observer, before
    the new colour is stored. Each event method moves `Machine()` exactly as
    `SwitchMachine.Step(Legacy, ..)` says and keeps `Valid()`. */
module LegacySwitch {
  import opened Geometry
  import opened Style
  import opened SwitchMachine

  class FRSwitch {
    /** The committed value, read through `on` and `isOn`. */
    var switchValue: bool
    /** The value the knob shows; it differs from the committed value only during a drag. */
    var currentVisualValue: bool
    /** How many valueChanged actions the control has sent. */
    var valueChangedCount: nat

    /** The style properties. */
    var style: SwitchStyle

    // What the views show.
    var backgroundView: BackgroundLayer
    var thumbView: ThumbLayer
    var thumbBackgroundColor: Color
    var arc: Arc
    var onImageAlpha: real
    var offImageAlpha: real
    var onLabelAlpha: real
    var offLabelAlpha: real

    /** The state-machine view of the control. */
    function Machine(): SwitchMachine.State
      reads this
    {
      SwitchMachine.State(switchValue, currentVisualValue, valueChangedCount)
    }

    /** The background shows the colours of the committed value (not of the
        visual one), with the current border width and corner shape. */
    predicate BackgroundRendered()
      reads this
    {
      backgroundView == BackgroundFor(switchValue, style)
    }

    /** The knob view is blue with the current corner shape, and its arc
        shows the on colours exactly while the switch is on (the enabled flag
        plays no part), with the knob view's shadow colour. */
    predicate ThumbRendered()
      reads this
    {
      thumbView.cornerRadius == KnobCornerRadius(style.isRounded) &&
      thumbBackgroundColor == Blue &&
      arc == ArcFor(switchValue, style, thumbView.shadowColor)
    }

    /** The knob's shadow shows the current `thumbShadowColor`. Kept out of
        `Valid()` because the thumbShadowColor setter as written breaks it. */
    predicate ShadowRendered()
      reads this
    {
      thumbView.shadowColor == style.thumbShadowColor
    }

    /** The knob stays on its track: the vertical position and height it was created with. */
    predicate KnobOnTrack()
      reads this
    {
      thumbView.frame.y == InitialKnob.y && thumbView.frame.height == InitialKnob.height
    }

    /** The knob position and the image and label alphas show the visual value. */
    predicate LayoutRendered()
      reads this
    {
      thumbView.frame == LaidOutKnob(currentVisualValue, InitialKnob) &&
      onImageAlpha == OnAlpha(currentVisualValue) &&
      offImageAlpha == OffAlpha(currentVisualValue) &&
      onLabelAlpha == OnAlpha(currentVisualValue) &&
      offLabelAlpha == OffAlpha(currentVisualValue)
    }

    predicate Valid()
      reads this
    {
      BackgroundRendered() && ThumbRendered() && LayoutRendered()
    }

    /** init(frame:) followed by setup(): default style, views set up, `on = false`. */
    constructor ()
      ensures Valid() && ShadowRendered()
      ensures Machine() == SwitchMachine.State(false, false, 0)
      ensures thumbView.frame == Frame(1.0, 0.5, 22.0, 20.0)
      ensures style == DefaultStyle
    {
      switchValue := false;
      currentVisualValue := false;
      valueChangedCount := 0;
      style := DefaultStyle;
      // freshly created views, before the setup routines style them
      backgroundView := BackgroundLayer(Clear, Clear, 0.0, 0.0);
      thumbView := ThumbLayer(InitialKnob, 0.0, Clear);
      thumbBackgroundColor := Clear;
      arc := Arc(Clear, Clear, 0.0, Clear);
      onImageAlpha := 1.0;
      offImageAlpha := 1.0;
      onLabelAlpha := 1.0;
      offLabelAlpha := 1.0;
      new;
      SetupBackground();
      SetupThumb();
      SetOnProperty(false);
    }

    /** The `on` getter. */
    function On(): (b: bool)
      reads this
      ensures b == Machine().on
    {
      switchValue
    }

    /** isOn reports the committed value, never the one the knob shows mid-drag. */
    function IsOn(): (b: bool)
      reads this
      ensures b == switchValue
    {
      On()
    }

    /** setupBackground: colours follow the committed value. */
    method SetupBackground()
      modifies this`backgroundView
      ensures BackgroundRendered()
    {
      backgroundView := backgroundView.(cornerRadius := BackgroundCornerRadius(style.isRounded));
      backgroundView := backgroundView.(borderWidth := style.backgroundBorderWidth);
      backgroundView := backgroundView.(fill :=
        if IsOn() then style.backgroundOnColor else style.backgroundOffColor);
      backgroundView := backgroundView.(borderColor :=
        if IsOn() then style.backgroundBorderOnColor else style.backgroundBorderOffColor);
    }

    /** setupThumb: the knob view turns blue and takes its corners and the
        current shadow colour; the arc takes the committed value's colours. */
    method SetupThumb()
      modifies this`thumbView, this`thumbBackgroundColor, this`arc
      ensures ThumbRendered() && ShadowRendered()
      ensures thumbView.frame == old(thumbView.frame)
    {
      thumbBackgroundColor := Blue;
      thumbView := thumbView.(cornerRadius := KnobCornerRadius(style.isRounded));
      thumbView := thumbView.(shadowColor := style.thumbShadowColor);
      arc := arc.(lineWidth := style.thumbBorderWidth);
      arc := arc.(strokeColor := if IsOn() then style.thumbBorderOnColor else style.thumbBorderOffColor);
      arc := arc.(fillColor := if IsOn() then style.thumbOnColor else style.thumbOffColor);
      arc := arc.(shadowColor := style.thumbShadowColor);
    }

    /** The four alpha assignments of setValueLayout: the on image and label
        are visible exactly when `value`, the off ones exactly when not. */
    method ShowSide(value: bool)
      modifies this`onImageAlpha, this`offImageAlpha, this`onLabelAlpha, this`offLabelAlpha
      ensures onImageAlpha == OnAlpha(value) && offImageAlpha == OffAlpha(value)
      ensures onLabelAlpha == OnAlpha(value) && offLabelAlpha == OffAlpha(value)
    {
      onImageAlpha := OnAlpha(value);
      offImageAlpha := OffAlpha(value);
      onLabelAlpha := OnAlpha(value);
      offLabelAlpha := OffAlpha(value);
    }

    /** setValueLayout: the knob moves to the side of `value` (animated or
        not, this is where it ends), keeping its vertical position and height;
        the on image and label become visible exactly when `value`, the off
        ones exactly when not; background and knob are re-rendered for the
        committed value; the knob shows `value`. */
    method SetValueLayout(value: bool, animated: bool)
      modifies this`thumbView, this`thumbBackgroundColor, this`arc, this`backgroundView, this`currentVisualValue
      modifies this`onImageAlpha, this`offImageAlpha, this`onLabelAlpha, this`offLabelAlpha
      ensures thumbView.frame == LaidOutKnob(value, old(thumbView.frame))
      ensures onImageAlpha == OnAlpha(value) && offImageAlpha == OffAlpha(value)
      ensures onLabelAlpha == OnAlpha(value) && offLabelAlpha == OffAlpha(value)
      ensures currentVisualValue == value
      ensures BackgroundRendered() && ThumbRendered() && ShadowRendered()
    {
      // animated or not, the knob ends at this frame
      var knob := LaidOutKnob(value, thumbView.frame);
      thumbView := thumbView.(frame := knob);

      SetupBackground();
      SetupThumb();
      ShowSide(value);

      currentVisualValue := value;
    }

    /** setOn(_:animated:): commits and shows `isOn`, silently. */
    method SetOn(isOn: bool, animated: bool)
      requires KnobOnTrack()
      modifies this`switchValue, this`thumbView, this`thumbBackgroundColor, this`arc, this`backgroundView, this`currentVisualValue
      modifies this`onImageAlpha, this`offImageAlpha, this`onLabelAlpha, this`offLabelAlpha
      ensures Valid() && ShadowRendered()
      ensures Machine() == Step(Legacy, old(Machine()), Event.SetOn(isOn))
      ensures On() == isOn && currentVisualValue == isOn
      ensures valueChangedCount == old(valueChangedCount)
      ensures thumbView.frame.x == KnobX(isOn)
    {
      switchValue := isOn;
      SetValueLayout(On(), animated);
    }

    /** The `on` setter: the same as setOn(newValue, animated: false). */
    method SetOnProperty(newValue: bool)
      requires KnobOnTrack()
      modifies this`switchValue, this`thumbView, this`thumbBackgroundColor, this`arc, this`backgroundView, this`currentVisualValue
      modifies this`onImageAlpha, this`offImageAlpha, this`onLabelAlpha, this`offLabelAlpha
      ensures Valid() && ShadowRendered()
      ensures Machine() == Step(Legacy, old(Machine()), Event.SetOn(newValue))
      ensures On() == newValue && currentVisualValue == newValue
      ensures valueChangedCount == old(valueChangedCount)
      ensures thumbView.frame.x == KnobX(newValue)
    {
      switchValue := newValue;
      SetOn(newValue, false);
    }

    /** sendActions(for: .valueChanged). */
    method SendValueChanged()
      modifies this`valueChangedCount
      ensures valueChangedCount == old(valueChangedCount) + 1
    {
      valueChangedCount := valueChangedCount + 1;
    }

    /** continueTracking: the knob follows the touch to the side it is on
        (right of the middle is on); the committed value never changes,
        nothing is sent, the background and the knob keep the committed
        value's colours, and nothing is re-laid out unless the side changed.
        Always asks to keep tracking. */
    method ContinueTracking(x: real) returns (keepTracking: bool)
      requires Valid()
      modifies this`thumbView, this`thumbBackgroundColor, this`arc, this`backgroundView, this`currentVisualValue
      modifies this`onImageAlpha, this`offImageAlpha, this`onLabelAlpha, this`offLabelAlpha
      ensures Valid()
      ensures Machine() == Step(Legacy, old(Machine()), Move(x))
      ensures currentVisualValue == MovedToOn(x) && On() == old(On())
      ensures old(currentVisualValue) != MovedToOn(x) ==> ShadowRendered()
      ensures old(ShadowRendered()) ==> ShadowRendered()
      ensures backgroundView == old(backgroundView)
      ensures arc.fillColor == old(arc.fillColor) && arc.strokeColor == old(arc.strokeColor)
      ensures old(currentVisualValue) == MovedToOn(x) ==> unchanged(this)
      ensures keepTracking
    {
      var isMovedToOn := MovedToOn(x);
      if (currentVisualValue && !isMovedToOn) || (!currentVisualValue && isMovedToOn) {
        SetValueLayout(isMovedToOn, true);
      }
      return true;
    }

    /** endTracking: when the knob shows the other side, the value flips to
        it and exactly one valueChanged is sent; otherwise nothing happens.
        Either way the knob and the committed value agree afterwards. */
    method EndTracking()
      requires Valid()
      modifies this`switchValue, this`valueChangedCount
      modifies this`thumbView, this`thumbBackgroundColor, this`arc, this`backgroundView, this`currentVisualValue
      modifies this`onImageAlpha, this`offImageAlpha, this`onLabelAlpha, this`offLabelAlpha
      ensures Valid()
      ensures Machine() == Step(Legacy, old(Machine()), End)
      ensures On() == old(currentVisualValue) && currentVisualValue == On()
      ensures old(currentVisualValue) != old(On()) ==> valueChangedCount == old(valueChangedCount) + 1
      ensures old(currentVisualValue) != old(On()) ==> ShadowRendered()
      ensures old(ShadowRendered()) ==> ShadowRendered()
      ensures old(currentVisualValue) == old(On()) ==> unchanged(this)
    {
      if currentVisualValue != On() {
        SetOn(!On(), true);
        SendValueChanged();
      }
    }

    /** cancelTracking: the knob goes back to the committed value, which does
        not change, and nothing is sent. */
    method CancelTracking()
      requires Valid()
      modifies this`thumbView, this`thumbBackgroundColor, this`arc, this`backgroundView, this`currentVisualValue
      modifies this`onImageAlpha, this`offImageAlpha, this`onLabelAlpha, this`offLabelAlpha
      ensures Valid() && ShadowRendered()
      ensures Machine() == Step(Legacy, old(Machine()), Cancel)
      ensures On() == old(On()) && currentVisualValue == On()
      ensures valueChangedCount == old(valueChangedCount)
    {
      SetValueLayout(On(), true);
    }

    /** switchTapped: the value flips, and no valueChanged is sent. */
    method SwitchTapped()
      requires Valid()
      modifies this`switchValue
      modifies this`thumbView, this`thumbBackgroundColor, this`arc, this`backgroundView, this`currentVisualValue
      modifies this`onImageAlpha, this`offImageAlpha, this`onLabelAlpha, this`offLabelAlpha
      ensures Valid() && ShadowRendered()
      ensures Machine() == Step(Legacy, old(Machine()), Tap)
      ensures On() == !old(On()) && currentVisualValue == On()
      ensures valueChangedCount == old(valueChangedCount)
    {
      SetOn(!On(), true);
    }

    /** isRounded (a willSet observer): the corners of the background and
        the knob are reshaped from the new value directly, to radii 11 and 10
        when rounded and 2 and 2 when square; nothing else is re-rendered. */
    method SetRounded(newValue: bool)
      requires Valid()
      modifies this`style, this`backgroundView, this`thumbView
      ensures Valid() && style == old(style).(isRounded := newValue)
      ensures Machine() == old(Machine())
      ensures backgroundView.cornerRadius == if newValue then 11.0 else 2.0
      ensures thumbView.cornerRadius == if newValue then 10.0 else 2.0
    {
      if newValue {
        backgroundView := backgroundView.(cornerRadius := Height * 0.5);
        thumbView := thumbView.(cornerRadius := Height * 0.5 - 1.0);
      } else {
        backgroundView := backgroundView.(cornerRadius := 2.0);
        thumbView := thumbView.(cornerRadius := 2.0);
      }
      style := style.(isRounded := newValue);
    }

    method SetBackgroundBorderOnColor(color: Color)
      requires Valid()
      modifies this`style, this`backgroundView
      ensures Valid() && style == old(style).(backgroundBorderOnColor := color)
      ensures Machine() == old(Machine())
      ensures On() ==> backgroundView.borderColor == color
    {
      style := style.(backgroundBorderOnColor := color);
      SetupBackground();
    }

    method SetBackgroundBorderOffColor(color: Color)
      requires Valid()
      modifies this`style, this`backgroundView
      ensures Valid() && style == old(style).(backgroundBorderOffColor := color)
      ensures Machine() == old(Machine())
      ensures !On() ==> backgroundView.borderColor == color
    {
      style := style.(backgroundBorderOffColor := color);
      SetupBackground();
    }

    method SetBackgroundOnColor(color: Color)
      requires Valid()
      modifies this`style, this`backgroundView
      ensures Valid() && style == old(style).(backgroundOnColor := color)
      ensures Machine() == old(Machine())
      ensures On() ==> backgroundView.fill == color
    {
      style := style.(backgroundOnColor := color);
      SetupBackground();
    }

    method SetBackgroundOffColor(color: Color)
      requires Valid()
      modifies this`style, this`backgroundView
      ensures Valid() && style == old(style).(backgroundOffColor := color)
      ensures Machine() == old(Machine())
      ensures !On() ==> backgroundView.fill == color
    {
      style := style.(backgroundOffColor := color);
      SetupBackground();
    }

    method SetThumbOffColor(color: Color)
      requires Valid()
      modifies this`style, this`thumbView, this`thumbBackgroundColor, this`arc
      ensures Valid() && ShadowRendered() && style == old(style).(thumbOffColor := color)
      ensures Machine() == old(Machine())
      ensures !On() ==> arc.fillColor == color
    {
      style := style.(thumbOffColor := color);
      SetupThumb();
    }

    method SetThumbOnColor(color: Color)
      requires Valid()
      modifies this`style, this`thumbView, this`thumbBackgroundColor, this`arc
      ensures Valid() && ShadowRendered() && style == old(style).(thumbOnColor := color)
      ensures Machine() == old(Machine())
      ensures On() ==> arc.fillColor == color
    {
      style := style.(thumbOnColor := color);
      SetupThumb();
    }

    method SetThumbBorderOnColor(color: Color)
      requires Valid()
      modifies this`style, this`thumbView, this`thumbBackgroundColor, this`arc
      ensures Valid() && ShadowRendered() && style == old(style).(thumbBorderOnColor := color)
      ensures Machine() == old(Machine())
      ensures On() ==> arc.strokeColor == color
    {
      style := style.(thumbBorderOnColor := color);
      SetupThumb();
    }

    method SetThumbBorderOffColor(color: Color)
      requires Valid()
      modifies this`style, this`thumbView, this`thumbBackgroundColor, this`arc
      ensures Valid() && ShadowRendered() && style == old(style).(thumbBorderOffColor := color)
      ensures Machine() == old(Machine())
      ensures !On() ==> arc.strokeColor == color
    {
      style := style.(thumbBorderOffColor := color);
      SetupThumb();
    }

    /** thumbShadowColor as written: a willSet observer re-renders the knob
        while the property still holds the old colour, so the knob goes on
        showing the previous shadow colour. */
    method SetThumbShadowColorAsWritten(newValue: Color)
      requires Valid()
      modifies this`style, this`thumbView, this`thumbBackgroundColor, this`arc
      ensures Valid() && style == old(style).(thumbShadowColor := newValue)
      ensures Machine() == old(Machine())
      ensures thumbView.shadowColor == old(style.thumbShadowColor)
      ensures arc.shadowColor == old(style.thumbShadowColor)
      ensures newValue != old(style.thumbShadowColor) ==> !ShadowRendered()
    {
      SetupThumb();
      style := style.(thumbShadowColor := newValue);
    }

    /** thumbShadowColor as evidently intended (the pod revision's didSet):
        store the colour first, then re-render, so the knob shows it. */
    method SetThumbShadowColor(newValue: Color)
      requires Valid()
      modifies this`style, this`thumbView, this`thumbBackgroundColor, this`arc
      ensures Valid() && ShadowRendered() && style == old(style).(thumbShadowColor := newValue)
      ensures Machine() == old(Machine())
      ensures thumbView.shadowColor == newValue && arc.shadowColor == newValue
    {
      style := style.(thumbShadowColor := newValue);
      SetupThumb();
    }

    /** thumbBorderWidth: the arc's line width. */
    method SetThumbBorderWidth(width: real)
      requires Valid()
      modifies this`style, this`arc
      ensures Valid() && style == old(style).(thumbBorderWidth := width)
      ensures Machine() == old(Machine())
      ensures arc.lineWidth == width
    {
      style := style.(thumbBorderWidth := width);
      arc := arc.(lineWidth := style.thumbBorderWidth);
    }

    /** backgroundBorderWidth: the background layer's border width. */
    method SetBackgroundBorderWidth(width: real)
      requires Valid()
      modifies this`style, this`backgroundView
      ensures Valid() && style == old(style).(backgroundBorderWidth := width)
      ensures Machine() == old(Machine())
      ensures backgroundView.borderWidth == width
    {
      style := style.(backgroundBorderWidth := width);
      backgroundView := backgroundView.(borderWidth := style.backgroundBorderWidth);
    }
  }

  /** The thumbShadowColor setter as written leaves the knob showing the old
      shadow colour: on a fresh switch (shadow gray), setting a custom colour
      stores it while the knob still shows gray. */
  method StaleShadowWitness() returns (stored: Color, shown: Color)
    ensures stored == Custom(1) && shown == Gray
  {
    var sw := new FRSwitch();
    sw.SetThumbShadowColorAsWritten(Custom(1));
    stored, shown := sw.style.thumbShadowColor, sw.thumbView.shadowColor;
  }

  /** With the setter re-rendering after the store, the same sequence shows
      the colour that was stored. */
  method FreshShadowWitness() returns (stored: Color, shown: Color)
    ensures stored == Custom(1) && shown == stored
  {
    var sw := new FRSwitch();
    sw.SetThumbShadowColor(Custom(1));
    stored, shown := sw.style.thumbShadowColor, sw.thumbView.shadowColor;
  }
}
