/** The switch control as released in the pod (FRSwitch/Classes/FRSwitch.swift).
    Fields are the control's state and what its views show; methods are the
    property setters and the touch callbacks. Each event method moves
    `Machine()` exactly as `SwitchMachine.Step(Pod, ..)` says and keeps the
    views consistent with the state (`Valid()`). */
module PodSwitch {
  import opened Geometry
  import opened Style
  import opened SwitchMachine

  class FRSwitch {
    /** The committed value, read through `on` and `isOn`. */
    var switchValue: bool
    /** The value the knob shows; it differs from the committed value only during a drag. */
    var currentVisualValue: bool
    /** How many valueChanged actions the control has sent. */
    var valueChangedCount: nat

    /** The style properties. */
    var style: SwitchStyle
    /** The control's enabled flag (inherited, observed here with didSet). */
    var isEnabled: bool

    // What the views show.
    var backgroundView: BackgroundLayer
    var thumbView: ThumbLayer
    var arc: Arc
    var onImageAlpha: real
    var offImageAlpha: real
    var onLabelAlpha: real
    var offLabelAlpha: real

    /** The state-machine view of the control. */
    function Machine(): SwitchMachine.State
      reads this
    {
      SwitchMachine.State(switchValue, currentVisualValue, valueChangedCount)
    }

    /** The background shows the colours of the committed value (not of the
        visual one), with the current border width and corner shape. */
    predicate BackgroundRendered()
      reads this
    {
      backgroundView == BackgroundFor(switchValue, style)
    }

    /** The knob has the current corner shape and shadow, and shows the on
        colours only while the switch is on and enabled. */
    predicate ThumbRendered()
      reads this
    {
      thumbView.cornerRadius == KnobCornerRadius(style.isRounded) &&
      thumbView.shadowColor == style.thumbShadowColor &&
      arc == ArcFor(switchValue && isEnabled, style, style.thumbShadowColor)
    }

    /** The knob stays on its track: the vertical position and height it was created with. */
    predicate KnobOnTrack()
      reads this
    {
      thumbView.frame.y == InitialKnob.y && thumbView.frame.height == InitialKnob.height
    }

    /** The knob position and the image and label alphas show the visual value. */
    predicate LayoutRendered()
      reads this
    {
      thumbView.frame == LaidOutKnob(currentVisualValue, InitialKnob) &&
      onImageAlpha == OnAlpha(currentVisualValue) &&
      offImageAlpha == OffAlpha(currentVisualValue) &&
      onLabelAlpha == OnAlpha(currentVisualValue) &&
      offLabelAlpha == OffAlpha(currentVisualValue)
    }

    predicate Valid()
      reads this
    {
      BackgroundRendered() && ThumbRendered() && LayoutRendered()
    }

    /** init(frame:) followed by setup(): default style, views set up, `on = false`. */
    constructor ()
      ensures Valid()
      ensures Machine() == SwitchMachine.State(false, false, 0)
      ensures thumbView.frame == Frame(1.0, 0.5, 22.0, 20.0)
      ensures style == DefaultStyle && isEnabled
    {
      switchValue := false;
      currentVisualValue := false;
      valueChangedCount := 0;
      style := DefaultStyle;
      isEnabled := true;
      // freshly created views, before the setup routines style them
      backgroundView := BackgroundLayer(Clear, Clear, 0.0, 0.0);
      thumbView := ThumbLayer(InitialKnob, 0.0, Clear);
      arc := Arc(Clear, Clear, 0.0, Clear);
      onImageAlpha := 1.0;
      offImageAlpha := 1.0;
      onLabelAlpha := 1.0;
      offLabelAlpha := 1.0;
      new;
      SetupBackground();
      SetupThumb();
      SetOnProperty(false);
    }

    /** The `on` getter. */
    function On(): (b: bool)
      reads this
      ensures b == Machine().on
    {
      switchValue
    }

    /** isOn reports the committed value, never the one the knob shows mid-drag. */
    function IsOn(): (b: bool)
      reads this
      ensures b == switchValue
    {
      On()
    }

    /** setupBackground: colours follow the committed value. */
    method SetupBackground()
      modifies this`backgroundView
      ensures BackgroundRendered()
    {
      backgroundView := backgroundView.(cornerRadius := BackgroundCornerRadius(style.isRounded));
      backgroundView := backgroundView.(borderWidth := style.backgroundBorderWidth);
      backgroundView := backgroundView.(fill :=
        if IsOn() then style.backgroundOnColor else style.backgroundOffColor);
      backgroundView := backgroundView.(borderColor :=
        if IsOn() then style.backgroundBorderOnColor else style.backgroundBorderOffColor);
    }

    /** setupThumb: knob corners and shadow, and the arc's colours, which
        follow the committed value and the enabled flag. */
    method SetupThumb()
      modifies this`thumbView, this`arc
      ensures ThumbRendered()
      ensures thumbView.frame == old(thumbView.frame)
    {
      thumbView := thumbView.(cornerRadius := KnobCornerRadius(style.isRounded));
      thumbView := thumbView.(shadowColor := style.thumbShadowColor);
      arc := arc.(lineWidth := style.thumbBorderWidth);
      arc := arc.(strokeColor :=
        if IsOn() && isEnabled then style.thumbBorderOnColor else style.thumbBorderOffColor);
      arc := arc.(fillColor := if IsOn() && isEnabled then style.thumbOnColor else style.thumbOffColor);
      arc := arc.(shadowColor := style.thumbShadowColor);
    }

    /** The four alpha assignments of setValueLayout: the on image and label
        are visible exactly when `value`, the off ones exactly when not. */
    method ShowSide(value: bool)
      modifies this`onImageAlpha, this`offImageAlpha, this`onLabelAlpha, this`offLabelAlpha
      ensures onImageAlpha == OnAlpha(value) && offImageAlpha == OffAlpha(value)
      ensures onLabelAlpha == OnAlpha(value) && offLabelAlpha == OffAlpha(value)
    {
      onImageAlpha := OnAlpha(value);
      offImageAlpha := OffAlpha(value);
      onLabelAlpha := OnAlpha(value);
      offLabelAlpha := OffAlpha(value);
    }

    /** setValueLayout: the knob moves to the side of `value` (animated or
        not, this is where it ends), keeping its vertical position and height;
        the on image and label become visible exactly when `value`, the off
        ones exactly when not; background and knob are re-rendered for the
        committed value; the knob shows `value`. */
    method SetValueLayout(value: bool, animated: bool)
      modifies this`thumbView, this`arc, this`backgroundView, this`currentVisualValue
      modifies this`onImageAlpha, this`offImageAlpha, this`onLabelAlpha, this`offLabelAlpha
      ensures thumbView.frame == LaidOutKnob(value, old(thumbView.frame))
      ensures onImageAlpha == OnAlpha(value) && offImageAlpha == OffAlpha(value)
      ensures onLabelAlpha == OnAlpha(value) && offLabelAlpha == OffAlpha(value)
      ensures currentVisualValue == value
      ensures BackgroundRendered() && ThumbRendered()
    {
      // animated or not, the knob ends at this frame
      var knob := LaidOutKnob(value, thumbView.frame);
      thumbView := thumbView.(frame := knob);

      SetupBackground();
      SetupThumb();
      ShowSide(value);

      currentVisualValue := value;
    }

    /** setOn(_:animated:): commits and shows `isOn`, silently. */
    method SetOn(isOn: bool, animated: bool)
      requires KnobOnTrack()
      modifies this`switchValue, this`thumbView, this`arc, this`backgroundView, this`currentVisualValue
      modifies this`onImageAlpha, this`offImageAlpha, this`onLabelAlpha, this`offLabelAlpha
      ensures Valid()
      ensures Machine() == Step(Pod, old(Machine()), Event.SetOn(isOn))
      ensures On() == isOn && currentVisualValue == isOn
      ensures valueChangedCount == old(valueChangedCount)
      ensures thumbView.frame.x == KnobX(isOn)
    {
      switchValue := isOn;
      SetValueLayout(On(), animated);
    }

    /** The `on` setter: the same as setOn(newValue, animated: false). */
    method SetOnProperty(newValue: bool)
      requires KnobOnTrack()
      modifies this`switchValue, this`thumbView, this`arc, this`backgroundView, this`currentVisualValue
      modifies this`onImageAlpha, this`offImageAlpha, this`onLabelAlpha, this`offLabelAlpha
      ensures Valid()
      ensures Machine() == Step(Pod, old(Machine()), Event.SetOn(newValue))
      ensures On() == newValue && currentVisualValue == newValue
      ensures valueChangedCount == old(valueChangedCount)
      ensures thumbView.frame.x == KnobX(newValue)
    {
      switchValue := newValue;
      SetOn(newValue, false);
    }

    /** sendActions(for: .valueChanged). */
    method SendValueChanged()
      modifies this`valueChangedCount
      ensures valueChangedCount == old(valueChangedCount) + 1
    {
      valueChangedCount := valueChangedCount + 1;
    }

    /** continueTracking: the knob follows the touch to the side it is on
        (right of the middle is on); the committed value never changes,
        nothing is sent, the background and the knob keep the committed
        value's colours, and nothing is re-laid out unless the side changed.
        Always asks to keep tracking. */
    method ContinueTracking(x: real) returns (keepTracking: bool)
      requires Valid()
      modifies this`thumbView, this`arc, this`backgroundView, this`currentVisualValue
      modifies this`onImageAlpha, this`offImageAlpha, this`onLabelAlpha, this`offLabelAlpha
      ensures Valid()
      ensures Machine() == Step(Pod, old(Machine()), Move(x))
      ensures currentVisualValue == MovedToOn(x) && On() == old(On())
      ensures backgroundView == old(backgroundView) && arc == old(arc)
      ensures old(currentVisualValue) == MovedToOn(x) ==> unchanged(this)
      ensures keepTracking
    {
      var isMovedToOn := MovedToOn(x);
      if (currentVisualValue && !isMovedToOn) || (!currentVisualValue && isMovedToOn) {
        SetValueLayout(isMovedToOn, true);
      }
      return true;
    }

    /** endTracking: when the knob shows the other side, the value flips to
        it and exactly one valueChanged is sent; otherwise nothing happens.
        Either way the knob and the committed value agree afterwards. */
    method EndTracking()
      requires Valid()
      modifies this`switchValue, this`valueChangedCount
      modifies this`thumbView, this`arc, this`backgroundView, this`currentVisualValue
      modifies this`onImageAlpha, this`offImageAlpha, this`onLabelAlpha, this`offLabelAlpha
      ensures Valid()
      ensures Machine() == Step(Pod, old(Machine()), End)
      ensures On() == old(currentVisualValue) && currentVisualValue == On()
      ensures old(currentVisualValue) != old(On()) ==> valueChangedCount == old(valueChangedCount) + 1
      ensures old(currentVisualValue) == old(On()) ==> unchanged(this)
    {
      if currentVisualValue != On() {
        SetOn(!On(), true);
        SendValueChanged();
      }
    }

    /** cancelTracking: the knob goes back to the committed value, which does
        not change, and nothing is sent. */
    method CancelTracking()
      requires Valid()
      modifies this`thumbView, this`arc, this`backgroundView, this`currentVisualValue
      modifies this`onImageAlpha, this`offImageAlpha, this`onLabelAlpha, this`offLabelAlpha
      ensures Valid()
      ensures Machine() == Step(Pod, old(Machine()), Cancel)
      ensures On() == old(On()) && currentVisualValue == On()
      ensures valueChangedCount == old(valueChangedCount)
    {
      SetValueLayout(On(), true);
    }

    /** switchTapped: the value flips and exactly one valueChanged is sent. */
    method SwitchTapped()
      requires Valid()
      modifies this`switchValue, this`valueChangedCount
      modifies this`thumbView, this`arc, this`backgroundView, this`currentVisualValue
      modifies this`onImageAlpha, this`offImageAlpha, this`onLabelAlpha, this`offLabelAlpha
      ensures Valid()
      ensures Machine() == Step(Pod, old(Machine()), Tap)
      ensures On() == !old(On()) && currentVisualValue == On()
      ensures valueChangedCount == old(valueChangedCount) + 1
    {
      SetOn(!On(), true);
      SendValueChanged();
    }

    /** isEnabled: a disabled switch draws its knob in the off colours even when on. */
    method SetEnabled(enabled: bool)
      requires Valid()
      modifies this`isEnabled, this`thumbView, this`arc
      ensures Valid() && isEnabled == enabled
      ensures Machine() == old(Machine())
      ensures arc.fillColor == if On() && enabled then style.thumbOnColor else style.thumbOffColor
      ensures arc.strokeColor == if On() && enabled then style.thumbBorderOnColor else style.thumbBorderOffColor
    {
      isEnabled := enabled;
      SetupThumb();
    }

    /** isRounded: corner radii 11 (background) and 10 (knob) when rounded,
        2 and 2 when square. */
    method SetRounded(rounded: bool)
      requires Valid()
      modifies this`style, this`backgroundView, this`thumbView, this`arc
      ensures Valid() && style == old(style).(isRounded := rounded)
      ensures Machine() == old(Machine())
      ensures backgroundView.cornerRadius == if rounded then 11.0 else 2.0
      ensures thumbView.cornerRadius == if rounded then 10.0 else 2.0
    {
      style := style.(isRounded := rounded);
      SetupBackground();
      SetupThumb();
    }

    method SetBackgroundBorderOnColor(color: Color)
      requires Valid()
      modifies this`style, this`backgroundView
      ensures Valid() && style == old(style).(backgroundBorderOnColor := color)
      ensures Machine() == old(Machine())
      ensures On() ==> backgroundView.borderColor == color
    {
      style := style.(backgroundBorderOnColor := color);
      SetupBackground();
    }

    method SetBackgroundBorderOffColor(color: Color)
      requires Valid()
      modifies this`style, this`backgroundView
      ensures Valid() && style == old(style).(backgroundBorderOffColor := color)
      ensures Machine() == old(Machine())
      ensures !On() ==> backgroundView.borderColor == color
    {
      style := style.(backgroundBorderOffColor := color);
      SetupBackground();
    }

    method SetBackgroundOnColor(color: Color)
      requires Valid()
      modifies this`style, this`backgroundView
      ensures Valid() && style == old(style).(backgroundOnColor := color)
      ensures Machine() == old(Machine())
      ensures On() ==> backgroundView.fill == color
    {
      style := style.(backgroundOnColor := color);
      SetupBackground();
    }

    method SetBackgroundOffColor(color: Color)
      requires Valid()
      modifies this`style, this`backgroundView
      ensures Valid() && style == old(style).(backgroundOffColor := color)
      ensures Machine() == old(Machine())
      ensures !On() ==> backgroundView.fill == color
    {
      style := style.(backgroundOffColor := color);
      SetupBackground();
    }

    method SetThumbOffColor(color: Color)
      requires Valid()
      modifies this`style, this`thumbView, this`arc
      ensures Valid() && style == old(style).(thumbOffColor := color)
      ensures Machine() == old(Machine())
      ensures !(On() && isEnabled) ==> arc.fillColor == color
    {
      style := style.(thumbOffColor := color);
      SetupThumb();
    }

    method SetThumbOnColor(color: Color)
      requires Valid()
      modifies this`style, this`thumbView, this`arc
      ensures Valid() && style == old(style).(thumbOnColor := color)
      ensures Machine() == old(Machine())
      ensures On() && isEnabled ==> arc.fillColor == color
    {
      style := style.(thumbOnColor := color);
      SetupThumb();
    }

    method SetThumbBorderOnColor(color: Color)
      requires Valid()
      modifies this`style, this`thumbView, this`arc
      ensures Valid() && style == old(style).(thumbBorderOnColor := color)
      ensures Machine() == old(Machine())
      ensures On() && isEnabled ==> arc.strokeColor == color
    {
      style := style.(thumbBorderOnColor := color);
      SetupThumb();
    }

    method SetThumbBorderOffColor(color: Color)
      requires Valid()
      modifies this`style, this`thumbView, this`arc
      ensures Valid() && style == old(style).(thumbBorderOffColor := color)
      ensures Machine() == old(Machine())
      ensures !(On() && isEnabled) ==> arc.strokeColor == color
    {
      style := style.(thumbBorderOffColor := color);
      SetupThumb();
    }

    /** thumbShadowColor (a didSet observer): the knob's shadow takes the new colour. */
    method SetThumbShadowColor(color: Color)
      requires Valid()
      modifies this`style, this`thumbView, this`arc
      ensures Valid() && style == old(style).(thumbShadowColor := color)
      ensures Machine() == old(Machine())
      ensures thumbView.shadowColor == color && arc.shadowColor == color
    {
      style := style.(thumbShadowColor := color);
      SetupThumb();
    }

    /** thumbBorderWidth: the arc's line width. */
    method SetThumbBorderWidth(width: real)
      requires Valid()
      modifies this`style, this`arc
      ensures Valid() && style == old(style).(thumbBorderWidth := width)
      ensures Machine() == old(Machine())
      ensures arc.lineWidth == width
    {
      style := style.(thumbBorderWidth := width);
      arc := arc.(lineWidth := style.thumbBorderWidth);
    }

    /** backgroundBorderWidth: the background layer's border width. */
    method SetBackgroundBorderWidth(width: real)
      requires Valid()
      modifies this`style, this`backgroundView
      ensures Valid() && style == old(style).(backgroundBorderWidth := width)
      ensures Machine() == old(Machine())
      ensures backgroundView.borderWidth == width
    {
      style := style.(backgroundBorderWidth := width);
      backgroundView := backgroundView.(borderWidth := style.backgroundBorderWidth);
    }
  }
}
