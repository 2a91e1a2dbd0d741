/** Client sequences run against the control: the example app's use of the
    switch, drags, a cancelled drag, a double tap, and a disabled switch. Most
    run on the pod revision; a drag, the double tap and an on switch also run
    on the legacy revision, which has no enabled flag to clear. Each scenario builds its own switch and
    reports what the control holds and shows at the end. */
module Scenarios {
  import opened Geometry
  import opened Style
  import PodSwitch
  import LegacySwitch

  /** The example app's viewDidLoad: a new switch is turned on with `on = true`.
      It shows on (knob flush right, on image and label visible, green
      background) and no valueChanged has been sent. */
  method ExampleViewDidLoad() returns (on: bool, shown: bool, sent: nat, knobX: real, onAlpha: real, fill: Color)
    ensures on && shown && sent == 0
    ensures knobX == 39.0 && onAlpha == 1.0
    ensures fill == Green
  {
    var sw := new PodSwitch.FRSwitch();
    sw.SetOnProperty(true);
    on, shown, sent := sw.On(), sw.currentVisualValue, sw.valueChangedCount;
    knobX, onAlpha, fill := sw.thumbView.frame.x, sw.onImageAlpha, sw.backgroundView.fill;
  }

  /** A drag on a new (off) switch that wanders right, back left, right again
      and ends there: the switch commits on and sends one valueChanged. */
  method DragToOn() returns (on: bool, sent: nat, knobX: real)
    ensures on && sent == 1 && knobX == 39.0
  {
    var sw := new PodSwitch.FRSwitch();
    var keep := sw.ContinueTracking(40.0);
    keep := sw.ContinueTracking(10.0);
    keep := sw.ContinueTracking(50.0);
    sw.EndTracking();
    on, sent, knobX := sw.On(), sw.valueChangedCount, sw.thumbView.frame.x;
  }

  /** The same drag on the legacy revision: a drag end notifies there too. */
  method LegacyDragToOn() returns (on: bool, sent: nat, knobX: real)
    ensures on && sent == 1 && knobX == 39.0
  {
    var sw := new LegacySwitch.FRSwitch();
    var keep := sw.ContinueTracking(40.0);
    keep := sw.ContinueTracking(10.0);
    keep := sw.ContinueTracking(50.0);
    sw.EndTracking();
    on, sent, knobX := sw.On(), sw.valueChangedCount, sw.thumbView.frame.x;
  }

  /** A switch set on without animation, then dragged from the off half
      (x = 5) to the on half (x = 55) and released: the knob went off and came
      back, so the drag ends on the committed side and nothing is sent. */
  method OnThenDragAcross() returns (on: bool, sent: nat, knobX: real, knobWidth: real)
    ensures on && sent == 0 && knobX == 39.0 && knobWidth == 22.0
  {
    var sw := new PodSwitch.FRSwitch();
    sw.SetOn(true, false);
    var keep := sw.ContinueTracking(5.0);
    keep := sw.ContinueTracking(55.0);
    sw.EndTracking();
    on, sent := sw.On(), sw.valueChangedCount;
    knobX, knobWidth := sw.thumbView.frame.x, sw.thumbView.frame.width;
  }

  /** A drag that crosses the middle and comes back before it ends commits
      nothing and sends nothing; a touch exactly on the middle counts as off. */
  method DragBackToStart() returns (on: bool, sent: nat, knobX: real)
    ensures !on && sent == 0 && knobX == 1.0
  {
    var sw := new PodSwitch.FRSwitch();
    var keep := sw.ContinueTracking(45.0);
    keep := sw.ContinueTracking(30.5);
    sw.EndTracking();
    on, sent, knobX := sw.On(), sw.valueChangedCount, sw.thumbView.frame.x;
  }

  /** A drag to the on side that is cancelled: the knob goes back to off. */
  method CancelledDrag() returns (on: bool, shown: bool, sent: nat)
    ensures !on && !shown && sent == 0
  {
    var sw := new PodSwitch.FRSwitch();
    var keep := sw.ContinueTracking(60.0);
    sw.CancelTracking();
    on, shown, sent := sw.On(), sw.currentVisualValue, sw.valueChangedCount;
  }

  /** Two taps on each revision: both end where they started, but only the
      pod revision reports the taps, once each. */
  method DoubleTap() returns (podOn: bool, podSent: nat, legacyOn: bool, legacySent: nat)
    ensures !podOn && podSent == 2
    ensures !legacyOn && legacySent == 0
  {
    var pod := new PodSwitch.FRSwitch();
    pod.SwitchTapped();
    pod.SwitchTapped();
    var legacy := new LegacySwitch.FRSwitch();
    legacy.SwitchTapped();
    legacy.SwitchTapped();
    podOn, podSent := pod.On(), pod.valueChangedCount;
    legacyOn, legacySent := legacy.On(), legacy.valueChangedCount;
  }

  /** A switch that is on and then disabled: the pod revision paints the knob
      in the off colours while the background stays green; the legacy
      revision, which has no enabled observer, keeps the on colours. */
  method DisabledWhileOn() returns (podFill: Color, podBackground: Color, legacyFill: Color)
    ensures podFill == LightGray && podBackground == Green
    ensures legacyFill == White
  {
    var pod := new PodSwitch.FRSwitch();
    pod.SetOnProperty(true);
    pod.SetEnabled(false);
    podFill, podBackground := pod.arc.fillColor, pod.backgroundView.fill;
    var legacy := new LegacySwitch.FRSwitch();
    legacy.SetOnProperty(true);
    legacyFill := legacy.arc.fillColor;
  }
}
