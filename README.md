# FRSwitch on/off state machine in Dafny

FRSwitch is an iOS on/off switch control (a `UIControl` subclass) of a fixed
size, 61 x 22 points. It has a committed value (`switchValue`, read through
`on` and `isOn`) and the value its knob currently shows
(`currentVisualValue`). The two differ only in the middle of a drag. The
control reacts to these events:

- the `on` setter and `setOn(_:animated:)` commit a value silently and lay the knob out for it;
- `continueTracking` moves the knob to the side of the touch, where right of the middle (x > 30.5) is on;
- `endTracking` commits the side the knob shows and sends `valueChanged` when that side is new;
- `cancelTracking` puts the knob back on the committed value;
- `switchTapped` flips the value.

Every re-layout re-renders the background and the knob. It moves the knob
frame to x = 39 (on) or x = 1 (off), with width 22, and shows the on or the
off image and label. The colours follow the committed value, not the visual
one.

The repository holds two revisions of the control, and both are modelled:

- `PodSwitch` models `FRSwitch/Classes/FRSwitch.swift`, the released pod.
- `LegacySwitch` models `FRSwitch/FRSwitch.swift`, an older copy. In it:
  - a tap sends no `valueChanged`;
  - the knob colours ignore `isEnabled`;
  - the knob view is painted blue;
  - `isRounded` reshapes the corners in a `willSet` observer;
  - `thumbShadowColor` re-renders in a `willSet` observer (see Findings).

Module layout:

- `Geometry` (`geometry.dfy`): the fixed frame, where the knob sits for each value, the image and label alphas, and the drag threshold `MovedToOn`.
- `Style` (`style.dfy`):
  - colours as opaque tokens;
  - the rendered layers (background, knob, the knob's shape layer `arc`);
  - the record of style properties and its defaults;
  - the pure colour and corner selection of `setupBackground` and `setupThumb`.
- `SwitchMachine` (`switch_machine.dfy`):
  - the value/gesture state machine as a function, `Step(revision, state, event)` over `State(on, visual, sent)`, where `sent` counts `valueChanged` actions;
  - `Run` over event sequences;
  - lemmas about whole gestures.
- `PodSwitch` and `LegacySwitch` (`pod_switch.dfy`, `legacy_switch.dfy`): one `class FRSwitch` each.
  - The fields hold the state and what the views show.
  - Methods stand for property setters and touch callbacks.
  - Every event method promises `Machine() == Step(rev, old(Machine()), event)` and keeps `Valid()`: the views show the committed value, the visual value and the style.
- `Scenarios` (`scenarios.dfy`): client sequences, including the example app's `viewDidLoad`. Most run on the pod class; a drag, a double tap and an on switch also run on the legacy class.

Touch positions are given to `ContinueTracking` as a `real` x in the
control's coordinates. Sending `valueChanged` is modelled as incrementing
`valueChangedCount`.

Three behaviours of the code are easy to misread:

- **Release without a drag.** A release without a drag does not toggle the value: `endTracking` does nothing when the knob shows the committed value (`FRSwitch/Classes/FRSwitch.swift:364-370`). Only the separate tap callback toggles. See `SwitchMachine.Step`, `EndAfterDrag` and `Scenarios.OnThenDragAcross`.
- **Knob position when on.** The on-side knob sits flush with the right edge, at `61 - 22 = 39`, while the off side is inset by 1 (`FRSwitch/Classes/FRSwitch.swift:311`). See `Geometry.KnobX`.
- **Tap notification.** The legacy revision's tap never sends `valueChanged` (`FRSwitch/FRSwitch.swift:382-384`); the pod's tap always sends one. See `SwitchMachine.RepeatedTaps` and `Scenarios.DoubleTap`.

## Model

| member | source | states |
|---|---|---|
| Geometry.KnobX | FRSwitch/Classes/FRSwitch.swift:309-311 | The knob's x lies inside the 61-point control. It touches the right edge (x = 39) exactly when the value is on, and sits at the inset 1 when off. |
| Geometry.LaidOutKnob | FRSwitch/Classes/FRSwitch.swift:308-318 | A layout puts the knob at x = 39 when on and x = 1 when off, gives it width 22 and keeps its y and height. The knob stays within [0, 61] and is flush right iff the value is on. |
| Geometry.OnAlpha | FRSwitch/Classes/FRSwitch.swift:331-333 | The on image and label alpha is 1 exactly when the value is on and 0 exactly when it is off. |
| Geometry.OffAlpha | FRSwitch/Classes/FRSwitch.swift:332-334 | The off alpha is the complement of the on alpha (they sum to 1), i.e. the on alpha of the opposite value. |
| Style.BackgroundFor | FRSwitch/Classes/FRSwitch.swift:207-211 | An on switch's background shows `backgroundOnColor` and `backgroundBorderOnColor`; an off one shows `backgroundOffColor` and `backgroundBorderOffColor`. So the on colours appear exactly when the committed value is on, whenever they differ from the off ones. It always carries the current border width and corner shape. |
| Style.ArcFor | FRSwitch/Classes/FRSwitch.swift:274-280 | A lit knob's shape layer is filled with `thumbOnColor` and stroked with `thumbBorderOnColor`; an unlit one uses `thumbOffColor` and `thumbBorderOffColor`. So the on colours appear exactly when lit, whenever they differ from the off ones. It carries the current border width and the given shadow colour. |
| Style.BackgroundCornerRadius | FRSwitch/Classes/FRSwitch.swift:208 | A rounded background has half-circle ends (radius = half the height, 11). A square one has radius 2. |
| Style.KnobCornerRadius | FRSwitch/Classes/FRSwitch.swift:257 | A rounded knob's corner radius is half its height, 10 (one less than the background's), which gives the 22 x 20 knob rounded ends. A square knob has radius 2. |
| SwitchMachine.Step | FRSwitch/Classes/FRSwitch.swift:297-380 | For one event:<br>- only a set, a drag end or a tap changes the committed value;<br>- everything but a drag move leaves the knob showing the committed value;<br>- at most one notification is sent, and only with a user-driven flip;<br>- a set is silent and idempotent;<br>- a move puts the knob on the touch's side without committing;<br>- an end commits the visual value and notifies iff they differed, and otherwise changes nothing;<br>- a cancel is silent;<br>- a tap negates the value and notifies iff the revision is the pod. |
| SwitchMachine.Run | FRSwitch/Classes/FRSwitch.swift:349-380 | A sequence of events sends at most one notification per event. |
| SwitchMachine.RunAppend | FRSwitch/Classes/FRSwitch.swift:349-380 | Running two event sequences one after the other equals running their concatenation. |
| SwitchMachine.DragKeepsCommitted | FRSwitch/Classes/FRSwitch.swift:349-362 | However many moves a drag makes, it never changes the committed value and never notifies. The knob ends on the side of the last touch. |
| SwitchMachine.CancelAfterDrag | FRSwitch/Classes/FRSwitch.swift:372-375 | A cancelled drag of any length restores the knob to the committed value, leaves that value alone and sends nothing. From a settled switch it changes nothing at all. |
| SwitchMachine.EndAfterDrag | FRSwitch/Classes/FRSwitch.swift:364-370 | A released drag commits the side of its last touch and leaves the switch settled. It sends exactly one notification iff that side differs from the value before the drag, and none otherwise. |
| SwitchMachine.RepeatedTaps | FRSwitch/Classes/FRSwitch.swift:377-380 | n taps flip the value n times, so two taps restore it. The pod sends n notifications; the legacy revision sends none. |
| SwitchMachine.ProgrammaticSetsAreSilent | FRSwitch/Classes/FRSwitch.swift:29-37 | After any non-empty series of `on =` / `setOn` calls, the switch holds and shows the last value and nothing was sent. |
| SwitchMachine.SettledAfterGesture | FRSwitch/Classes/FRSwitch.swift:364-380 | Any event sequence that does not end in a drag move leaves the knob showing the committed value. |
| SwitchMachine.NotificationsOnlyFromUser | FRSwitch/Classes/FRSwitch.swift:364-380 | The notifications sent by a sequence are bounded by its count of drag ends and (pod only) taps. Sets, moves and cancels never notify. |
| PodSwitch.FRSwitch.constructor | FRSwitch/Classes/FRSwitch.swift:176-198 | A new switch is off, shows off and has sent nothing. Its knob is laid out at (1, 0.5), 22 x 20. It has the default style, is enabled, and its views are consistent. |
| PodSwitch.FRSwitch.On | FRSwitch/Classes/FRSwitch.swift:29-32 | The `on` getter reports the committed value. |
| PodSwitch.FRSwitch.IsOn | FRSwitch/Classes/FRSwitch.swift:303-306 | `isOn` is the committed value, never the visual one. |
| PodSwitch.FRSwitch.SetupBackground | FRSwitch/Classes/FRSwitch.swift:200-214 | The background shows the committed value's colours with the current width and corners. |
| PodSwitch.FRSwitch.SetupThumb | FRSwitch/Classes/FRSwitch.swift:250-281 | The knob takes the current corners and shadow colour. Its shape layer shows the on colours iff on and enabled. The knob frame is untouched. |
| PodSwitch.FRSwitch.ShowSide | FRSwitch/Classes/FRSwitch.swift:331-334 | The on image and label are visible exactly when the value is on; the off ones exactly when it is off. |
| PodSwitch.FRSwitch.SetValueLayout | FRSwitch/Classes/FRSwitch.swift:308-337 | Animated or not, the knob ends at its laid-out frame for the value, keeping y and height. The alphas show the value, the background and knob are re-rendered for the committed value, and the knob's visual value becomes the value. |
| PodSwitch.FRSwitch.SetOn | FRSwitch/Classes/FRSwitch.swift:297-301 | The state moves as `Step(Pod, SetOn(v))`: `on == v`, the visual value is v, nothing is sent, the knob x is 39 or 1, and the views stay consistent. |
| PodSwitch.FRSwitch.SetOnProperty | FRSwitch/Classes/FRSwitch.swift:29-37 | The `on` setter behaves as `setOn(v, animated: false)`: as `Step(Pod, SetOn(v))`, silently. |
| PodSwitch.FRSwitch.SendValueChanged | FRSwitch/Classes/FRSwitch.swift:368 | Exactly one more valueChanged has been sent. |
| PodSwitch.FRSwitch.ContinueTracking | FRSwitch/Classes/FRSwitch.swift:349-362 | The state moves as `Step(Pod, Move(x))`: the visual value becomes x > 30.5, and the committed value and count are unchanged. The background and knob colours stay those of the committed value. Nothing at all changes when the side is the same. The method always returns true. |
| PodSwitch.FRSwitch.EndTracking | FRSwitch/Classes/FRSwitch.swift:364-370 | The state moves as `Step(Pod, End)`. When the knob shows the other side, the value flips to it and exactly one valueChanged is sent. Otherwise nothing changes. Afterwards knob and value agree. |
| PodSwitch.FRSwitch.CancelTracking | FRSwitch/Classes/FRSwitch.swift:372-375 | The state moves as `Step(Pod, Cancel)`: the knob shows the committed value again, which is unchanged, and nothing is sent. |
| PodSwitch.FRSwitch.SwitchTapped | FRSwitch/Classes/FRSwitch.swift:377-380 | The state moves as `Step(Pod, Tap)`: the value is negated and shown, and exactly one valueChanged is sent. |
| PodSwitch.FRSwitch.SetEnabled | FRSwitch/Classes/FRSwitch.swift:150-154 | Changing `isEnabled` re-renders the knob. The knob shows the on fill and stroke exactly when on and enabled. The value is unchanged. |
| PodSwitch.FRSwitch.SetRounded | FRSwitch/Classes/FRSwitch.swift:105-110 | Setting `isRounded` gives corner radii 11 and 10 when rounded, 2 and 2 when square. The value and visual value are unchanged. |
| PodSwitch.FRSwitch.SetBackgroundBorderOnColor | FRSwitch/Classes/FRSwitch.swift:40-44 | The property is stored and an on switch shows it as its border. The state is unchanged. |
| PodSwitch.FRSwitch.SetBackgroundBorderOffColor | FRSwitch/Classes/FRSwitch.swift:47-51 | The property is stored and an off switch shows it as its border. The state is unchanged. |
| PodSwitch.FRSwitch.SetBackgroundOnColor | FRSwitch/Classes/FRSwitch.swift:54-58 | The property is stored and an on switch shows it as its fill. The state is unchanged. |
| PodSwitch.FRSwitch.SetBackgroundOffColor | FRSwitch/Classes/FRSwitch.swift:61-65 | The property is stored and an off switch shows it as its fill. The state is unchanged. |
| PodSwitch.FRSwitch.SetThumbOffColor | FRSwitch/Classes/FRSwitch.swift:68-72 | The property is stored and a knob not (on and enabled) is filled with it. The state is unchanged. |
| PodSwitch.FRSwitch.SetThumbOnColor | FRSwitch/Classes/FRSwitch.swift:75-79 | The property is stored and an on, enabled knob is filled with it. The state is unchanged. |
| PodSwitch.FRSwitch.SetThumbBorderOnColor | FRSwitch/Classes/FRSwitch.swift:82-86 | The property is stored and an on, enabled knob is stroked with it. The state is unchanged. |
| PodSwitch.FRSwitch.SetThumbBorderOffColor | FRSwitch/Classes/FRSwitch.swift:89-93 | The property is stored and a knob not (on and enabled) is stroked with it. The state is unchanged. |
| PodSwitch.FRSwitch.SetThumbShadowColor | FRSwitch/Classes/FRSwitch.swift:96-100 | The property is stored and the knob and its shape layer show the new shadow colour. The state is unchanged. |
| PodSwitch.FRSwitch.SetThumbBorderWidth | FRSwitch/Classes/FRSwitch.swift:136-141 | The shape layer's line width becomes the new width. The state is unchanged. |
| PodSwitch.FRSwitch.SetBackgroundBorderWidth | FRSwitch/Classes/FRSwitch.swift:144-148 | The background's border width becomes the new width. The state is unchanged. |
| LegacySwitch.FRSwitch.constructor | FRSwitch/FRSwitch.swift:180-202 | A new switch is off, shows off and has sent nothing. Its knob is at (1, 0.5), 22 x 20. It has the default style, shows its shadow colour, and its views are consistent. |
| LegacySwitch.FRSwitch.On | FRSwitch/FRSwitch.swift:29-32 | The `on` getter reports the committed value. |
| LegacySwitch.FRSwitch.IsOn | FRSwitch/FRSwitch.swift:308-311 | `isOn` is the committed value, never the visual one. |
| LegacySwitch.FRSwitch.SetupBackground | FRSwitch/FRSwitch.swift:204-218 | The background shows the committed value's colours with the current width and corners. |
| LegacySwitch.FRSwitch.SetupThumb | FRSwitch/FRSwitch.swift:254-286 | The knob view turns blue and takes the current corners and shadow colour. Its shape layer shows the on colours iff on, with no enabled term. The knob frame is untouched. |
| LegacySwitch.FRSwitch.ShowSide | FRSwitch/FRSwitch.swift:336-339 | The on image and label are visible exactly when the value is on; the off ones exactly when it is off. |
| LegacySwitch.FRSwitch.SetValueLayout | FRSwitch/FRSwitch.swift:313-342 | The knob ends at its laid-out frame for the value, keeping y and height. The alphas show the value, the views are re-rendered for the committed value, and the visual value becomes the value. |
| LegacySwitch.FRSwitch.SetOn | FRSwitch/FRSwitch.swift:302-306 | The state moves as `Step(Legacy, SetOn(v))`: `on == v`, the visual value is v, nothing is sent, and the knob x is 39 or 1. |
| LegacySwitch.FRSwitch.SetOnProperty | FRSwitch/FRSwitch.swift:29-37 | The `on` setter behaves as `setOn(v, animated: false)`, silently. |
| LegacySwitch.FRSwitch.SendValueChanged | FRSwitch/FRSwitch.swift:373 | Exactly one more valueChanged has been sent. |
| LegacySwitch.FRSwitch.ContinueTracking | FRSwitch/FRSwitch.swift:354-367 | The state moves as `Step(Legacy, Move(x))`: the visual value becomes x > 30.5 and the committed value is unchanged. Background and knob colours are unchanged. When the side changes, the re-render makes the knob show the stored shadow colour, and a shadow that was up to date stays so. Nothing changes when the side is the same. The method always returns true. |
| LegacySwitch.FRSwitch.EndTracking | FRSwitch/FRSwitch.swift:369-375 | The state moves as `Step(Legacy, End)`: the value flips and one valueChanged is sent exactly when the knob shows the other side, and the re-render then makes the knob show the stored shadow colour. Nothing changes otherwise. |
| LegacySwitch.FRSwitch.CancelTracking | FRSwitch/FRSwitch.swift:377-380 | The state moves as `Step(Legacy, Cancel)`: the knob shows the unchanged committed value again, and nothing is sent. |
| LegacySwitch.FRSwitch.SwitchTapped | FRSwitch/FRSwitch.swift:382-384 | The state moves as `Step(Legacy, Tap)`: the value is negated and shown, and no valueChanged is sent. |
| LegacySwitch.FRSwitch.SetRounded | FRSwitch/FRSwitch.swift:105-118 | The willSet observer reshapes from the new value directly: radii 11 and 10 when rounded, 2 and 2 when square. The stored flag agrees afterwards and the state is unchanged. |
| LegacySwitch.FRSwitch.SetBackgroundBorderOnColor | FRSwitch/FRSwitch.swift:40-44 | The property is stored and an on switch shows it as its border. The state is unchanged. |
| LegacySwitch.FRSwitch.SetBackgroundBorderOffColor | FRSwitch/FRSwitch.swift:47-51 | The property is stored and an off switch shows it as its border. The state is unchanged. |
| LegacySwitch.FRSwitch.SetBackgroundOnColor | FRSwitch/FRSwitch.swift:54-58 | The property is stored and an on switch shows it as its fill. The state is unchanged. |
| LegacySwitch.FRSwitch.SetBackgroundOffColor | FRSwitch/FRSwitch.swift:61-65 | The property is stored and an off switch shows it as its fill. The state is unchanged. |
| LegacySwitch.FRSwitch.SetThumbOffColor | FRSwitch/FRSwitch.swift:68-72 | The property is stored and an off knob is filled with it, whatever the enabled flag. The re-render makes the knob show the stored shadow colour. The state is unchanged. |
| LegacySwitch.FRSwitch.SetThumbOnColor | FRSwitch/FRSwitch.swift:75-79 | The property is stored and an on knob is filled with it. The re-render makes the knob show the stored shadow colour. The state is unchanged. |
| LegacySwitch.FRSwitch.SetThumbBorderOnColor | FRSwitch/FRSwitch.swift:82-86 | The property is stored and an on knob is stroked with it. The re-render makes the knob show the stored shadow colour. The state is unchanged. |
| LegacySwitch.FRSwitch.SetThumbBorderOffColor | FRSwitch/FRSwitch.swift:89-93 | The property is stored and an off knob is stroked with it. The re-render makes the knob show the stored shadow colour. The state is unchanged. |
| LegacySwitch.FRSwitch.SetThumbShadowColorAsWritten | FRSwitch/FRSwitch.swift:96-100 | With the willSet observer as written, the new colour is stored but the knob and shape layer keep showing the previous one. Any actual change of colour leaves the shadow out of date. |
| LegacySwitch.FRSwitch.SetThumbShadowColor | FRSwitch/FRSwitch.swift:96-100 | Corrected setter (store, then re-render): the knob and shape layer show the new shadow colour. |
| LegacySwitch.FRSwitch.SetThumbBorderWidth | FRSwitch/FRSwitch.swift:146-151 | The shape layer's line width becomes the new width. The state is unchanged. |
| LegacySwitch.FRSwitch.SetBackgroundBorderWidth | FRSwitch/FRSwitch.swift:154-158 | The background's border width becomes the new width. The state is unchanged. |
| LegacySwitch.StaleShadowWitness | FRSwitch/FRSwitch.swift:96-100 | On a new switch, setting the shadow colour to a custom colour through the setter as written stores it, while the knob still shows gray. |
| LegacySwitch.FreshShadowWitness | FRSwitch/FRSwitch.swift:96-100 | The same sequence through the corrected setter shows the stored colour. |
| Scenarios.ExampleViewDidLoad | Example/FRSwitch/ViewController.swift:16-19 | After `testSwitch.on = true` on a new switch, it is on and shows on. The knob is at x = 39, the on image is visible, the background is green, and nothing was sent. |
| Scenarios.DragToOn | FRSwitch/Classes/FRSwitch.swift:349-370 | A drag from off that wanders right, left and right again, then ends, commits on with exactly one notification and the knob at 39. |
| Scenarios.OnThenDragAcross | FRSwitch/Classes/FRSwitch.swift:349-370 | `setOn(true, false)`, then a drag from x = 5 to x = 55 released: the switch is still on, nothing was sent, and the knob is at 39 with width 22. |
| Scenarios.LegacyDragToOn | FRSwitch/FRSwitch.swift:354-375 | On the legacy switch, the same wandering drag ending on the on side commits on with exactly one notification and the knob at 39. |
| Scenarios.DragBackToStart | FRSwitch/Classes/FRSwitch.swift:357 | A drag that crosses the middle and returns to exactly the middle (30.5, which counts as off) commits nothing and sends nothing. |
| Scenarios.CancelledDrag | FRSwitch/Classes/FRSwitch.swift:372-375 | A drag to the on side that is cancelled leaves the switch off, showing off, with nothing sent. |
| Scenarios.DoubleTap | FRSwitch/FRSwitch.swift:382-384 | Two taps restore the value in both revisions. The pod sends two notifications; the legacy revision sends none. |
| Scenarios.DisabledWhileOn | FRSwitch/Classes/FRSwitch.swift:278-279 | An on switch that is then disabled keeps a green background, but the pod paints its knob in the off colour (light gray). The legacy revision keeps the on colour (white). |

## Left out

- View and layer construction are not modelled: `UIView`/`CALayer` objects, `addSubview`, `clipsToBounds`, `isUserInteractionEnabled`, the control's own clear background, content modes and autoresizing. The views are modelled only by what they show: fills, borders, corners, shadow colour, knob frame and alphas.
- `CAShapeLayer`/`UIBezierPath` paths (the arc path and `shadowPath`) are not modelled, nor are the shadow radius, opacity and offset, or the line cap and stroke range, which are constants. In particular:
  - the pod re-creates the arc path on every `setupThumb`, while the legacy revision draws it only once;
  - the legacy `isRounded` observer's `shadowPath` update is not modelled.
- Animation is not modelled: `UIView.animate` with 0.3 s ease-out. Only the final knob frame is modelled, which is the same whether animated or not.
- Touch and gesture plumbing is not modelled:
  - `beginTracking`, which only calls its superclass;
  - the `super` tracking calls;
  - `touch.location(in:)`, which is replaced by the x parameter;
  - the tap gesture recognizer's registration in `setup` and removal in `deinit`;
  - the host's decision on whether one touch delivers a tap, a tracking sequence or both. Tap and drag end are separate events here.
- `init(coder:)` is not modelled; it runs the same `setup` as `init(frame:)`, which the constructors model. Also left out are `@IBDesignable`/`@IBInspectable`, `layoutSubviews` (only calls its superclass) and `intrinsicContentSize` (the constant 61 x 22).
- Image and label contents are not modelled: `thumbImage`, `onImage`, `offImage`, label text, fonts and text colours. The image and label alphas are modelled.
- The field `userDidSpecifyOnThumbTintColor` is declared and never used.
- Colours are opaque tokens; no `UIColor`/`CGColor` values or conversions are modelled.
- LegacySwitch.FRSwitch has no `isEnabled` field: the legacy file neither observes nor reads the inherited flag, so its renderings cannot depend on it.
- The `arc` optional (`CAShapeLayer?`) is modelled as always present, because `setupThumb` creates it before any other use. The `thumbBorderWidth` observer's lookup of the shape layer among the sublayers is modelled as reaching that same layer.
- Lengths are exact reals. `CGFloat` rounding does not arise, because every constant involved (61, 22, 0.5, 30.5, 39, 11, 10) is exactly representable.

## Findings

| source | as written | input that shows it | evidently intended | confidence | as-written member | corrected member |
|---|---|---|---|---|---|---|
| FRSwitch/FRSwitch.swift:96-100 | `thumbShadowColor` re-renders the knob in a `willSet` observer, which runs before the new colour is stored, so `setupThumb` reads the old colour | on a new switch (shadow gray), set `thumbShadowColor` to any other colour: the property holds the new colour while the knob and its shape layer still show gray | re-render after the store (`didSet`, as the pod revision at FRSwitch/Classes/FRSwitch.swift:96-100 does), so the knob shows the colour just set | not executed; read from the code | LegacySwitch.StaleShadowWitness | LegacySwitch.FreshShadowWitness |
