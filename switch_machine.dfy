/** The switch's value/gesture state machine, as a function of events. Both
    revisions of the control are laid over it: their classes promise that each
    event method moves their state exactly as `Step` says, and the lemmas here
    say what whole gestures and event sequences do. */
module SwitchMachine {
  import opened Geometry

  /** The two revisions of the control: `Pod` is FRSwitch/Classes/FRSwitch.swift,
      `Legacy` is FRSwitch/FRSwitch.swift. Their state machines differ only in
      whether a tap sends valueChanged. */
  datatype Revision = Pod | Legacy

  predicate TapNotifies(rev: Revision)
  {
    rev.Pod?
  }

  /** The committed value (`on`), the value the knob currently shows
      (`currentVisualValue`), and how many valueChanged actions have been sent. */
  datatype State = State(on: bool, visual: bool, sent: nat)

  /** The knob shows the committed value. */
  predicate Settled(s: State)
  {
    s.visual == s.on
  }

  datatype Event =
    | SetOn(value: bool)  // the `on` setter, or setOn(value, animated:) with either flag
    | Move(x: real)       // continueTracking with the touch at horizontal position x
    | End                 // endTracking
    | Cancel              // cancelTracking
    | Tap                 // switchTapped

  /** One event. */
  function Step(rev: Revision, s: State, e: Event): (r: State)
    // only a programmatic set, the end of a drag and a tap change the committed value
    ensures r.on != s.on ==> e.SetOn? || e.End? || e.Tap?
    // after anything but a drag move the knob shows the committed value
    ensures !e.Move? ==> Settled(r)
    // at most one notification, and only along with a user-driven change of the value
    ensures r.sent == s.sent || (r.sent == s.sent + 1 && r.on != s.on && (e.End? || e.Tap?))
    ensures e.SetOn? ==> r.on == e.value && r.sent == s.sent
    ensures e.SetOn? && Settled(s) && s.on == e.value ==> r == s
    ensures e.Move? ==> r.on == s.on && r.sent == s.sent && r.visual == MovedToOn(e.x)
    ensures e.End? ==> r.on == s.visual && (r.sent == s.sent + 1 <==> !Settled(s))
    ensures e.End? && Settled(s) ==> r == s
    ensures e.Cancel? ==> r.on == s.on && r.sent == s.sent
    ensures e.Tap? ==> r.on == !s.on && (r.sent == s.sent + 1 <==> TapNotifies(rev))
  {
    match e
    case SetOn(v) => s.(on := v, visual := v)
    case Move(x) => if s.visual != MovedToOn(x) then s.(visual := MovedToOn(x)) else s
    case End => if s.visual != s.on then State(!s.on, !s.on, s.sent + 1) else s
    case Cancel => s.(visual := s.on)
    case Tap => State(!s.on, !s.on, if TapNotifies(rev) then s.sent + 1 else s.sent)
  }

  /** A sequence of events, in order. Every event sends at most one notification. */
  function Run(rev: Revision, s: State, events: seq<Event>): (r: State)
    ensures s.sent <= r.sent <= s.sent + |events|
    decreases |events|
  {
    if events == [] then s else Run(rev, Step(rev, s, events[0]), events[1..])
  }

  /** A drag through the touch positions `xs`. */
  function Moves(xs: seq<real>): seq<Event>
  {
    if xs == [] then [] else [Move(xs[0])] + Moves(xs[1..])
  }

  /** `n` taps in a row. */
  function Taps(n: nat): seq<Event>
  {
    if n == 0 then [] else [Tap] + Taps(n - 1)
  }

  /** Programmatic sets of the values `vs`, in order. */
  function Sets(vs: seq<bool>): seq<Event>
  {
    if vs == [] then [] else [SetOn(vs[0])] + Sets(vs[1..])
  }

  /** The events that can send valueChanged in revision `rev`. */
  predicate Notifying(rev: Revision, e: Event)
  {
    e.End? || (e.Tap? && TapNotifies(rev))
  }

  function CountNotifying(rev: Revision, events: seq<Event>): nat
  {
    if events == [] then 0
    else (if Notifying(rev, events[0]) then 1 else 0) + CountNotifying(rev, events[1..])
  }

  /** Running two sequences one after the other is running their concatenation. */
  lemma {:induction false} RunAppend(rev: Revision, s: State, a: seq<Event>, b: seq<Event>)
    ensures Run(rev, s, a + b) == Run(rev, Run(rev, s, a), b)
    decreases |a|
  {
    if a == [] {
      assert a + b == b;
    } else {
      assert (a + b)[0] == a[0];
      assert (a + b)[1..] == a[1..] + b;
      RunAppend(rev, Step(rev, s, a[0]), a[1..], b);
    }
  }

  /** However far a drag goes, it never changes the committed value and never
      notifies; the knob ends on the side of the last touch. */
  lemma {:induction false} DragKeepsCommitted(rev: Revision, s: State, xs: seq<real>)
    ensures Run(rev, s, Moves(xs)).on == s.on
    ensures Run(rev, s, Moves(xs)).sent == s.sent
    ensures Run(rev, s, Moves(xs)).visual == if xs == [] then s.visual else MovedToOn(xs[|xs| - 1])
    decreases |xs|
  {
    if xs != [] {
      assert Moves(xs)[0] == Move(xs[0]);
      assert Moves(xs)[1..] == Moves(xs[1..]);
      DragKeepsCommitted(rev, Step(rev, s, Move(xs[0])), xs[1..]);
    }
  }

  /** Cancelling a drag, however far it went, puts the knob back on the
      committed value without a notification; from a settled switch nothing
      has changed at all. */
  lemma CancelAfterDrag(rev: Revision, s: State, xs: seq<real>)
    ensures Run(rev, s, Moves(xs) + [Cancel]) == s.(visual := s.on)
    ensures Settled(s) ==> Run(rev, s, Moves(xs) + [Cancel]) == s
  {
    RunAppend(rev, s, Moves(xs), [Cancel]);
    DragKeepsCommitted(rev, s, xs);
  }

  /** A drag that ends commits the side of its last touch. It notifies exactly
      once when that side differs from the value committed before the drag,
      and not at all when the drag ends on the side it started from. */
  lemma EndAfterDrag(rev: Revision, s: State, xs: seq<real>)
    requires xs != []
    ensures Run(rev, s, Moves(xs) + [End]).on == MovedToOn(xs[|xs| - 1])
    ensures Settled(Run(rev, s, Moves(xs) + [End]))
    ensures Run(rev, s, Moves(xs) + [End]).sent
            == s.sent + (if MovedToOn(xs[|xs| - 1]) == s.on then 0 else 1)
  {
    RunAppend(rev, s, Moves(xs), [End]);
    DragKeepsCommitted(rev, s, xs);
  }

  /** `n` taps flip the committed value `n` times, so an even number (two in
      particular) restores it. In the Pod revision each tap notifies once; in
      the Legacy revision taps never notify. */
  lemma {:induction false} RepeatedTaps(rev: Revision, s: State, n: nat)
    ensures Run(rev, s, Taps(n)).on == (s.on != (n % 2 == 1))
    ensures Run(rev, s, Taps(n)).sent == s.sent + (if TapNotifies(rev) then n else 0)
    ensures n > 0 ==> Settled(Run(rev, s, Taps(n)))
    decreases n
  {
    if n > 0 {
      assert Taps(n)[0] == Tap;
      assert Taps(n)[1..] == Taps(n - 1);
      RepeatedTaps(rev, Step(rev, s, Tap), n - 1);
    }
  }

  /** Programmatic sets are silent: after any non-empty series of them the
      switch holds and shows the last value set, and nothing was sent. */
  lemma {:induction false} ProgrammaticSetsAreSilent(rev: Revision, s: State, vs: seq<bool>)
    requires vs != []
    ensures Run(rev, s, Sets(vs)).on == vs[|vs| - 1]
    ensures Settled(Run(rev, s, Sets(vs)))
    ensures Run(rev, s, Sets(vs)).sent == s.sent
    decreases |vs|
  {
    assert Sets(vs)[0] == SetOn(vs[0]);
    assert Sets(vs)[1..] == Sets(vs[1..]);
    if |vs| > 1 {
      ProgrammaticSetsAreSilent(rev, Step(rev, s, SetOn(vs[0])), vs[1..]);
    }
  }

  /** The knob and the committed value can disagree only in the middle of a
      drag: any sequence that ends with something other than a move leaves
      them agreeing. */
  lemma SettledAfterGesture(rev: Revision, s: State, events: seq<Event>)
    requires events != [] && !events[|events| - 1].Move?
    ensures Settled(Run(rev, s, events))
  {
    var n := |events|;
    assert events == events[..n - 1] + [events[n - 1]];
    RunAppend(rev, s, events[..n - 1], [events[n - 1]]);
  }

  /** Only the end of a drag and (in the Pod revision) a tap send
      valueChanged: programmatic sets, moves and cancels never do. */
  lemma {:induction false} NotificationsOnlyFromUser(rev: Revision, s: State, events: seq<Event>)
    ensures Run(rev, s, events).sent <= s.sent + CountNotifying(rev, events)
    decreases |events|
  {
    if events != [] {
      NotificationsOnlyFromUser(rev, Step(rev, s, events[0]), events[1..]);
    }
  }
}
