/**
 * The event router as a function of the state before the event, and the event
 * loop that feeds it one device event at a time. The imperative
 * `Keyboard.ProcessKeyboardEvent` is proved to do exactly what `RouterStep` says.
 */
module EventRouter {
  import opened Options
  import opened KeyTables
  import opened XkbTypes
  import opened ModifierSide
  import opened KeyBehavior

  /** Where the router sent an event. AccessX and the legacy input procedure are
      collaborators outside this model; only the hand-off is recorded. */
  datatype Route =
    | Legacy                              // not a key event: the legacy input procedure
    | Squished                            // a ghost press, dropped
    | AccessXPress                        // to the AccessX press filter
    | AccessXRelease                      // to the AccessX release filter
    | Processed(cancelledRepeat: bool)    // through the behaviour machine

  datatype RouterOutcome = RouterOutcome(
    route: Route,
    pressed: seq<bool>,
    dev: DevState,
    out: seq<Event>,
    diags: seq<Diagnostic>)

  /** The behaviour table covers the keycode of every key event. */
  predicate EventInRange(c: Config, ev: Event) {
    IsKeyEvent(ev) ==> ev.key < |c.behaviors|
  }

  /** Whether the router squishes `ev`: a master-device press whose key the filter
      squishes once the event itself has been tracked. */
  predicate IsSquished(master: bool, pressed: seq<bool>, ev: Event)
    requires |pressed| == |ModifierKeys|
  {
    master && ev.kind == KeyPress && SquishCauses(TrackedFlags(pressed, ev), ev.key) != []
  }

  /** One device event through the router. */
  function RouterStep(c: Config, master: bool, pressed: seq<bool>, s: DevState, ev: Event, down: set<int>)
    : (r: RouterOutcome)
    requires |pressed| == |ModifierKeys| && ValidDev(s) && EventInRange(c, ev)
    ensures |r.pressed| == |ModifierKeys| && ValidDev(r.dev) && |r.dev.currentDown| == |s.currentDown|
    ensures |r.out| <= 2
    ensures !r.route.Processed? ==> r.dev == s && r.out == []
  {
    if !IsKeyEvent(ev) then RouterOutcome(Legacy, pressed, s, [], [])
    else
      var p := if master then TrackedFlags(pressed, ev) else pressed;
      if IsSquished(master, pressed, ev) then
        RouterOutcome(Squished, p, s, [], [SquishedPress(ev.key, SquishCauses(p, ev.key))])
      else if c.enabledCtrls & AllFilteredEventsMask != 0 then
        RouterOutcome(if ev.kind == KeyPress then AccessXPress else AccessXRelease, p, s, [], [])
      else
        var o := BehaviorStep(c, s, ev, down);
        RouterOutcome(Processed(o.cancelRepeat), p, o.state, o.out, o.diags)
  }

  // ----- Properties of one routing step -----

  /** A non-key event goes only to the legacy input procedure: no tracker, overlay or
      radio-group state changes and nothing is dispatched. */
  lemma NonKeyEventIsLegacy(c: Config, master: bool, pressed: seq<bool>, s: DevState, ev: Event, down: set<int>)
    requires |pressed| == |ModifierKeys| && ValidDev(s) && !IsKeyEvent(ev)
    ensures RouterStep(c, master, pressed, s, ev, down) == RouterOutcome(Legacy, pressed, s, [], [])
  {
  }

  /** Events of a device other than the master keyboard are neither tracked nor squished. */
  lemma SlaveSkipsTracking(c: Config, pressed: seq<bool>, s: DevState, ev: Event, down: set<int>)
    requires |pressed| == |ModifierKeys| && ValidDev(s) && EventInRange(c, ev)
    ensures var r := RouterStep(c, false, pressed, s, ev, down);
      r.pressed == pressed && r.route != Squished
  {
  }

  /** On the master keyboard, every key event (press or release) is tracked before the squish
      test. */
  lemma MasterTracksKeyEvents(c: Config, pressed: seq<bool>, s: DevState, ev: Event, down: set<int>)
    requires |pressed| == |ModifierKeys| && ValidDev(s) && EventInRange(c, ev) && IsKeyEvent(ev)
    ensures RouterStep(c, true, pressed, s, ev, down).pressed == TrackedFlags(pressed, ev)
  {
  }

  /** A squished master press reaches neither AccessX nor the behaviour machine: nothing is
      dispatched, the device state and the modifier flags are unchanged (the squished key is
      never a modifier), and one diagnostic names the key and the modifiers held on its side. */
  lemma SquishedPressIsDropped(c: Config, pressed: seq<bool>, s: DevState, ev: Event, down: set<int>)
    requires |pressed| == |ModifierKeys| && ValidDev(s) && EventInRange(c, ev)
    ensures var r := RouterStep(c, true, pressed, s, ev, down);
      IsSquished(true, pressed, ev) ==>
      r.route == Squished && r.dev == s && r.out == [] && r.pressed == pressed
      && r.diags == [SquishedPress(ev.key, SquishCauses(pressed, ev.key))]
  {
    if IsSquished(true, pressed, ev) {
      SquishIff(TrackedFlags(pressed, ev), ev.key);
      ModifiersNotSquishable();
      TrackNonModifier(pressed, ev);
    }
  }

  /** A release is never squished. */
  lemma ReleaseNeverSquished(master: bool, pressed: seq<bool>, ev: Event)
    requires |pressed| == |ModifierKeys| && ev.kind == KeyRelease
    ensures !IsSquished(master, pressed, ev)
  {
  }

  /** With any filtered-events control enabled, an unsquished key event goes to the AccessX
      press or release filter and the behaviour machine is not called: nothing is dispatched
      and the device state is unchanged. */
  lemma FilteredEventsGoToAccessX(c: Config, master: bool, pressed: seq<bool>, s: DevState, ev: Event, down: set<int>)
    requires |pressed| == |ModifierKeys| && ValidDev(s) && EventInRange(c, ev) && IsKeyEvent(ev)
    requires !IsSquished(master, pressed, ev) && c.enabledCtrls & AllFilteredEventsMask != 0
    ensures var r := RouterStep(c, master, pressed, s, ev, down);
      r.route == (if ev.kind == KeyPress then AccessXPress else AccessXRelease)
      && r.dev == s && r.out == [] && r.diags == []
  {
  }

  /** With no filtered-events control enabled, an unsquished key event goes through the
      behaviour machine, and what it dispatches is what the router dispatches. */
  lemma UnfilteredEventsGoToBehavior(c: Config, master: bool, pressed: seq<bool>, s: DevState, ev: Event, down: set<int>)
    requires |pressed| == |ModifierKeys| && ValidDev(s) && EventInRange(c, ev) && IsKeyEvent(ev)
    requires !IsSquished(master, pressed, ev) && c.enabledCtrls & AllFilteredEventsMask == 0
    ensures var r := RouterStep(c, master, pressed, s, ev, down);
      var o := BehaviorStep(c, s, ev, down);
      r.route == Processed(o.cancelRepeat) && r.dev == o.state && r.out == o.out && r.diags == o.diags
  {
  }

  // ----- The event loop -----

  /** A device event together with the keys the device reports as logically down when
      it arrives. */
  datatype Input = Input(ev: Event, down: set<int>)

  datatype Machine = Machine(pressed: seq<bool>, dev: DevState)

  predicate ValidMachine(m: Machine) {
    |m.pressed| == |ModifierKeys| && ValidDev(m.dev)
  }

  predicate InputsInRange(c: Config, inputs: seq<Input>) {
    forall i :: 0 <= i < |inputs| ==> EventInRange(c, inputs[i].ev)
  }

  datatype RunResult = RunResult(machine: Machine, out: seq<Event>, routes: seq<Route>)

  /** The events of one device, processed to completion one after another. */
  function Run(c: Config, master: bool, m: Machine, inputs: seq<Input>): (r: RunResult)
    requires ValidMachine(m) && InputsInRange(c, inputs)
    ensures ValidMachine(r.machine) && |r.machine.dev.currentDown| == |m.dev.currentDown|
    ensures |r.routes| == |inputs|
    decreases |inputs|
  {
    if |inputs| == 0 then RunResult(m, [], [])
    else
      var prev := Run(c, master, m, inputs[..|inputs| - 1]);
      var last := inputs[|inputs| - 1];
      var o := RouterStep(c, master, prev.machine.pressed, prev.machine.dev, last.ev, last.down);
      RunResult(Machine(o.pressed, o.dev), prev.out + o.out, prev.routes + [o.route])
  }

  /** Each event leads to at most two dispatches (the radio-group cross release and the
      press), however long the run. */
  lemma {:induction false} RunDispatchBound(c: Config, master: bool, m: Machine, inputs: seq<Input>)
    requires ValidMachine(m) && InputsInRange(c, inputs)
    ensures |Run(c, master, m, inputs).out| <= 2 * |inputs|
    decreases |inputs|
  {
    if |inputs| > 0 {
      RunDispatchBound(c, master, m, inputs[..|inputs| - 1]);
    }
  }

  /** Every radio group's current key is, after any run, 0, its initial value, or (as an
      unsigned char) the keycode of a press in the run. */
  lemma {:induction false} RunRadioCurrentDown(c: Config, master: bool, m: Machine, inputs: seq<Input>, g: int)
    requires ValidMachine(m) && InputsInRange(c, inputs) && 0 <= g < |m.dev.currentDown|
    ensures var cd := Run(c, master, m, inputs).machine.dev.currentDown[g];
      cd == 0 || cd == m.dev.currentDown[g]
      || exists i :: 0 <= i < |inputs| && inputs[i].ev.kind == KeyPress && cd == inputs[i].ev.key % 256
    decreases |inputs|
  {
    if |inputs| > 0 {
      var front := inputs[..|inputs| - 1];
      RunRadioCurrentDown(c, master, m, front, g);
      var prev := Run(c, master, m, front);
      var cd := Run(c, master, m, inputs).machine.dev.currentDown[g];
      if cd != prev.machine.dev.currentDown[g] && cd != 0 {
        var last := inputs[|inputs| - 1];
        assert last.ev.kind == KeyPress && cd == last.ev.key % 256;
      } else if cd == prev.machine.dev.currentDown[g] && cd != 0 && cd != m.dev.currentDown[g] {
        var i :| 0 <= i < |front| && front[i].ev.kind == KeyPress && cd == front[i].ev.key % 256;
        assert inputs[i] == front[i];
      }
    }
  }

  /** The last key event (press or release) in `inputs` whose keycode is `key`. */
  function LastKeyEvent(inputs: seq<Input>, key: int): (r: Option<Event>)
    ensures r.Some? ==> IsKeyEvent(r.value) && r.value.key == key
    decreases |inputs|
  {
    if |inputs| == 0 then None
    else
      var ev := inputs[|inputs| - 1].ev;
      if IsKeyEvent(ev) && ev.key == key then Some(ev)
      else LastKeyEvent(inputs[..|inputs| - 1], key)
  }

  /** On the master keyboard each modifier's flag after a run says whether the last key event
      of its keycode was a press; a modifier with no key event in the run keeps its flag. */
  lemma {:induction false} RunTracksModifiers(c: Config, m: Machine, inputs: seq<Input>, i: int)
    requires ValidMachine(m) && InputsInRange(c, inputs) && 0 <= i < |ModifierKeys|
    ensures Run(c, true, m, inputs).machine.pressed[i] ==
      match LastKeyEvent(inputs, ModifierKeys[i].keycode)
      case None => m.pressed[i]
      case Some(ev) => ev.kind == KeyPress
    decreases |inputs|
  {
    if |inputs| > 0 {
      var front := inputs[..|inputs| - 1];
      RunTracksModifiers(c, m, front, i);
      var prev := Run(c, true, m, front);
      var last := inputs[|inputs| - 1];
      if IsKeyEvent(last.ev) {
        TrackedFlagsEffect(prev.machine.pressed, last.ev, i);
      }
    }
  }

  /** A device other than the master keyboard never changes the modifier flags. */
  lemma {:induction false} RunSlaveKeepsModifiers(c: Config, m: Machine, inputs: seq<Input>)
    requires ValidMachine(m) && InputsInRange(c, inputs)
    ensures Run(c, false, m, inputs).machine.pressed == m.pressed
    decreases |inputs|
  {
    if |inputs| > 0 {
      RunSlaveKeepsModifiers(c, m, inputs[..|inputs| - 1]);
    }
  }
}
