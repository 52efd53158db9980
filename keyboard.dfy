/**
 * The per-device XKB state of a keyboard and the two entry points that change
 * it: the key-behaviour machine, which rewrites the event in place and hands it
 * to the action layer, and the router in front of it.
 */
module XkbKeyboard {
  import opened KeyTables
  import opened XkbTypes
  import opened ModifierSide
  import opened KeyBehavior
  import opened EventRouter

  class Keyboard {
    /** Whether this is the master keyboard that aggregates all physical keyboards. */
    const master: bool
    /** One bit per keycode 0..255: "pressed while its overlay was enabled". */
    const overlayBits: array<bool>
    /** The current key of each radio group (0 for none); its length is the group count. */
    const currentDown: array<Byte>
    /** Every event handed to the action layer, in order. */
    var dispatched: seq<Event>
    /** Every line written to the server log, in order. */
    var log: seq<Diagnostic>

    ghost predicate Valid()
      reads this
    {
      overlayBits.Length == OverlayKeys
    }

    /** The radio-group and overlay state as a value. */
    function State(): (s: DevState)
      reads this, overlayBits, currentDown
      requires Valid()
      ensures ValidDev(s) && |s.currentDown| == currentDown.Length
    {
      DevState(currentDown[..], overlayBits[..])
    }

    constructor (master: bool, nRadioGroups: nat)
      ensures Valid() && this.master == master && fresh(overlayBits) && fresh(currentDown)
      ensures State() == DevState(seq(nRadioGroups, _ => 0), seq(OverlayKeys, _ => false))
      ensures dispatched == [] && log == []
    {
      this.master := master;
      overlayBits := new bool[OverlayKeys](_ => false);
      currentDown := new Byte[nRadioGroups](_ => 0);
      dispatched := [];
      log := [];
    }

    /** Hands an event to the action layer. */
    method Dispatch(e: Event)
      modifies this`dispatched
      ensures dispatched == old(dispatched) + [e]
    {
      dispatched := dispatched + [e];
    }

    /**
     * The key-behaviour machine for one event. `down` is the set of keys the device
     * reports as logically down. Returns the event record as the machine leaves it and
     * whether the AccessX repeat of the key was cancelled.
     */
    method ApplyBehavior(ev: Event, c: Config, down: set<int>) returns (event: Event, cancelled: bool)
      requires Valid() && ev.key < |c.behaviors|
      modifies this, overlayBits, currentDown
      ensures var o := BehaviorStep(c, old(State()), ev, down);
        event == o.event && cancelled == o.cancelRepeat && State() == o.state
        && dispatched == old(dispatched) + o.out && log == old(log) + o.diags
    {
      event := ev;
      var key := ev.key;
      cancelled := false;
      if c.repeatKey == key && event.kind == KeyRelease && c.enabledCtrls & RepeatKeysMask == 0 {
        cancelled := true;
      }
      var behavior := c.behaviors[key];
      var forward := true;
      if !IsPermanent(behavior) {
        if behavior.kind == KB_Default {
          if event.kind == KeyPress && !event.repeat && key in down {
            forward := false;
          } else if event.kind == KeyRelease && key !in down {
            forward := false;
          }
        } else if behavior.kind == KB_Lock {
          if event.kind == KeyRelease {
            forward := false;
          } else if key in down {
            event := event.(kind := KeyRelease);
          }
        } else if behavior.kind == KB_RadioGroup {
          event, forward := ApplyRadioGroup(ev, behavior);
        } else if behavior.kind == KB_Overlay1 || behavior.kind == KB_Overlay2 {
          event := ApplyOverlay(ev, c, behavior);
        } else {
          log := log + [UnknownBehavior(behavior.kind)];
        }
      }
      if forward {
        Dispatch(event);
      }
    }

    /** The RadioGroup case of the machine: returns the event record as the case leaves it
        and whether it is still to be dispatched; the cross release of the group's previous
        key (or the release of the same key) has already been dispatched. */
    method ApplyRadioGroup(ev: Event, behavior: Behavior) returns (event: Event, forward: bool)
      requires Valid()
      modifies this`dispatched, this`log, currentDown
      ensures var o := RadioGroupStep(old(State()), behavior, ev);
        event == o.event && State() == o.state && log == old(log) + o.diags
        && dispatched + (if forward then [event] else []) == old(dispatched) + o.out
    {
      event := ev;
      forward := true;
      var ndx := RadioIndex(behavior);
      if ndx < currentDown.Length {
        if event.kind == KeyRelease {
          forward := false;
          return;
        }
        if currentDown[ndx] == event.key {
          if AllowsNone(behavior) {
            event := event.(kind := KeyRelease);
            Dispatch(event);
            currentDown[ndx] := 0;
          }
          forward := false;
          return;
        }
        if currentDown[ndx] != 0 {
          var tmpkey := event.key;
          event := event.(kind := KeyRelease, key := currentDown[ndx]);
          Dispatch(event);
          event := event.(kind := KeyPress, key := tmpkey);
        }
        currentDown[ndx] := ev.key % 256;
      } else {
        log := log + [IllegalRadioGroup(ndx)];
      }
    }

    /** The Overlay1/Overlay2 case of the machine: updates the key's overlay bit and returns
        the event with its keycode possibly rewritten to the overlay target. */
    method ApplyOverlay(ev: Event, c: Config, behavior: Behavior) returns (event: Event)
      requires Valid()
      modifies overlayBits
      ensures var o := OverlayStep(c, old(State()), behavior, ev);
        event == o.event && State() == o.state && o.out == [event] && o.diags == []
    {
      ghost var s := State();
      event := ev;
      var key := ev.key;
      var which := OverlayMask(behavior);
      var overlayActiveNow := c.enabledCtrls & which != 0;
      var isKeyRelease := event.kind == KeyRelease;
      // whether the key was pressed while the overlay was enabled
      var keyWasOverlaid := false;
      if key < OverlayKeys {
        keyWasOverlaid := overlayBits[key];
        if !isKeyRelease {
          if overlayActiveNow {
            overlayBits[key] := true;
          }
        } else {
          if keyWasOverlaid {
            overlayBits[key] := false;
          }
        }
      }
      assert keyWasOverlaid == WasOverlaid(s, ev);
      assert overlayBits[..] == OverlayBitsAfter(s, ev, overlayActiveNow);
      if (overlayActiveNow || keyWasOverlaid)
         && c.minKeyCode <= behavior.data && behavior.data <= c.maxKeyCode {
        event := event.(key := behavior.data);
      }
    }

    /**
     * The router for one device event: non-key events go to the legacy input
     * procedure; master-keyboard key events are tracked and, for presses, squish-tested;
     * then the event goes to AccessX when a filtered-events control is enabled, and to
     * the behaviour machine otherwise.
     */
    method ProcessKeyboardEvent(tracker: ModifierTracker, ev: Event, c: Config, down: set<int>)
      returns (route: Route)
      requires Valid() && tracker.Valid() && tracker.pressed != overlayBits
      requires EventInRange(c, ev)
      modifies this, overlayBits, currentDown, tracker.pressed
      ensures var o := RouterStep(c, master, old(tracker.pressed[..]), old(State()), ev, down);
        route == o.route && tracker.pressed[..] == o.pressed && State() == o.dev
        && dispatched == old(dispatched) + o.out && log == old(log) + o.diags
    {
      ghost var flags := tracker.pressed[..];
      ghost var s := State();
      var isPress := ev.kind == KeyPress;
      var isRelease := ev.kind == KeyRelease;
      if !isPress && !isRelease {
        route := Legacy;
        return;
      }
      if master {
        tracker.TrackModifierState(ev);
        assert State() == s;
        if isPress {
          var squish, causes := tracker.SquishPressByModifierSide(ev);
          assert squish == IsSquished(master, flags, ev);
          if squish {
            log := log + [SquishedPress(ev.key, causes)];
            route := Squished;
            return;
          }
        }
      }
      assert !IsSquished(master, flags, ev);
      ghost var p := tracker.pressed[..];
      assert p == RouterStep(c, master, flags, s, ev, down).pressed;
      if c.enabledCtrls & AllFilteredEventsMask != 0 {
        if isPress {
          route := AccessXPress;
        } else {
          route := AccessXRelease;
        }
        return;
      }
      var event, cancelled := ApplyBehavior(ev, c, down);
      route := Processed(cancelled);
    }
  }
}
