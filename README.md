# Keyboard-event pipeline of the X server's keyboard extension, in Dafny

This project models `xkb/xkbPrKeyEv.c`: what the X server's keyboard extension (XKB) does
with a key event before it reaches the action layer. The file has four parts.

- **The modifier-side tracker.** A fixed table of eight modifier keys. Each entry has a
  keycode, a label, a keyboard side and a `pressed` flag. Every key event of the master
  keyboard updates the flag of each entry with the event's keycode.
- **The ghost-press ("squish") filter.** A fixed table of fifty ordinary keys, each with a
  side. A press of one of them is dropped while a modifier on the same side is held.
- **The key-behaviour machine.** It applies the key's XKB behaviour: Default, Lock,
  RadioGroup, Overlay1 or Overlay2, or none at all when the Permanent bit is set. It may
  rewrite the event's type or keycode. It may update a radio group's current key or the
  per-key overlay bitmap. It dispatches zero, one or two events to the action layer.
- **The router.** It sends non-key events to the legacy input procedure. Master-keyboard
  key events are tracked, and presses are squish-tested. The event then goes to the
  AccessX filters when a filtered-events control is enabled, and to the behaviour machine
  otherwise.

## How the model is built

- `tables.dfy` (module `KeyTables`) holds the two tables. They are constants, with the
  squishable table split into its four keyboard rows. It also has the table lookup
  `FirstIndex` and the proof that no modifier keycode is squishable.
- `xkb_types.dfy` (module `XkbTypes`) holds the events, the behaviour descriptor and its
  constants, the read-only `Config`, the per-device state `DevState` and the diagnostics.
  - Default = 0, Lock = 1, RadioGroup = 2, Overlay1 = 3, Overlay2 = 4.
  - Permanent = 0x80 in the type byte; RGAllowNone = 0x80 in the datum byte.
  - The control bits are those of the XKB protocol: RepeatKeys = 1<<0, SlowKeys = 1<<1,
    BounceKeys = 1<<2, StickyKeys = 1<<3, MouseKeysAccel = 1<<5, AccessXKeys = 1<<6,
    AccessXTimeout = 1<<7, Overlay1 = 1<<10, Overlay2 = 1<<11.
  - The filtered-events mask is the OR of AccessXKeys, RepeatKeys, MouseKeysAccel,
    AccessXTimeout, SlowKeys, BounceKeys and StickyKeys. These constants come from
    headers that are not part of this model.
  - A behaviour's type and datum, the keycode bounds and a radio group's current key are
    unsigned chars. They are integers in 0..255 here. On such a value, `x & 0x80` tests
    `x >= 0x80` and `x & ~0x80` is `x % 0x80`.
- `tracker.dfy` (module `ModifierSide`) holds the class `ModifierTracker`. Its `pressed`
  array runs parallel to the modifier table; in the C source the flags are fields of that
  table's entries. `TrackModifierState` and `SquishPressByModifierSide` are the two loops
  of the source. They are proved against the functions `TrackedFlags` and `SquishCauses`.
- `behavior.dfy` (module `KeyBehavior`) holds `BehaviorStep`, the behaviour machine as a
  function of the device state before the event, with one lemma per kind of behaviour.
- `router.dfy` (module `EventRouter`) holds `RouterStep`, the router as a function, and
  `Run`, the single-threaded event loop that feeds one device's events to it in order.
  Its lemmas are about whole event sequences.
- `keyboard.dfy` (module `XkbKeyboard`) holds the class `Keyboard`: the overlay bitmap
  (256 bits) and the radio groups' current keys as arrays, and the dispatched events and
  the log as sequences.
  - `ApplyBehavior` is `XkbProcessKeyboardEvent`. It rewrites a local copy of the event in
    place, as the C code rewrites `*event`, and is proved to do what `BehaviorStep` says.
  - `ProcessKeyboardEvent` is the router, proved against `RouterStep`.

Inputs the model takes as parameters:

- `Config`: the behaviour table, the keycode bounds, the enabled controls and the key
  AccessX is repeating.
- The radio-group count, taken as the length of `currentDown`.
- `down`: the set of keys the device reports as down. It stands for
  `key_is_down(keybd, key, KEY_PROCESSED)`.
- The device kind, as the `master` field.

Points of the C code the model keeps as written:

- An illegal radio-group index is logged, and the event is still dispatched unchanged
  (lines 254-256 and 296).
- An out-of-range overlay target leaves the keycode unchanged, and the event is still
  dispatched (lines 284-288 and 296).
- A release never clears a radio group's `currentDown`, because releases return before
  the group is read (lines 231-232). `RunRadioCurrentDown` states what holds instead: the
  current key is 0, its initial value, or the keycode of a press seen in the run.
- A radio group's current key is an unsigned char, so storing the event's keycode keeps
  its low 8 bits (`key % 256`, line 252).
- After a cross release, the event's type is set to KeyPress rather than restored to its
  original type (line 249).

## Model

| member | source | states |
|---|---|---|
| `KeyTables.FirstIndex` | xkb/xkbPrKeyEv.c:152-158 | the result is the index of an entry with the keycode and no earlier entry has it; none exactly when no entry has the keycode |
| `KeyTables.SquishableSide` | xkb/xkbPrKeyEv.c:152-162 | a keycode gets a side exactly when it is in the squishable table, and that side is the side of a table entry with the keycode |
| `KeyTables.ModifiersNotSquishable` | xkb/xkbPrKeyEv.c:58-132 | no modifier keycode appears in the squishable table, so a modifier's own press is never squished |
| `ModifierSide.FindKey` | xkb/xkbPrKeyEv.c:152-158 | the identify loop returns the index of the first table entry with the keycode, or none when no entry has it |
| `ModifierSide.ModifierTracker.TrackModifierState` | xkb/xkbPrKeyEv.c:134-139 | every modifier flag whose entry has the event's keycode becomes "the event is a press"; all other flags are unchanged |
| `ModifierSide.ModifierTracker.PressedModifiersOn` | xkb/xkbPrKeyEv.c:164-171 | the decide loop collects, in table order, exactly the keycodes of the pressed modifiers on the side, and squish is set iff it collected any |
| `ModifierSide.ModifierTracker.SquishPressByModifierSide` | xkb/xkbPrKeyEv.c:141-179 | squish holds iff the key is squishable and some pressed modifier is on its side; the logged causes are those modifiers in table order; no flag changes |
| `ModifierSide.ModifierTracker.constructor` | xkb/xkbPrKeyEv.c:58-71 | the tracker starts with every modifier flag clear |
| `ModifierSide.TrackedFlags` | xkb/xkbPrKeyEv.c:135-139 | tracking keeps one flag per modifier entry (the effect on each flag is `TrackedFlagsEffect`) |
| `ModifierSide.SquishCauses` | xkb/xkbPrKeyEv.c:160-171 | a key outside the squishable table has no causes, and no more causes are named than there are modifiers |
| `ModifierSide.TrackedFlagsEffect` | xkb/xkbPrKeyEv.c:135-139 | after tracking, a matching entry is pressed iff the event is a press (so a release or other event clears it); other entries keep their flag |
| `ModifierSide.TrackNonModifier` | xkb/xkbPrKeyEv.c:135-139 | an event whose keycode is no modifier leaves every flag unchanged |
| `ModifierSide.PressedOnSideMembers` | xkb/xkbPrKeyEv.c:166-171 | a keycode is among the logged causes iff it is the keycode of a pressed modifier on the key's side |
| `ModifierSide.PressedOnSideEmpty` | xkb/xkbPrKeyEv.c:166-171 | the list of causes is empty iff no pressed modifier is on the side |
| `ModifierSide.SquishIff` | xkb/xkbPrKeyEv.c:142-179 | the squish decision holds iff the key is squishable and a pressed modifier shares its side; keys outside the table are never squished |
| `ModifierSide.SquishCausesAreSameSide` | xkb/xkbPrKeyEv.c:166-171 | every modifier named in a squish diagnostic is pressed and on the squished key's side |
| `ModifierSide.HeldModifierSquishesSameSide` | xkb/xkbPrKeyEv.c:134-179 | once a modifier press is tracked, a press of any squishable key on that modifier's side is squished, with that modifier among the causes |
| `ModifierSide.OppositeSideNeverSquishes` | xkb/xkbPrKeyEv.c:166-171 | a squishable key is not squished while every held modifier is on the other side |
| `KeyBehavior.BehaviorStep` | xkb/xkbPrKeyEv.c:183-298 | at most two dispatches; a double dispatch is a release then a press; only the key's own overlay bit and only its own radio group can change, a group only to 0 or to the pressed key; the repeat is cancelled iff the repeating key is released with RepeatKeys disabled |
| `KeyBehavior.RadioGroupStep` | xkb/xkbPrKeyEv.c:226-256 | at most two dispatches, a double one being a release then a press; the overlay bitmap is untouched and only the named group can change, to 0 or, on a non-release, to the pressed keycode modulo 256 |
| `KeyBehavior.OverlayBitsAfter` | xkb/xkbPrKeyEv.c:273-282 | only the key's own bit can change: a non-release leaves it set iff it was set or the overlay is enabled, a release leaves it clear, and keycodes above 255 change nothing |
| `KeyBehavior.OverlayStep` | xkb/xkbPrKeyEv.c:257-290 | exactly one dispatch, radio groups untouched, and no overlay bit but the key's own changes |
| `KeyBehavior.PermanentForwardsUnchanged` | xkb/xkbPrKeyEv.c:203-209 | with the Permanent bit set, the event is dispatched once, unchanged, and no radio or overlay state changes |
| `KeyBehavior.UnknownForwardsUnchanged` | xkb/xkbPrKeyEv.c:291-293 | an unrecognised behaviour type is logged once and the event is dispatched once, unchanged, with no state change |
| `KeyBehavior.DefaultBehavior` | xkb/xkbPrKeyEv.c:210-219 | a non-repeat press of a key down and a release of a key not down dispatch nothing; every other event is dispatched once, unchanged |
| `KeyBehavior.LockBehavior` | xkb/xkbPrKeyEv.c:220-225 | a release dispatches nothing; a press of a key not down is dispatched as it is; a press of a key down is dispatched as a release of the same key |
| `KeyBehavior.RadioGroupBehavior` | xkb/xkbPrKeyEv.c:226-253 | with a valid index: a release dispatches nothing; a re-press with allow-none dispatches its release and clears the group; without allow-none it dispatches nothing; otherwise the previous key (if any) is released first, then the press, and the group's key becomes the new key |
| `KeyBehavior.IllegalRadioGroupForwards` | xkb/xkbPrKeyEv.c:254-256 | an index at or above the group count is logged once, and the event is still dispatched once, unchanged, with no state change |
| `KeyBehavior.OverlayBehavior` | xkb/xkbPrKeyEv.c:257-290 | a press sets the key's bit when the overlay is enabled and keeps it otherwise; a release clears it; keycodes above 255 have no bit; the keycode is rewritten to the target iff (enabled or bit was set) and the target is within bounds; one dispatch |
| `KeyBehavior.LockToggles` | xkb/xkbPrKeyEv.c:220-225 | two presses of a Lock key with no release between are dispatched as a press, then a release |
| `KeyBehavior.RadioGroupExclusion` | xkb/xkbPrKeyEv.c:243-252 | pressing A then B in one group dispatches press A, then release A and press B, and leaves B current |
| `KeyBehavior.OverlayRetainedAcrossDisable` | xkb/xkbPrKeyEv.c:263-288 | a key pressed while its overlay is enabled is also released as the overlay target after the overlay is disabled, and its bit is then clear |
| `EventRouter.RouterStep` | xkb/xkbPrKeyEv.c:301-351 | at most two dispatches per event; any route other than the behaviour machine dispatches nothing and leaves the device state unchanged |
| `EventRouter.NonKeyEventIsLegacy` | xkb/xkbPrKeyEv.c:312-319 | a non-key event goes only to the legacy input procedure, with no tracker, overlay or radio state touched |
| `EventRouter.SlaveSkipsTracking` | xkb/xkbPrKeyEv.c:323-331 | events of a non-master device are neither tracked nor squished |
| `EventRouter.MasterTracksKeyEvents` | xkb/xkbPrKeyEv.c:324-325 | on the master keyboard, presses and releases alike are tracked |
| `EventRouter.SquishedPressIsDropped` | xkb/xkbPrKeyEv.c:327-330 | a squished master press reaches neither AccessX nor the behaviour machine, dispatches nothing, changes no flag or device state, and logs the key with its causes |
| `EventRouter.ReleaseNeverSquished` | xkb/xkbPrKeyEv.c:328 | only presses are squish-tested |
| `EventRouter.FilteredEventsGoToAccessX` | xkb/xkbPrKeyEv.c:339-345 | with a filtered-events control enabled, the event goes to the AccessX press or release filter and the behaviour machine is not called directly |
| `EventRouter.UnfilteredEventsGoToBehavior` | xkb/xkbPrKeyEv.c:346-348 | otherwise the event goes through the behaviour machine, whose dispatches and state are the router's |
| `EventRouter.Run` | xkb/xkbPrKeyEv.c:301-351 | processing events one after another keeps the flag table and the overlay bitmap at their sizes and the radio-group count fixed |
| `EventRouter.RunDispatchBound` | xkb/xkbPrKeyEv.c:183-298 | over any event sequence, at most two events are dispatched per input event |
| `EventRouter.RunRadioCurrentDown` | xkb/xkbPrKeyEv.c:234-252 | after any run, each group's current key is 0, its initial value, or the (8-bit) keycode of a press in the run |
| `EventRouter.RunTracksModifiers` | xkb/xkbPrKeyEv.c:324-325 | on the master keyboard, each modifier's flag after a run is "the last key event of its keycode was a press", or its initial flag if there was none |
| `EventRouter.RunSlaveKeepsModifiers` | xkb/xkbPrKeyEv.c:323-331 | a non-master device never changes the modifier flags |
| `XkbKeyboard.Keyboard.Dispatch` | xkb/xkbPrKeyEv.c:296 | handing an event to the action layer appends it to the dispatched events |
| `XkbKeyboard.Keyboard.ApplyBehavior` | xkb/xkbPrKeyEv.c:183-298 | the dispatched events, the new radio and overlay state, the log, the final event record and the repeat cancellation are exactly those of `BehaviorStep` |
| `XkbKeyboard.Keyboard.ApplyRadioGroup` | xkb/xkbPrKeyEv.c:226-256 | the radio case dispatches the cross release in place, restores the press, and leaves exactly `RadioGroupStep`'s state and events |
| `XkbKeyboard.Keyboard.ApplyOverlay` | xkb/xkbPrKeyEv.c:257-290 | the overlay case updates the bitmap in place and rewrites the keycode exactly as `OverlayStep` says |
| `XkbKeyboard.Keyboard.ProcessKeyboardEvent` | xkb/xkbPrKeyEv.c:300-351 | the route, the new modifier flags, the device state, the dispatched events and the log are exactly those of `RouterStep` |

## Left out

- Diagnostic text: `DebugF`, `ErrorF` and the formatting into the static 1024-byte buffer
  are text output. Each log line is a `Diagnostic` record. The debug trace under
  `xkbDebugFlags` is not modelled.
- `XkbHandleActions` is the action layer, outside this file. Dispatching appends the event
  to `dispatched`, and any effect of an action on later events is not modelled.
- `key_is_down` reads device state owned elsewhere. It is the `down` parameter, which does
  not change during one event. How it changes between events, after dispatch, is not
  modelled.
- The AccessX filters are another subsystem. Handing an event to them is recorded as the
  route `AccessXPress` or `AccessXRelease`. Their own later call into the behaviour
  machine is not modelled. `AccessXCancelRepeatKey` is recorded as the returned
  `cancelled` flag; the repeat timer itself is not modelled.
- The wrapping and unwrapping of `processInputProc` is function-pointer plumbing. Calling
  the legacy procedure is recorded as the route `Legacy`.
- Building the keymap (behaviours, radio groups, keycode bounds) happens outside this
  file. These are inputs.
- The file-level statics and the single-threaded event loop they rely on: the flags are
  the fields of one `ModifierTracker` object, and `Run` processes events strictly one
  after another.
- Fields of the device event other than type, keycode and the repeat flag (time, device
  ids and so on) are not modelled. The C code also converts the 32-bit keycode to an
  `int`, which would turn negative above 2^31 - 1; keycodes here are bounded by the
  behaviour table instead.
- The router's caller never reads the event record after the call. Only
  `ApplyBehavior` returns the rewritten record.
