/**
 * The key-behaviour state machine as a function of the device state before the
 * event: what the event becomes, the events handed to the action layer (in
 * order), the device state afterwards and the diagnostics written. The
 * imperative `Keyboard.ApplyBehavior` is proved to do exactly this.
 */
module KeyBehavior {
  import opened XkbTypes

  datatype Outcome = Outcome(
    event: Event,                // the event record as the machine leaves it
    out: seq<Event>,             // the events dispatched to the action layer, in order
    state: DevState,
    diags: seq<Diagnostic>,
    cancelRepeat: bool)          // whether the AccessX repeat of this key was cancelled

  /** Whether the release of the key AccessX is repeating cancels the repeat. */
  predicate CancelsRepeat(c: Config, ev: Event) {
    c.repeatKey == ev.key && ev.kind == KeyRelease && c.enabledCtrls & RepeatKeysMask == 0
  }

  /** Forward the event unchanged, touching nothing. */
  function Forward(ev: Event, s: DevState): Outcome {
    Outcome(ev, [ev], s, [], false)
  }

  /** Dispatch nothing, touching nothing. */
  function Drop(ev: Event, s: DevState): Outcome {
    Outcome(ev, [], s, [], false)
  }

  function DefaultStep(s: DevState, ev: Event, down: set<int>): Outcome {
    if ev.kind == KeyPress && !ev.repeat && ev.key in down then Drop(ev, s)
    else if ev.kind == KeyRelease && ev.key !in down then Drop(ev, s)
    else Forward(ev, s)
  }

  function LockStep(s: DevState, ev: Event, down: set<int>): Outcome {
    if ev.kind == KeyRelease then Drop(ev, s)
    else if ev.key in down then Forward(ev.(kind := KeyRelease), s)
    else Forward(ev, s)
  }

  function RadioGroupStep(s: DevState, b: Behavior, ev: Event): (r: Outcome)
    ensures |r.out| <= 2 && r.state.overlay == s.overlay && |r.state.currentDown| == |s.currentDown|
    ensures forall g :: 0 <= g < |s.currentDown| && r.state.currentDown[g] != s.currentDown[g] ==>
      g == RadioIndex(b)
      && (r.state.currentDown[g] == 0 || (ev.kind != KeyRelease && r.state.currentDown[g] == ev.key % 256))
    ensures |r.out| == 2 ==> r.out[0].kind == KeyRelease && r.out[1].kind == KeyPress
  {
    var ndx := RadioIndex(b);
    if ndx < |s.currentDown| then
      var cur := s.currentDown[ndx];
      if ev.kind == KeyRelease then Drop(ev, s)
      else if cur == ev.key then
        if AllowsNone(b) then
          var rel := ev.(kind := KeyRelease);
          Outcome(rel, [rel], s.(currentDown := s.currentDown[ndx := 0]), [], false)
        else Drop(ev, s)
      else
        var s' := s.(currentDown := s.currentDown[ndx := ev.key % 256]);
        if cur != 0 then
          var press := ev.(kind := KeyPress);
          Outcome(press, [ev.(kind := KeyRelease, key := cur), press], s', [], false)
        else Forward(ev, s')
    else
      Outcome(ev, [ev], s, [IllegalRadioGroup(ndx)], false)
  }

  /** The overlay mask of an Overlay1 or Overlay2 behaviour. */
  function OverlayMask(b: Behavior): bv32 {
    if b.kind == KB_Overlay1 then Overlay1Mask else Overlay2Mask
  }

  /** The key's overlay bit before the event; keycodes above 255 have none. */
  function WasOverlaid(s: DevState, ev: Event): bool
    requires ValidDev(s)
  {
    ev.key < OverlayKeys && s.overlay[ev.key]
  }

  function OverlayBitsAfter(s: DevState, ev: Event, active: bool): (r: seq<bool>)
    requires ValidDev(s)
    ensures |r| == OverlayKeys
    ensures forall k :: 0 <= k < OverlayKeys && k != ev.key ==> r[k] == s.overlay[k]
    ensures ev.key < OverlayKeys && ev.kind != KeyRelease ==> r[ev.key] == (s.overlay[ev.key] || active)
    ensures ev.key < OverlayKeys && ev.kind == KeyRelease ==> !r[ev.key]
    ensures ev.key >= OverlayKeys ==> r == s.overlay
  {
    if ev.key >= OverlayKeys then s.overlay
    else if ev.kind != KeyRelease then (if active then s.overlay[ev.key := true] else s.overlay)
    else if s.overlay[ev.key] then s.overlay[ev.key := false]
    else s.overlay
  }

  function OverlayStep(c: Config, s: DevState, b: Behavior, ev: Event): (r: Outcome)
    requires ValidDev(s)
    ensures |r.out| == 1 && ValidDev(r.state) && r.state.currentDown == s.currentDown
    ensures forall k :: 0 <= k < OverlayKeys && k != ev.key ==> r.state.overlay[k] == s.overlay[k]
  {
    var active := c.enabledCtrls & OverlayMask(b) != 0;
    var e := if (active || WasOverlaid(s, ev)) && c.minKeyCode <= b.data && b.data <= c.maxKeyCode
             then ev.(key := b.data) else ev;
    Forward(e, s.(overlay := OverlayBitsAfter(s, ev, active)))
  }

  /**
   * One event through the behaviour machine. The event's key selects its
   * behaviour; a permanent behaviour is reported but not simulated.
   */
  function BehaviorStep(c: Config, s: DevState, ev: Event, down: set<int>): (r: Outcome)
    requires ev.key < |c.behaviors| && ValidDev(s)
    ensures |r.out| <= 2
    ensures ValidDev(r.state) && |r.state.currentDown| == |s.currentDown|
    ensures r.cancelRepeat <==> CancelsRepeat(c, ev)
    ensures forall k :: 0 <= k < OverlayKeys && k != ev.key ==> r.state.overlay[k] == s.overlay[k]
    ensures forall g :: 0 <= g < |s.currentDown| && r.state.currentDown[g] != s.currentDown[g] ==>
      c.behaviors[ev.key].kind == KB_RadioGroup && g == RadioIndex(c.behaviors[ev.key])
      && (r.state.currentDown[g] == 0 || (ev.kind != KeyRelease && r.state.currentDown[g] == ev.key % 256))
    ensures r.state.overlay != s.overlay ==> c.behaviors[ev.key].kind in {KB_Overlay1, KB_Overlay2}
    ensures |r.out| == 2 ==> r.out[0].kind == KeyRelease && r.out[1].kind == KeyPress
  {
    var b := c.behaviors[ev.key];
    var o :=
      if IsPermanent(b) then Forward(ev, s)
      else if b.kind == KB_Default then DefaultStep(s, ev, down)
      else if b.kind == KB_Lock then LockStep(s, ev, down)
      else if b.kind == KB_RadioGroup then RadioGroupStep(s, b, ev)
      else if b.kind == KB_Overlay1 || b.kind == KB_Overlay2 then OverlayStep(c, s, b, ev)
      else Outcome(ev, [ev], s, [UnknownBehavior(b.kind)], false);
    o.(cancelRepeat := CancelsRepeat(c, ev))
  }

  // ----- Properties of each kind of behaviour -----

  /** A permanent behaviour is reported, not simulated: the event goes to the action
      layer once, unchanged, and no radio-group or overlay state changes. */
  lemma PermanentForwardsUnchanged(c: Config, s: DevState, ev: Event, down: set<int>)
    requires ev.key < |c.behaviors| && ValidDev(s) && IsPermanent(c.behaviors[ev.key])
    ensures var r := BehaviorStep(c, s, ev, down);
      r.out == [ev] && r.event == ev && r.state == s && r.diags == []
  {
  }

  /** An unrecognised behaviour type is logged and the event forwarded once, unchanged. */
  lemma UnknownForwardsUnchanged(c: Config, s: DevState, ev: Event, down: set<int>)
    requires ev.key < |c.behaviors| && ValidDev(s)
    requires !IsPermanent(c.behaviors[ev.key])
    requires c.behaviors[ev.key].kind !in {KB_Default, KB_Lock, KB_RadioGroup, KB_Overlay1, KB_Overlay2}
    ensures var r := BehaviorStep(c, s, ev, down);
      r.out == [ev] && r.event == ev && r.state == s && r.diags == [UnknownBehavior(c.behaviors[ev.key].kind)]
  {
  }

  /** Default: a non-repeat press of a key already down and a release of a key not down are
      dropped; every other event is forwarded once, unchanged. */
  lemma DefaultBehavior(c: Config, s: DevState, ev: Event, down: set<int>)
    requires ev.key < |c.behaviors| && ValidDev(s) && c.behaviors[ev.key].kind == KB_Default
    ensures var r := BehaviorStep(c, s, ev, down);
      r.state == s && r.diags == [] && r.event == ev
      && r.out == (if (ev.kind == KeyPress && !ev.repeat && ev.key in down)
                      || (ev.kind == KeyRelease && ev.key !in down)
                   then [] else [ev])
  {
  }

  /** Lock: a release is never forwarded; a press of a key not down is forwarded as it is;
      a press of a key already down is forwarded once as a release of the same key. */
  lemma LockBehavior(c: Config, s: DevState, ev: Event, down: set<int>)
    requires ev.key < |c.behaviors| && ValidDev(s) && c.behaviors[ev.key].kind == KB_Lock
    ensures var r := BehaviorStep(c, s, ev, down);
      r.state == s && r.diags == []
      && (ev.kind == KeyRelease ==> r.out == [])
      && (ev.kind == KeyPress && ev.key !in down ==> r.out == [ev])
      && (ev.kind == KeyPress && ev.key in down ==> r.out == [Event(KeyRelease, ev.key, ev.repeat)])
  {
  }

  /** RadioGroup with an index below the number of groups: at most one key of the group is
      down, and only that group's entry changes. */
  lemma RadioGroupBehavior(c: Config, s: DevState, ev: Event, down: set<int>)
    requires ev.key < |c.behaviors| && ValidDev(s) && c.behaviors[ev.key].kind == KB_RadioGroup
    requires RadioIndex(c.behaviors[ev.key]) < |s.currentDown|
    ensures var r := BehaviorStep(c, s, ev, down);
      var b := c.behaviors[ev.key];
      var ndx := RadioIndex(b);
      var cur := s.currentDown[ndx];
      r.state.overlay == s.overlay && r.diags == []
      && (ev.kind == KeyRelease ==> r.out == [] && r.state == s)
      && (ev.kind == KeyPress && cur == ev.key && AllowsNone(b) ==>
            r.out == [Event(KeyRelease, ev.key, ev.repeat)]
            && r.state.currentDown == s.currentDown[ndx := 0])
      && (ev.kind == KeyPress && cur == ev.key && !AllowsNone(b) ==> r.out == [] && r.state == s)
      && (ev.kind == KeyPress && cur != ev.key && cur != 0 ==>
            r.out == [Event(KeyRelease, cur, ev.repeat), ev]
            && r.state.currentDown == s.currentDown[ndx := ev.key % 256])
      && (ev.kind == KeyPress && cur != ev.key && cur == 0 ==>
            r.out == [ev] && r.state.currentDown == s.currentDown[ndx := ev.key % 256])
  {
  }

  /** RadioGroup with an index at or above the number of groups: the error is logged and the
      event is still forwarded once, unchanged, with no state change. */
  lemma IllegalRadioGroupForwards(c: Config, s: DevState, ev: Event, down: set<int>)
    requires ev.key < |c.behaviors| && ValidDev(s) && c.behaviors[ev.key].kind == KB_RadioGroup
    requires RadioIndex(c.behaviors[ev.key]) >= |s.currentDown|
    ensures var r := BehaviorStep(c, s, ev, down);
      r.out == [ev] && r.state == s && r.diags == [IllegalRadioGroup(RadioIndex(c.behaviors[ev.key]))]
  {
  }

  /** Overlay1/Overlay2: the key's overlay bit is set by a press while the overlay is enabled
      and cleared by a release; the keycode is rewritten to the target iff the overlay is
      enabled or the bit was set and the target is within the device's keycode bounds; the
      event is then forwarded exactly once. */
  lemma OverlayBehavior(c: Config, s: DevState, ev: Event, down: set<int>)
    requires ev.key < |c.behaviors| && ValidDev(s)
    requires c.behaviors[ev.key].kind == KB_Overlay1 || c.behaviors[ev.key].kind == KB_Overlay2
    ensures var r := BehaviorStep(c, s, ev, down);
      var b := c.behaviors[ev.key];
      var active := c.enabledCtrls & OverlayMask(b) != 0;
      var wasSet := WasOverlaid(s, ev);
      var rewrite := (active || wasSet) && c.minKeyCode <= b.data <= c.maxKeyCode;
      r.state.currentDown == s.currentDown && r.diags == []
      && r.out == [if rewrite then Event(ev.kind, b.data, ev.repeat) else ev]
      && (ev.key < OverlayKeys && ev.kind == KeyPress ==> r.state.overlay[ev.key] == (wasSet || active))
      && (ev.key < OverlayKeys && ev.kind == KeyRelease ==> !r.state.overlay[ev.key])
      && (ev.key >= OverlayKeys ==> r.state.overlay == s.overlay)
  {
    var b := c.behaviors[ev.key];
    assert !IsPermanent(b);
    assert BehaviorStep(c, s, ev, down) == OverlayStep(c, s, b, ev).(cancelRepeat := CancelsRepeat(c, ev));
  }

  // ----- Two-event scenarios -----

  /** A Lock key pressed twice without a release in between toggles: the first press is
      forwarded as a press, the second (now that the key is down) as a release. */
  lemma LockToggles(c: Config, s: DevState, key: DetailKey, down: set<int>)
    requires key < |c.behaviors| && ValidDev(s) && c.behaviors[key].kind == KB_Lock
    requires key !in down
    ensures var press := Event(KeyPress, key, false);
      var r1 := BehaviorStep(c, s, press, down);
      var r2 := BehaviorStep(c, r1.state, press, down + {key});
      r1.out == [press] && r2.out == [Event(KeyRelease, key, false)]
  {
    LockBehavior(c, s, Event(KeyPress, key, false), down);
    LockBehavior(c, s, Event(KeyPress, key, false), down + {key});
  }

  /** Two keys of one radio group that does not allow "none": pressing A selects A; pressing
      B then releases A before pressing B, and B becomes the group's current key. */
  lemma RadioGroupExclusion(c: Config, s: DevState, a: DetailKey, b: DetailKey, down: set<int>)
    requires a < |c.behaviors| && b < |c.behaviors| && ValidDev(s)
    requires 0 < a < 256 && 0 < b < 256 && a != b
    requires c.behaviors[a].kind == KB_RadioGroup && c.behaviors[b].kind == KB_RadioGroup
    requires RadioIndex(c.behaviors[a]) == RadioIndex(c.behaviors[b]) < |s.currentDown|
    requires s.currentDown[RadioIndex(c.behaviors[a])] == 0
    ensures var g := RadioIndex(c.behaviors[a]);
      var r1 := BehaviorStep(c, s, Event(KeyPress, a, false), down);
      var r2 := BehaviorStep(c, r1.state, Event(KeyPress, b, false), down);
      r1.out == [Event(KeyPress, a, false)] && r1.state.currentDown[g] == a
      && r2.out == [Event(KeyRelease, a, false), Event(KeyPress, b, false)]
      && r2.state.currentDown[g] == b
  {
    RadioGroupBehavior(c, s, Event(KeyPress, a, false), down);
    var r1 := BehaviorStep(c, s, Event(KeyPress, a, false), down);
    RadioGroupBehavior(c, r1.state, Event(KeyPress, b, false), down);
  }

  /** An overlay key pressed while its overlay is enabled keeps its overlay target through
      the release even if the overlay was disabled in between, and the bit is then clear. */
  lemma OverlayRetainedAcrossDisable(c: Config, s: DevState, key: DetailKey, down: set<int>)
    requires key < |c.behaviors| && key < OverlayKeys && ValidDev(s)
    requires c.behaviors[key].kind == KB_Overlay1
    requires c.minKeyCode <= c.behaviors[key].data <= c.maxKeyCode
    requires c.enabledCtrls & Overlay1Mask != 0
    ensures var target := c.behaviors[key].data;
      var r1 := BehaviorStep(c, s, Event(KeyPress, key, false), down);
      var c2 := c.(enabledCtrls := c.enabledCtrls & !Overlay1Mask);
      var r2 := BehaviorStep(c2, r1.state, Event(KeyRelease, key, false), down);
      r1.out == [Event(KeyPress, target, false)]
      && r2.out == [Event(KeyRelease, target, false)]
      && !r2.state.overlay[key]
  {
    OverlayBehavior(c, s, Event(KeyPress, key, false), down);
    var r1 := BehaviorStep(c, s, Event(KeyPress, key, false), down);
    var c2 := c.(enabledCtrls := c.enabledCtrls & !Overlay1Mask);
    OverlayBehavior(c2, r1.state, Event(KeyRelease, key, false), down);
  }
}
