/**
 * The modifier-side tracker and the ghost-press ("squish") filter. The pressed
 * flags of the modifier table are process-wide state owned by one
 * `ModifierTracker`; the tables themselves never change.
 */
module ModifierSide {
  import opened Options
  import opened KeyTables
  import opened XkbTypes

  /** The pressed flags after tracking `ev`: each modifier entry whose keycode is the
      event's key becomes "the event is a press"; the others keep their flag. */
  function TrackedFlags(flags: seq<bool>, ev: Event): (r: seq<bool>)
    requires |flags| == |ModifierKeys|
    ensures |r| == |ModifierKeys|
  {
    seq(|flags|, i requires 0 <= i < |flags| =>
      if ModifierKeys[i].keycode == ev.key then ev.kind == KeyPress else flags[i])
  }

  /** The keycodes of the first `n` modifier entries that are pressed and on `side`,
      in table order: the modifiers a squish diagnostic names. */
  function PressedOnSide(flags: seq<bool>, side: Side, n: nat): (r: seq<int>)
    requires n <= |flags| == |ModifierKeys|
    ensures |r| <= n
  {
    if n == 0 then []
    else PressedOnSide(flags, side, n - 1)
         + (if flags[n - 1] && ModifierKeys[n - 1].side == side then [ModifierKeys[n - 1].keycode] else [])
  }

  predicate SomePressedOnSide(flags: seq<bool>, side: Side, n: nat)
    requires n <= |flags| == |ModifierKeys|
  {
    exists i :: 0 <= i < n && flags[i] && ModifierKeys[i].side == side
  }

  /** The modifiers that squish a press of `key`: none when `key` is not squishable,
      otherwise every pressed modifier on the key's side. */
  function SquishCauses(flags: seq<bool>, key: int): (r: seq<int>)
    requires |flags| == |ModifierKeys|
    ensures |r| <= |ModifierKeys|
    ensures SquishableSide(key).None? ==> r == []
  {
    match SquishableSide(key)
    case None => []
    case Some(side) => PressedOnSide(flags, side, |ModifierKeys|)
  }

  /** A modifier keycode is named by `PressedOnSide` exactly when one of the first `n`
      entries with that keycode is pressed and on `side`. */
  lemma {:induction false} PressedOnSideMembers(flags: seq<bool>, side: Side, n: nat, x: int)
    requires n <= |flags| == |ModifierKeys|
    ensures x in PressedOnSide(flags, side, n) <==>
      exists i :: 0 <= i < n && flags[i] && ModifierKeys[i].side == side && ModifierKeys[i].keycode == x
  {
    if n > 0 {
      PressedOnSideMembers(flags, side, n - 1, x);
    }
  }

  /** `PressedOnSide` is empty exactly when no entry among the first `n` is pressed on `side`. */
  lemma {:induction false} PressedOnSideEmpty(flags: seq<bool>, side: Side, n: nat)
    requires n <= |flags| == |ModifierKeys|
    ensures PressedOnSide(flags, side, n) == [] <==> !SomePressedOnSide(flags, side, n)
  {
    if n > 0 {
      PressedOnSideEmpty(flags, side, n - 1);
      if flags[n - 1] && ModifierKeys[n - 1].side == side {
        assert SomePressedOnSide(flags, side, n);
      } else if SomePressedOnSide(flags, side, n) {
        var i :| 0 <= i < n && flags[i] && ModifierKeys[i].side == side;
        assert i < n - 1;
      }
    }
  }

  /** The squish decision: a press is squished iff its key is in the squishable table and
      some pressed modifier shares the key's side. */
  lemma SquishIff(flags: seq<bool>, key: int)
    requires |flags| == |ModifierKeys|
    ensures SquishCauses(flags, key) != [] <==>
      SquishableSide(key).Some? && SomePressedOnSide(flags, SquishableSide(key).value, |ModifierKeys|)
    ensures SquishableSide(key).None? ==> SquishCauses(flags, key) == []
  {
    if SquishableSide(key).Some? {
      PressedOnSideEmpty(flags, SquishableSide(key).value, |ModifierKeys|);
    }
  }

  /** Every keycode a squish names is a pressed modifier on the squished key's side. */
  lemma SquishCausesAreSameSide(flags: seq<bool>, key: int, x: int)
    requires |flags| == |ModifierKeys|
    ensures x in SquishCauses(flags, key) ==>
      SquishableSide(key).Some?
      && exists i :: 0 <= i < |ModifierKeys| && flags[i] && ModifierKeys[i].keycode == x
                     && ModifierKeys[i].side == SquishableSide(key).value
  {
    if SquishableSide(key).Some? {
      PressedOnSideMembers(flags, SquishableSide(key).value, |ModifierKeys|, x);
    }
  }

  /** Tracking sets a modifier entry to "pressed" on a press of its keycode and to
      "released" on any other event of its keycode; the other entries are unchanged. */
  lemma TrackedFlagsEffect(flags: seq<bool>, ev: Event, i: int)
    requires |flags| == |ModifierKeys| && 0 <= i < |ModifierKeys|
    ensures ModifierKeys[i].keycode == ev.key ==> TrackedFlags(flags, ev)[i] == (ev.kind == KeyPress)
    ensures ModifierKeys[i].keycode != ev.key ==> TrackedFlags(flags, ev)[i] == flags[i]
  {
  }

  /** An event whose key is no modifier leaves every flag as it was. */
  lemma TrackNonModifier(flags: seq<bool>, ev: Event)
    requires |flags| == |ModifierKeys|
    requires forall i :: 0 <= i < |ModifierKeys| ==> ModifierKeys[i].keycode != ev.key
    ensures TrackedFlags(flags, ev) == flags
  {
  }

  /** Holding a modifier squishes every squishable key on its side and none on the other:
      after a press of modifier `i` is tracked, a press of a squishable key is squished
      whenever the key is on that modifier's side. */
  lemma {:induction false} HeldModifierSquishesSameSide(flags: seq<bool>, ev: Event, i: int, key: int)
    requires |flags| == |ModifierKeys| && 0 <= i < |ModifierKeys|
    requires ev.kind == KeyPress && ev.key == ModifierKeys[i].keycode
    ensures SquishableSide(key) == Some(ModifierKeys[i].side) ==>
      ModifierKeys[i].keycode in SquishCauses(TrackedFlags(flags, ev), key)
  {
    var f := TrackedFlags(flags, ev);
    PressedOnSideMembers(f, ModifierKeys[i].side, |ModifierKeys|, ModifierKeys[i].keycode);
  }

  /** With no modifier held on a key's side (for instance, only modifiers on the other
      side held), its press is not squished. */
  lemma OppositeSideNeverSquishes(flags: seq<bool>, key: int)
    requires |flags| == |ModifierKeys| && SquishableSide(key).Some?
    requires forall i :: 0 <= i < |ModifierKeys| && flags[i] ==> ModifierKeys[i].side != SquishableSide(key).value
    ensures SquishCauses(flags, key) == []
  {
    SquishIff(flags, key);
  }

  /** The index of the first entry of table `t` with keycode `key`: the search with which
      the squish filter identifies the pressed key. */
  method FindKey(t: seq<RawKey>, key: int) returns (found: Option<nat>)
    ensures found == FirstIndex(t, key)
  {
    found := None;
    var i := 0;
    while i < |t|
      invariant 0 <= i <= |t|
      invariant forall j :: 0 <= j < i ==> t[j].keycode != key
    {
      if t[i].keycode == key {
        found := Some(i);
        return;
      }
      i := i + 1;
    }
  }

  /** The process-wide pressed flags, parallel to `ModifierKeys`. */
  class ModifierTracker {
    const pressed: array<bool>

    ghost predicate Valid()
      reads this
    {
      pressed.Length == |ModifierKeys|
    }

    constructor ()
      ensures Valid() && fresh(pressed)
      ensures forall i :: 0 <= i < pressed.Length ==> !pressed[i]
    {
      pressed := new bool[|ModifierKeys|](_ => false);
    }

    /** Updates the flag of every modifier entry whose keycode is the event's key. */
    method TrackModifierState(ev: Event)
      requires Valid()
      modifies pressed
      ensures pressed[..] == TrackedFlags(old(pressed[..]), ev)
    {
      var i := 0;
      while i < pressed.Length
        invariant 0 <= i <= pressed.Length
        invariant forall j :: 0 <= j < i ==>
          pressed[j] == (if ModifierKeys[j].keycode == ev.key then ev.kind == KeyPress else old(pressed[j]))
        invariant forall j :: i <= j < pressed.Length ==> pressed[j] == old(pressed[j])
      {
        if ModifierKeys[i].keycode == ev.key {
          pressed[i] := ev.kind == KeyPress;
        }
        i := i + 1;
      }
    }

    /** Decides whether a press of `ev.key` is squished, and returns the keycodes of the
        modifiers the diagnostic line names. Reads the flags; changes nothing. */
    method SquishPressByModifierSide(ev: Event) returns (squish: bool, causes: seq<int>)
      requires Valid()
      ensures causes == SquishCauses(pressed[..], ev.key) && (squish <==> causes != [])
      ensures squish <==> SquishableSide(ev.key).Some?
                          && SomePressedOnSide(pressed[..], SquishableSide(ev.key).value, |ModifierKeys|)
    {
      squish := false;
      causes := [];
      // identify
      var pressedkey := FindKey(SquishableKeys, ev.key);
      // squish interesting keys only
      if pressedkey.None? {
        SquishIff(pressed[..], ev.key);
        return;
      }
      var side := SquishableKeys[pressedkey.value].side;
      assert SquishableSide(ev.key) == Some(side);
      // decide
      squish, causes := PressedModifiersOn(side);
      assert causes == SquishCauses(pressed[..], ev.key);
      SquishIff(pressed[..], ev.key);
    }
  
    /** The decide loop of the squish filter: collects, in table order, the keycodes of
        the pressed modifiers on `side`, and whether there is any. */
    method PressedModifiersOn(side: Side) returns (squish: bool, causes: seq<int>)
      requires Valid()
      ensures causes == PressedOnSide(pressed[..], side, |ModifierKeys|)
      ensures squish <==> causes != []
    {
      squish := false;
      causes := [];
      var k := 0;
      while k < pressed.Length
        invariant 0 <= k <= pressed.Length
        invariant causes == PressedOnSide(pressed[..], side, k)
        invariant squish <==> causes != []
      {
        if pressed[k] && ModifierKeys[k].side == side {
          causes := causes + [ModifierKeys[k].keycode];
          squish := true;
        }
        k := k + 1;
      }
    }
  }
}
