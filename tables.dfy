/**
 * The two fixed key tables of the ghost-press filter: the eight modifier keys
 * whose pressed state is tracked, and the fifty ordinary keys whose presses may
 * be dropped ("squished"). Each entry carries its keycode, a label used in the
 * diagnostic line, and the physical half of the keyboard it sits on.
 */
module KeyTables {
  import opened Options

  datatype Side = Left | Right

  datatype RawKey = RawKey(desc: string, keycode: int, side: Side)

  /** The tracked modifier keys, in table order. */
  const ModifierKeys: seq<RawKey> := [
    RawKey("SHIFT", 50, Left),
    RawKey("SHIFT", 62, Right),
    RawKey("CTRL", 37, Left),
    RawKey("ALT", 64, Left),
    RawKey("SUPER", 133, Left),
    RawKey("SUPER", 134, Right),
    RawKey("ALT", 108, Right),
    RawKey("CTRL", 105, Right)
  ]

  /** The ordinary keys a same-side held modifier can squish, in table order, one
      constant per keyboard row. */
  const SquishableKeys: seq<RawKey> := SquishableRow1 + SquishableRow2 + SquishableRow3 + SquishableRow4

  const SquishableRow1: seq<RawKey> := [
    RawKey("ESC", 9, Left),
    RawKey("1", 10, Left),
    RawKey("2", 11, Left),
    RawKey("3", 12, Left),
    RawKey("4", 13, Left),
    RawKey("5", 14, Left),
    RawKey("6", 15, Left),
    RawKey("7", 16, Right),
    RawKey("8", 17, Right),
    RawKey("9", 18, Right),
    RawKey("0", 19, Right),
    RawKey("MINUS", 20, Right),
    RawKey("EQUALS", 21, Right),
    RawKey("BACKSPACE", 22, Right),
    RawKey("GRAVE", 49, Right)
  ]

  const SquishableRow2: seq<RawKey> := [
    RawKey("TAB", 23, Left),
    RawKey("Q", 24, Left),
    RawKey("W", 25, Left),
    RawKey("E", 26, Left),
    RawKey("R", 27, Left),
    RawKey("T", 28, Left),
    RawKey("Y", 29, Right),
    RawKey("U", 30, Right),
    RawKey("I", 31, Right),
    RawKey("O", 32, Right),
    RawKey("P", 33, Right),
    RawKey("BRACE_L", 34, Right),
    RawKey("BRACE_R", 35, Right),
    RawKey("BACKSLASH", 51, Right)
  ]

  const SquishableRow3: seq<RawKey> := [
    RawKey("A", 38, Left),
    RawKey("S", 39, Left),
    RawKey("D", 40, Left),
    RawKey("F", 41, Left),
    RawKey("G", 42, Left),
    RawKey("H", 43, Right),
    RawKey("J", 44, Right),
    RawKey("K", 45, Right),
    RawKey("L", 46, Right),
    RawKey("SEMICOLON", 47, Right),
    RawKey("QUOTE", 48, Right),
    RawKey("ENTER", 36, Right)
  ]

  const SquishableRow4: seq<RawKey> := [
    RawKey("Z", 52, Left),
    RawKey("X", 53, Left),
    RawKey("C", 54, Left),
    RawKey("V", 55, Left),
    RawKey("B", 56, Left),
    RawKey("N", 57, Right),
    RawKey("M", 58, Right),
    RawKey("PERIOD", 60, Right),
    RawKey("SLASH", 61, Right)
  ]

  /** The index of the first entry of `t` with keycode `key`, if there is one. */
  function FirstIndex(t: seq<RawKey>, key: int): (r: Option<nat>)
    ensures r.Some? ==> r.value < |t| && t[r.value].keycode == key
    ensures r.Some? ==> forall j :: 0 <= j < r.value ==> t[j].keycode != key
    ensures r.None? <==> forall j :: 0 <= j < |t| ==> t[j].keycode != key
    decreases |t|
  {
    if |t| == 0 then None
    else if t[0].keycode == key then Some(0)
    else match FirstIndex(t[1..], key)
      case None => None
      case Some(k) => Some(k + 1)
  }

  /** The side of the squishable key `key`, or None when `key` is not in the table. */
  function SquishableSide(key: int): (r: Option<Side>)
    ensures r.None? <==> forall j :: 0 <= j < |SquishableKeys| ==> SquishableKeys[j].keycode != key
    ensures r.Some? ==> exists j :: 0 <= j < |SquishableKeys| && SquishableKeys[j].keycode == key
                                     && SquishableKeys[j].side == r.value
  {
    match FirstIndex(SquishableKeys, key)
    case None => None
    case Some(i) => Some(SquishableKeys[i].side)
  }

  /** No modifier keycode is also a squishable keycode, so a modifier's own press is
      never squished. */
  lemma ModifiersNotSquishable()
    ensures forall i :: 0 <= i < |ModifierKeys| ==> SquishableSide(ModifierKeys[i].keycode).None?
  {
    forall i, j | 0 <= i < |ModifierKeys| && 0 <= j < |SquishableKeys|
      ensures SquishableKeys[j].keycode != ModifierKeys[i].keycode
    {
      ModifierKeycode(i);
      SquishableKeycode(j);
    }
  }

  /** Every modifier keycode, as a set. */
  lemma ModifierKeycode(i: int)
    requires 0 <= i < |ModifierKeys|
    ensures ModifierKeys[i].keycode in {37, 50, 62, 64, 105, 108, 133, 134}
  {
  }

  /** Every squishable keycode lies in 9..61 and is none of 37, 50 and 59. */
  lemma SquishableKeycode(j: int)
    requires 0 <= j < |SquishableKeys|
    ensures 9 <= SquishableKeys[j].keycode <= 61
    ensures SquishableKeys[j].keycode !in {37, 50, 59}
  {
  }
}
