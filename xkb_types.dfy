/**
 * The values the keyboard-event pipeline works on: device key events, the
 * per-key behaviour descriptors of the keymap, the read-only keymap and control
 * configuration of a device, the mutable per-device XKB state, and the
 * diagnostics the pipeline writes to the server log.
 */
module XkbTypes {

  /** A keycode as stored in the event's `detail.key` (an unsigned 32-bit field). */
  type DetailKey = k: int | 0 <= k < 0x1_0000_0000

  /** An unsigned char: a behaviour's type and datum, a device's keycode bounds, and the
      keycode a radio group stores. */
  type Byte = k: int | 0 <= k < 256

  /** The event kinds the pipeline distinguishes; every other device event is `OtherEvent`. */
  datatype EventType = KeyPress | KeyRelease | OtherEvent

  datatype Event = Event(kind: EventType, key: DetailKey, repeat: bool)

  predicate IsKeyEvent(ev: Event) {
    ev.kind == KeyPress || ev.kind == KeyRelease
  }

  /** A key behaviour of the X Keyboard Extension: an 8-bit type and an 8-bit datum. */
  datatype Behavior = Behavior(kind: Byte, data: Byte)

  // Behaviour types; the Permanent bit is orthogonal to the kind.
  const KB_Default: Byte := 0x00
  const KB_Lock: Byte := 0x01
  const KB_RadioGroup: Byte := 0x02
  const KB_Overlay1: Byte := 0x03
  const KB_Overlay2: Byte := 0x04
  const KB_Permanent: Byte := 0x80
  /** In a radio-group behaviour's datum: the group may have no key down. */
  const KB_RGAllowNone: Byte := 0x80

  // Boolean-control bits of `enabled_ctrls`.
  const RepeatKeysMask: bv32 := 0x0001
  const SlowKeysMask: bv32 := 0x0002
  const BounceKeysMask: bv32 := 0x0004
  const StickyKeysMask: bv32 := 0x0008
  const MouseKeysAccelMask: bv32 := 0x0020
  const AccessXKeysMask: bv32 := 0x0040
  const AccessXTimeoutMask: bv32 := 0x0080
  const Overlay1Mask: bv32 := 0x0400
  const Overlay2Mask: bv32 := 0x0800
  /** The controls whose AccessX filters see key events before the behaviours do. */
  const AllFilteredEventsMask: bv32 :=
    AccessXKeysMask | RepeatKeysMask | MouseKeysAccelMask | AccessXTimeoutMask
    | SlowKeysMask | BounceKeysMask | StickyKeysMask

  /** Number of bits in the per-key overlay bitmap. */
  const OverlayKeys: nat := 256

  /**
   * What the pipeline reads but never writes: the behaviour of every keycode,
   * the device's keycode bounds, the enabled boolean controls and the key the
   * AccessX layer is currently repeating.
   */
  datatype Config = Config(
    behaviors: seq<Behavior>,
    minKeyCode: Byte,
    maxKeyCode: Byte,
    enabledCtrls: bv32,
    repeatKey: int)

  /**
   * The per-device state the behaviours change: the key currently down in each
   * radio group (0 for none; an unsigned char in the server) and one overlay bit
   * per keycode 0..255.
   */
  datatype DevState = DevState(currentDown: seq<Byte>, overlay: seq<bool>)

  predicate ValidDev(s: DevState) {
    |s.overlay| == OverlayKeys
  }

  /** A line the pipeline writes to the server log. */
  datatype Diagnostic =
    | SquishedPress(key: int, causes: seq<int>)
    | IllegalRadioGroup(index: int)
    | UnknownBehavior(kind: Byte)

  // The bit tests below are on unsigned chars, where masking with 0x80 keeps the top bit
  // and masking it off keeps the low seven bits: `x & 0x80` is `x / 0x80 * 0x80`, and
  // `x & ~0x80` is `x % 0x80`.

  /** The radio group a behaviour names: its datum without the allow-none bit. */
  function RadioIndex(b: Behavior): int {
    b.data % KB_RGAllowNone
  }

  predicate AllowsNone(b: Behavior) {
    b.data >= KB_RGAllowNone
  }

  predicate IsPermanent(b: Behavior) {
    b.kind >= KB_Permanent
  }
}
