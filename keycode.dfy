/**
 * The `Keycode` constants of lib/evdev_converter.py: USB HID usage IDs of the Keyboard/Keypad page (0x07),
 * section 10 of the HID Usage Tables 1.12, and the modifier-bit function that the keyboard report uses.
 */
module Keycode {
  import opened Bytes

  const A: int := 0x04
  const B: int := 0x05
  const C: int := 0x06
  const D: int := 0x07
  const E: int := 0x08
  const F: int := 0x09
  const G: int := 0x0A
  const H: int := 0x0B
  const I: int := 0x0C
  const J: int := 0x0D
  const K: int := 0x0E
  const L: int := 0x0F
  const M: int := 0x10
  const N: int := 0x11
  const O: int := 0x12
  const P: int := 0x13
  const Q: int := 0x14
  const R: int := 0x15
  const S: int := 0x16
  const T: int := 0x17
  const U: int := 0x18
  const V: int := 0x19
  const W: int := 0x1A
  const X: int := 0x1B
  const Y: int := 0x1C
  const Z: int := 0x1D
  const ONE: int := 0x1E
  const TWO: int := 0x1F
  const THREE: int := 0x20
  const FOUR: int := 0x21
  const FIVE: int := 0x22
  const SIX: int := 0x23
  const SEVEN: int := 0x24
  const EIGHT: int := 0x25
  const NINE: int := 0x26
  const ZERO: int := 0x27
  const ENTER: int := 0x28
  const RETURN: int := ENTER
  const ESCAPE: int := 0x29
  const BACKSPACE: int := 0x2A
  const TAB: int := 0x2B
  const SPACEBAR: int := 0x2C
  const SPACE: int := SPACEBAR
  const MINUS: int := 0x2D
  const EQUALS: int := 0x2E
  const LEFT_BRACKET: int := 0x2F
  const RIGHT_BRACKET: int := 0x30
  const BACKSLASH: int := 0x31
  const POUND: int := 0x32
  const SEMICOLON: int := 0x33
  const QUOTE: int := 0x34
  const GRAVE_ACCENT: int := 0x35
  const COMMA: int := 0x36
  const PERIOD: int := 0x37
  const FORWARD_SLASH: int := 0x38
  const CAPS_LOCK: int := 0x39
  const F1: int := 0x3A
  const F2: int := 0x3B
  const F3: int := 0x3C
  const F4: int := 0x3D
  const F5: int := 0x3E
  const F6: int := 0x3F
  const F7: int := 0x40
  const F8: int := 0x41
  const F9: int := 0x42
  const F10: int := 0x43
  const F11: int := 0x44
  const F12: int := 0x45
  const PRINT_SCREEN: int := 0x46
  const SCROLL_LOCK: int := 0x47
  const PAUSE: int := 0x48
  const INSERT: int := 0x49
  const HOME: int := 0x4A
  const PAGE_UP: int := 0x4B
  const DELETE: int := 0x4C
  const END: int := 0x4D
  const PAGE_DOWN: int := 0x4E
  const RIGHT_ARROW: int := 0x4F
  const LEFT_ARROW: int := 0x50
  const DOWN_ARROW: int := 0x51
  const UP_ARROW: int := 0x52
  const KEYPAD_NUMLOCK: int := 0x53
  const KEYPAD_FORWARD_SLASH: int := 0x54
  const KEYPAD_ASTERISK: int := 0x55
  const KEYPAD_MINUS: int := 0x56
  const KEYPAD_PLUS: int := 0x57
  const KEYPAD_ENTER: int := 0x58
  const KEYPAD_ONE: int := 0x59
  const KEYPAD_TWO: int := 0x5A
  const KEYPAD_THREE: int := 0x5B
  const KEYPAD_FOUR: int := 0x5C
  const KEYPAD_FIVE: int := 0x5D
  const KEYPAD_SIX: int := 0x5E
  const KEYPAD_SEVEN: int := 0x5F
  const KEYPAD_EIGHT: int := 0x60
  const KEYPAD_NINE: int := 0x61
  const KEYPAD_ZERO: int := 0x62
  const KEYPAD_PERIOD: int := 0x63
  const KEYPAD_BACKSLASH: int := 0x64
  const APPLICATION: int := 0x65
  const POWER: int := 0x66
  const KEYPAD_EQUALS: int := 0x67
  const F13: int := 0x68
  const F14: int := 0x69
  const F15: int := 0x6A
  const F16: int := 0x6B
  const F17: int := 0x6C
  const F18: int := 0x6D
  const F19: int := 0x6E
  const F20: int := 0x6F
  const F21: int := 0x70
  const F22: int := 0x71
  const F23: int := 0x72
  const F24: int := 0x73
  const LEFT_CONTROL: int := 0xE0
  const CONTROL: int := LEFT_CONTROL
  const LEFT_SHIFT: int := 0xE1
  const SHIFT: int := LEFT_SHIFT
  const LEFT_ALT: int := 0xE2
  const ALT: int := LEFT_ALT
  const OPTION: int := ALT
  const LEFT_GUI: int := 0xE3
  const GUI: int := LEFT_GUI
  const WINDOWS: int := GUI
  const COMMAND: int := GUI
  const RIGHT_CONTROL: int := 0xE4
  const RIGHT_SHIFT: int := 0xE5
  const RIGHT_ALT: int := 0xE6
  const RIGHT_GUI: int := 0xE7
  /** KEYPAD_COMMA is used by the evdev table of src/bluetooth_2_usb but is not among the constants above;
      its usage ID is the Keypad Comma entry of section 10 of the HID Usage Tables 1.12. */
  const KEYPAD_COMMA: int := 0x85

  /** The eight modifier usages, Left Control (0xE0) through Right GUI (0xE7). */
  predicate IsModifier(keycode: int)
  {
    LEFT_CONTROL <= keycode <= RIGHT_GUI
  }

  /** `Keycode.modifier_bit`: the bit of report byte 0 that a modifier key sets, or 0 for any other keycode. */
  function ModifierBit(keycode: int): (bit: int)
    ensures bit != 0 <==> IsModifier(keycode)
    ensures IsModifier(keycode) ==> bit == Pow2(keycode - LEFT_CONTROL)
    ensures 0 <= bit < 256
  {
    if IsModifier(keycode) then ModifierBitOf(keycode - LEFT_CONTROL) else 0
  }

  /** The bit for modifier number n (0 = left control ... 7 = right GUI). */
  function ModifierBitOf(n: nat): (bit: nat)
    requires n < 8
    ensures bit == Pow2(n) && 1 <= bit <= 128
  {
    match n
    case 0 => 1
    case 1 => 2
    case 2 => 4
    case 3 => 8
    case 4 => 16
    case 5 => 32
    case 6 => 64
    case 7 => 128
  }

  /** A modifier's bit is the single bit number keycode - 0xE0. */
  lemma ModifierBitSingle(keycode: int, i: nat)
    requires IsModifier(keycode)
    ensures Bit(ModifierBit(keycode), i) <==> i == keycode - LEFT_CONTROL
  {
    Pow2Bits(keycode - LEFT_CONTROL, i);
  }

  /** The eight modifier bits are pairwise different bits of one byte, so no two of them share a bit. */
  lemma ModifierBitsDisjoint(a: int, b: int)
    requires IsModifier(a) && IsModifier(b) && a != b
    ensures ModifierBit(a) != ModifierBit(b)
    ensures BitAnd(ModifierBit(a), ModifierBit(b)) == 0
  {
    var x, y := ModifierBit(a), ModifierBit(b);
    forall i | 0 <= i < 8 ensures Bit(BitAnd(x, y), i) == Bit(0, i) {
      BitAndBits(x, y, i);
      ModifierBitSingle(a, i);
      ModifierBitSingle(b, i);
      ZeroBits(0, i);
    }
    BitAndBelow(x, y);
    assert Pow2(8) == 256;
    BitsDetermine(BitAnd(x, y), 0, 8);
  }
}
