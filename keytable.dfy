/**
 * The translation table from PCjr scancodes to USB key codes: one entry per
 * scancode 0x00 .. 0x55, fixed at build time and indexed by the scancode.
 * The table is a constant array in the firmware; here it is the function
 * from an in-range index to its entry.
 */
module KeyTable {
  import opened KeyCodes

  /**
   * One table entry (`struct keytable`): the key sent without the FN layer,
   * the key sent with it and the modifier bits that key implies, and, for a
   * modifier key, its modifier bits (KEY_GUI marks the FN key itself).
   */
  datatype Entry = Entry(key: bv8, fnkey: bv8, fnkeyModifier: bv8, modifier: bv8)

  /** Scancodes at or above this value are ignored by the translator. */
  const SCANCODE_LIMIT := 0x55

  /**
   * `pcjr_key_to_usb[code]`: the table entry of a scancode. The table has an
   * entry for each scancode 0x00 to 0x55, so `code` must be at most 0x55.
   */
  function PcjrKeyToUsb(code: nat): Entry
    requires code <= SCANCODE_LIMIT
  {
    match code
    case 0x00 => Entry(0, 0, 0, 0)
    case 0x01 => Entry(KEY_ESC, 0, 0, 0)
    case 0x02 => Entry(KEY_1, KEY_F1, 0, 0)
    case 0x03 => Entry(KEY_2, KEY_F2, 0, 0)
    case 0x04 => Entry(KEY_3, KEY_F3, 0, 0)
    case 0x05 => Entry(KEY_4, KEY_F4, 0, 0)
    case 0x06 => Entry(KEY_5, KEY_F5, 0, 0)
    case 0x07 => Entry(KEY_6, KEY_F6, 0, 0)
    case 0x08 => Entry(KEY_7, KEY_F7, 0, 0)
    case 0x09 => Entry(KEY_8, KEY_F8, 0, 0)
    case 0x0A => Entry(KEY_9, KEY_F9, 0, 0)
    case 0x0B => Entry(KEY_0, KEY_F10, 0, 0)
    case 0x0C => Entry(KEY_MINUS, 0, 0, 0)
    case 0x0D => Entry(KEY_EQUAL, 0, 0, 0)
    case 0x0E => Entry(KEY_BACKSPACE, 0, 0, 0)
    case 0x0F => Entry(KEY_TAB, 0, 0, 0)
    case 0x10 => Entry(KEY_Q, KEY_PAUSE, 0, 0)
    case 0x11 => Entry(KEY_W, 0, 0, 0)
    case 0x12 => Entry(KEY_E, 0, 0, 0)
    case 0x13 => Entry(KEY_R, 0, 0, 0)
    case 0x14 => Entry(KEY_T, 0, 0, 0)
    case 0x15 => Entry(KEY_Y, 0, 0, 0)
    case 0x16 => Entry(KEY_U, 0, 0, 0)
    case 0x17 => Entry(KEY_I, 0, 0, 0)
    case 0x18 => Entry(KEY_O, 0, 0, 0)
    case 0x19 => Entry(KEY_P, KEY_PRINTSCREEN, 0, 0)
    case 0x1A => Entry(KEY_LEFT_BRACE, KEY_BACKSLASH, KEY_SHIFT, 0)
    case 0x1B => Entry(KEY_RIGHT_BRACE, KEY_TILDE, KEY_SHIFT, 0)
    case 0x1C => Entry(KEY_ENTER, 0, 0, 0)
    case 0x1D => Entry(0, 0, 0, KEY_CTRL)
    case 0x1E => Entry(KEY_A, 0, 0, 0)
    case 0x1F => Entry(KEY_S, KEY_SCROLL_LOCK, 0, 0)
    case 0x20 => Entry(KEY_D, 0, 0, 0)
    case 0x21 => Entry(KEY_F, 0, 0, 0)
    case 0x22 => Entry(KEY_G, 0, 0, 0)
    case 0x23 => Entry(KEY_H, 0, 0, 0)
    case 0x24 => Entry(KEY_J, 0, 0, 0)
    case 0x25 => Entry(KEY_K, 0, 0, 0)
    case 0x26 => Entry(KEY_L, 0, 0, 0)
    case 0x27 => Entry(KEY_SEMICOLON, 0, 0, 0)
    case 0x28 => Entry(KEY_QUOTE, KEY_TILDE, 0, 0)
    case 0x29 => Entry(0, 0, 0, 0)
    case 0x2A => Entry(0, 0, 0, KEY_LEFT_SHIFT)
    case 0x2B => Entry(0, 0, 0, 0)
    case 0x2C => Entry(KEY_Z, 0, 0, 0)
    case 0x2D => Entry(KEY_X, 0, 0, 0)
    case 0x2E => Entry(KEY_C, 0, 0, 0)
    case 0x2F => Entry(KEY_V, 0, 0, 0)
    case 0x30 => Entry(KEY_B, 0, 0, 0)
    case 0x31 => Entry(KEY_N, 0, 0, 0)
    case 0x32 => Entry(KEY_M, 0, 0, 0)
    case 0x33 => Entry(KEY_COMMA, 0, 0, 0)
    case 0x34 => Entry(KEY_PERIOD, 0, 0, 0)
    case 0x35 => Entry(KEY_SLASH, KEY_BACKSLASH, 0, 0)
    case 0x36 => Entry(0, 0, 0, KEY_RIGHT_SHIFT)
    case 0x37 => Entry(0, 0, 0, 0)
    case 0x38 => Entry(0, 0, 0, KEY_ALT)
    case 0x39 => Entry(KEY_SPACE, 0, 0, 0)
    case 0x3A => Entry(KEY_CAPS_LOCK, 0, 0, 0)
    case 0x3B => Entry(0, 0, 0, 0)
    case 0x3C => Entry(0, 0, 0, 0)
    case 0x3D => Entry(0, 0, 0, 0)
    case 0x3E => Entry(0, 0, 0, 0)
    case 0x3F => Entry(0, 0, 0, 0)
    case 0x40 => Entry(0, 0, 0, 0)
    case 0x41 => Entry(0, 0, 0, 0)
    case 0x42 => Entry(0, 0, 0, 0)
    case 0x43 => Entry(0, 0, 0, 0)
    case 0x44 => Entry(0, 0, 0, 0)
    case 0x45 => Entry(0, 0, 0, 0)
    case 0x46 => Entry(0, 0, 0, 0)
    case 0x47 => Entry(0, 0, 0, 0)
    case 0x48 => Entry(KEY_UP, KEY_HOME, 0, 0)
    case 0x49 => Entry(0, 0, 0, 0)
    case 0x4A => Entry(0, 0, 0, 0)
    case 0x4B => Entry(KEY_LEFT, KEY_PAGE_UP, 0, 0)
    case 0x4C => Entry(0, 0, 0, 0)
    case 0x4D => Entry(KEY_RIGHT, KEY_PAGE_DOWN, 0, 0)
    case 0x4E => Entry(0, 0, 0, 0)
    case 0x4F => Entry(0, 0, 0, 0)
    case 0x50 => Entry(KEY_DOWN, KEY_END, 0, 0)
    case 0x51 => Entry(0, 0, 0, 0)
    case 0x52 => Entry(KEY_INSERT, 0, 0, 0)
    case 0x53 => Entry(KEY_DELETE, 0, 0, 0)
    case 0x54 => Entry(0, 0, 0, KEY_GUI)
    case _ => Entry(0, 0, 0, 0)  // 0x55
  }

  /**
   * The shape of an entry: a modifier entry sends no key, an implied
   * modifier comes only with an FN-layer key, and no modifier bits other
   * than the FN key's own include KEY_GUI.
   */
  predicate WellFormed(e: Entry)
  {
    && (e.modifier != 0 ==> e.key == 0 && e.fnkey == 0 && e.fnkeyModifier == 0)
    && (e.fnkeyModifier != 0 ==> e.fnkey != 0)
    && e.fnkeyModifier & KEY_GUI == 0
    && (e.modifier != KEY_GUI ==> e.modifier & KEY_GUI == 0)
  }

  /**
   * The table covers every scancode the translator accepts, every entry is
   * well formed, and scancode 0x54 is the one FN key.
   */
  lemma TableShape(code: nat)
    requires code <= SCANCODE_LIMIT
    ensures WellFormed(PcjrKeyToUsb(code))
    ensures PcjrKeyToUsb(code).modifier == KEY_GUI <==> code == 0x54
  {
    if code < 0x2B {
      LowerHalfShape(code);
    } else {
      UpperHalfShape(code);
    }
  }

  /** The entries of scancodes 0x00 to 0x2A are well formed and none is the FN key. */
  lemma LowerHalfShape(code: nat)
    requires code < 0x2B
    ensures WellFormed(PcjrKeyToUsb(code)) && PcjrKeyToUsb(code).modifier != KEY_GUI
  {
  }

  /** The entries of scancodes 0x2B to 0x55 are well formed and only 0x54 is the FN key. */
  lemma UpperHalfShape(code: nat)
    requires 0x2B <= code <= SCANCODE_LIMIT
    ensures WellFormed(PcjrKeyToUsb(code))
    ensures PcjrKeyToUsb(code).modifier == KEY_GUI <==> code == 0x54
  {
  }
}
