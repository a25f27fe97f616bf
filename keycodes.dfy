/**
 * Key codes and modifier bits of the USB keyboard library the firmware
 * reports through (its header, usb_keyboard.h, is not part of this model).
 * Key codes are the usage ids of the keyboard page of the USB HID Usage
 * Tables; modifier values are bits of the report's modifier byte. The
 * translation lemmas hold for every table entry and use no value here except
 * that KEY_GUI is not zero; the shape of the table and the concrete key
 * sequences in module Translator depend on the values.
 */
module KeyCodes {

  // Modifier bits of the report's first byte.
  const KEY_CTRL: bv8 := 0x01
  const KEY_SHIFT: bv8 := 0x02
  const KEY_ALT: bv8 := 0x04
  const KEY_GUI: bv8 := 0x08
  const KEY_LEFT_SHIFT: bv8 := 0x02
  const KEY_RIGHT_SHIFT: bv8 := 0x20

  // Key codes (HID usage ids).
  const KEY_A: bv8 := 4
  const KEY_B: bv8 := 5
  const KEY_C: bv8 := 6
  const KEY_D: bv8 := 7
  const KEY_E: bv8 := 8
  const KEY_F: bv8 := 9
  const KEY_G: bv8 := 10
  const KEY_H: bv8 := 11
  const KEY_I: bv8 := 12
  const KEY_J: bv8 := 13
  const KEY_K: bv8 := 14
  const KEY_L: bv8 := 15
  const KEY_M: bv8 := 16
  const KEY_N: bv8 := 17
  const KEY_O: bv8 := 18
  const KEY_P: bv8 := 19
  const KEY_Q: bv8 := 20
  const KEY_R: bv8 := 21
  const KEY_S: bv8 := 22
  const KEY_T: bv8 := 23
  const KEY_U: bv8 := 24
  const KEY_V: bv8 := 25
  const KEY_W: bv8 := 26
  const KEY_X: bv8 := 27
  const KEY_Y: bv8 := 28
  const KEY_Z: bv8 := 29
  const KEY_1: bv8 := 30
  const KEY_2: bv8 := 31
  const KEY_3: bv8 := 32
  const KEY_4: bv8 := 33
  const KEY_5: bv8 := 34
  const KEY_6: bv8 := 35
  const KEY_7: bv8 := 36
  const KEY_8: bv8 := 37
  const KEY_9: bv8 := 38
  const KEY_0: bv8 := 39
  const KEY_ENTER: bv8 := 40
  const KEY_ESC: bv8 := 41
  const KEY_BACKSPACE: bv8 := 42
  const KEY_TAB: bv8 := 43
  const KEY_SPACE: bv8 := 44
  const KEY_MINUS: bv8 := 45
  const KEY_EQUAL: bv8 := 46
  const KEY_LEFT_BRACE: bv8 := 47
  const KEY_RIGHT_BRACE: bv8 := 48
  const KEY_BACKSLASH: bv8 := 49
  const KEY_SEMICOLON: bv8 := 51
  const KEY_QUOTE: bv8 := 52
  const KEY_TILDE: bv8 := 53
  const KEY_COMMA: bv8 := 54
  const KEY_PERIOD: bv8 := 55
  const KEY_SLASH: bv8 := 56
  const KEY_CAPS_LOCK: bv8 := 57
  const KEY_F1: bv8 := 58
  const KEY_F2: bv8 := 59
  const KEY_F3: bv8 := 60
  const KEY_F4: bv8 := 61
  const KEY_F5: bv8 := 62
  const KEY_F6: bv8 := 63
  const KEY_F7: bv8 := 64
  const KEY_F8: bv8 := 65
  const KEY_F9: bv8 := 66
  const KEY_F10: bv8 := 67
  const KEY_PRINTSCREEN: bv8 := 70
  const KEY_SCROLL_LOCK: bv8 := 71
  const KEY_PAUSE: bv8 := 72
  const KEY_INSERT: bv8 := 73
  const KEY_HOME: bv8 := 74
  const KEY_PAGE_UP: bv8 := 75
  const KEY_DELETE: bv8 := 76
  const KEY_END: bv8 := 77
  const KEY_PAGE_DOWN: bv8 := 78
  const KEY_RIGHT: bv8 := 79
  const KEY_LEFT: bv8 := 80
  const KEY_DOWN: bv8 := 81
  const KEY_UP: bv8 := 82
}
