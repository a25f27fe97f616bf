/**
 * The scancode translator as a function on key states: what one accepted
 * frame does to the held-key slots, the report's modifier byte and the FN
 * latch.
 */
module Translator {
  import opened KeyCodes
  import opened KeyTable
  import Slots
  import Frame

  /**
   * The state the translator updates: the report's key slots
   * (`keyboard_keys`), its modifier byte (`keyboard_modifier_keys`) and the
   * FN latch (`local_modifier`), which holds KEY_GUI while FN is down plus the
   * modifier bits implied by FN-layer keys pressed since.
   */
  datatype KeyState = KeyState(keys: seq<bv8>, modifierKeys: bv8, localModifier: bv8)

  /** The state at start-up: empty slots, no modifiers, FN latch off. */
  function Initial(): (s: KeyState)
    ensures Valid(s)
  {
    KeyState(Slots.Zeros(Slots.SLOT_COUNT), 0, 0)
  }

  /**
   * The latch is off (0) or carries KEY_GUI; then the press path's test
   * `(local_modifier & KEY_GUI) == 0` and the release path's test
   * `local_modifier == 0` agree.
   */
  predicate LatchConsistent(localModifier: bv8)
  {
    localModifier == 0 || localModifier & KEY_GUI != 0
  }

  /** Six slots and a consistent latch. */
  predicate Valid(s: KeyState)
  {
    |s.keys| == Slots.SLOT_COUNT && LatchConsistent(s.localModifier)
  }

  /** Whether the FN layer is active for a key press. */
  predicate FnActive(s: KeyState)
  {
    s.localModifier & KEY_GUI != 0
  }

  /** The release flag of an accepted byte: bit 7. */
  predicate IsRelease(b: bv8)
  {
    b & 0x80 != 0
  }

  /** The scancode of an accepted byte: bits 0 to 6. */
  function ScanCode(b: bv8): (code: nat)
    ensures code < 0x80
    ensures code == b as nat % 0x80
  {
    (b & 0x7f) as nat
  }

  /** The byte of an accepted frame: the frame with its parity bit removed. */
  function DataByte(c: bv16): bv8
  {
    (c & 0xff) as bv8
  }

  /** Setting the bits of `mask` sets them and keeps every other bit. */
  lemma SetBits(m: bv8, mask: bv8)
    ensures (m | mask) & mask == mask
    ensures (m | mask) & !mask == m & !mask
  {
  }

  /** Clearing the bits of `mask` clears them and keeps every other bit. */
  lemma ClearBits(m: bv8, mask: bv8)
    ensures (m & !mask) & mask == 0
    ensures (m & !mask) & !mask == m & !mask
  {
  }

  /** Setting bits that were clear and clearing them again restores the byte. */
  lemma SetThenClear(m: bv8, mask: bv8)
    requires m & mask == 0
    ensures (m | mask) & !mask == m
  {
  }

  /** Setting the bits of `mask` a second time changes nothing. */
  lemma SetTwice(m: bv8, mask: bv8)
    ensures (m | mask) | mask == m | mask
  {
  }

  /** Setting further bits keeps the latch's KEY_GUI bit. */
  lemma LatchKeepsGui(latch: bv8, extra: bv8)
    requires latch & KEY_GUI != 0
    ensures (latch | extra) & KEY_GUI != 0
  {
  }

  /** The release flag and scancode of a frame, as the firmware masks them out of it. */
  lemma FrameFields(frame: bv16)
    ensures (frame & 0xff) & 0x80 != 0 <==> IsRelease(DataByte(frame))
    ensures ((frame & 0xff) & 0x7f) as nat == ScanCode(DataByte(frame))
  {
  }

  /** A key press whose scancode has table entry `e`. */
  function Press(s: KeyState, e: Entry): KeyState
  {
    if e.modifier == KEY_GUI then
      s.(localModifier := KEY_GUI)
    else if e.modifier != 0 then
      s.(modifierKeys := s.modifierKeys | e.modifier)
    else if !FnActive(s) then
      s.(keys := Slots.Insert(s.keys, e.key))
    else
      KeyState(Slots.Insert(s.keys, e.fnkey),
               s.modifierKeys | ((s.localModifier | e.fnkeyModifier) & !KEY_GUI),
               s.localModifier | e.fnkeyModifier)
  }

  /** A key release whose scancode has table entry `e`. */
  function Release(s: KeyState, e: Entry): KeyState
  {
    if e.modifier == KEY_GUI then
      s.(localModifier := 0)
    else if e.modifier != 0 then
      s.(modifierKeys := s.modifierKeys & !e.modifier)
    else if s.localModifier == 0 then
      s.(keys := Slots.Remove(s.keys, e.key))
    else
      KeyState(Slots.Remove(s.keys, e.fnkey),
               s.modifierKeys & !(s.localModifier & !KEY_GUI),
               s.localModifier)
  }

  /**
   * One accepted byte: a scancode at or above SCANCODE_LIMIT changes
   * nothing; otherwise its table entry is pressed or released.
   */
  function Translate(s: KeyState, b: bv8): KeyState
  {
    if ScanCode(b) >= SCANCODE_LIMIT then s
    else if IsRelease(b) then Release(s, PcjrKeyToUsb(ScanCode(b)))
    else Press(s, PcjrKeyToUsb(ScanCode(b)))
  }

  /** The press and release bytes of an in-range scancode select its table entry. */
  lemma TranslateCases(s: KeyState, b: bv8)
    requires ScanCode(b) < SCANCODE_LIMIT
    ensures IsRelease(b) ==> Translate(s, b) == Release(s, PcjrKeyToUsb(ScanCode(b)))
    ensures !IsRelease(b) ==> Translate(s, b) == Press(s, PcjrKeyToUsb(ScanCode(b)))
  {
  }

  /** One frame of nine samples: a dropped frame changes nothing. */
  function Step(s: KeyState, samples: seq<bool>): KeyState
    requires |samples| == 9
  {
    if Frame.FrameAccepted(samples) then Translate(s, DataByte(Frame.FrameOf(samples))) else s
  }

  /**
   * A frame is applied exactly when its parity sample read low or an odd
   * number of its data samples did; any other frame leaves the state as it was.
   */
  lemma StepAppliesIff(s: KeyState, samples: seq<bool>)
    requires |samples| == 9
    ensures !samples[8] || Frame.LowCount(samples, 8) % 2 == 1 ==>
      Step(s, samples) == Translate(s, DataByte(Frame.FrameOf(samples)))
    ensures samples[8] && Frame.LowCount(samples, 8) % 2 == 0 ==> Step(s, samples) == s
  {
    Frame.FrameAcceptedIff(samples);
  }

  /** The release flag of a frame's byte is set exactly when sample 7 read low. */
  lemma ReleaseFlagIsSampleSeven(samples: seq<bool>)
    requires |samples| == 9
    ensures IsRelease(DataByte(Frame.FrameOf(samples))) <==> !samples[7]
  {
    Frame.FrameUpToBit(samples, 9, 7);
  }

  /** A scancode at or above SCANCODE_LIMIT leaves the state unchanged. */
  lemma OutOfRangeIgnored(s: KeyState, b: bv8)
    requires ScanCode(b) >= SCANCODE_LIMIT
    ensures Translate(s, b) == s
  {
  }

  /**
   * In a valid state the release path's test `local_modifier == 0` and the
   * press path's test `(local_modifier & KEY_GUI) == 0` agree.
   */
  lemma LatchTestsAgree(s: KeyState)
    requires Valid(s)
    ensures s.localModifier == 0 <==> !FnActive(s)
  {
  }

  /** Every step keeps the state valid, whatever the table entry. */
  lemma PressReleaseKeepValid(s: KeyState, e: Entry)
    requires Valid(s)
    ensures Valid(Press(s, e))
    ensures Valid(Release(s, e))
  {
  }

  /** Every frame keeps the state valid. */
  lemma StepKeepsValid(s: KeyState, samples: seq<bool>)
    requires Valid(s) && |samples| == 9
    ensures Valid(Step(s, samples))
  {
    var b := DataByte(Frame.FrameOf(samples));
    if ScanCode(b) < SCANCODE_LIMIT {
      PressReleaseKeepValid(s, PcjrKeyToUsb(ScanCode(b)));
    }
  }

  /**
   * A standard modifier key: a press sets its bits in the modifier byte and a
   * release clears exactly those bits; every other bit, the slots and the
   * latch are untouched.
   */
  lemma ModifierKey(s: KeyState, e: Entry)
    requires e.modifier != 0 && e.modifier != KEY_GUI
    ensures Press(s, e).modifierKeys & e.modifier == e.modifier
    ensures Release(s, e).modifierKeys & e.modifier == 0
    ensures Press(s, e).modifierKeys & !e.modifier == s.modifierKeys & !e.modifier
    ensures Release(s, e).modifierKeys & !e.modifier == s.modifierKeys & !e.modifier
    ensures Press(s, e).keys == Release(s, e).keys == s.keys
    ensures Press(s, e).localModifier == Release(s, e).localModifier == s.localModifier
  {
  }

  /**
   * Pressing then releasing a standard modifier key whose bits were clear
   * restores the state.
   */
  lemma ModifierRoundTrip(s: KeyState, e: Entry)
    requires e.modifier != 0 && e.modifier != KEY_GUI
    requires s.modifierKeys & e.modifier == 0
    ensures Release(Press(s, e), e) == s
  {
  }

  /**
   * The FN key: a press sets the latch to exactly KEY_GUI (dropping the
   * modifier bits FN-layer keys added to it) and a release sets it to 0;
   * neither touches the slots or the modifier byte.
   */
  lemma FnKey(s: KeyState, e: Entry)
    requires e.modifier == KEY_GUI
    ensures Press(s, e) == s.(localModifier := KEY_GUI) && FnActive(Press(s, e))
    ensures Release(s, e) == s.(localModifier := 0) && !FnActive(Release(s, e))
  {
  }

  /**
   * A regular key with the FN latch off resolves to its plain key: the slots
   * get the insert or remove of `e.key`, and the modifier byte and latch stay.
   */
  lemma PlainKey(s: KeyState, e: Entry)
    requires Valid(s) && s.localModifier == 0 && e.modifier == 0
    ensures Press(s, e) == s.(keys := Slots.Insert(s.keys, e.key))
    ensures Release(s, e) == s.(keys := Slots.Remove(s.keys, e.key))
  {
  }

  /**
   * A regular key pressed with the FN latch on resolves to its FN-layer key:
   * the key's implied modifier bits join the latch, and every latch bit except
   * KEY_GUI is set in the modifier byte; no other modifier bit changes.
   */
  lemma FnLayerPress(s: KeyState, e: Entry)
    requires FnActive(s) && e.modifier == 0
    ensures Press(s, e).keys == Slots.Insert(s.keys, e.fnkey)
    ensures Press(s, e).localModifier == s.localModifier | e.fnkeyModifier
    ensures var layer := (s.localModifier | e.fnkeyModifier) & !KEY_GUI;
      && Press(s, e).modifierKeys & layer == layer
      && Press(s, e).modifierKeys & !layer == s.modifierKeys & !layer
  {
    var layer := (s.localModifier | e.fnkeyModifier) & !KEY_GUI;
    assert Press(s, e) == KeyState(Slots.Insert(s.keys, e.fnkey), s.modifierKeys | layer,
                                   s.localModifier | e.fnkeyModifier);
    SetBits(s.modifierKeys, layer);
  }

  /**
   * A regular key released with the FN latch on resolves to its FN-layer
   * key: every latch bit except KEY_GUI is cleared from the modifier byte and
   * no other modifier bit changes; the latch itself stays.
   */
  lemma FnLayerRelease(s: KeyState, e: Entry)
    requires Valid(s) && FnActive(s) && e.modifier == 0
    ensures Release(s, e).keys == Slots.Remove(s.keys, e.fnkey)
    ensures Release(s, e).localModifier == s.localModifier
    ensures var layer := s.localModifier & !KEY_GUI;
      && Release(s, e).modifierKeys & layer == 0
      && Release(s, e).modifierKeys & !layer == s.modifierKeys & !layer
  {
    ClearBits(s.modifierKeys, s.localModifier & !KEY_GUI);
  }

  /**
   * Pressing a table entry twice leaves the state as pressing it once does:
   * no key takes a second slot and no bit is set twice.
   */
  lemma PressEntryIdempotent(s: KeyState, e: Entry)
    ensures Press(Press(s, e), e) == Press(s, e)
  {
    if e.modifier == 0 {
      if FnActive(s) {
        var latch := s.localModifier | e.fnkeyModifier;
        var layer := latch & !KEY_GUI;
        assert Press(s, e) == KeyState(Slots.Insert(s.keys, e.fnkey), s.modifierKeys | layer, latch);
        LatchKeepsGui(s.localModifier, e.fnkeyModifier);
        SetTwice(s.localModifier, e.fnkeyModifier);
        SetTwice(s.modifierKeys, layer);
        Slots.InsertIdempotent(s.keys, e.fnkey);
      } else {
        Slots.InsertIdempotent(s.keys, e.key);
      }
    }
  }

  /** Pressing any scancode twice leaves the state as pressing it once does. */
  lemma PressIdempotent(s: KeyState, b: bv8)
    requires !IsRelease(b)
    ensures Translate(Translate(s, b), b) == Translate(s, b)
  {
    if ScanCode(b) < SCANCODE_LIMIT {
      TranslateCases(s, b);
      TranslateCases(Translate(s, b), b);
      PressEntryIdempotent(s, PcjrKeyToUsb(ScanCode(b)));
    }
  }

  /** The release byte of a press byte: the same scancode with bit 7 set. */
  function ReleaseOf(b: bv8): (r: bv8)
    ensures IsRelease(r) && ScanCode(r) == ScanCode(b)
  {
    b | 0x80
  }

  /**
   * With the latch off, pressing a regular key that no slot holds while a
   * slot is free, then releasing the same scancode, restores the state.
   */
  lemma PlainKeyRoundTrip(s: KeyState, b: bv8)
    requires Valid(s) && s.localModifier == 0
    requires !IsRelease(b) && ScanCode(b) < SCANCODE_LIMIT
    requires PcjrKeyToUsb(ScanCode(b)).modifier == 0
    requires PcjrKeyToUsb(ScanCode(b)).key !in s.keys && 0 in s.keys
    ensures Translate(Translate(s, b), ReleaseOf(b)) == s
  {
    var e := PcjrKeyToUsb(ScanCode(b));
    Slots.InsertRemoveRoundTrip(s.keys, e.key);
  }

  /**
   * With the latch on, pressing and releasing a regular key restores the
   * slots and the modifier byte when the FN-layer key was not held, a slot
   * was free and none of the latch's modifier bits were set; the latch keeps
   * the key's implied modifier bits until FN is released.
   */
  lemma FnLayerRoundTrip(s: KeyState, b: bv8)
    requires Valid(s) && FnActive(s)
    requires !IsRelease(b) && ScanCode(b) < SCANCODE_LIMIT
    requires PcjrKeyToUsb(ScanCode(b)).modifier == 0
    requires PcjrKeyToUsb(ScanCode(b)).fnkey !in s.keys && 0 in s.keys
    requires s.modifierKeys & ((s.localModifier | PcjrKeyToUsb(ScanCode(b)).fnkeyModifier) & !KEY_GUI) == 0
    ensures Translate(Translate(s, b), ReleaseOf(b))
         == s.(localModifier := s.localModifier | PcjrKeyToUsb(ScanCode(b)).fnkeyModifier)
  {
    var e := PcjrKeyToUsb(ScanCode(b));
    var latch := s.localModifier | e.fnkeyModifier;
    TranslateCases(s, b);
    TranslateCases(Press(s, e), ReleaseOf(b));
    FnLayerPressRelease(s, e);
    Slots.InsertRemoveRoundTrip(s.keys, e.fnkey);
  }

  /** The state after pressing and releasing a regular key with the FN latch on. */
  lemma FnLayerPressRelease(s: KeyState, e: Entry)
    requires Valid(s) && FnActive(s) && e.modifier == 0
    requires s.modifierKeys & ((s.localModifier | e.fnkeyModifier) & !KEY_GUI) == 0
    ensures Release(Press(s, e), e)
         == KeyState(Slots.Remove(Slots.Insert(s.keys, e.fnkey), e.fnkey),
                     s.modifierKeys, s.localModifier | e.fnkeyModifier)
  {
    var latch := s.localModifier | e.fnkeyModifier;
    var layer := latch & !KEY_GUI;
    var m := s.modifierKeys | layer;
    var keys := Slots.Insert(s.keys, e.fnkey);
    assert Press(s, e) == KeyState(keys, m, latch);
    LatchKeepsGui(s.localModifier, e.fnkeyModifier);
    SetThenClear(s.modifierKeys, layer);
    assert Release(KeyState(keys, m, latch), e) == KeyState(Slots.Remove(keys, e.fnkey), s.modifierKeys, latch);
  }

  /**
   * Releasing FN clears only the latch: FN-layer keys still held and the
   * modifier bits FN-layer presses set stay in the report.
   */
  lemma FnReleaseKeepsLayerKeys(s: KeyState)
    ensures Translate(s, 0xd4).keys == s.keys
    ensures Translate(s, 0xd4).modifierKeys == s.modifierKeys
    ensures Translate(s, 0xd4).localModifier == 0
  {
    TableShape(0x54);
  }

  /**
   * Consequence of the above: FN down, `[` down (FN layer: backslash with an
   * implied shift), FN up, `[` up. The release of `[` now resolves to the
   * plain left brace, so the backslash and the shift bit stay in the report.
   */
  lemma FnReleaseLeavesKeyStuck()
    ensures var s := Translate(Translate(Translate(Translate(Initial(), 0x54), 0x1a), 0xd4), 0x9a);
      && s.keys == [KEY_BACKSLASH, 0, 0, 0, 0, 0]
      && s.modifierKeys == KEY_SHIFT
      && s.localModifier == 0
  {
    TableShape(0x54);
    var s0 := Initial();
    var s1 := Translate(s0, 0x54);
    assert s1 == s0.(localModifier := KEY_GUI);
    var s2 := Translate(s1, 0x1a);
    assert PcjrKeyToUsb(0x1a) == Entry(KEY_LEFT_BRACE, KEY_BACKSLASH, KEY_SHIFT, 0);
    Slots.InsertIntoFirstEmpty(s0.keys, KEY_BACKSLASH, 0);
    assert s2 == KeyState([KEY_BACKSLASH, 0, 0, 0, 0, 0], KEY_SHIFT, KEY_GUI | KEY_SHIFT);
    var s3 := Translate(s2, 0xd4);
    assert s3 == s2.(localModifier := 0);
    Slots.RemoveAbsent(s3.keys, KEY_LEFT_BRACE);
  }

  /** Pressing `A` (scancode 0x1E) at start-up holds KEY_A in the first slot and no modifier. */
  lemma PressAFromStart()
    ensures Translate(Initial(), 0x1e) == KeyState([KEY_A, 0, 0, 0, 0, 0], 0, 0)
  {
    assert PcjrKeyToUsb(0x1e) == Entry(KEY_A, 0, 0, 0);
    Slots.InsertIntoFirstEmpty(Initial().keys, KEY_A, 0);
  }

  /** Left shift (0x2A) then `A` at start-up: KEY_A in the first slot with the shift bit set. */
  lemma ShiftThenA()
    ensures Translate(Translate(Initial(), 0x2a), 0x1e)
         == KeyState([KEY_A, 0, 0, 0, 0, 0], KEY_LEFT_SHIFT, 0)
  {
    assert PcjrKeyToUsb(0x2a) == Entry(0, 0, 0, KEY_LEFT_SHIFT);
    assert PcjrKeyToUsb(0x1e) == Entry(KEY_A, 0, 0, 0);
    Slots.InsertIntoFirstEmpty(Initial().keys, KEY_A, 0);
  }
}
