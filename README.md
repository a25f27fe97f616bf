# PCjr keyboard to USB adapter: the frame decoder and key translator

This project is a Dafny model of the core of the `pcjr_keyboard` firmware. The firmware runs on a Teensy board and turns the IBM PCjr keyboard's single-wire serial frames into USB HID keyboard reports. The model covers:

- **Frame assembly and the frame test** (module `Frame`). Nine line samples become a 9-bit frame `c`; a low sample gives a 1 bit. The set bits of the low byte are counted into `d`. The frame is applied only when `(c & 0x100) ^ (d & 1)` is non-zero.
- **The translation table** (module `KeyTable`). This is `struct keytable` and the 86-entry `pcjr_key_to_usb` table. The key codes in module `KeyCodes` are the USB HID usage ids and report modifier bits.
- **Scancode translation as functions on a key state** (module `Translator`). The state holds the report's six key slots, its modifier byte and the FN latch `local_modifier`. Bit 7 of the accepted byte is the release flag and bits 0-6 are the scancode. Scancodes of 0x55 and above change nothing. Every other scancode selects its table entry, and the entry is handled as one of three cases: the FN key (`modifier == KEY_GUI`), a standard modifier key, or a regular key that resolves to `key` or, with the latch on, to `fnkey`.
- **The slot table** (module `Slots`). It has the insert loop (first empty slot, stopping early at a slot already holding the key) and the remove loop (first matching slot).
- **The firmware's state updated in place** (module `Firmware`, class `PcjrKeyboard`):
  - the six slots are an `array<bv8>`;
  - the modifier byte and the latch are `bv8` fields;
  - each call of `usb_keyboard_send` bumps a counter of requested reports.

  Every method is proved against the `Translator` and `Slots` functions. `Step` is one pass of the polling loop after a start bit.

The firmware's types are modelled directly:

- `unsigned char` values, including the loop counter `i` of the sampling, counting and slot loops and the counter `d`, are `bv8`.
- The `unsigned short` frame is `bv16`.
- `~` is `!`.

The bit arithmetic therefore wraps exactly as in C.

Where the firmware's comments and the code disagree, the model follows the code:

- **Line 187 is commented "parity good", but it is not a parity comparison.** It XORs bit 8 (value 0x100) with bit 0 (value 1). So it keeps every frame whose parity sample read low, and otherwise keeps only the frames with an odd count of low data samples. `Frame.AcceptsIff` and `Frame.FrameAcceptedIff` state exactly this. `Frame.ParityFlipNotDetected` shows two frames that differ only in the parity bit, both kept.
- **Releasing FN (line 197) resets only the latch.** The modifier bits and FN-layer keys that FN-layer presses added stay in the report. A later release of the same scancode then resolves to the plain key. `Translator.FnReleaseKeepsLayerKeys` and `Translator.FnReleaseLeavesKeyStuck` state this behaviour as written.
- **The insert loop stops at the first empty slot.** A key held in a later slot, behind a hole, is written a second time (`Slots.InsertDuplicatesAfterHole`).

## Model

| member | source | states |
|---|---|---|
| Frame.FrameOf | pcjr_keyboard.c:176-183 | the frame of nine samples, bit `i` set for a low sample `i`; it has no `ensures` of its own: `Frame.FrameBits` and `Frame.FrameNineBits` state its bits and bound, and `Frame.ReadFrame` is proved to compute it |
| Frame.Popcount | pcjr_keyboard.c:184-186 | the number of set bits among bits 0 to n-1, at most n; `Frame.CountLowByte` is proved to compute it for the low byte and `Frame.PopcountOfSamples` ties it to the samples |
| Frame.Accepts | pcjr_keyboard.c:187 | the test of line 187 as written; it has no `ensures` of its own: `Frame.AcceptsIff` and `Frame.FrameAcceptedIff` state which frames it keeps |
| Frame.ReadBit | pcjr_keyboard.c:180-181 | one turn of the sampling loop: a low sample sets bit `i` of the accumulated value, a high one leaves it |
| Frame.ReadFrame | pcjr_keyboard.c:176-183 | the sampling loop returns the frame of the nine samples |
| Frame.FrameUpToBelow | pcjr_keyboard.c:178-183 | after `n` samples no bit at or above `n` is set |
| Frame.FrameUpToBit | pcjr_keyboard.c:178-183 | after `n` samples, bit `i < n` is set exactly when sample `i` read the line low |
| Frame.FrameBits | pcjr_keyboard.c:176-183 | every one of the nine frame bits is set exactly when its sample read low |
| Frame.FrameNineBits | pcjr_keyboard.c:176-183 | the frame is below 0x200 |
| Frame.CountBit | pcjr_keyboard.c:186 | one turn of the counting loop adds one to `d` exactly when bit `i` is set |
| Frame.CountLowByte | pcjr_keyboard.c:184-186 | the counting loop leaves in `d` the number of set bits of the low byte |
| Frame.PopcountOfSamples | pcjr_keyboard.c:184-186 | the set-bit count of the frame's low byte is the number of low data samples |
| Frame.CounterLowBit | pcjr_keyboard.c:187 | `d & 0x01`, widened, is the count modulo 2 |
| Frame.AcceptsIff | pcjr_keyboard.c:187 | the test keeps a frame exactly when bit 8 is set or the low byte's set-bit count is odd |
| Frame.FrameAcceptedIff | pcjr_keyboard.c:176-187 | a frame is kept exactly when the parity sample read low or an odd number of data samples did |
| Frame.OddParityFrameAccepted | pcjr_keyboard.c:184-187 | every frame with odd parity over all nine bits is kept |
| Frame.ParityHighEvenDataDropped | pcjr_keyboard.c:184-187 | a frame whose parity sample read high and whose data has an even count of low samples is dropped |
| Frame.ParityFlipNotDetected | pcjr_keyboard.c:187 | frames 0x001 and 0x101, which differ only in the parity bit, are both kept |
| KeyTable.PcjrKeyToUsb | pcjr_keyboard.c:43-131 | the table entry of each scancode 0x00-0x55, the array bound as its requirement; it has no `ensures` of its own: `KeyTable.TableShape` states the entries' shape and that 0x54 is the only FN key |
| KeyTable.TableShape | pcjr_keyboard.c:43-131 | every entry for scancodes 0x00-0x55 is well formed (a modifier entry sends no key; an implied modifier comes with an FN-layer key; only the FN entry uses KEY_GUI), and 0x54 is the only FN entry |
| KeyTable.LowerHalfShape | pcjr_keyboard.c:45-87 | entries 0x00-0x2A are well formed and none is the FN key |
| KeyTable.UpperHalfShape | pcjr_keyboard.c:88-131 | entries 0x2B-0x55 are well formed and only 0x54 is the FN key |
| Slots.Insert | pcjr_keyboard.c:247-256 | the slots after the insert loop, with as many slots as before; `Slots.InsertIntoFirstEmpty`, `Slots.InsertWhenFull`, `Slots.InsertZeroKey`, `Slots.InsertIdempotent` and `Slots.InsertDuplicatesAfterHole` state what it does, and `Firmware.PcjrKeyboard.InsertKey` is proved to compute it |
| Slots.Remove | pcjr_keyboard.c:213-220 | the slots after the remove loop, with as many slots as before; `Slots.RemoveFirstMatch`, `Slots.RemoveAbsent` and `Slots.InsertRemoveRoundTrip` state what it does, and `Firmware.PcjrKeyboard.RemoveKey` is proved to compute it |
| Slots.IndexOf | pcjr_keyboard.c:213-220 | the index where the remove loop stops: the first slot holding the key, or the slot count when the key is absent |
| Slots.InsertStop | pcjr_keyboard.c:247-256 | the index where the insert loop stops: the first slot that is empty or holds the key, or the slot count |
| Slots.InsertIntoFirstEmpty | pcjr_keyboard.c:247-256 | a press writes the key into the first empty slot, and no other slot changes, unless the key occurs earlier, in which case nothing changes |
| Slots.InsertWhenFull | pcjr_keyboard.c:247-256 | with all six slots taken a press changes nothing |
| Slots.InsertZeroKey | pcjr_keyboard.c:247-256 | a key that resolves to 0 never changes the slots |
| Slots.InsertIdempotent | pcjr_keyboard.c:247-256 | pressing a key twice leaves the slots as pressing it once |
| Slots.InsertDuplicatesAfterHole | pcjr_keyboard.c:247-256 | with slot 0 empty and the key held at a later slot, a press writes it into slot 0 as well, so it occupies two slots |
| Slots.RemoveFirstMatch | pcjr_keyboard.c:213-220 | a release empties the first slot holding the key and no other slot |
| Slots.RemoveAbsent | pcjr_keyboard.c:213-220 | releasing a key no slot holds changes nothing |
| Slots.InsertRemoveRoundTrip | pcjr_keyboard.c:213-256 | with the key absent and a slot free, press then release restores the slots exactly |
| Slots.InsertAfterHeld | pcjr_keyboard.c:247-256 | a new key goes right after the held keys when the slots hold keys followed by empty slots |
| Slots.InsertAllFillsInOrder | pcjr_keyboard.c:247-256 | distinct keys pressed into empty slots fill them in press order, and once six keys fill the slots further presses change nothing, so only the first six are held |
| Slots.FillsFreeSlots | pcjr_keyboard.c:247-256 | up to six distinct non-zero keys pressed into empty slots take the slots in press order, followed by empty slots |
| Slots.FullSlotsKeepFirst | pcjr_keyboard.c:247-256 | with six or more distinct non-zero keys pressed, the slots hold the first six: once full, a press changes nothing |
| Translator.Press | pcjr_keyboard.c:228-257 | a key press by table entry; it has no `ensures` of its own: `Translator.FnKey`, `Translator.ModifierKey`, `Translator.PlainKey`, `Translator.FnLayerPress`, `Translator.PressReleaseKeepValid` and `Translator.PressEntryIdempotent` state its behaviour |
| Translator.Release | pcjr_keyboard.c:195-221 | a key release by table entry; it has no `ensures` of its own: `Translator.FnKey`, `Translator.ModifierKey`, `Translator.PlainKey`, `Translator.FnLayerRelease`, `Translator.PressReleaseKeepValid` and `Translator.FnReleaseKeepsLayerKeys` state its behaviour |
| Translator.Translate | pcjr_keyboard.c:189-226 | one accepted byte; it has no `ensures` of its own: `Translator.TranslateCases`, `Translator.OutOfRangeIgnored` and `Translator.PressIdempotent` state its behaviour |
| Translator.Step | pcjr_keyboard.c:187-261 | one frame of nine samples; it has no `ensures` of its own: `Translator.StepAppliesIff` and `Translator.StepKeepsValid` state its behaviour, and `Firmware.PcjrKeyboard.Step` is proved to compute it |
| Translator.Initial | pcjr_keyboard.c:168 | the start-up state (empty slots, no modifiers, latch 0) is valid |
| Translator.ScanCode | pcjr_keyboard.c:192 | the scancode is the accepted byte modulo 0x80 |
| Translator.FrameFields | pcjr_keyboard.c:189-192 | the masks the firmware applies to the frame give the release flag and scancode of the frame's low byte |
| Translator.ReleaseFlagIsSampleSeven | pcjr_keyboard.c:176-190 | the release flag is set exactly when sample 7 read low |
| Translator.TranslateCases | pcjr_keyboard.c:190-226 | an in-range release byte releases the scancode's table entry and a press byte presses it |
| Translator.OutOfRangeIgnored | pcjr_keyboard.c:193 | scancodes of 0x55 and above (line 226 for presses) leave the state unchanged |
| Translator.StepAppliesIff | pcjr_keyboard.c:187-188 | a frame is translated when its parity sample read low or its data has an odd count of low samples, and otherwise leaves the state unchanged |
| Translator.PressReleaseKeepValid | pcjr_keyboard.c:195-258 | every press and release keeps six slots and a latch that is 0 or carries KEY_GUI |
| Translator.LatchTestsAgree | pcjr_keyboard.c:206 | in a valid state the release test `local_modifier == 0` holds exactly when the press test `(local_modifier & KEY_GUI) == 0` at line 239 does |
| Translator.StepKeepsValid | pcjr_keyboard.c:187-259 | every frame keeps the state valid |
| Translator.ModifierKey | pcjr_keyboard.c:199-202 | a standard modifier press (lines 232-235) sets its bits, a release clears exactly those bits, other bits, slots and latch are untouched |
| Translator.ModifierRoundTrip | pcjr_keyboard.c:199-235 | pressing then releasing a standard modifier whose bits were clear restores the state |
| Translator.FnKey | pcjr_keyboard.c:195-198 | an FN press (lines 228-231) sets the latch to exactly KEY_GUI and an FN release sets it to 0; slots and modifier byte are untouched |
| Translator.PlainKey | pcjr_keyboard.c:206-207 | with the latch off a regular key press or release (lines 239-240) inserts or removes its plain key, nothing else changes |
| Translator.FnLayerPress | pcjr_keyboard.c:239-256 | with the latch on, a regular key press inserts the FN-layer key, adds the implied modifier bits to the latch and sets every latch bit except KEY_GUI in the modifier byte, no other modifier bit changing |
| Translator.FnLayerRelease | pcjr_keyboard.c:206-220 | with the latch on, a regular key release removes the FN-layer key and clears the latch's bits except KEY_GUI from the modifier byte, keeping the latch |
| Translator.PressEntryIdempotent | pcjr_keyboard.c:228-256 | pressing a table entry twice leaves the state as pressing it once |
| Translator.PressIdempotent | pcjr_keyboard.c:189-258 | pressing any scancode twice leaves the state as pressing it once |
| Translator.ReleaseOf | pcjr_keyboard.c:190-192 | the release byte of a press byte has the release flag and the same scancode |
| Translator.PlainKeyRoundTrip | pcjr_keyboard.c:206-256 | with the latch off, the key absent and a slot free, press then release of the same scancode restores the state |
| Translator.FnLayerPressRelease | pcjr_keyboard.c:206-256 | press then release of a regular key with the latch on restores the modifier byte when the layer bits were clear, and the latch keeps the implied bits |
| Translator.FnLayerRoundTrip | pcjr_keyboard.c:206-256 | with the latch on, the FN-layer key absent, a slot free and the layer bits clear, press then release restores the state except that the latch keeps the implied bits |
| Translator.FnReleaseKeepsLayerKeys | pcjr_keyboard.c:195-198 | releasing FN (byte 0xD4) clears only the latch: slots and modifier byte stay |
| Translator.FnReleaseLeavesKeyStuck | pcjr_keyboard.c:195-256 | FN down, `[` down, FN up, `[` up leaves backslash held and the shift bit set |
| Translator.PressAFromStart | pcjr_keyboard.c:226-256 | pressing `A` at start-up holds KEY_A in the first slot, with no modifier |
| Translator.ShiftThenA | pcjr_keyboard.c:226-256 | left shift then `A` holds KEY_A with the left-shift bit set |
| Firmware.PcjrKeyboard.constructor | pcjr_keyboard.c:168 | the object starts in the start-up state with no report requested |
| Firmware.PcjrKeyboard.InsertKey | pcjr_keyboard.c:247-256 | the insert loop leaves the array holding `Slots.Insert` of its old contents |
| Firmware.PcjrKeyboard.RemoveKey | pcjr_keyboard.c:213-220 | the remove loop leaves the array holding `Slots.Remove` of its old contents |
| Firmware.PcjrKeyboard.ReleaseEntry | pcjr_keyboard.c:195-221 | a release updates the state as `Translator.Release` and keeps it valid |
| Firmware.PcjrKeyboard.ReleaseRegular | pcjr_keyboard.c:203-220 | a regular key release updates the state as `Translator.Release` |
| Firmware.PcjrKeyboard.PressEntry | pcjr_keyboard.c:228-257 | a press updates the state as `Translator.Press` and keeps it valid |
| Firmware.PcjrKeyboard.PressRegular | pcjr_keyboard.c:236-257 | a regular key press updates the state as `Translator.Press` |
| Firmware.PcjrKeyboard.ApplyFrame | pcjr_keyboard.c:189-259 | an accepted frame updates the state as `Translator.Translate` of its low byte |
| Firmware.PcjrKeyboard.Step | pcjr_keyboard.c:174-261 | one pass updates the state as `Translator.Step` of the samples, keeps it valid, and requests one report exactly when the frame is kept (out-of-range scancodes included) |

## Left out

- USB calls: `usb_init` and `usb_configured` are left out. `usb_keyboard_send` is modelled only as the `reportsRequested` counter, and no report bytes are sent. `keyboard_leds` and the caps-lock LED are left out. These calls are I/O into a library that is not part of this model.
- Timing: `_delay_us` and `_delay_ms` are busy waits. The nine timed pin reads are a given sequence of nine samples.
- Start-bit detection: the `if (!MYPIN)` poll at line 171 is a pin read. `Firmware.PcjrKeyboard.Step` is one pass of the loop after that test succeeds.
- Board set-up, the timer interrupt `TIMER0_OVF_vect` and `idle_count`: these are hardware register I/O and do not affect the key state.
- Key code values: `usb_keyboard.h` is not part of this model. `KeyCodes` uses the USB HID usage ids and the report's modifier bits. The translation lemmas hold for every table entry and use only that KEY_GUI is non-zero. The table's shape (`KeyTable.TableShape`, `KeyTable.LowerHalfShape`, `KeyTable.UpperHalfShape`) and the concrete example lemmas (`Translator.PressAFromStart`, `Translator.ShiftThenA`, `Translator.FnReleaseLeavesKeyStuck`) depend on the values.
- KeyTable.PcjrKeyToUsb: the constant table array is a function from an in-range index to its entry. Its precondition, index at most 0x55, is the array bound, and every lookup in the model meets it.
- Frame.ReadFrame, Frame.CountLowByte: each loop body is its own method (`Frame.ReadBit`, `Frame.CountBit`), called once per turn. The loops and their effect on `c` and `d` are unchanged.
