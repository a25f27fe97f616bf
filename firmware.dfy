/**
 * The firmware's key state and the body of its polling loop, updating the
 * state in place as the firmware does: the held-key slots are a six-element
 * array searched by the insert and remove loops, the modifier byte and the
 * FN latch are bytes, and each call of `usb_keyboard_send` is counted.
 * Every method is proved against the functions of modules Translator and
 * Slots.
 */
module Firmware {
  import opened KeyCodes
  import opened KeyTable
  import Slots
  import Frame
  import Translator

  class PcjrKeyboard {
    /** `keyboard_keys`: the report's six key slots, 0 meaning empty. */
    const keyboardKeys: array<bv8>
    /** `keyboard_modifier_keys`: the report's modifier byte. */
    var keyboardModifierKeys: bv8
    /** `local_modifier`: the FN latch. */
    var localModifier: bv8
    /** The number of reports requested from the USB library so far. */
    var reportsRequested: nat

    /** Six slots and a latch that is 0 or carries KEY_GUI. */
    ghost predicate Valid()
      reads this
    {
      keyboardKeys.Length == Slots.SLOT_COUNT && Translator.LatchConsistent(localModifier)
    }

    /** The key state as a value. */
    ghost function State(): Translator.KeyState
      reads this, keyboardKeys
    {
      Translator.KeyState(keyboardKeys[..], keyboardModifierKeys, localModifier)
    }

    /** The state at start-up: empty slots, no modifiers, FN latch off, no report sent. */
    constructor ()
      ensures Valid() && fresh(keyboardKeys)
      ensures State() == Translator.Initial()
      ensures reportsRequested == 0
    {
      keyboardKeys := new bv8[Slots.SLOT_COUNT](_ => 0);
      keyboardModifierKeys := 0;
      localModifier := 0;
      reportsRequested := 0;
      new;
      assert keyboardKeys[..] == Slots.Zeros(Slots.SLOT_COUNT);
    }

    /**
     * The insert loop of a key press: scan the slots, write `key` into the
     * first empty one, and stop early at a slot already holding `key`.
     */
    method InsertKey(key: bv8)
      requires keyboardKeys.Length == Slots.SLOT_COUNT
      modifies keyboardKeys
      ensures keyboardKeys[..] == Slots.Insert(old(keyboardKeys[..]), key)
    {
      ghost var slots := keyboardKeys[..];
      var i: bv8 := 0;
      while i < 6
        invariant i <= 6
        invariant keyboardKeys[..] == slots
        invariant i as int <= Slots.InsertStop(slots, key)
      {
        if keyboardKeys[i] == 0 {
          keyboardKeys[i] := key;
          break;
        }
        if keyboardKeys[i] == key {
          break;
        }
        i := i + 1;
      }
    }

    /** The remove loop of a key release: empty the first slot holding `key`. */
    method RemoveKey(key: bv8)
      requires keyboardKeys.Length == Slots.SLOT_COUNT
      modifies keyboardKeys
      ensures keyboardKeys[..] == Slots.Remove(old(keyboardKeys[..]), key)
    {
      ghost var slots := keyboardKeys[..];
      var i: bv8 := 0;
      while i < 6
        invariant i <= 6
        invariant keyboardKeys[..] == slots
        invariant i as int <= Slots.IndexOf(slots, key)
      {
        if keyboardKeys[i] == key {
          keyboardKeys[i] := 0;
          break;
        }
        i := i + 1;
      }
    }

    /** A release of the key whose table entry is `entry` (lines 195-221). */
    method ReleaseEntry(entry: Entry)
      requires Valid()
      modifies this, keyboardKeys
      ensures Valid()
      ensures State() == Translator.Release(old(State()), entry)
      ensures reportsRequested == old(reportsRequested)
    {
      if entry.modifier == KEY_GUI {
        localModifier := 0;
      } else if entry.modifier != 0 {
        keyboardModifierKeys := keyboardModifierKeys & !entry.modifier;
      } else {
        ReleaseRegular(entry);
      }
    }

    /**
     * A release of a regular key: the plain key leaves the slots when the
     * latch is off; otherwise the FN-layer key does and the latch's modifier
     * bits leave the modifier byte (lines 203-220).
     */
    method ReleaseRegular(entry: Entry)
      requires Valid() && entry.modifier == 0
      modifies this, keyboardKeys
      ensures Valid()
      ensures State() == Translator.Release(old(State()), entry)
      ensures reportsRequested == old(reportsRequested)
    {
      if localModifier == 0 {
        RemoveKey(entry.key);
      } else {
        keyboardModifierKeys := keyboardModifierKeys & !(localModifier & !KEY_GUI);
        RemoveKey(entry.fnkey);
      }
    }

    /** A press of the key whose table entry is `entry` (lines 228-257). */
    method PressEntry(entry: Entry)
      requires Valid()
      modifies this, keyboardKeys
      ensures Valid()
      ensures State() == Translator.Press(old(State()), entry)
      ensures reportsRequested == old(reportsRequested)
    {
      if entry.modifier == KEY_GUI {
        localModifier := KEY_GUI;
      } else if entry.modifier != 0 {
        keyboardModifierKeys := keyboardModifierKeys | entry.modifier;
      } else {
        PressRegular(entry);
      }
    }

    /**
     * A press of a regular key: the plain key enters the slots when the latch
     * is off; otherwise the key's implied modifier bits join the latch, the
     * latch's modifier bits join the modifier byte and the FN-layer key enters
     * the slots (lines 236-257).
     */
    method PressRegular(entry: Entry)
      requires Valid() && entry.modifier == 0
      modifies this, keyboardKeys
      ensures Valid()
      ensures State() == Translator.Press(old(State()), entry)
      ensures reportsRequested == old(reportsRequested)
    {
      if localModifier & KEY_GUI == 0 {
        InsertKey(entry.key);
      } else {
        localModifier := localModifier | entry.fnkeyModifier;
        keyboardModifierKeys := keyboardModifierKeys | (localModifier & !KEY_GUI);
        InsertKey(entry.fnkey);
      }
    }

    /**
     * Applies an accepted frame: bit 7 of its low byte is the release flag,
     * bits 0 to 6 the scancode; scancodes from 0x55 up change nothing, the
     * others are looked up in the table and pressed or released.
     */
    method ApplyFrame(frame: bv16)
      requires Valid()
      modifies this, keyboardKeys
      ensures Valid()
      ensures State() == Translator.Translate(old(State()), Translator.DataByte(frame))
      ensures reportsRequested == old(reportsRequested)
    {
      Translator.FrameFields(frame);
      var c := frame & 0xff;
      if c & 0x80 != 0 {
        c := c & 0x7f;
        if c < 0x55 {
          Translator.TranslateCases(State(), Translator.DataByte(frame));
          ReleaseEntry(PcjrKeyToUsb(c as nat));
        }
      } else {
        if c < 0x55 {
          Translator.TranslateCases(State(), Translator.DataByte(frame));
          PressEntry(PcjrKeyToUsb(c as nat));
        }
      }
    }

    /**
     * One pass of the polling loop after a start bit: read the nine samples
     * into a frame, count the set bits of its low byte, and, when the test
     * keeps the frame, apply it and request a report.
     */
    method Step(samples: seq<bool>)
      requires Valid() && |samples| == 9
      modifies this, keyboardKeys
      ensures Valid()
      ensures State() == Translator.Step(old(State()), samples)
      ensures reportsRequested == old(reportsRequested) + if Frame.FrameAccepted(samples) then 1 else 0
    {
      var c := Frame.ReadFrame(samples);
      var d := Frame.CountLowByte(c);
      Frame.CounterLowBit(d);
      if (c & 0x100) ^ ((d & 1) as bv16) != 0 {
        ApplyFrame(c);
        reportsRequested := reportsRequested + 1;
      }
    }
  }
}
