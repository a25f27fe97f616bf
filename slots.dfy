/**
 * The held-key slots of the keyboard report (`keyboard_keys[6]`) as a
 * sequence of key codes, 0 meaning an empty slot, and the two updates the
 * translator makes to them: the insert loop run on a key press and the
 * remove loop run on a key release.
 */
module Slots {

  /** The number of key slots in a keyboard report. */
  const SLOT_COUNT := 6

  /** A sequence of `n` empty slots. */
  function Zeros(n: nat): (r: seq<bv8>)
    ensures |r| == n
    ensures forall i :: 0 <= i < n ==> r[i] == 0
  {
    seq(n, i => 0)
  }

  /** The index of the first slot holding `key`, or `|slots|` when no slot does. */
  function IndexOf(slots: seq<bv8>, key: bv8): (j: nat)
    ensures j <= |slots|
    ensures j < |slots| <==> key in slots
    ensures j < |slots| ==> slots[j] == key
    ensures forall i :: 0 <= i < j ==> slots[i] != key
  {
    if slots == [] then 0
    else if slots[0] == key then 0
    else 1 + IndexOf(slots[1..], key)
  }

  /**
   * The index at which the insert loop stops: the first slot that is empty or
   * already holds `key`, or `|slots|` when there is none.
   */
  function InsertStop(slots: seq<bv8>, key: bv8): (j: nat)
    ensures j <= |slots|
    ensures j < |slots| ==> slots[j] == 0 || slots[j] == key
    ensures forall i :: 0 <= i < j ==> slots[i] != 0 && slots[i] != key
  {
    if slots == [] then 0
    else if slots[0] == 0 || slots[0] == key then 0
    else 1 + InsertStop(slots[1..], key)
  }

  /**
   * The slots after pressing `key`: the key is written into the slot where
   * the scan stops if that slot is empty; if it holds the key already, or the
   * scan runs off the end, nothing changes.
   */
  function Insert(slots: seq<bv8>, key: bv8): (r: seq<bv8>)
    ensures |r| == |slots|
  {
    var j := InsertStop(slots, key);
    if j < |slots| && slots[j] == 0 then slots[j := key] else slots
  }

  /**
   * The slots after releasing `key`: the first slot holding it is emptied;
   * if no slot holds it, nothing changes.
   */
  function Remove(slots: seq<bv8>, key: bv8): (r: seq<bv8>)
    ensures |r| == |slots|
  {
    var j := IndexOf(slots, key);
    if j < |slots| then slots[j := 0] else slots
  }

  /** The slots after pressing each of `keys` in turn. */
  function InsertAll(slots: seq<bv8>, keys: seq<bv8>): (r: seq<bv8>)
    ensures |r| == |slots|
    decreases |keys|
  {
    if keys == [] then slots else Insert(InsertAll(slots, keys[..|keys| - 1]), keys[|keys| - 1])
  }

  /**
   * With `z` the first empty slot, a press writes the key into slot `z`
   * unless the key already occurs before `z`, in which case nothing changes.
   */
  lemma InsertIntoFirstEmpty(slots: seq<bv8>, key: bv8, z: nat)
    requires z < |slots| && slots[z] == 0
    requires forall i :: 0 <= i < z ==> slots[i] != 0
    ensures key in slots[..z] ==> Insert(slots, key) == slots
    ensures key !in slots[..z] ==> Insert(slots, key) == slots[z := key]
  {
    var j := InsertStop(slots, key);
    if key in slots[..z] {
      var k :| 0 <= k < z && slots[k] == key;
      assert j <= k;
      assert slots[j] == key;
    } else {
      assert j == z;
    }
  }

  /** A press changes nothing when no slot is empty. */
  lemma InsertWhenFull(slots: seq<bv8>, key: bv8)
    requires forall i :: 0 <= i < |slots| ==> slots[i] != 0
    ensures Insert(slots, key) == slots
  {
  }

  /** A key that resolves to 0 never changes the slots. */
  lemma InsertZeroKey(slots: seq<bv8>)
    ensures Insert(slots, 0) == slots
  {
    var j := InsertStop(slots, 0);
    if j < |slots| {
      assert slots[j] == 0;
      assert slots[j := 0] == slots;
    }
  }

  /** Pressing a key twice leaves the slots as pressing it once does. */
  lemma InsertIdempotent(slots: seq<bv8>, key: bv8)
    ensures Insert(Insert(slots, key), key) == Insert(slots, key)
  {
    var j := InsertStop(slots, key);
    var once := Insert(slots, key);
    if j < |slots| && slots[j] == 0 {
      assert once == slots[j := key];
      var j2 := InsertStop(once, key);
      assert once[j] == key;
      assert j2 == j;
    }
  }

  /**
   * The insert loop does not look past the first empty slot: a key held in a
   * later slot is written again into an empty slot before it, so it occupies
   * two slots.
   */
  lemma InsertDuplicatesAfterHole(slots: seq<bv8>, key: bv8, k: nat)
    requires 0 < k < |slots| && slots[0] == 0 && slots[k] == key && key != 0
    ensures Insert(slots, key) == slots[0 := key]
    ensures Insert(slots, key)[0] == Insert(slots, key)[k] == key
  {
    InsertIntoFirstEmpty(slots, key, 0);
  }

  /**
   * A release empties the first slot holding the key and no other slot; a
   * key held in no slot leaves the slots unchanged.
   */
  lemma RemoveFirstMatch(slots: seq<bv8>, key: bv8, j: nat)
    requires j < |slots| && slots[j] == key
    requires forall i :: 0 <= i < j ==> slots[i] != key
    ensures Remove(slots, key) == slots[j := 0]
  {
    var m := IndexOf(slots, key);
    assert m == j;
  }

  /** A release of a key that no slot holds changes nothing. */
  lemma RemoveAbsent(slots: seq<bv8>, key: bv8)
    requires key !in slots
    ensures Remove(slots, key) == slots
  {
  }

  /**
   * Pressing a key that no slot holds while a slot is free, then releasing
   * it, restores the slots exactly.
   */
  lemma InsertRemoveRoundTrip(slots: seq<bv8>, key: bv8)
    requires key !in slots
    requires 0 in slots
    ensures Remove(Insert(slots, key), key) == slots
  {
    var z := IndexOf(slots, 0);
    InsertIntoFirstEmpty(slots, key, z);
    assert key !in slots[..z];
    var pressed := slots[z := key];
    assert forall i :: 0 <= i < z ==> pressed[i] != key;
    RemoveFirstMatch(pressed, key, z);
    assert pressed[z := 0] == slots;
  }

  /**
   * One press into slots that hold the non-zero keys `held` in order
   * followed by empty slots: a new non-zero key goes right after them.
   */
  lemma InsertAfterHeld(held: seq<bv8>, key: bv8)
    requires |held| < SLOT_COUNT
    requires forall i :: 0 <= i < |held| ==> held[i] != 0
    requires key != 0 && key !in held
    ensures Insert(held + Zeros(SLOT_COUNT - |held|), key) == held + [key] + Zeros(SLOT_COUNT - |held| - 1)
  {
    var n := |held|;
    var slots := held + Zeros(SLOT_COUNT - n);
    assert slots[..n] == held;
    InsertIntoFirstEmpty(slots, key, n);
    assert slots[n := key] == held + [key] + Zeros(SLOT_COUNT - n - 1);
  }

  /** Keys that are all non-zero and pairwise different. */
  predicate DistinctKeys(keys: seq<bv8>)
  {
    && (forall i :: 0 <= i < |keys| ==> keys[i] != 0)
    && (forall i, k :: 0 <= i < k < |keys| ==> keys[i] != keys[k])
  }

  /** A prefix of distinct non-zero keys is distinct and non-zero, and misses the next key. */
  lemma DistinctPrefix(keys: seq<bv8>, n: nat)
    requires DistinctKeys(keys) && n < |keys|
    ensures DistinctKeys(keys[..n])
    ensures keys[n] != 0 && keys[n] !in keys[..n]
  {
    assert forall i :: 0 <= i < n ==> keys[..n][i] == keys[i];
  }

  /**
   * Pressing distinct non-zero keys into empty slots fills the slots in press
   * order; once all slots are taken, further presses change nothing, so only
   * the first `SLOT_COUNT` keys are held.
   */
  lemma InsertAllFillsInOrder(keys: seq<bv8>)
    requires DistinctKeys(keys)
    ensures |keys| <= SLOT_COUNT ==>
      InsertAll(Zeros(SLOT_COUNT), keys) == keys + Zeros(SLOT_COUNT - |keys|)
    ensures |keys| > SLOT_COUNT ==>
      InsertAll(Zeros(SLOT_COUNT), keys) == keys[..SLOT_COUNT]
  {
    if |keys| <= SLOT_COUNT {
      FillsFreeSlots(keys);
    } else {
      FullSlotsKeepFirst(keys);
    }
  }

  /** Up to `SLOT_COUNT` distinct non-zero keys take the slots in press order. */
  lemma {:induction false} FillsFreeSlots(keys: seq<bv8>)
    requires DistinctKeys(keys) && |keys| <= SLOT_COUNT
    ensures InsertAll(Zeros(SLOT_COUNT), keys) == keys + Zeros(SLOT_COUNT - |keys|)
    decreases |keys|
  {
    if keys != [] {
      var n := |keys| - 1;
      var front, key := keys[..n], keys[n];
      DistinctPrefix(keys, n);
      FillsFreeSlots(front);
      InsertAfterHeld(front, key);
      assert front + [key] == keys;
    } else {
      assert keys + Zeros(SLOT_COUNT) == Zeros(SLOT_COUNT);
    }
  }

  /**
   * With at least `SLOT_COUNT` distinct non-zero keys, the slots hold the
   * first `SLOT_COUNT` of them: once the slots are full a press changes nothing.
   */
  lemma {:induction false} FullSlotsKeepFirst(keys: seq<bv8>)
    requires DistinctKeys(keys) && |keys| >= SLOT_COUNT
    ensures InsertAll(Zeros(SLOT_COUNT), keys) == keys[..SLOT_COUNT]
    decreases |keys|
  {
    if |keys| == SLOT_COUNT {
      FillsFreeSlots(keys);
      assert keys + Zeros(0) == keys[..SLOT_COUNT];
    } else {
      var n := |keys| - 1;
      var front := keys[..n];
      DistinctPrefix(keys, n);
      FullSlotsKeepFirst(front);
      assert front[..SLOT_COUNT] == keys[..SLOT_COUNT];
      InsertWhenFull(keys[..SLOT_COUNT], keys[n]);
    }
  }
}
