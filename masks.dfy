/** The category masks shared by the listener and the grabber on both
    platforms: one bit per event category, and the read-modify-write that
    sets or clears a bit. */
module Masks {

  const MouseMoveBit: bv32 := 1 << 0
  const MouseButtonBit: bv32 := 1 << 1
  const MouseWheelBit: bv32 := 1 << 2
  const KeyboardBit: bv32 := 1 << 3
  /** `LISTENS_ALL` and `GRAB_ALL`: the union of the four category bits. */
  const AllBits: bv32 := MouseMoveBit | MouseButtonBit | MouseWheelBit | KeyboardBit

  predicate HasBit(mask: bv32, bit: bv32) {
    mask & bit != 0
  }

  /** `update_state`: the value the compare-and-swap stores, `current | bit`
      to enable and `current & !bit` to disable: every bit outside `bit`
      comes from `current`, the bits of `bit` are all on or all off. */
  function UpdateState(current: bv32, bit: bv32, enable: bool): (next: bv32)
    ensures next == (current & !bit) | (if enable then bit else 0)
  {
    if enable then current | bit else current & !bit
  }

  /** The update forces the bits of `bit` to `enable` and keeps every other
      bit. */
  lemma UpdateStateForces(current: bv32, bit: bv32, enable: bool)
    ensures UpdateState(current, bit, enable) & bit == (if enable then bit else 0)
    ensures UpdateState(current, bit, enable) & !bit == current & !bit
  {
  }

  /** Applying the same update twice is the same as applying it once. */
  lemma UpdateStateIdempotent(current: bv32, bit: bv32, enable: bool)
    ensures UpdateState(UpdateState(current, bit, enable), bit, enable) == UpdateState(current, bit, enable)
  {
    if enable {
      assert UpdateState(UpdateState(current, bit, true), bit, true) == UpdateState(current, bit, true);
    } else {
      assert UpdateState(UpdateState(current, bit, false), bit, false) == UpdateState(current, bit, false);
    }
  }

  /** Enabling then disabling a bit that was clear restores the mask. */
  lemma UpdateStateUndo(current: bv32, bit: bv32)
    requires current & bit == 0
    ensures UpdateState(UpdateState(current, bit, true), bit, false) == current
  {
  }

  /** Enabling a non-empty bit makes the mask hold it. */
  lemma EnableHolds(current: bv32, bit: bv32)
    requires bit != 0
    ensures HasBit(UpdateState(current, bit, true), bit)
  {
    assert UpdateState(current, bit, true) & bit == bit;
  }

  /** Disabling a bit makes the mask miss it. */
  lemma DisableMisses(current: bv32, bit: bv32)
    ensures !HasBit(UpdateState(current, bit, false), bit)
  {
    assert UpdateState(current, bit, false) & bit == 0;
  }

  /** After the update, a category bit reads as `enable`. */
  lemma UpdateStateDecides(current: bv32, bit: bv32, enable: bool)
    requires bit != 0
    ensures HasBit(UpdateState(current, bit, enable), bit) == enable
  {
    if enable {
      EnableHolds(current, bit);
    } else {
      DisableMisses(current, bit);
    }
  }

  /** Bits disjoint from the updated ones keep their value. */
  lemma UpdateStateKeepsDisjoint(current: bv32, bit: bv32, enable: bool, other: bv32)
    requires bit & other == 0
    ensures UpdateState(current, bit, enable) & other == current & other
  {
  }

  /** The update leaves any other category bit as it was. */
  lemma UpdateStateKeepsOthers(current: bv32, bit: bv32, enable: bool, other: bv32)
    requires bit == MouseMoveBit || bit == MouseButtonBit || bit == MouseWheelBit || bit == KeyboardBit
    requires other == 0 || other == MouseMoveBit || other == MouseButtonBit || other == MouseWheelBit || other == KeyboardBit
    requires other != bit
    ensures HasBit(UpdateState(current, bit, enable), other) == HasBit(current, other)
  {
    assert bit & other == 0;
    UpdateStateKeepsDisjoint(current, bit, enable, other);
  }

  /** The four category bits are distinct single bits whose union is 0xF. */
  lemma CategoryBits()
    ensures MouseMoveBit == 1 && MouseButtonBit == 2 && MouseWheelBit == 4 && KeyboardBit == 8
    ensures AllBits == 0xF
    ensures MouseMoveBit & MouseButtonBit == 0 && MouseMoveBit & MouseWheelBit == 0 && MouseMoveBit & KeyboardBit == 0
    ensures MouseButtonBit & MouseWheelBit == 0 && MouseButtonBit & KeyboardBit == 0 && MouseWheelBit & KeyboardBit == 0
  {
  }
}
