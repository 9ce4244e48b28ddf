/** The macOS grabber: its running flag and category mask, and the rule that
    decides whether a tapped event is dropped. */
module MacGrab {
  import opened Masks
  import opened MacCommon

  /** `should_block`: nothing is blocked while stopped or with an empty mask;
      otherwise an event type is blocked when the mask holds its category
      bit. */
  function ShouldBlock(running: bool, state: bv32, t: CGEventType): (b: bool)
    ensures !running || state == 0 ==> !b
    ensures b ==> IsMoveType(t) || IsButtonType(t) || t == ScrollWheel || IsKeyboardType(t)
  {
    if !running then false
    else if state == 0 then false
    else if IsMoveType(t) then HasBit(state, MouseMoveBit)
    else if IsButtonType(t) then HasBit(state, MouseButtonBit)
    else if t == ScrollWheel then HasBit(state, MouseWheelBit)
    else if IsKeyboardType(t) then HasBit(state, KeyboardBit)
    else false
  }

  /** The verdict is the category bit of the type, while running. */
  lemma ShouldBlockByCategory(running: bool, state: bv32, t: CGEventType)
    ensures ShouldBlock(running, state, t) <==> running && HasBit(state, CategoryOf(t))
  {
    var c := CategoryOf(t);
    if !running {
    } else if state == 0 {
      assert !HasBit(0, c);
    } else if IsMoveType(t) {
      assert c == MouseMoveBit;
    } else if IsButtonType(t) {
      assert c == MouseButtonBit;
    } else if t == ScrollWheel {
      assert c == MouseWheelBit;
    } else if IsKeyboardType(t) {
      assert c == KeyboardBit;
    } else {
      assert c == 0;
    }
  }

  /** With every category enabled, the blocked types are exactly those the
      tap asks for. */
  lemma {:induction false} FullMaskBlocksInterested(t: CGEventType)
    ensures ShouldBlock(true, AllBits, t) <==> t in InterestedEvents
  {
    ShouldBlockByCategory(true, AllBits, t);
    InterestedEventsCategorised(t);
    var c := CategoryOf(t);
    if c == 0 {
      assert !HasBit(AllBits, 0);
    } else if c == MouseMoveBit {
      assert HasBit(AllBits, MouseMoveBit);
    } else if c == MouseButtonBit {
      assert HasBit(AllBits, MouseButtonBit);
    } else if c == MouseWheelBit {
      assert HasBit(AllBits, MouseWheelBit);
    } else {
      assert HasBit(AllBits, KeyboardBit);
    }
  }

  /** Switching a category on or off decides every type of that category and
      leaves every other type's verdict as it was. */
  lemma {:induction false} ToggleDecidesCategory(state: bv32, bit: bv32, enable: bool, t: CGEventType)
    requires bit == MouseMoveBit || bit == MouseButtonBit || bit == MouseWheelBit || bit == KeyboardBit
    ensures CategoryOf(t) == bit ==> ShouldBlock(true, UpdateState(state, bit, enable), t) == enable
    ensures CategoryOf(t) != bit ==> ShouldBlock(true, UpdateState(state, bit, enable), t) == ShouldBlock(true, state, t)
  {
    ShouldBlockByCategory(true, state, t);
    ShouldBlockByCategory(true, UpdateState(state, bit, enable), t);
    var c := CategoryOf(t);
    if c == bit {
      UpdateStateDecides(state, bit, enable);
    } else {
      UpdateStateKeepsOthers(state, bit, enable, c);
    }
  }

  /** `GRAB_FLAG` and `IS_GRAB_RUNNING`. */
  class Grab {
    var running: bool
    var flag: bv32

    /** The initial state: stopped, with an empty mask. */
    constructor ()
      ensures !running && flag == 0
    {
      running := false;
      flag := 0;
    }

    /** `start`: the compare-and-swap claims the running flag; if it was not
        running, every category bit is ORed into the mask (earlier bits
        stay). */
    method Start()
      modifies this
      ensures running
      ensures flag == if old(running) then old(flag) else old(flag) | AllBits
    {
      var wasRunning := running;
      running := true;
      if wasRunning {
        return;
      }
      flag := flag | AllBits;
    }

    /** `is_runing`. */
    function IsRunning(): bool
      reads this
    {
      running
    }

    /** `pause`: clears the running flag, keeps the mask. */
    method Pause()
      modifies this`running
      ensures !running
    {
      running := false;
    }

    /** `resume`: sets the running flag, keeps the mask. */
    method Resume()
      modifies this`running
      ensures running
    {
      running := true;
    }

    /** `stop`: not running and an empty mask, whatever the state before. */
    method Stop()
      modifies this
      ensures !running && flag == 0
    {
      Pause();
      flag := 0;
    }

    /** The four toggles: each forces its own category bit. */
    method MouseMove(enable: bool)
      modifies this`flag
      ensures flag == UpdateState(old(flag), MouseMoveBit, enable)
    {
      flag := UpdateState(flag, MouseMoveBit, enable);
    }

    method MouseWheel(enable: bool)
      modifies this`flag
      ensures flag == UpdateState(old(flag), MouseWheelBit, enable)
    {
      flag := UpdateState(flag, MouseWheelBit, enable);
    }

    method MouseButton(enable: bool)
      modifies this`flag
      ensures flag == UpdateState(old(flag), MouseButtonBit, enable)
    {
      flag := UpdateState(flag, MouseButtonBit, enable);
    }

    method Keyboard(enable: bool)
      modifies this`flag
      ensures flag == UpdateState(old(flag), KeyboardBit, enable)
    {
      flag := UpdateState(flag, KeyboardBit, enable);
    }
  }
}
