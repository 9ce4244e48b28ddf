/** The Windows grabber: its running flag and category mask, and the rule
    that decides whether a hook message is swallowed. */
module WinGrab {
  import opened Masks
  import opened WinCommon

  /** `should_block`: with a non-empty mask, a message is blocked exactly when
      the mask holds its category bit.  The running flag is not read here;
      the hook callback checks it. */
  function ShouldBlock(state: bv32, msg: int): (b: bool)
    ensures state == 0 ==> !b
    ensures b ==> msg == WmMouseMove || IsButtonMessage(msg) || IsWheelMessage(msg) || IsKeyMessage(msg)
  {
    if state == 0 then false
    else if msg == WmMouseMove then HasBit(state, MouseMoveBit)
    else if IsButtonMessage(msg) then HasBit(state, MouseButtonBit)
    else if IsWheelMessage(msg) then HasBit(state, MouseWheelBit)
    else if IsKeyMessage(msg) then HasBit(state, KeyboardBit)
    else false
  }

  lemma ShouldBlockByCategory(state: bv32, msg: int)
    ensures ShouldBlock(state, msg) <==> HasBit(state, CategoryOf(msg))
  {
    var c := CategoryOf(msg);
    if state == 0 {
      assert !HasBit(0, c);
    } else if msg == WmMouseMove {
      assert c == MouseMoveBit;
    } else if IsButtonMessage(msg) {
      assert c == MouseButtonBit;
    } else if IsWheelMessage(msg) {
      assert c == MouseWheelBit;
    } else if IsKeyMessage(msg) {
      assert c == KeyboardBit;
    } else {
      assert c == 0;
    }
  }

  /** Switching a category off unblocks every message of that category and
      leaves every other message's verdict as it was; switching it on blocks
      every message of the category. */
  lemma {:induction false} ToggleDecidesCategory(state: bv32, bit: bv32, enable: bool, msg: int)
    requires bit == MouseMoveBit || bit == MouseButtonBit || bit == MouseWheelBit || bit == KeyboardBit
    ensures CategoryOf(msg) == bit ==> ShouldBlock(UpdateState(state, bit, enable), msg) == enable
    ensures CategoryOf(msg) != bit ==> ShouldBlock(UpdateState(state, bit, enable), msg) == ShouldBlock(state, msg)
  {
    var c := CategoryOf(msg);
    if c == bit {
      UpdateStateDecides(state, bit, enable);
    } else {
      UpdateStateKeepsOthers(state, bit, enable, c);
    }
  }

  /** `GRAB_FLAG` and `IS_GRAB_RUNNING`. */
  class Grab {
    var running: bool
    var flag: bv32

    /** The initial state: stopped, with an empty mask. */
    constructor ()
      ensures !running && flag == 0
    {
      running := false;
      flag := 0;
    }

    /** `start`: the compare-and-swap claims the running flag; if it was not
        running, every category bit is ORed into the mask (earlier bits
        stay). */
    method Start()
      modifies this
      ensures running
      ensures flag == if old(running) then old(flag) else old(flag) | AllBits
    {
      var wasRunning := running;
      running := true;
      if wasRunning {
        return;
      }
      flag := flag | AllBits;
    }

    /** `is_runing`. */
    function IsRunning(): bool
      reads this
    {
      running
    }

    /** `pause`: clears the running flag, keeps the mask. */
    method Pause()
      modifies this`running
      ensures !running
    {
      running := false;
    }

    /** `resume`: sets the running flag, keeps the mask. */
    method Resume()
      modifies this`running
      ensures running
    {
      running := true;
    }

    /** `stop`: not running, empty mask, whatever the state before (so a
        second call changes nothing). */
    method Stop()
      modifies this
      ensures !running && flag == 0
    {
      Pause();
      flag := 0;
    }

    /** The four toggles: each forces its own category bit. */
    method MouseMove(enable: bool)
      modifies this`flag
      ensures flag == UpdateState(old(flag), MouseMoveBit, enable)
    {
      flag := UpdateState(flag, MouseMoveBit, enable);
    }

    method MouseWheel(enable: bool)
      modifies this`flag
      ensures flag == UpdateState(old(flag), MouseWheelBit, enable)
    {
      flag := UpdateState(flag, MouseWheelBit, enable);
    }

    method MouseButton(enable: bool)
      modifies this`flag
      ensures flag == UpdateState(old(flag), MouseButtonBit, enable)
    {
      flag := UpdateState(flag, MouseButtonBit, enable);
    }

    method Keyboard(enable: bool)
      modifies this`flag
      ensures flag == UpdateState(old(flag), KeyboardBit, enable)
    {
      flag := UpdateState(flag, KeyboardBit, enable);
    }
  }
}
