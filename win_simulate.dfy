/** Windows input injection: the `INPUT` descriptors `InputBuilder` collects
    for each kind of event, and the single `SendInput` call that posts them.
    The virtual-desktop boundary and the scale factor, which the builder reads
    from the system, are parameters. */
module WinSimulate {
  import opened Events
  import opened Casts
  import WinKeycode
  import WinListen
  import WinCommon
  import Masks

  const MouseeventfMove: bv32 := 0x0001
  const MouseeventfLeftDown: bv32 := 0x0002
  const MouseeventfLeftUp: bv32 := 0x0004
  const MouseeventfRightDown: bv32 := 0x0008
  const MouseeventfRightUp: bv32 := 0x0010
  const MouseeventfMiddleDown: bv32 := 0x0020
  const MouseeventfMiddleUp: bv32 := 0x0040
  const MouseeventfXDown: bv32 := 0x0080
  const MouseeventfXUp: bv32 := 0x0100
  const MouseeventfWheel: bv32 := 0x0800
  const MouseeventfHWheel: bv32 := 0x1000
  const MouseeventfVirtualDesk: bv32 := 0x4000
  const MouseeventfAbsolute: bv32 := 0x8000

  const KeyeventfExtendedKey: bv32 := 0x0001
  const KeyeventfKeyUp: bv32 := 0x0002
  const KeyeventfScancode: bv32 := 0x0008

  /** `f64::EPSILON`, the threshold below which a wheel axis is skipped. */
  const F64Epsilon: real := 0.0000000000000002220446049250313

  /** The `MOUSEINPUT` fields the builder sets (`mouseData` is a `u32`). */
  datatype MouseInput = MouseInput(dx: int, dy: int, mouseData: int, dwFlags: bv32)

  /** The `KEYBDINPUT` fields the builder sets (`wVk` and `wScan` are `u16`). */
  datatype KeyboardInput = KeyboardInput(wVk: int, wScan: int, dwFlags: bv32)

  /** An `INPUT`: `INPUT_MOUSE` or `INPUT_KEYBOARD` with its payload. */
  datatype Input = Mouse(mi: MouseInput) | Keyboard(ki: KeyboardInput)

  function Abs(r: real): real {
    if r < 0.0 then -r else r
  }

  /** The `(dwFlags, mouseData)` pair of a button press or release. */
  function ButtonInput(button: MouseButton, down: bool): (mi: MouseInput)
    ensures mi.dx == 0 && mi.dy == 0
    ensures mi.mouseData == (if button == Back then 1 else if button == Forward then 2 else 0)
  {
    match button
    case Left => MouseInput(0, 0, 0, if down then MouseeventfLeftDown else MouseeventfLeftUp)
    case Right => MouseInput(0, 0, 0, if down then MouseeventfRightDown else MouseeventfRightUp)
    case Middle => MouseInput(0, 0, 0, if down then MouseeventfMiddleDown else MouseeventfMiddleUp)
    case Back => MouseInput(0, 0, 1, if down then MouseeventfXDown else MouseeventfXUp)
    case Forward => MouseInput(0, 0, 2, if down then MouseeventfXDown else MouseeventfXUp)
  }

  /** What a button descriptor asks the system to do, read back from its
      flags and data: the reference against which the table is checked. */
  function ButtonOfInput(mi: MouseInput): Option<(MouseButton, bool)> {
    var f := mi.dwFlags;
    if f == MouseeventfLeftDown then Some((Left, true))
    else if f == MouseeventfLeftUp then Some((Left, false))
    else if f == MouseeventfRightDown then Some((Right, true))
    else if f == MouseeventfRightUp then Some((Right, false))
    else if f == MouseeventfMiddleDown then Some((Middle, true))
    else if f == MouseeventfMiddleUp then Some((Middle, false))
    else if (f == MouseeventfXDown || f == MouseeventfXUp) && (mi.mouseData == 1 || mi.mouseData == 2) then
      Some((if mi.mouseData == 1 then Back else Forward, f == MouseeventfXDown))
    else None
  }

  /** The button table is faithful: each of the ten rows asks for exactly
      its own button and direction. */
  lemma {:induction false} ButtonInputRoundTrip(button: MouseButton, down: bool)
    ensures ButtonOfInput(ButtonInput(button, down)) == Some((button, down))
  {
    match button
    case Left =>
    case Right =>
    case Middle =>
    case Back =>
    case Forward =>
  }

  /** The X-button data the builder writes is the word the listener reads
      back as the same side button. */
  lemma {:induction false} XButtonDataMatchesListener(button: MouseButton, down: bool)
    requires button == Back || button == Forward
    ensures WinListen.XButtonOf(ButtonInput(button, down).mouseData as bv16) == Some(button)
  {
    if button == Back {
      assert ButtonInput(button, down).mouseData as bv16 == 1;
    } else {
      assert ButtonInput(button, down).mouseData as bv16 == 2;
    }
  }

  /** `(d * 120.0) as i32 as u32`: a wheel amount in notches as the unsigned
      `mouseData` word. */
  function WheelData(d: real): (data: int)
    ensures 0 <= data < 0x1_0000_0000
    ensures WrapI32(data) == F64ToI32(d * 120.0)
  {
    I32AsU32(F64ToI32(d * 120.0))
  }

  /** `add_mouse_wheel`: the vertical input first, then the horizontal one,
      each only when its axis is not negligible. */
  function WheelInputs(dx: real, dy: real): (r: seq<MouseInput>)
    ensures |r| == (if Abs(dy) > F64Epsilon then 1 else 0) + (if Abs(dx) > F64Epsilon then 1 else 0)
    ensures Abs(dy) > F64Epsilon ==> r[0] == MouseInput(0, 0, WheelData(dy), MouseeventfWheel)
    ensures Abs(dx) > F64Epsilon ==> r[|r| - 1] == MouseInput(0, 0, WheelData(dx), MouseeventfHWheel)
  {
    (if Abs(dy) > F64Epsilon then [MouseInput(0, 0, WheelData(dy), MouseeventfWheel)] else []) +
    (if Abs(dx) > F64Epsilon then [MouseInput(0, 0, WheelData(dx), MouseeventfHWheel)] else [])
  }

  /** A word placed in the high half is read back by `hiword`. */
  lemma HighWordRoundTrip(w: bv16)
    ensures WinCommon.HiWord((w as bv32) << 16) == w
  {
  }

  /** An `i16` amount stored as `u32` keeps its value in the low word. */
  lemma LowWordKeepsI16(n: int, w: bv16)
    requires -0x8000 <= n < 0x8000
    requires w as int == I32AsU32(n) % 0x1_0000
    ensures SignExtend16(w) == n
  {
    var v := w as int;
    if n >= 0 {
      assert v == n;
    } else {
      assert I32AsU32(n) == n + 0x1_0000_0000;
      assert v == n + 0x1_0000;
    }
  }

  /** A whole number of wheel clicks within the range of a 16-bit delta
      survives the trip: the low word `w` of the amount written to
      `mouseData`, placed in the high word of the hook record, is read back
      by the listener as the same number of notches. */
  lemma {:induction false} WheelDataMatchesListener(d: real, w: bv16, state: bv32, kb: WinCommon.KbdHookRecord)
    requires Masks.HasBit(state, Masks.MouseWheelBit)
    requires (d * 120.0).Floor as real == d * 120.0 && -0x8000 <= (d * 120.0).Floor < 0x8000
    requires w as int == WheelData(d) % 0x1_0000
    ensures WinListen.Handle(true, state, WinCommon.WmMouseWheel, WinListen.MouseHookRecord((w as bv32) << 16), kb) ==
              Some(MouseWheel(FloatPoint(0.0, d)))
  {
    var n := (d * 120.0).Floor;
    assert F64ToI32(d * 120.0) == n by {
      assert TruncTowardZero(d * 120.0) == n;
    }
    LowWordKeepsI16(n, w);
    HighWordRoundTrip(w);
    WinListen.HandleWheel(state, WinListen.MouseHookRecord((w as bv32) << 16), kb);
  }

  /** The keyboard descriptor of a key with Windows codes: scan-code mode
      when the scan code is non-zero (the scan code cut to 16 bits), virtual-key
      mode otherwise; EXTENDEDKEY when the high byte of `wScan` is 0xE0 or
      0xE1; KEYUP on a release. */
  function KeyboardInputOf(vk: int, scancode: int, down: bool): (ki: KeyboardInput)
    ensures scancode != 0 ==> ki.wVk == 0 && ki.wScan == scancode % 0x1_0000
    ensures scancode == 0 ==> ki.wVk == vk % 0x1_0000 && ki.wScan == 0
  {
    var wVk := if scancode != 0 then 0 else vk % 0x1_0000;
    var wScan := if scancode != 0 then scancode % 0x1_0000 else 0;
    var mode: bv32 := if scancode != 0 then KeyeventfScancode else 0;
    var extended: bv32 := if wScan / 0x100 == 0xE0 || wScan / 0x100 == 0xE1 then KeyeventfExtendedKey else 0;
    var release: bv32 := if !down then KeyeventfKeyUp else 0;
    KeyboardInput(wVk, wScan, mode | extended | release)
  }

  /** `add_keyboard`: nothing for a key without Windows codes, one
      descriptor otherwise. */
  function KeyboardInputs(key: Key, down: bool): (r: seq<KeyboardInput>)
    ensures |r| <= 1
    ensures r == [] <==> WinKeycode.GetWinCodes(key).None?
  {
    match WinKeycode.GetWinCodes(key)
    case None => []
    case Some(codes) => [KeyboardInputOf(codes.0, codes.1, down)]
  }

  /** A non-zero 16-bit scan code is sent as is, in scan-code mode, with
      EXTENDEDKEY exactly for the 0xE0/0xE1 prefixes and KEYUP exactly on a
      release. */
  lemma ScancodeModeFlags(vk: int, scancode: int, down: bool)
    requires 0 < scancode <= 0xFFFF
    ensures var ki := KeyboardInputOf(vk, scancode, down);
            ki.wVk == 0 && ki.wScan == scancode &&
            ki.dwFlags & KeyeventfScancode != 0 &&
            (ki.dwFlags & KeyeventfKeyUp != 0 <==> !down) &&
            (ki.dwFlags & KeyeventfExtendedKey != 0 <==> scancode / 0x100 == 0xE0 || scancode / 0x100 == 0xE1)
  {
    FlagBits(scancode / 0x100 == 0xE0 || scancode / 0x100 == 0xE1, !down);
  }

  /** Every key of the table is injected by scan code: the descriptor names
      no virtual key, carries the SCANCODE flag, is marked extended exactly
      for the 0xE0/0xE1-prefixed codes and as a release exactly when `down`
      is false, and its scan code reads back as the same key. */
  lemma {:induction false} KeyboardInputRoundTrip(key: Key, down: bool)
    requires WinKeycode.GetWinCodes(key).Some?
    ensures var ki := KeyboardInputs(key, down)[0];
            ki.wVk == 0 && ki.wScan != 0 && WinKeycode.ScancodeToKey(ki.wScan) == key &&
            ki.dwFlags & KeyeventfScancode != 0 &&
            (ki.dwFlags & KeyeventfKeyUp != 0 <==> !down) &&
            (ki.dwFlags & KeyeventfExtendedKey != 0 <==> ki.wScan / 0x100 == 0xE0 || ki.wScan / 0x100 == 0xE1)
  {
    WinKeycode.GetWinCodesPairsColumns(key);
    WinKeycode.ScancodeRoundTrip(key);
    var codes := WinKeycode.GetWinCodes(key).value;
    ScancodeModeFlags(codes.0, codes.1, down);
  }

  /** The three keyboard flags are distinct bits: each can be read back
      from their union. */
  lemma FlagBits(extended: bool, release: bool)
    ensures var f := KeyeventfScancode | (if extended then KeyeventfExtendedKey else 0) | (if release then KeyeventfKeyUp else 0);
            f & KeyeventfScancode != 0 && (f & KeyeventfKeyUp != 0 <==> release) &&
            (f & KeyeventfExtendedKey != 0 <==> extended)
  {
    if extended {
      if release {
        assert KeyeventfScancode | KeyeventfExtendedKey | KeyeventfKeyUp == 0x000B;
      } else {
        assert KeyeventfScancode | KeyeventfExtendedKey | 0 == 0x0009;
      }
    } else {
      if release {
        assert KeyeventfScancode | 0 | KeyeventfKeyUp == 0x000A;
      } else {
        assert KeyeventfScancode | 0 | 0 == 0x0008;
      }
    }
  }

  /** One axis of `add_mouse_move_to`: the physical coordinate mapped onto
      0..65535 across the virtual desktop, truncated as `f64 as i32`. */
  function AbsoluteCoordinate(physical: real, origin: int, extent: int): (n: int)
    requires extent > 1
    ensures IsI32(n)
  {
    F64ToI32((physical - origin as real) * 65535.0 / (extent - 1) as real)
  }

  /** The first pixel of the virtual desktop maps to 0, its last pixel to
      65535, and every pixel in between into 0..65535. */
  lemma AbsoluteCoordinateRange(physical: real, origin: int, extent: int)
    requires extent > 1
    requires origin as real <= physical <= (origin + extent - 1) as real
    ensures 0 <= AbsoluteCoordinate(physical, origin, extent) <= 65535
    ensures physical == origin as real ==> AbsoluteCoordinate(physical, origin, extent) == 0
    ensures physical == (origin + extent - 1) as real ==> AbsoluteCoordinate(physical, origin, extent) == 65535
  {
    var span := (extent - 1) as real;
    var q := (physical - origin as real) * 65535.0 / span;
    assert 0.0 <= physical - origin as real <= span;
    assert 0.0 <= q <= 65535.0 by {
      assert (physical - origin as real) * 65535.0 <= span * 65535.0;
    }
    if physical == (origin + extent - 1) as real {
      assert q == 65535.0;
    }
  }

  /** `InputBuilder`: the descriptors collected so far. */
  class InputBuilder {
    var inputs: seq<Input>

    /** `new`: no descriptor yet. */
    constructor ()
      ensures inputs == []
    {
      inputs := [];
    }

    method PushMouse(mi: MouseInput)
      modifies this
      ensures inputs == old(inputs) + [Mouse(mi)]
    {
      inputs := inputs + [Mouse(mi)];
    }

    method PushKeyboard(ki: KeyboardInput)
      modifies this
      ensures inputs == old(inputs) + [Keyboard(ki)]
    {
      inputs := inputs + [Keyboard(ki)];
    }

    /** `add_mouse_move`: one relative MOVE descriptor, each delta cut to
        `i32`. */
    method AddMouseMove(dx: real, dy: real)
      modifies this
      ensures inputs == old(inputs) + [Mouse(MouseInput(F64ToI32(dx), F64ToI32(dy), 0, MouseeventfMove))]
    {
      PushMouse(MouseInput(F64ToI32(dx), F64ToI32(dy), 0, MouseeventfMove));
    }

    /** `add_mouse_move_to`: nothing on a degenerate virtual desktop (one
        pixel or less across), otherwise one absolute MOVE descriptor over
        the whole virtual desktop, from the logical point scaled to physical
        pixels. */
    method AddMouseMoveTo(x: real, y: real, vx: int, vy: int, vw: int, vh: int, scale: real)
      modifies this
      ensures vw <= 1 || vh <= 1 ==> inputs == old(inputs)
      ensures vw > 1 && vh > 1 ==>
                inputs == old(inputs) + [Mouse(MouseInput(AbsoluteCoordinate(x * scale, vx, vw), AbsoluteCoordinate(y * scale, vy, vh), 0,
                                                          MouseeventfMove | MouseeventfAbsolute | MouseeventfVirtualDesk))]
    {
      if vw <= 1 || vh <= 1 {
        return;
      }
      var dx := AbsoluteCoordinate(x * scale, vx, vw);
      var dy := AbsoluteCoordinate(y * scale, vy, vh);
      PushMouse(MouseInput(dx, dy, 0, MouseeventfMove | MouseeventfAbsolute | MouseeventfVirtualDesk));
    }

    /** `add_mouse_button`: one descriptor from the button table. */
    method AddMouseButton(button: MouseButton, down: bool)
      modifies this
      ensures inputs == old(inputs) + [Mouse(ButtonInput(button, down))]
    {
      PushMouse(ButtonInput(button, down));
    }

    /** `add_mouse_wheel`: the vertical descriptor, then the horizontal one,
        each only for an axis that is not negligible. */
    method AddMouseWheel(dx: real, dy: real)
      modifies this
      ensures |inputs| == |old(inputs)| + |WheelInputs(dx, dy)|
      ensures inputs[..|old(inputs)|] == old(inputs)
      ensures forall i :: 0 <= i < |WheelInputs(dx, dy)| ==> inputs[|old(inputs)| + i] == Mouse(WheelInputs(dx, dy)[i])
    {
      if Abs(dy) > F64Epsilon {
        PushMouse(MouseInput(0, 0, WheelData(dy), MouseeventfWheel));
      }
      if Abs(dx) > F64Epsilon {
        PushMouse(MouseInput(0, 0, WheelData(dx), MouseeventfHWheel));
      }
    }

    /** `add_keyboard`: nothing for a key without Windows codes, its
        descriptor otherwise. */
    method AddKeyboard(key: Key, down: bool)
      modifies this
      ensures WinKeycode.GetWinCodes(key).None? ==> inputs == old(inputs)
      ensures WinKeycode.GetWinCodes(key).Some? ==> inputs == old(inputs) + [Keyboard(KeyboardInputs(key, down)[0])]
    {
      match WinKeycode.GetWinCodes(key)
      case None =>
      case Some(codes) =>
        var (vk, scancode) := codes;
        PushKeyboard(KeyboardInputOf(vk, scancode, down));
    }

    /** `add_event`: each event goes to exactly one primitive, pressed for
        the Down variants and released for the Up ones. */
    method AddEvent(event: Event)
      modifies this
      ensures event.MouseMove? ==>
                inputs == old(inputs) + [Mouse(MouseInput(F64ToI32(event.delta.x as real), F64ToI32(event.delta.y as real), 0, MouseeventfMove))]
      ensures event.MouseWheel? ==>
                |inputs| == |old(inputs)| + |WheelInputs(event.wheelDelta.x, event.wheelDelta.y)| && inputs[..|old(inputs)|] == old(inputs)
      ensures event.MouseWheel? ==>
                forall i :: 0 <= i < |WheelInputs(event.wheelDelta.x, event.wheelDelta.y)| ==>
                  inputs[|old(inputs)| + i] == Mouse(WheelInputs(event.wheelDelta.x, event.wheelDelta.y)[i])
      ensures event.MouseDown? || event.MouseUp? ==> inputs == old(inputs) + [Mouse(ButtonInput(event.button, event.MouseDown?))]
      ensures (event.KeyDown? || event.KeyUp?) && WinKeycode.GetWinCodes(event.key).None? ==> inputs == old(inputs)
      ensures (event.KeyDown? || event.KeyUp?) && WinKeycode.GetWinCodes(event.key).Some? ==>
                inputs == old(inputs) + [Keyboard(KeyboardInputs(event.key, event.KeyDown?)[0])]
    {
      match event
      case MouseMove(delta) => AddMouseMove(delta.x as real, delta.y as real);
      case MouseWheel(delta) => AddMouseWheel(delta.x, delta.y);
      case MouseDown(button) => AddMouseButton(button, true);
      case MouseUp(button) => AddMouseButton(button, false);
      case KeyDown(key, _) => AddKeyboard(key, true);
      case KeyUp(key, _) => AddKeyboard(key, false);
    }

    /** `send`: one `SendInput` call with every descriptor, and none when
        there is nothing to send.  The builder is consumed. */
    method Send() returns (sent: Option<seq<Input>>)
      ensures sent.None? <==> inputs == []
      ensures sent.Some? ==> sent.value == inputs
    {
      if inputs == [] {
        return None;
      }
      sent := Some(inputs);
    }
  }

  /** `Simulate::simulate`: a fresh builder, the event's descriptors, one
      send.  A button or move event always makes exactly one call with its
      one descriptor; a wheel event sends exactly its wheel descriptors; a
      key without Windows codes makes no call at all. */
  method Simulate(event: Event) returns (sent: Option<seq<Input>>)
    ensures event.MouseDown? || event.MouseUp? ==> sent == Some([Mouse(ButtonInput(event.button, event.MouseDown?))])
    ensures (event.KeyDown? || event.KeyUp?) ==> (sent.None? <==> WinKeycode.GetWinCodes(event.key).None?)
    ensures (event.KeyDown? || event.KeyUp?) && sent.Some? ==> sent == Some([Keyboard(KeyboardInputs(event.key, event.KeyDown?)[0])])
    ensures event.MouseMove? ==>
              sent == Some([Mouse(MouseInput(F64ToI32(event.delta.x as real), F64ToI32(event.delta.y as real), 0, MouseeventfMove))])
    ensures event.MouseWheel? ==> (sent.None? <==> WheelInputs(event.wheelDelta.x, event.wheelDelta.y) == [])
    ensures event.MouseWheel? && sent.Some? ==>
              |sent.value| == |WheelInputs(event.wheelDelta.x, event.wheelDelta.y)| &&
              forall i :: 0 <= i < |sent.value| ==> sent.value[i] == Mouse(WheelInputs(event.wheelDelta.x, event.wheelDelta.y)[i])
  {
    var builder := new InputBuilder();
    builder.AddEvent(event);
    assert builder.inputs == [] + builder.inputs[0..];
    sent := builder.Send();
  }

  /** `Simulate::mouse_move_to`: one absolute move, or no call at all on a
      degenerate virtual desktop. */
  method SimulateMouseMoveTo(x: real, y: real, vx: int, vy: int, vw: int, vh: int, scale: real) returns (sent: Option<seq<Input>>)
    ensures sent.None? <==> vw <= 1 || vh <= 1
    ensures sent.Some? ==> |sent.value| == 1 && sent.value[0].Mouse? &&
                           sent.value[0].mi.dx == AbsoluteCoordinate(x * scale, vx, vw) &&
                           sent.value[0].mi.dy == AbsoluteCoordinate(y * scale, vy, vh)
  {
    var builder := new InputBuilder();
    builder.AddMouseMoveTo(x, y, vx, vy, vw, vh, scale);
    sent := builder.Send();
  }
}
