/** The Windows listener: its running flag, its category mask and the
    subscriber registry it feeds, and the two decision trees that turn a hook
    message or a raw-input packet into at most one canonical event. */
module WinListen {
  import opened Events
  import opened Casts
  import opened Masks
  import opened WinCommon
  import WinKeycode
  import opened Dispatcher
  import opened Subscription

  /** The field of `MSLLHOOKSTRUCT` the mouse hook reads. */
  datatype MouseHookRecord = MouseHookRecord(mouseData: bv32)

  /** `RIM_TYPEMOUSE`: the raw-input header type of a mouse packet. */
  const RimTypeMouse: int := 0
  /** `MOUSE_MOVE_ABSOLUTE`: the raw mouse flag of an absolute position. */
  const MouseMoveAbsolute: bv16 := 1

  /** What `GetRawInputData` returns for a `WM_INPUT` packet: the header
      type, the mouse flags and the two relative deltas. */
  datatype RawInput = RawInput(dwType: int, usFlags: bv16, lastX: int, lastY: int)

  /** The key event of a key message: down for `WM_KEYDOWN` and
      `WM_SYSKEYDOWN`, up otherwise, carrying the code it was read from. */
  function KeyEventOf(msg: int, code: int): (e: Event)
    ensures e.KeyDown? <==> msg == WmKeyDown || msg == WmSysKeyDown
    ensures e.KeyDown? || e.KeyUp?
    ensures e.key == WinKeycode.CodeToKey(code) && e.code == Some(code)
  {
    var key := WinKeycode.CodeToKey(code);
    if msg == WmKeyDown || msg == WmSysKeyDown then KeyDown(key, Some(code)) else KeyUp(key, Some(code))
  }

  /** The X button named by the high word of `mouseData`, if any. */
  function XButtonOf(delta: bv16): (b: Option<MouseButton>)
    ensures b == Some(Back) <==> delta == XButton1
    ensures b == Some(Forward) <==> delta == XButton2
    ensures b.None? <==> delta != XButton1 && delta != XButton2
  {
    if delta == XButton1 then Some(Back) else if delta == XButton2 then Some(Forward) else None
  }

  /** `Listen::handle`: the event a low-level hook message yields, given the
      running flag and the mask.  Nothing is produced while stopped or with
      an empty mask; each message needs its category bit; mouse moves are
      not read here (they arrive as raw input). */
  function Handle(running: bool, state: bv32, msg: int, mouse: MouseHookRecord, kb: KbdHookRecord): (r: Option<Event>)
    ensures !running || state == 0 ==> r == None
    ensures r.Some? ==> running && (IsButtonMessage(msg) || IsWheelMessage(msg) || IsKeyMessage(msg))
    ensures r.Some? ==> HasBit(state, CategoryOf(msg))
  {
    if !running || state == 0 then None
    else if IsButtonMessage(msg) || IsWheelMessage(msg) then
      if IsWheelMessage(msg) && !HasBit(state, MouseWheelBit) then None
      else if !IsWheelMessage(msg) && !HasBit(state, MouseButtonBit) then None
      else
        var delta := HiWord(mouse.mouseData);
        if msg == WmLButtonDown then Some(MouseDown(Left))
        else if msg == WmLButtonUp then Some(MouseUp(Left))
        else if msg == WmRButtonDown then Some(MouseDown(Right))
        else if msg == WmRButtonUp then Some(MouseUp(Right))
        else if msg == WmMButtonDown then Some(MouseDown(Middle))
        else if msg == WmMButtonUp then Some(MouseUp(Middle))
        else if msg == WmMouseWheel then Some(MouseWheel(FloatPoint(0.0, SignExtend16(delta) as real / 120.0)))
        else if msg == WmMouseHWheel then Some(MouseWheel(FloatPoint(SignExtend16(delta) as real / 120.0, 0.0)))
        else
          match XButtonOf(delta)
          case None => None
          case Some(button) => if msg == WmXButtonDown then Some(MouseDown(button)) else Some(MouseUp(button))
    else if IsKeyMessage(msg) then
      if !HasBit(state, KeyboardBit) then None
      else Some(KeyEventOf(msg, GetCode(kb) as int))
    else None
  }

  /** A key message with the KEYBOARD bit set reports the key of its
      virtual-key code, down for the key-down messages. */
  lemma HandleKeyMessage(state: bv32, msg: int, mouse: MouseHookRecord, kb: KbdHookRecord)
    requires IsKeyMessage(msg) && HasBit(state, KeyboardBit)
    ensures Handle(true, state, msg, mouse, kb) == Some(KeyEventOf(msg, GetCode(kb) as int))
  {
    assert state != 0 && !IsButtonMessage(msg) && !IsWheelMessage(msg);
  }

  /** An X button message with the BUTTON bit set reports the button its
      high word names, and nothing when the word names neither. */
  lemma HandleXButton(state: bv32, msg: int, mouse: MouseHookRecord, kb: KbdHookRecord)
    requires HasBit(state, MouseButtonBit) && (msg == WmXButtonDown || msg == WmXButtonUp)
    ensures var b := XButtonOf(HiWord(mouse.mouseData));
            var r := Handle(true, state, msg, mouse, kb);
            (r.Some? <==> b.Some?) &&
            (r.Some? ==> r == Some(if msg == WmXButtonDown then MouseDown(b.value) else MouseUp(b.value)))
  {
  }

  /** A vertical wheel message with the WHEEL bit set reports its signed
      high word in notches of 120 on the y axis. */
  lemma HandleWheel(state: bv32, mouse: MouseHookRecord, kb: KbdHookRecord)
    requires HasBit(state, MouseWheelBit)
    ensures Handle(true, state, WmMouseWheel, mouse, kb) ==
              Some(MouseWheel(FloatPoint(0.0, SignExtend16(HiWord(mouse.mouseData)) as real / 120.0)))
  {
    assert state != 0 && IsWheelMessage(WmMouseWheel);
  }

  /** A horizontal wheel message with the WHEEL bit set reports its signed
      high word in notches of 120 on the x axis. */
  lemma HandleHWheel(state: bv32, mouse: MouseHookRecord, kb: KbdHookRecord)
    requires HasBit(state, MouseWheelBit)
    ensures Handle(true, state, WmMouseHWheel, mouse, kb) ==
              Some(MouseWheel(FloatPoint(SignExtend16(HiWord(mouse.mouseData)) as real / 120.0, 0.0)))
  {
    assert state != 0 && IsWheelMessage(WmMouseHWheel);
  }

  /** The left, right and middle button messages, with the button and the
      direction each one reports when the BUTTON bit is set. */
  lemma HandleButtons(state: bv32, mouse: MouseHookRecord, kb: KbdHookRecord)
    requires HasBit(state, MouseButtonBit)
    ensures Handle(true, state, WmLButtonDown, mouse, kb) == Some(MouseDown(Left))
    ensures Handle(true, state, WmLButtonUp, mouse, kb) == Some(MouseUp(Left))
    ensures Handle(true, state, WmRButtonDown, mouse, kb) == Some(MouseDown(Right))
    ensures Handle(true, state, WmRButtonUp, mouse, kb) == Some(MouseUp(Right))
    ensures Handle(true, state, WmMButtonDown, mouse, kb) == Some(MouseDown(Middle))
    ensures Handle(true, state, WmMButtonUp, mouse, kb) == Some(MouseUp(Middle))
  {
  }

  /** Every key event the listener reports names a key whose own virtual-key
      code is the code it carries, unless the code is unknown to the table
      and the key is the default one. */
  lemma {:induction false} HandleKeyAgreesWithTable(state: bv32, msg: int, mouse: MouseHookRecord, kb: KbdHookRecord)
    requires Handle(true, state, msg, mouse, kb).Some?
    requires IsKeyMessage(msg)
    ensures var e := Handle(true, state, msg, mouse, kb).value;
            e.code == Some(GetCode(kb) as int) &&
            (e.key == DefaultKey || WinKeycode.KeyToCode(e.key) == e.code)
  {
    HandleKeyMessage(state, msg, mouse, kb);
    WinKeycode.CodeToKeyInverse(GetCode(kb) as int);
  }

  /** A key message whose virtual-key code is a table row's own code (and not
      `VK_PACKET`) reports that row's key, for every row whose code no
      earlier row claims. */
  lemma {:induction false} HandleKeyOfRow(state: bv32, msg: int, mouse: MouseHookRecord, kb: KbdHookRecord, key: Key)
    requires HasBit(state, KeyboardBit) && IsKeyMessage(msg)
    requires kb.vkCode != VkPacket && WinKeycode.KeyToCode(key) == Some(kb.vkCode as int)
    requires !WinKeycode.HasShadowedCode(key)
    ensures Handle(true, state, msg, mouse, kb) == Some(KeyEventOf(msg, kb.vkCode as int))
    ensures Handle(true, state, msg, mouse, kb).value.key == key
  {
    HandleKeyMessage(state, msg, mouse, kb);
    WinKeycode.CodeRoundTrip(key);
  }

  /** `Listen::handle_mouse_move`: whether the raw-input packet was consumed,
      and the relative move it yields.  `raw` is `None` when reading the
      packet failed. */
  function HandleMouseMove(running: bool, state: bv32, raw: Option<RawInput>): (r: (bool, Option<Event>))
    ensures !r.0 <==> !running || !HasBit(state, MouseMoveBit) || raw.None? || raw.value.dwType != RimTypeMouse
    ensures r.1.Some? <==> r.0 && raw.value.usFlags & MouseMoveAbsolute == 0 &&
                           (raw.value.lastX != 0 || raw.value.lastY != 0)
    ensures r.1.Some? ==> r.1 == Some(MouseMove(Point(raw.value.lastX, raw.value.lastY)))
  {
    if !running then (false, None)
    else if !HasBit(state, MouseMoveBit) then (false, None)
    else match raw
      case None => (false, None)
      case Some(input) =>
        if input.dwType != RimTypeMouse then (false, None)
        else if input.usFlags & MouseMoveAbsolute != 0 then (true, None)
        else if input.lastX != 0 || input.lastY != 0 then (true, Some(MouseMove(Point(input.lastX, input.lastY))))
        else (true, None)
  }

  /** The globals `IS_LISTEN_RUNNING` and `LISTEN_FLAG`, with the registry
      the listener feeds. */
  class Listen {
    var running: bool
    var flag: bv32
    const registry: Registry

    /** The initial state: stopped, with an empty mask. */
    constructor (registry: Registry)
      ensures this.registry == registry
      ensures !running && flag == 0
    {
      this.registry := registry;
      running := false;
      flag := 0;
    }

    /** `start`: the compare-and-swap claims the running flag; a listener that
        was already running is left as it was, otherwise the mask becomes
        `LISTENS_ALL`, overwriting earlier toggles. */
    method Start()
      modifies this
      ensures running
      ensures flag == if old(running) then old(flag) else AllBits
    {
      var wasRunning := running;
      running := true;
      if wasRunning {
        return;
      }
      flag := AllBits;
    }

    /** `is_runing`. */
    function IsRunning(): bool
      reads this
    {
      running
    }

    /** `pause`: clears the running flag only. */
    method Pause()
      modifies this`running
      ensures !running
    {
      running := false;
    }

    /** `resume`: sets the running flag only. */
    method Resume()
      modifies this`running
      ensures running
    {
      running := true;
    }

    /** `stop`: empties the mask, clears the running flag and drops every
        subscriber. */
    method Stop()
      modifies this, registry
      ensures registry.Valid()
      ensures flag == 0 && !running
      ensures registry.callbacks == map[] && registry.nextId == 0
    {
      flag := 0;
      Pause();
      UnsubscribeAll();
    }

    /** `mouse_move`, `mouse_wheel`, `mouse_button` and `keyboard`: each
        forces its own category bit and keeps the others. */
    method MouseMove(enable: bool)
      modifies this`flag
      ensures flag == UpdateState(old(flag), MouseMoveBit, enable)
    {
      flag := UpdateState(flag, MouseMoveBit, enable);
    }

    method MouseWheel(enable: bool)
      modifies this`flag
      ensures flag == UpdateState(old(flag), MouseWheelBit, enable)
    {
      flag := UpdateState(flag, MouseWheelBit, enable);
    }

    method MouseButton(enable: bool)
      modifies this`flag
      ensures flag == UpdateState(old(flag), MouseButtonBit, enable)
    {
      flag := UpdateState(flag, MouseButtonBit, enable);
    }

    method Keyboard(enable: bool)
      modifies this`flag
      ensures flag == UpdateState(old(flag), KeyboardBit, enable)
    {
      flag := UpdateState(flag, KeyboardBit, enable);
    }

    /** `subscribe`: takes the next id from the counter and registers it as
        Active.  The id is fresh: no registered subscriber is overwritten. */
    method Subscribe() returns (handle: SubscriptionHandle)
      requires registry.Valid()
      modifies registry
      ensures registry.Valid()
      ensures handle.id == old(registry.nextId) && handle.id !in old(registry.callbacks)
      ensures registry.nextId == old(registry.nextId) + 1
      ensures registry.callbacks == old(registry.callbacks)[handle.id := Active]
    {
      var id := registry.nextId;
      registry.nextId := registry.nextId + 1;
      registry.callbacks := registry.callbacks[id := Active];
      handle := SubscriptionHandle(id);
    }

    /** `unsubscribe_all`: clears the registry and restarts the counter. */
    method UnsubscribeAll()
      modifies registry
      ensures registry.Valid()
      ensures registry.callbacks == map[] && registry.nextId == 0
    {
      registry.RemoveAll();
    }
  }
}
