/** The macOS listener: its running flag, its category mask, the snapshot of
    the modifier flags it compares each `FlagsChanged` event against, and the
    decision tree that turns a tapped Quartz event into at most one
    canonical event. */
module MacListen {
  import opened Events
  import opened Casts
  import opened Masks
  import opened MacCommon
  import MacKeycode
  import opened Dispatcher
  import opened Subscription

  /** The integer fields of a `CGEvent` the listener reads (each an `i64`),
      and its modifier flags. */
  datatype RawEvent = RawEvent(
    deltaX: int,
    deltaY: int,
    buttonNumber: int,
    axis1: int,
    axis2: int,
    keycode: int,
    flags: bv64)

  /** What `handle` produces: the event it dispatches, if any, and the value
      `LAST_FLAGS` holds afterwards. */
  datatype HandleResult = HandleResult(event: Option<Event>, lastFlags: bv64)

  /** The button an "other" mouse button number stands for: 2 is the middle
      button, 3 and 4 the side buttons; any other number is dropped. */
  function OtherButtonOf(num: int): (b: Option<MouseButton>)
    ensures b == Some(Middle) <==> num == 2
    ensures b == Some(Back) <==> num == 3
    ensures b == Some(Forward) <==> num == 4
    ensures b.None? <==> num != 2 && num != 3 && num != 4
  {
    if num == 2 then Some(Middle)
    else if num == 3 then Some(Back)
    else if num == 4 then Some(Forward)
    else None
  }

  /** The key of a key code read from the event: the `i64` field is cast to
      the `u32` key code type before the table lookup. */
  function KeyOf(keycode: int): (key: Key)
    ensures key == MacKeycode.CodeToKey(WrapU32(keycode))
  {
    MacKeycode.CodeToKey(WrapU32(keycode))
  }

  /** Whether some modifier flag that differs between the two words is set
      in the new one, i.e. `new & (new ^ old) != 0`. */
  predicate AnyPressed(newFlags: bv64, oldFlags: bv64) {
    newFlags & (newFlags ^ oldFlags) != 0
  }

  /** Two flag words are equal exactly when no bit differs. */
  lemma XorZero(a: bv64, b: bv64)
    ensures a ^ b == 0 <==> a == b
  {
  }

  /** Setting flags absent from the snapshot changes the word and counts as
      a press. */
  lemma PressedBits(last: bv64, m: bv64)
    requires m != 0 && last & m == 0
    ensures last | m != last && AnyPressed(last | m, last)
  {
    assert (last | m) ^ last == m;
  }

  /** Clearing flags of the snapshot changes the word and does not count as
      a press. */
  lemma ReleasedBits(last: bv64, m: bv64)
    requires m != 0 && last & m == m
    ensures last & !m != last && !AnyPressed(last & !m, last)
  {
    assert (last & !m) ^ last == m;
  }

  /** The event a modifier change reports: nothing when no flag changed,
      otherwise a press when some changed flag is now set and a release when
      every changed flag is now clear; the key is the one given. */
  function FlagsEvent(newFlags: bv64, oldFlags: bv64, key: Key): (e: Option<Event>)
    ensures e.Some? <==> newFlags != oldFlags
    ensures e.Some? ==> (e.value.KeyDown? || e.value.KeyUp?) && e.value.key == key && e.value.code == None
    ensures e.Some? ==> (e.value.KeyDown? <==> AnyPressed(newFlags, oldFlags))
  {
    XorZero(newFlags, oldFlags);
    if newFlags ^ oldFlags == 0 then None
    else if AnyPressed(newFlags, oldFlags) then Some(Event.KeyDown(key, None))
    else Some(Event.KeyUp(key, None))
  }

  /** `Listen::handle`: the event a tapped event yields, given the running
      flag, the mask and the snapshot of the modifier flags.  The snapshot is
      replaced by the event's flags exactly when a `FlagsChanged` event gets
      past the running flag, the empty-mask check and the KEYBOARD bit. */
  function Handle(running: bool, state: bv32, lastFlags: bv64, t: CGEventType, raw: RawEvent): (r: HandleResult)
    ensures !running || state == 0 ==> r == HandleResult(None, lastFlags)
    ensures r.event.Some? ==> running && HasBit(state, CategoryOf(t))
    ensures r.lastFlags == (if running && t == FlagsChanged && HasBit(state, KeyboardBit) then raw.flags else lastFlags)
    ensures running && HasBit(state, MouseMoveBit) && IsMoveType(t) ==>
              r.event == if raw.deltaX != 0 || raw.deltaY != 0
                         then Some(MouseMove(Point(WrapI32(raw.deltaX), WrapI32(raw.deltaY))))
                         else None
    ensures running && HasBit(state, MouseButtonBit) && (t == LeftMouseDown || t == RightMouseDown) ==>
              r.event == Some(MouseDown(if t == LeftMouseDown then Left else Right))
    ensures running && HasBit(state, MouseButtonBit) && (t == LeftMouseUp || t == RightMouseUp) ==>
              r.event == Some(MouseUp(if t == LeftMouseUp then Left else Right))
    ensures running && HasBit(state, MouseButtonBit) && (t == OtherMouseDown || t == OtherMouseUp) ==>
              var b := OtherButtonOf(raw.buttonNumber);
              (r.event.Some? <==> b.Some?) &&
              (r.event.Some? ==> r.event == Some(if t == OtherMouseDown then MouseDown(b.value) else MouseUp(b.value)))
    ensures running && HasBit(state, MouseWheelBit) && t == ScrollWheel ==>
              r.event == Some(MouseWheel(FloatPoint(raw.axis2 as real, raw.axis1 as real)))
    ensures running && HasBit(state, KeyboardBit) && (t == CGEventType.KeyDown || t == CGEventType.KeyUp) ==>
              r.event == Some(if t == CGEventType.KeyDown then Event.KeyDown(KeyOf(raw.keycode), None)
                              else Event.KeyUp(KeyOf(raw.keycode), None))
    ensures running && HasBit(state, KeyboardBit) && t == FlagsChanged ==>
              r.event == FlagsEvent(raw.flags, lastFlags, KeyOf(raw.keycode))
  {
    if !running || state == 0 then HandleResult(None, lastFlags)
    else if IsMoveType(t) then
      if !HasBit(state, MouseMoveBit) then HandleResult(None, lastFlags)
      else if raw.deltaX != 0 || raw.deltaY != 0 then
        HandleResult(Some(MouseMove(Point(WrapI32(raw.deltaX), WrapI32(raw.deltaY)))), lastFlags)
      else HandleResult(None, lastFlags)
    else if t == LeftMouseDown || t == LeftMouseUp || t == RightMouseDown || t == RightMouseUp then
      if !HasBit(state, MouseButtonBit) then HandleResult(None, lastFlags)
      else
        var button := if t == LeftMouseDown || t == LeftMouseUp then Left else Right;
        if t == LeftMouseDown || t == RightMouseDown then HandleResult(Some(MouseDown(button)), lastFlags)
        else HandleResult(Some(MouseUp(button)), lastFlags)
    else if t == OtherMouseDown || t == OtherMouseUp then
      if !HasBit(state, MouseButtonBit) then HandleResult(None, lastFlags)
      else
        match OtherButtonOf(raw.buttonNumber)
        case None => HandleResult(None, lastFlags)
        case Some(button) =>
          if t == OtherMouseDown then HandleResult(Some(MouseDown(button)), lastFlags)
          else HandleResult(Some(MouseUp(button)), lastFlags)
    else if t == ScrollWheel then
      if !HasBit(state, MouseWheelBit) then HandleResult(None, lastFlags)
      else HandleResult(Some(MouseWheel(FloatPoint(raw.axis2 as real, raw.axis1 as real))), lastFlags)
    else if t == CGEventType.KeyDown || t == CGEventType.KeyUp then
      if !HasBit(state, KeyboardBit) then HandleResult(None, lastFlags)
      else if t == CGEventType.KeyDown then HandleResult(Some(Event.KeyDown(KeyOf(raw.keycode), None)), lastFlags)
      else HandleResult(Some(Event.KeyUp(KeyOf(raw.keycode), None)), lastFlags)
    else if t == FlagsChanged then
      if !HasBit(state, KeyboardBit) then HandleResult(None, lastFlags)
      else HandleResult(FlagsEvent(raw.flags, lastFlags, KeyOf(raw.keycode)), raw.flags)
    else HandleResult(None, lastFlags)
  }

  /** Every event the listener reports comes from a type the tap asks for. */
  lemma HandledTypesAreInterested(running: bool, state: bv32, lastFlags: bv64, t: CGEventType, raw: RawEvent)
    requires Handle(running, state, lastFlags, t, raw).event.Some?
    ensures t in InterestedEvents
  {
    InterestedEventsCategorised(t);
  }

  /** A modifier that goes down (a flag not in the snapshot is added) is
      reported as a press; one that goes up (a flag of the snapshot is
      cleared) as a release.  Either way the snapshot follows the flags. */
  lemma {:induction false} FlagsChangedPressRelease(state: bv32, lastFlags: bv64, raw: RawEvent, m: bv64)
    requires HasBit(state, KeyboardBit) && m != 0
    ensures lastFlags & m == 0 && raw.flags == lastFlags | m ==>
              Handle(true, state, lastFlags, FlagsChanged, raw) == HandleResult(Some(Event.KeyDown(KeyOf(raw.keycode), None)), raw.flags)
    ensures lastFlags & m == m && raw.flags == lastFlags & !m ==>
              Handle(true, state, lastFlags, FlagsChanged, raw) == HandleResult(Some(Event.KeyUp(KeyOf(raw.keycode), None)), raw.flags)
  {
    if lastFlags & m == 0 && raw.flags == lastFlags | m {
      PressedBits(lastFlags, m);
      assert FlagsEvent(raw.flags, lastFlags, KeyOf(raw.keycode)) == Some(Event.KeyDown(KeyOf(raw.keycode), None));
    }
    if lastFlags & m == m && raw.flags == lastFlags & !m {
      ReleasedBits(lastFlags, m);
      assert FlagsEvent(raw.flags, lastFlags, KeyOf(raw.keycode)) == Some(Event.KeyUp(KeyOf(raw.keycode), None));
    }
  }

  /** Once a modifier change has been seen, the same flags arriving again
      report nothing and leave the snapshot as it is. */
  lemma {:induction false} FlagsChangedRepeatSilent(state: bv32, lastFlags: bv64, raw: RawEvent, again: RawEvent)
    requires HasBit(state, KeyboardBit) && again.flags == raw.flags
    ensures var first := Handle(true, state, lastFlags, FlagsChanged, raw);
            Handle(true, state, first.lastFlags, FlagsChanged, again) == HandleResult(None, raw.flags)
  {
    var first := Handle(true, state, lastFlags, FlagsChanged, raw);
    assert first.lastFlags == raw.flags;
    assert FlagsEvent(again.flags, raw.flags, KeyOf(again.keycode)) == None;
  }

  /** A key event with the KEYBOARD bit set reports the key of its code,
      down for `KeyDown` and up for `KeyUp`. */
  lemma HandleKeyMessage(state: bv32, lastFlags: bv64, t: CGEventType, raw: RawEvent)
    requires HasBit(state, KeyboardBit) && (t == CGEventType.KeyDown || t == CGEventType.KeyUp)
    ensures Handle(true, state, lastFlags, t, raw).event ==
              Some(if t == CGEventType.KeyDown then Event.KeyDown(KeyOf(raw.keycode), None) else Event.KeyUp(KeyOf(raw.keycode), None))
  {
    assert state != 0 && !IsMoveType(t) && !IsButtonType(t) && t != ScrollWheel;
  }

  /** A table row's own code is read back as the row's key. */
  lemma KeyOfRow(key: Key, code: int)
    requires MacKeycode.KeyToCode(key) == Some(code)
    ensures KeyOf(code) == key
  {
    MacKeycode.CodeRoundTrip(key);
    assert WrapU32(code) == code;
  }

  /** A key event whose code is a table row's own code reports that row's
      key. */
  lemma {:induction false} HandleKeyOfRow(state: bv32, lastFlags: bv64, t: CGEventType, raw: RawEvent, key: Key)
    requires HasBit(state, KeyboardBit) && (t == CGEventType.KeyDown || t == CGEventType.KeyUp)
    requires MacKeycode.KeyToCode(key) == Some(raw.keycode)
    ensures Handle(true, state, lastFlags, t, raw).event == Some(if t == CGEventType.KeyDown then Event.KeyDown(key, None) else Event.KeyUp(key, None))
  {
    HandleKeyMessage(state, lastFlags, t, raw);
    KeyOfRow(key, raw.keycode);
  }

  /** The globals `IS_LISTEN_RUNNING`, `LISTEN_FLAG` and `LAST_FLAGS`, with
      the registry the listener feeds. */
  class Listen {
    var running: bool
    var flag: bv32
    var lastFlags: bv64
    const registry: Registry

    /** The initial state: stopped, with an empty mask and no modifier. */
    constructor (registry: Registry)
      ensures this.registry == registry
      ensures !running && flag == 0 && lastFlags == 0
    {
      this.registry := registry;
      running := false;
      flag := 0;
      lastFlags := 0;
    }

    /** `start`: the compare-and-swap claims the running flag; a listener that
        was already running is left as it was, otherwise the mask becomes
        `LISTENS_ALL`.  The modifier snapshot is kept. */
    method Start()
      modifies this`running, this`flag
      ensures running
      ensures flag == if old(running) then old(flag) else AllBits
    {
      var wasRunning := running;
      running := true;
      if wasRunning {
        return;
      }
      flag := AllBits;
    }

    /** `is_runing`. */
    function IsRunning(): bool
      reads this
    {
      running
    }

    /** `pause`: clears the running flag only. */
    method Pause()
      modifies this`running
      ensures !running
    {
      running := false;
    }

    /** `resume`: sets the running flag only. */
    method Resume()
      modifies this`running
      ensures running
    {
      running := true;
    }

    /** `stop`: empties the mask, clears the running flag and drops every
        subscriber; the modifier snapshot survives. */
    method Stop()
      modifies this`running, this`flag, registry
      ensures registry.Valid()
      ensures flag == 0 && !running
      ensures registry.callbacks == map[] && registry.nextId == 0
    {
      flag := 0;
      Pause();
      UnsubscribeAll();
    }

    /** `mouse_move`, `mouse_wheel`, `mouse_button` and `keyboard`: each
        forces its own category bit and keeps the others. */
    method MouseMove(enable: bool)
      modifies this`flag
      ensures flag == UpdateState(old(flag), MouseMoveBit, enable)
    {
      flag := UpdateState(flag, MouseMoveBit, enable);
    }

    method MouseWheel(enable: bool)
      modifies this`flag
      ensures flag == UpdateState(old(flag), MouseWheelBit, enable)
    {
      flag := UpdateState(flag, MouseWheelBit, enable);
    }

    method MouseButton(enable: bool)
      modifies this`flag
      ensures flag == UpdateState(old(flag), MouseButtonBit, enable)
    {
      flag := UpdateState(flag, MouseButtonBit, enable);
    }

    method Keyboard(enable: bool)
      modifies this`flag
      ensures flag == UpdateState(old(flag), KeyboardBit, enable)
    {
      flag := UpdateState(flag, KeyboardBit, enable);
    }

    /** `subscribe`: takes the next id from the counter and registers it as
        Active.  The id is fresh: no registered subscriber is overwritten. */
    method Subscribe() returns (handle: SubscriptionHandle)
      requires registry.Valid()
      modifies registry
      ensures registry.Valid()
      ensures handle.id == old(registry.nextId) && handle.id !in old(registry.callbacks)
      ensures registry.nextId == old(registry.nextId) + 1
      ensures registry.callbacks == old(registry.callbacks)[handle.id := Active]
    {
      var id := registry.nextId;
      registry.nextId := registry.nextId + 1;
      registry.callbacks := registry.callbacks[id := Active];
      handle := SubscriptionHandle(id);
    }

    /** `unsubscribe_all`: clears the registry and restarts the counter. */
    method UnsubscribeAll()
      modifies registry
      ensures registry.Valid()
      ensures registry.callbacks == map[] && registry.nextId == 0
    {
      registry.RemoveAll();
    }

    /** `handle` on the listener's own state: computes the event, moves the
        modifier snapshot, and dispatches the event to the Active
        subscribers. */
    method HandleEvent(t: CGEventType, raw: RawEvent) returns (event: Option<Event>, invoked: seq<nat>)
      modifies this`lastFlags
      ensures var h := Handle(running, flag, old(lastFlags), t, raw);
              event == h.event && lastFlags == h.lastFlags
      ensures event.None? ==> invoked == []
      ensures event.Some? ==> forall id :: id in invoked <==> id in ActiveIds(registry.callbacks)
    {
      var h := Handle(running, flag, lastFlags, t, raw);
      event, invoked := h.event, [];
      lastFlags := h.lastFlags;
      if event.Some? {
        invoked := registry.Dispatch(event.value);
      }
    }
  }
}
