/** macOS input injection: the Quartz event each primitive posts.  The
    cursor location the primitives read from the system is a parameter, and
    the event a primitive posts is its result (`None` when it posts
    nothing). */
module MacSimulate {
  import opened Events
  import opened Casts
  import opened Masks
  import opened MacCommon
  import MacKeycode
  import opened MacListen

  /** `CGMouseButton`: the button a mouse event is created with. */
  datatype CGMouseButton = CgLeft | CgRight | CgCenter

  /** The button number Quartz records for an event created with a button
      (`kCGMouseButtonLeft` 0, `kCGMouseButtonRight` 1,
      `kCGMouseButtonCenter` 2), unless the number is set explicitly. */
  function CgButtonNumber(b: CGMouseButton): int {
    match b
    case CgLeft => 0
    case CgRight => 1
    case CgCenter => 2
  }

  /** What a primitive posts to the HID tap location. */
  datatype Posted =
    | PostedMove(x: int, y: int)
    | PostedButton(eventType: CGEventType, cgButton: CGMouseButton, buttonNumber: Option<int>, location: FloatPoint)
    | PostedScroll(axis1: int, axis2: int)
    | PostedKey(keycode: int, down: bool)

  /** The button number the tap sees on a posted button event. */
  function EffectiveButtonNumber(p: Posted): int
    requires p.PostedButton?
  {
    if p.buttonNumber.Some? then p.buttonNumber.value else CgButtonNumber(p.cgButton)
  }

  /** `mouse_move_to`: a `MouseMoved` event at the given point. */
  function MouseMoveTo(x: int, y: int): (p: Posted)
    ensures p == PostedMove(x, y)
  {
    PostedMove(x, y)
  }

  /** `mouse_move`: a move to the current cursor location plus the delta,
      each coordinate cut to `i32`. */
  function MouseMove(dx: int, dy: int, cursor: FloatPoint): (p: Posted)
    ensures p.PostedMove?
    ensures IsI32(p.x) && IsI32(p.y)
  {
    MouseMoveTo(F64ToI32(cursor.x + dx as real), F64ToI32(cursor.y + dy as real))
  }

  /** On a whole-pixel cursor, a move lands exactly `delta` away from it,
      as long as the target is within `i32`. */
  lemma {:induction false} MouseMoveIsRelative(dx: int, dy: int, cx: int, cy: int)
    requires IsI32(cx + dx) && IsI32(cy + dy)
    ensures MouseMove(dx, dy, FloatPoint(cx as real, cy as real)) == PostedMove(cx + dx, cy + dy)
  {
    assert cx as real + dx as real == (cx + dx) as real;
    assert cy as real + dy as real == (cy + dy) as real;
    assert TruncTowardZero((cx + dx) as real) == cx + dx;
    assert TruncTowardZero((cy + dy) as real) == cy + dy;
  }

  /** `mouse_wheel`: a two-axis pixel scroll with the vertical amount on the
      first axis and the horizontal one on the second. */
  function MouseWheel(dx: real, dy: real): (p: Posted)
    ensures p == PostedScroll(F64ToI32(dy), F64ToI32(dx))
  {
    PostedScroll(F64ToI32(dy), F64ToI32(dx))
  }

  /** A whole-pixel scroll comes back from the listener with its axes in
      place: the listener reads the second axis as x and the first as y. */
  lemma {:induction false} MouseWheelRoundTrip(dx: int, dy: int, state: bv32, lastFlags: bv64, raw: RawEvent)
    requires IsI32(dx) && IsI32(dy) && HasBit(state, MouseWheelBit)
    requires raw.axis1 == MouseWheel(dx as real, dy as real).axis1 && raw.axis2 == MouseWheel(dx as real, dy as real).axis2
    ensures Handle(true, state, lastFlags, ScrollWheel, raw).event == Some(Event.MouseWheel(FloatPoint(dx as real, dy as real)))
  {
    assert TruncTowardZero(dx as real) == dx;
    assert TruncTowardZero(dy as real) == dy;
  }

  /** The `(button, down)` table of `mouse_button`: left and right keep their
      own event types and buttons; middle, back and forward all use the
      "other" types with the center button. */
  function ButtonEvent(button: MouseButton, down: bool): (r: (CGEventType, CGMouseButton))
    ensures button == Left ==> r == (if down then LeftMouseDown else LeftMouseUp, CgLeft)
    ensures button == Right ==> r == (if down then RightMouseDown else RightMouseUp, CgRight)
    ensures button != Left && button != Right ==> r == (if down then OtherMouseDown else OtherMouseUp, CgCenter)
  {
    match button
    case Left => (if down then LeftMouseDown else LeftMouseUp, CgLeft)
    case Right => (if down then RightMouseDown else RightMouseUp, CgRight)
    case Middle => (if down then OtherMouseDown else OtherMouseUp, CgCenter)
    case Back => (if down then OtherMouseDown else OtherMouseUp, CgCenter)
    case Forward => (if down then OtherMouseDown else OtherMouseUp, CgCenter)
  }

  /** `mouse_button`: the table's event at the cursor location, with the
      button number forced to 3 for back and 4 for forward. */
  function MouseButtonPost(button: MouseButton, down: bool, cursor: FloatPoint): (p: Posted)
    ensures p.PostedButton? && p.location == cursor
    ensures p.buttonNumber == (if button == Back then Some(3) else if button == Forward then Some(4) else None)
  {
    var (t, cg) := ButtonEvent(button, down);
    var number := if button == Back then Some(3) else if button == Forward then Some(4) else None;
    PostedButton(t, cg, number, cursor)
  }

  /** Every button survives the trip through the listener: the posted event
      type and the button number the tap sees decode to the same button and
      direction. */
  lemma {:induction false} MouseButtonRoundTrip(button: MouseButton, down: bool, cursor: FloatPoint,
                                                state: bv32, lastFlags: bv64, raw: RawEvent)
    requires HasBit(state, MouseButtonBit)
    requires raw.buttonNumber == EffectiveButtonNumber(MouseButtonPost(button, down, cursor))
    ensures Handle(true, state, lastFlags, MouseButtonPost(button, down, cursor).eventType, raw).event ==
              Some(if down then MouseDown(button) else MouseUp(button))
  {
    match button
    case Left =>
    case Right =>
    case Middle =>
    case Back =>
    case Forward =>
  }

  /** `keyboard`: nothing for a key the macOS table does not list, otherwise
      a key event with its code. */
  function KeyboardPost(key: Key, down: bool): (p: Option<Posted>)
    ensures p.None? <==> MacKeycode.KeyToCode(key).None?
    ensures p.Some? ==> p.value == PostedKey(MacKeycode.KeyToCode(key).value, down)
  {
    match MacKeycode.KeyToCode(key)
    case None => None
    case Some(code) => Some(PostedKey(code, down))
  }

  /** Every key that is posted comes back from the listener as the same key
      and direction; exactly the keys without a row are dropped. */
  lemma {:induction false} KeyboardRoundTrip(key: Key, down: bool, state: bv32, lastFlags: bv64, raw: RawEvent)
    requires HasBit(state, KeyboardBit)
    ensures KeyboardPost(key, down).None? <==> MacKeycode.Unmapped(key)
    ensures KeyboardPost(key, down).Some? && raw.keycode == KeyboardPost(key, down).value.keycode ==>
              Handle(true, state, lastFlags, if down then CGEventType.KeyDown else CGEventType.KeyUp, raw).event ==
                Some(if down then Event.KeyDown(key, None) else Event.KeyUp(key, None))
  {
    MacKeycode.KeyToCodeDefinedExactly(key);
    if KeyboardPost(key, down).Some? && raw.keycode == KeyboardPost(key, down).value.keycode {
      HandleKeyOfRow(state, lastFlags, if down then CGEventType.KeyDown else CGEventType.KeyUp, raw, key);
    }
  }

  /** `Simulate::simulate`: each event goes to exactly one primitive,
      pressed for the Down variants and released for the Up ones. */
  function Simulate(event: Event, cursor: FloatPoint): (p: Option<Posted>)
    ensures event.MouseMove? ==> p == Some(MouseMove(event.delta.x, event.delta.y, cursor))
    ensures event.MouseWheel? ==> p == Some(MouseWheel(event.wheelDelta.x, event.wheelDelta.y))
    ensures event.MouseDown? || event.MouseUp? ==> p == Some(MouseButtonPost(event.button, event.MouseDown?, cursor))
    ensures event.KeyDown? || event.KeyUp? ==> p == KeyboardPost(event.key, event.KeyDown?)
  {
    match event
    case MouseMove(delta) => Some(MouseMove(delta.x, delta.y, cursor))
    case MouseWheel(delta) => Some(MouseWheel(delta.x, delta.y))
    case MouseDown(button) => Some(MouseButtonPost(button, true, cursor))
    case MouseUp(button) => Some(MouseButtonPost(button, false, cursor))
    case KeyDown(key, _) => KeyboardPost(key, true)
    case KeyUp(key, _) => KeyboardPost(key, false)
  }
}
