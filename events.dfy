/** The platform-neutral vocabulary shared by every engine: keys, buttons,
    canonical events, monitor descriptions and the errors of `Core::start`. */
module Events {

  datatype Option<+T> = None | Some(value: T)

  /** Physical key positions, in declaration order. */
  datatype Key =
    | Backquote | Backslash | BracketLeft | BracketRight | Comma | Digit0 | Digit1 | Digit2
    | Digit3 | Digit4 | Digit5 | Digit6 | Digit7 | Digit8 | Digit9 | Equal
    | IntlBackslash | IntlRo | IntlYen | KeyA | KeyB | KeyC | KeyD | KeyE
    | KeyF | KeyG | KeyH | KeyI | KeyJ | KeyK | KeyL | KeyM
    | KeyN | KeyO | KeyP | KeyQ | KeyR | KeyS | KeyT | KeyU
    | KeyV | KeyW | KeyX | KeyY | KeyZ | Minus | Period | Quote
    | Semicolon | Slash | AltLeft | AltRight | Backspace | CapsLock | ContextMenu | ControlLeft
    | ControlRight | Enter | MetaLeft | MetaRight | ShiftLeft | ShiftRight | Space | Tab
    | Convert | NonConvert | Delete | End | Help | Home | Insert | PageDown
    | PageUp | ArrowDown | ArrowLeft | ArrowRight | ArrowUp | NumLock | Numpad0 | Numpad1
    | Numpad2 | Numpad3 | Numpad4 | Numpad5 | Numpad6 | Numpad7 | Numpad8 | Numpad9
    | NumpadAdd | NumpadDecimal | NumpadDivide | NumpadEnter | NumpadMultiply | NumpadSubtract | Escape | F1
    | F2 | F3 | F4 | F5 | F6 | F7 | F8 | F9
    | F10 | F11 | F12 | F13 | F14 | F15 | F16 | F17
    | F18 | F19 | F20 | F21 | F22 | F23 | F24 | PrintScreen
    | ScrollLock | Pause | Unidentified

  /** `Key::default()`. */
  const DefaultKey: Key := Unidentified

  datatype MouseButton = Left | Right | Middle | Back | Forward

  /** An integer pixel position or delta (both coordinates are `i32`). */
  datatype Point = Point(x: int, y: int)

  /** A wheel delta; `f64` is idealised as `real`. */
  datatype FloatPoint = FloatPoint(x: real, y: real)

  /** The canonical event.  Key events carry the raw platform code when the
      platform reports one (the Windows listener does, the macOS one does not). */
  datatype Event =
    | MouseMove(delta: Point)
    | MouseWheel(wheelDelta: FloatPoint)
    | MouseDown(button: MouseButton)
    | MouseUp(button: MouseButton)
    | KeyDown(key: Key, code: Option<int>)
    | KeyUp(key: Key, code: Option<int>)

  /** Errors of the capture engine's start. */
  datatype CoreError =
    | MacEventTapError
    | MacLoopSourceError
    | LinuxMissingDisplayError
    | LinuxKeyboardError
    | LinuxRecordContextEnablingError
    | LinuxRecordContextError
    | LinuxXRecordExtensionError
    | WindowsKeyHookError(message: string)
    | WindowsMouseHookError(message: string)
    | WindowsRegisterRawInputError(message: string)

  datatype CoreResult = Ok | Err(error: CoreError)

  /** A connected monitor: offset and size in physical pixels. */
  datatype MonitorInfo = MonitorInfo(
    name: string,
    isPrimary: bool,
    offset: Point,
    size: Point,
    scaleFactor: real)
}

/** Rust's numeric `as` conversions, written out because Dafny integers are unbounded. */
module Casts {

  const I32Min: int := -0x8000_0000
  const I32Max: int := 0x7FFF_FFFF

  predicate IsI32(x: int) { I32Min <= x <= I32Max }

  /** Truncation toward zero, the rounding of `f64 as i32`. */
  function TruncTowardZero(r: real): (n: int)
    ensures 0.0 <= r ==> 0 <= n && n as real <= r < n as real + 1.0
    ensures r < 0.0 ==> n <= 0 && n as real - 1.0 < r <= n as real
  {
    if r >= 0.0 then r.Floor else -((-r).Floor)
  }

  /** `f64 as i32`: truncates toward zero and saturates at the bounds of `i32`. */
  function F64ToI32(r: real): (n: int)
    ensures IsI32(n)
    ensures IsI32(TruncTowardZero(r)) ==> n == TruncTowardZero(r)
    ensures TruncTowardZero(r) > I32Max ==> n == I32Max
    ensures TruncTowardZero(r) < I32Min ==> n == I32Min
  {
    var t := TruncTowardZero(r);
    if t > I32Max then I32Max else if t < I32Min then I32Min else t
  }

  /** `x as i32` from a wider integer: keeps the low 32 bits, two's complement. */
  function WrapI32(x: int): (n: int)
    ensures IsI32(n)
    ensures (n - x) % 0x1_0000_0000 == 0
    ensures IsI32(x) ==> n == x
  {
    var low := x % 0x1_0000_0000;
    if low > I32Max then low - 0x1_0000_0000 else low
  }

  /** `x as u32` from a wider integer: keeps the low 32 bits. */
  function WrapU32(x: int): (n: int)
    ensures 0 <= n < 0x1_0000_0000
    ensures (n - x) % 0x1_0000_0000 == 0
  {
    x % 0x1_0000_0000
  }

  /** `w as i16 as i32`: reads a 16-bit word as a signed value. */
  function SignExtend16(w: bv16): (n: int)
    ensures -0x8000 <= n < 0x8000
    ensures (n - w as int) % 0x1_0000 == 0
  {
    if w as int >= 0x8000 then w as int - 0x1_0000 else w as int
  }

  /** `n as u32` for an `i32`: the same 32 bits read as unsigned. */
  function I32AsU32(n: int): (u: int)
    requires IsI32(n)
    ensures 0 <= u < 0x1_0000_0000
    ensures WrapI32(u) == n
  {
    if n < 0 then n + 0x1_0000_0000 else n
  }
}
