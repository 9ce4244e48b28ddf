/** The macOS key table: one row per key with its virtual key code.  Both
    lookups are `match`es whose arms follow the rows; the code column has no
    repeats, so the order of the arms does not matter. */
module MacKeycode {
  import opened Events

  /** `key_to_code`: the code column; keys without a row give `None`. */
  function KeyToCode(key: Key): (r: Option<int>)
    ensures r.Some? ==> 0 <= r.value < 0x80
  {
    match key
    case KeyA => Some(0x00)
    case KeyS => Some(0x01)
    case KeyD => Some(0x02)
    case KeyF => Some(0x03)
    case KeyH => Some(0x04)
    case KeyG => Some(0x05)
    case KeyZ => Some(0x06)
    case KeyX => Some(0x07)
    case KeyC => Some(0x08)
    case KeyV => Some(0x09)
    case KeyB => Some(0x0B)
    case KeyQ => Some(0x0C)
    case KeyW => Some(0x0D)
    case KeyE => Some(0x0E)
    case KeyR => Some(0x0F)
    case KeyY => Some(0x10)
    case KeyT => Some(0x11)
    case Digit1 => Some(0x12)
    case Digit2 => Some(0x13)
    case Digit3 => Some(0x14)
    case Digit4 => Some(0x15)
    case Digit5 => Some(0x17)
    case Digit6 => Some(0x16)
    case Digit7 => Some(0x1A)
    case Digit8 => Some(0x1C)
    case Digit9 => Some(0x19)
    case Digit0 => Some(0x1D)
    case Equal => Some(0x18)
    case Minus => Some(0x1B)
    case BracketRight => Some(0x1E)
    case BracketLeft => Some(0x21)
    case KeyO => Some(0x1F)
    case KeyU => Some(0x20)
    case KeyI => Some(0x22)
    case KeyP => Some(0x23)
    case KeyL => Some(0x25)
    case KeyJ => Some(0x26)
    case KeyK => Some(0x28)
    case KeyN => Some(0x2D)
    case KeyM => Some(0x2E)
    case Quote => Some(0x27)
    case Semicolon => Some(0x29)
    case Backslash => Some(0x2A)
    case Comma => Some(0x2B)
    case Slash => Some(0x2C)
    case Period => Some(0x2F)
    case Backquote => Some(0x32)
    case IntlBackslash => Some(0x0A)
    case Enter => Some(0x24)
    case Tab => Some(0x30)
    case Space => Some(0x31)
    case Backspace => Some(0x33)
    case Escape => Some(0x35)
    case MetaRight => Some(0x36)
    case MetaLeft => Some(0x37)
    case ShiftLeft => Some(0x38)
    case CapsLock => Some(0x39)
    case AltLeft => Some(0x3A)
    case ControlLeft => Some(0x3B)
    case ShiftRight => Some(0x3C)
    case AltRight => Some(0x3D)
    case ControlRight => Some(0x3E)
    case Home => Some(0x73)
    case PageUp => Some(0x74)
    case Delete => Some(0x75)
    case End => Some(0x77)
    case PageDown => Some(0x79)
    case Insert => Some(0x72)
    case ArrowLeft => Some(0x7B)
    case ArrowRight => Some(0x7C)
    case ArrowDown => Some(0x7D)
    case ArrowUp => Some(0x7E)
    case NumpadDecimal => Some(0x41)
    case NumpadMultiply => Some(0x43)
    case NumpadAdd => Some(0x45)
    case NumLock => Some(0x47)
    case NumpadDivide => Some(0x4B)
    case NumpadEnter => Some(0x4C)
    case NumpadSubtract => Some(0x4E)
    case Numpad0 => Some(0x52)
    case Numpad1 => Some(0x53)
    case Numpad2 => Some(0x54)
    case Numpad3 => Some(0x55)
    case Numpad4 => Some(0x56)
    case Numpad5 => Some(0x57)
    case Numpad6 => Some(0x58)
    case Numpad7 => Some(0x59)
    case Numpad8 => Some(0x5B)
    case Numpad9 => Some(0x5C)
    case F1 => Some(0x7A)
    case F2 => Some(0x78)
    case F3 => Some(0x63)
    case F4 => Some(0x76)
    case F5 => Some(0x60)
    case F6 => Some(0x61)
    case F7 => Some(0x62)
    case F8 => Some(0x64)
    case F9 => Some(0x65)
    case F10 => Some(0x6D)
    case F11 => Some(0x67)
    case F12 => Some(0x6F)
    case F13 => Some(0x69)
    case F14 => Some(0x6B)
    case F15 => Some(0x71)
    case F16 => Some(0x6A)
    case F17 => Some(0x40)
    case F18 => Some(0x4F)
    case F19 => Some(0x50)
    case F20 => Some(0x5A)
    case IntlYen => Some(0x5D)
    case IntlRo => Some(0x5E)
    case _ => None
  }

  /** `code_to_key`: the row whose code matches, else the default key. */
  function CodeToKey(code: int): (k: Key)
    ensures k != Help
  {
    match code
    case 0x00 => KeyA
    case 0x01 => KeyS
    case 0x02 => KeyD
    case 0x03 => KeyF
    case 0x04 => KeyH
    case 0x05 => KeyG
    case 0x06 => KeyZ
    case 0x07 => KeyX
    case 0x08 => KeyC
    case 0x09 => KeyV
    case 0x0B => KeyB
    case 0x0C => KeyQ
    case 0x0D => KeyW
    case 0x0E => KeyE
    case 0x0F => KeyR
    case 0x10 => KeyY
    case 0x11 => KeyT
    case 0x12 => Digit1
    case 0x13 => Digit2
    case 0x14 => Digit3
    case 0x15 => Digit4
    case 0x17 => Digit5
    case 0x16 => Digit6
    case 0x1A => Digit7
    case 0x1C => Digit8
    case 0x19 => Digit9
    case 0x1D => Digit0
    case 0x18 => Equal
    case 0x1B => Minus
    case 0x1E => BracketRight
    case 0x21 => BracketLeft
    case 0x1F => KeyO
    case 0x20 => KeyU
    case 0x22 => KeyI
    case 0x23 => KeyP
    case 0x25 => KeyL
    case 0x26 => KeyJ
    case 0x28 => KeyK
    case 0x2D => KeyN
    case 0x2E => KeyM
    case 0x27 => Quote
    case 0x29 => Semicolon
    case 0x2A => Backslash
    case 0x2B => Comma
    case 0x2C => Slash
    case 0x2F => Period
    case 0x32 => Backquote
    case 0x0A => IntlBackslash
    case 0x24 => Enter
    case 0x30 => Tab
    case 0x31 => Space
    case 0x33 => Backspace
    case 0x35 => Escape
    case 0x36 => MetaRight
    case 0x37 => MetaLeft
    case 0x38 => ShiftLeft
    case 0x39 => CapsLock
    case 0x3A => AltLeft
    case 0x3B => ControlLeft
    case 0x3C => ShiftRight
    case 0x3D => AltRight
    case 0x3E => ControlRight
    case 0x73 => Home
    case 0x74 => PageUp
    case 0x75 => Delete
    case 0x77 => End
    case 0x79 => PageDown
    case 0x72 => Insert
    case 0x7B => ArrowLeft
    case 0x7C => ArrowRight
    case 0x7D => ArrowDown
    case 0x7E => ArrowUp
    case 0x41 => NumpadDecimal
    case 0x43 => NumpadMultiply
    case 0x45 => NumpadAdd
    case 0x47 => NumLock
    case 0x4B => NumpadDivide
    case 0x4C => NumpadEnter
    case 0x4E => NumpadSubtract
    case 0x52 => Numpad0
    case 0x53 => Numpad1
    case 0x54 => Numpad2
    case 0x55 => Numpad3
    case 0x56 => Numpad4
    case 0x57 => Numpad5
    case 0x58 => Numpad6
    case 0x59 => Numpad7
    case 0x5B => Numpad8
    case 0x5C => Numpad9
    case 0x7A => F1
    case 0x78 => F2
    case 0x63 => F3
    case 0x76 => F4
    case 0x60 => F5
    case 0x61 => F6
    case 0x62 => F7
    case 0x64 => F8
    case 0x65 => F9
    case 0x6D => F10
    case 0x67 => F11
    case 0x6F => F12
    case 0x69 => F13
    case 0x6B => F14
    case 0x71 => F15
    case 0x6A => F16
    case 0x40 => F17
    case 0x4F => F18
    case 0x50 => F19
    case 0x5A => F20
    case 0x5D => IntlYen
    case 0x5E => IntlRo
    case _ => DefaultKey
  }

  /** Keys the table has no row for. */
  predicate Unmapped(key: Key) {
    key == ContextMenu || key == Convert || key == NonConvert || key == Help || key == F21 || key == F22 || key == F23 || key == F24 || key == PrintScreen || key == ScrollLock || key == Pause || key == Unidentified
  }

  /** What a row of the table guarantees: the key has a code below 0x80 and
      the code reads back as the key. */
  predicate RowFacts(key: Key) {
    KeyToCode(key).Some? && 0 <= KeyToCode(key).value < 0x80 &&
    CodeToKey(KeyToCode(key).value) == key
  }

  // One lemma per row: the row as both lookups see it.
  lemma RowKeyA() ensures KeyToCode(KeyA) == Some(0x00) && CodeToKey(0x00) == KeyA {}
  lemma RowKeyS() ensures KeyToCode(KeyS) == Some(0x01) && CodeToKey(0x01) == KeyS {}
  lemma RowKeyD() ensures KeyToCode(KeyD) == Some(0x02) && CodeToKey(0x02) == KeyD {}
  lemma RowKeyF() ensures KeyToCode(KeyF) == Some(0x03) && CodeToKey(0x03) == KeyF {}
  lemma RowKeyH() ensures KeyToCode(KeyH) == Some(0x04) && CodeToKey(0x04) == KeyH {}
  lemma RowKeyG() ensures KeyToCode(KeyG) == Some(0x05) && CodeToKey(0x05) == KeyG {}
  lemma RowKeyZ() ensures KeyToCode(KeyZ) == Some(0x06) && CodeToKey(0x06) == KeyZ {}
  lemma RowKeyX() ensures KeyToCode(KeyX) == Some(0x07) && CodeToKey(0x07) == KeyX {}
  lemma RowKeyC() ensures KeyToCode(KeyC) == Some(0x08) && CodeToKey(0x08) == KeyC {}
  lemma RowKeyV() ensures KeyToCode(KeyV) == Some(0x09) && CodeToKey(0x09) == KeyV {}
  lemma RowKeyB() ensures KeyToCode(KeyB) == Some(0x0B) && CodeToKey(0x0B) == KeyB {}
  lemma RowKeyQ() ensures KeyToCode(KeyQ) == Some(0x0C) && CodeToKey(0x0C) == KeyQ {}
  lemma RowKeyW() ensures KeyToCode(KeyW) == Some(0x0D) && CodeToKey(0x0D) == KeyW {}
  lemma RowKeyE() ensures KeyToCode(KeyE) == Some(0x0E) && CodeToKey(0x0E) == KeyE {}
  lemma RowKeyR() ensures KeyToCode(KeyR) == Some(0x0F) && CodeToKey(0x0F) == KeyR {}
  lemma RowKeyY() ensures KeyToCode(KeyY) == Some(0x10) && CodeToKey(0x10) == KeyY {}
  lemma RowKeyT() ensures KeyToCode(KeyT) == Some(0x11) && CodeToKey(0x11) == KeyT {}
  lemma RowDigit1() ensures KeyToCode(Digit1) == Some(0x12) && CodeToKey(0x12) == Digit1 {}
  lemma RowDigit2() ensures KeyToCode(Digit2) == Some(0x13) && CodeToKey(0x13) == Digit2 {}
  lemma RowDigit3() ensures KeyToCode(Digit3) == Some(0x14) && CodeToKey(0x14) == Digit3 {}
  lemma RowDigit4() ensures KeyToCode(Digit4) == Some(0x15) && CodeToKey(0x15) == Digit4 {}
  lemma RowDigit5() ensures KeyToCode(Digit5) == Some(0x17) && CodeToKey(0x17) == Digit5 {}
  lemma RowDigit6() ensures KeyToCode(Digit6) == Some(0x16) && CodeToKey(0x16) == Digit6 {}
  lemma RowDigit7() ensures KeyToCode(Digit7) == Some(0x1A) && CodeToKey(0x1A) == Digit7 {}
  lemma RowDigit8() ensures KeyToCode(Digit8) == Some(0x1C) && CodeToKey(0x1C) == Digit8 {}
  lemma RowDigit9() ensures KeyToCode(Digit9) == Some(0x19) && CodeToKey(0x19) == Digit9 {}
  lemma RowDigit0() ensures KeyToCode(Digit0) == Some(0x1D) && CodeToKey(0x1D) == Digit0 {}
  lemma RowEqual() ensures KeyToCode(Equal) == Some(0x18) && CodeToKey(0x18) == Equal {}
  lemma RowMinus() ensures KeyToCode(Minus) == Some(0x1B) && CodeToKey(0x1B) == Minus {}
  lemma RowBracketRight() ensures KeyToCode(BracketRight) == Some(0x1E) && CodeToKey(0x1E) == BracketRight {}
  lemma RowBracketLeft() ensures KeyToCode(BracketLeft) == Some(0x21) && CodeToKey(0x21) == BracketLeft {}
  lemma RowKeyO() ensures KeyToCode(KeyO) == Some(0x1F) && CodeToKey(0x1F) == KeyO {}
  lemma RowKeyU() ensures KeyToCode(KeyU) == Some(0x20) && CodeToKey(0x20) == KeyU {}
  lemma RowKeyI() ensures KeyToCode(KeyI) == Some(0x22) && CodeToKey(0x22) == KeyI {}
  lemma RowKeyP() ensures KeyToCode(KeyP) == Some(0x23) && CodeToKey(0x23) == KeyP {}
  lemma RowKeyL() ensures KeyToCode(KeyL) == Some(0x25) && CodeToKey(0x25) == KeyL {}
  lemma RowKeyJ() ensures KeyToCode(KeyJ) == Some(0x26) && CodeToKey(0x26) == KeyJ {}
  lemma RowKeyK() ensures KeyToCode(KeyK) == Some(0x28) && CodeToKey(0x28) == KeyK {}
  lemma RowKeyN() ensures KeyToCode(KeyN) == Some(0x2D) && CodeToKey(0x2D) == KeyN {}
  lemma RowKeyM() ensures KeyToCode(KeyM) == Some(0x2E) && CodeToKey(0x2E) == KeyM {}
  lemma RowQuote() ensures KeyToCode(Quote) == Some(0x27) && CodeToKey(0x27) == Quote {}
  lemma RowSemicolon() ensures KeyToCode(Semicolon) == Some(0x29) && CodeToKey(0x29) == Semicolon {}
  lemma RowBackslash() ensures KeyToCode(Backslash) == Some(0x2A) && CodeToKey(0x2A) == Backslash {}
  lemma RowComma() ensures KeyToCode(Comma) == Some(0x2B) && CodeToKey(0x2B) == Comma {}
  lemma RowSlash() ensures KeyToCode(Slash) == Some(0x2C) && CodeToKey(0x2C) == Slash {}
  lemma RowPeriod() ensures KeyToCode(Period) == Some(0x2F) && CodeToKey(0x2F) == Period {}
  lemma RowBackquote() ensures KeyToCode(Backquote) == Some(0x32) && CodeToKey(0x32) == Backquote {}
  lemma RowIntlBackslash() ensures KeyToCode(IntlBackslash) == Some(0x0A) && CodeToKey(0x0A) == IntlBackslash {}
  lemma RowEnter() ensures KeyToCode(Enter) == Some(0x24) && CodeToKey(0x24) == Enter {}
  lemma RowTab() ensures KeyToCode(Tab) == Some(0x30) && CodeToKey(0x30) == Tab {}
  lemma RowSpace() ensures KeyToCode(Space) == Some(0x31) && CodeToKey(0x31) == Space {}
  lemma RowBackspace() ensures KeyToCode(Backspace) == Some(0x33) && CodeToKey(0x33) == Backspace {}
  lemma RowEscape() ensures KeyToCode(Escape) == Some(0x35) && CodeToKey(0x35) == Escape {}
  lemma RowMetaRight() ensures KeyToCode(MetaRight) == Some(0x36) && CodeToKey(0x36) == MetaRight {}
  lemma RowMetaLeft() ensures KeyToCode(MetaLeft) == Some(0x37) && CodeToKey(0x37) == MetaLeft {}
  lemma RowShiftLeft() ensures KeyToCode(ShiftLeft) == Some(0x38) && CodeToKey(0x38) == ShiftLeft {}
  lemma RowCapsLock() ensures KeyToCode(CapsLock) == Some(0x39) && CodeToKey(0x39) == CapsLock {}
  lemma RowAltLeft() ensures KeyToCode(AltLeft) == Some(0x3A) && CodeToKey(0x3A) == AltLeft {}
  lemma RowControlLeft() ensures KeyToCode(ControlLeft) == Some(0x3B) && CodeToKey(0x3B) == ControlLeft {}
  lemma RowShiftRight() ensures KeyToCode(ShiftRight) == Some(0x3C) && CodeToKey(0x3C) == ShiftRight {}
  lemma RowAltRight() ensures KeyToCode(AltRight) == Some(0x3D) && CodeToKey(0x3D) == AltRight {}
  lemma RowControlRight() ensures KeyToCode(ControlRight) == Some(0x3E) && CodeToKey(0x3E) == ControlRight {}
  lemma RowHome() ensures KeyToCode(Home) == Some(0x73) && CodeToKey(0x73) == Home {}
  lemma RowPageUp() ensures KeyToCode(PageUp) == Some(0x74) && CodeToKey(0x74) == PageUp {}
  lemma RowDelete() ensures KeyToCode(Delete) == Some(0x75) && CodeToKey(0x75) == Delete {}
  lemma RowEnd() ensures KeyToCode(End) == Some(0x77) && CodeToKey(0x77) == End {}
  lemma RowPageDown() ensures KeyToCode(PageDown) == Some(0x79) && CodeToKey(0x79) == PageDown {}
  lemma RowInsert() ensures KeyToCode(Insert) == Some(0x72) && CodeToKey(0x72) == Insert {}
  lemma RowArrowLeft() ensures KeyToCode(ArrowLeft) == Some(0x7B) && CodeToKey(0x7B) == ArrowLeft {}
  lemma RowArrowRight() ensures KeyToCode(ArrowRight) == Some(0x7C) && CodeToKey(0x7C) == ArrowRight {}
  lemma RowArrowDown() ensures KeyToCode(ArrowDown) == Some(0x7D) && CodeToKey(0x7D) == ArrowDown {}
  lemma RowArrowUp() ensures KeyToCode(ArrowUp) == Some(0x7E) && CodeToKey(0x7E) == ArrowUp {}
  lemma RowNumpadDecimal() ensures KeyToCode(NumpadDecimal) == Some(0x41) && CodeToKey(0x41) == NumpadDecimal {}
  lemma RowNumpadMultiply() ensures KeyToCode(NumpadMultiply) == Some(0x43) && CodeToKey(0x43) == NumpadMultiply {}
  lemma RowNumpadAdd() ensures KeyToCode(NumpadAdd) == Some(0x45) && CodeToKey(0x45) == NumpadAdd {}
  lemma RowNumLock() ensures KeyToCode(NumLock) == Some(0x47) && CodeToKey(0x47) == NumLock {}
  lemma RowNumpadDivide() ensures KeyToCode(NumpadDivide) == Some(0x4B) && CodeToKey(0x4B) == NumpadDivide {}
  lemma RowNumpadEnter() ensures KeyToCode(NumpadEnter) == Some(0x4C) && CodeToKey(0x4C) == NumpadEnter {}
  lemma RowNumpadSubtract() ensures KeyToCode(NumpadSubtract) == Some(0x4E) && CodeToKey(0x4E) == NumpadSubtract {}
  lemma RowNumpad0() ensures KeyToCode(Numpad0) == Some(0x52) && CodeToKey(0x52) == Numpad0 {}
  lemma RowNumpad1() ensures KeyToCode(Numpad1) == Some(0x53) && CodeToKey(0x53) == Numpad1 {}
  lemma RowNumpad2() ensures KeyToCode(Numpad2) == Some(0x54) && CodeToKey(0x54) == Numpad2 {}
  lemma RowNumpad3() ensures KeyToCode(Numpad3) == Some(0x55) && CodeToKey(0x55) == Numpad3 {}
  lemma RowNumpad4() ensures KeyToCode(Numpad4) == Some(0x56) && CodeToKey(0x56) == Numpad4 {}
  lemma RowNumpad5() ensures KeyToCode(Numpad5) == Some(0x57) && CodeToKey(0x57) == Numpad5 {}
  lemma RowNumpad6() ensures KeyToCode(Numpad6) == Some(0x58) && CodeToKey(0x58) == Numpad6 {}
  lemma RowNumpad7() ensures KeyToCode(Numpad7) == Some(0x59) && CodeToKey(0x59) == Numpad7 {}
  lemma RowNumpad8() ensures KeyToCode(Numpad8) == Some(0x5B) && CodeToKey(0x5B) == Numpad8 {}
  lemma RowNumpad9() ensures KeyToCode(Numpad9) == Some(0x5C) && CodeToKey(0x5C) == Numpad9 {}
  lemma RowF1() ensures KeyToCode(F1) == Some(0x7A) && CodeToKey(0x7A) == F1 {}
  lemma RowF2() ensures KeyToCode(F2) == Some(0x78) && CodeToKey(0x78) == F2 {}
  lemma RowF3() ensures KeyToCode(F3) == Some(0x63) && CodeToKey(0x63) == F3 {}
  lemma RowF4() ensures KeyToCode(F4) == Some(0x76) && CodeToKey(0x76) == F4 {}
  lemma RowF5() ensures KeyToCode(F5) == Some(0x60) && CodeToKey(0x60) == F5 {}
  lemma RowF6() ensures KeyToCode(F6) == Some(0x61) && CodeToKey(0x61) == F6 {}
  lemma RowF7() ensures KeyToCode(F7) == Some(0x62) && CodeToKey(0x62) == F7 {}
  lemma RowF8() ensures KeyToCode(F8) == Some(0x64) && CodeToKey(0x64) == F8 {}
  lemma RowF9() ensures KeyToCode(F9) == Some(0x65) && CodeToKey(0x65) == F9 {}
  lemma RowF10() ensures KeyToCode(F10) == Some(0x6D) && CodeToKey(0x6D) == F10 {}
  lemma RowF11() ensures KeyToCode(F11) == Some(0x67) && CodeToKey(0x67) == F11 {}
  lemma RowF12() ensures KeyToCode(F12) == Some(0x6F) && CodeToKey(0x6F) == F12 {}
  lemma RowF13() ensures KeyToCode(F13) == Some(0x69) && CodeToKey(0x69) == F13 {}
  lemma RowF14() ensures KeyToCode(F14) == Some(0x6B) && CodeToKey(0x6B) == F14 {}
  lemma RowF15() ensures KeyToCode(F15) == Some(0x71) && CodeToKey(0x71) == F15 {}
  lemma RowF16() ensures KeyToCode(F16) == Some(0x6A) && CodeToKey(0x6A) == F16 {}
  lemma RowF17() ensures KeyToCode(F17) == Some(0x40) && CodeToKey(0x40) == F17 {}
  lemma RowF18() ensures KeyToCode(F18) == Some(0x4F) && CodeToKey(0x4F) == F18 {}
  lemma RowF19() ensures KeyToCode(F19) == Some(0x50) && CodeToKey(0x50) == F19 {}
  lemma RowF20() ensures KeyToCode(F20) == Some(0x5A) && CodeToKey(0x5A) == F20 {}
  lemma RowIntlYen() ensures KeyToCode(IntlYen) == Some(0x5D) && CodeToKey(0x5D) == IntlYen {}
  lemma RowIntlRo() ensures KeyToCode(IntlRo) == Some(0x5E) && CodeToKey(0x5E) == IntlRo {}

  // One lemma per key without a row.
  lemma NoRowContextMenu() ensures KeyToCode(ContextMenu) == None {}
  lemma NoRowConvert() ensures KeyToCode(Convert) == None {}
  lemma NoRowNonConvert() ensures KeyToCode(NonConvert) == None {}
  lemma NoRowHelp() ensures KeyToCode(Help) == None {}
  lemma NoRowF21() ensures KeyToCode(F21) == None {}
  lemma NoRowF22() ensures KeyToCode(F22) == None {}
  lemma NoRowF23() ensures KeyToCode(F23) == None {}
  lemma NoRowF24() ensures KeyToCode(F24) == None {}
  lemma NoRowPrintScreen() ensures KeyToCode(PrintScreen) == None {}
  lemma NoRowScrollLock() ensures KeyToCode(ScrollLock) == None {}
  lemma NoRowPause() ensures KeyToCode(Pause) == None {}
  lemma NoRowUnidentified() ensures KeyToCode(Unidentified) == None {}

  /** The rows KeyA to KeyG. */
  lemma {:induction false} RowGroup0(key: Key)
    requires key == KeyA || key == KeyS || key == KeyD || key == KeyF || key == KeyH || key == KeyG
    ensures RowFacts(key)
  {
    if key == KeyA {
      RowKeyA();
    }
    else if key == KeyS {
      RowKeyS();
    }
    else if key == KeyD {
      RowKeyD();
    }
    else if key == KeyF {
      RowKeyF();
    }
    else if key == KeyH {
      RowKeyH();
    }
    else if key == KeyG {
      RowKeyG();
    }
  }

  /** The rows KeyZ to KeyQ. */
  lemma {:induction false} RowGroup1(key: Key)
    requires key == KeyZ || key == KeyX || key == KeyC || key == KeyV || key == KeyB || key == KeyQ
    ensures RowFacts(key)
  {
    if key == KeyZ {
      RowKeyZ();
    }
    else if key == KeyX {
      RowKeyX();
    }
    else if key == KeyC {
      RowKeyC();
    }
    else if key == KeyV {
      RowKeyV();
    }
    else if key == KeyB {
      RowKeyB();
    }
    else if key == KeyQ {
      RowKeyQ();
    }
  }

  /** The rows KeyW to Digit1. */
  lemma {:induction false} RowGroup2(key: Key)
    requires key == KeyW || key == KeyE || key == KeyR || key == KeyY || key == KeyT || key == Digit1
    ensures RowFacts(key)
  {
    if key == KeyW {
      RowKeyW();
    }
    else if key == KeyE {
      RowKeyE();
    }
    else if key == KeyR {
      RowKeyR();
    }
    else if key == KeyY {
      RowKeyY();
    }
    else if key == KeyT {
      RowKeyT();
    }
    else if key == Digit1 {
      RowDigit1();
    }
  }

  /** The rows Digit2 to Digit7. */
  lemma {:induction false} RowGroup3(key: Key)
    requires key == Digit2 || key == Digit3 || key == Digit4 || key == Digit5 || key == Digit6 || key == Digit7
    ensures RowFacts(key)
  {
    if key == Digit2 {
      RowDigit2();
    }
    else if key == Digit3 {
      RowDigit3();
    }
    else if key == Digit4 {
      RowDigit4();
    }
    else if key == Digit5 {
      RowDigit5();
    }
    else if key == Digit6 {
      RowDigit6();
    }
    else if key == Digit7 {
      RowDigit7();
    }
  }

  /** The rows Digit8 to BracketRight. */
  lemma {:induction false} RowGroup4(key: Key)
    requires key == Digit8 || key == Digit9 || key == Digit0 || key == Equal || key == Minus || key == BracketRight
    ensures RowFacts(key)
  {
    if key == Digit8 {
      RowDigit8();
    }
    else if key == Digit9 {
      RowDigit9();
    }
    else if key == Digit0 {
      RowDigit0();
    }
    else if key == Equal {
      RowEqual();
    }
    else if key == Minus {
      RowMinus();
    }
    else if key == BracketRight {
      RowBracketRight();
    }
  }

  /** The rows BracketLeft to KeyL. */
  lemma {:induction false} RowGroup5(key: Key)
    requires key == BracketLeft || key == KeyO || key == KeyU || key == KeyI || key == KeyP || key == KeyL
    ensures RowFacts(key)
  {
    if key == BracketLeft {
      RowBracketLeft();
    }
    else if key == KeyO {
      RowKeyO();
    }
    else if key == KeyU {
      RowKeyU();
    }
    else if key == KeyI {
      RowKeyI();
    }
    else if key == KeyP {
      RowKeyP();
    }
    else if key == KeyL {
      RowKeyL();
    }
  }

  /** The rows KeyJ to Semicolon. */
  lemma {:induction false} RowGroup6(key: Key)
    requires key == KeyJ || key == KeyK || key == KeyN || key == KeyM || key == Quote || key == Semicolon
    ensures RowFacts(key)
  {
    if key == KeyJ {
      RowKeyJ();
    }
    else if key == KeyK {
      RowKeyK();
    }
    else if key == KeyN {
      RowKeyN();
    }
    else if key == KeyM {
      RowKeyM();
    }
    else if key == Quote {
      RowQuote();
    }
    else if key == Semicolon {
      RowSemicolon();
    }
  }

  /** The rows Backslash to IntlBackslash. */
  lemma {:induction false} RowGroup7(key: Key)
    requires key == Backslash || key == Comma || key == Slash || key == Period || key == Backquote || key == IntlBackslash
    ensures RowFacts(key)
  {
    if key == Backslash {
      RowBackslash();
    }
    else if key == Comma {
      RowComma();
    }
    else if key == Slash {
      RowSlash();
    }
    else if key == Period {
      RowPeriod();
    }
    else if key == Backquote {
      RowBackquote();
    }
    else if key == IntlBackslash {
      RowIntlBackslash();
    }
  }

  /** The rows Enter to MetaRight. */
  lemma {:induction false} RowGroup8(key: Key)
    requires key == Enter || key == Tab || key == Space || key == Backspace || key == Escape || key == MetaRight
    ensures RowFacts(key)
  {
    if key == Enter {
      RowEnter();
    }
    else if key == Tab {
      RowTab();
    }
    else if key == Space {
      RowSpace();
    }
    else if key == Backspace {
      RowBackspace();
    }
    else if key == Escape {
      RowEscape();
    }
    else if key == MetaRight {
      RowMetaRight();
    }
  }

  /** The rows MetaLeft to ShiftRight. */
  lemma {:induction false} RowGroup9(key: Key)
    requires key == MetaLeft || key == ShiftLeft || key == CapsLock || key == AltLeft || key == ControlLeft || key == ShiftRight
    ensures RowFacts(key)
  {
    if key == MetaLeft {
      RowMetaLeft();
    }
    else if key == ShiftLeft {
      RowShiftLeft();
    }
    else if key == CapsLock {
      RowCapsLock();
    }
    else if key == AltLeft {
      RowAltLeft();
    }
    else if key == ControlLeft {
      RowControlLeft();
    }
    else if key == ShiftRight {
      RowShiftRight();
    }
  }

  /** The rows AltRight to End. */
  lemma {:induction false} RowGroup10(key: Key)
    requires key == AltRight || key == ControlRight || key == Home || key == PageUp || key == Delete || key == End
    ensures RowFacts(key)
  {
    if key == AltRight {
      RowAltRight();
    }
    else if key == ControlRight {
      RowControlRight();
    }
    else if key == Home {
      RowHome();
    }
    else if key == PageUp {
      RowPageUp();
    }
    else if key == Delete {
      RowDelete();
    }
    else if key == End {
      RowEnd();
    }
  }

  /** The rows PageDown to ArrowUp. */
  lemma {:induction false} RowGroup11(key: Key)
    requires key == PageDown || key == Insert || key == ArrowLeft || key == ArrowRight || key == ArrowDown || key == ArrowUp
    ensures RowFacts(key)
  {
    if key == PageDown {
      RowPageDown();
    }
    else if key == Insert {
      RowInsert();
    }
    else if key == ArrowLeft {
      RowArrowLeft();
    }
    else if key == ArrowRight {
      RowArrowRight();
    }
    else if key == ArrowDown {
      RowArrowDown();
    }
    else if key == ArrowUp {
      RowArrowUp();
    }
  }

  /** The rows NumpadDecimal to NumpadEnter. */
  lemma {:induction false} RowGroup12(key: Key)
    requires key == NumpadDecimal || key == NumpadMultiply || key == NumpadAdd || key == NumLock || key == NumpadDivide || key == NumpadEnter
    ensures RowFacts(key)
  {
    if key == NumpadDecimal {
      RowNumpadDecimal();
    }
    else if key == NumpadMultiply {
      RowNumpadMultiply();
    }
    else if key == NumpadAdd {
      RowNumpadAdd();
    }
    else if key == NumLock {
      RowNumLock();
    }
    else if key == NumpadDivide {
      RowNumpadDivide();
    }
    else if key == NumpadEnter {
      RowNumpadEnter();
    }
  }

  /** The rows NumpadSubtract to Numpad4. */
  lemma {:induction false} RowGroup13(key: Key)
    requires key == NumpadSubtract || key == Numpad0 || key == Numpad1 || key == Numpad2 || key == Numpad3 || key == Numpad4
    ensures RowFacts(key)
  {
    if key == NumpadSubtract {
      RowNumpadSubtract();
    }
    else if key == Numpad0 {
      RowNumpad0();
    }
    else if key == Numpad1 {
      RowNumpad1();
    }
    else if key == Numpad2 {
      RowNumpad2();
    }
    else if key == Numpad3 {
      RowNumpad3();
    }
    else if key == Numpad4 {
      RowNumpad4();
    }
  }

  /** The rows Numpad5 to F1. */
  lemma {:induction false} RowGroup14(key: Key)
    requires key == Numpad5 || key == Numpad6 || key == Numpad7 || key == Numpad8 || key == Numpad9 || key == F1
    ensures RowFacts(key)
  {
    if key == Numpad5 {
      RowNumpad5();
    }
    else if key == Numpad6 {
      RowNumpad6();
    }
    else if key == Numpad7 {
      RowNumpad7();
    }
    else if key == Numpad8 {
      RowNumpad8();
    }
    else if key == Numpad9 {
      RowNumpad9();
    }
    else if key == F1 {
      RowF1();
    }
  }

  /** The rows F2 to F7. */
  lemma {:induction false} RowGroup15(key: Key)
    requires key == F2 || key == F3 || key == F4 || key == F5 || key == F6 || key == F7
    ensures RowFacts(key)
  {
    if key == F2 {
      RowF2();
    }
    else if key == F3 {
      RowF3();
    }
    else if key == F4 {
      RowF4();
    }
    else if key == F5 {
      RowF5();
    }
    else if key == F6 {
      RowF6();
    }
    else if key == F7 {
      RowF7();
    }
  }

  /** The rows F8 to F13. */
  lemma {:induction false} RowGroup16(key: Key)
    requires key == F8 || key == F9 || key == F10 || key == F11 || key == F12 || key == F13
    ensures RowFacts(key)
  {
    if key == F8 {
      RowF8();
    }
    else if key == F9 {
      RowF9();
    }
    else if key == F10 {
      RowF10();
    }
    else if key == F11 {
      RowF11();
    }
    else if key == F12 {
      RowF12();
    }
    else if key == F13 {
      RowF13();
    }
  }

  /** The rows F14 to F19. */
  lemma {:induction false} RowGroup17(key: Key)
    requires key == F14 || key == F15 || key == F16 || key == F17 || key == F18 || key == F19
    ensures RowFacts(key)
  {
    if key == F14 {
      RowF14();
    }
    else if key == F15 {
      RowF15();
    }
    else if key == F16 {
      RowF16();
    }
    else if key == F17 {
      RowF17();
    }
    else if key == F18 {
      RowF18();
    }
    else if key == F19 {
      RowF19();
    }
  }

  /** The rows F20 to IntlRo. */
  lemma {:induction false} RowGroup18(key: Key)
    requires key == F20 || key == IntlYen || key == IntlRo
    ensures RowFacts(key)
  {
    if key == F20 {
      RowF20();
    }
    else if key == IntlYen {
      RowIntlYen();
    }
    else if key == IntlRo {
      RowIntlRo();
    }
  }

  /** Every key with a row satisfies `RowFacts`. */
  lemma {:induction false} AllRows(key: Key)
    requires !Unmapped(key)
    ensures RowFacts(key)
  {
    if key == KeyA || key == KeyS || key == KeyD || key == KeyF || key == KeyH || key == KeyG {
      RowGroup0(key);
    }
    else if key == KeyZ || key == KeyX || key == KeyC || key == KeyV || key == KeyB || key == KeyQ {
      RowGroup1(key);
    }
    else if key == KeyW || key == KeyE || key == KeyR || key == KeyY || key == KeyT || key == Digit1 {
      RowGroup2(key);
    }
    else if key == Digit2 || key == Digit3 || key == Digit4 || key == Digit5 || key == Digit6 || key == Digit7 {
      RowGroup3(key);
    }
    else if key == Digit8 || key == Digit9 || key == Digit0 || key == Equal || key == Minus || key == BracketRight {
      RowGroup4(key);
    }
    else if key == BracketLeft || key == KeyO || key == KeyU || key == KeyI || key == KeyP || key == KeyL {
      RowGroup5(key);
    }
    else if key == KeyJ || key == KeyK || key == KeyN || key == KeyM || key == Quote || key == Semicolon {
      RowGroup6(key);
    }
    else if key == Backslash || key == Comma || key == Slash || key == Period || key == Backquote || key == IntlBackslash {
      RowGroup7(key);
    }
    else if key == Enter || key == Tab || key == Space || key == Backspace || key == Escape || key == MetaRight {
      RowGroup8(key);
    }
    else if key == MetaLeft || key == ShiftLeft || key == CapsLock || key == AltLeft || key == ControlLeft || key == ShiftRight {
      RowGroup9(key);
    }
    else if key == AltRight || key == ControlRight || key == Home || key == PageUp || key == Delete || key == End {
      RowGroup10(key);
    }
    else if key == PageDown || key == Insert || key == ArrowLeft || key == ArrowRight || key == ArrowDown || key == ArrowUp {
      RowGroup11(key);
    }
    else if key == NumpadDecimal || key == NumpadMultiply || key == NumpadAdd || key == NumLock || key == NumpadDivide || key == NumpadEnter {
      RowGroup12(key);
    }
    else if key == NumpadSubtract || key == Numpad0 || key == Numpad1 || key == Numpad2 || key == Numpad3 || key == Numpad4 {
      RowGroup13(key);
    }
    else if key == Numpad5 || key == Numpad6 || key == Numpad7 || key == Numpad8 || key == Numpad9 || key == F1 {
      RowGroup14(key);
    }
    else if key == F2 || key == F3 || key == F4 || key == F5 || key == F6 || key == F7 {
      RowGroup15(key);
    }
    else if key == F8 || key == F9 || key == F10 || key == F11 || key == F12 || key == F13 {
      RowGroup16(key);
    }
    else if key == F14 || key == F15 || key == F16 || key == F17 || key == F18 || key == F19 {
      RowGroup17(key);
    }
    else if key == F20 || key == IntlYen || key == IntlRo {
      RowGroup18(key);
    }
  }

  lemma {:induction false} NoRowGroup0(key: Key)
    requires key == ContextMenu || key == Convert || key == NonConvert || key == Help || key == F21 || key == F22
    ensures KeyToCode(key) == None
  {
    if key == ContextMenu {
      NoRowContextMenu();
    }
    else if key == Convert {
      NoRowConvert();
    }
    else if key == NonConvert {
      NoRowNonConvert();
    }
    else if key == Help {
      NoRowHelp();
    }
    else if key == F21 {
      NoRowF21();
    }
    else if key == F22 {
      NoRowF22();
    }
  }

  lemma {:induction false} NoRowGroup1(key: Key)
    requires key == F23 || key == F24 || key == PrintScreen || key == ScrollLock || key == Pause || key == Unidentified
    ensures KeyToCode(key) == None
  {
    if key == F23 {
      NoRowF23();
    }
    else if key == F24 {
      NoRowF24();
    }
    else if key == PrintScreen {
      NoRowPrintScreen();
    }
    else if key == ScrollLock {
      NoRowScrollLock();
    }
    else if key == Pause {
      NoRowPause();
    }
    else if key == Unidentified {
      NoRowUnidentified();
    }
  }

  /** No key without a row has a code. */
  lemma {:induction false} NoRows(key: Key)
    requires Unmapped(key)
    ensures KeyToCode(key) == None
  {
    if key == ContextMenu || key == Convert || key == NonConvert || key == Help || key == F21 || key == F22 {
      NoRowGroup0(key);
    } else {
      NoRowGroup1(key);
    }
  }

  /** Every key `code_to_key` recognises encodes back to the same code. */
  lemma {:induction false} CodeToKeyInverse(code: int)
    ensures CodeToKey(code) != DefaultKey ==> KeyToCode(CodeToKey(code)) == Some(code)
  {
    match code
    case 0x00 => RowKeyA();
    case 0x01 => RowKeyS();
    case 0x02 => RowKeyD();
    case 0x03 => RowKeyF();
    case 0x04 => RowKeyH();
    case 0x05 => RowKeyG();
    case 0x06 => RowKeyZ();
    case 0x07 => RowKeyX();
    case 0x08 => RowKeyC();
    case 0x09 => RowKeyV();
    case 0x0B => RowKeyB();
    case 0x0C => RowKeyQ();
    case 0x0D => RowKeyW();
    case 0x0E => RowKeyE();
    case 0x0F => RowKeyR();
    case 0x10 => RowKeyY();
    case 0x11 => RowKeyT();
    case 0x12 => RowDigit1();
    case 0x13 => RowDigit2();
    case 0x14 => RowDigit3();
    case 0x15 => RowDigit4();
    case 0x17 => RowDigit5();
    case 0x16 => RowDigit6();
    case 0x1A => RowDigit7();
    case 0x1C => RowDigit8();
    case 0x19 => RowDigit9();
    case 0x1D => RowDigit0();
    case 0x18 => RowEqual();
    case 0x1B => RowMinus();
    case 0x1E => RowBracketRight();
    case 0x21 => RowBracketLeft();
    case 0x1F => RowKeyO();
    case 0x20 => RowKeyU();
    case 0x22 => RowKeyI();
    case 0x23 => RowKeyP();
    case 0x25 => RowKeyL();
    case 0x26 => RowKeyJ();
    case 0x28 => RowKeyK();
    case 0x2D => RowKeyN();
    case 0x2E => RowKeyM();
    case 0x27 => RowQuote();
    case 0x29 => RowSemicolon();
    case 0x2A => RowBackslash();
    case 0x2B => RowComma();
    case 0x2C => RowSlash();
    case 0x2F => RowPeriod();
    case 0x32 => RowBackquote();
    case 0x0A => RowIntlBackslash();
    case 0x24 => RowEnter();
    case 0x30 => RowTab();
    case 0x31 => RowSpace();
    case 0x33 => RowBackspace();
    case 0x35 => RowEscape();
    case 0x36 => RowMetaRight();
    case 0x37 => RowMetaLeft();
    case 0x38 => RowShiftLeft();
    case 0x39 => RowCapsLock();
    case 0x3A => RowAltLeft();
    case 0x3B => RowControlLeft();
    case 0x3C => RowShiftRight();
    case 0x3D => RowAltRight();
    case 0x3E => RowControlRight();
    case 0x73 => RowHome();
    case 0x74 => RowPageUp();
    case 0x75 => RowDelete();
    case 0x77 => RowEnd();
    case 0x79 => RowPageDown();
    case 0x72 => RowInsert();
    case 0x7B => RowArrowLeft();
    case 0x7C => RowArrowRight();
    case 0x7D => RowArrowDown();
    case 0x7E => RowArrowUp();
    case 0x41 => RowNumpadDecimal();
    case 0x43 => RowNumpadMultiply();
    case 0x45 => RowNumpadAdd();
    case 0x47 => RowNumLock();
    case 0x4B => RowNumpadDivide();
    case 0x4C => RowNumpadEnter();
    case 0x4E => RowNumpadSubtract();
    case 0x52 => RowNumpad0();
    case 0x53 => RowNumpad1();
    case 0x54 => RowNumpad2();
    case 0x55 => RowNumpad3();
    case 0x56 => RowNumpad4();
    case 0x57 => RowNumpad5();
    case 0x58 => RowNumpad6();
    case 0x59 => RowNumpad7();
    case 0x5B => RowNumpad8();
    case 0x5C => RowNumpad9();
    case 0x7A => RowF1();
    case 0x78 => RowF2();
    case 0x63 => RowF3();
    case 0x76 => RowF4();
    case 0x60 => RowF5();
    case 0x61 => RowF6();
    case 0x62 => RowF7();
    case 0x64 => RowF8();
    case 0x65 => RowF9();
    case 0x6D => RowF10();
    case 0x67 => RowF11();
    case 0x6F => RowF12();
    case 0x69 => RowF13();
    case 0x6B => RowF14();
    case 0x71 => RowF15();
    case 0x6A => RowF16();
    case 0x40 => RowF17();
    case 0x4F => RowF18();
    case 0x50 => RowF19();
    case 0x5A => RowF20();
    case 0x5D => RowIntlYen();
    case 0x5E => RowIntlRo();
    case _ =>
  }

  /** `key_to_code` is defined exactly on the keys with a row. */
  lemma KeyToCodeDefinedExactly(key: Key)
    ensures KeyToCode(key).None? <==> Unmapped(key)
  {
    if Unmapped(key) {
      NoRows(key);
    } else {
      AllRows(key);
    }
  }

  /** Totality of `code_to_key`: a code that no row carries decodes to the default key. */
  lemma CodeToKeyUnlisted(code: int)
    requires forall key :: KeyToCode(key) != Some(code)
    ensures CodeToKey(code) == DefaultKey
  {
    CodeToKeyInverse(code);
  }

  /** Round trip: every mapped key decodes back from its own code, which lies in 0..0x7F. */
  lemma CodeRoundTrip(key: Key)
    requires KeyToCode(key).Some?
    ensures CodeToKey(KeyToCode(key).value) == key
    ensures 0 <= KeyToCode(key).value < 0x80
  {
    KeyToCodeDefinedExactly(key);
    AllRows(key);
  }

  /** The row for `Help` is commented out, so code 0x72 belongs to `Insert`. */
  lemma InsertOwnsHelpCode()
    ensures CodeToKey(0x72) == Insert && KeyToCode(Help) == None
  {
    RowInsert();
    NoRowHelp();
  }
}
