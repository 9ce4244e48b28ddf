/** The Windows key table: one row per key with its virtual-key code and its
    scan code (0xE0/0xE1 prefix in the high byte for extended keys).  Each
    lookup is a `match` whose arms follow the rows in order, so where two rows
    share a literal the earlier row wins. */
module WinKeycode {
  import opened Events

  /** `key_to_code`: the virtual-key column; keys without a row give `None`. */
  function KeyToCode(key: Key): (r: Option<int>)
    ensures r.Some? ==> 0 < r.value < 0x100
  {
    match key
    case KeyA => Some(65)
    case KeyB => Some(66)
    case KeyC => Some(67)
    case KeyD => Some(68)
    case KeyE => Some(69)
    case KeyF => Some(70)
    case KeyG => Some(71)
    case KeyH => Some(72)
    case KeyI => Some(73)
    case KeyJ => Some(74)
    case KeyK => Some(75)
    case KeyL => Some(76)
    case KeyM => Some(77)
    case KeyN => Some(78)
    case KeyO => Some(79)
    case KeyP => Some(80)
    case KeyQ => Some(81)
    case KeyR => Some(82)
    case KeyS => Some(83)
    case KeyT => Some(84)
    case KeyU => Some(85)
    case KeyV => Some(86)
    case KeyW => Some(87)
    case KeyX => Some(88)
    case KeyY => Some(89)
    case KeyZ => Some(90)
    case Digit1 => Some(49)
    case Digit2 => Some(50)
    case Digit3 => Some(51)
    case Digit4 => Some(52)
    case Digit5 => Some(53)
    case Digit6 => Some(54)
    case Digit7 => Some(55)
    case Digit8 => Some(56)
    case Digit9 => Some(57)
    case Digit0 => Some(48)
    case Backquote => Some(192)
    case Backslash => Some(220)
    case BracketLeft => Some(219)
    case BracketRight => Some(221)
    case Comma => Some(188)
    case Equal => Some(187)
    case Minus => Some(189)
    case Period => Some(190)
    case Quote => Some(222)
    case Semicolon => Some(186)
    case Slash => Some(191)
    case IntlBackslash => Some(226)
    case AltLeft => Some(164)
    case AltRight => Some(165)
    case Backspace => Some(0x08)
    case CapsLock => Some(20)
    case ContextMenu => Some(93)
    case ControlLeft => Some(162)
    case ControlRight => Some(163)
    case Enter => Some(13)
    case Escape => Some(27)
    case MetaLeft => Some(91)
    case MetaRight => Some(92)
    case ShiftLeft => Some(160)
    case ShiftRight => Some(161)
    case Space => Some(32)
    case Tab => Some(0x09)
    case Convert => Some(0x1C)
    case NonConvert => Some(0x1D)
    case Delete => Some(46)
    case End => Some(35)
    case Home => Some(36)
    case Insert => Some(45)
    case PageDown => Some(34)
    case PageUp => Some(33)
    case ArrowDown => Some(40)
    case ArrowLeft => Some(37)
    case ArrowRight => Some(39)
    case ArrowUp => Some(38)
    case NumLock => Some(144)
    case Numpad0 => Some(96)
    case Numpad1 => Some(97)
    case Numpad2 => Some(98)
    case Numpad3 => Some(99)
    case Numpad4 => Some(100)
    case Numpad5 => Some(101)
    case Numpad6 => Some(102)
    case Numpad7 => Some(103)
    case Numpad8 => Some(104)
    case Numpad9 => Some(105)
    case NumpadAdd => Some(107)
    case NumpadDecimal => Some(110)
    case NumpadDivide => Some(111)
    case NumpadEnter => Some(13)
    case NumpadMultiply => Some(106)
    case NumpadSubtract => Some(109)
    case F1 => Some(112)
    case F2 => Some(113)
    case F3 => Some(114)
    case F4 => Some(115)
    case F5 => Some(116)
    case F6 => Some(117)
    case F7 => Some(118)
    case F8 => Some(119)
    case F9 => Some(120)
    case F10 => Some(121)
    case F11 => Some(122)
    case F12 => Some(123)
    case F13 => Some(124)
    case F14 => Some(125)
    case F15 => Some(126)
    case F16 => Some(127)
    case F17 => Some(128)
    case F18 => Some(129)
    case F19 => Some(130)
    case F20 => Some(131)
    case F21 => Some(132)
    case F22 => Some(133)
    case F23 => Some(134)
    case F24 => Some(135)
    case PrintScreen => Some(44)
    case ScrollLock => Some(145)
    case Pause => Some(19)
    case IntlRo => Some(0x00E2)
    case IntlYen => Some(0x00DC)
    case _ => None
  }

  /** `code_to_key`: the first row whose virtual-key code matches, else the default key. */
  function CodeToKey(code: int): (k: Key)
    ensures k != Help
  {
    match code
    case 65 => KeyA
    case 66 => KeyB
    case 67 => KeyC
    case 68 => KeyD
    case 69 => KeyE
    case 70 => KeyF
    case 71 => KeyG
    case 72 => KeyH
    case 73 => KeyI
    case 74 => KeyJ
    case 75 => KeyK
    case 76 => KeyL
    case 77 => KeyM
    case 78 => KeyN
    case 79 => KeyO
    case 80 => KeyP
    case 81 => KeyQ
    case 82 => KeyR
    case 83 => KeyS
    case 84 => KeyT
    case 85 => KeyU
    case 86 => KeyV
    case 87 => KeyW
    case 88 => KeyX
    case 89 => KeyY
    case 90 => KeyZ
    case 49 => Digit1
    case 50 => Digit2
    case 51 => Digit3
    case 52 => Digit4
    case 53 => Digit5
    case 54 => Digit6
    case 55 => Digit7
    case 56 => Digit8
    case 57 => Digit9
    case 48 => Digit0
    case 192 => Backquote
    case 220 => Backslash
    case 219 => BracketLeft
    case 221 => BracketRight
    case 188 => Comma
    case 187 => Equal
    case 189 => Minus
    case 190 => Period
    case 222 => Quote
    case 186 => Semicolon
    case 191 => Slash
    case 226 => IntlBackslash
    case 164 => AltLeft
    case 165 => AltRight
    case 0x08 => Backspace
    case 20 => CapsLock
    case 93 => ContextMenu
    case 162 => ControlLeft
    case 163 => ControlRight
    case 13 => Enter
    case 27 => Escape
    case 91 => MetaLeft
    case 92 => MetaRight
    case 160 => ShiftLeft
    case 161 => ShiftRight
    case 32 => Space
    case 0x09 => Tab
    case 0x1C => Convert
    case 0x1D => NonConvert
    case 46 => Delete
    case 35 => End
    case 36 => Home
    case 45 => Insert
    case 34 => PageDown
    case 33 => PageUp
    case 40 => ArrowDown
    case 37 => ArrowLeft
    case 39 => ArrowRight
    case 38 => ArrowUp
    case 144 => NumLock
    case 96 => Numpad0
    case 97 => Numpad1
    case 98 => Numpad2
    case 99 => Numpad3
    case 100 => Numpad4
    case 101 => Numpad5
    case 102 => Numpad6
    case 103 => Numpad7
    case 104 => Numpad8
    case 105 => Numpad9
    case 107 => NumpadAdd
    case 110 => NumpadDecimal
    case 111 => NumpadDivide
    // row NumpadEnter, 13 is shadowed by the earlier row Enter
    case 106 => NumpadMultiply
    case 109 => NumpadSubtract
    case 112 => F1
    case 113 => F2
    case 114 => F3
    case 115 => F4
    case 116 => F5
    case 117 => F6
    case 118 => F7
    case 119 => F8
    case 120 => F9
    case 121 => F10
    case 122 => F11
    case 123 => F12
    case 124 => F13
    case 125 => F14
    case 126 => F15
    case 127 => F16
    case 128 => F17
    case 129 => F18
    case 130 => F19
    case 131 => F20
    case 132 => F21
    case 133 => F22
    case 134 => F23
    case 135 => F24
    case 44 => PrintScreen
    case 145 => ScrollLock
    case 19 => Pause
    // row IntlRo, 0x00E2 is shadowed by the earlier row IntlBackslash
    // row IntlYen, 0x00DC is shadowed by the earlier row Backslash
    case _ => DefaultKey
  }

  /** `key_to_scancode`: the scan-code column. */
  function KeyToScancode(key: Key): (r: Option<int>)
    ensures r.Some? ==> 0 < r.value <= 0xFFFF
  {
    match key
    case KeyA => Some(0x1E)
    case KeyB => Some(0x30)
    case KeyC => Some(0x2E)
    case KeyD => Some(0x20)
    case KeyE => Some(0x12)
    case KeyF => Some(0x21)
    case KeyG => Some(0x22)
    case KeyH => Some(0x23)
    case KeyI => Some(0x17)
    case KeyJ => Some(0x24)
    case KeyK => Some(0x25)
    case KeyL => Some(0x26)
    case KeyM => Some(0x32)
    case KeyN => Some(0x31)
    case KeyO => Some(0x18)
    case KeyP => Some(0x19)
    case KeyQ => Some(0x10)
    case KeyR => Some(0x13)
    case KeyS => Some(0x1F)
    case KeyT => Some(0x14)
    case KeyU => Some(0x16)
    case KeyV => Some(0x2F)
    case KeyW => Some(0x11)
    case KeyX => Some(0x2D)
    case KeyY => Some(0x15)
    case KeyZ => Some(0x2C)
    case Digit1 => Some(0x02)
    case Digit2 => Some(0x03)
    case Digit3 => Some(0x04)
    case Digit4 => Some(0x05)
    case Digit5 => Some(0x06)
    case Digit6 => Some(0x07)
    case Digit7 => Some(0x08)
    case Digit8 => Some(0x09)
    case Digit9 => Some(0x0A)
    case Digit0 => Some(0x0B)
    case Backquote => Some(0x29)
    case Backslash => Some(0x2B)
    case BracketLeft => Some(0x1A)
    case BracketRight => Some(0x1B)
    case Comma => Some(0x33)
    case Equal => Some(0x0D)
    case Minus => Some(0x0C)
    case Period => Some(0x34)
    case Quote => Some(0x28)
    case Semicolon => Some(0x27)
    case Slash => Some(0x35)
    case IntlBackslash => Some(0x56)
    case AltLeft => Some(0x38)
    case AltRight => Some(0xE038)
    case Backspace => Some(0x0E)
    case CapsLock => Some(0x3A)
    case ContextMenu => Some(0xE05D)
    case ControlLeft => Some(0x1D)
    case ControlRight => Some(0xE01D)
    case Enter => Some(0x1C)
    case Escape => Some(0x01)
    case MetaLeft => Some(0xE05B)
    case MetaRight => Some(0xE05C)
    case ShiftLeft => Some(0x2A)
    case ShiftRight => Some(0x36)
    case Space => Some(0x39)
    case Tab => Some(0x0F)
    case Convert => Some(0x79)
    case NonConvert => Some(0x7B)
    case Delete => Some(0xE053)
    case End => Some(0xE04F)
    case Home => Some(0xE047)
    case Insert => Some(0xE052)
    case PageDown => Some(0xE051)
    case PageUp => Some(0xE049)
    case ArrowDown => Some(0xE050)
    case ArrowLeft => Some(0xE04B)
    case ArrowRight => Some(0xE04D)
    case ArrowUp => Some(0xE048)
    case NumLock => Some(0x45)
    case Numpad0 => Some(0x52)
    case Numpad1 => Some(0x4F)
    case Numpad2 => Some(0x50)
    case Numpad3 => Some(0x51)
    case Numpad4 => Some(0x4B)
    case Numpad5 => Some(0x4C)
    case Numpad6 => Some(0x4D)
    case Numpad7 => Some(0x47)
    case Numpad8 => Some(0x48)
    case Numpad9 => Some(0x49)
    case NumpadAdd => Some(0x4E)
    case NumpadDecimal => Some(0x53)
    case NumpadDivide => Some(0xE035)
    case NumpadEnter => Some(0xE01C)
    case NumpadMultiply => Some(0x37)
    case NumpadSubtract => Some(0x4A)
    case F1 => Some(0x3B)
    case F2 => Some(0x3C)
    case F3 => Some(0x3D)
    case F4 => Some(0x3E)
    case F5 => Some(0x3F)
    case F6 => Some(0x40)
    case F7 => Some(0x41)
    case F8 => Some(0x42)
    case F9 => Some(0x43)
    case F10 => Some(0x44)
    case F11 => Some(0x57)
    case F12 => Some(0x58)
    case F13 => Some(0x64)
    case F14 => Some(0x65)
    case F15 => Some(0x66)
    case F16 => Some(0x67)
    case F17 => Some(0x68)
    case F18 => Some(0x69)
    case F19 => Some(0x6A)
    case F20 => Some(0x6B)
    case F21 => Some(0x6C)
    case F22 => Some(0x6D)
    case F23 => Some(0x6E)
    case F24 => Some(0x76)
    case PrintScreen => Some(0xE037)
    case ScrollLock => Some(0x46)
    case Pause => Some(0xE145)
    case IntlRo => Some(0x73)
    case IntlYen => Some(0x7D)
    case _ => None
  }

  /** `scancode_to_key`: 0 is the default key, otherwise the row whose scan code matches. */
  function ScancodeToKey(scancode: int): (k: Key)
    ensures scancode == 0 ==> k == DefaultKey
    ensures k != Help
  {
    match scancode
    case 0 => DefaultKey
    case 0x1E => KeyA
    case 0x30 => KeyB
    case 0x2E => KeyC
    case 0x20 => KeyD
    case 0x12 => KeyE
    case 0x21 => KeyF
    case 0x22 => KeyG
    case 0x23 => KeyH
    case 0x17 => KeyI
    case 0x24 => KeyJ
    case 0x25 => KeyK
    case 0x26 => KeyL
    case 0x32 => KeyM
    case 0x31 => KeyN
    case 0x18 => KeyO
    case 0x19 => KeyP
    case 0x10 => KeyQ
    case 0x13 => KeyR
    case 0x1F => KeyS
    case 0x14 => KeyT
    case 0x16 => KeyU
    case 0x2F => KeyV
    case 0x11 => KeyW
    case 0x2D => KeyX
    case 0x15 => KeyY
    case 0x2C => KeyZ
    case 0x02 => Digit1
    case 0x03 => Digit2
    case 0x04 => Digit3
    case 0x05 => Digit4
    case 0x06 => Digit5
    case 0x07 => Digit6
    case 0x08 => Digit7
    case 0x09 => Digit8
    case 0x0A => Digit9
    case 0x0B => Digit0
    case 0x29 => Backquote
    case 0x2B => Backslash
    case 0x1A => BracketLeft
    case 0x1B => BracketRight
    case 0x33 => Comma
    case 0x0D => Equal
    case 0x0C => Minus
    case 0x34 => Period
    case 0x28 => Quote
    case 0x27 => Semicolon
    case 0x35 => Slash
    case 0x56 => IntlBackslash
    case 0x38 => AltLeft
    case 0xE038 => AltRight
    case 0x0E => Backspace
    case 0x3A => CapsLock
    case 0xE05D => ContextMenu
    case 0x1D => ControlLeft
    case 0xE01D => ControlRight
    case 0x1C => Enter
    case 0x01 => Escape
    case 0xE05B => MetaLeft
    case 0xE05C => MetaRight
    case 0x2A => ShiftLeft
    case 0x36 => ShiftRight
    case 0x39 => Space
    case 0x0F => Tab
    case 0x79 => Convert
    case 0x7B => NonConvert
    case 0xE053 => Delete
    case 0xE04F => End
    case 0xE047 => Home
    case 0xE052 => Insert
    case 0xE051 => PageDown
    case 0xE049 => PageUp
    case 0xE050 => ArrowDown
    case 0xE04B => ArrowLeft
    case 0xE04D => ArrowRight
    case 0xE048 => ArrowUp
    case 0x45 => NumLock
    case 0x52 => Numpad0
    case 0x4F => Numpad1
    case 0x50 => Numpad2
    case 0x51 => Numpad3
    case 0x4B => Numpad4
    case 0x4C => Numpad5
    case 0x4D => Numpad6
    case 0x47 => Numpad7
    case 0x48 => Numpad8
    case 0x49 => Numpad9
    case 0x4E => NumpadAdd
    case 0x53 => NumpadDecimal
    case 0xE035 => NumpadDivide
    case 0xE01C => NumpadEnter
    case 0x37 => NumpadMultiply
    case 0x4A => NumpadSubtract
    case 0x3B => F1
    case 0x3C => F2
    case 0x3D => F3
    case 0x3E => F4
    case 0x3F => F5
    case 0x40 => F6
    case 0x41 => F7
    case 0x42 => F8
    case 0x43 => F9
    case 0x44 => F10
    case 0x57 => F11
    case 0x58 => F12
    case 0x64 => F13
    case 0x65 => F14
    case 0x66 => F15
    case 0x67 => F16
    case 0x68 => F17
    case 0x69 => F18
    case 0x6A => F19
    case 0x6B => F20
    case 0x6C => F21
    case 0x6D => F22
    case 0x6E => F23
    case 0x76 => F24
    case 0xE037 => PrintScreen
    case 0x46 => ScrollLock
    case 0xE145 => Pause
    case 0x73 => IntlRo
    case 0x7D => IntlYen
    case _ => DefaultKey
  }

  /** The key that `code_to_key` returns for this key's own virtual-key code:
      the key itself, except for the three rows whose code an earlier row owns. */
  function CodeOwner(key: Key): Key {
    if key == NumpadEnter then Enter
    else if key == IntlYen then Backslash
    else if key == IntlRo then IntlBackslash
    else key
  }

  /** What a row of the table guarantees: both codes are present, the scan
      code is non-zero and reads back as the key, and the virtual-key code
      reads back as the key or as the earlier row that owns the code. */
  predicate RowFacts(key: Key) {
    KeyToCode(key).Some? && KeyToScancode(key).Some? &&
    CodeToKey(KeyToCode(key).value) == CodeOwner(key) &&
    0 < KeyToScancode(key).value <= 0xFFFF &&
    ScancodeToKey(KeyToScancode(key).value) == key
  }

  /** A virtual-key code that `code_to_key` recognises encodes back to itself. */
  predicate CodeFacts(code: int) {
    CodeToKey(code) != DefaultKey ==> KeyToCode(CodeToKey(code)) == Some(code)
  }

  // One lemma per row and column: the row as the lookups see it.

  lemma VkKeyA() ensures KeyToCode(KeyA) == Some(65) && CodeToKey(65) == KeyA {}
  lemma ScanKeyA() ensures KeyToScancode(KeyA) == Some(0x1E) && ScancodeToKey(0x1E) == KeyA {}
  lemma RowKeyA() ensures RowFacts(KeyA) { VkKeyA(); ScanKeyA(); }

  lemma VkKeyB() ensures KeyToCode(KeyB) == Some(66) && CodeToKey(66) == KeyB {}
  lemma ScanKeyB() ensures KeyToScancode(KeyB) == Some(0x30) && ScancodeToKey(0x30) == KeyB {}
  lemma RowKeyB() ensures RowFacts(KeyB) { VkKeyB(); ScanKeyB(); }

  lemma VkKeyC() ensures KeyToCode(KeyC) == Some(67) && CodeToKey(67) == KeyC {}
  lemma ScanKeyC() ensures KeyToScancode(KeyC) == Some(0x2E) && ScancodeToKey(0x2E) == KeyC {}
  lemma RowKeyC() ensures RowFacts(KeyC) { VkKeyC(); ScanKeyC(); }

  lemma VkKeyD() ensures KeyToCode(KeyD) == Some(68) && CodeToKey(68) == KeyD {}
  lemma ScanKeyD() ensures KeyToScancode(KeyD) == Some(0x20) && ScancodeToKey(0x20) == KeyD {}
  lemma RowKeyD() ensures RowFacts(KeyD) { VkKeyD(); ScanKeyD(); }

  lemma VkKeyE() ensures KeyToCode(KeyE) == Some(69) && CodeToKey(69) == KeyE {}
  lemma ScanKeyE() ensures KeyToScancode(KeyE) == Some(0x12) && ScancodeToKey(0x12) == KeyE {}
  lemma RowKeyE() ensures RowFacts(KeyE) { VkKeyE(); ScanKeyE(); }

  lemma VkKeyF() ensures KeyToCode(KeyF) == Some(70) && CodeToKey(70) == KeyF {}
  lemma ScanKeyF() ensures KeyToScancode(KeyF) == Some(0x21) && ScancodeToKey(0x21) == KeyF {}
  lemma RowKeyF() ensures RowFacts(KeyF) { VkKeyF(); ScanKeyF(); }

  lemma VkKeyG() ensures KeyToCode(KeyG) == Some(71) && CodeToKey(71) == KeyG {}
  lemma ScanKeyG() ensures KeyToScancode(KeyG) == Some(0x22) && ScancodeToKey(0x22) == KeyG {}
  lemma RowKeyG() ensures RowFacts(KeyG) { VkKeyG(); ScanKeyG(); }

  lemma VkKeyH() ensures KeyToCode(KeyH) == Some(72) && CodeToKey(72) == KeyH {}
  lemma ScanKeyH() ensures KeyToScancode(KeyH) == Some(0x23) && ScancodeToKey(0x23) == KeyH {}
  lemma RowKeyH() ensures RowFacts(KeyH) { VkKeyH(); ScanKeyH(); }

  lemma VkKeyI() ensures KeyToCode(KeyI) == Some(73) && CodeToKey(73) == KeyI {}
  lemma ScanKeyI() ensures KeyToScancode(KeyI) == Some(0x17) && ScancodeToKey(0x17) == KeyI {}
  lemma RowKeyI() ensures RowFacts(KeyI) { VkKeyI(); ScanKeyI(); }

  lemma VkKeyJ() ensures KeyToCode(KeyJ) == Some(74) && CodeToKey(74) == KeyJ {}
  lemma ScanKeyJ() ensures KeyToScancode(KeyJ) == Some(0x24) && ScancodeToKey(0x24) == KeyJ {}
  lemma RowKeyJ() ensures RowFacts(KeyJ) { VkKeyJ(); ScanKeyJ(); }

  lemma VkKeyK() ensures KeyToCode(KeyK) == Some(75) && CodeToKey(75) == KeyK {}
  lemma ScanKeyK() ensures KeyToScancode(KeyK) == Some(0x25) && ScancodeToKey(0x25) == KeyK {}
  lemma RowKeyK() ensures RowFacts(KeyK) { VkKeyK(); ScanKeyK(); }

  lemma VkKeyL() ensures KeyToCode(KeyL) == Some(76) && CodeToKey(76) == KeyL {}
  lemma ScanKeyL() ensures KeyToScancode(KeyL) == Some(0x26) && ScancodeToKey(0x26) == KeyL {}
  lemma RowKeyL() ensures RowFacts(KeyL) { VkKeyL(); ScanKeyL(); }

  lemma VkKeyM() ensures KeyToCode(KeyM) == Some(77) && CodeToKey(77) == KeyM {}
  lemma ScanKeyM() ensures KeyToScancode(KeyM) == Some(0x32) && ScancodeToKey(0x32) == KeyM {}
  lemma RowKeyM() ensures RowFacts(KeyM) { VkKeyM(); ScanKeyM(); }

  lemma VkKeyN() ensures KeyToCode(KeyN) == Some(78) && CodeToKey(78) == KeyN {}
  lemma ScanKeyN() ensures KeyToScancode(KeyN) == Some(0x31) && ScancodeToKey(0x31) == KeyN {}
  lemma RowKeyN() ensures RowFacts(KeyN) { VkKeyN(); ScanKeyN(); }

  lemma VkKeyO() ensures KeyToCode(KeyO) == Some(79) && CodeToKey(79) == KeyO {}
  lemma ScanKeyO() ensures KeyToScancode(KeyO) == Some(0x18) && ScancodeToKey(0x18) == KeyO {}
  lemma RowKeyO() ensures RowFacts(KeyO) { VkKeyO(); ScanKeyO(); }

  lemma VkKeyP() ensures KeyToCode(KeyP) == Some(80) && CodeToKey(80) == KeyP {}
  lemma ScanKeyP() ensures KeyToScancode(KeyP) == Some(0x19) && ScancodeToKey(0x19) == KeyP {}
  lemma RowKeyP() ensures RowFacts(KeyP) { VkKeyP(); ScanKeyP(); }

  lemma VkKeyQ() ensures KeyToCode(KeyQ) == Some(81) && CodeToKey(81) == KeyQ {}
  lemma ScanKeyQ() ensures KeyToScancode(KeyQ) == Some(0x10) && ScancodeToKey(0x10) == KeyQ {}
  lemma RowKeyQ() ensures RowFacts(KeyQ) { VkKeyQ(); ScanKeyQ(); }

  lemma VkKeyR() ensures KeyToCode(KeyR) == Some(82) && CodeToKey(82) == KeyR {}
  lemma ScanKeyR() ensures KeyToScancode(KeyR) == Some(0x13) && ScancodeToKey(0x13) == KeyR {}
  lemma RowKeyR() ensures RowFacts(KeyR) { VkKeyR(); ScanKeyR(); }

  lemma VkKeyS() ensures KeyToCode(KeyS) == Some(83) && CodeToKey(83) == KeyS {}
  lemma ScanKeyS() ensures KeyToScancode(KeyS) == Some(0x1F) && ScancodeToKey(0x1F) == KeyS {}
  lemma RowKeyS() ensures RowFacts(KeyS) { VkKeyS(); ScanKeyS(); }

  lemma VkKeyT() ensures KeyToCode(KeyT) == Some(84) && CodeToKey(84) == KeyT {}
  lemma ScanKeyT() ensures KeyToScancode(KeyT) == Some(0x14) && ScancodeToKey(0x14) == KeyT {}
  lemma RowKeyT() ensures RowFacts(KeyT) { VkKeyT(); ScanKeyT(); }

  lemma VkKeyU() ensures KeyToCode(KeyU) == Some(85) && CodeToKey(85) == KeyU {}
  lemma ScanKeyU() ensures KeyToScancode(KeyU) == Some(0x16) && ScancodeToKey(0x16) == KeyU {}
  lemma RowKeyU() ensures RowFacts(KeyU) { VkKeyU(); ScanKeyU(); }

  lemma VkKeyV() ensures KeyToCode(KeyV) == Some(86) && CodeToKey(86) == KeyV {}
  lemma ScanKeyV() ensures KeyToScancode(KeyV) == Some(0x2F) && ScancodeToKey(0x2F) == KeyV {}
  lemma RowKeyV() ensures RowFacts(KeyV) { VkKeyV(); ScanKeyV(); }

  lemma VkKeyW() ensures KeyToCode(KeyW) == Some(87) && CodeToKey(87) == KeyW {}
  lemma ScanKeyW() ensures KeyToScancode(KeyW) == Some(0x11) && ScancodeToKey(0x11) == KeyW {}
  lemma RowKeyW() ensures RowFacts(KeyW) { VkKeyW(); ScanKeyW(); }

  lemma VkKeyX() ensures KeyToCode(KeyX) == Some(88) && CodeToKey(88) == KeyX {}
  lemma ScanKeyX() ensures KeyToScancode(KeyX) == Some(0x2D) && ScancodeToKey(0x2D) == KeyX {}
  lemma RowKeyX() ensures RowFacts(KeyX) { VkKeyX(); ScanKeyX(); }

  lemma VkKeyY() ensures KeyToCode(KeyY) == Some(89) && CodeToKey(89) == KeyY {}
  lemma ScanKeyY() ensures KeyToScancode(KeyY) == Some(0x15) && ScancodeToKey(0x15) == KeyY {}
  lemma RowKeyY() ensures RowFacts(KeyY) { VkKeyY(); ScanKeyY(); }

  lemma VkKeyZ() ensures KeyToCode(KeyZ) == Some(90) && CodeToKey(90) == KeyZ {}
  lemma ScanKeyZ() ensures KeyToScancode(KeyZ) == Some(0x2C) && ScancodeToKey(0x2C) == KeyZ {}
  lemma RowKeyZ() ensures RowFacts(KeyZ) { VkKeyZ(); ScanKeyZ(); }

  lemma VkDigit1() ensures KeyToCode(Digit1) == Some(49) && CodeToKey(49) == Digit1 {}
  lemma ScanDigit1() ensures KeyToScancode(Digit1) == Some(0x02) && ScancodeToKey(0x02) == Digit1 {}
  lemma RowDigit1() ensures RowFacts(Digit1) { VkDigit1(); ScanDigit1(); }

  lemma VkDigit2() ensures KeyToCode(Digit2) == Some(50) && CodeToKey(50) == Digit2 {}
  lemma ScanDigit2() ensures KeyToScancode(Digit2) == Some(0x03) && ScancodeToKey(0x03) == Digit2 {}
  lemma RowDigit2() ensures RowFacts(Digit2) { VkDigit2(); ScanDigit2(); }

  lemma VkDigit3() ensures KeyToCode(Digit3) == Some(51) && CodeToKey(51) == Digit3 {}
  lemma ScanDigit3() ensures KeyToScancode(Digit3) == Some(0x04) && ScancodeToKey(0x04) == Digit3 {}
  lemma RowDigit3() ensures RowFacts(Digit3) { VkDigit3(); ScanDigit3(); }

  lemma VkDigit4() ensures KeyToCode(Digit4) == Some(52) && CodeToKey(52) == Digit4 {}
  lemma ScanDigit4() ensures KeyToScancode(Digit4) == Some(0x05) && ScancodeToKey(0x05) == Digit4 {}
  lemma RowDigit4() ensures RowFacts(Digit4) { VkDigit4(); ScanDigit4(); }

  lemma VkDigit5() ensures KeyToCode(Digit5) == Some(53) && CodeToKey(53) == Digit5 {}
  lemma ScanDigit5() ensures KeyToScancode(Digit5) == Some(0x06) && ScancodeToKey(0x06) == Digit5 {}
  lemma RowDigit5() ensures RowFacts(Digit5) { VkDigit5(); ScanDigit5(); }

  lemma VkDigit6() ensures KeyToCode(Digit6) == Some(54) && CodeToKey(54) == Digit6 {}
  lemma ScanDigit6() ensures KeyToScancode(Digit6) == Some(0x07) && ScancodeToKey(0x07) == Digit6 {}
  lemma RowDigit6() ensures RowFacts(Digit6) { VkDigit6(); ScanDigit6(); }

  lemma VkDigit7() ensures KeyToCode(Digit7) == Some(55) && CodeToKey(55) == Digit7 {}
  lemma ScanDigit7() ensures KeyToScancode(Digit7) == Some(0x08) && ScancodeToKey(0x08) == Digit7 {}
  lemma RowDigit7() ensures RowFacts(Digit7) { VkDigit7(); ScanDigit7(); }

  lemma VkDigit8() ensures KeyToCode(Digit8) == Some(56) && CodeToKey(56) == Digit8 {}
  lemma ScanDigit8() ensures KeyToScancode(Digit8) == Some(0x09) && ScancodeToKey(0x09) == Digit8 {}
  lemma RowDigit8() ensures RowFacts(Digit8) { VkDigit8(); ScanDigit8(); }

  lemma VkDigit9() ensures KeyToCode(Digit9) == Some(57) && CodeToKey(57) == Digit9 {}
  lemma ScanDigit9() ensures KeyToScancode(Digit9) == Some(0x0A) && ScancodeToKey(0x0A) == Digit9 {}
  lemma RowDigit9() ensures RowFacts(Digit9) { VkDigit9(); ScanDigit9(); }

  lemma VkDigit0() ensures KeyToCode(Digit0) == Some(48) && CodeToKey(48) == Digit0 {}
  lemma ScanDigit0() ensures KeyToScancode(Digit0) == Some(0x0B) && ScancodeToKey(0x0B) == Digit0 {}
  lemma RowDigit0() ensures RowFacts(Digit0) { VkDigit0(); ScanDigit0(); }

  lemma VkBackquote() ensures KeyToCode(Backquote) == Some(192) && CodeToKey(192) == Backquote {}
  lemma ScanBackquote() ensures KeyToScancode(Backquote) == Some(0x29) && ScancodeToKey(0x29) == Backquote {}
  lemma RowBackquote() ensures RowFacts(Backquote) { VkBackquote(); ScanBackquote(); }

  lemma VkBackslash() ensures KeyToCode(Backslash) == Some(220) && CodeToKey(220) == Backslash {}
  lemma ScanBackslash() ensures KeyToScancode(Backslash) == Some(0x2B) && ScancodeToKey(0x2B) == Backslash {}
  lemma RowBackslash() ensures RowFacts(Backslash) { VkBackslash(); ScanBackslash(); }

  lemma VkBracketLeft() ensures KeyToCode(BracketLeft) == Some(219) && CodeToKey(219) == BracketLeft {}
  lemma ScanBracketLeft() ensures KeyToScancode(BracketLeft) == Some(0x1A) && ScancodeToKey(0x1A) == BracketLeft {}
  lemma RowBracketLeft() ensures RowFacts(BracketLeft) { VkBracketLeft(); ScanBracketLeft(); }

  lemma VkBracketRight() ensures KeyToCode(BracketRight) == Some(221) && CodeToKey(221) == BracketRight {}
  lemma ScanBracketRight() ensures KeyToScancode(BracketRight) == Some(0x1B) && ScancodeToKey(0x1B) == BracketRight {}
  lemma RowBracketRight() ensures RowFacts(BracketRight) { VkBracketRight(); ScanBracketRight(); }

  lemma VkComma() ensures KeyToCode(Comma) == Some(188) && CodeToKey(188) == Comma {}
  lemma ScanComma() ensures KeyToScancode(Comma) == Some(0x33) && ScancodeToKey(0x33) == Comma {}
  lemma RowComma() ensures RowFacts(Comma) { VkComma(); ScanComma(); }

  lemma VkEqual() ensures KeyToCode(Equal) == Some(187) && CodeToKey(187) == Equal {}
  lemma ScanEqual() ensures KeyToScancode(Equal) == Some(0x0D) && ScancodeToKey(0x0D) == Equal {}
  lemma RowEqual() ensures RowFacts(Equal) { VkEqual(); ScanEqual(); }

  lemma VkMinus() ensures KeyToCode(Minus) == Some(189) && CodeToKey(189) == Minus {}
  lemma ScanMinus() ensures KeyToScancode(Minus) == Some(0x0C) && ScancodeToKey(0x0C) == Minus {}
  lemma RowMinus() ensures RowFacts(Minus) { VkMinus(); ScanMinus(); }

  lemma VkPeriod() ensures KeyToCode(Period) == Some(190) && CodeToKey(190) == Period {}
  lemma ScanPeriod() ensures KeyToScancode(Period) == Some(0x34) && ScancodeToKey(0x34) == Period {}
  lemma RowPeriod() ensures RowFacts(Period) { VkPeriod(); ScanPeriod(); }

  lemma VkQuote() ensures KeyToCode(Quote) == Some(222) && CodeToKey(222) == Quote {}
  lemma ScanQuote() ensures KeyToScancode(Quote) == Some(0x28) && ScancodeToKey(0x28) == Quote {}
  lemma RowQuote() ensures RowFacts(Quote) { VkQuote(); ScanQuote(); }

  lemma VkSemicolon() ensures KeyToCode(Semicolon) == Some(186) && CodeToKey(186) == Semicolon {}
  lemma ScanSemicolon() ensures KeyToScancode(Semicolon) == Some(0x27) && ScancodeToKey(0x27) == Semicolon {}
  lemma RowSemicolon() ensures RowFacts(Semicolon) { VkSemicolon(); ScanSemicolon(); }

  lemma VkSlash() ensures KeyToCode(Slash) == Some(191) && CodeToKey(191) == Slash {}
  lemma ScanSlash() ensures KeyToScancode(Slash) == Some(0x35) && ScancodeToKey(0x35) == Slash {}
  lemma RowSlash() ensures RowFacts(Slash) { VkSlash(); ScanSlash(); }

  lemma VkIntlBackslash() ensures KeyToCode(IntlBackslash) == Some(226) && CodeToKey(226) == IntlBackslash {}
  lemma ScanIntlBackslash() ensures KeyToScancode(IntlBackslash) == Some(0x56) && ScancodeToKey(0x56) == IntlBackslash {}
  lemma RowIntlBackslash() ensures RowFacts(IntlBackslash) { VkIntlBackslash(); ScanIntlBackslash(); }

  lemma VkAltLeft() ensures KeyToCode(AltLeft) == Some(164) && CodeToKey(164) == AltLeft {}
  lemma ScanAltLeft() ensures KeyToScancode(AltLeft) == Some(0x38) && ScancodeToKey(0x38) == AltLeft {}
  lemma RowAltLeft() ensures RowFacts(AltLeft) { VkAltLeft(); ScanAltLeft(); }

  lemma VkAltRight() ensures KeyToCode(AltRight) == Some(165) && CodeToKey(165) == AltRight {}
  lemma ScanAltRight() ensures KeyToScancode(AltRight) == Some(0xE038) && ScancodeToKey(0xE038) == AltRight {}
  lemma RowAltRight() ensures RowFacts(AltRight) { VkAltRight(); ScanAltRight(); }

  lemma VkBackspace() ensures KeyToCode(Backspace) == Some(0x08) && CodeToKey(0x08) == Backspace {}
  lemma ScanBackspace() ensures KeyToScancode(Backspace) == Some(0x0E) && ScancodeToKey(0x0E) == Backspace {}
  lemma RowBackspace() ensures RowFacts(Backspace) { VkBackspace(); ScanBackspace(); }

  lemma VkCapsLock() ensures KeyToCode(CapsLock) == Some(20) && CodeToKey(20) == CapsLock {}
  lemma ScanCapsLock() ensures KeyToScancode(CapsLock) == Some(0x3A) && ScancodeToKey(0x3A) == CapsLock {}
  lemma RowCapsLock() ensures RowFacts(CapsLock) { VkCapsLock(); ScanCapsLock(); }

  lemma VkContextMenu() ensures KeyToCode(ContextMenu) == Some(93) && CodeToKey(93) == ContextMenu {}
  lemma ScanContextMenu() ensures KeyToScancode(ContextMenu) == Some(0xE05D) && ScancodeToKey(0xE05D) == ContextMenu {}
  lemma RowContextMenu() ensures RowFacts(ContextMenu) { VkContextMenu(); ScanContextMenu(); }

  lemma VkControlLeft() ensures KeyToCode(ControlLeft) == Some(162) && CodeToKey(162) == ControlLeft {}
  lemma ScanControlLeft() ensures KeyToScancode(ControlLeft) == Some(0x1D) && ScancodeToKey(0x1D) == ControlLeft {}
  lemma RowControlLeft() ensures RowFacts(ControlLeft) { VkControlLeft(); ScanControlLeft(); }

  lemma VkControlRight() ensures KeyToCode(ControlRight) == Some(163) && CodeToKey(163) == ControlRight {}
  lemma ScanControlRight() ensures KeyToScancode(ControlRight) == Some(0xE01D) && ScancodeToKey(0xE01D) == ControlRight {}
  lemma RowControlRight() ensures RowFacts(ControlRight) { VkControlRight(); ScanControlRight(); }

  lemma VkEnter() ensures KeyToCode(Enter) == Some(13) && CodeToKey(13) == Enter {}
  lemma ScanEnter() ensures KeyToScancode(Enter) == Some(0x1C) && ScancodeToKey(0x1C) == Enter {}
  lemma RowEnter() ensures RowFacts(Enter) { VkEnter(); ScanEnter(); }

  lemma VkEscape() ensures KeyToCode(Escape) == Some(27) && CodeToKey(27) == Escape {}
  lemma ScanEscape() ensures KeyToScancode(Escape) == Some(0x01) && ScancodeToKey(0x01) == Escape {}
  lemma RowEscape() ensures RowFacts(Escape) { VkEscape(); ScanEscape(); }

  lemma VkMetaLeft() ensures KeyToCode(MetaLeft) == Some(91) && CodeToKey(91) == MetaLeft {}
  lemma ScanMetaLeft() ensures KeyToScancode(MetaLeft) == Some(0xE05B) && ScancodeToKey(0xE05B) == MetaLeft {}
  lemma RowMetaLeft() ensures RowFacts(MetaLeft) { VkMetaLeft(); ScanMetaLeft(); }

  lemma VkMetaRight() ensures KeyToCode(MetaRight) == Some(92) && CodeToKey(92) == MetaRight {}
  lemma ScanMetaRight() ensures KeyToScancode(MetaRight) == Some(0xE05C) && ScancodeToKey(0xE05C) == MetaRight {}
  lemma RowMetaRight() ensures RowFacts(MetaRight) { VkMetaRight(); ScanMetaRight(); }

  lemma VkShiftLeft() ensures KeyToCode(ShiftLeft) == Some(160) && CodeToKey(160) == ShiftLeft {}
  lemma ScanShiftLeft() ensures KeyToScancode(ShiftLeft) == Some(0x2A) && ScancodeToKey(0x2A) == ShiftLeft {}
  lemma RowShiftLeft() ensures RowFacts(ShiftLeft) { VkShiftLeft(); ScanShiftLeft(); }

  lemma VkShiftRight() ensures KeyToCode(ShiftRight) == Some(161) && CodeToKey(161) == ShiftRight {}
  lemma ScanShiftRight() ensures KeyToScancode(ShiftRight) == Some(0x36) && ScancodeToKey(0x36) == ShiftRight {}
  lemma RowShiftRight() ensures RowFacts(ShiftRight) { VkShiftRight(); ScanShiftRight(); }

  lemma VkSpace() ensures KeyToCode(Space) == Some(32) && CodeToKey(32) == Space {}
  lemma ScanSpace() ensures KeyToScancode(Space) == Some(0x39) && ScancodeToKey(0x39) == Space {}
  lemma RowSpace() ensures RowFacts(Space) { VkSpace(); ScanSpace(); }

  lemma VkTab() ensures KeyToCode(Tab) == Some(0x09) && CodeToKey(0x09) == Tab {}
  lemma ScanTab() ensures KeyToScancode(Tab) == Some(0x0F) && ScancodeToKey(0x0F) == Tab {}
  lemma RowTab() ensures RowFacts(Tab) { VkTab(); ScanTab(); }

  lemma VkConvert() ensures KeyToCode(Convert) == Some(0x1C) && CodeToKey(0x1C) == Convert {}
  lemma ScanConvert() ensures KeyToScancode(Convert) == Some(0x79) && ScancodeToKey(0x79) == Convert {}
  lemma RowConvert() ensures RowFacts(Convert) { VkConvert(); ScanConvert(); }

  lemma VkNonConvert() ensures KeyToCode(NonConvert) == Some(0x1D) && CodeToKey(0x1D) == NonConvert {}
  lemma ScanNonConvert() ensures KeyToScancode(NonConvert) == Some(0x7B) && ScancodeToKey(0x7B) == NonConvert {}
  lemma RowNonConvert() ensures RowFacts(NonConvert) { VkNonConvert(); ScanNonConvert(); }

  lemma VkDelete() ensures KeyToCode(Delete) == Some(46) && CodeToKey(46) == Delete {}
  lemma ScanDelete() ensures KeyToScancode(Delete) == Some(0xE053) && ScancodeToKey(0xE053) == Delete {}
  lemma RowDelete() ensures RowFacts(Delete) { VkDelete(); ScanDelete(); }

  lemma VkEnd() ensures KeyToCode(End) == Some(35) && CodeToKey(35) == End {}
  lemma ScanEnd() ensures KeyToScancode(End) == Some(0xE04F) && ScancodeToKey(0xE04F) == End {}
  lemma RowEnd() ensures RowFacts(End) { VkEnd(); ScanEnd(); }

  lemma VkHome() ensures KeyToCode(Home) == Some(36) && CodeToKey(36) == Home {}
  lemma ScanHome() ensures KeyToScancode(Home) == Some(0xE047) && ScancodeToKey(0xE047) == Home {}
  lemma RowHome() ensures RowFacts(Home) { VkHome(); ScanHome(); }

  lemma VkInsert() ensures KeyToCode(Insert) == Some(45) && CodeToKey(45) == Insert {}
  lemma ScanInsert() ensures KeyToScancode(Insert) == Some(0xE052) && ScancodeToKey(0xE052) == Insert {}
  lemma RowInsert() ensures RowFacts(Insert) { VkInsert(); ScanInsert(); }

  lemma VkPageDown() ensures KeyToCode(PageDown) == Some(34) && CodeToKey(34) == PageDown {}
  lemma ScanPageDown() ensures KeyToScancode(PageDown) == Some(0xE051) && ScancodeToKey(0xE051) == PageDown {}
  lemma RowPageDown() ensures RowFacts(PageDown) { VkPageDown(); ScanPageDown(); }

  lemma VkPageUp() ensures KeyToCode(PageUp) == Some(33) && CodeToKey(33) == PageUp {}
  lemma ScanPageUp() ensures KeyToScancode(PageUp) == Some(0xE049) && ScancodeToKey(0xE049) == PageUp {}
  lemma RowPageUp() ensures RowFacts(PageUp) { VkPageUp(); ScanPageUp(); }

  lemma VkArrowDown() ensures KeyToCode(ArrowDown) == Some(40) && CodeToKey(40) == ArrowDown {}
  lemma ScanArrowDown() ensures KeyToScancode(ArrowDown) == Some(0xE050) && ScancodeToKey(0xE050) == ArrowDown {}
  lemma RowArrowDown() ensures RowFacts(ArrowDown) { VkArrowDown(); ScanArrowDown(); }

  lemma VkArrowLeft() ensures KeyToCode(ArrowLeft) == Some(37) && CodeToKey(37) == ArrowLeft {}
  lemma ScanArrowLeft() ensures KeyToScancode(ArrowLeft) == Some(0xE04B) && ScancodeToKey(0xE04B) == ArrowLeft {}
  lemma RowArrowLeft() ensures RowFacts(ArrowLeft) { VkArrowLeft(); ScanArrowLeft(); }

  lemma VkArrowRight() ensures KeyToCode(ArrowRight) == Some(39) && CodeToKey(39) == ArrowRight {}
  lemma ScanArrowRight() ensures KeyToScancode(ArrowRight) == Some(0xE04D) && ScancodeToKey(0xE04D) == ArrowRight {}
  lemma RowArrowRight() ensures RowFacts(ArrowRight) { VkArrowRight(); ScanArrowRight(); }

  lemma VkArrowUp() ensures KeyToCode(ArrowUp) == Some(38) && CodeToKey(38) == ArrowUp {}
  lemma ScanArrowUp() ensures KeyToScancode(ArrowUp) == Some(0xE048) && ScancodeToKey(0xE048) == ArrowUp {}
  lemma RowArrowUp() ensures RowFacts(ArrowUp) { VkArrowUp(); ScanArrowUp(); }

  lemma VkNumLock() ensures KeyToCode(NumLock) == Some(144) && CodeToKey(144) == NumLock {}
  lemma ScanNumLock() ensures KeyToScancode(NumLock) == Some(0x45) && ScancodeToKey(0x45) == NumLock {}
  lemma RowNumLock() ensures RowFacts(NumLock) { VkNumLock(); ScanNumLock(); }

  lemma VkNumpad0() ensures KeyToCode(Numpad0) == Some(96) && CodeToKey(96) == Numpad0 {}
  lemma ScanNumpad0() ensures KeyToScancode(Numpad0) == Some(0x52) && ScancodeToKey(0x52) == Numpad0 {}
  lemma RowNumpad0() ensures RowFacts(Numpad0) { VkNumpad0(); ScanNumpad0(); }

  lemma VkNumpad1() ensures KeyToCode(Numpad1) == Some(97) && CodeToKey(97) == Numpad1 {}
  lemma ScanNumpad1() ensures KeyToScancode(Numpad1) == Some(0x4F) && ScancodeToKey(0x4F) == Numpad1 {}
  lemma RowNumpad1() ensures RowFacts(Numpad1) { VkNumpad1(); ScanNumpad1(); }

  lemma VkNumpad2() ensures KeyToCode(Numpad2) == Some(98) && CodeToKey(98) == Numpad2 {}
  lemma ScanNumpad2() ensures KeyToScancode(Numpad2) == Some(0x50) && ScancodeToKey(0x50) == Numpad2 {}
  lemma RowNumpad2() ensures RowFacts(Numpad2) { VkNumpad2(); ScanNumpad2(); }

  lemma VkNumpad3() ensures KeyToCode(Numpad3) == Some(99) && CodeToKey(99) == Numpad3 {}
  lemma ScanNumpad3() ensures KeyToScancode(Numpad3) == Some(0x51) && ScancodeToKey(0x51) == Numpad3 {}
  lemma RowNumpad3() ensures RowFacts(Numpad3) { VkNumpad3(); ScanNumpad3(); }

  lemma VkNumpad4() ensures KeyToCode(Numpad4) == Some(100) && CodeToKey(100) == Numpad4 {}
  lemma ScanNumpad4() ensures KeyToScancode(Numpad4) == Some(0x4B) && ScancodeToKey(0x4B) == Numpad4 {}
  lemma RowNumpad4() ensures RowFacts(Numpad4) { VkNumpad4(); ScanNumpad4(); }

  lemma VkNumpad5() ensures KeyToCode(Numpad5) == Some(101) && CodeToKey(101) == Numpad5 {}
  lemma ScanNumpad5() ensures KeyToScancode(Numpad5) == Some(0x4C) && ScancodeToKey(0x4C) == Numpad5 {}
  lemma RowNumpad5() ensures RowFacts(Numpad5) { VkNumpad5(); ScanNumpad5(); }

  lemma VkNumpad6() ensures KeyToCode(Numpad6) == Some(102) && CodeToKey(102) == Numpad6 {}
  lemma ScanNumpad6() ensures KeyToScancode(Numpad6) == Some(0x4D) && ScancodeToKey(0x4D) == Numpad6 {}
  lemma RowNumpad6() ensures RowFacts(Numpad6) { VkNumpad6(); ScanNumpad6(); }

  lemma VkNumpad7() ensures KeyToCode(Numpad7) == Some(103) && CodeToKey(103) == Numpad7 {}
  lemma ScanNumpad7() ensures KeyToScancode(Numpad7) == Some(0x47) && ScancodeToKey(0x47) == Numpad7 {}
  lemma RowNumpad7() ensures RowFacts(Numpad7) { VkNumpad7(); ScanNumpad7(); }

  lemma VkNumpad8() ensures KeyToCode(Numpad8) == Some(104) && CodeToKey(104) == Numpad8 {}
  lemma ScanNumpad8() ensures KeyToScancode(Numpad8) == Some(0x48) && ScancodeToKey(0x48) == Numpad8 {}
  lemma RowNumpad8() ensures RowFacts(Numpad8) { VkNumpad8(); ScanNumpad8(); }

  lemma VkNumpad9() ensures KeyToCode(Numpad9) == Some(105) && CodeToKey(105) == Numpad9 {}
  lemma ScanNumpad9() ensures KeyToScancode(Numpad9) == Some(0x49) && ScancodeToKey(0x49) == Numpad9 {}
  lemma RowNumpad9() ensures RowFacts(Numpad9) { VkNumpad9(); ScanNumpad9(); }

  lemma VkNumpadAdd() ensures KeyToCode(NumpadAdd) == Some(107) && CodeToKey(107) == NumpadAdd {}
  lemma ScanNumpadAdd() ensures KeyToScancode(NumpadAdd) == Some(0x4E) && ScancodeToKey(0x4E) == NumpadAdd {}
  lemma RowNumpadAdd() ensures RowFacts(NumpadAdd) { VkNumpadAdd(); ScanNumpadAdd(); }

  lemma VkNumpadDecimal() ensures KeyToCode(NumpadDecimal) == Some(110) && CodeToKey(110) == NumpadDecimal {}
  lemma ScanNumpadDecimal() ensures KeyToScancode(NumpadDecimal) == Some(0x53) && ScancodeToKey(0x53) == NumpadDecimal {}
  lemma RowNumpadDecimal() ensures RowFacts(NumpadDecimal) { VkNumpadDecimal(); ScanNumpadDecimal(); }

  lemma VkNumpadDivide() ensures KeyToCode(NumpadDivide) == Some(111) && CodeToKey(111) == NumpadDivide {}
  lemma ScanNumpadDivide() ensures KeyToScancode(NumpadDivide) == Some(0xE035) && ScancodeToKey(0xE035) == NumpadDivide {}
  lemma RowNumpadDivide() ensures RowFacts(NumpadDivide) { VkNumpadDivide(); ScanNumpadDivide(); }

  lemma VkNumpadEnter() ensures KeyToCode(NumpadEnter) == Some(13) && CodeToKey(13) == Enter {}
  lemma ScanNumpadEnter() ensures KeyToScancode(NumpadEnter) == Some(0xE01C) && ScancodeToKey(0xE01C) == NumpadEnter {}
  lemma RowNumpadEnter() ensures RowFacts(NumpadEnter) { VkNumpadEnter(); ScanNumpadEnter(); }

  lemma VkNumpadMultiply() ensures KeyToCode(NumpadMultiply) == Some(106) && CodeToKey(106) == NumpadMultiply {}
  lemma ScanNumpadMultiply() ensures KeyToScancode(NumpadMultiply) == Some(0x37) && ScancodeToKey(0x37) == NumpadMultiply {}
  lemma RowNumpadMultiply() ensures RowFacts(NumpadMultiply) { VkNumpadMultiply(); ScanNumpadMultiply(); }

  lemma VkNumpadSubtract() ensures KeyToCode(NumpadSubtract) == Some(109) && CodeToKey(109) == NumpadSubtract {}
  lemma ScanNumpadSubtract() ensures KeyToScancode(NumpadSubtract) == Some(0x4A) && ScancodeToKey(0x4A) == NumpadSubtract {}
  lemma RowNumpadSubtract() ensures RowFacts(NumpadSubtract) { VkNumpadSubtract(); ScanNumpadSubtract(); }

  lemma VkF1() ensures KeyToCode(F1) == Some(112) && CodeToKey(112) == F1 {}
  lemma ScanF1() ensures KeyToScancode(F1) == Some(0x3B) && ScancodeToKey(0x3B) == F1 {}
  lemma RowF1() ensures RowFacts(F1) { VkF1(); ScanF1(); }

  lemma VkF2() ensures KeyToCode(F2) == Some(113) && CodeToKey(113) == F2 {}
  lemma ScanF2() ensures KeyToScancode(F2) == Some(0x3C) && ScancodeToKey(0x3C) == F2 {}
  lemma RowF2() ensures RowFacts(F2) { VkF2(); ScanF2(); }

  lemma VkF3() ensures KeyToCode(F3) == Some(114) && CodeToKey(114) == F3 {}
  lemma ScanF3() ensures KeyToScancode(F3) == Some(0x3D) && ScancodeToKey(0x3D) == F3 {}
  lemma RowF3() ensures RowFacts(F3) { VkF3(); ScanF3(); }

  lemma VkF4() ensures KeyToCode(F4) == Some(115) && CodeToKey(115) == F4 {}
  lemma ScanF4() ensures KeyToScancode(F4) == Some(0x3E) && ScancodeToKey(0x3E) == F4 {}
  lemma RowF4() ensures RowFacts(F4) { VkF4(); ScanF4(); }

  lemma VkF5() ensures KeyToCode(F5) == Some(116) && CodeToKey(116) == F5 {}
  lemma ScanF5() ensures KeyToScancode(F5) == Some(0x3F) && ScancodeToKey(0x3F) == F5 {}
  lemma RowF5() ensures RowFacts(F5) { VkF5(); ScanF5(); }

  lemma VkF6() ensures KeyToCode(F6) == Some(117) && CodeToKey(117) == F6 {}
  lemma ScanF6() ensures KeyToScancode(F6) == Some(0x40) && ScancodeToKey(0x40) == F6 {}
  lemma RowF6() ensures RowFacts(F6) { VkF6(); ScanF6(); }

  lemma VkF7() ensures KeyToCode(F7) == Some(118) && CodeToKey(118) == F7 {}
  lemma ScanF7() ensures KeyToScancode(F7) == Some(0x41) && ScancodeToKey(0x41) == F7 {}
  lemma RowF7() ensures RowFacts(F7) { VkF7(); ScanF7(); }

  lemma VkF8() ensures KeyToCode(F8) == Some(119) && CodeToKey(119) == F8 {}
  lemma ScanF8() ensures KeyToScancode(F8) == Some(0x42) && ScancodeToKey(0x42) == F8 {}
  lemma RowF8() ensures RowFacts(F8) { VkF8(); ScanF8(); }

  lemma VkF9() ensures KeyToCode(F9) == Some(120) && CodeToKey(120) == F9 {}
  lemma ScanF9() ensures KeyToScancode(F9) == Some(0x43) && ScancodeToKey(0x43) == F9 {}
  lemma RowF9() ensures RowFacts(F9) { VkF9(); ScanF9(); }

  lemma VkF10() ensures KeyToCode(F10) == Some(121) && CodeToKey(121) == F10 {}
  lemma ScanF10() ensures KeyToScancode(F10) == Some(0x44) && ScancodeToKey(0x44) == F10 {}
  lemma RowF10() ensures RowFacts(F10) { VkF10(); ScanF10(); }

  lemma VkF11() ensures KeyToCode(F11) == Some(122) && CodeToKey(122) == F11 {}
  lemma ScanF11() ensures KeyToScancode(F11) == Some(0x57) && ScancodeToKey(0x57) == F11 {}
  lemma RowF11() ensures RowFacts(F11) { VkF11(); ScanF11(); }

  lemma VkF12() ensures KeyToCode(F12) == Some(123) && CodeToKey(123) == F12 {}
  lemma ScanF12() ensures KeyToScancode(F12) == Some(0x58) && ScancodeToKey(0x58) == F12 {}
  lemma RowF12() ensures RowFacts(F12) { VkF12(); ScanF12(); }

  lemma VkF13() ensures KeyToCode(F13) == Some(124) && CodeToKey(124) == F13 {}
  lemma ScanF13() ensures KeyToScancode(F13) == Some(0x64) && ScancodeToKey(0x64) == F13 {}
  lemma RowF13() ensures RowFacts(F13) { VkF13(); ScanF13(); }

  lemma VkF14() ensures KeyToCode(F14) == Some(125) && CodeToKey(125) == F14 {}
  lemma ScanF14() ensures KeyToScancode(F14) == Some(0x65) && ScancodeToKey(0x65) == F14 {}
  lemma RowF14() ensures RowFacts(F14) { VkF14(); ScanF14(); }

  lemma VkF15() ensures KeyToCode(F15) == Some(126) && CodeToKey(126) == F15 {}
  lemma ScanF15() ensures KeyToScancode(F15) == Some(0x66) && ScancodeToKey(0x66) == F15 {}
  lemma RowF15() ensures RowFacts(F15) { VkF15(); ScanF15(); }

  lemma VkF16() ensures KeyToCode(F16) == Some(127) && CodeToKey(127) == F16 {}
  lemma ScanF16() ensures KeyToScancode(F16) == Some(0x67) && ScancodeToKey(0x67) == F16 {}
  lemma RowF16() ensures RowFacts(F16) { VkF16(); ScanF16(); }

  lemma VkF17() ensures KeyToCode(F17) == Some(128) && CodeToKey(128) == F17 {}
  lemma ScanF17() ensures KeyToScancode(F17) == Some(0x68) && ScancodeToKey(0x68) == F17 {}
  lemma RowF17() ensures RowFacts(F17) { VkF17(); ScanF17(); }

  lemma VkF18() ensures KeyToCode(F18) == Some(129) && CodeToKey(129) == F18 {}
  lemma ScanF18() ensures KeyToScancode(F18) == Some(0x69) && ScancodeToKey(0x69) == F18 {}
  lemma RowF18() ensures RowFacts(F18) { VkF18(); ScanF18(); }

  lemma VkF19() ensures KeyToCode(F19) == Some(130) && CodeToKey(130) == F19 {}
  lemma ScanF19() ensures KeyToScancode(F19) == Some(0x6A) && ScancodeToKey(0x6A) == F19 {}
  lemma RowF19() ensures RowFacts(F19) { VkF19(); ScanF19(); }

  lemma VkF20() ensures KeyToCode(F20) == Some(131) && CodeToKey(131) == F20 {}
  lemma ScanF20() ensures KeyToScancode(F20) == Some(0x6B) && ScancodeToKey(0x6B) == F20 {}
  lemma RowF20() ensures RowFacts(F20) { VkF20(); ScanF20(); }

  lemma VkF21() ensures KeyToCode(F21) == Some(132) && CodeToKey(132) == F21 {}
  lemma ScanF21() ensures KeyToScancode(F21) == Some(0x6C) && ScancodeToKey(0x6C) == F21 {}
  lemma RowF21() ensures RowFacts(F21) { VkF21(); ScanF21(); }

  lemma VkF22() ensures KeyToCode(F22) == Some(133) && CodeToKey(133) == F22 {}
  lemma ScanF22() ensures KeyToScancode(F22) == Some(0x6D) && ScancodeToKey(0x6D) == F22 {}
  lemma RowF22() ensures RowFacts(F22) { VkF22(); ScanF22(); }

  lemma VkF23() ensures KeyToCode(F23) == Some(134) && CodeToKey(134) == F23 {}
  lemma ScanF23() ensures KeyToScancode(F23) == Some(0x6E) && ScancodeToKey(0x6E) == F23 {}
  lemma RowF23() ensures RowFacts(F23) { VkF23(); ScanF23(); }

  lemma VkF24() ensures KeyToCode(F24) == Some(135) && CodeToKey(135) == F24 {}
  lemma ScanF24() ensures KeyToScancode(F24) == Some(0x76) && ScancodeToKey(0x76) == F24 {}
  lemma RowF24() ensures RowFacts(F24) { VkF24(); ScanF24(); }

  lemma VkPrintScreen() ensures KeyToCode(PrintScreen) == Some(44) && CodeToKey(44) == PrintScreen {}
  lemma ScanPrintScreen() ensures KeyToScancode(PrintScreen) == Some(0xE037) && ScancodeToKey(0xE037) == PrintScreen {}
  lemma RowPrintScreen() ensures RowFacts(PrintScreen) { VkPrintScreen(); ScanPrintScreen(); }

  lemma VkScrollLock() ensures KeyToCode(ScrollLock) == Some(145) && CodeToKey(145) == ScrollLock {}
  lemma ScanScrollLock() ensures KeyToScancode(ScrollLock) == Some(0x46) && ScancodeToKey(0x46) == ScrollLock {}
  lemma RowScrollLock() ensures RowFacts(ScrollLock) { VkScrollLock(); ScanScrollLock(); }

  lemma VkPause() ensures KeyToCode(Pause) == Some(19) && CodeToKey(19) == Pause {}
  lemma ScanPause() ensures KeyToScancode(Pause) == Some(0xE145) && ScancodeToKey(0xE145) == Pause {}
  lemma RowPause() ensures RowFacts(Pause) { VkPause(); ScanPause(); }

  lemma VkIntlRo() ensures KeyToCode(IntlRo) == Some(0x00E2) && CodeToKey(0x00E2) == IntlBackslash {}
  lemma ScanIntlRo() ensures KeyToScancode(IntlRo) == Some(0x73) && ScancodeToKey(0x73) == IntlRo {}
  lemma RowIntlRo() ensures RowFacts(IntlRo) { VkIntlRo(); ScanIntlRo(); }

  lemma VkIntlYen() ensures KeyToCode(IntlYen) == Some(0x00DC) && CodeToKey(0x00DC) == Backslash {}
  lemma ScanIntlYen() ensures KeyToScancode(IntlYen) == Some(0x7D) && ScancodeToKey(0x7D) == IntlYen {}
  lemma RowIntlYen() ensures RowFacts(IntlYen) { VkIntlYen(); ScanIntlYen(); }

  /** The rows KeyA to KeyF. */
  lemma {:induction false} RowGroup0(key: Key)
    requires key == KeyA || key == KeyB || key == KeyC || key == KeyD || key == KeyE || key == KeyF
    ensures RowFacts(key)
  {
    if key == KeyA {
      RowKeyA();
    }
    else if key == KeyB {
      RowKeyB();
    }
    else if key == KeyC {
      RowKeyC();
    }
    else if key == KeyD {
      RowKeyD();
    }
    else if key == KeyE {
      RowKeyE();
    }
    else if key == KeyF {
      RowKeyF();
    }
  }

  /** The rows KeyG to KeyL. */
  lemma {:induction false} RowGroup1(key: Key)
    requires key == KeyG || key == KeyH || key == KeyI || key == KeyJ || key == KeyK || key == KeyL
    ensures RowFacts(key)
  {
    if key == KeyG {
      RowKeyG();
    }
    else if key == KeyH {
      RowKeyH();
    }
    else if key == KeyI {
      RowKeyI();
    }
    else if key == KeyJ {
      RowKeyJ();
    }
    else if key == KeyK {
      RowKeyK();
    }
    else if key == KeyL {
      RowKeyL();
    }
  }

  /** The rows KeyM to KeyR. */
  lemma {:induction false} RowGroup2(key: Key)
    requires key == KeyM || key == KeyN || key == KeyO || key == KeyP || key == KeyQ || key == KeyR
    ensures RowFacts(key)
  {
    if key == KeyM {
      RowKeyM();
    }
    else if key == KeyN {
      RowKeyN();
    }
    else if key == KeyO {
      RowKeyO();
    }
    else if key == KeyP {
      RowKeyP();
    }
    else if key == KeyQ {
      RowKeyQ();
    }
    else if key == KeyR {
      RowKeyR();
    }
  }

  /** The rows KeyS to KeyX. */
  lemma {:induction false} RowGroup3(key: Key)
    requires key == KeyS || key == KeyT || key == KeyU || key == KeyV || key == KeyW || key == KeyX
    ensures RowFacts(key)
  {
    if key == KeyS {
      RowKeyS();
    }
    else if key == KeyT {
      RowKeyT();
    }
    else if key == KeyU {
      RowKeyU();
    }
    else if key == KeyV {
      RowKeyV();
    }
    else if key == KeyW {
      RowKeyW();
    }
    else if key == KeyX {
      RowKeyX();
    }
  }

  /** The rows KeyY to Digit4. */
  lemma {:induction false} RowGroup4(key: Key)
    requires key == KeyY || key == KeyZ || key == Digit1 || key == Digit2 || key == Digit3 || key == Digit4
    ensures RowFacts(key)
  {
    if key == KeyY {
      RowKeyY();
    }
    else if key == KeyZ {
      RowKeyZ();
    }
    else if key == Digit1 {
      RowDigit1();
    }
    else if key == Digit2 {
      RowDigit2();
    }
    else if key == Digit3 {
      RowDigit3();
    }
    else if key == Digit4 {
      RowDigit4();
    }
  }

  /** The rows Digit5 to Digit0. */
  lemma {:induction false} RowGroup5(key: Key)
    requires key == Digit5 || key == Digit6 || key == Digit7 || key == Digit8 || key == Digit9 || key == Digit0
    ensures RowFacts(key)
  {
    if key == Digit5 {
      RowDigit5();
    }
    else if key == Digit6 {
      RowDigit6();
    }
    else if key == Digit7 {
      RowDigit7();
    }
    else if key == Digit8 {
      RowDigit8();
    }
    else if key == Digit9 {
      RowDigit9();
    }
    else if key == Digit0 {
      RowDigit0();
    }
  }

  /** The rows Backquote to Equal. */
  lemma {:induction false} RowGroup6(key: Key)
    requires key == Backquote || key == Backslash || key == BracketLeft || key == BracketRight || key == Comma || key == Equal
    ensures RowFacts(key)
  {
    if key == Backquote {
      RowBackquote();
    }
    else if key == Backslash {
      RowBackslash();
    }
    else if key == BracketLeft {
      RowBracketLeft();
    }
    else if key == BracketRight {
      RowBracketRight();
    }
    else if key == Comma {
      RowComma();
    }
    else if key == Equal {
      RowEqual();
    }
  }

  /** The rows Minus to IntlBackslash. */
  lemma {:induction false} RowGroup7(key: Key)
    requires key == Minus || key == Period || key == Quote || key == Semicolon || key == Slash || key == IntlBackslash
    ensures RowFacts(key)
  {
    if key == Minus {
      RowMinus();
    }
    else if key == Period {
      RowPeriod();
    }
    else if key == Quote {
      RowQuote();
    }
    else if key == Semicolon {
      RowSemicolon();
    }
    else if key == Slash {
      RowSlash();
    }
    else if key == IntlBackslash {
      RowIntlBackslash();
    }
  }

  /** The rows AltLeft to ControlLeft. */
  lemma {:induction false} RowGroup8(key: Key)
    requires key == AltLeft || key == AltRight || key == Backspace || key == CapsLock || key == ContextMenu || key == ControlLeft
    ensures RowFacts(key)
  {
    if key == AltLeft {
      RowAltLeft();
    }
    else if key == AltRight {
      RowAltRight();
    }
    else if key == Backspace {
      RowBackspace();
    }
    else if key == CapsLock {
      RowCapsLock();
    }
    else if key == ContextMenu {
      RowContextMenu();
    }
    else if key == ControlLeft {
      RowControlLeft();
    }
  }

  /** The rows ControlRight to ShiftLeft. */
  lemma {:induction false} RowGroup9(key: Key)
    requires key == ControlRight || key == Enter || key == Escape || key == MetaLeft || key == MetaRight || key == ShiftLeft
    ensures RowFacts(key)
  {
    if key == ControlRight {
      RowControlRight();
    }
    else if key == Enter {
      RowEnter();
    }
    else if key == Escape {
      RowEscape();
    }
    else if key == MetaLeft {
      RowMetaLeft();
    }
    else if key == MetaRight {
      RowMetaRight();
    }
    else if key == ShiftLeft {
      RowShiftLeft();
    }
  }

  /** The rows ShiftRight to Delete. */
  lemma {:induction false} RowGroup10(key: Key)
    requires key == ShiftRight || key == Space || key == Tab || key == Convert || key == NonConvert || key == Delete
    ensures RowFacts(key)
  {
    if key == ShiftRight {
      RowShiftRight();
    }
    else if key == Space {
      RowSpace();
    }
    else if key == Tab {
      RowTab();
    }
    else if key == Convert {
      RowConvert();
    }
    else if key == NonConvert {
      RowNonConvert();
    }
    else if key == Delete {
      RowDelete();
    }
  }

  /** The rows End to ArrowDown. */
  lemma {:induction false} RowGroup11(key: Key)
    requires key == End || key == Home || key == Insert || key == PageDown || key == PageUp || key == ArrowDown
    ensures RowFacts(key)
  {
    if key == End {
      RowEnd();
    }
    else if key == Home {
      RowHome();
    }
    else if key == Insert {
      RowInsert();
    }
    else if key == PageDown {
      RowPageDown();
    }
    else if key == PageUp {
      RowPageUp();
    }
    else if key == ArrowDown {
      RowArrowDown();
    }
  }

  /** The rows ArrowLeft to Numpad1. */
  lemma {:induction false} RowGroup12(key: Key)
    requires key == ArrowLeft || key == ArrowRight || key == ArrowUp || key == NumLock || key == Numpad0 || key == Numpad1
    ensures RowFacts(key)
  {
    if key == ArrowLeft {
      RowArrowLeft();
    }
    else if key == ArrowRight {
      RowArrowRight();
    }
    else if key == ArrowUp {
      RowArrowUp();
    }
    else if key == NumLock {
      RowNumLock();
    }
    else if key == Numpad0 {
      RowNumpad0();
    }
    else if key == Numpad1 {
      RowNumpad1();
    }
  }

  /** The rows Numpad2 to Numpad7. */
  lemma {:induction false} RowGroup13(key: Key)
    requires key == Numpad2 || key == Numpad3 || key == Numpad4 || key == Numpad5 || key == Numpad6 || key == Numpad7
    ensures RowFacts(key)
  {
    if key == Numpad2 {
      RowNumpad2();
    }
    else if key == Numpad3 {
      RowNumpad3();
    }
    else if key == Numpad4 {
      RowNumpad4();
    }
    else if key == Numpad5 {
      RowNumpad5();
    }
    else if key == Numpad6 {
      RowNumpad6();
    }
    else if key == Numpad7 {
      RowNumpad7();
    }
  }

  /** The rows Numpad8 to NumpadEnter. */
  lemma {:induction false} RowGroup14(key: Key)
    requires key == Numpad8 || key == Numpad9 || key == NumpadAdd || key == NumpadDecimal || key == NumpadDivide || key == NumpadEnter
    ensures RowFacts(key)
  {
    if key == Numpad8 {
      RowNumpad8();
    }
    else if key == Numpad9 {
      RowNumpad9();
    }
    else if key == NumpadAdd {
      RowNumpadAdd();
    }
    else if key == NumpadDecimal {
      RowNumpadDecimal();
    }
    else if key == NumpadDivide {
      RowNumpadDivide();
    }
    else if key == NumpadEnter {
      RowNumpadEnter();
    }
  }

  /** The rows NumpadMultiply to F4. */
  lemma {:induction false} RowGroup15(key: Key)
    requires key == NumpadMultiply || key == NumpadSubtract || key == F1 || key == F2 || key == F3 || key == F4
    ensures RowFacts(key)
  {
    if key == NumpadMultiply {
      RowNumpadMultiply();
    }
    else if key == NumpadSubtract {
      RowNumpadSubtract();
    }
    else if key == F1 {
      RowF1();
    }
    else if key == F2 {
      RowF2();
    }
    else if key == F3 {
      RowF3();
    }
    else if key == F4 {
      RowF4();
    }
  }

  /** The rows F5 to F10. */
  lemma {:induction false} RowGroup16(key: Key)
    requires key == F5 || key == F6 || key == F7 || key == F8 || key == F9 || key == F10
    ensures RowFacts(key)
  {
    if key == F5 {
      RowF5();
    }
    else if key == F6 {
      RowF6();
    }
    else if key == F7 {
      RowF7();
    }
    else if key == F8 {
      RowF8();
    }
    else if key == F9 {
      RowF9();
    }
    else if key == F10 {
      RowF10();
    }
  }

  /** The rows F11 to F16. */
  lemma {:induction false} RowGroup17(key: Key)
    requires key == F11 || key == F12 || key == F13 || key == F14 || key == F15 || key == F16
    ensures RowFacts(key)
  {
    if key == F11 {
      RowF11();
    }
    else if key == F12 {
      RowF12();
    }
    else if key == F13 {
      RowF13();
    }
    else if key == F14 {
      RowF14();
    }
    else if key == F15 {
      RowF15();
    }
    else if key == F16 {
      RowF16();
    }
  }

  /** The rows F17 to F22. */
  lemma {:induction false} RowGroup18(key: Key)
    requires key == F17 || key == F18 || key == F19 || key == F20 || key == F21 || key == F22
    ensures RowFacts(key)
  {
    if key == F17 {
      RowF17();
    }
    else if key == F18 {
      RowF18();
    }
    else if key == F19 {
      RowF19();
    }
    else if key == F20 {
      RowF20();
    }
    else if key == F21 {
      RowF21();
    }
    else if key == F22 {
      RowF22();
    }
  }

  /** The rows F23 to IntlRo. */
  lemma {:induction false} RowGroup19(key: Key)
    requires key == F23 || key == F24 || key == PrintScreen || key == ScrollLock || key == Pause || key == IntlRo
    ensures RowFacts(key)
  {
    if key == F23 {
      RowF23();
    }
    else if key == F24 {
      RowF24();
    }
    else if key == PrintScreen {
      RowPrintScreen();
    }
    else if key == ScrollLock {
      RowScrollLock();
    }
    else if key == Pause {
      RowPause();
    }
    else if key == IntlRo {
      RowIntlRo();
    }
  }

  /** The rows IntlYen to IntlYen. */
  lemma {:induction false} RowGroup20(key: Key)
    requires key == IntlYen
    ensures RowFacts(key)
  {
    if key == IntlYen {
      RowIntlYen();
    }
  }

  /** `Help` and the default key have no row. */
  lemma NoRowHelp()
    ensures KeyToCode(Help) == None && KeyToScancode(Help) == None
  {
  }

  lemma NoRowDefault()
    ensures KeyToCode(DefaultKey) == None && KeyToScancode(DefaultKey) == None
  {
  }

  /** Every key either has no row (`Help` and the default key) or satisfies `RowFacts`. */
  lemma {:induction false} EveryKey(key: Key)
    ensures if key == Help || key == DefaultKey then KeyToCode(key) == None && KeyToScancode(key) == None
            else RowFacts(key)
  {
    if key == Help {
      NoRowHelp();
    } else if key == DefaultKey {
      NoRowDefault();
    } else {
      AllRows(key);
    }
  }

  /** Every key other than `Help` and the default key satisfies `RowFacts`. */
  lemma {:induction false} AllRows(key: Key)
    requires key != Help && key != DefaultKey
    ensures RowFacts(key)
  {
    if key == KeyA || key == KeyB || key == KeyC || key == KeyD || key == KeyE || key == KeyF {
      RowGroup0(key);
    }
    else if key == KeyG || key == KeyH || key == KeyI || key == KeyJ || key == KeyK || key == KeyL {
      RowGroup1(key);
    }
    else if key == KeyM || key == KeyN || key == KeyO || key == KeyP || key == KeyQ || key == KeyR {
      RowGroup2(key);
    }
    else if key == KeyS || key == KeyT || key == KeyU || key == KeyV || key == KeyW || key == KeyX {
      RowGroup3(key);
    }
    else if key == KeyY || key == KeyZ || key == Digit1 || key == Digit2 || key == Digit3 || key == Digit4 {
      RowGroup4(key);
    }
    else if key == Digit5 || key == Digit6 || key == Digit7 || key == Digit8 || key == Digit9 || key == Digit0 {
      RowGroup5(key);
    }
    else if key == Backquote || key == Backslash || key == BracketLeft || key == BracketRight || key == Comma || key == Equal {
      RowGroup6(key);
    }
    else if key == Minus || key == Period || key == Quote || key == Semicolon || key == Slash || key == IntlBackslash {
      RowGroup7(key);
    }
    else if key == AltLeft || key == AltRight || key == Backspace || key == CapsLock || key == ContextMenu || key == ControlLeft {
      RowGroup8(key);
    }
    else if key == ControlRight || key == Enter || key == Escape || key == MetaLeft || key == MetaRight || key == ShiftLeft {
      RowGroup9(key);
    }
    else if key == ShiftRight || key == Space || key == Tab || key == Convert || key == NonConvert || key == Delete {
      RowGroup10(key);
    }
    else if key == End || key == Home || key == Insert || key == PageDown || key == PageUp || key == ArrowDown {
      RowGroup11(key);
    }
    else if key == ArrowLeft || key == ArrowRight || key == ArrowUp || key == NumLock || key == Numpad0 || key == Numpad1 {
      RowGroup12(key);
    }
    else if key == Numpad2 || key == Numpad3 || key == Numpad4 || key == Numpad5 || key == Numpad6 || key == Numpad7 {
      RowGroup13(key);
    }
    else if key == Numpad8 || key == Numpad9 || key == NumpadAdd || key == NumpadDecimal || key == NumpadDivide || key == NumpadEnter {
      RowGroup14(key);
    }
    else if key == NumpadMultiply || key == NumpadSubtract || key == F1 || key == F2 || key == F3 || key == F4 {
      RowGroup15(key);
    }
    else if key == F5 || key == F6 || key == F7 || key == F8 || key == F9 || key == F10 {
      RowGroup16(key);
    }
    else if key == F11 || key == F12 || key == F13 || key == F14 || key == F15 || key == F16 {
      RowGroup17(key);
    }
    else if key == F17 || key == F18 || key == F19 || key == F20 || key == F21 || key == F22 {
      RowGroup18(key);
    }
    else if key == F23 || key == F24 || key == PrintScreen || key == ScrollLock || key == Pause || key == IntlRo {
      RowGroup19(key);
    }
    else if key == IntlYen {
      RowGroup20(key);
    }
  }

  /** Every key `code_to_key` recognises encodes back to the same code. */
  lemma {:induction false} CodeToKeyInverse(code: int)
    ensures CodeFacts(code)
  {
    match code
    case 0x08 => VkBackspace();
    case 0x09 => VkTab();
    case 13 => VkEnter();
    case 19 => VkPause();
    case 20 => VkCapsLock();
    case 27 => VkEscape();
    case 0x1C => VkConvert();
    case 0x1D => VkNonConvert();
    case 32 => VkSpace();
    case 33 => VkPageUp();
    case 34 => VkPageDown();
    case 35 => VkEnd();
    case 36 => VkHome();
    case 37 => VkArrowLeft();
    case 38 => VkArrowUp();
    case 39 => VkArrowRight();
    case 40 => VkArrowDown();
    case 44 => VkPrintScreen();
    case 45 => VkInsert();
    case 46 => VkDelete();
    case 48 => VkDigit0();
    case 49 => VkDigit1();
    case 50 => VkDigit2();
    case 51 => VkDigit3();
    case 52 => VkDigit4();
    case 53 => VkDigit5();
    case 54 => VkDigit6();
    case 55 => VkDigit7();
    case 56 => VkDigit8();
    case 57 => VkDigit9();
    case 65 => VkKeyA();
    case 66 => VkKeyB();
    case 67 => VkKeyC();
    case 68 => VkKeyD();
    case 69 => VkKeyE();
    case 70 => VkKeyF();
    case 71 => VkKeyG();
    case 72 => VkKeyH();
    case 73 => VkKeyI();
    case 74 => VkKeyJ();
    case 75 => VkKeyK();
    case 76 => VkKeyL();
    case 77 => VkKeyM();
    case 78 => VkKeyN();
    case 79 => VkKeyO();
    case 80 => VkKeyP();
    case 81 => VkKeyQ();
    case 82 => VkKeyR();
    case 83 => VkKeyS();
    case 84 => VkKeyT();
    case 85 => VkKeyU();
    case 86 => VkKeyV();
    case 87 => VkKeyW();
    case 88 => VkKeyX();
    case 89 => VkKeyY();
    case 90 => VkKeyZ();
    case 91 => VkMetaLeft();
    case 92 => VkMetaRight();
    case 93 => VkContextMenu();
    case 96 => VkNumpad0();
    case 97 => VkNumpad1();
    case 98 => VkNumpad2();
    case 99 => VkNumpad3();
    case 100 => VkNumpad4();
    case 101 => VkNumpad5();
    case 102 => VkNumpad6();
    case 103 => VkNumpad7();
    case 104 => VkNumpad8();
    case 105 => VkNumpad9();
    case 106 => VkNumpadMultiply();
    case 107 => VkNumpadAdd();
    case 109 => VkNumpadSubtract();
    case 110 => VkNumpadDecimal();
    case 111 => VkNumpadDivide();
    case 112 => VkF1();
    case 113 => VkF2();
    case 114 => VkF3();
    case 115 => VkF4();
    case 116 => VkF5();
    case 117 => VkF6();
    case 118 => VkF7();
    case 119 => VkF8();
    case 120 => VkF9();
    case 121 => VkF10();
    case 122 => VkF11();
    case 123 => VkF12();
    case 124 => VkF13();
    case 125 => VkF14();
    case 126 => VkF15();
    case 127 => VkF16();
    case 128 => VkF17();
    case 129 => VkF18();
    case 130 => VkF19();
    case 131 => VkF20();
    case 132 => VkF21();
    case 133 => VkF22();
    case 134 => VkF23();
    case 135 => VkF24();
    case 144 => VkNumLock();
    case 145 => VkScrollLock();
    case 160 => VkShiftLeft();
    case 161 => VkShiftRight();
    case 162 => VkControlLeft();
    case 163 => VkControlRight();
    case 164 => VkAltLeft();
    case 165 => VkAltRight();
    case 186 => VkSemicolon();
    case 187 => VkEqual();
    case 188 => VkComma();
    case 189 => VkMinus();
    case 190 => VkPeriod();
    case 191 => VkSlash();
    case 192 => VkBackquote();
    case 219 => VkBracketLeft();
    case 0x00DC => VkBackslash();
    case 221 => VkBracketRight();
    case 222 => VkQuote();
    case 0x00E2 => VkIntlBackslash();
    case _ =>
  }

  /** Every key `scancode_to_key` recognises encodes back to the same scan
      code, and 0 is never recognised. */
  lemma {:induction false} ScancodeToKeyInverse(scancode: int)
    ensures ScancodeToKey(scancode) != DefaultKey ==> KeyToScancode(ScancodeToKey(scancode)) == Some(scancode)
    ensures ScancodeToKey(0) == DefaultKey
  {
    match scancode
    case 0x1E => ScanKeyA();
    case 0x30 => ScanKeyB();
    case 0x2E => ScanKeyC();
    case 0x20 => ScanKeyD();
    case 0x12 => ScanKeyE();
    case 0x21 => ScanKeyF();
    case 0x22 => ScanKeyG();
    case 0x23 => ScanKeyH();
    case 0x17 => ScanKeyI();
    case 0x24 => ScanKeyJ();
    case 0x25 => ScanKeyK();
    case 0x26 => ScanKeyL();
    case 0x32 => ScanKeyM();
    case 0x31 => ScanKeyN();
    case 0x18 => ScanKeyO();
    case 0x19 => ScanKeyP();
    case 0x10 => ScanKeyQ();
    case 0x13 => ScanKeyR();
    case 0x1F => ScanKeyS();
    case 0x14 => ScanKeyT();
    case 0x16 => ScanKeyU();
    case 0x2F => ScanKeyV();
    case 0x11 => ScanKeyW();
    case 0x2D => ScanKeyX();
    case 0x15 => ScanKeyY();
    case 0x2C => ScanKeyZ();
    case 0x02 => ScanDigit1();
    case 0x03 => ScanDigit2();
    case 0x04 => ScanDigit3();
    case 0x05 => ScanDigit4();
    case 0x06 => ScanDigit5();
    case 0x07 => ScanDigit6();
    case 0x08 => ScanDigit7();
    case 0x09 => ScanDigit8();
    case 0x0A => ScanDigit9();
    case 0x0B => ScanDigit0();
    case 0x29 => ScanBackquote();
    case 0x2B => ScanBackslash();
    case 0x1A => ScanBracketLeft();
    case 0x1B => ScanBracketRight();
    case 0x33 => ScanComma();
    case 0x0D => ScanEqual();
    case 0x0C => ScanMinus();
    case 0x34 => ScanPeriod();
    case 0x28 => ScanQuote();
    case 0x27 => ScanSemicolon();
    case 0x35 => ScanSlash();
    case 0x56 => ScanIntlBackslash();
    case 0x38 => ScanAltLeft();
    case 0xE038 => ScanAltRight();
    case 0x0E => ScanBackspace();
    case 0x3A => ScanCapsLock();
    case 0xE05D => ScanContextMenu();
    case 0x1D => ScanControlLeft();
    case 0xE01D => ScanControlRight();
    case 0x1C => ScanEnter();
    case 0x01 => ScanEscape();
    case 0xE05B => ScanMetaLeft();
    case 0xE05C => ScanMetaRight();
    case 0x2A => ScanShiftLeft();
    case 0x36 => ScanShiftRight();
    case 0x39 => ScanSpace();
    case 0x0F => ScanTab();
    case 0x79 => ScanConvert();
    case 0x7B => ScanNonConvert();
    case 0xE053 => ScanDelete();
    case 0xE04F => ScanEnd();
    case 0xE047 => ScanHome();
    case 0xE052 => ScanInsert();
    case 0xE051 => ScanPageDown();
    case 0xE049 => ScanPageUp();
    case 0xE050 => ScanArrowDown();
    case 0xE04B => ScanArrowLeft();
    case 0xE04D => ScanArrowRight();
    case 0xE048 => ScanArrowUp();
    case 0x45 => ScanNumLock();
    case 0x52 => ScanNumpad0();
    case 0x4F => ScanNumpad1();
    case 0x50 => ScanNumpad2();
    case 0x51 => ScanNumpad3();
    case 0x4B => ScanNumpad4();
    case 0x4C => ScanNumpad5();
    case 0x4D => ScanNumpad6();
    case 0x47 => ScanNumpad7();
    case 0x48 => ScanNumpad8();
    case 0x49 => ScanNumpad9();
    case 0x4E => ScanNumpadAdd();
    case 0x53 => ScanNumpadDecimal();
    case 0xE035 => ScanNumpadDivide();
    case 0xE01C => ScanNumpadEnter();
    case 0x37 => ScanNumpadMultiply();
    case 0x4A => ScanNumpadSubtract();
    case 0x3B => ScanF1();
    case 0x3C => ScanF2();
    case 0x3D => ScanF3();
    case 0x3E => ScanF4();
    case 0x3F => ScanF5();
    case 0x40 => ScanF6();
    case 0x41 => ScanF7();
    case 0x42 => ScanF8();
    case 0x43 => ScanF9();
    case 0x44 => ScanF10();
    case 0x57 => ScanF11();
    case 0x58 => ScanF12();
    case 0x64 => ScanF13();
    case 0x65 => ScanF14();
    case 0x66 => ScanF15();
    case 0x67 => ScanF16();
    case 0x68 => ScanF17();
    case 0x69 => ScanF18();
    case 0x6A => ScanF19();
    case 0x6B => ScanF20();
    case 0x6C => ScanF21();
    case 0x6D => ScanF22();
    case 0x6E => ScanF23();
    case 0x76 => ScanF24();
    case 0xE037 => ScanPrintScreen();
    case 0x46 => ScanScrollLock();
    case 0xE145 => ScanPause();
    case 0x73 => ScanIntlRo();
    case 0x7D => ScanIntlYen();
    case _ =>
  }

  /** Keys whose virtual-key code an earlier row already claims. */
  predicate HasShadowedCode(key: Key) {
    key == NumpadEnter || key == IntlYen || key == IntlRo
  }

  /** `get_win_key`: reconciles the key read from the virtual-key code with the
      key read from the scan code.  AltRight, NumpadDivide and ControlRight
      share their scan code with another key, so their virtual-key reading is
      kept; otherwise a recognised scan code wins. */
  function GetWinKey(keycode: int, scancode: int): (k: Key)
    ensures k == CodeToKey(keycode) || k == ScancodeToKey(scancode)
    ensures CodeToKey(keycode) == AltRight || CodeToKey(keycode) == NumpadDivide || CodeToKey(keycode) == ControlRight ==>
              k == CodeToKey(keycode)
    ensures (CodeToKey(keycode) != AltRight && CodeToKey(keycode) != NumpadDivide && CodeToKey(keycode) != ControlRight &&
             ScancodeToKey(scancode) != DefaultKey) ==> k == ScancodeToKey(scancode)
    ensures k == DefaultKey <==> CodeToKey(keycode) == DefaultKey && ScancodeToKey(scancode) == DefaultKey
  {
    var key := CodeToKey(keycode);
    var scancodeKey := ScancodeToKey(scancode);
    if key == AltRight || key == NumpadDivide || key == ControlRight then
      key
    else if scancodeKey != DefaultKey then
      scancodeKey
    else
      key
  }

  /** `get_win_codes`: both codes of a key, or `None` when the key has no row.
      The `key == default` branch is never taken: the default key has no
      virtual-key code. */
  function GetWinCodes(key: Key): (r: Option<(int, int)>)
    ensures KeyToCode(key).None? ==> r.None?
    ensures r.Some? ==> KeyToCode(key) == Some(r.value.0) && KeyToScancode(key) == Some(r.value.1)
  {
    NoRowDefault();
    match KeyToCode(key)
    case None => None
    case Some(keycode) =>
      var key' := if key == DefaultKey then CodeToKey(keycode) else key;
      match KeyToScancode(key')
      case None => None
      case Some(scancode) => Some((keycode, scancode))
  }

  /** Exactly `Help` and the default key have no row; a key has a scan code
      exactly when it has a virtual-key code. */
  lemma KeyToCodeDefinedExactly(key: Key)
    ensures KeyToCode(key).None? <==> key == Help || key == DefaultKey
    ensures KeyToScancode(key).Some? <==> KeyToCode(key).Some?
  {
    EveryKey(key);
  }

  /** `get_win_codes` pairs the two columns of a key's row, and gives `None`
      exactly for the keys without a row. */
  lemma GetWinCodesPairsColumns(key: Key)
    ensures GetWinCodes(key).Some? <==> KeyToCode(key).Some?
    ensures GetWinCodes(key).Some? ==> GetWinCodes(key).value == (KeyToCode(key).value, KeyToScancode(key).value)
  {
    EveryKey(key);
  }

  /** Totality of `code_to_key`: a code that no row carries decodes to the default key. */
  lemma CodeToKeyUnlisted(code: int)
    requires forall key :: KeyToCode(key) != Some(code)
    ensures CodeToKey(code) == DefaultKey
  {
    CodeToKeyInverse(code);
  }

  /** Virtual-key round trip: it holds for every key with a row except the
      three whose code an earlier row owns, which decode to that row's key. */
  lemma CodeRoundTrip(key: Key)
    requires KeyToCode(key).Some?
    ensures CodeToKey(KeyToCode(key).value) == key <==> !HasShadowedCode(key)
    ensures key == NumpadEnter ==> CodeToKey(KeyToCode(key).value) == Enter
    ensures key == IntlYen ==> CodeToKey(KeyToCode(key).value) == Backslash
    ensures key == IntlRo ==> CodeToKey(KeyToCode(key).value) == IntlBackslash
  {
    EveryKey(key);
  }

  /** Scan-code round trip: every scan code in the table is non-zero, fits
      in 16 bits and decodes back to its own key. */
  lemma ScancodeRoundTrip(key: Key)
    requires KeyToScancode(key).Some?
    ensures 0 < KeyToScancode(key).value <= 0xFFFF
    ensures ScancodeToKey(KeyToScancode(key).value) == key
  {
    EveryKey(key);
  }

  /** The reconciliation rule applied to a row's own codes gives the row's key. */
  lemma GetWinKeyOfRow(key: Key, keycode: int, scancode: int)
    requires key != DefaultKey
    requires CodeToKey(keycode) == CodeOwner(key) && ScancodeToKey(scancode) == key
    ensures GetWinKey(keycode, scancode) == key
  {
  }

  /** The reconciliation rule repairs the three shared virtual-key codes:
      the pair of codes `get_win_codes` gives for a key reads back as that key. */
  lemma GetWinKeyRoundTrip(key: Key)
    requires GetWinCodes(key).Some?
    ensures GetWinKey(GetWinCodes(key).value.0, GetWinCodes(key).value.1) == key
  {
    GetWinCodesPairsColumns(key);
    EveryKey(key);
    GetWinKeyOfRow(key, KeyToCode(key).value, KeyToScancode(key).value);
  }
}
