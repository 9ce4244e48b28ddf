/** Word and byte extractors for Windows message parameters, and the two
    readings of a low-level keyboard hook record: the key code and the full
    scan code. */
module WinCommon {
  import opened Masks

  /** `VK_PACKET`: the virtual-key code of an injected Unicode character. */
  const VkPacket: bv32 := 0xE7
  /** `LLKHF_EXTENDED`: the hook record flag of an extended key. */
  const LlkhfExtended: bv32 := 0x01

  // Win32 window-message identifiers the hooks and the message window see.
  const WmKeyDown: int := 0x0100
  const WmKeyUp: int := 0x0101
  const WmSysKeyDown: int := 0x0104
  const WmSysKeyUp: int := 0x0105
  const WmInput: int := 0x00FF
  const WmMouseMove: int := 0x0200
  const WmLButtonDown: int := 0x0201
  const WmLButtonUp: int := 0x0202
  const WmRButtonDown: int := 0x0204
  const WmRButtonUp: int := 0x0205
  const WmMButtonDown: int := 0x0207
  const WmMButtonUp: int := 0x0208
  const WmMouseWheel: int := 0x020A
  const WmXButtonDown: int := 0x020B
  const WmXButtonUp: int := 0x020C
  const WmMouseHWheel: int := 0x020E

  /** `XBUTTON1` and `XBUTTON2`: the high word of `mouseData` on an X-button message. */
  const XButton1: bv16 := 1
  const XButton2: bv16 := 2

  /** The eight button messages (left, right, middle and X, down and up). */
  predicate IsButtonMessage(msg: int) {
    msg == WmLButtonDown || msg == WmLButtonUp || msg == WmRButtonDown || msg == WmRButtonUp ||
    msg == WmMButtonDown || msg == WmMButtonUp || msg == WmXButtonDown || msg == WmXButtonUp
  }

  /** The vertical and horizontal wheel messages. */
  predicate IsWheelMessage(msg: int) {
    msg == WmMouseWheel || msg == WmMouseHWheel
  }

  /** The four key messages, plain and system, down and up. */
  predicate IsKeyMessage(msg: int) {
    msg == WmKeyDown || msg == WmSysKeyDown || msg == WmKeyUp || msg == WmSysKeyUp
  }

  /** The category bit a hook message belongs to: move, button, wheel or
      keyboard; 0 for a message outside the four categories. */
  function CategoryOf(msg: int): (bit: bv32)
    ensures bit == 0 || bit == MouseMoveBit || bit == MouseButtonBit || bit == MouseWheelBit || bit == KeyboardBit
    ensures bit == MouseMoveBit <==> msg == WmMouseMove
    ensures bit == MouseButtonBit <==> IsButtonMessage(msg)
    ensures bit == MouseWheelBit <==> IsWheelMessage(msg)
    ensures bit == KeyboardBit <==> IsKeyMessage(msg)
  {
    if msg == WmMouseMove then MouseMoveBit
    else if IsButtonMessage(msg) then MouseButtonBit
    else if IsWheelMessage(msg) then MouseWheelBit
    else if IsKeyMessage(msg) then KeyboardBit
    else 0
  }

  /** The fields of `KBDLLHOOKSTRUCT` the hook reads. */
  datatype KbdHookRecord = KbdHookRecord(vkCode: bv32, scanCode: bv32, flags: bv32)

  /** `hiword`: bits 16 to 31. */
  function HiWord(l: bv32): (w: bv16)
    ensures w as bv32 == (l >> 16) & 0xFFFF
  {
    ((l >> 16) & 0xFFFF) as bv16
  }

  /** `loword`: bits 0 to 15. */
  function LoWord(l: bv32): (w: bv16)
    ensures w as bv32 == l & 0xFFFF
  {
    (l & 0xFFFF) as bv16
  }

  /** `hibyte`: bits 8 to 15 of a word. */
  function HiByte(w: bv16): (b: bv8)
    ensures b as bv16 == (w >> 8) & 0xFF
  {
    ((w >> 8) & 0xFF) as bv8
  }

  /** `lobyte`: bits 0 to 7 of a word. */
  function LoByte(w: bv16): (b: bv8)
    ensures b as bv16 == w & 0xFF
  {
    (w & 0xFF) as bv8
  }

  /** The two words put back together give the original value. */
  lemma WordsRecombine(l: bv32)
    ensures (HiWord(l) as bv32 << 16) | LoWord(l) as bv32 == l
  {
  }

  /** The two bytes put back together give the original word. */
  lemma BytesRecombine(w: bv16)
    ensures (HiByte(w) as bv16 << 8) | LoByte(w) as bv16 == w
  {
  }

  /** `get_code`: the scan code carries the character of a `VK_PACKET`
      record; any other record is read by its virtual-key code. */
  function GetCode(kb: KbdHookRecord): (code: bv32)
    ensures kb.vkCode == VkPacket ==> code == kb.scanCode
    ensures kb.vkCode != VkPacket ==> code == kb.vkCode
  {
    if kb.vkCode == VkPacket then kb.scanCode else kb.vkCode
  }

  /** `get_scan_code`: right Shift (0x36) and NumLock (0x45) keep their bare
      scan code; any other extended key gets the 0xE0 prefix in its high byte. */
  function GetScanCode(kb: KbdHookRecord): (scan: bv32)
    ensures kb.scanCode == 0x36 || kb.scanCode == 0x45 ==> scan == kb.scanCode
    ensures kb.scanCode != 0x36 && kb.scanCode != 0x45 ==>
              scan == (if kb.flags & LlkhfExtended == LlkhfExtended then 0xE000 | kb.scanCode else kb.scanCode)
  {
    match kb.scanCode
    case 0x36 => kb.scanCode
    case 0x45 => kb.scanCode
    case _ =>
      if kb.flags & LlkhfExtended == LlkhfExtended then (0xE0 << 8) | kb.scanCode else kb.scanCode
  }

  /** For the scan codes the hook delivers (one byte), an extended key's
      reconstructed code is the 0xE0-prefixed byte and keeps the byte below it. */
  lemma ExtendedScanCode(kb: KbdHookRecord)
    requires kb.scanCode < 0x100 && kb.scanCode != 0x36 && kb.scanCode != 0x45
    requires kb.flags & LlkhfExtended != 0
    ensures GetScanCode(kb) == 0xE000 + kb.scanCode
    ensures GetScanCode(kb) >> 8 == 0xE0 && GetScanCode(kb) & 0xFF == kb.scanCode
  {
  }
}
