# raw-input, modelled in Dafny

`raw-input` is a Rust library that captures, blocks and injects keyboard and
mouse input on Windows and macOS. This project models its platform core:

- **Capture engine (`Core`).** It installs the operating-system hooks: two
  low-level hooks and a raw-input window on Windows, a Quartz event tap on
  macOS. It then blocks in the native message or run loop. Each hook
  callback hands every event to the listener and then to the grabber.
- **Listener (`Listen`).** A running flag and a four-bit category mask
  (mouse move, mouse button, mouse wheel, keyboard) decide which events
  reach the subscribers. A decision tree turns each native message or
  Quartz event into at most one canonical `Event`.
- **Grabber (`Grab`).** Its own flag and mask decide whether an event is
  swallowed before other applications see it.
- **Dispatcher and subscription handles.** A registry maps subscription ids
  to Active or Paused. `dispatch` invokes the Active ones.
- **Simulator (`Simulate`).** It turns a canonical event into the native
  injection: `INPUT` descriptors for one `SendInput` call on Windows, one
  posted Quartz event on macOS.
- **Key tables.** Per platform, they map each key to its virtual-key code
  and scan code (Windows) or key code (macOS), and back.
- **Display queries.** Monitor enumeration, the primary monitor, the scale
  factor, the cursor position and the monitor under a point.

How the model is shaped:

- The library's global atomics become fields of classes:
  - `Listen`, `Grab` and `Core` for each platform;
  - `Dispatcher.Registry` for `CALLBACKS` and `NEXT_ID`.
- The methods that update those globals become methods with `modifies`
  clauses.
- The decision trees (`handle`, `should_block`, `handle_mouse_move`) and
  the key tables are pure functions.
- Everything the operating system answers is a parameter: whether a hook
  or a tap was created, the hook records, the monitor rectangles, DPI
  values, the cursor location.
- Every native call the engine makes is appended to a `calls` trace, or
  returned as the posted or sent value.
- Rust's numeric casts are written out in module `Casts`:
  - `f64 as i32` truncates toward zero and saturates;
  - `as u32` and `as i32` keep the low 32 bits;
  - `u16 as i16` sign-extends.

Modules follow the source files:

| module | source file |
|---|---|
| `Events`, `Casts` | `event.rs`, `key.rs`, `platform/mod.rs` |
| `Dispatcher` | `dispatcher.rs` |
| `Subscription` | `subscription.rs` |
| `Masks` | the flag constants and `update_state` that both platforms' `common.rs` define identically |
| `WinCommon`, `WinKeycode`, `WinListen`, `WinGrab`, `WinCore`, `WinSimulate`, `WinDisplay` | the `windows/` files |
| `MacCommon`, `MacKeycode`, `MacListen`, `MacGrab`, `MacCore`, `MacSimulate`, `MacDisplay` | the `macos/` files |
| `Display` | the monitor search shared by both `display.rs` files |

Behaviour of the code worth noting:

- **A failed `Core::start` leaves the engine marked running.** The
  compare-and-swap in `is_run` sets `IS_CORE_RUNNING` and nothing resets it
  on the error path. A later `start` therefore returns `Ok` at once. This is
  stated by `WinCore.FailedStartBlocksRestart` and
  `MacCore.FailedTapBlocksRestart`.
- **Windows key events carry the code they were read from**
  (`src/platform/windows/listen.rs:196-204`), although `event.rs` declares
  `KeyDown`/`KeyUp` with a key only. The model's `Event` carries
  `code: Option<int>`. The macOS listener sets it to `None`.
- **Three Windows virtual-key codes appear twice** in the 121-row table: NumpadEnter shares 13 with Enter, IntlYen shares 0xDC with
  Backslash, and IntlRo shares 0xE2 with IntlBackslash. `code_to_key`
  allows the unreachable arms, so the earlier row wins, and
  `WinKeycode.CodeRoundTrip` states exactly which keys do not round-trip.

## Model

| member | source | states |
|---|---|---|
| Casts.TruncTowardZero | src/platform/macos/listen.rs:115-118 | the result is the integer part of the real: within one of it, on the side of zero |
| Casts.F64ToI32 | src/platform/windows/simulate.rs:87-88 | `f64 as i32` stays in `i32`; it equals the truncation when that fits, and `i32::MAX`/`i32::MIN` past either bound |
| Casts.WrapI32 | src/platform/macos/listen.rs:115-118 | `i64 as i32` lands in `i32`, is congruent to the input modulo 2^32, and is the identity on `i32` |
| Casts.WrapU32 | src/platform/macos/listen.rs:187-188 | `as u32` lands in 0..2^32 and is congruent to the input modulo 2^32 |
| Casts.SignExtend16 | src/platform/windows/listen.rs:158 | `u16 as i16` lies in -2^15..2^15 and is congruent to the word modulo 2^16 |
| Casts.I32AsU32 | src/platform/windows/simulate.rs:125 | `i32 as u32` lies in 0..2^32 and reads back through `as i32` as the same value |
| Dispatcher.ActiveIds | src/dispatcher.rs:31-37 | an id is dispatched exactly when it is registered and Active |
| Dispatcher.WithStatus | src/subscription.rs:17-33 | the status update changes only the named entry, and only if it is registered; the key set is kept |
| Dispatcher.PauseThenResume | src/subscription.rs:17-33 | pause then resume leaves the subscriber Active and every other entry unchanged; on an Active subscriber the pair is the identity |
| Dispatcher.RemovedNeverDispatched | src/subscription.rs:42-44 | after removal the id is never dispatched, and the other subscribers' dispatch set is unchanged |
| Dispatcher.Registry.constructor | src/dispatcher.rs:22-25 | the registry starts empty with the counter at 0 |
| Dispatcher.Registry.Dispatch | src/dispatcher.rs:31-37 | one pass invokes exactly the Active subscribers, each once, and changes nothing |
| Dispatcher.Registry.RemoveAll | src/dispatcher.rs:40-43 | every subscriber is dropped and the counter restarts at 0 |
| Subscription.SubscriptionHandle.Pause | src/subscription.rs:17-21 | the handle's entry becomes Paused if present; nothing else changes; the registry invariant is kept |
| Subscription.SubscriptionHandle.Resume | src/subscription.rs:29-33 | the handle's entry becomes Active if present; nothing else changes |
| Subscription.SubscriptionHandle.Unsubscribe | src/subscription.rs:42-44 | the entry is removed and is never dispatched again; the counter is kept |
| Masks.UpdateState | src/platform/windows/common.rs:44-59 | the stored mask takes every bit outside `bit` from the old mask, and every bit of `bit` is `enable` |
| Masks.UpdateStateForces | src/platform/windows/common.rs:44-59 | after the update, the bits of `bit` read as `enable` and the other bits are unchanged |
| Masks.UpdateStateIdempotent | src/platform/macos/common.rs:56-71 | repeating a toggle changes nothing |
| Masks.UpdateStateUndo | src/platform/macos/common.rs:56-71 | enabling then disabling a clear bit restores the mask |
| Masks.UpdateStateDecides | src/platform/windows/common.rs:44-59 | after the update, a category bit is set exactly when `enable` |
| Masks.UpdateStateKeepsDisjoint | src/platform/windows/common.rs:44-59 | bits disjoint from the updated ones keep their value |
| Masks.UpdateStateKeepsOthers | src/platform/windows/common.rs:44-59 | toggling one category leaves every other category's bit as it was |
| Masks.CategoryBits | src/platform/windows/common.rs:21-36 | the four flags are 1, 2, 4 and 8, pairwise disjoint, and `LISTENS_ALL`/`GRAB_ALL` is 0xF |
| MacCommon.InterestedEventsDistinct | src/platform/macos/common.rs:14-29 | the tap's interest list has 14 entries, each named once |
| MacCommon.InterestedEventsExact | src/platform/macos/common.rs:14-29 | a type is in the interest list exactly when it is a move, button, wheel or keyboard type |
| MacCommon.CategoryOf | src/platform/macos/grab.rs:64-98 | each type has at most one category bit; each bit is assigned exactly to its group of types |
| MacCommon.InterestedEventsCategorised | src/platform/macos/common.rs:14-29 | the tap asks for exactly the types that have a category |
| WinCommon.CategoryOf | src/platform/windows/grab.rs:76-97 | each message has at most one category bit; each bit is assigned exactly to its group of messages |
| WinCommon.HiWord | src/platform/windows/common.rs:69-72 | the word is bits 16..31 of the argument |
| WinCommon.LoWord | src/platform/windows/common.rs:74-78 | the word is bits 0..15 of the argument |
| WinCommon.HiByte | src/platform/windows/common.rs:80-84 | the byte is bits 8..15 of the word |
| WinCommon.LoByte | src/platform/windows/common.rs:86-90 | the byte is bits 0..7 of the word |
| WinCommon.WordsRecombine | src/platform/windows/common.rs:69-78 | the high and low words put back together give the original value |
| WinCommon.BytesRecombine | src/platform/windows/common.rs:80-90 | the high and low bytes put back together give the original word |
| WinCommon.GetCode | src/platform/windows/common.rs:93-102 | a `VK_PACKET` record is read by its scan code, any other record by its virtual-key code |
| WinCommon.GetScanCode | src/platform/windows/common.rs:106-121 | right Shift and NumLock keep their bare scan code; other extended keys get the 0xE0 prefix |
| WinCommon.ExtendedScanCode | src/platform/windows/common.rs:106-121 | for a one-byte extended scan code, the result has 0xE0 in its high byte and keeps the byte below |
| WinKeycode.GetWinKey | src/platform/windows/keycode.rs:36-51 | the answer is one of the two readings; AltRight, NumpadDivide and ControlRight keep the virtual-key reading; for any other key a recognised scan-code reading wins; the default key exactly when both readings are the default |
| WinKeycode.KeyToCode | src/platform/windows/keycode.rs:6-11 | every virtual-key code in the table is a byte value 1..255 |
| WinKeycode.CodeToKey | src/platform/windows/keycode.rs:13-19 | no code decodes to Help, which has no row |
| WinKeycode.KeyToScancode | src/platform/windows/keycode.rs:21-26 | every scan code in the table is non-zero and fits 16 bits |
| WinKeycode.ScancodeToKey | src/platform/windows/keycode.rs:28-34 | scan code 0 is the default key, and no scan code decodes to Help |
| WinKeycode.GetWinCodes | src/platform/windows/keycode.rs:53-63 | `None` for a key without a virtual-key code; otherwise the pair is the key's own virtual-key code and scan code |
| WinKeycode.EveryKey | src/platform/windows/keycode.rs:66-204 | every key except Help and the default key has both codes; its non-zero 16-bit scan code reads back as the key; its virtual-key code reads back as the key or as the earlier row owning that code |
| WinKeycode.CodeToKeyInverse | src/platform/windows/keycode.rs:13-19 | every virtual-key code that `code_to_key` recognises is that key's own code |
| WinKeycode.ScancodeToKeyInverse | src/platform/windows/keycode.rs:28-34 | every recognised scan code is that key's own scan code; 0 is never recognised |
| WinKeycode.KeyToCodeDefinedExactly | src/platform/windows/keycode.rs:6-11 | exactly Help and the default key have no virtual-key code; a key has a scan code exactly when it has a virtual-key code |
| WinKeycode.GetWinCodesPairsColumns | src/platform/windows/keycode.rs:53-63 | `get_win_codes` is `None` exactly for keys without a row, and otherwise pairs the row's two codes |
| WinKeycode.CodeToKeyUnlisted | src/platform/windows/keycode.rs:13-19 | a code carried by no row decodes to the default key |
| WinKeycode.CodeRoundTrip | src/platform/windows/keycode.rs:13-19 | a key decodes back from its own virtual-key code iff it is not NumpadEnter, IntlYen or IntlRo; those three decode to Enter, Backslash and IntlBackslash |
| WinKeycode.ScancodeRoundTrip | src/platform/windows/keycode.rs:21-34 | every scan code in the table is non-zero, fits 16 bits and decodes back to its own key |
| WinKeycode.GetWinKeyOfRow | src/platform/windows/keycode.rs:36-51 | a row's own codes are reconciled to the row's key |
| WinKeycode.GetWinKeyRoundTrip | src/platform/windows/keycode.rs:36-63 | the codes `get_win_codes` gives for a key are reconciled back to that key, repairing the three shared virtual-key codes |
| MacKeycode.KeyToCode | src/platform/macos/keycode.rs:5-10 | every code in the table is below 0x80 |
| MacKeycode.CodeToKey | src/platform/macos/keycode.rs:12-17 | no code decodes to Help, whose row is commented out |
| MacKeycode.AllRows | src/platform/macos/keycode.rs:21-147 | every key with a row has a code below 0x80 that decodes back to it |
| MacKeycode.NoRows | src/platform/macos/keycode.rs:21-147 | the twelve keys the table omits have no code |
| MacKeycode.CodeToKeyInverse | src/platform/macos/keycode.rs:12-17 | every code that `code_to_key` recognises is that key's own code |
| MacKeycode.KeyToCodeDefinedExactly | src/platform/macos/keycode.rs:5-10 | `key_to_code` is `None` exactly for the unmapped keys |
| MacKeycode.CodeToKeyUnlisted | src/platform/macos/keycode.rs:12-17 | a code carried by no row decodes to `Unidentified` |
| MacKeycode.CodeRoundTrip | src/platform/macos/keycode.rs:5-17 | every mapped key decodes back from its own code, which lies in 0..0x7F |
| MacKeycode.InsertOwnsHelpCode | src/platform/macos/keycode.rs:89-95 | with the Help row commented out, code 0x72 belongs to Insert and Help has no code |
| WinListen.KeyEventOf | src/platform/windows/listen.rs:189-205 | down exactly for `WM_KEYDOWN`/`WM_SYSKEYDOWN`, with the key the code decodes to and the code itself |
| WinListen.XButtonOf | src/platform/windows/listen.rs:171-177 | `XBUTTON1` is Back, `XBUTTON2` is Forward, any other word is dropped |
| WinListen.Handle | src/platform/windows/listen.rs:104-210 | nothing while stopped or with an empty mask; an event only for a button, wheel or key message whose category bit is set |
| WinListen.HandleKeyMessage | src/platform/windows/listen.rs:189-205 | a key message under the KEYBOARD bit reports the key of its code, with the code |
| WinListen.HandleXButton | src/platform/windows/listen.rs:171-183 | an X-button message reports the named side button in its direction, and nothing for an unknown word |
| WinListen.HandleWheel | src/platform/windows/listen.rs:156-162 | a vertical wheel message reports the signed high word over 120 on the y axis |
| WinListen.HandleHWheel | src/platform/windows/listen.rs:163-169 | a horizontal wheel message reports the signed high word over 120 on the x axis |
| WinListen.HandleButtons | src/platform/windows/listen.rs:137-154 | the six left/right/middle messages report their button and direction |
| WinListen.HandleKeyAgreesWithTable | src/platform/windows/listen.rs:196-204 | a reported key event carries its code, and its key is the default key or has that code as its own |
| WinListen.HandleKeyOfRow | src/platform/windows/listen.rs:196-204 | a key message carrying a row's own code reports that row's key, for every row whose code no earlier row owns |
| WinListen.HandleMouseMove | src/platform/windows/listen.rs:212-263 | the packet is consumed iff running, MOVE bit set, read succeeded and it is a mouse packet; a move is reported iff also relative and non-zero, with the packet's deltas |
| WinListen.Listen.constructor | src/platform/windows/common.rs:12-21 | the listener starts stopped with an empty mask |
| WinListen.Listen.Start | src/platform/windows/listen.rs:35-41 | afterwards running; the mask becomes `LISTENS_ALL` unless it was already running |
| WinListen.Listen.Pause | src/platform/windows/listen.rs:47-49 | only the running flag is cleared |
| WinListen.Listen.Resume | src/platform/windows/listen.rs:51-53 | only the running flag is set |
| WinListen.Listen.Stop | src/platform/windows/listen.rs:55-59 | empty mask, stopped, no subscriber, counter at 0 |
| WinListen.Listen.MouseMove | src/platform/windows/listen.rs:61-63 | the MOVE bit is forced to `enable` and the others are kept |
| WinListen.Listen.MouseWheel | src/platform/windows/listen.rs:65-67 | the WHEEL bit is forced to `enable` and the others are kept |
| WinListen.Listen.MouseButton | src/platform/windows/listen.rs:69-71 | the BUTTON bit is forced to `enable` and the others are kept |
| WinListen.Listen.Keyboard | src/platform/windows/listen.rs:73-75 | the KEYBOARD bit is forced to `enable` and the others are kept |
| WinListen.Listen.Subscribe | src/platform/windows/listen.rs:77-90 | the handle gets the counter's id, which no registered subscriber has; it is registered Active and the counter advances |
| WinListen.Listen.UnsubscribeAll | src/platform/windows/listen.rs:92-94 | the registry is emptied and the counter reset |
| WinGrab.ShouldBlock | src/platform/windows/grab.rs:76-97 | nothing is blocked under an empty mask; only move, button, wheel and key messages can be blocked |
| WinGrab.ShouldBlockByCategory | src/platform/windows/grab.rs:76-97 | a message is blocked exactly when the mask holds its category bit |
| WinGrab.ToggleDecidesCategory | src/platform/windows/grab.rs:50-64 | a toggle decides every message of its category and leaves every other message's verdict unchanged |
| WinGrab.Grab.constructor | src/platform/windows/common.rs:14-31 | the grabber starts stopped with an empty mask |
| WinGrab.Grab.Start | src/platform/windows/grab.rs:25-31 | afterwards running; unless it was already running, every category bit is ORed into the mask |
| WinGrab.Grab.Pause | src/platform/windows/grab.rs:37-39 | the grabber is stopped and the mask is kept |
| WinGrab.Grab.Resume | src/platform/windows/grab.rs:41-43 | the grabber is running and the mask is kept |
| WinGrab.Grab.Stop | src/platform/windows/grab.rs:45-48 | stopped with an empty mask, whatever the state before |
| WinGrab.Grab.MouseMove | src/platform/windows/grab.rs:50-52 | the MOVE bit is forced to `enable` and the others are kept |
| WinGrab.Grab.MouseWheel | src/platform/windows/grab.rs:54-56 | the WHEEL bit is forced to `enable` and the others are kept |
| WinGrab.Grab.MouseButton | src/platform/windows/grab.rs:58-60 | the BUTTON bit is forced to `enable` and the others are kept |
| WinGrab.Grab.Keyboard | src/platform/windows/grab.rs:62-64 | the KEYBOARD bit is forced to `enable` and the others are kept |
| WinCore.HookError | src/platform/windows/core.rs:138-162 | a failed mouse hook gives `WindowsMouseHookError` and a failed keyboard hook gives `WindowsKeyHookError`, each with the message |
| WinCore.UnhookCalls | src/platform/windows/core.rs:187-194 | the uninstaller is called exactly once for an occupied slot and never for an empty one |
| WinCore.ListenedMessagesAreBlockable | src/platform/windows/core.rs:249-269 | any message the listener reports under a mask is blocked by the grabber under the same mask |
| WinCore.Core.constructor | src/platform/windows/common.rs:10-17 | the initial values of `IS_CORE_RUNNING` and `GLOBAL_HWND`, of `MOUSE_HOOK`/`KEYBOARD_HOOK` (windows/grab.rs:21-22) and of `CORE_THREAD_ID` (windows/core.rs:37): stopped, both hook slots empty, no thread, no window, no call made |
| WinCore.Core.HandleHook | src/platform/windows/core.rs:138-162 | an occupied slot succeeds without a call; otherwise one install, with the hook stored on success or the kind's error and an empty slot on failure; the other slot is untouched |
| WinCore.Core.Unhook | src/platform/windows/core.rs:187-194 | the slot is emptied, with an uninstall call only if it held a hook |
| WinCore.Core.Start | src/platform/windows/core.rs:56-88 | running afterwards. While running it returns `Ok` with no call. Otherwise it makes the window, mouse-hook and keyboard-hook calls in order. It returns the first failure's error without releasing the flag, keeping the window and any hook already created, or blocks in the loop with all three handles stored and the thread recorded |
| WinCore.Core.LoopExit | src/platform/windows/core.rs:82-87 | when the loop returns, start stops the engine and returns `Ok` |
| WinCore.Core.Pause | src/platform/windows/core.rs:94-96 | only the running flag is cleared |
| WinCore.Core.Resume | src/platform/windows/core.rs:98-100 | only the running flag is set |
| WinCore.Core.Stop | src/platform/windows/core.rs:103-125 | stopped, both hooks uninstalled, thread id taken and sent a quit if set, quit posted to the window if any; the window handle is kept |
| WinCore.Core.HookEventCallback | src/platform/windows/core.rs:249-269 | for `HC_ACTION` the listener's event is dispatched to exactly the Active subscribers; the event is swallowed exactly when the grabber is running and blocks the message |
| WinCore.Core.WindowProc | src/platform/windows/core.rs:272-288 | a `WM_INPUT` packet is answered directly exactly when the listener consumes it, and its move, if any, is dispatched |
| WinCore.FailedStartBlocksRestart | src/platform/windows/core.rs:56-88 | after a failed mouse hook, a second start returns `Ok` without installing a hook or running the loop |
| WinCore.StartStopCycle | src/platform/windows/core.rs:56-125 | a full session's exact native call trace, ending stopped with `Ok` |
| WinSimulate.ButtonInput | src/platform/windows/simulate.rs:101-113 | no movement; the X data is 1 for Back, 2 for Forward and 0 otherwise |
| WinSimulate.ButtonInputRoundTrip | src/platform/windows/simulate.rs:101-120 | each of the ten descriptors asks for exactly its own button and direction |
| WinSimulate.XButtonDataMatchesListener | src/platform/windows/simulate.rs:109-112 | the X data written is the word the listener reads back as the same side button |
| WinSimulate.WheelData | src/platform/windows/simulate.rs:125 | the `mouseData` word is unsigned 32-bit and reads back as `(d * 120) as i32` |
| WinSimulate.WheelInputs | src/platform/windows/simulate.rs:122-138 | one descriptor per non-negligible axis, vertical first, each with its wheel data and flag |
| WinSimulate.HighWordRoundTrip | src/platform/windows/common.rs:69-72 | a word placed in the high half is read back by `hiword` |
| WinSimulate.LowWordKeepsI16 | src/platform/windows/simulate.rs:125 | an `i16` amount stored as `u32` keeps its value in the low word |
| WinSimulate.WheelDataMatchesListener | src/platform/windows/simulate.rs:122-129 | a whole number of clicks within 16 bits is read back by the listener as the same wheel delta |
| WinSimulate.KeyboardInputOf | src/platform/windows/simulate.rs:150-156 | scan-code mode with no virtual key when the scan code is non-zero, virtual-key mode otherwise, each cut to 16 bits |
| WinSimulate.KeyboardInputs | src/platform/windows/simulate.rs:141-146 | no descriptor exactly for keys without Windows codes, otherwise one |
| WinSimulate.ScancodeModeFlags | src/platform/windows/simulate.rs:150-174 | a non-zero scan code is sent as is with SCANCODE; EXTENDEDKEY iff the 0xE0/0xE1 prefix; KEYUP iff a release |
| WinSimulate.KeyboardInputRoundTrip | src/platform/windows/simulate.rs:141-176 | every key with codes is sent by a scan code that decodes back to the key, with the right flags |
| WinSimulate.FlagBits | src/platform/windows/simulate.rs:160-167 | each of the three keyboard flags can be read back from their union |
| WinSimulate.AbsoluteCoordinate | src/platform/windows/simulate.rs:87-88 | the normalised coordinate is an `i32` |
| WinSimulate.AbsoluteCoordinateRange | src/platform/windows/simulate.rs:84-88 | the first desktop pixel maps to 0, the last to 65535, and every pixel in between into 0..65535 |
| WinSimulate.InputBuilder.constructor | src/platform/windows/simulate.rs:45-47 | the builder starts with no descriptor |
| WinSimulate.InputBuilder.PushMouse | src/platform/windows/simulate.rs:178-183 | one mouse `INPUT` is appended |
| WinSimulate.InputBuilder.PushKeyboard | src/platform/windows/simulate.rs:185-190 | one keyboard `INPUT` is appended |
| WinSimulate.InputBuilder.AddMouseMove | src/platform/windows/simulate.rs:60-68 | one relative MOVE descriptor with each delta cast to `i32` |
| WinSimulate.InputBuilder.AddMouseMoveTo | src/platform/windows/simulate.rs:71-99 | nothing on a degenerate desktop, otherwise one absolute virtual-desk MOVE descriptor from the scaled point |
| WinSimulate.InputBuilder.AddMouseButton | src/platform/windows/simulate.rs:101-120 | one descriptor from the button table |
| WinSimulate.InputBuilder.AddMouseWheel | src/platform/windows/simulate.rs:122-138 | the earlier descriptors are kept, followed by exactly the wheel inputs |
| WinSimulate.InputBuilder.AddKeyboard | src/platform/windows/simulate.rs:141-176 | nothing for a key without Windows codes, its descriptor otherwise |
| WinSimulate.InputBuilder.AddEvent | src/platform/windows/simulate.rs:49-58 | each event goes to exactly one primitive, pressed for Down and released for Up: a move appends its relative MOVE descriptor, a wheel appends exactly its wheel descriptors in order, a button its table descriptor, a key its keyboard descriptor or nothing |
| WinSimulate.InputBuilder.Send | src/platform/windows/simulate.rs:192-199 | no call for an empty builder, otherwise one call with every descriptor |
| WinSimulate.Simulate | src/platform/windows/simulate.rs:17-19 | a button or move event sends exactly its one descriptor; a key without codes sends nothing, any other key its descriptor; a wheel sends nothing exactly when both axes are negligible, otherwise exactly its wheel descriptors |
| WinSimulate.SimulateMouseMoveTo | src/platform/windows/simulate.rs:25-27 | no call exactly on a degenerate desktop, otherwise one mouse descriptor with the normalised coordinates |
| MacListen.OtherButtonOf | src/platform/macos/listen.rs:152-168 | 2 is Middle, 3 is Back, 4 is Forward, and any other number is dropped |
| MacListen.KeyOf | src/platform/macos/listen.rs:183-194 | the key is the table's reading of the code cut to `u32` |
| MacListen.FlagsEvent | src/platform/macos/listen.rs:195-215 | an event exactly when the flags changed: a press iff some changed flag is now set, otherwise a release |
| MacListen.Handle | src/platform/macos/listen.rs:93-220 | nothing while stopped or with an empty mask; an event only under its category bit; the snapshot moves exactly on an admitted `FlagsChanged`; the move, button, scroll, key and flags branches each give their event |
| MacListen.HandledTypesAreInterested | src/platform/macos/listen.rs:93-220 | every reported event comes from a type the tap asks for |
| MacListen.FlagsChangedPressRelease | src/platform/macos/listen.rs:195-215 | a modifier going down is a press, one going up a release, and the snapshot follows |
| MacListen.FlagsChangedRepeatSilent | src/platform/macos/listen.rs:195-215 | the same flags arriving twice report nothing the second time |
| MacListen.HandleKeyMessage | src/platform/macos/listen.rs:183-194 | a key event under the KEYBOARD bit reports the key of its code, down for `KeyDown` |
| MacListen.KeyOfRow | src/platform/macos/listen.rs:183-194 | a row's own code is read back as the row's key |
| MacListen.HandleKeyOfRow | src/platform/macos/listen.rs:183-194 | a key event carrying a row's own code reports that row's key |
| MacListen.Listen.constructor | src/platform/macos/listen.rs:17 | stopped, empty mask, no modifier in the snapshot |
| MacListen.Listen.Start | src/platform/macos/listen.rs:20-26 | afterwards running; the mask becomes `LISTENS_ALL` unless it was already running |
| MacListen.Listen.Pause | src/platform/macos/listen.rs:32-34 | only the running flag is cleared |
| MacListen.Listen.Resume | src/platform/macos/listen.rs:36-38 | only the running flag is set |
| MacListen.Listen.Stop | src/platform/macos/listen.rs:40-44 | empty mask, stopped, no subscriber, counter at 0 |
| MacListen.Listen.MouseMove | src/platform/macos/listen.rs:46-48 | the MOVE bit is forced to `enable` and the others are kept |
| MacListen.Listen.MouseWheel | src/platform/macos/listen.rs:50-52 | the WHEEL bit is forced to `enable` and the others are kept |
| MacListen.Listen.MouseButton | src/platform/macos/listen.rs:54-56 | the BUTTON bit is forced to `enable` and the others are kept |
| MacListen.Listen.Keyboard | src/platform/macos/listen.rs:58-60 | the KEYBOARD bit is forced to `enable` and the others are kept |
| MacListen.Listen.Subscribe | src/platform/macos/listen.rs:62-75 | a fresh id from the counter, registered Active; the counter advances |
| MacListen.Listen.UnsubscribeAll | src/platform/macos/listen.rs:77-79 | the registry is emptied and the counter reset |
| MacListen.Listen.HandleEvent | src/platform/macos/listen.rs:93-220 | the event and the new snapshot are those of `Handle`; the event reaches exactly the Active subscribers |
| MacGrab.ShouldBlock | src/platform/macos/grab.rs:64-98 | nothing is blocked while stopped or under an empty mask; only interested categories can be blocked |
| MacGrab.ShouldBlockByCategory | src/platform/macos/grab.rs:64-98 | a type is blocked exactly when running and the mask holds its category bit |
| MacGrab.FullMaskBlocksInterested | src/platform/macos/grab.rs:64-98 | with every category on, the blocked types are exactly the tap's interest list |
| MacGrab.ToggleDecidesCategory | src/platform/macos/grab.rs:38-52 | a toggle decides every type of its category and leaves the others' verdicts unchanged |
| MacGrab.Grab.constructor | src/platform/macos/common.rs:12-43 | the grabber starts stopped with an empty mask |
| MacGrab.Grab.Start | src/platform/macos/grab.rs:14-19 | afterwards running; unless it was already running, every category bit is ORed into the mask |
| MacGrab.Grab.Pause | src/platform/macos/grab.rs:25-27 | the grabber is stopped and the mask is kept |
| MacGrab.Grab.Resume | src/platform/macos/grab.rs:29-31 | the grabber is running and the mask is kept |
| MacGrab.Grab.Stop | src/platform/macos/grab.rs:33-36 | stopped with an empty mask |
| MacGrab.Grab.MouseMove | src/platform/macos/grab.rs:38-40 | the MOVE bit is forced to `enable` and the others are kept |
| MacGrab.Grab.MouseWheel | src/platform/macos/grab.rs:42-44 | the WHEEL bit is forced to `enable` and the others are kept |
| MacGrab.Grab.MouseButton | src/platform/macos/grab.rs:46-48 | the BUTTON bit is forced to `enable` and the others are kept |
| MacGrab.Grab.Keyboard | src/platform/macos/grab.rs:50-52 | the KEYBOARD bit is forced to `enable` and the others are kept |
| MacCore.ListenedEventsAreBlockable | src/platform/macos/core.rs:110-132 | any type the listener reports under a mask is blocked by a running grabber under the same mask |
| MacCore.Core.constructor | src/platform/macos/core.rs:19 | stopped, no run loop recorded, no call made |
| MacCore.Core.Start | src/platform/macos/core.rs:22-33 | running afterwards. While running it returns `Ok` with no call. Otherwise it creates the tap and then the source, returning the first failure's error without releasing the flag, or records the run loop and blocks in it |
| MacCore.Core.LoopExit | src/platform/macos/core.rs:27-32 | when the run loop returns, the record is cleared, everything is stopped and start returns `Ok` |
| MacCore.Core.Pause | src/platform/macos/core.rs:39-41 | only the running flag is cleared |
| MacCore.Core.Resume | src/platform/macos/core.rs:43-45 | only the running flag is set |
| MacCore.Core.Stop | src/platform/macos/core.rs:48-53 | engine, listener and grabber stopped with empty masks and no subscribers; the recorded run loop, if any, is asked to stop |
| MacCore.Core.Callback | src/platform/macos/core.rs:110-132 | stopped: every event kept untouched. Running: the listener's event goes to exactly the Active subscribers, and the event is dropped iff the grabber blocks it. A dropped event warps the cursor iff the grab mask holds MOVE |
| MacCore.FailedTapBlocksRestart | src/platform/macos/core.rs:22-33 | after a failed tap, a second start returns `Ok` without trying again |
| MacCore.StartStopCycle | src/platform/macos/core.rs:22-107 | a full session's exact native call trace, ending stopped with `Ok` |
| MacSimulate.MouseMoveTo | src/platform/macos/simulate.rs:28-40 | one `MouseMoved` event at the given point |
| MacSimulate.MouseMove | src/platform/macos/simulate.rs:18-26 | a move whose target coordinates are `i32` |
| MacSimulate.MouseMoveIsRelative | src/platform/macos/simulate.rs:18-26 | from a whole-pixel cursor, the target is exactly the delta away when it fits `i32` |
| MacSimulate.MouseWheel | src/platform/macos/simulate.rs:42-49 | a pixel scroll with the vertical amount on the first axis and the horizontal one on the second |
| MacSimulate.MouseWheelRoundTrip | src/platform/macos/simulate.rs:42-49 | a whole-pixel scroll comes back from the listener with both axes in place |
| MacSimulate.ButtonEvent | src/platform/macos/simulate.rs:57-69 | left and right keep their own types and buttons; middle, back and forward use the "other" types with the center button |
| MacSimulate.MouseButtonPost | src/platform/macos/simulate.rs:51-82 | the event is at the cursor; its button number is forced to 3 for Back and 4 for Forward and left alone otherwise |
| MacSimulate.MouseButtonRoundTrip | src/platform/macos/simulate.rs:51-82 | every button and direction posted is read back by the listener as the same |
| MacSimulate.KeyboardPost | src/platform/macos/simulate.rs:84-95 | nothing exactly for a key without a code, otherwise a key event with its code |
| MacSimulate.KeyboardRoundTrip | src/platform/macos/simulate.rs:84-95 | exactly the unmapped keys are dropped; every posted key is read back by the listener as the same key and direction |
| MacSimulate.Simulate | src/platform/macos/simulate.rs:7-16 | each event goes to exactly one primitive, pressed for Down and released for Up |
| Display.Contains | src/platform/windows/display.rs:104-107 | the half-open rectangle test; a monitor of zero width or height covers no point |
| Display.MonitorFromPoint | src/platform/windows/display.rs:102-109 | `None` iff no monitor covers the point; otherwise the first monitor covering it |
| Display.PrimaryMonitor | src/platform/macos/display.rs:63-67 | `None` iff no monitor is primary; otherwise the first primary monitor |
| Display.CoveredPointResolves | src/platform/macos/display.rs:74-81 | in a list of non-overlapping monitors, every covered point resolves to its monitor |
| Display.CornersResolve | src/platform/windows/display.rs:102-109 | a monitor's four corner pixels resolve to it |
| Display.OnePastEdgeMisses | src/platform/windows/display.rs:104-107 | the bounds are half-open: one pixel past the right or bottom edge never resolves to the monitor |
| Display.SolePrimaryFound | src/platform/windows/display.rs:89-93 | a sole primary monitor is found wherever it stands |
| WinDisplay.TrimLeadingNul | src/platform/windows/display.rs:128-130 | a suffix of the name: only NULs are cut from the front, and the result does not start with NUL |
| WinDisplay.TrimTrailingNul | src/platform/windows/display.rs:128-130 | a prefix of the name: only NULs are cut from the back, and the result does not end with NUL |
| WinDisplay.TrimNul | src/platform/windows/display.rs:128-130 | a slice of the name with only NULs cut from either end; the result neither starts nor ends with NUL; a name without NUL is kept as is |
| WinDisplay.MonitorOfRect | src/platform/windows/display.rs:137-144 | offset at the top-left corner; size to the bottom-right; primary iff flag bit 0; trimmed name; scale DPI/96, or 0 when the DPI query fails |
| WinDisplay.MonitorOfRectCoversRect | src/platform/windows/display.rs:137-144 | the monitor covers exactly its rectangle, excluding the right and bottom edges, and 96 DPI gives scale 1 |
| WinDisplay.Readable | src/platform/windows/display.rs:126-145 | the positions of the callbacks whose info query succeeded: increasing, each readable, and every readable position listed |
| WinDisplay.Collected | src/platform/windows/display.rs:113-148 | one monitor per readable callback, in enumeration order, built from that callback's rectangle, info and DPI; nothing for the others |
| WinDisplay.CollectedAllReadable | src/platform/windows/display.rs:113-148 | when every info query succeeds, exactly one monitor per callback, in order |
| WinDisplay.MonitorCollector.constructor | src/platform/windows/display.rs:76 | the vector starts empty |
| WinDisplay.MonitorCollector.EnumProc | src/platform/windows/display.rs:113-148 | the monitor is pushed iff its info was read, and enumeration always continues |
| WinDisplay.AvailableMonitors | src/platform/windows/display.rs:74-86 | the enumeration collects exactly `Collected` of the callbacks |
| WinDisplay.ScaleFactor | src/platform/windows/display.rs:26-31 | the first primary monitor's scale, or 1 when none is primary |
| WinDisplay.CursorPosition | src/platform/windows/display.rs:37-52 | the `GetCursorPos` point when it succeeds; otherwise the sign-extended low and high words of the message position |
| WinDisplay.PackedWords | src/platform/windows/display.rs:47-48 | both halves of a packed position are read back apart |
| WinDisplay.SignExtendResidue | src/platform/windows/display.rs:47-48 | a signed 16-bit value stored modulo 2^16 is read back as itself |
| WinDisplay.CursorFallbackRoundTrip | src/platform/windows/display.rs:44-49 | the fallback loses nothing for a point within 16 bits, negative coordinates included |
| WinDisplay.CurrentMonitor | src/platform/windows/display.rs:96-99 | the monitor covering the cursor position, `None` iff none does |
| MacDisplay.AsDisplayId | src/platform/macos/display.rs:97-99 | the id is below 2^32 and is the number itself below 2^32 |
| MacDisplay.ScreenOf | src/platform/macos/display.rs:94-99 | a screen without `NSScreenNumber` names no display; otherwise it names the number cut to 32 bits |
| MacDisplay.ScaleFor | src/platform/macos/display.rs:91-107 | the first matching screen's backing scale, or 1 when none matches |
| MacDisplay.MatchScaleFactor | src/platform/macos/display.rs:83-108 | the loop with early return computes `ScaleFor` |
| MacDisplay.Decimal | src/platform/macos/display.rs:52 | the model number in decimal: digits only, no leading zero, spelling the number |
| MacDisplay.MonitorOfDisplay | src/platform/macos/display.rs:50-57 | primary iff the main display; named "Monitor #" and the model number; bounds cut to `i32` |
| MacDisplay.MonitorsOf | src/platform/macos/display.rs:44-58 | one monitor per active display, in order, each with its matched scale |
| MacDisplay.AvailableMonitors | src/platform/macos/display.rs:36-61 | nothing when the display list cannot be read, otherwise `MonitorsOf` |
| MacDisplay.MainDisplayIsPrimary | src/platform/macos/display.rs:53 | a main display listed once is the primary monitor, and its scale is `get_scale_factor` |
| MacDisplay.ScaleFactor | src/platform/macos/display.rs:14-18 | the backing scale of the first screen describing the main display, or 1 when none does |
| MacDisplay.CursorPosition | src/platform/macos/display.rs:20-28 | the probe location cut to `i32`, or the origin when the probe fails |
| MacDisplay.CurrentMonitor | src/platform/macos/display.rs:69-72 | the monitor covering the cursor position, `None` iff none does |

## Left out

- **Native calls.** Creating windows, hooks, taps and run-loop sources;
  `SendInput`; the message and run loops. These become parameters (what
  the system answers), a `calls` trace, or a returned value (what is sent
  or posted). Creating the events the macOS simulator posts is not a
  parameter; see the next lines.
- **Concurrency.**
  - The atomics are plain fields, and the compare-and-swap loop of
    `update_state` is one assignment.
  - Interleavings of the hook thread with `stop`/`pause` from other threads
    are not modelled.
  - `Core::start` blocking in the loop is split into `Start` and `LoopExit`.
- **Callbacks.** The subscriber closures are opaque. `Dispatch` reports
  which ids it would invoke, not what they do. `dashmap`'s iteration order
  is not modelled: `Dispatch` picks an arbitrary order.
- `WinListen.Listen.Subscribe`: does not model the wrap-around of
  `NEXT_ID.fetch_add` at 2^64 (windows/listen.rs:81), because ids are `nat`
  and the counter never reaches that in practice.
- `MacListen.Listen.Subscribe`: the same for macos/listen.rs:66.
- **Floating point.** `f64` is idealised as `real`. The wheel division by
  120, the DPI division by 96 and the absolute-coordinate scaling are exact.
- **Casts of `f64` to `i32`.** They truncate toward zero and saturate, as
  Rust does. NaN is not modelled.
- **Windows listener relative move.** `handle_mouse_move` builds the move
  from `f64` deltas, although `Point` has `i32` fields. The model keeps the
  `i32` deltas of the raw packet.
- **Windows `add_event` on a move.** It passes the `i32` delta to an `f64`
  parameter. The model converts it to `real`.
- **Failures the model assumes away.** `CGEventSource::new(..).unwrap()`
  and `CGEvent::new(..).unwrap()` in the macOS simulator and cursor probe
  are assumed to succeed.
- `MacSimulate.MouseMove`, `MacSimulate.MouseMoveTo`,
  `MacSimulate.MouseWheel`, `MacSimulate.MouseButtonPost`,
  `MacSimulate.KeyboardPost` and `MacSimulate.Simulate` always post an
  event. In the source a failed event creation posts nothing: the
  `if let Ok(event)` sites at macos/simulate.rs:20, 32, 44, 71 and 92.
  The model assumes that creation always succeeds, so it does not capture
  the case where nothing is posted.
- **macOS key table name.** The macOS simulator calls `code_from_key`,
  which is not part of this model. It is taken to be the macOS table's
  `key_to_code`.
- **Display ids.**
  - Comparing the displays' UUIDs is modelled as comparing their display
    ids, because a display has one UUID.
  - The `id` field the macOS monitor sets is not kept in `MonitorInfo`,
    because the declared struct has no such field.
- `WinDisplay.MonitorOfRect`: the rectangle size is exact. The `i32`
  subtraction `right - left` cannot overflow for real monitor rectangles.
- `Display.Contains`: the `i32` sums `offset.0 + size.0` and
  `offset.1 + size.1` (windows/display.rs:104-107, macos/display.rs:76-79)
  are unbounded. Overflow, which would panic in a debug build or wrap in a
  release build, is not modelled; real monitor bounds stay far from the
  `i32` limits.
- **Plain getters.** `get_primary_screen_size`,
  `get_virtual_screen_boundary` and `initialize_dpi_awareness` read system
  metrics and nothing else. Their values are parameters where used.
- **Thin wrappers.** The Windows `Simulate::mouse_move`, `mouse_wheel`,
  `mouse_button` and `keyboard` wrappers each build one builder, call one
  primitive and send. `mouse_move` takes `f64` deltas that no `Event`
  carries, so it is covered by `InputBuilder.AddMouseMove` and `Send`. The
  other three are covered by `AddMouseWheel`, `AddMouseButton` and
  `AddKeyboard`, each followed by `Send`. `is_runing` is the `IsRunning`
  function of each class.
- `MacSimulate.MouseMove`: states only that the target is in `i32`.
  `MouseMoveIsRelative` gives the exact target for whole-pixel cursors,
  because Quartz cursor locations may be fractional.
- `WinListen.Handle`: its contract states only the gating. The per-message
  results are in the `Handle*` lemmas beside it, which keeps each proof
  small.
- **Linux.** The Linux back end is not part of this model.
