/** The Windows capture engine: the running flag, the two low-level hook
    slots, the id of the thread that runs the message loop and the hidden
    raw-input window, together with the two native callbacks.  Each native
    call the engine makes is appended to `calls`; what the operating system
    answers is passed in as a parameter. */
module WinCore {
  import opened Events
  import opened Masks
  import opened WinCommon
  import opened WinListen
  import opened WinGrab
  import opened Dispatcher

  /** `HC_ACTION`: the hook code of a real input event. */
  const HcAction: int := 0

  datatype HookKind = MouseHook | KeyboardHook

  /** What a native call that creates something answers: a non-null handle,
      or the text of the error. */
  datatype OsResult = Success(handle: nat) | Failure(message: string)

  /** The native calls the engine makes, in order. */
  datatype OsCall =
    | CreateMessageWindow
    | SetHook(kind: HookKind)
    | RunMessageLoop(threadId: nat)
    | UnhookHook(hook: nat)
    | PostThreadQuit(threadId: nat)
    | PostWindowQuit(hwnd: nat)

  /** The hook callback's answer: hand the event on (`CallNextHookEx`) or
      swallow it (`LRESULT(1)`). */
  datatype HookVerdict = PassOn | Block

  /** The window procedure's answer: handled (`LRESULT(0)`) or left to
      `DefWindowProcW`. */
  datatype WindowVerdict = Handled | DefaultProc

  /** The error `handle_hook` reports when installing a hook fails. */
  function HookError(kind: HookKind, message: string): (e: CoreError)
    ensures kind == MouseHook ==> e == WindowsMouseHookError(message)
    ensures kind == KeyboardHook ==> e == WindowsKeyHookError(message)
  {
    match kind
    case MouseHook => WindowsMouseHookError(message)
    case KeyboardHook => WindowsKeyHookError(message)
  }

  /** The unhook call `unhook` makes for a slot: one for an occupied slot,
      none for an empty one. */
  function UnhookCalls(slot: Option<nat>): (c: seq<OsCall>)
    ensures |c| <= 1
    ensures c == [] <==> slot.None?
    ensures slot.Some? ==> c == [UnhookHook(slot.value)]
  {
    match slot
    case None => []
    case Some(hook) => [UnhookHook(hook)]
  }

  /** Whatever the listener reports, the grabber could swallow: a message
      that yields an event under a mask is blocked under the same mask. */
  lemma ListenedMessagesAreBlockable(state: bv32, msg: int, mouse: MouseHookRecord, kb: KbdHookRecord)
    requires Handle(true, state, msg, mouse, kb).Some?
    ensures ShouldBlock(state, msg)
  {
    ShouldBlockByCategory(state, msg);
  }

  /** `IS_CORE_RUNNING`, `MOUSE_HOOK`, `KEYBOARD_HOOK`, `CORE_THREAD_ID` and
      `GLOBAL_HWND` (`None` stands for a null handle), with the listener and
      grabber the callbacks consult. */
  class Core {
    var running: bool
    var mouseHook: Option<nat>
    var keyboardHook: Option<nat>
    var threadId: nat
    var hwnd: Option<nat>
    var calls: seq<OsCall>
    /** Whether a call of `start` is blocked in the message loop. */
    var inLoop: bool
    const listen: Listen
    const grab: Grab

    /** The initial state: stopped, no hook, no thread, no window. */
    constructor (listen: Listen, grab: Grab)
      ensures this.listen == listen && this.grab == grab
      ensures !running && mouseHook == None && keyboardHook == None && threadId == 0 && hwnd == None
      ensures calls == [] && !inLoop
    {
      this.listen := listen;
      this.grab := grab;
      running := false;
      mouseHook := None;
      keyboardHook := None;
      threadId := 0;
      hwnd := None;
      calls := [];
      inLoop := false;
    }

    function Slot(kind: HookKind): Option<nat>
      reads this
    {
      match kind
      case MouseHook => mouseHook
      case KeyboardHook => keyboardHook
    }

    /** `handle_hook`: an occupied slot is left alone and reported as success;
        otherwise the hook is installed and stored, or its failure is mapped
        to the error of that hook kind and the slot stays empty. */
    method HandleHook(kind: HookKind, outcome: OsResult) returns (r: CoreResult)
      modifies this`mouseHook, this`keyboardHook, this`calls
      ensures old(Slot(kind)).Some? ==> r == Ok && calls == old(calls)
      ensures old(Slot(kind)).None? ==> calls == old(calls) + [SetHook(kind)]
      ensures old(Slot(kind)).None? && outcome.Success? ==> r == Ok && Slot(kind) == Some(outcome.handle)
      ensures old(Slot(kind)).None? && outcome.Failure? ==> r == Err(HookError(kind, outcome.message))
      ensures r.Err? ==> Slot(kind) == None
      ensures old(Slot(kind)).Some? || outcome.Failure? ==> Slot(kind) == old(Slot(kind))
      ensures kind == MouseHook ==> keyboardHook == old(keyboardHook)
      ensures kind == KeyboardHook ==> mouseHook == old(mouseHook)
    {
      if Slot(kind).Some? {
        return Ok;
      }
      calls := calls + [SetHook(kind)];
      match outcome
      case Success(hook) =>
        if kind == MouseHook {
          mouseHook := Some(hook);
        } else {
          keyboardHook := Some(hook);
        }
        r := Ok;
      case Failure(message) =>
        r := Err(HookError(kind, message));
    }

    /** `unhook`: empties the slot, and calls the uninstaller only when the
        slot held a hook. */
    method Unhook(kind: HookKind)
      modifies this`mouseHook, this`keyboardHook, this`calls
      ensures Slot(kind) == None
      ensures calls == old(calls) + UnhookCalls(old(Slot(kind)))
      ensures kind == MouseHook ==> keyboardHook == old(keyboardHook)
      ensures kind == KeyboardHook ==> mouseHook == old(mouseHook)
    {
      var hook := Slot(kind);
      if kind == MouseHook {
        mouseHook := None;
      } else {
        keyboardHook := None;
      }
      if hook.Some? {
        calls := calls + [UnhookHook(hook.value)];
      }
    }

    /** `start`, up to the message loop.  The compare-and-swap claims the
        running flag; a start while running returns `Ok` at once.  Otherwise
        it creates the raw-input window if there is none, installs the mouse
        hook and then the keyboard hook (each failure is returned at once,
        without releasing the flag), records `currentThread` and enters the
        message loop.  `None` means the call has not returned: it is blocked
        in the loop until `LoopExit`. */
    method Start(window: OsResult, mouse: OsResult, keyboard: OsResult, currentThread: nat) returns (r: Option<CoreResult>)
      modifies this
      ensures running
      ensures old(running) ==> r == Some(Ok) && calls == old(calls) && inLoop == old(inLoop) &&
                               mouseHook == old(mouseHook) && keyboardHook == old(keyboardHook) &&
                               threadId == old(threadId) && hwnd == old(hwnd)
      ensures !old(running) && old(hwnd).None? && window.Failure? ==>
                r == Some(Err(WindowsRegisterRawInputError(window.message)))
      ensures !old(running) && (old(hwnd).Some? || window.Success?) && old(mouseHook).None? && mouse.Failure? ==>
                r == Some(Err(WindowsMouseHookError(mouse.message)))
      ensures !old(running) && (old(hwnd).Some? || window.Success?) && (old(mouseHook).Some? || mouse.Success?) &&
              old(keyboardHook).None? && keyboard.Failure? ==>
                r == Some(Err(WindowsKeyHookError(keyboard.message)))
      ensures r.None? <==> !old(running) &&
                           (old(hwnd).Some? || window.Success?) && (old(mouseHook).Some? || mouse.Success?) &&
                           (old(keyboardHook).Some? || keyboard.Success?)
      ensures r.None? ==> inLoop && threadId == currentThread
      ensures r.None? ==> hwnd == (if old(hwnd).None? then Some(window.handle) else old(hwnd))
      ensures r.None? ==> mouseHook == (if old(mouseHook).None? then Some(mouse.handle) else old(mouseHook))
      ensures r.None? ==> keyboardHook == (if old(keyboardHook).None? then Some(keyboard.handle) else old(keyboardHook))
      ensures r.None? ==> calls == old(calls) + (if old(hwnd).None? then [CreateMessageWindow] else []) +
                                   (if old(mouseHook).None? then [SetHook(MouseHook)] else []) +
                                   (if old(keyboardHook).None? then [SetHook(KeyboardHook)] else []) +
                                   [RunMessageLoop(currentThread)]
      ensures r.Some? ==> forall t :: RunMessageLoop(t) in calls ==> RunMessageLoop(t) in old(calls)
      ensures r.Some? ==> inLoop == old(inLoop)
      ensures r.Some? && !old(running) ==> r.value.Err?
      ensures r.Some? && r.value.Err? ==> keyboardHook == old(keyboardHook) && threadId == old(threadId)
      ensures r.Some? && r.value.Err? && !r.value.error.WindowsKeyHookError? ==> mouseHook == old(mouseHook)
      ensures r.Some? && r.value.Err? && r.value.error.WindowsKeyHookError? ==>
                mouseHook == (if old(mouseHook).None? then Some(mouse.handle) else old(mouseHook))
      ensures r.Some? && r.value.Err? && !r.value.error.WindowsRegisterRawInputError? ==>
                hwnd == (if old(hwnd).None? then Some(window.handle) else old(hwnd))
      ensures r.Some? && r.value.Err? && r.value.error.WindowsRegisterRawInputError? ==> hwnd == old(hwnd)
    {
      if running {
        return Some(Ok);
      }
      running := true;
      if hwnd.None? {
        calls := calls + [CreateMessageWindow];
        match window
        case Failure(message) =>
          return Some(Err(WindowsRegisterRawInputError(message)));
        case Success(handle) =>
          hwnd := Some(handle);
      }
      var hooked := HandleHook(MouseHook, mouse);
      if hooked.Err? {
        return Some(hooked);
      }
      hooked := HandleHook(KeyboardHook, keyboard);
      if hooked.Err? {
        return Some(hooked);
      }
      threadId := currentThread;
      calls := calls + [RunMessageLoop(currentThread)];
      inLoop := true;
      r := None;
    }

    /** The rest of `start`, once a quit message ends the loop: the engine is
        stopped and `start` returns `Ok`. */
    method LoopExit() returns (r: CoreResult)
      requires inLoop
      modifies this
      ensures r == Ok && !inLoop
      ensures !running && mouseHook == None && keyboardHook == None && threadId == 0 && hwnd == old(hwnd)
      ensures calls == old(calls) + UnhookCalls(old(mouseHook)) + UnhookCalls(old(keyboardHook)) +
                       (if old(threadId) != 0 then [PostThreadQuit(old(threadId))] else []) +
                       (if hwnd.Some? then [PostWindowQuit(hwnd.value)] else [])
    {
      inLoop := false;
      Stop();
      r := Ok;
    }

    /** `is_runing`. */
    function IsRunning(): bool
      reads this
    {
      running
    }

    /** `pause`: clears the running flag only. */
    method Pause()
      modifies this`running
      ensures !running
    {
      running := false;
    }

    /** `resume`: sets the running flag only. */
    method Resume()
      modifies this`running
      ensures running
    {
      running := true;
    }

    /** `stop`: clears the running flag, uninstalls both hooks, takes the
        thread id (posting it a quit message if it was set) and posts a quit
        message to the raw-input window if there is one.  The window handle
        itself is kept.  Calling it again only re-posts to the window. */
    method Stop()
      modifies this
      ensures !running && mouseHook == None && keyboardHook == None && threadId == 0
      ensures hwnd == old(hwnd) && inLoop == old(inLoop)
      ensures calls == old(calls) + UnhookCalls(old(mouseHook)) + UnhookCalls(old(keyboardHook)) +
                       (if old(threadId) != 0 then [PostThreadQuit(old(threadId))] else []) +
                       (if hwnd.Some? then [PostWindowQuit(hwnd.value)] else [])
    {
      Pause();
      Unhook(MouseHook);
      Unhook(KeyboardHook);
      var thread := threadId;
      threadId := 0;
      if thread != 0 {
        calls := calls + [PostThreadQuit(thread)];
      }
      if hwnd.Some? {
        calls := calls + [PostWindowQuit(hwnd.value)];
      }
    }

    /** `hook_event_callback`: for a real input event (`HC_ACTION`) the
        listener runs first and its event, if any, is dispatched; the event
        is then swallowed exactly when the grabber is running and its mask
        covers the message.  The engine's own running flag is not read. */
    method HookEventCallback(code: int, msg: int, mouse: MouseHookRecord, kb: KbdHookRecord)
      returns (event: Option<Event>, invoked: seq<nat>, verdict: HookVerdict)
      ensures event == if code == HcAction then Handle(listen.running, listen.flag, msg, mouse, kb) else None
      ensures event.None? ==> invoked == []
      ensures event.Some? ==> forall id :: id in invoked <==> id in ActiveIds(listen.registry.callbacks)
      ensures verdict == Block <==> code == HcAction && grab.running && ShouldBlock(grab.flag, msg)
    {
      event, invoked, verdict := None, [], PassOn;
      if code == HcAction {
        event := Handle(listen.running, listen.flag, msg, mouse, kb);
        if event.Some? {
          invoked := listen.registry.Dispatch(event.value);
        }
        if !grab.running {
          return;
        }
        if ShouldBlock(grab.flag, msg) {
          verdict := Block;
        }
      }
    }

    /** The raw-input window procedure: a `WM_INPUT` packet the listener
        consumes is answered directly, with its move (if any) dispatched;
        anything else goes to the default procedure. */
    method WindowProc(msg: int, raw: Option<RawInput>) returns (event: Option<Event>, invoked: seq<nat>, verdict: WindowVerdict)
      ensures verdict == Handled <==> msg == WmInput && HandleMouseMove(listen.running, listen.flag, raw).0
      ensures event == if msg == WmInput then HandleMouseMove(listen.running, listen.flag, raw).1 else None
      ensures event.None? ==> invoked == []
      ensures event.Some? ==> forall id :: id in invoked <==> id in ActiveIds(listen.registry.callbacks)
    {
      event, invoked, verdict := None, [], DefaultProc;
      if msg == WmInput {
        var handled;
        handled, event := HandleMouseMove(listen.running, listen.flag, raw).0, HandleMouseMove(listen.running, listen.flag, raw).1;
        if event.Some? {
          invoked := listen.registry.Dispatch(event.value);
        }
        if handled {
          verdict := Handled;
        }
      }
    }
  }

  /** A start whose mouse hook fails reports the error but leaves the engine
      marked running, so the next start returns `Ok` without installing any
      hook or running the loop. */
  method FailedStartBlocksRestart() returns (first: Option<CoreResult>, second: Option<CoreResult>, hooked: bool, looped: bool)
    ensures first == Some(Err(WindowsMouseHookError("denied")))
    ensures second == Some(Ok)
    ensures !hooked && !looped
  {
    var registry := new Registry();
    var listen := new Listen(registry);
    var grab := new Grab();
    var core := new Core(listen, grab);
    first := core.Start(Success(1), Failure("denied"), Success(2), 7);
    second := core.Start(Success(1), Success(3), Success(2), 7);
    hooked := core.mouseHook.Some? || core.keyboardHook.Some?;
    looped := RunMessageLoop(7) in core.calls;
  }

  /** A full session: `start` blocks in the loop; an outside `stop`
      uninstalls both hooks and posts the quit messages; when the loop
      returns, `start` stops the engine once more, which only re-posts to the
      window, and returns `Ok`. */
  method StartStopCycle() returns (entered: Option<CoreResult>, exited: CoreResult, trace: seq<OsCall>, running: bool)
    ensures entered == None && exited == Ok && !running
    ensures trace == [CreateMessageWindow, SetHook(MouseHook), SetHook(KeyboardHook), RunMessageLoop(7),
                      UnhookHook(1), UnhookHook(2), PostThreadQuit(7), PostWindowQuit(5),
                      PostWindowQuit(5)]
  {
    var registry := new Registry();
    var listen := new Listen(registry);
    var grab := new Grab();
    var core := new Core(listen, grab);
    entered := core.Start(Success(5), Success(1), Success(2), 7);
    assert core.calls == [CreateMessageWindow, SetHook(MouseHook), SetHook(KeyboardHook), RunMessageLoop(7)];
    core.Stop();
    assert core.calls == [CreateMessageWindow, SetHook(MouseHook), SetHook(KeyboardHook), RunMessageLoop(7),
                          UnhookHook(1), UnhookHook(2), PostThreadQuit(7), PostWindowQuit(5)];
    exited := core.LoopExit();
    trace := core.calls;
    running := core.running;
  }
}
