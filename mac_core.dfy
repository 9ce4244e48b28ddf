/** The macOS capture engine: the running flag, the run loop the event tap
    is attached to, and the tap callback that feeds the listener and asks
    the grabber whether to drop the event.  Each native call the engine
    makes is appended to `calls`; whether creating the tap and its run-loop
    source succeeds is passed in as a parameter. */
module MacCore {
  import opened Events
  import opened Masks
  import opened MacCommon
  import opened MacListen
  import opened MacGrab
  import opened Dispatcher

  /** The tap callback's answer: let the event through or drop it. */
  datatype CallbackResult = Keep | Drop

  /** The native calls the engine makes, in order. */
  datatype OsCall =
    | CreateTap
    | CreateLoopSource
    | RunLoop
    | StopRunLoop

  /** Whatever the listener reports, the grabber could drop: an event type
      that yields an event under a mask is blocked under the same mask. */
  lemma ListenedEventsAreBlockable(state: bv32, lastFlags: bv64, t: CGEventType, raw: RawEvent)
    requires Handle(true, state, lastFlags, t, raw).event.Some?
    ensures ShouldBlock(true, state, t)
  {
    ShouldBlockByCategory(true, state, t);
  }

  /** `IS_CORE_RUNNING` and `CORE_RUN_LOOP` (here only whether it is set),
      with the listener and grabber the callback consults. */
  class Core {
    var running: bool
    var runLoop: bool
    /** Whether a call of `start` is blocked in `CFRunLoopRun`. */
    var inLoop: bool
    var calls: seq<OsCall>
    const listen: Listen
    const grab: Grab

    /** The initial state: stopped, no run loop recorded. */
    constructor (listen: Listen, grab: Grab)
      ensures this.listen == listen && this.grab == grab
      ensures !running && !runLoop && !inLoop && calls == []
    {
      this.listen := listen;
      this.grab := grab;
      running := false;
      runLoop := false;
      inLoop := false;
      calls := [];
    }

    /** `start` and `set_hook`, up to the run loop.  The compare-and-swap
        claims the running flag; a start while running returns `Ok` at once.
        Otherwise the tap is created for the interest list, then its
        run-loop source; either failure is returned at once without
        releasing the flag.  On success the current run loop is recorded and
        run: `None` means the call has not returned, it is blocked in the
        loop until `LoopExit`. */
    method Start(tapCreated: bool, sourceCreated: bool) returns (r: Option<CoreResult>)
      modifies this`running, this`runLoop, this`inLoop, this`calls
      ensures running
      ensures old(running) ==> r == Some(Ok) && calls == old(calls)
      ensures !old(running) && !tapCreated ==> r == Some(Err(MacEventTapError)) && calls == old(calls) + [CreateTap]
      ensures !old(running) && tapCreated && !sourceCreated ==>
                r == Some(Err(MacLoopSourceError)) && calls == old(calls) + [CreateTap, CreateLoopSource]
      ensures r.None? <==> !old(running) && tapCreated && sourceCreated
      ensures r.None? ==> runLoop && inLoop && calls == old(calls) + [CreateTap, CreateLoopSource, RunLoop]
      ensures r.Some? ==> runLoop == old(runLoop) && inLoop == old(inLoop)
    {
      if running {
        return Some(Ok);
      }
      running := true;
      calls := calls + [CreateTap];
      if !tapCreated {
        return Some(Err(MacEventTapError));
      }
      calls := calls + [CreateLoopSource];
      if !sourceCreated {
        return Some(Err(MacLoopSourceError));
      }
      runLoop := true;
      calls := calls + [RunLoop];
      inLoop := true;
      r := None;
    }

    /** The rest of `start`, once the run loop returns: the recorded run loop
        is cleared, the engine is stopped and `start` returns `Ok`. */
    method LoopExit() returns (r: CoreResult)
      requires inLoop
      modifies this`running, this`runLoop, this`inLoop, this`calls, listen`running, listen`flag, listen.registry, grab
      ensures r == Ok && !inLoop && !runLoop && !running
      ensures !listen.running && listen.flag == 0 && listen.registry.Valid()
      ensures listen.registry.callbacks == map[] && listen.registry.nextId == 0
      ensures !grab.running && grab.flag == 0
      ensures calls == old(calls)
    {
      runLoop := false;
      inLoop := false;
      Stop();
      r := Ok;
    }

    /** `is_runing`. */
    function IsRunning(): bool
      reads this
    {
      running
    }

    /** `pause`: clears the running flag only. */
    method Pause()
      modifies this`running
      ensures !running
    {
      running := false;
    }

    /** `resume`: sets the running flag only. */
    method Resume()
      modifies this`running
      ensures running
    {
      running := true;
    }

    /** `stop`: clears the running flag, stops the listener (mask, flag and
        subscribers) and the grabber, and asks the recorded run loop, if
        any, to stop.  The record itself is left for `start` to clear. */
    method Stop()
      modifies this`running, this`calls, listen`running, listen`flag, listen.registry, grab
      ensures !running && runLoop == old(runLoop) && inLoop == old(inLoop)
      ensures !listen.running && listen.flag == 0 && listen.registry.Valid()
      ensures listen.registry.callbacks == map[] && listen.registry.nextId == 0
      ensures !grab.running && grab.flag == 0
      ensures calls == old(calls) + (if runLoop then [StopRunLoop] else [])
    {
      Pause();
      listen.Stop();
      grab.Stop();
      if runLoop {
        calls := calls + [StopRunLoop];
      }
    }

    /** `hook_event_callback`: while the engine is stopped every event is
        kept untouched.  Otherwise the listener handles the event (moving
        its modifier snapshot and dispatching what it reports) and the event
        is dropped exactly when the grabber blocks its type; a dropped event
        pins the cursor in place when the grab mask covers mouse moves. */
    method Callback(t: CGEventType, raw: RawEvent)
      returns (event: Option<Event>, invoked: seq<nat>, result: CallbackResult, warped: bool)
      modifies listen`lastFlags
      ensures !running ==> event == None && invoked == [] && result == Keep && !warped
      ensures !running ==> listen.lastFlags == old(listen.lastFlags)
      ensures running ==> var h := Handle(listen.running, listen.flag, old(listen.lastFlags), t, raw);
                          event == h.event && listen.lastFlags == h.lastFlags
      ensures event.None? ==> invoked == []
      ensures event.Some? ==> forall id :: id in invoked <==> id in ActiveIds(listen.registry.callbacks)
      ensures result == Drop <==> running && ShouldBlock(grab.running, grab.flag, t)
      ensures warped <==> result == Drop && HasBit(grab.flag, MouseMoveBit)
    {
      event, invoked, result, warped := None, [], Keep, false;
      if !running {
        return;
      }
      event, invoked := listen.HandleEvent(t, raw);
      if ShouldBlock(grab.running, grab.flag, t) {
        if HasBit(grab.flag, MouseMoveBit) {
          warped := true;
        }
        result := Drop;
      }
    }
  }

  /** A start whose tap cannot be created reports the error but leaves the
      engine marked running, so the next start returns `Ok` without trying
      again or running the loop. */
  method FailedTapBlocksRestart() returns (first: Option<CoreResult>, second: Option<CoreResult>, trace: seq<OsCall>)
    ensures first == Some(Err(MacEventTapError))
    ensures second == Some(Ok)
    ensures trace == [CreateTap]
  {
    var registry := new Registry();
    var listen := new Listen(registry);
    var grab := new Grab();
    var core := new Core(listen, grab);
    first := core.Start(false, true);
    second := core.Start(true, true);
    trace := core.calls;
  }

  /** A full session: `start` blocks in the run loop; an outside `stop` asks
      the loop to stop; when it returns, `start` stops everything again,
      which no longer finds a run loop to stop, and returns `Ok`. */
  method StartStopCycle() returns (entered: Option<CoreResult>, exited: CoreResult, trace: seq<OsCall>, running: bool)
    ensures entered == None && exited == Ok && !running
    ensures trace == [CreateTap, CreateLoopSource, RunLoop, StopRunLoop]
  {
    var registry := new Registry();
    var listen := new Listen(registry);
    var grab := new Grab();
    var core := new Core(listen, grab);
    entered := core.Start(true, true);
    core.Stop();
    exited := core.LoopExit();
    trace := core.calls;
    running := core.running;
  }
}
