/** macOS monitor enumeration, scale factors and cursor position.  The active
    display list, the main display id, the `NSScreen` list and the probe
    event's location are passed in. */
module MacDisplay {
  import opened Events
  import opened Casts
  import opened Display

  /** One `NSScreen` as `match_scale_factor` sees it: the display id its
      `NSScreenNumber` entry names (`None` when the device description has
      none) and its backing scale factor. */
  datatype Screen = Screen(displayId: Option<nat>, backingScale: real)

  /** `as CGDirectDisplayID`: an `NSUInteger` cut to its low 32 bits. */
  function AsDisplayId(n: nat): (id: nat)
    ensures id < 0x1_0000_0000 && (n < 0x1_0000_0000 ==> id == n)
  {
    n % 0x1_0000_0000
  }

  /** The screen for an `NSScreenNumber` entry and a backing scale. */
  function ScreenOf(number: Option<nat>, backingScale: real): (s: Screen)
    ensures number.None? ==> s.displayId.None?
    ensures number.Some? ==> s.displayId == Some(AsDisplayId(number.value))
  {
    Screen(if number.Some? then Some(AsDisplayId(number.value)) else None, backingScale)
  }

  /** One active display: its id, model number and bounds. */
  datatype ActiveDisplay = ActiveDisplay(id: nat, modelNumber: nat, originX: real, originY: real, width: real, height: real)

  /** Whether a screen describes the display: its number, cut to a display
      id, names the same display. */
  predicate ScreenMatches(s: Screen, id: nat) {
    s.displayId == Some(id)
  }

  /** What `match_scale_factor` finds: the backing scale of the first screen
      that describes the display, 1 when none does. */
  function ScaleFor(id: nat, screens: seq<Screen>): (scale: real)
    ensures (forall i :: 0 <= i < |screens| ==> !ScreenMatches(screens[i], id)) ==> scale == 1.0
    ensures forall i :: (0 <= i < |screens| && ScreenMatches(screens[i], id) &&
                         forall j :: 0 <= j < i ==> !ScreenMatches(screens[j], id)) ==> scale == screens[i].backingScale
    decreases |screens|
  {
    if |screens| == 0 then 1.0
    else if ScreenMatches(screens[0], id) then screens[0].backingScale
    else
      var rest := ScaleFor(id, screens[1..]);
      assert forall i :: 1 <= i < |screens| ==> screens[i] == screens[1..][i - 1];
      rest
  }

  /** `match_scale_factor`: walks the screens and returns at the first one
      that describes the display. */
  method MatchScaleFactor(id: nat, screens: seq<Screen>) returns (scale: real)
    ensures scale == ScaleFor(id, screens)
  {
    var i := 0;
    while i < |screens|
      invariant 0 <= i <= |screens|
      invariant ScaleFor(id, screens[i..]) == ScaleFor(id, screens)
    {
      if ScreenMatches(screens[i], id) {
        return screens[i].backingScale;
      }
      assert screens[i..][1..] == screens[i + 1..];
      i := i + 1;
    }
    scale := 1.0;
  }

  /** The number a string of decimal digits spells, most significant digit
      first. */
  function DigitsValue(s: string): nat
    requires forall i :: 0 <= i < |s| ==> '0' <= s[i] <= '9'
  {
    if |s| == 0 then 0 else DigitsValue(s[..|s| - 1]) * 10 + (s[|s| - 1] as int - '0' as int)
  }

  /** `format!("{}", n)`: the decimal digits of a number, without leading
      zeros, spelling the number. */
  function Decimal(n: nat): (s: string)
    ensures |s| >= 1 && forall i :: 0 <= i < |s| ==> '0' <= s[i] <= '9'
    ensures DigitsValue(s) == n
    ensures |s| > 1 ==> s[0] != '0'
    decreases n
  {
    var digit := [(('0' as int) + n % 10) as char];
    if n < 10 then digit
    else
      var front := Decimal(n / 10);
      assert (front + digit)[..|front + digit| - 1] == front;
      assert (front + digit)[0] == front[0];
      front + digit
  }

  /** The `MonitorInfo` built for one active display: named by its model
      number, primary exactly when it is the main display, bounds cut to
      `i32`. */
  function MonitorOfDisplay(d: ActiveDisplay, mainId: nat, scale: real): (m: MonitorInfo)
    ensures m.isPrimary <==> d.id == mainId
    ensures m.offset == Point(F64ToI32(d.originX), F64ToI32(d.originY))
    ensures m.size == Point(F64ToI32(d.width), F64ToI32(d.height))
    ensures m.name == "Monitor #" + Decimal(d.modelNumber) && m.scaleFactor == scale
  {
    MonitorInfo(
      "Monitor #" + Decimal(d.modelNumber),
      d.id == mainId,
      Point(F64ToI32(d.originX), F64ToI32(d.originY)),
      Point(F64ToI32(d.width), F64ToI32(d.height)),
      scale)
  }

  /** The monitor list for a display list: one monitor per display, in
      order, each with its matched scale. */
  function MonitorsOf(displays: seq<ActiveDisplay>, mainId: nat, screens: seq<Screen>): (ms: seq<MonitorInfo>)
    ensures |ms| == |displays|
    ensures forall i :: 0 <= i < |displays| ==> ms[i] == MonitorOfDisplay(displays[i], mainId, ScaleFor(displays[i].id, screens))
    ensures forall i :: 0 <= i < |displays| ==> (ms[i].isPrimary <==> displays[i].id == mainId)
  {
    seq(|displays|, i requires 0 <= i < |displays| => MonitorOfDisplay(displays[i], mainId, ScaleFor(displays[i].id, screens)))
  }

  /** `get_available_monitors`: nothing when the active display list cannot
      be read, otherwise one monitor per active display. */
  method AvailableMonitors(active: Option<seq<ActiveDisplay>>, mainId: nat, screens: seq<Screen>)
    returns (monitors: seq<MonitorInfo>)
    ensures active.None? ==> monitors == []
    ensures active.Some? ==> monitors == MonitorsOf(active.value, mainId, screens)
  {
    monitors := [];
    if active.None? {
      return;
    }
    var displays := active.value;
    var i := 0;
    while i < |displays|
      invariant 0 <= i <= |displays|
      invariant monitors == MonitorsOf(displays[..i], mainId, screens)
    {
      var scale := MatchScaleFactor(displays[i].id, screens);
      monitors := monitors + [MonitorOfDisplay(displays[i], mainId, scale)];
      assert displays[..i + 1][..i] == displays[..i];
      i := i + 1;
    }
    assert displays[..i] == displays;
  }

  /** When the main display is listed once, it is the primary monitor, and
      `get_scale_factor` (the main display's matched scale) is that
      monitor's scale factor. */
  lemma {:induction false} MainDisplayIsPrimary(displays: seq<ActiveDisplay>, mainId: nat, screens: seq<Screen>, k: int)
    requires 0 <= k < |displays| && displays[k].id == mainId
    requires forall i :: 0 <= i < |displays| && i != k ==> displays[i].id != mainId
    ensures PrimaryMonitor(MonitorsOf(displays, mainId, screens)) == Some(MonitorsOf(displays, mainId, screens)[k])
    ensures PrimaryMonitor(MonitorsOf(displays, mainId, screens)).value.scaleFactor == ScaleFactor(mainId, screens)
  {
    var ms := MonitorsOf(displays, mainId, screens);
    SolePrimaryFound(ms, k);
  }

  /** `get_scale_factor`: the matched scale of the main display. */
  function ScaleFactor(mainId: nat, screens: seq<Screen>): (scale: real)
    ensures (forall i :: 0 <= i < |screens| ==> !ScreenMatches(screens[i], mainId)) ==> scale == 1.0
    ensures forall i :: (0 <= i < |screens| && ScreenMatches(screens[i], mainId) &&
                         forall j :: 0 <= j < i ==> !ScreenMatches(screens[j], mainId)) ==> scale == screens[i].backingScale
  {
    ScaleFor(mainId, screens)
  }

  /** `get_cursor_position`: the probe event's location cut to `i32`, or the
      origin when the probe event cannot be created. */
  function CursorPosition(location: Option<FloatPoint>): (p: (int, int))
    ensures location.None? ==> p == (0, 0)
    ensures location.Some? ==> p == (F64ToI32(location.value.x), F64ToI32(location.value.y))
    ensures IsI32(p.0) && IsI32(p.1)
  {
    if location.Some? then (F64ToI32(location.value.x), F64ToI32(location.value.y)) else (0, 0)
  }

  /** `get_current_monitor`: the monitor under the cursor. */
  function CurrentMonitor(monitors: seq<MonitorInfo>, location: Option<FloatPoint>): (r: Option<MonitorInfo>)
    ensures var p := CursorPosition(location);
            (r.None? <==> forall i :: 0 <= i < |monitors| ==> !Contains(monitors[i], p.0, p.1)) &&
            (r.Some? ==> r.value in monitors && Contains(r.value, p.0, p.1))
  {
    var p := CursorPosition(location);
    MonitorFromPoint(monitors, p.0, p.1)
  }
}
