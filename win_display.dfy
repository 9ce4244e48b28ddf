/** Windows monitor enumeration and cursor position.  What the system reports
    (each enumerated monitor's rectangle, `GetMonitorInfoW` and
    `GetDpiForMonitor` outcomes, `GetCursorPos` and `GetMessagePos`) is
    passed in. */
module WinDisplay {
  import opened Events
  import opened Casts
  import opened Display
  import WinCommon

  /** `RECT`: a monitor's rectangle in virtual-screen coordinates. */
  datatype Rect = Rect(left: int, top: int, right: int, bottom: int)

  /** What a successful `GetMonitorInfoW` reports: `dwFlags` and the device
      name buffer. */
  datatype MonitorInfoEx = MonitorInfoEx(flags: bv32, device: string)

  /** One call of the enumeration callback: the rectangle, the monitor info
      (`None` when `GetMonitorInfoW` fails) and the effective horizontal DPI
      (`None` when `GetDpiForMonitor` fails). */
  datatype EnumEntry = EnumEntry(rect: Rect, info: Option<MonitorInfoEx>, dpi: Option<nat>)

  /** `MONITORINFOF_PRIMARY`. */
  const MonitorInfoFPrimary: bv32 := 1

  /** The NUL characters at the front of a name removed. */
  function TrimLeadingNul(s: string): (t: string)
    ensures |t| <= |s| && t == s[|s| - |t|..]
    ensures forall i :: 0 <= i < |s| - |t| ==> s[i] == '\0'
    ensures |t| > 0 ==> t[0] != '\0'
    decreases |s|
  {
    if |s| > 0 && s[0] == '\0' then TrimLeadingNul(s[1..]) else s
  }

  /** The NUL characters at the back of a name removed. */
  function TrimTrailingNul(s: string): (t: string)
    ensures |t| <= |s| && t == s[..|t|]
    ensures forall i :: |t| <= i < |s| ==> s[i] == '\0'
    ensures |t| > 0 ==> t[|t| - 1] != '\0'
    decreases |s|
  {
    if |s| > 0 && s[|s| - 1] == '\0' then TrimTrailingNul(s[..|s| - 1]) else s
  }

  /** Every character of the string is NUL. */
  predicate OnlyNul(s: string) {
    forall i :: 0 <= i < |s| ==> s[i] == '\0'
  }

  /** `trim_matches('\0')`: the name without NULs at either end; a name
      without NULs is kept as it is. */
  function TrimNul(s: string): (t: string)
    ensures exists a, b :: 0 <= a <= b <= |s| && t == s[a..b] && OnlyNul(s[..a]) && OnlyNul(s[b..])
    ensures |t| > 0 ==> t[0] != '\0' && t[|t| - 1] != '\0'
    ensures (forall i :: 0 <= i < |s| ==> s[i] != '\0') ==> t == s
  {
    var front := TrimLeadingNul(s);
    var t := TrimTrailingNul(front);
    assert |t| > 0 ==> t[0] == front[0];
    var a := |s| - |front|;
    var b := a + |t|;
    assert s[a..b] == t;
    assert s[b..] == front[|t|..];
    assert OnlyNul(s[..a]);
    assert OnlyNul(s[b..]);
    t
  }

  /** The `MonitorInfo` `monitor_enum_proc` builds: offset at the top-left
      corner, size from the corner to the bottom-right, primary when the
      primary flag is set, and the scale factor the effective DPI over the
      standard 96 (0 when the DPI query fails and leaves it unset). */
  function MonitorOfRect(r: Rect, info: MonitorInfoEx, dpi: Option<nat>): (m: MonitorInfo)
    ensures m.offset == Point(r.left, r.top) && m.size == Point(r.right - r.left, r.bottom - r.top)
    ensures m.isPrimary <==> info.flags & MonitorInfoFPrimary != 0
    ensures m.name == TrimNul(info.device)
    ensures m.scaleFactor == if dpi.Some? then dpi.value as real / 96.0 else 0.0
  {
    MonitorInfo(
      TrimNul(info.device),
      info.flags & MonitorInfoFPrimary != 0,
      Point(r.left, r.top),
      Point(r.right - r.left, r.bottom - r.top),
      if dpi.Some? then dpi.value as real / 96.0 else 0.0)
  }

  /** The monitor covers exactly its rectangle, right and bottom edges
      excluded, and reports the standard DPI as scale 1. */
  lemma {:induction false} MonitorOfRectCoversRect(r: Rect, info: MonitorInfoEx, dpi: Option<nat>, x: int, y: int)
    ensures Contains(MonitorOfRect(r, info, dpi), x, y) <==> r.left <= x < r.right && r.top <= y < r.bottom
    ensures dpi == Some(96) ==> MonitorOfRect(r, info, dpi).scaleFactor == 1.0
  {
    var m := MonitorOfRect(r, info, dpi);
    assert m.offset.x + m.size.x == r.right;
    assert m.offset.y + m.size.y == r.bottom;
  }

  /** The monitor a callback with readable info pushes. */
  function MonitorOf(e: EnumEntry): MonitorInfo
    requires e.info.Some?
  {
    MonitorOfRect(e.rect, e.info.value, e.dpi)
  }

  /** The positions of the callbacks whose monitor info could be read:
      increasing, and every such position listed. */
  function Readable(entries: seq<EnumEntry>): (idx: seq<nat>)
    ensures forall j :: 0 <= j < |idx| ==> idx[j] < |entries| && entries[idx[j]].info.Some?
    ensures forall j, k :: 0 <= j < k < |idx| ==> idx[j] < idx[k]
    ensures forall i :: 0 <= i < |entries| && entries[i].info.Some? ==> i in idx
    decreases |entries|
  {
    if |entries| == 0 then []
    else
      var n := |entries| - 1;
      var front := Readable(entries[..n]);
      assert forall j :: 0 <= j < |front| ==> entries[front[j]] == entries[..n][front[j]];
      assert forall i :: 0 <= i < n ==> entries[i] == entries[..n][i];
      front + (if entries[n].info.Some? then [n] else [])
  }

  /** What the enumeration collects: the monitor of each callback whose
      monitor info could be read, in enumeration order, and nothing for the
      others. */
  function Collected(entries: seq<EnumEntry>): (ms: seq<MonitorInfo>)
    ensures |ms| == |Readable(entries)|
    ensures forall j :: 0 <= j < |ms| ==> ms[j] == MonitorOf(entries[Readable(entries)[j]])
    decreases |entries|
  {
    if |entries| == 0 then []
    else
      var n := |entries| - 1;
      var front := Collected(entries[..n]);
      var ms := front + (if entries[n].info.Some? then [MonitorOf(entries[n])] else []);
      CollectedStep(entries, front, ms);
      ms
  }

  /** One more callback keeps the collected list in step with the readable
      positions. */
  lemma CollectedStep(entries: seq<EnumEntry>, front: seq<MonitorInfo>, ms: seq<MonitorInfo>)
    requires |entries| > 0
    requires |front| == |Readable(entries[..|entries| - 1])|
    requires forall j :: 0 <= j < |front| ==> front[j] == MonitorOf(entries[..|entries| - 1][Readable(entries[..|entries| - 1])[j]])
    requires ms == front + (if entries[|entries| - 1].info.Some? then [MonitorOf(entries[|entries| - 1])] else [])
    ensures |ms| == |Readable(entries)|
    ensures forall j :: 0 <= j < |ms| ==> ms[j] == MonitorOf(entries[Readable(entries)[j]])
  {
    var n := |entries| - 1;
    var idx := Readable(entries[..n]);
    assert Readable(entries) == idx + (if entries[n].info.Some? then [n] else []);
    forall j | 0 <= j < |ms|
      ensures ms[j] == MonitorOf(entries[Readable(entries)[j]])
    {
      if j < |front| {
        assert Readable(entries)[j] == idx[j];
        assert entries[..n][idx[j]] == entries[idx[j]];
      }
    }
  }

  /** When every callback's info can be read, every position is readable,
      in order. */
  lemma {:induction false} AllReadable(entries: seq<EnumEntry>)
    requires forall i :: 0 <= i < |entries| ==> entries[i].info.Some?
    ensures Readable(entries) == seq(|entries|, i => i)
    decreases |entries|
  {
    if |entries| > 0 {
      var n := |entries| - 1;
      AllReadable(entries[..n]);
      assert Readable(entries) == Readable(entries[..n]) + [n];
    }
  }

  /** When every callback's info can be read, one monitor per callback is
      collected, in enumeration order. */
  lemma CollectedAllReadable(entries: seq<EnumEntry>)
    requires forall i :: 0 <= i < |entries| ==> entries[i].info.Some?
    ensures |Collected(entries)| == |entries|
    ensures forall i :: 0 <= i < |entries| ==> Collected(entries)[i] == MonitorOf(entries[i])
  {
    AllReadable(entries);
  }

  /** The vector `monitor_enum_proc` pushes into. */
  class MonitorCollector {
    var monitors: seq<MonitorInfo>

    constructor ()
      ensures monitors == []
    {
      monitors := [];
    }

    /** `monitor_enum_proc`: pushes the monitor when its info can be read,
        skips it otherwise, and always asks the enumeration to go on. */
    method EnumProc(e: EnumEntry) returns (proceed: bool)
      modifies this
      ensures proceed
      ensures monitors == old(monitors) + (if e.info.Some? then [MonitorOfRect(e.rect, e.info.value, e.dpi)] else [])
    {
      if e.info.Some? {
        monitors := monitors + [MonitorOfRect(e.rect, e.info.value, e.dpi)];
      }
      proceed := true;
    }
  }

  /** `get_available_monitors`: the callback run once per monitor the
      system enumerates. */
  method AvailableMonitors(entries: seq<EnumEntry>) returns (monitors: seq<MonitorInfo>)
    ensures monitors == Collected(entries)
  {
    var collector := new MonitorCollector();
    var i := 0;
    while i < |entries|
      invariant 0 <= i <= |entries|
      invariant collector.monitors == Collected(entries[..i])
    {
      var _ := collector.EnumProc(entries[i]);
      assert entries[..i + 1][..i] == entries[..i];
      i := i + 1;
    }
    assert entries[..i] == entries;
    monitors := collector.monitors;
  }

  /** `get_scale_factor`: the primary monitor's scale factor, 1 when no
      monitor is primary. */
  function ScaleFactor(monitors: seq<MonitorInfo>): (s: real)
    ensures (forall i :: 0 <= i < |monitors| ==> !monitors[i].isPrimary) ==> s == 1.0
    ensures forall i :: (0 <= i < |monitors| && monitors[i].isPrimary &&
                         forall j :: 0 <= j < i ==> !monitors[j].isPrimary) ==> s == monitors[i].scaleFactor
  {
    var p := PrimaryMonitor(monitors);
    if p.Some? then p.value.scaleFactor else 1.0
  }

  /** `get_cursor_position`: the `GetCursorPos` point when it succeeds;
      otherwise the `GetMessagePos` word, x from its low half and y from its
      high half, each read as a signed 16-bit value. */
  function CursorPosition(cursor: Option<(int, int)>, messagePos: bv32): (p: (int, int))
    ensures cursor.Some? ==> p == cursor.value
    ensures cursor.None? ==> -0x8000 <= p.0 < 0x8000 && -0x8000 <= p.1 < 0x8000
    ensures cursor.None? ==> p == (SignExtend16(WinCommon.LoWord(messagePos)), SignExtend16(WinCommon.HiWord(messagePos)))
  {
    if cursor.Some? then cursor.value
    else (SignExtend16(WinCommon.LoWord(messagePos)), SignExtend16(WinCommon.HiWord(messagePos)))
  }

  /** The two halves of a packed message position are read back apart. */
  lemma PackedWords(lo: bv16, hi: bv16)
    ensures WinCommon.LoWord(((hi as bv32) << 16) | lo as bv32) == lo
    ensures WinCommon.HiWord(((hi as bv32) << 16) | lo as bv32) == hi
  {
  }

  /** A signed 16-bit value stored modulo 2^16 is read back as itself. */
  lemma SignExtendResidue(n: int, w: bv16)
    requires -0x8000 <= n < 0x8000 && w as int == n % 0x1_0000
    ensures SignExtend16(w) == n
  {
    var v := w as int;
    if n >= 0 {
      assert v == n;
    } else {
      assert v == n + 0x1_0000;
    }
  }

  /** The fallback loses nothing for a point within 16 bits: packing `x` and
      `y` (each modulo 2^16) into a message position gives them back, so
      negative coordinates left of or above the primary monitor survive. */
  lemma {:induction false} CursorFallbackRoundTrip(x: int, y: int, lo: bv16, hi: bv16)
    requires -0x8000 <= x < 0x8000 && -0x8000 <= y < 0x8000
    requires lo as int == x % 0x1_0000 && hi as int == y % 0x1_0000
    ensures CursorPosition(None, ((hi as bv32) << 16) | lo as bv32) == (x, y)
  {
    PackedWords(lo, hi);
    SignExtendResidue(x, lo);
    SignExtendResidue(y, hi);
  }

  /** `get_current_monitor`: the monitor under the cursor. */
  function CurrentMonitor(monitors: seq<MonitorInfo>, cursor: Option<(int, int)>, messagePos: bv32): (r: Option<MonitorInfo>)
    ensures var p := CursorPosition(cursor, messagePos);
            (r.None? <==> forall i :: 0 <= i < |monitors| ==> !Contains(monitors[i], p.0, p.1)) &&
            (r.Some? ==> r.value in monitors && Contains(r.value, p.0, p.1))
  {
    var p := CursorPosition(cursor, messagePos);
    MonitorFromPoint(monitors, p.0, p.1)
  }
}
