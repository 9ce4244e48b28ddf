/** Monitor lookup shared by both platforms: `get_monitor_from_point` and
    `get_primary_monitor` are first-match searches over the monitor list,
    which each platform builds from the system and which is a parameter
    here. */
module Display {
  import opened Events

  /** A monitor covers the half-open rectangle from its offset to its offset
      plus its size. */
  predicate Contains(m: MonitorInfo, x: int, y: int): (b: bool)
    ensures b ==> m.size.x > 0 && m.size.y > 0
  {
    m.offset.x <= x < m.offset.x + m.size.x && m.offset.y <= y < m.offset.y + m.size.y
  }

  /** `get_monitor_from_point`: the first monitor that covers the point, or
      `None` when none does. */
  function MonitorFromPoint(monitors: seq<MonitorInfo>, x: int, y: int): (r: Option<MonitorInfo>)
    ensures r.None? <==> forall i :: 0 <= i < |monitors| ==> !Contains(monitors[i], x, y)
    ensures r.Some? ==> exists i :: 0 <= i < |monitors| && monitors[i] == r.value && Contains(r.value, x, y) &&
                                    forall j :: 0 <= j < i ==> !Contains(monitors[j], x, y)
    decreases |monitors|
  {
    if |monitors| == 0 then None
    else if Contains(monitors[0], x, y) then Some(monitors[0])
    else
      var r := MonitorFromPoint(monitors[1..], x, y);
      assert forall i :: 1 <= i < |monitors| ==> monitors[i] == monitors[1..][i - 1];
      r
  }

  /** `get_primary_monitor`: the first monitor marked primary, or `None`. */
  function PrimaryMonitor(monitors: seq<MonitorInfo>): (r: Option<MonitorInfo>)
    ensures r.None? <==> forall i :: 0 <= i < |monitors| ==> !monitors[i].isPrimary
    ensures r.Some? ==> exists i :: 0 <= i < |monitors| && monitors[i] == r.value && r.value.isPrimary &&
                                    forall j :: 0 <= j < i ==> !monitors[j].isPrimary
    decreases |monitors|
  {
    if |monitors| == 0 then None
    else if monitors[0].isPrimary then Some(monitors[0])
    else
      var r := PrimaryMonitor(monitors[1..]);
      assert forall i :: 1 <= i < |monitors| ==> monitors[i] == monitors[1..][i - 1];
      r
  }

  /** Two monitors lie side by side: one ends, horizontally or vertically,
      where the other has not yet begun, so no point is covered by both. */
  predicate Disjoint(a: MonitorInfo, b: MonitorInfo) {
    a.offset.x + a.size.x <= b.offset.x || b.offset.x + b.size.x <= a.offset.x ||
    a.offset.y + a.size.y <= b.offset.y || b.offset.y + b.size.y <= a.offset.y
  }

  /** Every two different monitors of the list are disjoint. */
  predicate NonOverlapping(monitors: seq<MonitorInfo>) {
    forall i, j :: 0 <= i < j < |monitors| ==> Disjoint(monitors[i], monitors[j])
  }

  /** In a list of non-overlapping monitors every point a monitor covers
      resolves to that monitor. */
  lemma {:induction false} CoveredPointResolves(monitors: seq<MonitorInfo>, k: int, x: int, y: int)
    requires NonOverlapping(monitors)
    requires 0 <= k < |monitors| && Contains(monitors[k], x, y)
    ensures MonitorFromPoint(monitors, x, y) == Some(monitors[k])
  {
    var r := MonitorFromPoint(monitors, x, y);
    assert !r.None?;
    var i :| 0 <= i < |monitors| && monitors[i] == r.value && Contains(r.value, x, y) &&
             forall j :: 0 <= j < i ==> !Contains(monitors[j], x, y);
    if i < k {
      assert false;
    } else if k < i {
      assert false;
    }
  }

  /** The four corners of a non-empty monitor, its offset through its offset
      plus its size less one, all resolve to it. */
  lemma {:induction false} CornersResolve(monitors: seq<MonitorInfo>, k: int, left: int, top: int, right: int, bottom: int)
    requires NonOverlapping(monitors)
    requires 0 <= k < |monitors| && monitors[k].size.x > 0 && monitors[k].size.y > 0
    requires left == monitors[k].offset.x && right == left + monitors[k].size.x - 1
    requires top == monitors[k].offset.y && bottom == top + monitors[k].size.y - 1
    ensures MonitorFromPoint(monitors, left, top) == Some(monitors[k])
    ensures MonitorFromPoint(monitors, right, top) == Some(monitors[k])
    ensures MonitorFromPoint(monitors, left, bottom) == Some(monitors[k])
    ensures MonitorFromPoint(monitors, right, bottom) == Some(monitors[k])
  {
    CoveredPointResolves(monitors, k, left, top);
    CoveredPointResolves(monitors, k, right, top);
    CoveredPointResolves(monitors, k, left, bottom);
    CoveredPointResolves(monitors, k, right, bottom);
  }

  /** The bounds are half-open: a point one pixel past a monitor's right edge
      or past its bottom edge never resolves to that monitor, whatever else
      the list holds. */
  lemma {:induction false} OnePastEdgeMisses(monitors: seq<MonitorInfo>, m: MonitorInfo, x: int, y: int)
    ensures MonitorFromPoint(monitors, m.offset.x + m.size.x, y) != Some(m)
    ensures MonitorFromPoint(monitors, x, m.offset.y + m.size.y) != Some(m)
  {
    assert !Contains(m, m.offset.x + m.size.x, y);
    assert !Contains(m, x, m.offset.y + m.size.y);
  }

  /** The primary monitor is found wherever it stands, provided it is the
      only one marked primary. */
  lemma {:induction false} SolePrimaryFound(monitors: seq<MonitorInfo>, k: int)
    requires 0 <= k < |monitors| && monitors[k].isPrimary
    requires forall i :: 0 <= i < |monitors| && i != k ==> !monitors[i].isPrimary
    ensures PrimaryMonitor(monitors) == Some(monitors[k])
  {
    var r := PrimaryMonitor(monitors);
    assert !r.None?;
    var i :| 0 <= i < |monitors| && monitors[i] == r.value && r.value.isPrimary &&
             forall j :: 0 <= j < i ==> !monitors[j].isPrimary;
    assert i == k;
  }
}
