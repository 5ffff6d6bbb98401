/**
 * The virtual timeline scroll controller (web/src/hooks/useVirtualTimelineScroll.ts).
 *
 * The hook keeps a discrete selected year index in step with a continuous
 * vertical translation `y` of the timeline content. Its refs become the fields
 * of `TimelineScroller`; the DOM readings (clientHeight, scrollHeight, bounding
 * rects) become a `Layout` parameter; frame waits, observers, timers and the
 * window/wheel listeners become explicit event methods that the host calls.
 * Pixels are `real`.
 */
module TimelineScroll {
  import opened Wrappers
  import opened ScrollConfig

  /** `WheelEvent.deltaMode` values. */
  const DOM_DELTA_LINE: int := 1
  const DOM_DELTA_PAGE: int := 2

  /** A line-mode wheel delta is this many pixels. */
  const LINE_HEIGHT_PX: real := 16.0

  /** A page-mode wheel delta uses this height when the viewport reports 0. */
  const PAGE_FALLBACK_PX: real := 400.0

  /** The measured position is re-clamped only when it is out of range by more than this. */
  const CLAMP_TOLERANCE_PX: real := 0.1

  /** Re-anchoring after a remeasure moves `y` only when it is off target by more than this. */
  const REANCHOR_TOLERANCE_PX: real := 2.0

  function Abs(x: real): real { if x < 0.0 then -x else x }

  function Max(a: real, b: real): real { if a >= b then a else b }

  function Min(a: real, b: real): real { if a <= b then a else b }

  // ---------------------------------------------------------------------------
  // Clamp and target position
  // ---------------------------------------------------------------------------

  /** `clampY`: `Math.max(-maxScroll, Math.min(0, value))`. */
  function ClampY(maxScroll: real, v: real): (r: real)
    ensures maxScroll >= 0.0 ==> -maxScroll <= r <= 0.0
    ensures -maxScroll <= v <= 0.0 ==> r == v
    ensures maxScroll >= 0.0 && v > 0.0 ==> r == 0.0
    ensures v < -maxScroll ==> r == -maxScroll
  {
    Max(-maxScroll, Min(0.0, v))
  }

  lemma ClampYIdempotent(maxScroll: real, v: real)
    requires maxScroll >= 0.0
    ensures ClampY(maxScroll, ClampY(maxScroll, v)) == ClampY(maxScroll, v)
  {
  }

  /**
   * `computeTargetY`: the position that puts the top of group `idx` at the top
   * of the viewport, clamped; `None` when the index is out of range or the
   * offsets do not cover it.
   */
  function ComputeTargetY(offsets: seq<real>, maxScroll: real, yearCount: nat, idx: int): (r: Option<real>)
    ensures r.None? <==> idx < 0 || idx >= yearCount || idx >= |offsets|
    ensures r.Some? ==> r.value == ClampY(maxScroll, -offsets[idx])
    ensures r.Some? && maxScroll >= 0.0 ==> -maxScroll <= r.value <= 0.0
    ensures r.Some? && 0.0 <= offsets[idx] <= maxScroll ==> r.value == -offsets[idx]
  {
    if yearCount == 0 || idx < 0 || idx >= yearCount then None
    else if |offsets| == 0 || idx >= |offsets| then None
    else Some(ClampY(maxScroll, -offsets[idx]))
  }

  // ---------------------------------------------------------------------------
  // Year to index resolution
  // ---------------------------------------------------------------------------

  function Dist(a: int, b: int): nat { if a >= b then a - b else b - a }

  /** `Array.prototype.indexOf`: the first index of `year`, or -1. */
  function IndexOf(years: seq<int>, year: int): (r: int)
    ensures r == -1 <==> year !in years
    ensures r != -1 ==> 0 <= r < |years| && years[r] == year && year !in years[..r]
  {
    if |years| == 0 then -1
    else if years[0] == year then 0
    else
      var k := IndexOf(years[1..], year);
      assert years == [years[0]] + years[1..];
      if k == -1 then -1
      else
        assert years[..k + 1] == [years[0]] + years[1..][..k];
        k + 1
  }

  /** The value of `best` after the nearest-year loop has looked at the first `n` years. */
  function NearestPrefix(years: seq<int>, year: int, n: nat): (best: nat)
    requires 0 < n <= |years|
    ensures best < n
  {
    if n == 1 then 0
    else
      var b := NearestPrefix(years, year, n - 1);
      if Dist(years[n - 1], year) < Dist(years[b], year) then n - 1 else b
  }

  /** The nearest-year loop keeps the first index at minimal distance. */
  lemma {:induction false} NearestPrefixIsNearest(years: seq<int>, year: int, n: nat)
    requires 0 < n <= |years|
    ensures forall j :: 0 <= j < n ==> Dist(years[NearestPrefix(years, year, n)], year) <= Dist(years[j], year)
    ensures forall j :: 0 <= j < NearestPrefix(years, year, n) ==>
              Dist(years[NearestPrefix(years, year, n)], year) < Dist(years[j], year)
  {
    if n > 1 {
      NearestPrefixIsNearest(years, year, n - 1);
    }
  }

  /**
   * What `getIndexForYear` resolves a year to: 0 for no years, the first index
   * of the year when present, otherwise the first index at minimal distance.
   */
  function IndexForYear(years: seq<int>, year: int): (idx: nat)
    ensures |years| == 0 ==> idx == 0
    ensures |years| > 0 ==> idx < |years|
    ensures year in years ==> years[idx] == year && year !in years[..idx]
    ensures year !in years && |years| > 0 ==>
              (forall j :: 0 <= j < |years| ==> Dist(years[idx], year) <= Dist(years[j], year)) &&
              (forall j :: 0 <= j < idx ==> Dist(years[idx], year) < Dist(years[j], year))
  {
    if |years| == 0 then 0
    else
      var found := IndexOf(years, year);
      if found != -1 then found
      else
        NearestPrefixIsNearest(years, year, |years|);
        NearestPrefix(years, year, |years|)
  }

  /** `getIndexForYear`. */
  method GetIndexForYear(years: seq<int>, year: int) returns (idx: nat)
    ensures idx == IndexForYear(years, year)
  {
    if |years| == 0 {
      return 0;
    }
    var found := IndexOf(years, year);
    if found != -1 {
      return found;
    }
    var best := 0;
    for i := 0 to |years|
      invariant best == NearestPrefix(years, year, if i == 0 then 1 else i)
    {
      if Dist(years[i], year) < Dist(years[best], year) {
        best := i;
      }
    }
    return best;
  }

  // ---------------------------------------------------------------------------
  // Measurement
  // ---------------------------------------------------------------------------

  /** What the hook reads from the viewport element. */
  datatype ViewportElement = ViewportElement(clientHeight: real)

  /** What the hook reads from the content element (its bounding rect's height and top). */
  datatype ContentElement = ContentElement(scrollHeight: real, rectHeight: real, rectTop: real)

  /** What the hook reads from one year group element. */
  datatype GroupElement = GroupElement(offsetHeight: real, rectTop: real)

  /** The DOM as seen at one instant: refs that may be unattached, and the group refs array. */
  datatype Layout = Layout(
    viewport: Option<ViewportElement>,
    content: Option<ContentElement>,
    groups: Option<seq<Option<GroupElement>>>)

  /** `MeasurementResult`: one consistent measurement of the timeline. */
  datatype Snapshot = Snapshot(
    offsets: seq<real>,
    heights: seq<real>,
    contentHeight: real,
    viewportHeight: real,
    maxScroll: real)

  /** The measurement refs' initial (and case-switch reset) values. */
  const EMPTY_SNAPSHOT: Snapshot := Snapshot([], [], 0.0, 0.0, 0.0)

  /** `heights.reduce((sum, h) => sum + h, 0)` */
  function Sum(s: seq<real>): real
  {
    if |s| == 0 then 0.0 else s[0] + Sum(s[1..])
  }

  predicate GroupsAttached(groups: seq<Option<GroupElement>>, yearCount: nat)
  {
    yearCount <= |groups| && forall i :: 0 <= i < yearCount ==> groups[i].Some?
  }

  /** `measure` succeeds exactly when both containers and every year's group element are present. */
  predicate CanMeasure(layout: Layout, yearCount: nat)
  {
    && layout.viewport.Some?
    && layout.content.Some?
    && layout.groups.Some?
    && yearCount > 0
    && GroupsAttached(layout.groups.value, yearCount)
  }

  /** The content height the browser reports: scrollHeight, or the rect height when that is 0. */
  function ReportedContentHeight(content: ContentElement): real
  {
    if content.scrollHeight > 0.0 then content.scrollHeight else content.rectHeight
  }

  /** The result `measure` produces from a layout, with `currentY` the translation applied at that moment. */
  function MeasureSpec(layout: Layout, yearCount: nat, currentY: real): (r: Option<Snapshot>)
    ensures r.Some? <==> CanMeasure(layout, yearCount)
    ensures r.Some? ==> |r.value.offsets| == yearCount && |r.value.heights| == yearCount
    ensures r.Some? ==> r.value.contentHeight >= Sum(r.value.heights) + CONTENT_BOTTOM_PADDING
    ensures r.Some? ==> r.value.contentHeight >= ReportedContentHeight(layout.content.value)
    ensures r.Some? ==> r.value.viewportHeight == layout.viewport.value.clientHeight
    ensures r.Some? ==> r.value.maxScroll == Max(0.0, r.value.contentHeight - r.value.viewportHeight)
    ensures r.Some? ==> r.value.maxScroll >= 0.0
    ensures r.Some? ==> forall i :: 0 <= i < yearCount ==>
              && r.value.heights[i] == layout.groups.value[i].value.offsetHeight
              && r.value.offsets[i] == layout.groups.value[i].value.rectTop - layout.content.value.rectTop + currentY
  {
    if !CanMeasure(layout, yearCount) then None
    else
      var groups := layout.groups.value;
      var content := layout.content.value;
      var heights := seq(yearCount, i requires 0 <= i < yearCount => groups[i].value.offsetHeight);
      var offsets := seq(yearCount, i requires 0 <= i < yearCount => groups[i].value.rectTop - content.rectTop + currentY);
      var contentHeight := Max(ReportedContentHeight(content), Sum(heights) + CONTENT_BOTTOM_PADDING);
      var viewportHeight := layout.viewport.value.clientHeight;
      Some(Snapshot(offsets, heights, contentHeight, viewportHeight, Max(0.0, contentHeight - viewportHeight)))
  }

  /** `measure`: builds the per-group heights and offsets in one pass, giving up on the first missing group. */
  method Measure(layout: Layout, yearCount: nat, currentY: real) returns (r: Option<Snapshot>)
    ensures r == MeasureSpec(layout, yearCount, currentY)
  {
    if layout.viewport.None? || layout.content.None? || layout.groups.None? || yearCount == 0 {
      return None;
    }
    var viewportHeight := layout.viewport.value.clientHeight;
    var content := layout.content.value;
    var contentHeight := if content.scrollHeight > 0.0 then content.scrollHeight else content.rectHeight;
    var groups := layout.groups.value;
    var heights: seq<real> := [];
    var offsets: seq<real> := [];
    for i := 0 to yearCount
      invariant |heights| == i && |offsets| == i
      invariant i <= |groups| && forall j :: 0 <= j < i ==> groups[j].Some?
      invariant forall j :: 0 <= j < i ==>
                  heights[j] == groups[j].value.offsetHeight &&
                  offsets[j] == groups[j].value.rectTop - content.rectTop + currentY
    {
      if i >= |groups| || groups[i].None? {
        return None;
      }
      var group := groups[i].value;
      heights := heights + [group.offsetHeight];
      offsets := offsets + [group.rectTop - content.rectTop + currentY];
    }
    assert heights == seq(yearCount, i requires 0 <= i < yearCount => groups[i].value.offsetHeight);
    assert offsets == seq(yearCount, i requires 0 <= i < yearCount => groups[i].value.rectTop - content.rectTop + currentY);
    var totalHeightFromGroups := Sum(heights) + CONTENT_BOTTOM_PADDING;
    var finalContentHeight := Max(contentHeight, totalHeightFromGroups);
    var maxScroll := Max(0.0, finalContentHeight - viewportHeight);
    r := Some(Snapshot(offsets, heights, finalContentHeight, viewportHeight, maxScroll));
  }

  /** `y` lies in the clamp range `[-maxScroll, 0]` up to the re-clamp tolerance. */
  predicate NearRange(y: real, maxScroll: real)
  {
    -maxScroll - CLAMP_TOLERANCE_PX <= y <= CLAMP_TOLERANCE_PX
  }

  /** `updateMeasurements`' re-clamp of `y` against a new `maxScroll`. */
  function Reclamp(maxScroll: real, v: real): (r: real)
    ensures maxScroll >= 0.0 ==> NearRange(r, maxScroll)
    ensures r == v || r == ClampY(maxScroll, v)
    ensures -maxScroll <= v <= 0.0 ==> r == v
  {
    var clamped := ClampY(maxScroll, v);
    if Abs(v - clamped) > CLAMP_TOLERANCE_PX then clamped else v
  }

  /** The stored measurements and position after `updateMeasurements`. */
  datatype Remeasured = Remeasured(snapshot: Snapshot, y: real)

  /**
   * The effect of `updateMeasurements` on the stored measurements and `y`:
   * nothing while a measurement is in flight or when `measure` fails, otherwise
   * the whole new snapshot and `y` re-clamped against its `maxScroll`.
   */
  function AfterRemeasure(measuring: bool, prev: Snapshot, layout: Layout, yearCount: nat, y: real): (r: Remeasured)
    ensures measuring || !CanMeasure(layout, yearCount) ==> r == Remeasured(prev, y)
    ensures !measuring && CanMeasure(layout, yearCount) ==>
              r.snapshot == MeasureSpec(layout, yearCount, y).value && r.y == Reclamp(r.snapshot.maxScroll, y)
    ensures r.snapshot == prev || |r.snapshot.offsets| == yearCount
    ensures |r.snapshot.offsets| != yearCount ==> r.y == y
    ensures prev.maxScroll >= 0.0 && NearRange(y, prev.maxScroll) ==>
              r.snapshot.maxScroll >= 0.0 && NearRange(r.y, r.snapshot.maxScroll)
  {
    if measuring then Remeasured(prev, y)
    else match MeasureSpec(layout, yearCount, y)
      case None => Remeasured(prev, y)
      case Some(s) => Remeasured(s, Reclamp(s.maxScroll, y))
  }

  // ---------------------------------------------------------------------------
  // Wheel gesture accounting
  // ---------------------------------------------------------------------------

  /** A wheel event as the handler sees it; `targetInViewport` is `viewport.contains(e.target)`. */
  datatype WheelEvent = WheelEvent(targetInViewport: bool, deltaY: real, deltaMode: int)

  /** The delta in pixels: line mode ×16, page mode × the viewport height (400 when it reads 0). */
  function NormalizeDelta(deltaY: real, deltaMode: int, viewportClientHeight: real): (r: real)
    ensures deltaMode == DOM_DELTA_LINE ==> r == deltaY * LINE_HEIGHT_PX
    ensures deltaMode == DOM_DELTA_PAGE && viewportClientHeight != 0.0 ==> r == deltaY * viewportClientHeight
    ensures deltaMode == DOM_DELTA_PAGE && viewportClientHeight == 0.0 ==> r == deltaY * PAGE_FALLBACK_PX
    ensures deltaMode != DOM_DELTA_LINE && deltaMode != DOM_DELTA_PAGE ==> r == deltaY
  {
    if deltaMode == DOM_DELTA_LINE then deltaY * LINE_HEIGHT_PX
    else if deltaMode == DOM_DELTA_PAGE then deltaY * (if viewportClientHeight != 0.0 then viewportClientHeight else PAGE_FALLBACK_PX)
    else deltaY
  }

  /** Steps emitted by one wheel event and the accumulator left behind. */
  datatype WheelOutcome = WheelOutcome(steps: int, accum: real)

  /** `Math.floor(sum / WHEEL_THRESHOLD_PX)`, the uncapped step count. */
  function FloorSteps(sum: real): int
  {
    (sum / WHEEL_THRESHOLD_PX).Floor
  }

  /**
   * The deadzone, accumulation and step logic of `onWheel`. Both signs use
   * `Math.floor`, so an accumulator of -400 gives -2 steps and leaves +320.
   */
  function AccumulateWheel(accum: real, delta: real): (r: WheelOutcome)
    ensures Abs(delta) < DEADZONE_PX ==> r == WheelOutcome(0, accum)
    ensures Abs(delta) >= DEADZONE_PX ==> r.steps as real * WHEEL_THRESHOLD_PX + r.accum == accum + delta
    ensures -MAX_STEP_PER_EVENT <= r.steps <= MAX_STEP_PER_EVENT
    ensures Abs(delta) >= DEADZONE_PX ==> (r.steps != 0 <==> Abs(accum + delta) >= WHEEL_THRESHOLD_PX)
    ensures r.steps > 0 ==> accum + delta > 0.0
    ensures r.steps < 0 ==> accum + delta < 0.0
    ensures r.steps != 0 && -MAX_STEP_PER_EVENT <= FloorSteps(accum + delta) <= MAX_STEP_PER_EVENT ==>
              r.steps == FloorSteps(accum + delta) && 0.0 <= r.accum < WHEEL_THRESHOLD_PX
  {
    if Abs(delta) < DEADZONE_PX then WheelOutcome(0, accum)
    else
      var sum := accum + delta;
      if sum >= WHEEL_THRESHOLD_PX then
        var steps := if MAX_STEP_PER_EVENT <= FloorSteps(sum) then MAX_STEP_PER_EVENT else FloorSteps(sum);
        WheelOutcome(steps, sum - steps as real * WHEEL_THRESHOLD_PX)
      else if sum <= -WHEEL_THRESHOLD_PX then
        var steps := if -MAX_STEP_PER_EVENT >= FloorSteps(sum) then -MAX_STEP_PER_EVENT else FloorSteps(sum);
        WheelOutcome(steps, sum - steps as real * WHEEL_THRESHOLD_PX)
      else
        WheelOutcome(0, sum)
  }

  /** The total steps and final accumulator after feeding a stream of pixel deltas. */
  function FeedWheel(accum: real, deltas: seq<real>): WheelOutcome
    decreases |deltas|
  {
    if |deltas| == 0 then WheelOutcome(0, accum)
    else
      var first := AccumulateWheel(accum, deltas[0]);
      var rest := FeedWheel(first.accum, deltas[1..]);
      WheelOutcome(first.steps + rest.steps, rest.accum)
  }

  /** The total of the deltas that get past the deadzone. */
  function Travel(deltas: seq<real>): real
  {
    if |deltas| == 0 then 0.0
    else (if Abs(deltas[0]) < DEADZONE_PX then 0.0 else deltas[0]) + Travel(deltas[1..])
  }

  /** No wheel travel is lost: the steps taken plus what is left over equal the travel fed in. */
  lemma {:induction false} FeedWheelConserves(accum: real, deltas: seq<real>)
    ensures FeedWheel(accum, deltas).steps as real * WHEEL_THRESHOLD_PX + FeedWheel(accum, deltas).accum
            == accum + Travel(deltas)
    decreases |deltas|
  {
    if |deltas| > 0 {
      FeedWheelConserves(AccumulateWheel(accum, deltas[0]).accum, deltas[1..]);
    }
  }

  /**
   * Worked cases of the step logic: an upward flick of 400px steps back two
   * years and leaves +320px, a downward one steps forward one year, a very
   * large delta is capped at three steps, and a delta in the deadzone is ignored.
   */
  lemma WheelStepExamples()
    ensures AccumulateWheel(0.0, -400.0) == WheelOutcome(-2, 320.0)
    ensures AccumulateWheel(0.0, 400.0) == WheelOutcome(1, 40.0)
    ensures AccumulateWheel(0.0, 2000.0) == WheelOutcome(3, 920.0)
    ensures AccumulateWheel(100.0, 1.5) == WheelOutcome(0, 100.0)
  {
  }

  /** Four slow 100px trackpad deltas add up to one step, with 40px carried over. */
  lemma SlowTrackpadExample()
    ensures FeedWheel(0.0, [100.0, 100.0, 100.0, 100.0]) == WheelOutcome(1, 40.0)
  {
  }

  /** `Math.max(0, Math.min(len - 1, i))`. */
  function ClampIndex(i: int, len: nat): (r: int)
    ensures len > 0 ==> 0 <= r < len
    ensures 0 <= i < len ==> r == i
    ensures len > 0 && i >= len ==> r == len - 1
    ensures i < 0 ==> r == 0
  {
    if i > len - 1 then (if len - 1 > 0 then len - 1 else 0)
    else if i > 0 then i else 0
  }

  // ---------------------------------------------------------------------------
  // The controller
  // ---------------------------------------------------------------------------

  /** A `snapToYearIndex` call that was launched and runs once its frame waits are over. */
  datatype SnapRequest = SnapRequest(index: int, animate: bool)

  /** The hook's refs and the position `y` (the spring's target value). */
  class TimelineScroller {
    var offsets: seq<real>
    var heights: seq<real>
    var contentHeight: real
    var viewportHeight: real
    var maxScroll: real
    var wheelAccum: real
    var pendingIndex: Option<int>
    var currentIndex: int
    var isWheelScrolling: bool
    var isMeasuring: bool
    var lastCaseId: string
    var y: real

    ghost function Measurements(): Snapshot
      reads this
    {
      Snapshot(offsets, heights, contentHeight, viewportHeight, maxScroll)
    }

    /**
     * The stored measurements are one snapshot, `maxScroll` is derived from
     * it, and `y` is in range up to the re-clamp tolerance.
     */
    ghost predicate Valid()
      reads this
    {
      && |offsets| == |heights|
      && maxScroll >= 0.0
      && maxScroll == Max(0.0, contentHeight - viewportHeight)
      && NearRange(y, maxScroll)
    }

    /** The state a case switch leaves behind (and the initial state). */
    ghost predicate IsReset()
      reads this
    {
      && Measurements() == EMPTY_SNAPSHOT
      && wheelAccum == 0.0
      && pendingIndex == None
      && currentIndex == 0
      && !isWheelScrolling
      && y == 0.0
    }

    constructor (selectedCaseId: string)
      ensures Valid() && IsReset()
      ensures !isMeasuring && lastCaseId == selectedCaseId
    {
      offsets, heights := [], [];
      contentHeight, viewportHeight, maxScroll := 0.0, 0.0, 0.0;
      wheelAccum := 0.0;
      pendingIndex := None;
      currentIndex := 0;
      isWheelScrolling, isMeasuring := false, false;
      lastCaseId := selectedCaseId;
      y := 0.0;
    }

    /** `updateMeasurements`: replaces all five measurement fields together, or none of them. */
    method UpdateMeasurements(layout: Layout, yearCount: nat)
      requires Valid()
      modifies this
      ensures Valid()
      ensures Remeasured(Measurements(), y)
              == AfterRemeasure(old(isMeasuring), old(Measurements()), layout, yearCount, old(y))
      ensures isMeasuring == old(isMeasuring)
      ensures wheelAccum == old(wheelAccum) && pendingIndex == old(pendingIndex)
      ensures currentIndex == old(currentIndex) && isWheelScrolling == old(isWheelScrolling)
      ensures lastCaseId == old(lastCaseId)
    {
      if isMeasuring {
        return;
      }
      isMeasuring := true;
      var result := Measure(layout, yearCount, y);
      if result.None? {
        isMeasuring := false;
        return;
      }
      ApplySnapshot(result.value);
      isMeasuring := false;
    }

    /** Store a fresh snapshot and pull `y` back into its range unless it is within the clamp tolerance. */
    method ApplySnapshot(snapshot: Snapshot)
      requires |snapshot.offsets| == |snapshot.heights| && snapshot.maxScroll >= 0.0
      requires snapshot.maxScroll == Max(0.0, snapshot.contentHeight - snapshot.viewportHeight)
      modifies this
      ensures Valid()
      ensures Measurements() == snapshot && y == Reclamp(snapshot.maxScroll, old(y))
      ensures isMeasuring == old(isMeasuring)
      ensures wheelAccum == old(wheelAccum) && pendingIndex == old(pendingIndex)
      ensures currentIndex == old(currentIndex) && isWheelScrolling == old(isWheelScrolling)
      ensures lastCaseId == old(lastCaseId)
    {
      offsets := snapshot.offsets;
      heights := snapshot.heights;
      contentHeight := snapshot.contentHeight;
      viewportHeight := snapshot.viewportHeight;
      maxScroll := snapshot.maxScroll;
      var currentY := y;
      var clampedY := ClampY(maxScroll, currentY);
      if Abs(currentY - clampedY) > CLAMP_TOLERANCE_PX {
        y := clampedY;
      }
    }

    /** Steps 3 to 5 of `snapToYearIndex`, after the measurement and the frame waits. */
    method CommitSnap(yearCount: nat, idx: int)
      requires Valid() && 0 <= idx < yearCount
      modifies this
      ensures Valid()
      ensures Measurements() == old(Measurements())
      ensures |offsets| != yearCount ==>
                pendingIndex == Some(idx) && y == old(y) && currentIndex == old(currentIndex)
      ensures |offsets| == yearCount ==>
                && pendingIndex == old(pendingIndex)
                && ComputeTargetY(offsets, maxScroll, yearCount, idx) == Some(y)
                && currentIndex == idx
      ensures wheelAccum == old(wheelAccum) && isWheelScrolling == old(isWheelScrolling)
      ensures isMeasuring == old(isMeasuring) && lastCaseId == old(lastCaseId)
    {
      if |offsets| != yearCount || idx >= |offsets| {
        pendingIndex := Some(idx);
        return;
      }
      var target := ComputeTargetY(offsets, maxScroll, yearCount, idx);
      if target.Some? {
        y := target.value;
        currentIndex := idx;
      }
    }

    /**
     * `snapToYearIndex` once its frame waits are over: remeasure, then either
     * record the index as pending (offsets still stale) or move `y` to the
     * index's target. `animate` is read but does not change what is written.
     */
    method SnapToYearIndex(yearCount: nat, idx: int, animate: bool, layout: Layout)
      requires Valid()
      modifies this
      ensures Valid()
      ensures idx < 0 || idx >= yearCount ==> unchanged(this)
      ensures 0 <= idx < yearCount ==>
                var m := AfterRemeasure(old(isMeasuring), old(Measurements()), layout, yearCount, old(y));
                && Measurements() == m.snapshot
                && (|offsets| != yearCount ==>
                      pendingIndex == Some(idx) && y == old(y) && currentIndex == old(currentIndex))
                && (|offsets| == yearCount ==>
                      && pendingIndex == old(pendingIndex)
                      && ComputeTargetY(offsets, maxScroll, yearCount, idx) == Some(y)
                      && currentIndex == idx)
      ensures wheelAccum == old(wheelAccum) && isWheelScrolling == old(isWheelScrolling)
      ensures isMeasuring == old(isMeasuring) && lastCaseId == old(lastCaseId)
    {
      if yearCount == 0 || idx < 0 || idx >= yearCount {
        return;
      }
      UpdateMeasurements(layout, yearCount);
      CommitSnap(yearCount, idx);
    }

    /**
     * `scrollToIndex`: with stale offsets the raw index becomes pending;
     * otherwise the clamped index's snap is launched (returned) and nothing
     * changes yet.
     */
    method ScrollToIndex(yearCount: nat, idx: int, immediate: bool) returns (snap: Option<SnapRequest>)
      requires Valid()
      modifies this
      ensures Valid()
      ensures yearCount == 0 ==> unchanged(this) && snap == None
      ensures yearCount > 0 && |old(offsets)| != yearCount ==>
                && snap == None
                && pendingIndex == Some(idx)
                && Measurements() == old(Measurements()) && y == old(y)
                && currentIndex == old(currentIndex) && wheelAccum == old(wheelAccum)
                && isWheelScrolling == old(isWheelScrolling)
                && isMeasuring == old(isMeasuring) && lastCaseId == old(lastCaseId)
      ensures yearCount > 0 && |old(offsets)| == yearCount ==>
                unchanged(this) && snap == Some(SnapRequest(ClampIndex(idx, yearCount), !immediate))
    {
      if yearCount == 0 {
        return None;
      }
      if |offsets| != yearCount {
        pendingIndex := Some(idx);
        return None;
      }
      var target := idx;
      if target < 0 {
        target := 0;
      }
      if target >= yearCount {
        target := yearCount - 1;
      }
      // With |offsets| == yearCount and target in range, offsets[target] always exists,
      // so the source's "offsets not ready for this index" branch cannot be taken.
      return Some(SnapRequest(target, !immediate));
    }

    /**
     * An index request that runs to completion with no other event in between:
     * `scrollToIndex` followed by the snap it launches.
     */
    method RequestIndex(yearCount: nat, idx: int, immediate: bool, layout: Layout)
      requires Valid()
      modifies this
      ensures Valid()
      ensures yearCount == 0 ==> unchanged(this)
      ensures yearCount > 0 && |old(offsets)| != yearCount ==>
                && pendingIndex == Some(idx) && y == old(y) && Measurements() == old(Measurements())
                && currentIndex == old(currentIndex)
      ensures yearCount > 0 && |old(offsets)| == yearCount ==>
                var m := AfterRemeasure(old(isMeasuring), old(Measurements()), layout, yearCount, old(y));
                var k := ClampIndex(idx, yearCount);
                && Measurements() == m.snapshot
                && |offsets| == yearCount
                && ComputeTargetY(offsets, maxScroll, yearCount, k) == Some(y)
                && currentIndex == k
                && pendingIndex == old(pendingIndex)
      ensures wheelAccum == old(wheelAccum) && isWheelScrolling == old(isWheelScrolling)
      ensures isMeasuring == old(isMeasuring) && lastCaseId == old(lastCaseId)
    {
      var snap := ScrollToIndex(yearCount, idx, immediate);
      if snap.Some? {
        SnapToYearIndex(yearCount, snap.value.index, snap.value.animate, layout);
      }
    }

    /**
     * `onWheel`. Returns whether the event was consumed (preventDefault) and
     * the year passed to `onRequestYearChange`, which is called after `y` and
     * `currentIndex` have been updated.
     */
    method OnWheel(eventYears: seq<int>, event: WheelEvent, viewportClientHeight: real)
      returns (consumed: bool, requestedYear: Option<int>)
      requires Valid()
      modifies this
      ensures Valid()
      ensures !event.targetInViewport || |old(offsets)| != |eventYears| || |eventYears| == 0 ==>
                !consumed && requestedYear == None && unchanged(this)
      ensures event.targetInViewport && |old(offsets)| == |eventYears| > 0 ==> consumed
      ensures consumed && |eventYears| < 2 ==> requestedYear == None && unchanged(this)
      ensures consumed && |eventYears| >= 2 ==>
                var out := AccumulateWheel(old(wheelAccum), NormalizeDelta(event.deltaY, event.deltaMode, viewportClientHeight));
                && |offsets| == |eventYears|
                && isWheelScrolling
                && wheelAccum == out.accum
                && (out.steps == 0 ==>
                      requestedYear == None && y == old(y) && currentIndex == old(currentIndex))
                && (out.steps != 0 ==>
                      var k := ClampIndex(old(currentIndex) + out.steps, |eventYears|);
                      && currentIndex == k
                      && y == ClampY(maxScroll, -offsets[k])
                      && requestedYear == Some(eventYears[k]))
      ensures Measurements() == old(Measurements()) && pendingIndex == old(pendingIndex)
      ensures isMeasuring == old(isMeasuring) && lastCaseId == old(lastCaseId)
    {
      consumed, requestedYear := false, None;
      if !event.targetInViewport {
        return;
      }
      if |offsets| != |eventYears| || |offsets| == 0 {
        return;
      }
      consumed := true;
      if |eventYears| < 2 {
        return;
      }
      isWheelScrolling := true;
      var delta := NormalizeDelta(event.deltaY, event.deltaMode, viewportClientHeight);
      var out := AccumulateWheel(wheelAccum, delta);
      wheelAccum := out.accum;
      if out.steps != 0 {
        var newIndex := ClampIndex(currentIndex + out.steps, |eventYears|);
        y := ClampY(maxScroll, -offsets[newIndex]);
        currentIndex := newIndex;
        requestedYear := Some(eventYears[newIndex]);
      }
    }

    /** The 180ms wheel-inactivity timeout firing. */
    method WheelIdle()
      requires Valid()
      modifies this`isWheelScrolling
      ensures Valid() && !isWheelScrolling
    {
      isWheelScrolling := false;
    }

    /** The spring `change` listener: a spring value out of range by more than 0.1px snaps `y` to the bound. */
    method OnSpringChange(latest: real)
      requires Valid()
      modifies this`y
      ensures Valid()
      ensures Abs(latest - ClampY(maxScroll, latest)) > CLAMP_TOLERANCE_PX ==> y == ClampY(maxScroll, latest)
      ensures Abs(latest - ClampY(maxScroll, latest)) <= CLAMP_TOLERANCE_PX ==> y == old(y)
    {
      var clamped := ClampY(maxScroll, latest);
      if Abs(latest - clamped) > CLAMP_TOLERANCE_PX {
        y := clamped;
      }
    }

    /** The case-switch effect: a new case id resets every measurement, the gesture state and `y`. */
    method SwitchCase(selectedCaseId: string)
      requires Valid()
      modifies this
      ensures Valid()
      ensures old(lastCaseId) == selectedCaseId ==> unchanged(this)
      ensures old(lastCaseId) != selectedCaseId ==>
                IsReset() && lastCaseId == selectedCaseId && isMeasuring == old(isMeasuring)
    {
      if lastCaseId != selectedCaseId {
        offsets := [];
        heights := [];
        contentHeight := 0.0;
        viewportHeight := 0.0;
        maxScroll := 0.0;
        wheelAccum := 0.0;
        pendingIndex := None;
        currentIndex := 0;
        isWheelScrolling := false;
        y := 0.0;
        lastCaseId := selectedCaseId;
      }
    }

    /**
     * The layout effect once its two frames have passed: remeasure, then
     * consume a pending index (launching its snap) or, only when there is
     * none, re-anchor `y` to the selected year's target when it is more than
     * 2px off.
     */
    method LayoutSettled(eventYears: seq<int>, selectedYear: int, layout: Layout)
      returns (snap: Option<SnapRequest>)
      requires Valid()
      modifies this
      ensures Valid()
      ensures old(isWheelScrolling) ==> unchanged(this) && snap == None
      ensures !old(isWheelScrolling) ==>
                var m := AfterRemeasure(old(isMeasuring), old(Measurements()), layout, |eventYears|, old(y));
                && Measurements() == m.snapshot
                && pendingIndex == None
                && wheelAccum == old(wheelAccum) && !isWheelScrolling
                && isMeasuring == old(isMeasuring) && lastCaseId == old(lastCaseId)
                && (old(pendingIndex).Some? ==>
                      && snap == Some(SnapRequest(old(pendingIndex).value, false))
                      && y == m.y && currentIndex == old(currentIndex))
                && (old(pendingIndex).None? ==>
                      var k := IndexForYear(eventYears, selectedYear);
                      var target := ComputeTargetY(offsets, maxScroll, |eventYears|, k);
                      && snap == None
                      && (if |offsets| == |eventYears| && target.Some? && Abs(m.y - target.value) > REANCHOR_TOLERANCE_PX
                          then y == target.value && currentIndex == k
                          else y == m.y && currentIndex == old(currentIndex)))
      ensures !old(isWheelScrolling) && old(pendingIndex).None? && |offsets| == |eventYears| > 0 ==>
                var target := ComputeTargetY(offsets, maxScroll, |eventYears|, IndexForYear(eventYears, selectedYear));
                target.Some? && Abs(y - target.value) <= REANCHOR_TOLERANCE_PX
    {
      snap := None;
      if isWheelScrolling {
        return;
      }
      UpdateMeasurements(layout, |eventYears|);
      if pendingIndex.Some? && !isWheelScrolling {
        var pendingIdx := pendingIndex.value;
        pendingIndex := None;
        snap := Some(SnapRequest(pendingIdx, false));
      } else {
        var currentSelectedIdx := GetIndexForYear(eventYears, selectedYear);
        if 0 <= currentSelectedIdx < |eventYears| {
          if |offsets| == |eventYears| && currentSelectedIdx < |offsets| {
            var target := ComputeTargetY(offsets, maxScroll, |eventYears|, currentSelectedIdx);
            if target.Some? {
              var currentY := y;
              if Abs(currentY - target.value) > REANCHOR_TOLERANCE_PX {
                y := target.value;
                currentIndex := currentSelectedIdx;
              }
            }
          }
        }
      }
    }
  }
}
