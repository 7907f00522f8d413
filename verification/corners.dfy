/**
 * The F9 corner selector: the user points at the top-left and then the
 * bottom-right corner of the death banner and presses F9 at each; the
 * selector records the window under the first corner and turns the two
 * corners into a window-relative region. Also the resolver that turns a
 * stored region back into screen pixels.
 */
module Corners {
  import opened Wrappers
  import opened Geometry

  // ----- resolving a stored region -----

  /** A region as stored: the window's name ('' when absent), the fractions, and the optional absolute fallback. */
  datatype RegionEntry = RegionEntry(windowName: string, fractions: Fractions, absolute: Option<Bounds>)

  /** How a region chosen by a selector is stored. */
  function EntryOf(region: RelRegion): RegionEntry
  {
    RegionEntry(region.windowName, region.fractions, Some(region.absolute))
  }

  /**
   * `calculate_absolute_region`: with no bounds given, the window is looked
   * up by name (`find` stands for the platform's find-by-name); an empty
   * name or a window not found gives the stored absolute rectangle as is.
   */
  function CalculateAbsoluteRegion(region: RegionEntry, windowBounds: Option<Bounds>, find: string -> Option<WindowInfo>): Option<Bounds>
  {
    if windowBounds.Some? then Some(Scale(region.fractions, windowBounds.value))
    else if region.windowName == "" then region.absolute
    else match find(region.windowName)
      case None => region.absolute
      case Some(w) => Some(Scale(region.fractions, w.bounds))
  }

  /** Without bounds and without a usable window the stored absolute rectangle is returned unchanged (None if absent). */
  lemma AbsoluteFallback(region: RegionEntry, find: string -> Option<WindowInfo>)
    requires region.windowName == "" || find(region.windowName).None?
    ensures CalculateAbsoluteRegion(region, None, find) == region.absolute
  {
  }

  /** Otherwise the rectangle is the window's bounds scaled by the fractions, whichever way the bounds were obtained. */
  lemma AbsoluteFromWindow(region: RegionEntry, windowBounds: Option<Bounds>, find: string -> Option<WindowInfo>)
    requires windowBounds.Some? || (region.windowName != "" && find(region.windowName).Some?)
    ensures var wb := if windowBounds.Some? then windowBounds.value else find(region.windowName).value.bounds;
      CalculateAbsoluteRegion(region, windowBounds, find) == Some(Scale(region.fractions, wb))
  {
  }

  /** Zero fractions give the window's top-left corner with zero size. */
  lemma ZeroFractionsGiveEmptyRect(region: RegionEntry, wb: Bounds, find: string -> Option<WindowInfo>)
    requires region.fractions == Fractions(0.0, 0.0, 0.0, 0.0)
    ensures CalculateAbsoluteRegion(region, Some(wb), find) == Some(Bounds(wb.x, wb.y, 0, 0))
  {
    TruncOfInt(wb.x);
    TruncOfInt(wb.y);
    TruncOfInt(0);
  }

  /** (0.25, 0.40, 0.50, 0.20) of the window {100, 50, 800, 600} is {300, 290, 400, 120}. */
  lemma ScaleExample()
    ensures Scale(Fractions(0.25, 0.40, 0.50, 0.20), Bounds(100, 50, 800, 600)) == Bounds(300, 290, 400, 120)
  {
    TruncOfInt(300);
    TruncOfInt(290);
    TruncOfInt(400);
    TruncOfInt(120);
  }

  // ----- choosing a region with two corners -----

  /** The two corners ordered so that the first is top-left and the second bottom-right. */
  function Normalised(c0: Point, c1: Point): (r: (Point, Point))
    ensures r.0.x <= r.1.x && r.0.y <= r.1.y
    ensures {r.0.x, r.1.x} == {c0.x, c1.x} && {r.0.y, r.1.y} == {c0.y, c1.y}
  {
    (Point(if c0.x > c1.x then c1.x else c0.x, if c0.y > c1.y then c1.y else c0.y),
     Point(if c0.x > c1.x then c0.x else c1.x, if c0.y > c1.y then c0.y else c1.y))
  }

  /** The region `_complete` reports for a window and two corners. */
  function CornerRegion(window: WindowInfo, c0: Point, c1: Point): RelRegion
  {
    var (p, q) := Normalised(c0, c1);
    RelRegion(window.name, window.title, CornerFractions(p.x, p.y, q.x, q.y, window.bounds),
              Bounds(p.x, p.y, q.x - p.x, q.y - p.y))
  }

  /** The fractions are clamped into the window and the absolute fallback has non-negative size. */
  lemma CornerRegionFacts(window: WindowInfo, c0: Point, c1: Point)
    ensures InUnitSquare(CornerRegion(window, c0, c1).fractions)
    ensures CornerRegion(window, c0, c1).absolute.width >= 0 && CornerRegion(window, c0, c1).absolute.height >= 0
  {
    var (p, q) := Normalised(c0, c1);
    CornerFractionsFacts(p.x, p.y, q.x, q.y, window.bounds);
    assert CornerRegion(window, c0, c1).absolute == Bounds(p.x, p.y, q.x - p.x, q.y - p.y);
  }

  /**
   * In exact arithmetic, choosing two corners inside a window and resolving
   * the stored region against the same window's bounds gives back exactly
   * the chosen rectangle. Python's doubles can come back one pixel short (a
   * 29-pixel side of a 100-pixel window resolves to 28).
   */
  lemma CornerRegionRoundTrip(window: WindowInfo, c0: Point, c1: Point, find: string -> Option<WindowInfo>)
    requires window.bounds.width > 0 && window.bounds.height > 0
    requires Inside(Normalised(c0, c1).0.x, Normalised(c0, c1).0.y, Normalised(c0, c1).1.x, Normalised(c0, c1).1.y, window.bounds)
    ensures CalculateAbsoluteRegion(EntryOf(CornerRegion(window, c0, c1)), Some(window.bounds), find)
            == Some(CornerRegion(window, c0, c1).absolute)
  {
    var n := Normalised(c0, c1);
    CornerFractionsExact(n.0.x, n.0.y, n.1.x, n.1.y, window.bounds);
    ScaleUndoesFractions(n.0.x, n.0.y, n.1.x, n.1.y, window.bounds);
  }

  /** What the selector tells the UI. */
  datatype SelectorEvent =
    | Progress(message: string, step: int)
    | Completed(region: RelRegion)
    | Cancelled

  const StartMessage := "Move cursor to TOP-LEFT corner and press F9"
  const NoWindowMessage := "No window found. Try again."
  const CancelMessage := "Selection cancelled"
  const SelectedMessage := "Region selected"

  function SecondCornerMessage(windowName: string): string
  {
    "Window: " + windowName + "\nMove cursor to BOTTOM-RIGHT corner and press F9"
  }

  /** A progress event when the UI asked for progress, nothing otherwise. */
  function ProgressIf(hasProgress: bool, message: string, step: int): seq<SelectorEvent>
  {
    if hasProgress then [Progress(message, step)] else []
  }

  class CornerSelector {
    var active: bool
    var corners: seq<Point>
    var targetWindow: Option<WindowInfo>
    /** Whether an `on_progress` callback was given. */
    const hasProgress: bool
    /** Every callback made so far, in order. */
    var events: seq<SelectorEvent>

    /** At most two corners, and a recorded corner has its window. */
    predicate Recorded()
      reads this
    {
      |corners| <= 2 && (corners != [] ==> targetWindow.Some?)
    }

    /** Between calls, two corners also mean the selection is over. */
    predicate Valid()
      reads this
    {
      Recorded() && (|corners| == 2 ==> !active)
    }

    constructor(hasProgress: bool)
      ensures Valid() && !active && corners == [] && targetWindow == None && events == []
      ensures this.hasProgress == hasProgress
    {
      this.hasProgress := hasProgress;
      active := false;
      corners := [];
      targetWindow := None;
      events := [];
    }

    /** `start`: a no-op while active; otherwise begins a selection with no corners and no window. */
    method Start()
      requires Valid()
      modifies this
      ensures Valid()
      ensures old(active) ==> active == old(active) && corners == old(corners) && targetWindow == old(targetWindow) && events == old(events)
      ensures !old(active) ==> active && corners == [] && targetWindow == None &&
                               events == old(events) + ProgressIf(hasProgress, StartMessage, 0)
    {
      if active {
        return;
      }
      active := true;
      corners := [];
      targetWindow := None;
      events := events + ProgressIf(hasProgress, StartMessage, 0);
    }

    /** `stop`: ends the selection, keeping the corners recorded so far. */
    method Stop()
      requires Recorded()
      modifies this
      ensures Valid() && !active
      ensures corners == old(corners) && targetWindow == old(targetWindow) && events == old(events)
    {
      active := false;
    }

    /** `cancel`: stops and reports the cancellation. */
    method Cancel()
      requires Recorded()
      modifies this
      ensures Valid() && !active
      ensures corners == old(corners) && targetWindow == old(targetWindow)
      ensures events == old(events) + ProgressIf(hasProgress, CancelMessage, -1) + [Cancelled]
    {
      Stop();
      events := events + ProgressIf(hasProgress, CancelMessage, -1) + [Cancelled];
    }

    /**
     * `on_f9_pressed`: false and no change when inactive; otherwise handles
     * the key with the cursor position and the window under it.
     */
    method OnF9Pressed(cursor: Point, windowAtCursor: Option<WindowInfo>) returns (handled: bool)
      requires Valid()
      modifies this
      ensures Valid()
      ensures handled == old(active)
      ensures !old(active) ==> active == old(active) && corners == old(corners) && targetWindow == old(targetWindow) && events == old(events)
      // the first corner: with no window the selection waits for another try
      ensures old(active) && old(corners) == [] && windowAtCursor.None? ==>
                active && corners == [] && targetWindow == None &&
                events == old(events) + ProgressIf(hasProgress, NoWindowMessage, 0)
      ensures old(active) && old(corners) == [] && windowAtCursor.Some? ==>
                active && corners == [cursor] && targetWindow == windowAtCursor &&
                events == old(events) + ProgressIf(hasProgress, SecondCornerMessage(windowAtCursor.value.name), 1)
      // the second corner completes the selection with exactly one completion
      ensures old(active) && |old(corners)| == 1 ==>
                !active && corners == old(corners) + [cursor] && targetWindow == old(targetWindow) &&
                events == old(events) + ProgressIf(hasProgress, SelectedMessage, 2) +
                          [Completed(CornerRegion(old(targetWindow).value, old(corners)[0], cursor))]
    {
      if !active {
        return false;
      }
      OnHotkey(cursor, windowAtCursor);
      return true;
    }

    /** `_on_hotkey`: the first press picks the window and corner, the second completes. */
    method OnHotkey(cursor: Point, windowAtCursor: Option<WindowInfo>)
      requires Valid()
      modifies this
      ensures Valid()
      ensures !old(active) ==> active == old(active) && corners == old(corners) && targetWindow == old(targetWindow) && events == old(events)
      ensures old(active) && old(corners) == [] && windowAtCursor.None? ==>
                active && corners == [] && targetWindow == None &&
                events == old(events) + ProgressIf(hasProgress, NoWindowMessage, 0)
      ensures old(active) && old(corners) == [] && windowAtCursor.Some? ==>
                active && corners == [cursor] && targetWindow == windowAtCursor &&
                events == old(events) + ProgressIf(hasProgress, SecondCornerMessage(windowAtCursor.value.name), 1)
      ensures old(active) && |old(corners)| == 1 ==>
                !active && corners == old(corners) + [cursor] && targetWindow == old(targetWindow) &&
                events == old(events) + ProgressIf(hasProgress, SelectedMessage, 2) +
                          [Completed(CornerRegion(old(targetWindow).value, old(corners)[0], cursor))]
    {
      if !active {
        return;
      }
      if |corners| == 0 {
        targetWindow := windowAtCursor;
        if targetWindow.None? {
          events := events + ProgressIf(hasProgress, NoWindowMessage, 0);
          return;
        }
        corners := corners + [cursor];
        events := events + ProgressIf(hasProgress, SecondCornerMessage(targetWindow.value.name), 1);
      } else if |corners| == 1 {
        corners := corners + [cursor];
        Complete();
      }
    }

    /**
     * `_complete`: without a window or without exactly two corners the
     * selection is cancelled; otherwise it ends and reports the region once.
     */
    method Complete()
      requires Recorded()
      modifies this
      ensures Valid() && !active
      ensures corners == old(corners) && targetWindow == old(targetWindow)
      ensures targetWindow.None? || |corners| != 2 ==>
                events == old(events) + ProgressIf(hasProgress, CancelMessage, -1) + [Cancelled]
      ensures targetWindow.Some? && |corners| == 2 ==>
                events == old(events) + ProgressIf(hasProgress, SelectedMessage, 2) +
                          [Completed(CornerRegion(targetWindow.value, corners[0], corners[1]))]
    {
      if targetWindow.None? || |corners| != 2 {
        Cancel();
        return;
      }
      active := false;
      var region := CornerRegion(targetWindow.value, corners[0], corners[1]);
      events := events + ProgressIf(hasProgress, SelectedMessage, 2) + [Completed(region)];
    }
  }
}
