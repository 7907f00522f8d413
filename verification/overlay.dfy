/**
 * The fullscreen overlay selector on Windows: a drag with the left mouse
 * button selects a rectangle, Escape cancels. The message loop delivers
 * messages to the handlers below one at a time; the window lookup at a
 * screen point is a parameter.
 */
module Overlay {
  import opened Wrappers
  import opened Geometry
  import Corners

  // ----- mouse coordinates -----

  /** `ctypes.c_short(u).value` for a 16-bit word `u`. */
  function SignExtend16(u: int): (v: int)
    requires 0 <= u < 0x1_0000
    ensures -0x8000 <= v < 0x8000
    ensures (v - u) % 0x1_0000 == 0
  {
    if u >= 0x8000 then u - 0x1_0000 else u
  }

  /** The low word `lparam & 0xFFFF`. */
  function LowWord(lparam: int): int
  {
    lparam % 0x1_0000
  }

  /** The high word `(lparam >> 16) & 0xFFFF`. */
  function HighWord(lparam: int): int
  {
    (lparam / 0x1_0000) % 0x1_0000
  }

  /** `_get_mouse_pos`: the signed client coordinates plus the virtual-screen origin. */
  function MousePos(lparam: int, vx: int, vy: int): Point
  {
    Point(SignExtend16(LowWord(lparam)) + vx, SignExtend16(HighWord(lparam)) + vy)
  }

  /** The `lparam` a mouse message carries for the client point `(x, y)`. */
  function PackPoint(x: int, y: int): int
  {
    (y % 0x1_0000) * 0x1_0000 + x % 0x1_0000
  }

  /** A 16-bit word minus itself reduced to a word is a multiple of the word size, so sign extension recovers the signed value. */
  lemma SignExtendOfWord(x: int)
    requires -0x8000 <= x < 0x8000
    ensures SignExtend16(x % 0x1_0000) == x
  {
    if x < 0 {
      assert x % 0x1_0000 == x + 0x1_0000;
    }
  }

  /** Decoding the packed client point gives every signed 16-bit point back, shifted by the virtual-screen origin. */
  lemma MousePosOfPacked(x: int, y: int, vx: int, vy: int)
    requires -0x8000 <= x < 0x8000 && -0x8000 <= y < 0x8000
    ensures MousePos(PackPoint(x, y), vx, vy) == Point(x + vx, y + vy)
  {
    var lo, hi := x % 0x1_0000, y % 0x1_0000;
    var p := PackPoint(x, y);
    assert p == hi * 0x1_0000 + lo;
    assert p / 0x1_0000 == hi && p % 0x1_0000 == lo;
    assert hi % 0x1_0000 == hi;
    SignExtendOfWord(x);
    SignExtendOfWord(y);
  }

  // ----- the selected region -----

  /** The floor midpoint `(a + b) // 2`. */
  function Mid(a: int, b: int): (m: int)
    ensures a <= b ==> a <= m <= b
  {
    (a + b) / 2
  }

  /**
   * `_calculate_region` for a normalised rectangle: the window under its
   * midpoint gives the name, title and clamped fractions; with no window the
   * name and title are empty and the fractions zero. The absolute fallback
   * is the rectangle itself.
   */
  function CalculateRegion(x1: int, y1: int, x2: int, y2: int, windowAt: Point -> Option<WindowInfo>): RelRegion
  {
    var absolute := Bounds(x1, y1, x2 - x1, y2 - y1);
    match windowAt(Point(Mid(x1, x2), Mid(y1, y2)))
    case Some(w) => RelRegion(w.name, w.title, CornerFractions(x1, y1, x2, y2, w.bounds), absolute)
    case None => RelRegion("", "", Fractions(0.0, 0.0, 0.0, 0.0), absolute)
  }

  /**
   * The region is the corner selector's region for the window under the
   * midpoint; without a window it has empty names and zero fractions. Either
   * way the fractions lie in the window and the fallback is the rectangle.
   */
  lemma CalculateRegionFacts(x1: int, y1: int, x2: int, y2: int, windowAt: Point -> Option<WindowInfo>)
    requires x1 <= x2 && y1 <= y2
    ensures var r := CalculateRegion(x1, y1, x2, y2, windowAt);
      InUnitSquare(r.fractions) && r.absolute == Bounds(x1, y1, x2 - x1, y2 - y1) &&
      match windowAt(Point(Mid(x1, x2), Mid(y1, y2)))
      case Some(w) => r == Corners.CornerRegion(w, Point(x1, y1), Point(x2, y2))
      case None => r.windowName == "" && r.windowTitle == "" && r.fractions == Fractions(0.0, 0.0, 0.0, 0.0)
  {
    match windowAt(Point(Mid(x1, x2), Mid(y1, y2))) {
      case Some(w) =>
        CornerFractionsFacts(x1, y1, x2, y2, w.bounds);
        assert Corners.Normalised(Point(x1, y1), Point(x2, y2)) == (Point(x1, y1), Point(x2, y2));
      case None =>
    }
  }

  /** The smallest accepted side of a dragged rectangle, in pixels. */
  const MinSide := 10

  /** The virtual-key code of Escape. */
  const EscapeKey := 0x1B

  /** What `show` reports once the overlay is closed. */
  datatype Outcome = ReportCancel | ReportComplete(region: RelRegion) | ReportNothing

  /** `show`: cancel when unsupported or cancelled, else complete with a region if there is one. */
  function ShowOutcome(supported: bool, cancelled: bool, result: Option<RelRegion>): (o: Outcome)
    ensures o.ReportCancel? <==> !supported || cancelled
    ensures o.ReportComplete? <==> supported && !cancelled && result.Some?
    ensures o.ReportComplete? ==> o.region == result.value
  {
    if !supported then ReportCancel
    else if cancelled then ReportCancel
    else if result.Some? then ReportComplete(result.value)
    else ReportNothing
  }

  class OverlaySelector {
    var vscreenX: int
    var vscreenY: int
    var start: Option<Point>
    var current: Option<Point>
    var dragging: bool
    var running: bool
    var cancelled: bool
    var result: Option<RelRegion>

    /** A drag in progress has both its start and its current point. */
    predicate Valid()
      reads this
    {
      dragging ==> start.Some? && current.Some?
    }

    constructor()
      ensures Valid()
      ensures !cancelled && result.None? && !dragging && !running
    {
      start, current := None, None;
      dragging, running, cancelled := false, false, false;
      result := None;
    }

    /** The overlay opens over the virtual screen with no drag. */
    method Open(vx: int, vy: int)
      modifies this
      ensures Valid()
      ensures vscreenX == vx && vscreenY == vy
      ensures start.None? && current.None? && !dragging && running
      ensures cancelled == old(cancelled) && result == old(result)
    {
      vscreenX, vscreenY := vx, vy;
      start, current := None, None;
      dragging, running := false, true;
    }

    /** `WM_LBUTTONDOWN`: a drag starts at the pointer. */
    method OnButtonDown(lparam: int)
      modifies this
      ensures Valid()
      ensures start == current == Some(MousePos(lparam, vscreenX, vscreenY)) && dragging
      ensures vscreenX == old(vscreenX) && vscreenY == old(vscreenY)
      ensures running == old(running) && cancelled == old(cancelled) && result == old(result)
    {
      var p := MousePos(lparam, vscreenX, vscreenY);
      start, current := Some(p), Some(p);
      dragging := true;
    }

    /** `WM_MOUSEMOVE`: the drag follows the pointer; without a drag nothing changes. */
    method OnMouseMove(lparam: int)
      requires Valid()
      modifies this
      ensures Valid()
      ensures current == (if old(dragging) then Some(MousePos(lparam, vscreenX, vscreenY)) else old(current))
      ensures start == old(start) && dragging == old(dragging) && running == old(running)
      ensures cancelled == old(cancelled) && result == old(result)
      ensures vscreenX == old(vscreenX) && vscreenY == old(vscreenY)
    {
      if dragging {
        current := Some(MousePos(lparam, vscreenX, vscreenY));
      }
    }

    /**
     * `WM_LBUTTONUP`: ends a drag. The corners are normalised; a rectangle
     * with both sides at least `MinSide` becomes the result and stops the
     * loop, a smaller one clears the start point and the overlay keeps
     * running. Without a drag nothing changes.
     */
    method OnButtonUp(windowAt: Point -> Option<WindowInfo>) returns (accepted: bool)
      requires Valid()
      modifies this
      ensures Valid() && !dragging
      ensures !old(dragging) ==> !accepted && start == old(start) && result == old(result) && running == old(running)
      ensures old(dragging) ==>
        var (p, q) := Corners.Normalised(old(start).value, old(current).value);
        p.x <= q.x && p.y <= q.y &&
        (accepted <==> q.x - p.x >= MinSide && q.y - p.y >= MinSide) &&
        (accepted ==> result == Some(CalculateRegion(p.x, p.y, q.x, q.y, windowAt)) && !running && start == old(start)) &&
        (!accepted ==> start.None? && result == old(result) && running == old(running))
      ensures accepted && !cancelled ==> ShowOutcome(true, cancelled, result).ReportComplete?
      ensures current == old(current) && cancelled == old(cancelled)
      ensures vscreenX == old(vscreenX) && vscreenY == old(vscreenY)
    {
      accepted := false;
      if dragging {
        dragging := false;
        var (p, q) := Corners.Normalised(start.value, current.value);
        if q.x - p.x >= MinSide && q.y - p.y >= MinSide {
          result := Some(CalculateRegion(p.x, p.y, q.x, q.y, windowAt));
          running := false;
          accepted := true;
        } else {
          start := None;
        }
      }
    }

    /** `WM_KEYDOWN`: Escape cancels and stops the loop; other keys change nothing. */
    method OnKeyDown(key: int)
      modifies this
      ensures key == EscapeKey ==> cancelled && !running && ShowOutcome(true, cancelled, result) == ReportCancel
      ensures key != EscapeKey ==> cancelled == old(cancelled) && running == old(running)
      ensures start == old(start) && current == old(current) && dragging == old(dragging) && result == old(result)
      ensures vscreenX == old(vscreenX) && vscreenY == old(vscreenY)
    {
      if key == EscapeKey {
        cancelled := true;
        running := false;
      }
    }

    /** `WM_DESTROY`: the loop stops. */
    method OnDestroy()
      modifies this
      ensures !running
      ensures start == old(start) && current == old(current) && dragging == old(dragging)
      ensures cancelled == old(cancelled) && result == old(result)
      ensures vscreenX == old(vscreenX) && vscreenY == old(vscreenY)
    {
      running := false;
    }
  }
}
