/**
 * Window lookups and region capture. The operating system's window lists
 * are inputs here: the macOS list (front to back, as Quartz reports it) and
 * the Windows enumeration order. What the program does with them is a list
 * search, a filter, and a clamp of the crop rectangle into the captured image.
 */
module WindowUtils {
  import opened Wrappers
  import opened Text
  import opened Geometry

  // ----- first match in a list -----

  /** The index of the first element satisfying `p`. */
  function FirstIndex<T>(s: seq<T>, p: T -> bool): (r: Option<nat>)
    ensures r.Some? ==> r.value < |s| && p(s[r.value]) && forall j :: 0 <= j < r.value ==> !p(s[j])
    ensures r.None? ==> forall j :: 0 <= j < |s| ==> !p(s[j])
  {
    if s == [] then None
    else if p(s[0]) then Some(0)
    else match FirstIndex(s[1..], p)
      case Some(i) => Some(i + 1)
      case None => None
  }

  /** An index that satisfies `p` with no earlier one that does is the first index. */
  lemma FirstIndexIs<T>(s: seq<T>, p: T -> bool, i: nat)
    requires i < |s| && p(s[i]) && forall j :: 0 <= j < i ==> !p(s[j])
    ensures FirstIndex(s, p) == Some(i)
  {
  }

  // ----- macOS -----

  /** Owners that are part of the system interface rather than applications. */
  const SystemOwners: set<string> := {"Window Server", "Dock", "SystemUIServer"}

  /** A macOS window entry; absent entries read as '' or 0. */
  datatype MacWindow = MacWindow(owner: string, name: string, number: int, bounds: Bounds)

  function MacInfo(w: MacWindow): WindowInfo
  {
    WindowInfo(w.owner, w.name, w.bounds)
  }

  /** The point lies in the window's bounds, edges included. */
  predicate ContainsPoint(b: Bounds, x: int, y: int)
  {
    b.x <= x <= b.x + b.width && b.y <= y <= b.y + b.height
  }

  /** The window-at-point test: contains the point and is not a system window. */
  predicate HitAt(w: MacWindow, x: int, y: int)
  {
    ContainsPoint(w.bounds, x, y) && w.owner !in SystemOwners
  }

  /** `name.lower() in owner.lower()` */
  predicate OwnerMatches(owner: string, name: string)
  {
    Contains(Lower(owner), Lower(name))
  }

  /** The window of the first index found, if any. */
  function MacAt(windows: seq<MacWindow>, i: Option<nat>): Option<WindowInfo>
    requires i.Some? ==> i.value < |windows|
  {
    if i.Some? then Some(MacInfo(windows[i.value])) else None
  }

  /** `_get_window_at_point_macos`: the frontmost non-system window containing the point. */
  method WindowAtPointMac(windows: seq<MacWindow>, x: int, y: int) returns (r: Option<WindowInfo>)
    ensures r == MacAt(windows, FirstIndex(windows, (w: MacWindow) => HitAt(w, x, y)))
  {
    var i := 0;
    while i < |windows|
      invariant 0 <= i <= |windows|
      invariant forall j :: 0 <= j < i ==> !HitAt(windows[j], x, y)
    {
      var w := windows[i];
      if ContainsPoint(w.bounds, x, y) {
        if w.owner in SystemOwners {
          i := i + 1;
          continue;
        }
        FirstIndexIs(windows, (w: MacWindow) => HitAt(w, x, y), i);
        return Some(MacInfo(w));
      }
      i := i + 1;
    }
    return None;
  }

  /** `_find_window_by_name_macos`: the first window whose owner contains the name, ignoring case. */
  method FindByNameMac(windows: seq<MacWindow>, name: string) returns (r: Option<WindowInfo>)
    ensures r == MacAt(windows, FirstIndex(windows, (w: MacWindow) => OwnerMatches(w.owner, name)))
  {
    var nameLower := Lower(name);
    var i := 0;
    while i < |windows|
      invariant 0 <= i <= |windows|
      invariant forall j :: 0 <= j < i ==> !OwnerMatches(windows[j].owner, name)
    {
      if Contains(Lower(windows[i].owner), nameLower) {
        FirstIndexIs(windows, (w: MacWindow) => OwnerMatches(w.owner, name), i);
        return Some(MacInfo(windows[i]));
      }
      i := i + 1;
    }
    return None;
  }

  /** A window the listing keeps: an application owner and a positive size. */
  predicate Listed(w: MacWindow)
  {
    w.owner !in SystemOwners && w.owner != "" && w.bounds.width > 0 && w.bounds.height > 0
  }

  /** The listed windows, in the order of the input. */
  function VisibleWindows(windows: seq<MacWindow>): seq<WindowInfo>
  {
    if windows == [] then []
    else (if Listed(windows[0]) then [MacInfo(windows[0])] else []) + VisibleWindows(windows[1..])
  }

  /** The listing holds exactly the windows that pass the filter, in order (a subsequence of the input). */
  lemma {:induction false} VisibleWindowsFacts(windows: seq<MacWindow>)
    ensures |VisibleWindows(windows)| <= |windows|
    ensures forall k :: 0 <= k < |VisibleWindows(windows)| ==>
              exists j :: 0 <= j < |windows| && Listed(windows[j]) && VisibleWindows(windows)[k] == MacInfo(windows[j])
    ensures forall j :: 0 <= j < |windows| && Listed(windows[j]) ==> MacInfo(windows[j]) in VisibleWindows(windows)
  {
    if windows != [] {
      var rest := windows[1..];
      VisibleWindowsFacts(rest);
      var head := if Listed(windows[0]) then [MacInfo(windows[0])] else [];
      var r := VisibleWindows(windows);
      assert r == head + VisibleWindows(rest);
      assert |r| == |head| + |VisibleWindows(rest)| <= 1 + |rest|;
      forall k | 0 <= k < |r|
        ensures exists j :: 0 <= j < |windows| && Listed(windows[j]) && r[k] == MacInfo(windows[j])
      {
        if k < |head| {
          assert Listed(windows[0]) && r[k] == MacInfo(windows[0]);
        } else {
          var k' := k - |head|;
          assert 0 <= k' < |VisibleWindows(rest)|;
          assert r[k] == VisibleWindows(rest)[k'];
          var j :| 0 <= j < |rest| && Listed(rest[j]) && VisibleWindows(rest)[k'] == MacInfo(rest[j]);
          assert windows[j + 1] == rest[j];
        }
      }
      forall j | 0 <= j < |windows| && Listed(windows[j])
        ensures MacInfo(windows[j]) in r
      {
        if j > 0 {
          assert windows[j] == rest[j - 1];
          assert MacInfo(windows[j]) in VisibleWindows(rest);
        } else {
          assert head == [MacInfo(windows[0])];
        }
      }
      assert forall k :: 0 <= k < |r| ==> exists j :: 0 <= j < |windows| && Listed(windows[j]) && r[k] == MacInfo(windows[j]);
      assert |r| <= |windows|;
    }
  }

  /** The listing from position `i` on: window `i` if listed, then the listing after it. */
  lemma VisibleWindowsStep(windows: seq<MacWindow>, i: int)
    requires 0 <= i < |windows|
    ensures VisibleWindows(windows[i..]) ==
      (if Listed(windows[i]) then [MacInfo(windows[i])] else []) + VisibleWindows(windows[i + 1..])
  {
    assert windows[i..][1..] == windows[i + 1..];
  }

  /** `_list_visible_windows_macos`: appends each window that passes the filter. */
  method ListVisibleMac(windows: seq<MacWindow>) returns (result: seq<WindowInfo>)
    ensures result == VisibleWindows(windows)
  {
    result := [];
    var i := 0;
    while i < |windows|
      invariant 0 <= i <= |windows|
      invariant result + VisibleWindows(windows[i..]) == VisibleWindows(windows)
    {
      VisibleWindowsStep(windows, i);
      var w := windows[i];
      if w.owner in SystemOwners || w.owner == "" {
        assert !Listed(w);
        i := i + 1;
        continue;
      }
      if w.bounds.width <= 0 || w.bounds.height <= 0 {
        assert !Listed(w);
        i := i + 1;
        continue;
      }
      assert result + VisibleWindows(windows[i..]) == (result + [MacInfo(w)]) + VisibleWindows(windows[i + 1..]);
      result := result + [MacInfo(w)];
      i := i + 1;
    }
    assert windows[i..] == [];
  }

  // ----- Windows -----

  /**
   * A top-level window in enumeration order: its handle, visibility, the
   * name of its process (`None` where looking it up raised), its window
   * rectangle (left, top, right, bottom), its title and its client size.
   */
  datatype WinWindow = WinWindow(
    hwnd: int, visible: bool, process: Option<string>,
    left: int, top: int, right: int, bottom: int, title: string,
    clientWidth: int, clientHeight: int)

  function WinBounds(w: WinWindow): Bounds
  {
    Bounds(w.left, w.top, w.right - w.left, w.bottom - w.top)
  }

  /** A visible window whose process name contains the query, ignoring case. */
  predicate ProcessMatches(w: WinWindow, name: string)
  {
    w.visible && w.process.Some? && OwnerMatches(w.process.value, name)
  }

  /** The find-by-name test on Windows: a matching process and a positive size. */
  predicate FoundOnWindows(w: WinWindow, name: string)
  {
    ProcessMatches(w, name) && WinBounds(w).width > 0 && WinBounds(w).height > 0
  }

  function WinAt(windows: seq<WinWindow>, i: Option<nat>): Option<WindowInfo>
    requires i.Some? ==> i.value < |windows|
  {
    if i.Some? then Some(WindowInfo(windows[i.value].process.GetOr(""), windows[i.value].title, WinBounds(windows[i.value])))
    else None
  }

  /** `_find_window_by_name_windows`: the first visible, non-empty window of a matching process. */
  method FindByNameWindows(windows: seq<WinWindow>, name: string) returns (result: Option<WindowInfo>)
    ensures result == WinAt(windows, FirstIndex(windows, (w: WinWindow) => FoundOnWindows(w, name)))
  {
    var nameLower := Lower(name);
    result := None;
    var i := 0;
    while i < |windows|
      invariant 0 <= i <= |windows|
      invariant result.None? ==> forall j :: 0 <= j < i ==> !FoundOnWindows(windows[j], name)
      invariant result.Some? ==> result == WinAt(windows, FirstIndex(windows, (w: WinWindow) => FoundOnWindows(w, name)))
    {
      var w := windows[i];
      if result.None? && w.visible && w.process.Some? && Contains(Lower(w.process.value), nameLower) {
        var b := WinBounds(w);
        if b.width > 0 && b.height > 0 {
          FirstIndexIs(windows, (w: WinWindow) => FoundOnWindows(w, name), i);
          result := Some(WindowInfo(w.process.value, w.title, b));
        }
      }
      i := i + 1;
    }
  }

  // ----- capture -----

  function MaxInt(a: int, b: int): int
  {
    if a >= b then a else b
  }

  function MinInt(a: int, b: int): int
  {
    if a <= b then a else b
  }

  /** The crop rectangle: the fractions scaled to the image, then clamped into it. */
  function Crop(f: Fractions, width: int, height: int): Bounds
  {
    var rx := MaxInt(0, MinInt(Trunc(f.x * width as real), width - 1));
    var ry := MaxInt(0, MinInt(Trunc(f.y * height as real), height - 1));
    Bounds(rx, ry,
           MaxInt(1, MinInt(Trunc(f.w * width as real), width - rx)),
           MaxInt(1, MinInt(Trunc(f.h * height as real), height - ry)))
  }

  /** The crop lies in the image and is never empty, whatever the fractions. */
  lemma CropInImage(f: Fractions, width: int, height: int)
    requires width >= 1 && height >= 1
    ensures var c := Crop(f, width, height);
      0 <= c.x <= width - 1 && 0 <= c.y <= height - 1 &&
      1 <= c.width <= width - c.x && 1 <= c.height <= height - c.y
  {
  }

  /** Zero fractions crop the top-left pixel. */
  lemma CropOfZeroFractions(width: int, height: int)
    requires width >= 1 && height >= 1
    ensures Crop(Fractions(0.0, 0.0, 0.0, 0.0), width, height) == Bounds(0, 0, 1, 1)
  {
    TruncOfInt(0);
  }

  /** The macOS capture: the window to capture and the size of its image. */
  datatype MacCapture = MacCapture(window: MacWindow, width: int, height: int)

  /**
   * `_capture_window_region_macos`: the first window whose owner matches
   * (system windows included); none, a window number of 0, or a failed
   * image (`imageSize` gives `None`) means no capture; a non-positive
   * image size as well. Otherwise the crop rectangle in the image.
   */
  method CaptureRegionMac(windows: seq<MacWindow>, name: string, f: Fractions, imageSize: int -> Option<(int, int)>)
    returns (crop: Option<Bounds>)
    ensures var i := FirstIndex(windows, (w: MacWindow) => OwnerMatches(w.owner, name));
      crop.Some? <==> (i.Some? && windows[i.value].number != 0 &&
                       imageSize(windows[i.value].number).Some? &&
                       imageSize(windows[i.value].number).value.0 > 0 && imageSize(windows[i.value].number).value.1 > 0)
    ensures crop.Some? ==>
      var i := FirstIndex(windows, (w: MacWindow) => OwnerMatches(w.owner, name));
      var size := imageSize(windows[i.value].number).value;
      crop.value == Crop(f, size.0, size.1)
  {
    var nameLower := Lower(name);
    var target: Option<MacWindow> := None;
    var i := 0;
    while i < |windows|
      invariant 0 <= i <= |windows|
      invariant forall j :: 0 <= j < i ==> !OwnerMatches(windows[j].owner, name)
    {
      if Contains(Lower(windows[i].owner), nameLower) {
        FirstIndexIs(windows, (w: MacWindow) => OwnerMatches(w.owner, name), i);
        target := Some(windows[i]);
        break;
      }
      i := i + 1;
    }
    if target.None? {
      return None;
    }
    var windowId := target.value.number;
    if windowId == 0 {
      return None;
    }
    var image := imageSize(windowId);
    if image.None? {
      return None;
    }
    var (width, height) := image.value;
    if width <= 0 || height <= 0 {
      return None;
    }
    return Some(Crop(f, width, height));
  }

  /**
   * `_capture_window_region_windows`: the first visible window of a matching
   * process (any size); no window, a zero handle, or a non-positive client
   * size means no capture. Otherwise the crop rectangle in the client area.
   */
  method CaptureRegionWindows(windows: seq<WinWindow>, name: string, f: Fractions) returns (crop: Option<Bounds>)
    ensures var i := FirstIndex(windows, (w: WinWindow) => ProcessMatches(w, name));
      crop.Some? <==> (i.Some? && windows[i.value].hwnd != 0 &&
                       windows[i.value].clientWidth > 0 && windows[i.value].clientHeight > 0)
    ensures crop.Some? ==>
      var w := windows[FirstIndex(windows, (w: WinWindow) => ProcessMatches(w, name)).value];
      crop.value == Crop(f, w.clientWidth, w.clientHeight)
  {
    var nameLower := Lower(name);
    var target: Option<WinWindow> := None;
    var i := 0;
    while i < |windows|
      invariant 0 <= i <= |windows|
      invariant target.None? ==> forall j :: 0 <= j < i ==> !ProcessMatches(windows[j], name)
      invariant target.Some? ==> FirstIndex(windows, (w: WinWindow) => ProcessMatches(w, name)).Some? &&
                                 target.value == windows[FirstIndex(windows, (w: WinWindow) => ProcessMatches(w, name)).value]
    {
      var w := windows[i];
      if target.None? && w.visible && w.process.Some? && Contains(Lower(w.process.value), nameLower) {
        FirstIndexIs(windows, (w: WinWindow) => ProcessMatches(w, name), i);
        target := Some(w);
      }
      i := i + 1;
    }
    if target.None? || target.value.hwnd == 0 {
      return None;
    }
    var width, height := target.value.clientWidth, target.value.clientHeight;
    if width <= 0 || height <= 0 {
      return None;
    }
    return Some(Crop(f, width, height));
  }
}
