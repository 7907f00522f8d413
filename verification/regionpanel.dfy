/**
 * The detection-region panel that the setup section and the calibration tab
 * both show: how the stored region is read for a capture and for display,
 * the all-zero region "Clear" saves, what a selector's progress message does
 * to the instruction line, and the counter that runs the live preview on
 * every tenth pass of the UI loop. The stored settings are the settings tree
 * of the configuration store.
 */
module RegionPanel {
  import opened Wrappers
  import opened ConfigStore

  // ----- reading the stored region -----

  /** `config.get('detection.region.<name>', default)` */
  function RegionGet(data: map<string, Value>, name: string, default: Value): Value
  {
    GetPath(data, ["detection", "region", name], default)
  }

  /** A region setting is the entry of that name in the stored region dict, or the default when it is missing or `None`. */
  lemma RegionGetOfEntry(data: map<string, Value>, name: string, default: Value)
    ensures RegionGet(data, name, default) ==
      match Lookup(Dict(data), ["detection", "region"])
      case Some(Dict(f)) => if name in f && !f[name].Null? then f[name] else default
      case _ => default
  {
    assert ["detection", "region", name] == ["detection", "region"] + [name];
    LookupSnoc(Dict(data), ["detection", "region"], name);
  }

  /** The region handed to the capture callback: window-relative, or an absolute rectangle. */
  datatype CaptureRegion =
    | ByWindow(windowName: Value, xPercent: Value, yPercent: Value, wPercent: Value, hPercent: Value)
    | ByPosition(x: Value, y: Value, width: Value, height: Value)

  /**
   * `_get_region_for_capture`: the window name with its four fractions when
   * the stored window name is truthy, else the legacy rectangle; a missing
   * (or `None`) entry reads as 0, so no entry is ever `None`.
   */
  function RegionForCapture(data: map<string, Value>): (r: CaptureRegion)
    ensures r.ByWindow? <==> Truthy(RegionGet(data, "window_name", Str("")))
    ensures r.ByWindow? ==> Truthy(r.windowName)
    ensures r.ByWindow? ==> !r.xPercent.Null? && !r.yPercent.Null? && !r.wPercent.Null? && !r.hPercent.Null?
    ensures r.ByPosition? ==> !r.x.Null? && !r.y.Null? && !r.width.Null? && !r.height.Null?
  {
    var name := RegionGet(data, "window_name", Str(""));
    if Truthy(name) then
      ByWindow(name, RegionGet(data, "x_percent", Int(0)), RegionGet(data, "y_percent", Int(0)),
               RegionGet(data, "w_percent", Int(0)), RegionGet(data, "h_percent", Int(0)))
    else
      ByPosition(RegionGet(data, "x", Int(0)), RegionGet(data, "y", Int(0)),
                 RegionGet(data, "width", Int(0)), RegionGet(data, "height", Int(0)))
  }

  /** `v > 0` for a number; anything else is not positive here. */
  predicate Positive(v: Value)
  {
    Num(v).Some? && Num(v).value > 0.0
  }

  /** The four kinds of region text. */
  datatype RegionDisplay =
    | WindowRegion(name: Value, x: Value, y: Value, w: Value, h: Value)
    | WindowWithoutRegion(name: Value)
    | AbsoluteRegion(x: Value, y: Value, width: Value, height: Value)
    | FullScreen

  /**
   * `_update_region_display`: a window region shows its fractions when both
   * its width and height fractions are positive and "(no region)" otherwise;
   * without a window name the rectangle shows when its width and height are
   * positive, and "Full screen (no region set)" otherwise. The display names
   * a window exactly when the capture is window-relative, and shows the very
   * values the capture uses.
   */
  function DisplayOf(data: map<string, Value>): (d: RegionDisplay)
    ensures d.WindowRegion? || d.WindowWithoutRegion? <==> RegionForCapture(data).ByWindow?
    ensures d.WindowRegion? <==>
      (RegionForCapture(data).ByWindow? && Positive(RegionForCapture(data).wPercent) && Positive(RegionForCapture(data).hPercent))
    ensures d.AbsoluteRegion? <==>
      (RegionForCapture(data).ByPosition? && Positive(RegionForCapture(data).width) && Positive(RegionForCapture(data).height))
    ensures d.WindowRegion? ==> var r := RegionForCapture(data);
      d == WindowRegion(r.windowName, r.xPercent, r.yPercent, r.wPercent, r.hPercent)
    ensures d.WindowWithoutRegion? ==> d.name == RegionForCapture(data).windowName
    ensures d.AbsoluteRegion? ==> var r := RegionForCapture(data);
      d == AbsoluteRegion(r.x, r.y, r.width, r.height)
  {
    var name := RegionGet(data, "window_name", Str(""));
    if Truthy(name) then
      var w, h := RegionGet(data, "w_percent", Int(0)), RegionGet(data, "h_percent", Int(0));
      if Positive(w) && Positive(h) then
        WindowRegion(name, RegionGet(data, "x_percent", Int(0)), RegionGet(data, "y_percent", Int(0)), w, h)
      else WindowWithoutRegion(name)
    else
      var width, height := RegionGet(data, "width", Int(0)), RegionGet(data, "height", Int(0));
      if Positive(width) && Positive(height) then
        AbsoluteRegion(RegionGet(data, "x", Int(0)), RegionGet(data, "y", Int(0)), width, height)
      else FullScreen
  }

  /** The region "Clear" saves: the all-zero rectangle. */
  function ClearedRegion(): Value
  {
    Dict(map["x" := Int(0), "y" := Int(0), "width" := Int(0), "height" := Int(0)])
  }

  /** Once the cleared region is the stored one, captures take the all-zero rectangle and the text is "Full screen". */
  lemma ClearedRegionIsFullScreen(data: map<string, Value>)
    requires Lookup(Dict(data), ["detection", "region"]) == Some(ClearedRegion())
    ensures RegionForCapture(data) == ByPosition(Int(0), Int(0), Int(0), Int(0))
    ensures DisplayOf(data) == FullScreen
  {
    RegionGetOfEntry(data, "window_name", Str(""));
    RegionGetOfEntry(data, "x", Int(0));
    RegionGetOfEntry(data, "y", Int(0));
    RegionGetOfEntry(data, "width", Int(0));
    RegionGetOfEntry(data, "height", Int(0));
  }

  // ----- selector progress -----

  /** The instruction line after a progress message: cleared on cancel (step -1) and on completion (step 2), else the message. */
  function Instruction(message: string, step: int): (r: string)
    ensures step == -1 || step == 2 ==> r == ""
    ensures step != -1 && step != 2 ==> r == message
  {
    if step == -1 || step == 2 then "" else message
  }

  // ----- live preview -----

  /** The live preview runs on every this-many passes of the UI loop. */
  const LiveEvery := 10

  /** One pass with the live preview on: the counter advances, and on reaching 10 it resets and the preview runs. */
  function LiveStep(counter: nat): (nat, bool)
  {
    if counter + 1 >= LiveEvery then (0, true) else (counter + 1, false)
  }

  /** The counter after `n` passes with the live preview on, and how many times the preview ran. */
  function LiveRun(counter: nat, n: nat): (nat, nat)
    decreases n
  {
    if n == 0 then (counter, 0)
    else
      var (next, fired) := LiveStep(counter);
      var (last, count) := LiveRun(next, n - 1);
      (last, count + if fired then 1 else 0)
  }

  /** From a counter below 10, `n` passes run the preview `(counter + n) / 10` times and leave the counter at `(counter + n) % 10`. */
  lemma {:induction false} LiveRunCounts(counter: nat, n: nat)
    requires counter < LiveEvery
    ensures LiveRun(counter, n) == ((counter + n) % LiveEvery, (counter + n) / LiveEvery)
    decreases n
  {
    if n > 0 {
      var (next, fired) := LiveStep(counter);
      LiveRunCounts(next, n - 1);
      if fired {
        assert counter + n == LiveEvery + (n - 1);
      } else {
        assert next + (n - 1) == counter + n;
      }
    }
  }

  /**
   * What the detection result line shows: a failed capture or a test result
   * with its confidence after "Capture & Test", a match or no match after a
   * live run, or the live mode's ON/OFF status written when it is switched.
   */
  datatype TestOutcome = CaptureFailed | Tested(isMatch: bool, confidence: real) | LiveTested(isMatch: bool) | LiveStatus(on: bool)
}
