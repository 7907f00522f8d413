/**
 * The setup section of the main window: the region panel's callbacks and
 * the pass it makes on every turn of the UI loop, the live preview switch,
 * and the monitor, game and cooldown widgets. The selectors report from
 * their own threads into the two pending slots, which only `Update` empties.
 * The capture and detection-test callbacks are parameters; the region saves
 * are recorded in order.
 */
module Setup {
  import opened Wrappers
  import opened ConfigStore
  import opened Labels
  import opened RegionPanel
  import opened Detector
  import opened Geometry

  /** `_collect_settings`: a setting for each of the monitor, game and cooldown widgets that exists; `None` where reading a widget raises. */
  function CollectSettings(widgets: map<string, Value>): (r: Option<map<string, Value>>)
    ensures r.Some? ==> ("detection.monitor" in r.value <==> "setup_monitor" in widgets)
    ensures r.Some? ==> ("current_game" in r.value <==> "setup_game" in widgets)
    ensures r.Some? ==> ("detection.death_cooldown" in r.value <==> "setup_cooldown" in widgets)
    ensures r.None? <==>
      ("setup_monitor" in widgets && MonitorSetting(widgets["setup_monitor"]).None?) ||
      ("setup_cooldown" in widgets && CooldownSetting(widgets["setup_cooldown"]).None?)
  {
    var monitor := if "setup_monitor" in widgets then MonitorSetting(widgets["setup_monitor"]) else Some(Null);
    var cooldown := if "setup_cooldown" in widgets then CooldownSetting(widgets["setup_cooldown"]) else Some(Null);
    if monitor.None? || cooldown.None? then None
    else
      var s1 := if "setup_monitor" in widgets then map["detection.monitor" := monitor.value] else map[];
      var s2 := if "setup_game" in widgets then s1["current_game" := widgets["setup_game"]] else s1;
      var s3 := if "setup_cooldown" in widgets then s2["detection.death_cooldown" := cooldown.value] else s2;
      Some(s3)
  }

  /** The widgets that exist take the monitor label, the game and the cooldown label of the given settings; `None` where Python raises. */
  function ShowSettings(monitor: Value, game: Value, cooldown: Value, widgets: map<string, Value>): (r: Option<map<string, Value>>)
    ensures r.None? <==>
      ("setup_monitor" in widgets && MonitorText(monitor).None?) ||
      ("setup_cooldown" in widgets && CooldownText(cooldown).None?)
    ensures r.Some? ==> r.value.Keys == widgets.Keys
    ensures r.Some? && "setup_monitor" in widgets ==> Some(r.value["setup_monitor"]) == MonitorText(monitor)
    ensures r.Some? && "setup_game" in widgets ==> r.value["setup_game"] == game
    ensures r.Some? && "setup_cooldown" in widgets ==> Some(r.value["setup_cooldown"]) == CooldownText(cooldown)
    ensures r.Some? ==> forall k :: (k in widgets && k != "setup_monitor" && k != "setup_game" && k != "setup_cooldown") ==>
                                    r.value[k] == widgets[k]
  {
    var monitorText := MonitorText(monitor);
    var cooldownText := CooldownText(cooldown);
    if ("setup_monitor" in widgets && monitorText.None?) || ("setup_cooldown" in widgets && cooldownText.None?) then None
    else
      var w1 := if "setup_monitor" in widgets then widgets["setup_monitor" := monitorText.value] else widgets;
      var w2 := if "setup_game" in widgets then w1["setup_game" := game] else w1;
      var w3 := if "setup_cooldown" in widgets then w2["setup_cooldown" := cooldownText.value] else w2;
      Some(w3)
  }

  /** `load_from_config`: the monitor (default 0), the game (default "Bloodborne") and the cooldown (default 5.0) shown in the widgets. */
  function LoadFromConfig(data: map<string, Value>, widgets: map<string, Value>): (r: Option<map<string, Value>>)
    ensures r.None? <==>
      ("setup_monitor" in widgets && IntOf(GetPath(data, ["detection", "monitor"], Int(0))).None?) ||
      ("setup_cooldown" in widgets && Num(GetPath(data, ["detection", "death_cooldown"], Real(5.0))).None?)
    ensures r.Some? ==> r.value.Keys == widgets.Keys
    ensures r.Some? && "setup_game" in widgets ==> r.value["setup_game"] == GetPath(data, ["current_game"], Str("Bloodborne"))
  {
    ShowSettings(GetPath(data, ["detection", "monitor"], Int(0)), GetPath(data, ["current_game"], Str("Bloodborne")),
                 GetPath(data, ["detection", "death_cooldown"], Real(5.0)), widgets)
  }

  /**
   * Showing settings in the widgets and collecting them again gives back
   * the monitor and the game, and the cooldown truncated to whole seconds.
   */
  lemma ShowThenCollect(monitor: Value, game: Value, cooldown: Value, widgets: map<string, Value>)
    requires "setup_monitor" in widgets && "setup_game" in widgets && "setup_cooldown" in widgets
    requires IntOf(monitor).Some? && Num(cooldown).Some?
    ensures ShowSettings(monitor, game, cooldown, widgets).Some?
    ensures var r := CollectSettings(ShowSettings(monitor, game, cooldown, widgets).value);
      r.Some? && r.value["detection.monitor"] == Int(IntOf(monitor).value) && r.value["current_game"] == game &&
      r.value["detection.death_cooldown"] == Real(Trunc(Num(cooldown).value) as real)
  {
    MonitorWidgetRoundTrip(monitor);
    CooldownWidgetRoundTrip(cooldown);
    var shown := ShowSettings(monitor, game, cooldown, widgets).value;
    ShownWidgets(monitor, game, cooldown, widgets);
    CollectAll(shown, Int(IntOf(monitor).value), game, Real(Trunc(Num(cooldown).value) as real));
  }

  /** What the three widgets hold once the settings are shown. */
  lemma ShownWidgets(monitor: Value, game: Value, cooldown: Value, widgets: map<string, Value>)
    requires "setup_monitor" in widgets && "setup_game" in widgets && "setup_cooldown" in widgets
    requires MonitorText(monitor).Some? && CooldownText(cooldown).Some?
    ensures ShowSettings(monitor, game, cooldown, widgets).Some?
    ensures var shown := ShowSettings(monitor, game, cooldown, widgets).value;
      shown["setup_monitor"] == MonitorText(monitor).value && shown["setup_game"] == game &&
      shown["setup_cooldown"] == CooldownText(cooldown).value
  {
  }

  /** With all three widgets readable, the collected settings are exactly the three values read. */
  lemma CollectAll(widgets: map<string, Value>, monitor: Value, game: Value, cooldown: Value)
    requires "setup_monitor" in widgets && "setup_game" in widgets && "setup_cooldown" in widgets
    requires MonitorSetting(widgets["setup_monitor"]) == Some(monitor) && widgets["setup_game"] == game
    requires CooldownSetting(widgets["setup_cooldown"]) == Some(cooldown)
    ensures CollectSettings(widgets) == Some(map["detection.monitor" := monitor, "current_game" := game, "detection.death_cooldown" := cooldown])
  {
  }

  /** A whole-second cooldown and the monitor and game read from the settings survive a load and a collect. */
  lemma LoadThenCollect(data: map<string, Value>, widgets: map<string, Value>)
    requires "setup_monitor" in widgets && "setup_game" in widgets && "setup_cooldown" in widgets
    requires IntOf(GetPath(data, ["detection", "monitor"], Int(0))).Some?
    requires Num(GetPath(data, ["detection", "death_cooldown"], Real(5.0))).Some?
    ensures LoadFromConfig(data, widgets).Some?
    ensures var r := CollectSettings(LoadFromConfig(data, widgets).value);
      var c := Num(GetPath(data, ["detection", "death_cooldown"], Real(5.0))).value;
      r.Some? &&
      r.value["detection.monitor"] == Int(IntOf(GetPath(data, ["detection", "monitor"], Int(0))).value) &&
      r.value["current_game"] == GetPath(data, ["current_game"], Str("Bloodborne")) &&
      (c == c.Floor as real ==> r.value["detection.death_cooldown"] == Real(c))
  {
    var c := Num(GetPath(data, ["detection", "death_cooldown"], Real(5.0))).value;
    ShowThenCollect(GetPath(data, ["detection", "monitor"], Int(0)), GetPath(data, ["current_game"], Str("Bloodborne")),
                    GetPath(data, ["detection", "death_cooldown"], Real(5.0)), widgets);
    TruncOfInt(c.Floor);
  }

  /**
   * With no `detection` or `current_game` settings stored, loading and
   * collecting gives the defaults: monitor 0, game "Bloodborne" and
   * cooldown 5.0.
   */
  lemma LoadDefaultsThenCollect(data: map<string, Value>, widgets: map<string, Value>)
    requires "detection" !in data && "current_game" !in data
    requires "setup_monitor" in widgets && "setup_game" in widgets && "setup_cooldown" in widgets
    ensures LoadFromConfig(data, widgets).Some?
    ensures var r := CollectSettings(LoadFromConfig(data, widgets).value);
      r.Some? && r.value["detection.monitor"] == Int(0) && r.value["current_game"] == Str("Bloodborne") &&
      r.value["detection.death_cooldown"] == Real(5.0)
  {
    assert GetPath(data, ["detection", "monitor"], Int(0)) == Int(0);
    assert GetPath(data, ["current_game"], Str("Bloodborne")) == Str("Bloodborne");
    assert GetPath(data, ["detection", "death_cooldown"], Real(5.0)) == Real(5.0);
    LoadThenCollect(data, widgets);
  }

  class SetupSection {
    /** The last progress report not yet shown, as (message, step). */
    var pendingProgress: Option<(string, int)>
    /** The last selected region not yet saved. */
    var pendingRegion: Option<Value>
    var liveActive: bool
    var liveCounter: nat
    /** The instruction line under the selection buttons. */
    var instruction: string
    /** The frame kept by the last successful "Capture & Test". */
    var captured: Option<Frame>
    /** The detection result line. */
    var outcome: Option<TestOutcome>
    /** The `on_save_region` launches. */
    var saved: seq<Value>
    /** How many times the live preview ran. */
    var liveRuns: nat

    /** Between passes the live counter is below 10. */
    predicate Valid()
      reads this
    {
      liveCounter < LiveEvery
    }

    constructor()
      ensures Valid()
      ensures pendingProgress.None? && pendingRegion.None? && !liveActive && liveCounter == 0
      ensures captured.None? && outcome.None? && saved == [] && liveRuns == 0
    {
      pendingProgress, pendingRegion := None, None;
      liveActive, liveCounter := false, 0;
      instruction := "";
      captured, outcome := None, None;
      saved, liveRuns := [], 0;
    }

    /** `_on_region_progress`: a progress report waits for the next pass. */
    method OnRegionProgress(message: string, step: int)
      modifies this
      ensures pendingProgress == Some((message, step))
      ensures pendingRegion == old(pendingRegion) && liveActive == old(liveActive) && liveCounter == old(liveCounter)
      ensures instruction == old(instruction) && captured == old(captured) && outcome == old(outcome)
      ensures saved == old(saved) && liveRuns == old(liveRuns)
    {
      pendingProgress := Some((message, step));
    }

    /** `_on_region_selected`: the region waits for the next pass. */
    method OnRegionSelected(region: Value)
      modifies this
      ensures pendingRegion == Some(region)
      ensures pendingProgress == old(pendingProgress) && liveActive == old(liveActive) && liveCounter == old(liveCounter)
      ensures instruction == old(instruction) && captured == old(captured) && outcome == old(outcome)
      ensures saved == old(saved) && liveRuns == old(liveRuns)
    {
      pendingRegion := Some(region);
    }

    /** `_on_region_cancel`: reported as an empty message at step -1. */
    method OnRegionCancel()
      modifies this
      ensures pendingProgress == Some(("", -1))
      ensures pendingRegion == old(pendingRegion) && liveActive == old(liveActive) && liveCounter == old(liveCounter)
      ensures instruction == old(instruction) && captured == old(captured) && outcome == old(outcome)
      ensures saved == old(saved) && liveRuns == old(liveRuns)
    {
      pendingProgress := Some(("", -1));
    }

    /** `_on_clear_region`: the all-zero rectangle is saved. */
    method OnClearRegion()
      modifies this
      ensures saved == old(saved) + [ClearedRegion()]
      ensures pendingProgress == old(pendingProgress) && pendingRegion == old(pendingRegion)
      ensures liveActive == old(liveActive) && liveCounter == old(liveCounter)
      ensures instruction == old(instruction) && captured == old(captured) && outcome == old(outcome)
      ensures liveRuns == old(liveRuns)
    {
      saved := saved + [ClearedRegion()];
    }

    /**
     * `_on_capture_and_test`: the region read from the settings is captured;
     * a failed capture is reported and leaves the kept frame alone, else the
     * frame is kept and tested.
     */
    method CaptureAndTest(data: map<string, Value>, capture: CaptureRegion -> Option<Frame>, test: Frame -> (bool, real))
      modifies this
      ensures var frame := capture(RegionForCapture(data));
        (frame.None? ==> outcome == Some(CaptureFailed) && captured == old(captured)) &&
        (frame.Some? ==> outcome == Some(Tested(test(frame.value).0, test(frame.value).1)) && captured == frame)
      ensures pendingProgress == old(pendingProgress) && pendingRegion == old(pendingRegion)
      ensures liveActive == old(liveActive) && liveCounter == old(liveCounter)
      ensures instruction == old(instruction) && saved == old(saved) && liveRuns == old(liveRuns)
    {
      var frame := capture(RegionForCapture(data));
      if frame.None? {
        outcome := Some(CaptureFailed);
        return;
      }
      captured := frame;
      var (isMatch, confidence) := test(frame.value);
      outcome := Some(Tested(isMatch, confidence));
    }

    /**
     * `_update_live_debug`: like a test, but a failed capture changes
     * nothing, the frame is not kept and the result line shows the match
     * without its confidence.
     */
    method UpdateLiveDebug(data: map<string, Value>, capture: CaptureRegion -> Option<Frame>, test: Frame -> (bool, real))
      modifies this
      ensures liveRuns == old(liveRuns) + 1
      ensures var frame := capture(RegionForCapture(data));
        outcome == if frame.None? then old(outcome) else Some(LiveTested(test(frame.value).0))
      ensures pendingProgress == old(pendingProgress) && pendingRegion == old(pendingRegion)
      ensures liveActive == old(liveActive) && liveCounter == old(liveCounter)
      ensures instruction == old(instruction) && captured == old(captured) && saved == old(saved)
    {
      liveRuns := liveRuns + 1;
      var frame := capture(RegionForCapture(data));
      if frame.None? {
        return;
      }
      var (isMatch, _) := test(frame.value);
      outcome := Some(LiveTested(isMatch));
    }

    /**
     * `_on_toggle_live_preview`: live preview flips; when the preview button
     * exists, the result line then shows "Live: ON" or "Live: OFF".
     */
    method ToggleLivePreview(buttonExists: bool)
      modifies this
      ensures liveActive == !old(liveActive)
      ensures outcome == if buttonExists then Some(LiveStatus(liveActive)) else old(outcome)
      ensures pendingProgress == old(pendingProgress) && pendingRegion == old(pendingRegion) && liveCounter == old(liveCounter)
      ensures instruction == old(instruction) && captured == old(captured)
      ensures saved == old(saved) && liveRuns == old(liveRuns)
    {
      liveActive := !liveActive;
      if buttonExists {
        outcome := Some(LiveStatus(liveActive));
      }
    }

    /** `hide`: the live preview is always off afterwards. */
    method Hide()
      modifies this
      ensures !liveActive
      ensures pendingProgress == old(pendingProgress) && pendingRegion == old(pendingRegion) && liveCounter == old(liveCounter)
      ensures instruction == old(instruction) && captured == old(captured) && outcome == old(outcome)
      ensures saved == old(saved) && liveRuns == old(liveRuns)
    {
      if liveActive {
        liveActive := false;
      }
    }

    /**
     * `update`, one pass of the UI loop. Each pending slot is consumed
     * exactly once: a progress report sets the instruction line (cleared at
     * step -1 or 2); a pending region is saved, clears the instruction line
     * and is captured and tested with the settings `data` as they are after
     * the save. Then, with the live preview on, the counter advances and on
     * reaching 10 resets and runs the preview; with it off the counter is
     * left alone. The capture and the test are callbacks that need not give
     * the same answer twice (each capture is a new screen grab, and the test
     * may step the detector's streak counter), so the live run's capture and
     * test are parameters of their own, `liveCapture` and `liveTest`.
     */
    method Update(data: map<string, Value>, capture: CaptureRegion -> Option<Frame>, test: Frame -> (bool, real),
                  liveCapture: CaptureRegion -> Option<Frame>, liveTest: Frame -> (bool, real))
      requires Valid()
      modifies this
      ensures Valid()
      ensures pendingProgress.None? && pendingRegion.None?
      ensures instruction ==
        if old(pendingRegion).Some? then ""
        else if old(pendingProgress).Some? then Instruction(old(pendingProgress).value.0, old(pendingProgress).value.1)
        else old(instruction)
      ensures saved == old(saved) + (if old(pendingRegion).Some? then [old(pendingRegion).value] else [])
      ensures liveActive == old(liveActive)
      ensures liveCounter == if old(liveActive) then LiveStep(old(liveCounter)).0 else old(liveCounter)
      ensures liveRuns == old(liveRuns) + (if old(liveActive) && LiveStep(old(liveCounter)).1 then 1 else 0)
      ensures captured ==
        if old(pendingRegion).Some? && capture(RegionForCapture(data)).Some? then capture(RegionForCapture(data))
        else old(captured)
      ensures old(pendingRegion).None? && liveRuns == old(liveRuns) ==> outcome == old(outcome)
      ensures var f := capture(RegionForCapture(data));
        var g := liveCapture(RegionForCapture(data));
        outcome ==
          if old(liveActive) && LiveStep(old(liveCounter)).1 && g.Some? then Some(LiveTested(liveTest(g.value).0))
          else if old(pendingRegion).Some? then
            (if f.Some? then Some(Tested(test(f.value).0, test(f.value).1)) else Some(CaptureFailed))
          else old(outcome)
    {
      if pendingProgress.Some? {
        var (message, step) := pendingProgress.value;
        pendingProgress := None;
        instruction := Instruction(message, step);
      }
      if pendingRegion.Some? {
        var region := pendingRegion.value;
        pendingRegion := None;
        saved := saved + [region];
        instruction := "";
        CaptureAndTest(data, capture, test);
      }
      AdvanceLive(data, liveCapture, liveTest);
    }

    /** The live-preview half of `update`: with the preview on, the counter advances and on firing runs the preview. */
    method AdvanceLive(data: map<string, Value>, capture: CaptureRegion -> Option<Frame>, test: Frame -> (bool, real))
      modifies this
      ensures liveCounter == if old(liveActive) then LiveStep(old(liveCounter)).0 else old(liveCounter)
      ensures liveRuns == old(liveRuns) + (if old(liveActive) && LiveStep(old(liveCounter)).1 then 1 else 0)
      ensures var f := capture(RegionForCapture(data));
        outcome ==
          if old(liveActive) && LiveStep(old(liveCounter)).1 && f.Some? then Some(LiveTested(test(f.value).0))
          else old(outcome)
      ensures pendingProgress == old(pendingProgress) && pendingRegion == old(pendingRegion) && liveActive == old(liveActive)
      ensures instruction == old(instruction) && captured == old(captured) && saved == old(saved)
    {
      if liveActive {
        var (next, fire) := LiveStep(liveCounter);
        liveCounter := next;
        if fire {
          UpdateLiveDebug(data, capture, test);
        }
      }
    }
  }
}
