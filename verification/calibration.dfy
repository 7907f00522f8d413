/**
 * The calibration tab: the same region panel as the setup section, with its
 * own pending slots, live debug counter and capture test. The selectors
 * report from their own threads into the two pending slots, which only
 * `Update` empties. The capture and detection-test callbacks are
 * parameters; the region saves are recorded in order.
 */
module Calibration {
  import opened Wrappers
  import opened ConfigStore
  import opened RegionPanel
  import opened Detector

  class CalibrationTab {
    /** The last progress report not yet shown, as (message, step). */
    var pendingProgress: Option<(string, int)>
    /** The last selected region not yet saved. */
    var pendingRegion: Option<Value>
    var liveActive: bool
    var liveCounter: nat
    /** The F9 instruction line. */
    var instruction: string
    /** The frame kept by the last successful "Capture & Test". */
    var captured: Option<Frame>
    /** The detection result line. */
    var outcome: Option<TestOutcome>
    /** The `on_save_region` launches. */
    var saved: seq<Value>
    /** How many times the live preview ran. */
    var liveRuns: nat

    /** Between passes the live counter is below 10. */
    predicate Valid()
      reads this
    {
      liveCounter < LiveEvery
    }

    constructor()
      ensures Valid()
      ensures pendingProgress.None? && pendingRegion.None? && !liveActive && liveCounter == 0
      ensures captured.None? && outcome.None? && saved == [] && liveRuns == 0
    {
      pendingProgress, pendingRegion := None, None;
      liveActive, liveCounter := false, 0;
      instruction := "";
      captured, outcome := None, None;
      saved, liveRuns := [], 0;
    }

    /** `_on_region_progress`: a progress report from the corner selector waits for the next pass. */
    method OnRegionProgress(message: string, step: int)
      modifies this
      ensures pendingProgress == Some((message, step))
      ensures pendingRegion == old(pendingRegion) && liveActive == old(liveActive) && liveCounter == old(liveCounter)
      ensures instruction == old(instruction) && captured == old(captured) && outcome == old(outcome)
      ensures saved == old(saved) && liveRuns == old(liveRuns)
    {
      pendingProgress := Some((message, step));
    }

    /** `_on_region_selected_visual` and `_on_region_selected_f9`: the region waits for the next pass. */
    method OnRegionSelected(region: Value)
      modifies this
      ensures pendingRegion == Some(region)
      ensures pendingProgress == old(pendingProgress) && liveActive == old(liveActive) && liveCounter == old(liveCounter)
      ensures instruction == old(instruction) && captured == old(captured) && outcome == old(outcome)
      ensures saved == old(saved) && liveRuns == old(liveRuns)
    {
      pendingRegion := Some(region);
    }

    /** `_on_region_cancel_visual` and `_on_region_cancel_f9`: reported as an empty message at step -1. */
    method OnRegionCancel()
      modifies this
      ensures pendingProgress == Some(("", -1))
      ensures pendingRegion == old(pendingRegion) && liveActive == old(liveActive) && liveCounter == old(liveCounter)
      ensures instruction == old(instruction) && captured == old(captured) && outcome == old(outcome)
      ensures saved == old(saved) && liveRuns == old(liveRuns)
    {
      pendingProgress := Some(("", -1));
    }

    /** `_on_clear_region`: the all-zero rectangle is saved. */
    method OnClearRegion()
      modifies this
      ensures saved == old(saved) + [ClearedRegion()]
      ensures pendingProgress == old(pendingProgress) && pendingRegion == old(pendingRegion)
      ensures liveActive == old(liveActive) && liveCounter == old(liveCounter)
      ensures instruction == old(instruction) && captured == old(captured) && outcome == old(outcome)
      ensures liveRuns == old(liveRuns)
    {
      saved := saved + [ClearedRegion()];
    }

    /**
     * `_on_capture_and_test`: the region read from the settings is captured;
     * a failed capture is reported and leaves the kept frame alone, else the
     * frame is kept and tested.
     */
    method CaptureAndTest(data: map<string, Value>, capture: CaptureRegion -> Option<Frame>, test: Frame -> (bool, real))
      modifies this
      ensures var frame := capture(RegionForCapture(data));
        (frame.None? ==> outcome == Some(CaptureFailed) && captured == old(captured)) &&
        (frame.Some? ==> outcome == Some(Tested(test(frame.value).0, test(frame.value).1)) && captured == frame)
      ensures pendingProgress == old(pendingProgress) && pendingRegion == old(pendingRegion)
      ensures liveActive == old(liveActive) && liveCounter == old(liveCounter)
      ensures instruction == old(instruction) && saved == old(saved) && liveRuns == old(liveRuns)
    {
      var frame := capture(RegionForCapture(data));
      if frame.None? {
        outcome := Some(CaptureFailed);
        return;
      }
      captured := frame;
      var (isMatch, confidence) := test(frame.value);
      outcome := Some(Tested(isMatch, confidence));
    }

    /**
     * `_update_live_debug`: like a test, but a failed capture changes
     * nothing, the frame is not kept and the result line shows the match
     * without its confidence.
     */
    method UpdateLiveDebug(data: map<string, Value>, capture: CaptureRegion -> Option<Frame>, test: Frame -> (bool, real))
      modifies this
      ensures liveRuns == old(liveRuns) + 1
      ensures var frame := capture(RegionForCapture(data));
        outcome == if frame.None? then old(outcome) else Some(LiveTested(test(frame.value).0))
      ensures pendingProgress == old(pendingProgress) && pendingRegion == old(pendingRegion)
      ensures liveActive == old(liveActive) && liveCounter == old(liveCounter)
      ensures instruction == old(instruction) && captured == old(captured) && saved == old(saved)
    {
      liveRuns := liveRuns + 1;
      var frame := capture(RegionForCapture(data));
      if frame.None? {
        return;
      }
      var (isMatch, _) := test(frame.value);
      outcome := Some(LiveTested(isMatch));
    }

    /**
     * `_on_toggle_live_preview`: live debug flips; when the debug button
     * exists, the result line then shows "Live Debug: ON" or "Live Debug: OFF".
     */
    method ToggleLivePreview(buttonExists: bool)
      modifies this
      ensures liveActive == !old(liveActive)
      ensures outcome == if buttonExists then Some(LiveStatus(liveActive)) else old(outcome)
      ensures pendingProgress == old(pendingProgress) && pendingRegion == old(pendingRegion) && liveCounter == old(liveCounter)
      ensures instruction == old(instruction) && captured == old(captured)
      ensures saved == old(saved) && liveRuns == old(liveRuns)
    {
      liveActive := !liveActive;
      if buttonExists {
        outcome := Some(LiveStatus(liveActive));
      }
    }

    /**
     * `update`, one pass of the UI loop. Each pending slot is consumed
     * exactly once: a progress report sets the instruction line (cleared at
     * step -1 or 2); a pending region is saved, clears the instruction line
     * and is captured and tested with the settings `data` as they are after
     * the save. Then, with the live preview on, the counter advances and on
     * reaching 10 resets and runs the preview; with it off the counter is
     * left alone. The capture and the test are callbacks that need not give
     * the same answer twice (each capture is a new screen grab, and the test
     * may step the detector's streak counter), so the live run's capture and
     * test are parameters of their own, `liveCapture` and `liveTest`.
     */
    method Update(data: map<string, Value>, capture: CaptureRegion -> Option<Frame>, test: Frame -> (bool, real),
                  liveCapture: CaptureRegion -> Option<Frame>, liveTest: Frame -> (bool, real))
      requires Valid()
      modifies this
      ensures Valid()
      ensures pendingProgress.None? && pendingRegion.None?
      ensures instruction ==
        if old(pendingRegion).Some? then ""
        else if old(pendingProgress).Some? then Instruction(old(pendingProgress).value.0, old(pendingProgress).value.1)
        else old(instruction)
      ensures saved == old(saved) + (if old(pendingRegion).Some? then [old(pendingRegion).value] else [])
      ensures liveActive == old(liveActive)
      ensures liveCounter == if old(liveActive) then LiveStep(old(liveCounter)).0 else old(liveCounter)
      ensures liveRuns == old(liveRuns) + (if old(liveActive) && LiveStep(old(liveCounter)).1 then 1 else 0)
      ensures captured ==
        if old(pendingRegion).Some? && capture(RegionForCapture(data)).Some? then capture(RegionForCapture(data))
        else old(captured)
      ensures old(pendingRegion).None? && liveRuns == old(liveRuns) ==> outcome == old(outcome)
      ensures var f := capture(RegionForCapture(data));
        var g := liveCapture(RegionForCapture(data));
        outcome ==
          if old(liveActive) && LiveStep(old(liveCounter)).1 && g.Some? then Some(LiveTested(liveTest(g.value).0))
          else if old(pendingRegion).Some? then
            (if f.Some? then Some(Tested(test(f.value).0, test(f.value).1)) else Some(CaptureFailed))
          else old(outcome)
    {
      if pendingProgress.Some? {
        var (message, step) := pendingProgress.value;
        pendingProgress := None;
        instruction := Instruction(message, step);
      }
      if pendingRegion.Some? {
        var region := pendingRegion.value;
        pendingRegion := None;
        saved := saved + [region];
        instruction := "";
        CaptureAndTest(data, capture, test);
      }
      AdvanceLive(data, liveCapture, liveTest);
    }

    /** The live-preview half of `update`: with the preview on, the counter advances and on firing runs the preview. */
    method AdvanceLive(data: map<string, Value>, capture: CaptureRegion -> Option<Frame>, test: Frame -> (bool, real))
      modifies this
      ensures liveCounter == if old(liveActive) then LiveStep(old(liveCounter)).0 else old(liveCounter)
      ensures liveRuns == old(liveRuns) + (if old(liveActive) && LiveStep(old(liveCounter)).1 then 1 else 0)
      ensures var f := capture(RegionForCapture(data));
        outcome ==
          if old(liveActive) && LiveStep(old(liveCounter)).1 && f.Some? then Some(LiveTested(test(f.value).0))
          else old(outcome)
      ensures pendingProgress == old(pendingProgress) && pendingRegion == old(pendingRegion) && liveActive == old(liveActive)
      ensures instruction == old(instruction) && captured == old(captured) && saved == old(saved)
    {
      if liveActive {
        var (next, fire) := LiveStep(liveCounter);
        liveCounter := next;
        if fire {
          UpdateLiveDebug(data, capture, test);
        }
      }
    }
  }
}
