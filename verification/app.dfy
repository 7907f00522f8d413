/**
 * The application controller's detection gate and callbacks. Each pass of
 * the main loop is one `Tick`: the clock reading and the grabbed frame are
 * parameters, the detector and the state store are the controller's
 * objects, and the messages sent to the server are recorded in order.
 */
module App {
  import opened Wrappers
  import opened ConfigStore
  import opened State
  import opened Detector

  /** The server messages the gate and the callbacks send. */
  datatype Send = SendDeath | SendBossDeath | SendBossStart | SendBossCancel

  /** `_handle_death`: a boss death in boss mode, else a death. */
  function DeathMessage(bossMode: bool): Send
  {
    if bossMode then SendBossDeath else SendDeath
  }

  /** The cooldown test: strictly more than `cooldown` seconds since the last dispatch. */
  predicate CooledDown(last: real, now: real, cooldown: real)
  {
    now - last > cooldown
  }

  /** The times at which a series of confirmed deaths is dispatched, starting from the last dispatch time. */
  function Dispatched(last: real, confirmations: seq<real>, cooldown: real): seq<real>
    decreases |confirmations|
  {
    if confirmations == [] then []
    else if CooledDown(last, confirmations[0], cooldown) then [confirmations[0]] + Dispatched(confirmations[0], confirmations[1..], cooldown)
    else Dispatched(last, confirmations[1..], cooldown)
  }

  /**
   * Dispatches are confirmations, each more than the cooldown after the one
   * before (the first after the starting time).
   */
  lemma {:induction false} DispatchedSpaced(last: real, confirmations: seq<real>, cooldown: real)
    ensures var d := Dispatched(last, confirmations, cooldown);
      (forall t :: t in d ==> t in confirmations) &&
      (d != [] ==> d[0] - last > cooldown) &&
      (forall i :: 0 <= i < |d| - 1 ==> d[i + 1] - d[i] > cooldown)
    decreases |confirmations|
  {
    if confirmations != [] {
      var c := confirmations[0];
      DispatchedSpaced(c, confirmations[1..], cooldown);
      DispatchedSpaced(last, confirmations[1..], cooldown);
      if CooledDown(last, c, cooldown) {
        var rest := Dispatched(c, confirmations[1..], cooldown);
        var d := [c] + rest;
        assert forall i :: 1 <= i < |d| ==> d[i] == rest[i - 1];
      }
    }
  }

  /** Two confirmations within the cooldown of each other dispatch once. */
  lemma TwoWithinCooldownDispatchOnce(last: real, t1: real, t2: real, cooldown: real)
    requires t1 - last > cooldown && t2 - t1 <= cooldown
    ensures Dispatched(last, [t1, t2], cooldown) == [t1]
  {
    assert [t1, t2][1..] == [t2];
    assert Dispatched(t1, [t2], cooldown) == Dispatched(t1, [], cooldown) == [] by {
      assert [t2][1..] == [];
    }
  }

  /** The time of the last dispatch after a series of confirmations: the starting time when none is dispatched. */
  function LastDispatch(last: real, confirmations: seq<real>, cooldown: real): real
  {
    var d := Dispatched(last, confirmations, cooldown);
    if d == [] then last else d[|d| - 1]
  }

  /**
   * One more confirmation is dispatched exactly when it is more than the
   * cooldown after the last dispatch of the series so far.
   */
  lemma {:induction false} DispatchedSnoc(last: real, confirmations: seq<real>, t: real, cooldown: real)
    ensures Dispatched(last, confirmations + [t], cooldown) ==
            Dispatched(last, confirmations, cooldown) +
            (if CooledDown(LastDispatch(last, confirmations, cooldown), t, cooldown) then [t] else [])
    decreases |confirmations|
  {
    var xs := confirmations + [t];
    if confirmations == [] {
      assert xs == [t] && xs[1..] == [];
    } else {
      var c := confirmations[0];
      assert xs[0] == c && xs[1..] == confirmations[1..] + [t];
      if CooledDown(last, c, cooldown) {
        DispatchedSnoc(c, confirmations[1..], t, cooldown);
        assert LastDispatch(last, confirmations, cooldown) == LastDispatch(c, confirmations[1..], cooldown);
      } else {
        DispatchedSnoc(last, confirmations[1..], t, cooldown);
      }
    }
  }

  /** A value equal to `True` or `False` has that truth value. */
  lemma TruthyOfEqualBool(v: Value, b: bool)
    requires PyEq(v, Bool(b))
    ensures Truthy(v) == b
  {
  }

  class BBDetectorApp {
    var state: StateManager
    var detector: DeathDetector
    /** The clock reading of the last dispatched death; 0 at start. */
    var lastDeathTime: real
    /** Whether the asyncio loop exists yet. */
    var hasLoop: bool
    /** The messages sent to the server so far. */
    var sends: seq<Send>

    constructor(state: StateManager, detector: DeathDetector, hasLoop: bool)
      ensures this.state == state && this.detector == detector && this.hasLoop == hasLoop
      ensures lastDeathTime == 0.0 && sends == []
    {
      this.state := state;
      this.detector := detector;
      this.hasLoop := hasLoop;
      lastDeathTime := 0.0;
      sends := [];
    }

    /** A state flag read as a condition (`self.state.<key>`). */
    predicate Flag(key: string)
      reads this, state
    {
      Truthy(state.Get(key, Null))
    }

    /** Detection runs only while enabled and connected. */
    predicate Gate()
      reads this, state
    {
      Flag("detection_enabled") && Flag("connected")
    }

    /**
     * One pass of the main loop's detection: with the gate open and a frame,
     * the detector runs; a confirmed death is dispatched only when the
     * cooldown has passed since the last dispatch, and only a dispatch moves
     * the last-death time.
     */
    method Tick(cooldown: real, now: real, frame: Option<Frame>) returns (dispatched: bool)
      modifies this, detector
      ensures dispatched <==> old(Gate()) && frame.Some? && old(detector.Confirms(frame.value)) &&
                              CooledDown(old(lastDeathTime), now, cooldown)
      ensures lastDeathTime == (if dispatched then now else old(lastDeathTime))
      ensures sends == old(sends) + (if dispatched then [DeathMessage(old(Flag("boss_mode")))] else [])
      ensures state == old(state) && detector == old(detector) && hasLoop == old(hasLoop)
      ensures !old(Gate()) || frame.None? ==> unchanged(old(detector))
      ensures old(Gate()) && frame.Some? ==>
        var ocr := Scan(Candidates(frame.value), [], old(detector.keywords), old(detector.fuzzyMatching));
        var hit := detector.ocrAvailable && ocr.detected;
        detector.consecutiveHits == Step(old(detector.consecutiveHits), old(detector.requiredStreak), hit).hits &&
        detector.lastConfidence == (if hit then 1.0 else 0.0) &&
        detector.lastMethod == (if hit then Some("ocr:" + ocr.text) else None)
      ensures detector.config == old(detector.config) && detector.CurrentSettings() == old(detector.CurrentSettings())
      ensures old(detector.Valid()) ==> detector.Valid()
    {
      dispatched := false;
      if Flag("detection_enabled") && Flag("connected") {
        if frame.Some? {
          var isDead, confidence := detector.CheckDeath(frame);
          if isDead {
            dispatched := Dispatch(now, cooldown);
          }
        }
      }
    }

    /**
     * The cooldown gate in front of `_handle_death`: a confirmed death at
     * `now` is sent only when more than `cooldown` seconds have passed since
     * the last one sent, and a send moves the last-death time to `now`.
     */
    method Dispatch(now: real, cooldown: real) returns (dispatched: bool)
      modifies this
      ensures dispatched <==> CooledDown(old(lastDeathTime), now, cooldown)
      ensures lastDeathTime == (if dispatched then now else old(lastDeathTime))
      ensures sends == old(sends) + (if dispatched then [DeathMessage(Flag("boss_mode"))] else [])
      ensures state == old(state) && detector == old(detector) && hasLoop == old(hasLoop)
    {
      dispatched := false;
      if now - lastDeathTime > cooldown {
        lastDeathTime := now;
        HandleDeath();
        dispatched := true;
      }
    }

    /**
     * A run of the main loop in which a death is confirmed at each of
     * `times`, in order: the deaths sent are exactly `Dispatched` from the
     * last-death time, one death message each.
     */
    method DispatchAll(times: seq<real>, cooldown: real) returns (sent: seq<real>)
      modifies this
      ensures sent == Dispatched(old(lastDeathTime), times, cooldown)
      ensures lastDeathTime == LastDispatch(old(lastDeathTime), times, cooldown)
      ensures var m := DeathMessage(Flag("boss_mode")); sends == old(sends) + seq(|sent|, _ => m)
      ensures state == old(state) && detector == old(detector) && hasLoop == old(hasLoop)
    {
      sent := [];
      var i := 0;
      while i < |times|
        invariant 0 <= i <= |times|
        invariant sent == Dispatched(old(lastDeathTime), times[..i], cooldown)
        invariant lastDeathTime == LastDispatch(old(lastDeathTime), times[..i], cooldown)
        invariant var m := DeathMessage(Flag("boss_mode")); sends == old(sends) + seq(|sent|, _ => m)
        invariant state == old(state) && detector == old(detector) && hasLoop == old(hasLoop)
      {
        assert times[..i + 1] == times[..i] + [times[i]];
        DispatchedSnoc(old(lastDeathTime), times[..i], times[i], cooldown);
        var d := Dispatch(times[i], cooldown);
        if d {
          sent := sent + [times[i]];
        }
        i := i + 1;
      }
      assert times[..i] == times;
    }

    /** `_handle_death` */
    method HandleDeath()
      modifies this
      ensures sends == old(sends) + [DeathMessage(Flag("boss_mode"))]
      ensures state == old(state) && detector == old(detector)
      ensures lastDeathTime == old(lastDeathTime) && hasLoop == old(hasLoop)
    {
      if Flag("boss_mode") {
        sends := sends + [SendBossDeath];
      } else {
        sends := sends + [SendDeath];
      }
    }

    /** `_on_manual_death`: no cooldown; nothing when disconnected or before the loop exists. */
    method OnManualDeath()
      modifies this
      ensures sends == old(sends) + (if Flag("connected") && hasLoop then [DeathMessage(Flag("boss_mode"))] else [])
      ensures state == old(state) && detector == old(detector)
      ensures lastDeathTime == old(lastDeathTime) && hasLoop == old(hasLoop)
    {
      if !Flag("connected") || !hasLoop {
        return;
      }
      sends := sends + [DeathMessage(Flag("boss_mode"))];
    }

    /** `_on_toggle_boss`: cancel in boss mode, else start; either needs the loop and a connection. */
    method OnToggleBoss()
      modifies this
      ensures sends == old(sends) +
        (if hasLoop && Flag("connected") then [if Flag("boss_mode") then SendBossCancel else SendBossStart] else [])
      ensures state == old(state) && detector == old(detector)
      ensures lastDeathTime == old(lastDeathTime) && hasLoop == old(hasLoop)
    {
      if Flag("boss_mode") {
        if hasLoop && Flag("connected") {
          sends := sends + [SendBossCancel];
        }
      } else {
        if hasLoop && Flag("connected") {
          sends := sends + [SendBossStart];
        }
      }
    }

    /** `_on_toggle_detection`: the switch is set to the negation of its truth value. */
    method OnToggleDetection()
      modifies state
      ensures state.state == SetStep(old(state.state), "detection_enabled", Bool(!old(Flag("detection_enabled"))))
      ensures "detection_enabled" in old(state.state) ==> Flag("detection_enabled") == !old(Flag("detection_enabled"))
      ensures state.subscribers == old(state.subscribers)
      ensures var v := Bool(!old(Flag("detection_enabled")));
        state.notifications == old(state.notifications) +
          (if Changes(old(state.state), "detection_enabled", v) then Broadcast(state.subscribers, "detection_enabled", v) else [])
    {
      var enabled := Flag("detection_enabled");
      state.Set("detection_enabled", Bool(!enabled));
      if "detection_enabled" in old(state.state) {
        TruthyOfEqualBool(state.state["detection_enabled"], !enabled);
      }
    }
  }
}
