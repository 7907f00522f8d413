/**
 * The settings tab: the profile and connection lines, and the detection
 * and window widgets, read from and written to a map from widget tag to
 * value (a tag absent from the map is a widget that does not exist).
 */
module SettingsView {
  import opened Wrappers
  import opened ConfigStore
  import opened Labels
  import opened Geometry

  /** `profile or "Not connected"` */
  function ProfileText(profile: Option<string>): (r: string)
    ensures profile.Some? && profile.value != "" ==> r == profile.value
    ensures profile.None? || profile.value == "" ==> r == "Not connected"
    ensures r != ""
  {
    if profile.Some? && profile.value != "" then profile.value else "Not connected"
  }

  /** The status line: "Connected" exactly while connected, else "Disconnected". */
  function StatusText(connected: bool): (r: string)
    ensures r == "Connected" <==> connected
    ensures r == "Disconnected" <==> !connected
  {
    if connected then "Connected" else "Disconnected"
  }

  /** Adds `key := v` when `tag` is a widget, reading it with `read`; `None` once a read raises. */
  function Collect(acc: Option<map<string, Value>>, widgets: map<string, Value>, tag: string, key: string,
                   read: Value -> Option<Value>): (r: Option<map<string, Value>>)
    ensures r.Some? ==> acc.Some? && r.value.Keys == acc.value.Keys + (if tag in widgets then {key} else {})
    ensures r.Some? && tag in widgets ==> read(widgets[tag]) == Some(r.value[key])
    ensures r.Some? ==> forall k :: k in acc.value && k != key ==> r.value[k] == acc.value[k]
    ensures acc.Some? && (tag !in widgets || read(widgets[tag]).Some?) ==> r.Some?
  {
    if acc.None? then None
    else if tag !in widgets then acc
    else match read(widgets[tag])
      case Some(v) => Some(acc.value[key := v])
      case None => None
  }

  /** A widget value taken as it is. */
  function AsIs(v: Value): Option<Value>
  {
    Some(v)
  }

  /**
   * `_collect_settings`: a setting for each widget that exists; the
   * monitor, frame-rate and cooldown texts are parsed, the others taken as
   * they are; `None` where a parse raises.
   */
  function CollectSettings(widgets: map<string, Value>): (r: Option<map<string, Value>>)
    ensures r.None? <==>
      ("settings_monitor" in widgets && MonitorSetting(widgets["settings_monitor"]).None?) ||
      ("settings_fps" in widgets && FpsSetting(widgets["settings_fps"]).None?) ||
      ("settings_cooldown" in widgets && CooldownSetting(widgets["settings_cooldown"]).None?)
  {
    var s1 := Collect(Some(map[]), widgets, "settings_monitor", "detection.monitor", MonitorSetting);
    var s2 := Collect(s1, widgets, "settings_fps", "detection.fps", FpsSetting);
    var s3 := Collect(s2, widgets, "settings_threshold", "detection.death_threshold", AsIs);
    var s4 := Collect(s3, widgets, "settings_cooldown", "detection.death_cooldown", CooldownSetting);
    var s5 := Collect(s4, widgets, "settings_start_minimized", "window.start_minimized", AsIs);
    var s6 := Collect(s5, widgets, "settings_always_on_top", "window.always_on_top", AsIs);
    Collect(s6, widgets, "settings_opacity", "overlay.opacity", AsIs)
  }

  /** When collecting succeeds, there is a setting for exactly the widgets that exist, and for nothing else. */
  lemma CollectedKeys(widgets: map<string, Value>)
    requires CollectSettings(widgets).Some?
    ensures var r := CollectSettings(widgets).value;
      ("detection.monitor" in r <==> "settings_monitor" in widgets) &&
      ("detection.fps" in r <==> "settings_fps" in widgets) &&
      ("detection.death_threshold" in r <==> "settings_threshold" in widgets) &&
      ("detection.death_cooldown" in r <==> "settings_cooldown" in widgets) &&
      ("window.start_minimized" in r <==> "settings_start_minimized" in widgets) &&
      ("window.always_on_top" in r <==> "settings_always_on_top" in widgets) &&
      ("overlay.opacity" in r <==> "settings_opacity" in widgets)
    ensures CollectSettings(widgets).value.Keys <=
      {"detection.monitor", "detection.fps", "detection.death_threshold", "detection.death_cooldown",
       "window.start_minimized", "window.always_on_top", "overlay.opacity"}
  {
    CollectedKeysWithin(widgets);
    var s1 := Collect(Some(map[]), widgets, "settings_monitor", "detection.monitor", MonitorSetting);
    var s2 := Collect(s1, widgets, "settings_fps", "detection.fps", FpsSetting);
    var s3 := Collect(s2, widgets, "settings_threshold", "detection.death_threshold", AsIs);
    var s4 := Collect(s3, widgets, "settings_cooldown", "detection.death_cooldown", CooldownSetting);
    var s5 := Collect(s4, widgets, "settings_start_minimized", "window.start_minimized", AsIs);
    var s6 := Collect(s5, widgets, "settings_always_on_top", "window.always_on_top", AsIs);
    assert s6.Some? && s5.Some? && s4.Some? && s3.Some? && s2.Some? && s1.Some?;
  }

  /** Collecting writes no key outside the seven settings. */
  lemma CollectedKeysWithin(widgets: map<string, Value>)
    requires CollectSettings(widgets).Some?
    ensures CollectSettings(widgets).value.Keys <=
      {"detection.monitor", "detection.fps", "detection.death_threshold", "detection.death_cooldown",
       "window.start_minimized", "window.always_on_top", "overlay.opacity"}
  {
    var s1 := Collect(Some(map[]), widgets, "settings_monitor", "detection.monitor", MonitorSetting);
    var s2 := Collect(s1, widgets, "settings_fps", "detection.fps", FpsSetting);
    var s3 := Collect(s2, widgets, "settings_threshold", "detection.death_threshold", AsIs);
    var s4 := Collect(s3, widgets, "settings_cooldown", "detection.death_cooldown", CooldownSetting);
    var s5 := Collect(s4, widgets, "settings_start_minimized", "window.start_minimized", AsIs);
    var s6 := Collect(s5, widgets, "settings_always_on_top", "window.always_on_top", AsIs);
    assert s6.Some? && s5.Some? && s4.Some? && s3.Some? && s2.Some? && s1.Some?;
  }

  /** The threshold, the two window switches and the opacity are saved as their widgets hold them. */
  lemma CollectedPassThrough(widgets: map<string, Value>)
    requires CollectSettings(widgets).Some?
    ensures var r := CollectSettings(widgets).value;
      ("settings_threshold" in widgets ==> r["detection.death_threshold"] == widgets["settings_threshold"]) &&
      ("settings_start_minimized" in widgets ==> r["window.start_minimized"] == widgets["settings_start_minimized"]) &&
      ("settings_always_on_top" in widgets ==> r["window.always_on_top"] == widgets["settings_always_on_top"]) &&
      ("settings_opacity" in widgets ==> r["overlay.opacity"] == widgets["settings_opacity"])
  {
    var s1 := Collect(Some(map[]), widgets, "settings_monitor", "detection.monitor", MonitorSetting);
    var s2 := Collect(s1, widgets, "settings_fps", "detection.fps", FpsSetting);
    var s3 := Collect(s2, widgets, "settings_threshold", "detection.death_threshold", AsIs);
    var s4 := Collect(s3, widgets, "settings_cooldown", "detection.death_cooldown", CooldownSetting);
    var s5 := Collect(s4, widgets, "settings_start_minimized", "window.start_minimized", AsIs);
    var s6 := Collect(s5, widgets, "settings_always_on_top", "window.always_on_top", AsIs);
    assert s6.Some? && s5.Some? && s4.Some? && s3.Some? && s2.Some? && s1.Some?;
  }

  /** Sets widget `tag` to `shown` when the widget exists; `None` once showing raises. */
  function Show(acc: Option<map<string, Value>>, tag: string, shown: Option<Value>): (r: Option<map<string, Value>>)
    ensures r.Some? ==> acc.Some? && r.value.Keys == acc.value.Keys
    ensures r.Some? && tag in acc.value ==> Some(r.value[tag]) == shown
    ensures r.Some? ==> forall k :: k in acc.value && k != tag ==> r.value[k] == acc.value[k]
    ensures acc.Some? && (tag !in acc.value || shown.Some?) ==> r.Some?
  {
    if acc.None? then None
    else if tag !in acc.value then acc
    else if shown.None? then None
    else Some(acc.value[tag := shown.value])
  }

  /**
   * The monitor, frame-rate, threshold and cooldown widgets that exist show
   * the given settings; `None` where converting a setting to its text raises.
   */
  function ShowSettings(monitor: Value, fps: Value, threshold: Value, cooldown: Value, widgets: map<string, Value>): (r: Option<map<string, Value>>)
    ensures r.None? <==>
      ("settings_monitor" in widgets && MonitorText(monitor).None?) ||
      ("settings_fps" in widgets && FpsText(fps).None?) ||
      ("settings_cooldown" in widgets && CooldownText(cooldown).None?)
    ensures r.Some? ==> r.value.Keys == widgets.Keys
    ensures r.Some? ==> forall k :: (k in widgets && k != "settings_monitor" && k != "settings_fps" &&
                                     k != "settings_threshold" && k != "settings_cooldown") ==> r.value[k] == widgets[k]
  {
    var w1 := Show(Some(widgets), "settings_monitor", MonitorText(monitor));
    var w2 := Show(w1, "settings_fps", FpsText(fps));
    var w3 := Show(w2, "settings_threshold", Some(threshold));
    Show(w3, "settings_cooldown", CooldownText(cooldown))
  }

  /** `load_from_config`: the monitor (default 0), frame rate (default 10), threshold (default 0.75) and cooldown (default 5.0). */
  function LoadFromConfig(data: map<string, Value>, widgets: map<string, Value>): (r: Option<map<string, Value>>)
    ensures r.Some? ==> r.value.Keys == widgets.Keys
    ensures r.Some? && "settings_threshold" in widgets ==>
      r.value["settings_threshold"] == GetPath(data, ["detection", "death_threshold"], Real(0.75))
  {
    ShowSettings(GetPath(data, ["detection", "monitor"], Int(0)), GetPath(data, ["detection", "fps"], Int(10)),
                 GetPath(data, ["detection", "death_threshold"], Real(0.75)),
                 GetPath(data, ["detection", "death_cooldown"], Real(5.0)), widgets)
  }

  /** What the four widgets hold once the settings are shown. */
  lemma ShownWidgets(monitor: Value, fps: Value, threshold: Value, cooldown: Value, widgets: map<string, Value>)
    requires "settings_monitor" in widgets && "settings_fps" in widgets
    requires "settings_threshold" in widgets && "settings_cooldown" in widgets
    requires MonitorText(monitor).Some? && FpsText(fps).Some? && CooldownText(cooldown).Some?
    ensures var shown := ShowSettings(monitor, fps, threshold, cooldown, widgets);
      shown.Some? && shown.value.Keys == widgets.Keys &&
      shown.value["settings_monitor"] == MonitorText(monitor).value && shown.value["settings_fps"] == FpsText(fps).value &&
      shown.value["settings_threshold"] == threshold && shown.value["settings_cooldown"] == CooldownText(cooldown).value
  {
    var w1 := Show(Some(widgets), "settings_monitor", MonitorText(monitor));
    var w2 := Show(w1, "settings_fps", FpsText(fps));
    var w3 := Show(w2, "settings_threshold", Some(threshold));
    assert w1.Some? && w1.value["settings_monitor"] == MonitorText(monitor).value;
    assert w2.Some? && w2.value["settings_monitor"] == MonitorText(monitor).value;
    assert w3.Some? && w3.value["settings_fps"] == FpsText(fps).value;
  }

  /** With the four loaded widgets readable, the collected settings hold the four values read. */
  lemma CollectLoaded(widgets: map<string, Value>, monitor: Value, fps: Value, threshold: Value, cooldown: Value)
    requires "settings_monitor" in widgets && "settings_fps" in widgets
    requires "settings_threshold" in widgets && "settings_cooldown" in widgets
    requires MonitorSetting(widgets["settings_monitor"]) == Some(monitor) && FpsSetting(widgets["settings_fps"]) == Some(fps)
    requires widgets["settings_threshold"] == threshold && CooldownSetting(widgets["settings_cooldown"]) == Some(cooldown)
    ensures var r := CollectSettings(widgets);
      r.Some? && r.value["detection.monitor"] == monitor && r.value["detection.fps"] == fps &&
      r.value["detection.death_threshold"] == threshold && r.value["detection.death_cooldown"] == cooldown
  {
    var s1 := Collect(Some(map[]), widgets, "settings_monitor", "detection.monitor", MonitorSetting);
    var s2 := Collect(s1, widgets, "settings_fps", "detection.fps", FpsSetting);
    var s3 := Collect(s2, widgets, "settings_threshold", "detection.death_threshold", AsIs);
    var s4 := Collect(s3, widgets, "settings_cooldown", "detection.death_cooldown", CooldownSetting);
    var s5 := Collect(s4, widgets, "settings_start_minimized", "window.start_minimized", AsIs);
    var s6 := Collect(s5, widgets, "settings_always_on_top", "window.always_on_top", AsIs);
    assert s4.Some? && s4.value["detection.monitor"] == monitor && s4.value["detection.fps"] == fps;
    assert s4.value["detection.death_threshold"] == threshold && s4.value["detection.death_cooldown"] == cooldown;
    assert s6.Some? && s6.value["detection.monitor"] == monitor && s6.value["detection.fps"] == fps;
  }

  /**
   * Loading the settings into the widgets and collecting them again gives
   * back the monitor, an integer frame rate and the threshold, and the
   * cooldown truncated to whole seconds.
   */
  lemma ShowThenCollect(monitor: Value, fps: Value, threshold: Value, cooldown: Value, widgets: map<string, Value>)
    requires "settings_monitor" in widgets && "settings_fps" in widgets
    requires "settings_threshold" in widgets && "settings_cooldown" in widgets
    requires IntOf(monitor).Some? && fps.Int? && Num(cooldown).Some?
    ensures var shown := ShowSettings(monitor, fps, threshold, cooldown, widgets);
      shown.Some? &&
      var r := CollectSettings(shown.value);
      r.Some? && r.value["detection.monitor"] == Int(IntOf(monitor).value) && r.value["detection.fps"] == fps &&
      r.value["detection.death_threshold"] == threshold &&
      r.value["detection.death_cooldown"] == Real(Trunc(Num(cooldown).value) as real)
  {
    MonitorWidgetRoundTrip(monitor);
    FpsWidgetRoundTrip(fps);
    CooldownWidgetRoundTrip(cooldown);
    ShownWidgets(monitor, fps, threshold, cooldown, widgets);
    var shown := ShowSettings(monitor, fps, threshold, cooldown, widgets).value;
    CollectLoaded(shown, Int(IntOf(monitor).value), fps, threshold, Real(Trunc(Num(cooldown).value) as real));
  }

  /**
   * An integer frame rate, the threshold, and a whole-second cooldown and the
   * monitor read from the settings survive a load and a collect.
   */
  lemma LoadThenCollect(data: map<string, Value>, widgets: map<string, Value>)
    requires "settings_monitor" in widgets && "settings_fps" in widgets
    requires "settings_threshold" in widgets && "settings_cooldown" in widgets
    requires IntOf(GetPath(data, ["detection", "monitor"], Int(0))).Some?
    requires GetPath(data, ["detection", "fps"], Int(10)).Int?
    requires Num(GetPath(data, ["detection", "death_cooldown"], Real(5.0))).Some?
    ensures LoadFromConfig(data, widgets).Some?
    ensures var r := CollectSettings(LoadFromConfig(data, widgets).value);
      var c := Num(GetPath(data, ["detection", "death_cooldown"], Real(5.0))).value;
      r.Some? &&
      r.value["detection.monitor"] == Int(IntOf(GetPath(data, ["detection", "monitor"], Int(0))).value) &&
      r.value["detection.fps"] == GetPath(data, ["detection", "fps"], Int(10)) &&
      r.value["detection.death_threshold"] == GetPath(data, ["detection", "death_threshold"], Real(0.75)) &&
      (c == c.Floor as real ==> r.value["detection.death_cooldown"] == Real(c))
  {
    var c := Num(GetPath(data, ["detection", "death_cooldown"], Real(5.0))).value;
    ShowThenCollect(GetPath(data, ["detection", "monitor"], Int(0)), GetPath(data, ["detection", "fps"], Int(10)),
                    GetPath(data, ["detection", "death_threshold"], Real(0.75)),
                    GetPath(data, ["detection", "death_cooldown"], Real(5.0)), widgets);
    TruncOfInt(c.Floor);
  }

  /**
   * With no `detection` settings stored, loading and collecting gives the
   * defaults: monitor 0, frame rate 10, threshold 0.75 and cooldown 5.0.
   */
  lemma LoadDefaultsThenCollect(data: map<string, Value>, widgets: map<string, Value>)
    requires "detection" !in data
    requires "settings_monitor" in widgets && "settings_fps" in widgets
    requires "settings_threshold" in widgets && "settings_cooldown" in widgets
    ensures LoadFromConfig(data, widgets).Some?
    ensures var r := CollectSettings(LoadFromConfig(data, widgets).value);
      r.Some? && r.value["detection.monitor"] == Int(0) && r.value["detection.fps"] == Int(10) &&
      r.value["detection.death_threshold"] == Real(0.75) && r.value["detection.death_cooldown"] == Real(5.0)
  {
    assert GetPath(data, ["detection", "monitor"], Int(0)) == Int(0);
    assert GetPath(data, ["detection", "fps"], Int(10)) == Int(10);
    assert GetPath(data, ["detection", "death_threshold"], Real(0.75)) == Real(0.75);
    assert GetPath(data, ["detection", "death_cooldown"], Real(5.0)) == Real(5.0);
    LoadThenCollect(data, widgets);
  }

  /** The hotkey buttons' state: which one is recording, and the buttons' labels. */
  class SettingsTab {
    var recordingHotkey: Option<string>
    var buttonLabels: map<string, string>

    constructor(buttonLabels: map<string, string>)
      ensures recordingHotkey == None && this.buttonLabels == buttonLabels
    {
      recordingHotkey := None;
      this.buttonLabels := buttonLabels;
    }

    /** `_start_hotkey_recording`: the button starts recording and, if it exists, asks for keys. */
    method StartHotkeyRecording(tag: string)
      modifies this
      ensures recordingHotkey == Some(tag)
      ensures buttonLabels == if tag in old(buttonLabels) then old(buttonLabels)[tag := "Press keys..."] else old(buttonLabels)
    {
      recordingHotkey := Some(tag);
      if tag in buttonLabels {
        buttonLabels := buttonLabels[tag := "Press keys..."];
      }
    }
  }
}
