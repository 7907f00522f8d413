/**
 * The stats tab: the character-stats form, whose input widgets are a map
 * from widget tag to value (a tag absent from the map is a widget that does
 * not exist), and the list of recorded stats, newest first.
 */
module StatsTab {
  import opened Wrappers
  import opened Recent
  import opened ConfigStore
  import HistorySection

  /** A recorded stats entry. */
  datatype CharacterStats = CharacterStats(
    id: string, timestamp: int,
    level: int, vitality: int, endurance: int, strength: int, skill: int, bloodtinge: int, arcane: int,
    bloodEchoes: int, insight: int, notes: string)

  /** How many entries the list shows. */
  const RecentStats := 10

  /** `_update_stats_list`: the last 10 entries, newest first, or the placeholder. */
  function StatsList(stats: seq<CharacterStats>): (v: ListView<CharacterStats>)
    ensures ShowsLast(v, stats, RecentStats, "No stats recorded")
  {
    Shown(stats, RecentStats, "No stats recorded")
  }

  /** An item of an entry's third row. */
  datatype Extra = Echoes(amount: int) | Insight(amount: int) | Notes(text: string)

  /**
   * The third row of an entry: present exactly when there are echoes, insight
   * or notes to show, and then holding each of those that is there, in that
   * order, so the row is never empty.
   */
  function ThirdRow(s: CharacterStats): (r: Option<seq<Extra>>)
    ensures r.Some? <==> s.bloodEchoes > 0 || s.insight > 0 || s.notes != ""
    ensures r.Some? ==> 1 <= |r.value| <= 3
    ensures r.Some? ==> (Echoes(s.bloodEchoes) in r.value <==> s.bloodEchoes > 0)
    ensures r.Some? ==> (Insight(s.insight) in r.value <==> s.insight > 0)
    ensures r.Some? ==> (Notes(s.notes) in r.value <==> s.notes != "")
  {
    if s.bloodEchoes > 0 || s.insight > 0 || s.notes != "" then
      Some((if s.bloodEchoes > 0 then [Echoes(s.bloodEchoes)] else []) +
           (if s.insight > 0 then [Insight(s.insight)] else []) +
           (if s.notes != "" then [Notes(s.notes)] else []))
    else None
  }

  /** The value of widget `tag`, or `default` when the widget does not exist. */
  function WidgetOr(widgets: map<string, Value>, tag: string, default: Value): Value
  {
    if tag in widgets then widgets[tag] else default
  }

  /** The form's widget tags. */
  const StatTags := {"stats_level", "stats_vitality", "stats_endurance", "stats_strength", "stats_skill",
                     "stats_bloodtinge", "stats_arcane", "stats_echoes", "stats_insight", "stats_notes"}

  /** `_on_add_stats`: the dict handed to the callback, each entry read from its widget or defaulted. */
  function CollectStats(widgets: map<string, Value>): (r: map<string, Value>)
    ensures r.Keys == {"level", "vitality", "endurance", "strength", "skill", "bloodtinge", "arcane",
                       "bloodEchoes", "insight", "notes"}
  {
    map[
      "level" := WidgetOr(widgets, "stats_level", Int(4)),
      "vitality" := WidgetOr(widgets, "stats_vitality", Int(9)),
      "endurance" := WidgetOr(widgets, "stats_endurance", Int(9)),
      "strength" := WidgetOr(widgets, "stats_strength", Int(9)),
      "skill" := WidgetOr(widgets, "stats_skill", Int(9)),
      "bloodtinge" := WidgetOr(widgets, "stats_bloodtinge", Int(5)),
      "arcane" := WidgetOr(widgets, "stats_arcane", Int(9)),
      "bloodEchoes" := WidgetOr(widgets, "stats_echoes", Int(0)),
      "insight" := WidgetOr(widgets, "stats_insight", Int(0)),
      "notes" := WidgetOr(widgets, "stats_notes", Str(""))]
  }

  /** Without the form's widgets, a fresh character: level 4, vitality, endurance, strength, skill and arcane 9, bloodtinge 5, no echoes, insight or notes. */
  lemma DefaultsWithoutWidgets(widgets: map<string, Value>)
    requires forall tag :: tag in StatTags ==> tag !in widgets
    ensures var r := CollectStats(widgets);
      r["level"] == Int(4) && r["bloodtinge"] == Int(5) &&
      r["vitality"] == r["endurance"] == r["strength"] == r["skill"] == r["arcane"] == Int(9) &&
      r["bloodEchoes"] == r["insight"] == Int(0) && r["notes"] == Str("")
  {
  }

  /** An existing widget's value is passed on as it is. */
  lemma WidgetValuesPassThrough(widgets: map<string, Value>)
    requires forall tag :: tag in StatTags ==> tag in widgets
    ensures var r := CollectStats(widgets);
      r["level"] == widgets["stats_level"] && r["vitality"] == widgets["stats_vitality"] &&
      r["endurance"] == widgets["stats_endurance"] && r["strength"] == widgets["stats_strength"] &&
      r["skill"] == widgets["stats_skill"] && r["bloodtinge"] == widgets["stats_bloodtinge"] &&
      r["arcane"] == widgets["stats_arcane"] && r["bloodEchoes"] == widgets["stats_echoes"] &&
      r["insight"] == widgets["stats_insight"] && r["notes"] == widgets["stats_notes"]
  {
  }

  class StatsTab {
    /** The form's widgets by tag. */
    var widgets: map<string, Value>
    var stats: seq<CharacterStats>
    /** The `on_add_stats` launches. */
    var submitted: seq<map<string, Value>>
    /** The `on_delete_stats` launches. */
    var deleted: seq<string>

    constructor(widgets: map<string, Value>)
      ensures this.widgets == widgets && stats == [] && submitted == [] && deleted == []
    {
      this.widgets := widgets;
      stats, submitted, deleted := [], [], [];
    }

    /** `update` */
    method Update(stats: seq<CharacterStats>)
      modifies this
      ensures this.stats == stats
      ensures widgets == old(widgets) && submitted == old(submitted) && deleted == old(deleted)
    {
      this.stats := stats;
    }

    /** `_on_add_stats`: the collected stats go to the callback, then the notes field, if any, is cleared. */
    method OnAddStats()
      modifies this
      ensures submitted == old(submitted) + [CollectStats(old(widgets))]
      ensures widgets == if "stats_notes" in old(widgets) then old(widgets)["stats_notes" := Str("")] else old(widgets)
      ensures stats == old(stats) && deleted == old(deleted)
    {
      submitted := submitted + [CollectStats(widgets)];
      if "stats_notes" in widgets {
        widgets := widgets["stats_notes" := Str("")];
      }
    }

    /** `_on_delete_stats_click`: the callback runs only for a truthy id. */
    method OnDeleteStatsClick(id: Option<string>)
      modifies this
      ensures deleted == old(deleted) + (if id.Some? && id.value != "" then [id.value] else [])
      ensures widgets == old(widgets) && stats == old(stats) && submitted == old(submitted)
    {
      var request := HistorySection.DeleteRequest(id);
      if request.Some? {
        deleted := deleted + [request.value];
      }
    }
  }
}
