/**
 * The history section of the main window: the session card, the four
 * "most recent first" lists and the delete buttons, whose callbacks are
 * launched only for a truthy record id.
 */
module HistorySection {
  import opened Wrappers
  import opened Text
  import opened Recent
  import opened TimeFormat

  /** How many entries each list shows. */
  const RecentMilestones := 10
  const RecentStats := 5
  const RecentBosses := 5
  const RecentDeaths := 10

  /** The four texts of the session card. */
  datatype SessionCard = SessionCard(deaths: string, time: string, bosses: string, milestones: string)

  /**
   * `_update_session_card`: the death count, the elapsed time, and the
   * numbers of boss fights and milestones. Each text reads back as what it
   * shows.
   */
  function SessionCardOf<B, M>(deaths: int, elapsed: int, bossFights: seq<B>, milestones: seq<M>): (c: SessionCard)
    ensures ParseInt(c.deaths) == Some(deaths)
    ensures ParseInt(c.bosses) == Some(|bossFights|) && ParseInt(c.milestones) == Some(|milestones|)
    ensures elapsed >= 0 ==> ParseTime(c.time) == Some(elapsed / 1000)
  {
    IntRoundTrip(deaths);
    IntRoundTrip(|bossFights|);
    IntRoundTrip(|milestones|);
    var time := FormatTime(elapsed);
    assert elapsed >= 0 ==> ParseTime(time) == Some(elapsed / 1000) by {
      if elapsed >= 0 {
        FormatTimeRoundTrip(elapsed);
      }
    }
    SessionCard(IntToString(deaths), time, IntToString(|bossFights|), IntToString(|milestones|))
  }

  /** The four lists of the section. */
  datatype SectionLists<M, S, B, D> = SectionLists(milestones: ListView<M>, stats: ListView<S>, bosses: ListView<B>, deaths: ListView<D>)

  /** `_update_*_list`: the last 10 milestones, 5 stats entries, 5 boss fights and 10 deaths, newest first, or each list's placeholder. */
  function ListsOf<M, S, B, D>(milestones: seq<M>, stats: seq<S>, bosses: seq<B>, deaths: seq<D>): (v: SectionLists<M, S, B, D>)
    ensures ShowsLast(v.milestones, milestones, RecentMilestones, "No milestones yet")
    ensures ShowsLast(v.stats, stats, RecentStats, "No stats recorded")
    ensures ShowsLast(v.bosses, bosses, RecentBosses, "No boss fights yet")
    ensures ShowsLast(v.deaths, deaths, RecentDeaths, "No deaths recorded")
  {
    SectionLists(
      Shown(milestones, RecentMilestones, "No milestones yet"),
      Shown(stats, RecentStats, "No stats recorded"),
      Shown(bosses, RecentBosses, "No boss fights yet"),
      Shown(deaths, RecentDeaths, "No deaths recorded"))
  }

  /** A boss fight's label: its name, or "Unknown" for a missing or empty name. */
  function BossLabel(name: Option<string>): (r: string)
    ensures r != ""
    ensures name.Some? && name.value != "" <==> r == name.GetOr("")
  {
    if name.Some? && name.value != "" then name.value else "Unknown"
  }

  /** A delete button's click: the delete callback receives the id only when it is truthy (present and non-empty). */
  function DeleteRequest(id: Option<string>): (r: Option<string>)
    ensures r.Some? <==> id.Some? && id.value != ""
    ensures r.Some? ==> r == id
  {
    if id.Some? && id.value != "" then id else None
  }
}
