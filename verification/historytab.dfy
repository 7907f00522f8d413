/**
 * The history tab: the three "most recent first" lists and the milestone
 * form, whose text field and icon picker are fields of the tab (a widget
 * that does not exist is `None`). Callback launches are recorded in order.
 */
module HistoryTab {
  import opened Wrappers
  import opened Text
  import opened Recent
  import HistorySection

  /** The icon used when the icon picker does not exist. */
  const DefaultIcon := "\U{2605}"

  /** How many entries each list shows. */
  const RecentMilestones := 10
  const RecentDeaths := 10
  const RecentBosses := 5

  /** The three lists of the tab. */
  datatype TabLists<M, D, B> = TabLists(milestones: ListView<M>, deaths: ListView<D>, bosses: ListView<B>)

  /** `_update_*_list`: the last 10 milestones, 10 deaths and 5 boss fights, newest first, or each list's placeholder. */
  function ListsOf<M, D, B>(milestones: seq<M>, deaths: seq<D>, bosses: seq<B>): (v: TabLists<M, D, B>)
    ensures ShowsLast(v.milestones, milestones, RecentMilestones, "No milestones yet")
    ensures ShowsLast(v.deaths, deaths, RecentDeaths, "No deaths recorded")
    ensures ShowsLast(v.bosses, bosses, RecentBosses, "No boss fights yet")
  {
    TabLists(
      Shown(milestones, RecentMilestones, "No milestones yet"),
      Shown(deaths, RecentDeaths, "No deaths recorded"),
      Shown(bosses, RecentBosses, "No boss fights yet"))
  }

  /** The name a milestone is added under: the stripped input, or nothing when that is blank. */
  function MilestoneName(input: string): (r: Option<string>)
    ensures r.Some? <==> Strip(input) != ""
    ensures r.Some? ==> r.value != "" && Strip(r.value) == r.value && |r.value| <= |input|
  {
    var name := Strip(input);
    StripIdempotent(input);
    if name == "" then None else Some(name)
  }

  /** Whitespace typed around a name does not change the milestone added. */
  lemma MilestoneNameIgnoresPadding(a: string, s: string, b: string)
    requires AllSpace(a) && AllSpace(b)
    ensures MilestoneName(a + s + b) == MilestoneName(s)
  {
    StripPadded(a, s, b);
  }

  class HistoryTab {
    /** The milestone name field. */
    var input: Option<string>
    /** The icon picker's current value. */
    var iconCombo: Option<string>
    /** The icon last picked (`_selected_icon`). */
    var selectedIcon: string
    /** The `on_add_milestone` launches, as (name, icon). */
    var added: seq<(string, string)>
    /** The `on_delete_milestone` launches. */
    var deleted: seq<string>

    constructor(input: Option<string>, iconCombo: Option<string>)
      ensures this.input == input && this.iconCombo == iconCombo
      ensures selectedIcon == DefaultIcon && added == [] && deleted == []
    {
      this.input, this.iconCombo := input, iconCombo;
      selectedIcon := DefaultIcon;
      added, deleted := [], [];
    }

    /** `_on_icon_change` */
    method OnIconChange(icon: string)
      modifies this
      ensures selectedIcon == icon
      ensures input == old(input) && iconCombo == old(iconCombo) && added == old(added) && deleted == old(deleted)
    {
      selectedIcon := icon;
    }

    /**
     * `_on_add_milestone`: with a field holding a non-blank name, the
     * callback receives the stripped name and the picker's icon (the default
     * icon without a picker) and the field is cleared; otherwise nothing
     * happens.
     */
    method OnAddMilestone()
      modifies this
      ensures var name := if old(input).Some? then MilestoneName(old(input).value) else None;
        (name.None? ==> added == old(added) && input == old(input)) &&
        (name.Some? ==> added == old(added) + [(name.value, old(iconCombo).GetOr(DefaultIcon))] && input == Some(""))
      ensures iconCombo == old(iconCombo) && selectedIcon == old(selectedIcon) && deleted == old(deleted)
    {
      if input.None? {
        return;
      }
      var name := MilestoneName(input.value);
      if name.None? {
        return;
      }
      var icon := if iconCombo.Some? then iconCombo.value else DefaultIcon;
      added := added + [(name.value, icon)];
      input := Some("");
    }

    /** `_on_delete_milestone_click`: the callback runs only for a truthy id. */
    method OnDeleteMilestoneClick(id: Option<string>)
      modifies this
      ensures deleted == old(deleted) + (if id.Some? && id.value != "" then [id.value] else [])
      ensures input == old(input) && iconCombo == old(iconCombo) && selectedIcon == old(selectedIcon) && added == old(added)
    {
      var request := HistorySection.DeleteRequest(id);
      if request.Some? {
        deleted := deleted + [request.value];
      }
    }
  }
}
