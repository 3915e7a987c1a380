/**
 * The application shell's dashboard selection: which dashboard is shown,
 * given the reducer store's list and the id remembered in local storage
 * under `selectedDashboardId`.
 */
module AppView {
  import opened Wrappers
  import opened GlobalStore
  import Ids

  /** `dashboards.some(d => d.dashboardSettings.id === id)`. */
  predicate HasDashboard(dashboards: seq<DashboardData>, id: string) {
    exists i :: 0 <= i < |dashboards| && IsDashboard(dashboards[i], id)
  }

  /** The selected id and the remembered id (None: the storage key is absent). */
  datatype Selection = Selection(selected: string, remembered: Option<string>)

  /**
   * What the selection effect leaves behind: nothing selected or remembered
   * for an empty list; otherwise the remembered id when it is non-empty and
   * names a dashboard, else the first dashboard's id, which is then remembered.
   * On a non-empty list the selection always names a dashboard and is what
   * storage remembers.
   */
  function SelectAfterChange(dashboards: seq<DashboardData>, stored: Option<string>): (r: Selection)
    ensures |dashboards| == 0 <==> r == Selection("", None)
    ensures |dashboards| > 0 ==> HasDashboard(dashboards, r.selected) && r.remembered == Some(r.selected)
    ensures stored.Some? && stored.value != "" && HasDashboard(dashboards, stored.value) ==> r == Selection(stored.value, stored)
    ensures |dashboards| > 0 && !(stored.Some? && stored.value != "" && HasDashboard(dashboards, stored.value)) ==>
      r.selected == dashboards[0].dashboardSettings.id
  {
    if |dashboards| > 0 then
      if stored.Some? && stored.value != "" && HasDashboard(dashboards, stored.value) then Selection(stored.value, stored)
      else
        assert IsDashboard(dashboards[0], dashboards[0].dashboardSettings.id);
        Selection(dashboards[0].dashboardSettings.id, Some(dashboards[0].dashboardSettings.id))
    else Selection("", None)
  }

  /** `dashboards.find(d => d.dashboardSettings.id === id) || null`: the first dashboard with the id. */
  function FindDashboard(dashboards: seq<DashboardData>, id: string): (r: Option<DashboardData>)
    ensures r.Some? <==> HasDashboard(dashboards, id)
    ensures r.Some? ==> exists i :: (0 <= i < |dashboards| && dashboards[i] == r.value && IsDashboard(r.value, id)
      && forall j :: 0 <= j < i ==> !IsDashboard(dashboards[j], id))
  {
    if dashboards == [] then None
    else if IsDashboard(dashboards[0], id) then Some(dashboards[0])
    else
      var rest := FindDashboard(dashboards[1..], id);
      if rest.Some? then
        var i :| 0 <= i < |dashboards[1..]| && dashboards[1..][i] == rest.value && IsDashboard(rest.value, id)
          && forall j :: 0 <= j < i ==> !IsDashboard(dashboards[1..][j], id);
        assert dashboards[i + 1] == rest.value;
        rest
      else
        assert forall i :: 1 <= i < |dashboards| ==> dashboards[i] == dashboards[1..][i - 1];
        None
  }

  /** The dashboard the add button creates at time `now`. */
  function NewDashboard(now: nat): (d: DashboardData)
    ensures d.dashboardSettings.id == Ids.TimestampId("dashboard-", now) && d.dashboardSettings.id != ""
    ensures d.dashboardSettings.title == "New Dashboard" && d.dashboardSettings.layout == "grid"
    ensures d.containers == []
  {
    DashboardData(DashboardSettings(Ids.TimestampId("dashboard-", now), "New Dashboard", "grid"), [])
  }

  class App {
    /** The reducer store the shell reads and dispatches to. */
    var state: GlobalState
    var selectedDashboardId: string
    /** Local storage's `selectedDashboardId` entry. */
    var remembered: Option<string>

    constructor (state: GlobalState, remembered: Option<string>)
      ensures this.state == state && this.remembered == remembered && selectedDashboardId == ""
    {
      this.state := state;
      this.remembered := remembered;
      selectedDashboardId := "";
    }

    /** The effect that runs whenever the dashboard list changes. */
    method SelectionEffect()
      modifies this
      ensures state == old(state)
      ensures Selection(selectedDashboardId, remembered) == SelectAfterChange(state.dashboards, old(remembered))
    {
      var dashboards := state.dashboards;
      if |dashboards| > 0 {
        var storedId := remembered;
        if storedId.Some? && storedId.value != "" && HasDashboard(dashboards, storedId.value) {
          selectedDashboardId := storedId.value;
        } else {
          var newSelected := dashboards[0].dashboardSettings.id;
          selectedDashboardId := newSelected;
          remembered := Some(newSelected);
        }
      } else {
        selectedDashboardId := "";
        remembered := None;
      }
    }

    /** Selects the dashboard and remembers it. */
    method HandleSelectDashboard(dashboardId: string)
      modifies this
      ensures state == old(state)
      ensures selectedDashboardId == dashboardId && remembered == Some(dashboardId)
    {
      selectedDashboardId := dashboardId;
      remembered := Some(dashboardId);
    }

    /** Dispatches ADD_DASHBOARD for a new dashboard, then selects and remembers it. */
    method HandleAddDashboard(now: nat)
      modifies this
      ensures state == Reduce(old(state), AddDashboard(NewDashboard(now)))
      ensures selectedDashboardId == NewDashboard(now).dashboardSettings.id
      ensures remembered == Some(selectedDashboardId)
    {
      var newDashboard := NewDashboard(now);
      state := Reduce(state, AddDashboard(newDashboard));
      selectedDashboardId := newDashboard.dashboardSettings.id;
      remembered := Some(newDashboard.dashboardSettings.id);
    }

    /** The dashboard on screen, if any. */
    function CurrentDashboard(): (r: Option<DashboardData>)
      reads this
      ensures r.Some? <==> HasDashboard(state.dashboards, selectedDashboardId)
      ensures r.Some? ==> IsDashboard(r.value, selectedDashboardId) && r.value in state.dashboards
    {
      FindDashboard(state.dashboards, selectedDashboardId)
    }
  }

  /** Once the effect has run on a non-empty list, a dashboard is on screen. */
  lemma EffectShowsADashboard(dashboards: seq<DashboardData>, stored: Option<string>)
    requires |dashboards| > 0
    ensures FindDashboard(dashboards, SelectAfterChange(dashboards, stored).selected).Some?
  {
  }

  /** Running the effect again on the same list changes nothing. */
  lemma SelectionIsStable(dashboards: seq<DashboardData>, stored: Option<string>)
    ensures var first := SelectAfterChange(dashboards, stored);
      SelectAfterChange(dashboards, first.remembered) == first
  {
    var first := SelectAfterChange(dashboards, stored);
    if |dashboards| > 0 && first.selected == "" {
      assert !(stored.Some? && stored.value != "" && HasDashboard(dashboards, stored.value));
    }
  }

  /**
   * The add-then-select flow: after the add button's dispatch, the effect
   * triggered by the longer list keeps the new dashboard selected.
   */
  lemma AddThenEffectKeepsNewDashboard(state: GlobalState, now: nat)
    ensures var d := NewDashboard(now);
      var id := d.dashboardSettings.id;
      SelectAfterChange(Reduce(state, AddDashboard(d)).dashboards, Some(id)) == Selection(id, Some(id))
  {
    var d := NewDashboard(now);
    var ds := Reduce(state, AddDashboard(d)).dashboards;
    assert ds[|ds| - 1] == d;
    assert HasDashboard(ds, d.dashboardSettings.id);
  }
}
