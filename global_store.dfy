/**
 * The reducer-based global store: dashboards -> containers -> components plus
 * the OAuth settings, and the six commands that produce a new snapshot from
 * the current one. Every command is a pure function of (state, action).
 */
module GlobalStore {
  import opened Wrappers
  import opened Js
  import Seqs

  datatype DashboardSettings = DashboardSettings(id: string, title: string, layout: string)

  datatype ContainerSettings = ContainerSettings(id: string, title: string, apiDefinition: Json)

  datatype ComponentType = Text | Table | Button | List | ComboSelect

  datatype ComponentDefinition = ComponentDefinition(
    id: string,
    title: Option<string>,
    endpointUrl: string,
    verb: string,
    componentType: ComponentType,
    order: int,
    pinned: bool,
    otherSettings: Json)

  /** An element of a container's `components` array: `{ componentDefinition }`. */
  datatype ComponentEntry = ComponentEntry(componentDefinition: ComponentDefinition)

  datatype ContainerData = ContainerData(containerSettings: ContainerSettings, components: seq<ComponentEntry>)

  datatype DashboardData = DashboardData(dashboardSettings: DashboardSettings, containers: seq<ContainerData>)

  datatype AuthSettings = AuthSettings(authUrl: string, clientId: string, responseType: string, scope: string)

  datatype GlobalState = GlobalState(dashboards: seq<DashboardData>, authSettings: AuthSettings)

  /** `Partial<AuthSettings>`: None means the key is absent. */
  datatype AuthSettingsPatch = AuthSettingsPatch(
    authUrl: Option<string>,
    clientId: Option<string>,
    responseType: Option<string>,
    scope: Option<string>)

  /** `Partial<GlobalState>`, the shape of a persisted snapshot. */
  datatype GlobalStatePatch = GlobalStatePatch(
    dashboards: Option<seq<DashboardData>>,
    authSettings: Option<AuthSettings>)

  datatype Action =
    | AddDashboard(dashboard: DashboardData)
    | UpdateDashboardTitle(dashboardId: string, title: string)
    | AddContainer(dashboardId: string, container: ContainerData)
    | RemoveContainer(dashboardId: string, containerId: string)
    | UpdateAuthSettings(authPatch: AuthSettingsPatch)
    | LoadState(statePatch: GlobalStatePatch)

  const DefaultAuthSettings: AuthSettings :=
    AuthSettings("https://example.com/oauth2/authorize", "your-client-id", "token", "read write")

  /** The state before anything is loaded or dispatched. */
  const InitialState: GlobalState := GlobalState([], DefaultAuthSettings)

  predicate IsDashboard(d: DashboardData, dashboardId: string) {
    d.dashboardSettings.id == dashboardId
  }

  predicate IsContainer(c: ContainerData, containerId: string) {
    c.containerSettings.id == containerId
  }

  /** True when some dashboard with id `dashboardId` holds a container with id `containerId`. */
  predicate HoldsContainer(dashboards: seq<DashboardData>, dashboardId: string, containerId: string) {
    exists i, j :: 0 <= i < |dashboards| && 0 <= j < |dashboards[i].containers| &&
      IsDashboard(dashboards[i], dashboardId) && IsContainer(dashboards[i].containers[j], containerId)
  }

  /** `{ ...settings, ...patch }` for the authentication settings. */
  function MergeAuthSettings(a: AuthSettings, p: AuthSettingsPatch): AuthSettings {
    AuthSettings(
      p.authUrl.GetOr(a.authUrl),
      p.clientId.GetOr(a.clientId),
      p.responseType.GetOr(a.responseType),
      p.scope.GetOr(a.scope))
  }

  /** `{ ...state, ...patch }` for a (partial) snapshot. */
  function MergeState(s: GlobalState, p: GlobalStatePatch): GlobalState {
    GlobalState(p.dashboards.GetOr(s.dashboards), p.authSettings.GetOr(s.authSettings))
  }

  /** The containers left after dropping every container whose id is `containerId`. */
  function WithoutContainer(containers: seq<ContainerData>, containerId: string): seq<ContainerData> {
    Seqs.Filter(containers, c => !IsContainer(c, containerId))
  }

  function Retitle(d: DashboardData, title: string): DashboardData {
    d.(dashboardSettings := d.dashboardSettings.(title := title))
  }

  function AppendContainer(d: DashboardData, container: ContainerData): DashboardData {
    d.(containers := d.containers + [container])
  }

  function DropContainer(d: DashboardData, containerId: string): DashboardData {
    d.(containers := WithoutContainer(d.containers, containerId))
  }

  /** The reducer. Dashboard commands leave the auth settings alone, and the auth command leaves the dashboards alone. */
  function Reduce(state: GlobalState, action: Action): (r: GlobalState)
    ensures !action.UpdateAuthSettings? && !action.LoadState? ==> r.authSettings == state.authSettings
    ensures action.UpdateAuthSettings? ==> r.dashboards == state.dashboards
    ensures !action.AddDashboard? && !action.LoadState? ==> |r.dashboards| == |state.dashboards|
    ensures !action.AddDashboard? && !action.LoadState? ==>
      forall i :: 0 <= i < |r.dashboards| ==> r.dashboards[i].dashboardSettings.id == state.dashboards[i].dashboardSettings.id
  {
    match action
    case AddDashboard(d) =>
      state.(dashboards := state.dashboards + [d])
    case UpdateDashboardTitle(dashboardId, title) =>
      state.(dashboards := Seqs.MapWhere(state.dashboards, d => IsDashboard(d, dashboardId),
        d => Retitle(d, title)))
    case AddContainer(dashboardId, container) =>
      state.(dashboards := Seqs.MapWhere(state.dashboards, d => IsDashboard(d, dashboardId),
        d => AppendContainer(d, container)))
    case RemoveContainer(dashboardId, containerId) =>
      state.(dashboards := Seqs.MapWhere(state.dashboards, d => IsDashboard(d, dashboardId),
        d => DropContainer(d, containerId)))
    case UpdateAuthSettings(p) =>
      state.(authSettings := MergeAuthSettings(state.authSettings, p))
    case LoadState(p) =>
      MergeState(state, p)
  }

  /** Dispatching several commands one after another. */
  function ReduceAll(state: GlobalState, actions: seq<Action>): GlobalState
    decreases |actions|
  {
    if actions == [] then state else ReduceAll(Reduce(state, actions[0]), actions[1..])
  }

  /** One ADD_DASHBOARD command per dashboard, in order. */
  function AddAll(dashboards: seq<DashboardData>): (r: seq<Action>)
    ensures |r| == |dashboards|
    ensures forall i :: 0 <= i < |r| ==> r[i] == AddDashboard(dashboards[i])
  {
    if dashboards == [] then [] else [AddDashboard(dashboards[0])] + AddAll(dashboards[1..])
  }

  /** ADD_DASHBOARD appends: the existing dashboards keep their positions and the new one is last. */
  lemma AddDashboardAppends(state: GlobalState, d: DashboardData)
    ensures var r := Reduce(state, AddDashboard(d));
      && |r.dashboards| == |state.dashboards| + 1
      && r.dashboards[..|state.dashboards|] == state.dashboards
      && r.dashboards[|state.dashboards|] == d
      && r.authSettings == state.authSettings
  {
  }

  /** A run of ADD_DASHBOARD commands adds exactly those dashboards, in insertion order. */
  lemma {:induction false} AddDashboardsInOrder(state: GlobalState, dashboards: seq<DashboardData>)
    ensures ReduceAll(state, AddAll(dashboards)) == state.(dashboards := state.dashboards + dashboards)
    decreases |dashboards|
  {
    if dashboards == [] {
      assert state.dashboards + dashboards == state.dashboards;
    } else {
      var d, rest := dashboards[0], dashboards[1..];
      var next := state.(dashboards := state.dashboards + [d]);
      assert dashboards == [d] + rest;
      calc {
        ReduceAll(state, AddAll(dashboards));
        { ReduceAllAddFirst(state, d, rest); }
        ReduceAll(next, AddAll(rest));
        { AddDashboardsInOrder(next, rest); }
        next.(dashboards := next.dashboards + rest);
        { assert next.dashboards + rest == state.dashboards + dashboards; }
        state.(dashboards := state.dashboards + dashboards);
      }
    }
  }

  lemma ReduceAllAddFirst(state: GlobalState, d: DashboardData, rest: seq<DashboardData>)
    ensures ReduceAll(state, AddAll([d] + rest)) == ReduceAll(state.(dashboards := state.dashboards + [d]), AddAll(rest))
  {
    var actions := AddAll([d] + rest);
    assert ([d] + rest)[1..] == rest;
    assert actions[1..] == AddAll(rest);
  }

  /** UPDATE_DASHBOARD_TITLE retitles the matching dashboards and changes nothing else. */
  lemma UpdateTitleOnlyRetitles(state: GlobalState, dashboardId: string, title: string)
    ensures var r := Reduce(state, UpdateDashboardTitle(dashboardId, title));
      forall i :: 0 <= i < |state.dashboards| ==>
        var d, e := state.dashboards[i], r.dashboards[i];
        && e.dashboardSettings.id == d.dashboardSettings.id
        && e.dashboardSettings.layout == d.dashboardSettings.layout
        && e.containers == d.containers
        && (IsDashboard(d, dashboardId) ==> e.dashboardSettings.title == title)
        && (!IsDashboard(d, dashboardId) ==> e == d)
  {
  }

  /** UPDATE_DASHBOARD_TITLE with an id no dashboard has leaves the state as it was. */
  lemma UpdateTitleUnknownIdIsNoop(state: GlobalState, dashboardId: string, title: string)
    requires forall i :: 0 <= i < |state.dashboards| ==> !IsDashboard(state.dashboards[i], dashboardId)
    ensures Reduce(state, UpdateDashboardTitle(dashboardId, title)) == state
  {
    var r := Reduce(state, UpdateDashboardTitle(dashboardId, title));
    assert r.dashboards == state.dashboards;
  }

  /** ADD_CONTAINER appends the container to every matching dashboard and leaves the others identical. */
  lemma AddContainerAppends(state: GlobalState, dashboardId: string, container: ContainerData)
    ensures var r := Reduce(state, AddContainer(dashboardId, container));
      forall i :: 0 <= i < |state.dashboards| ==>
        var d, e := state.dashboards[i], r.dashboards[i];
        && e.dashboardSettings == d.dashboardSettings
        && (IsDashboard(d, dashboardId) ==> e.containers == d.containers + [container])
        && (!IsDashboard(d, dashboardId) ==> e == d)
  {
  }

  /**
   * REMOVE_CONTAINER drops every container with the id from the matching
   * dashboards: none is left, the survivors are exactly the other containers,
   * and they keep their relative order.
   */
  lemma RemoveContainerDropsAll(state: GlobalState, dashboardId: string, containerId: string)
    ensures var r := Reduce(state, RemoveContainer(dashboardId, containerId));
      forall i :: 0 <= i < |state.dashboards| ==>
        var d, e := state.dashboards[i], r.dashboards[i];
        && e.dashboardSettings == d.dashboardSettings
        && (IsDashboard(d, dashboardId) ==>
              && (forall c :: c in e.containers <==> c in d.containers && !IsContainer(c, containerId))
              && e.containers == WithoutContainer(d.containers, containerId))
        && (!IsDashboard(d, dashboardId) ==> e == d)
    ensures !HoldsContainer(Reduce(state, RemoveContainer(dashboardId, containerId)).dashboards, dashboardId, containerId)
  {
    var r := Reduce(state, RemoveContainer(dashboardId, containerId));
    forall i, j | 0 <= i < |r.dashboards| && 0 <= j < |r.dashboards[i].containers| && IsDashboard(r.dashboards[i], dashboardId)
      ensures !IsContainer(r.dashboards[i].containers[j], containerId)
    {
      assert r.dashboards[i].containers[j] in WithoutContainer(state.dashboards[i].containers, containerId);
    }
  }

  /** Removing a container keeps the order of the rest: it commutes with splitting the list. */
  lemma WithoutContainerKeepsOrder(a: seq<ContainerData>, b: seq<ContainerData>, containerId: string)
    ensures WithoutContainer(a + b, containerId) == WithoutContainer(a, containerId) + WithoutContainer(b, containerId)
  {
    Seqs.FilterConcat(a, b, c => !IsContainer(c, containerId));
  }

  /**
   * Round trip: when no matching dashboard holds a container with the new
   * container's id, adding it and then removing that id restores the state.
   */
  lemma AddThenRemoveContainerRoundTrip(state: GlobalState, dashboardId: string, container: ContainerData)
    requires !HoldsContainer(state.dashboards, dashboardId, container.containerSettings.id)
    ensures Reduce(Reduce(state, AddContainer(dashboardId, container)),
                   RemoveContainer(dashboardId, container.containerSettings.id)) == state
  {
    var cid := container.containerSettings.id;
    var added := Reduce(state, AddContainer(dashboardId, container));
    var r := Reduce(added, RemoveContainer(dashboardId, cid));
    forall i | 0 <= i < |state.dashboards|
      ensures r.dashboards[i] == state.dashboards[i]
    {
      var d := state.dashboards[i];
      if IsDashboard(d, dashboardId) {
        forall c | c in d.containers ensures !IsContainer(c, cid) {
          var j :| 0 <= j < |d.containers| && d.containers[j] == c;
          assert !(IsDashboard(state.dashboards[i], dashboardId) && IsContainer(state.dashboards[i].containers[j], cid));
        }
        Seqs.FilterDropsRejectedLast(d.containers, container, c => !IsContainer(c, cid));
        Seqs.FilterKeepsAll(d.containers, c => !IsContainer(c, cid));
      }
    }
    assert r.dashboards == state.dashboards;
  }

  /** UPDATE_AUTH_SETTINGS overwrites exactly the fields present in the patch. */
  lemma UpdateAuthSettingsMerges(state: GlobalState, p: AuthSettingsPatch)
    ensures var a, b := state.authSettings, Reduce(state, UpdateAuthSettings(p)).authSettings;
      && b.authUrl == (if p.authUrl.Some? then p.authUrl.value else a.authUrl)
      && b.clientId == (if p.clientId.Some? then p.clientId.value else a.clientId)
      && b.responseType == (if p.responseType.Some? then p.responseType.value else a.responseType)
      && b.scope == (if p.scope.Some? then p.scope.value else a.scope)
  {
  }

  /** Applying the same auth patch twice has the effect of applying it once. */
  lemma UpdateAuthSettingsIdempotent(state: GlobalState, p: AuthSettingsPatch)
    ensures Reduce(Reduce(state, UpdateAuthSettings(p)), UpdateAuthSettings(p)) == Reduce(state, UpdateAuthSettings(p))
  {
  }

  /** The patch that carries every top-level field of a snapshot, as saving the store does. */
  function Snapshot(s: GlobalState): GlobalStatePatch {
    GlobalStatePatch(Some(s.dashboards), Some(s.authSettings))
  }

  /** LOAD_STATE replaces the fields present in the payload and keeps the current value of the absent ones. */
  lemma LoadStateMerges(state: GlobalState, p: GlobalStatePatch)
    ensures var r := Reduce(state, LoadState(p));
      && r.dashboards == (if p.dashboards.Some? then p.dashboards.value else state.dashboards)
      && r.authSettings == (if p.authSettings.Some? then p.authSettings.value else state.authSettings)
  {
  }

  /** Loading a complete snapshot yields exactly that snapshot, whatever the current state. */
  lemma LoadSnapshotRoundTrip(current: GlobalState, saved: GlobalState)
    ensures Reduce(current, LoadState(Snapshot(saved))) == saved
  {
  }

  /** A snapshot saved before `authSettings` existed loads its dashboards and takes the default settings. */
  lemma LoadOldSnapshotTakesDefaults(dashboards: seq<DashboardData>)
    ensures Reduce(InitialState, LoadState(GlobalStatePatch(Some(dashboards), None)))
         == GlobalState(dashboards, DefaultAuthSettings)
  {
  }

  /** The worked scenario: start empty, add a dashboard, add and remove a container, set the client id. */
  lemma StartupScenario()
    ensures var d := DashboardData(DashboardSettings("dashboard-1", "A", "grid"), []);
      var c := ContainerData(ContainerSettings("c1", "C", EmptyObject), []);
      var s1 := Reduce(InitialState, AddDashboard(d));
      var s2 := Reduce(s1, AddContainer("dashboard-1", c));
      var s3 := Reduce(s2, RemoveContainer("dashboard-1", "c1"));
      var s4 := Reduce(s3, UpdateAuthSettings(AuthSettingsPatch(None, Some("X"), None, None)));
      && InitialState.dashboards == []
      && |s1.dashboards| == 1 && s1.dashboards[0].dashboardSettings.title == "A"
      && s2.dashboards[0].containers == [c]
      && s3.dashboards[0].containers == []
      && s4.authSettings == DefaultAuthSettings.(clientId := "X")
  {
    var d := DashboardData(DashboardSettings("dashboard-1", "A", "grid"), []);
    var c := ContainerData(ContainerSettings("c1", "C", EmptyObject), []);
    var s1 := Reduce(InitialState, AddDashboard(d));
    AddThenRemoveContainerRoundTrip(s1, "dashboard-1", c);
  }
}
