/**
 * The file-loaded store: `GlobalStoreData` (application and project
 * configuration) held as `GlobalStoreData | null`, and the `prev => next`
 * updaters that rewrite it. Each updater leaves a null store null. The three
 * updaters that call `.map` on the project's dashboard list throw a
 * TypeError when that list is missing; `addDashboard` treats it as empty.
 */
module GlobalStoreProvider {
  import opened Wrappers
  import opened Js
  import Seqs

  datatype GeneralSettings = GeneralSettings(theme: string, language: string, version: string)

  datatype DashboardBaseSettings = DashboardBaseSettings(layout: string, defaultWidgets: seq<Json>, refreshInterval: int)

  datatype ApiDefinition = ApiDefinition(baseUrl: string, authRequired: bool)

  datatype ContainerBaseSettings = ContainerBaseSettings(
    borderColor: string, padding: string, defaultApiDefinition: ApiDefinition)

  datatype AppConfig = AppConfig(
    generalSettings: GeneralSettings,
    dashboardBaseSettings: DashboardBaseSettings,
    containerBaseSettings: ContainerBaseSettings)

  datatype ProjectDetails = ProjectDetails(name: string, description: string)

  datatype AuthSettings = AuthSettings(authUrl: string, clientId: string, responseType: string, scope: string)

  datatype ProjectSettings = ProjectSettings(details: ProjectDetails, authSettings: AuthSettings)

  datatype ComponentType = Button | ComboSelect | List

  datatype ComponentDefinition = ComponentDefinition(
    id: string,
    endpointUrl: string,
    verb: string,
    componentType: ComponentType,
    order: int,
    pinned: bool,
    otherSettings: Json)

  /** A component and the optional response cache of its endpoint. */
  datatype ComponentData = ComponentData(componentDefinition: ComponentDefinition, dynamicData: Option<Json>)

  datatype ContainerSettings = ContainerSettings(id: string, title: string, apiDefinition: ApiDefinition)

  datatype ContainerData = ContainerData(
    containerSettings: ContainerSettings, components: seq<ComponentData>, dynamicData: Option<Json>)

  datatype DashboardSettings = DashboardSettings(id: string, title: string, layout: string)

  datatype DashboardData = DashboardData(dashboardSettings: DashboardSettings, containers: seq<ContainerData>)

  /** The dashboard list comes from a JSON file and may be missing (None). */
  datatype ProjectConfig = ProjectConfig(projectSettings: ProjectSettings, dashboards: Option<seq<DashboardData>>)

  datatype GlobalStoreData = GlobalStoreData(appConfig: AppConfig, projectConfig: ProjectConfig)

  /** `Partial<AppConfig>`. */
  datatype AppConfigPatch = AppConfigPatch(
    generalSettings: Option<GeneralSettings>,
    dashboardBaseSettings: Option<DashboardBaseSettings>,
    containerBaseSettings: Option<ContainerBaseSettings>)

  /** `Partial<ProjectConfig>`. */
  datatype ProjectConfigPatch = ProjectConfigPatch(
    projectSettings: Option<ProjectSettings>,
    dashboards: Option<seq<DashboardData>>)

  /** `Partial<DashboardData>`. */
  datatype DashboardPatch = DashboardPatch(
    dashboardSettings: Option<DashboardSettings>,
    containers: Option<seq<ContainerData>>)

  /** `Partial<ContainerData>`. */
  datatype ContainerPatch = ContainerPatch(
    containerSettings: Option<ContainerSettings>,
    components: Option<seq<ComponentData>>,
    dynamicData: Option<Json>)

  /** `Partial<ComponentDefinition> & { dynamicData?: any }`. */
  datatype ComponentPatch = ComponentPatch(
    id: Option<string>,
    endpointUrl: Option<string>,
    verb: Option<string>,
    componentType: Option<ComponentType>,
    order: Option<int>,
    pinned: Option<bool>,
    otherSettings: Option<Json>,
    dynamicData: Option<Json>)

  /** The TypeError thrown by `prev.projectConfig.dashboards.map` when the list is missing. */
  datatype Fault = DashboardsMissing

  /** What an updater that may throw produces: the next store, or the error. */
  type Outcome = Result<Option<GlobalStoreData>, Fault>

  predicate IsDashboard(d: DashboardData, dashboardId: string) {
    d.dashboardSettings.id == dashboardId
  }

  predicate IsContainer(c: ContainerData, containerId: string) {
    c.containerSettings.id == containerId
  }

  predicate IsComponent(c: ComponentData, componentId: string) {
    c.componentDefinition.id == componentId
  }

  /** True when the store is loaded but its dashboard list is missing. */
  predicate MissingDashboards(store: Option<GlobalStoreData>) {
    store.Some? && store.value.projectConfig.dashboards.None?
  }

  // ---- Shallow merges `{ ...x, ...patch }` ----

  function MergeAppConfig(c: AppConfig, p: AppConfigPatch): AppConfig {
    AppConfig(
      p.generalSettings.GetOr(c.generalSettings),
      p.dashboardBaseSettings.GetOr(c.dashboardBaseSettings),
      p.containerBaseSettings.GetOr(c.containerBaseSettings))
  }

  function MergeProjectConfig(c: ProjectConfig, p: ProjectConfigPatch): ProjectConfig {
    ProjectConfig(
      p.projectSettings.GetOr(c.projectSettings),
      if p.dashboards.Some? then p.dashboards else c.dashboards)
  }

  function MergeDashboard(d: DashboardData, p: DashboardPatch): DashboardData {
    DashboardData(p.dashboardSettings.GetOr(d.dashboardSettings), p.containers.GetOr(d.containers))
  }

  function MergeContainer(c: ContainerData, p: ContainerPatch): ContainerData {
    ContainerData(
      p.containerSettings.GetOr(c.containerSettings),
      p.components.GetOr(c.components),
      if p.dynamicData.Some? then p.dynamicData else c.dynamicData)
  }

  function MergeDefinition(c: ComponentDefinition, p: ComponentPatch): ComponentDefinition {
    ComponentDefinition(
      p.id.GetOr(c.id),
      p.endpointUrl.GetOr(c.endpointUrl),
      p.verb.GetOr(c.verb),
      p.componentType.GetOr(c.componentType),
      p.order.GetOr(c.order),
      p.pinned.GetOr(c.pinned),
      p.otherSettings.GetOr(c.otherSettings))
  }

  /**
   * The component update: the definition takes the patch's fields, and the
   * cache becomes `data.dynamicData || component.dynamicData`.
   */
  function MergeComponent(c: ComponentData, p: ComponentPatch): (r: ComponentData)
    ensures p.dynamicData.Some? && Truthy(p.dynamicData.value) ==> r.dynamicData == p.dynamicData
    ensures p.dynamicData.None? || !Truthy(p.dynamicData.value) ==> r.dynamicData == c.dynamicData
  {
    ComponentData(
      MergeDefinition(c.componentDefinition, p),
      if p.dynamicData.Some? && Truthy(p.dynamicData.value) then p.dynamicData else c.dynamicData)
  }

  // ---- The list rewrites behind the nested updaters ----

  function UpdateDashboardsIn(ds: seq<DashboardData>, dashboardId: string, p: DashboardPatch): (r: seq<DashboardData>)
    ensures |r| == |ds|
    ensures forall i :: 0 <= i < |ds| && IsDashboard(ds[i], dashboardId) ==> r[i] == MergeDashboard(ds[i], p)
    ensures forall i :: 0 <= i < |ds| && !IsDashboard(ds[i], dashboardId) ==> r[i] == ds[i]
  {
    Seqs.MapWhere(ds, d => IsDashboard(d, dashboardId), d => MergeDashboard(d, p))
  }

  /** `containers.map(c => c.id === containerId ? { ...c, ...patch } : c)`. */
  function UpdateContainersIn(cs: seq<ContainerData>, containerId: string, p: ContainerPatch): (r: seq<ContainerData>)
    ensures |r| == |cs|
    ensures forall j :: 0 <= j < |cs| && IsContainer(cs[j], containerId) ==> r[j] == MergeContainer(cs[j], p)
    ensures forall j :: 0 <= j < |cs| && !IsContainer(cs[j], containerId) ==> r[j] == cs[j]
  {
    Seqs.MapWhere(cs, c => IsContainer(c, containerId), c => MergeContainer(c, p))
  }

  /** The dashboards after `updateContainer`: only matching containers of matching dashboards change. */
  function UpdateContainerIn(ds: seq<DashboardData>, dashboardId: string, containerId: string, p: ContainerPatch)
    : (r: seq<DashboardData>)
    ensures |r| == |ds|
    ensures forall i :: 0 <= i < |ds| ==>
      && r[i].dashboardSettings == ds[i].dashboardSettings
      && |r[i].containers| == |ds[i].containers|
    ensures forall i :: 0 <= i < |ds| && !IsDashboard(ds[i], dashboardId) ==> r[i] == ds[i]
    ensures forall i, j :: 0 <= i < |ds| && 0 <= j < |ds[i].containers| ==>
      r[i].containers[j] ==
        if IsDashboard(ds[i], dashboardId) && IsContainer(ds[i].containers[j], containerId)
        then MergeContainer(ds[i].containers[j], p)
        else ds[i].containers[j]
  {
    Seqs.MapWhere(ds, d => IsDashboard(d, dashboardId),
      (d: DashboardData) => d.(containers := UpdateContainersIn(d.containers, containerId, p)))
  }

  function UpdateComponentsIn(ks: seq<ComponentData>, componentId: string, p: ComponentPatch): seq<ComponentData> {
    Seqs.MapWhere(ks, k => IsComponent(k, componentId), k => MergeComponent(k, p))
  }

  function UpdateComponentInContainers(cs: seq<ContainerData>, containerId: string, componentId: string, p: ComponentPatch)
    : seq<ContainerData>
  {
    Seqs.MapWhere(cs, c => IsContainer(c, containerId),
      (c: ContainerData) => c.(components := UpdateComponentsIn(c.components, componentId, p)))
  }

  /**
   * The dashboards after `updateComponent`: every count is kept, every
   * dashboard's and container's own fields are kept, and only the matching
   * components of matching containers of matching dashboards are merged.
   */
  function UpdateComponentIn(ds: seq<DashboardData>, dashboardId: string, containerId: string, componentId: string,
                             p: ComponentPatch): (r: seq<DashboardData>)
    ensures |r| == |ds|
    ensures forall i :: 0 <= i < |ds| ==>
      && r[i].dashboardSettings == ds[i].dashboardSettings
      && |r[i].containers| == |ds[i].containers|
    ensures forall i, j :: 0 <= i < |ds| && 0 <= j < |ds[i].containers| ==>
      && r[i].containers[j].containerSettings == ds[i].containers[j].containerSettings
      && r[i].containers[j].dynamicData == ds[i].containers[j].dynamicData
      && |r[i].containers[j].components| == |ds[i].containers[j].components|
    ensures forall i, j, k :: 0 <= i < |ds| && 0 <= j < |ds[i].containers| && 0 <= k < |ds[i].containers[j].components| ==>
      r[i].containers[j].components[k] ==
        if IsDashboard(ds[i], dashboardId) && IsContainer(ds[i].containers[j], containerId)
           && IsComponent(ds[i].containers[j].components[k], componentId)
        then MergeComponent(ds[i].containers[j].components[k], p)
        else ds[i].containers[j].components[k]
  {
    Seqs.MapWhere(ds, d => IsDashboard(d, dashboardId),
      (d: DashboardData) => d.(containers := UpdateComponentInContainers(d.containers, containerId, componentId, p)))
  }

  /**
   * Runs a rewrite of the dashboard list inside `setGlobalStore(prev => ...)`:
   * a null store stays null, a missing list throws, and otherwise only the
   * list changes.
   */
  function RewriteDashboards(store: Option<GlobalStoreData>, f: seq<DashboardData> -> seq<DashboardData>): (r: Outcome)
    ensures store.None? ==> r == Success(None)
    ensures r.Failure? <==> MissingDashboards(store)
    ensures store.Some? && !MissingDashboards(store) ==>
      && r.Success? && r.value.Some?
      && r.value.value.appConfig == store.value.appConfig
      && r.value.value.projectConfig.projectSettings == store.value.projectConfig.projectSettings
      && r.value.value.projectConfig.dashboards == Some(f(store.value.projectConfig.dashboards.value))
  {
    match store
    case None => Success(None)
    case Some(prev) =>
      match prev.projectConfig.dashboards
      case None => Failure(DashboardsMissing)
      case Some(ds) => Success(Some(prev.(projectConfig := prev.projectConfig.(dashboards := Some(f(ds))))))
  }

  // ---- The updaters ----

  /** `updateAppConfig`: merges into `appConfig` only. */
  function UpdateAppConfig(store: Option<GlobalStoreData>, p: AppConfigPatch): (r: Option<GlobalStoreData>)
    ensures r.None? <==> store.None?
    ensures r.Some? ==> r.value.projectConfig == store.value.projectConfig
    ensures r.Some? ==> r.value.appConfig == MergeAppConfig(store.value.appConfig, p)
  {
    match store
    case None => None
    case Some(prev) => Some(prev.(appConfig := MergeAppConfig(prev.appConfig, p)))
  }

  /** `updateProjectConfig`: merges into `projectConfig` only. */
  function UpdateProjectConfig(store: Option<GlobalStoreData>, p: ProjectConfigPatch): (r: Option<GlobalStoreData>)
    ensures r.None? <==> store.None?
    ensures r.Some? ==> r.value.appConfig == store.value.appConfig
    ensures r.Some? ==> r.value.projectConfig == MergeProjectConfig(store.value.projectConfig, p)
  {
    match store
    case None => None
    case Some(prev) => Some(prev.(projectConfig := MergeProjectConfig(prev.projectConfig, p)))
  }

  /** `updateDashboard`. */
  function UpdateDashboard(store: Option<GlobalStoreData>, dashboardId: string, p: DashboardPatch): (r: Outcome)
    ensures store.None? ==> r == Success(None)
    ensures r.Failure? <==> MissingDashboards(store)
    ensures r.Success? && r.value.Some? ==>
      && r.value.value.appConfig == store.value.appConfig
      && r.value.value.projectConfig.projectSettings == store.value.projectConfig.projectSettings
      && r.value.value.projectConfig.dashboards == Some(UpdateDashboardsIn(store.value.projectConfig.dashboards.value, dashboardId, p))
  {
    RewriteDashboards(store, ds => UpdateDashboardsIn(ds, dashboardId, p))
  }

  /** `updateContainer`. */
  function UpdateContainer(store: Option<GlobalStoreData>, dashboardId: string, containerId: string, p: ContainerPatch)
    : (r: Outcome)
    ensures store.None? ==> r == Success(None)
    ensures r.Failure? <==> MissingDashboards(store)
    ensures r.Success? && r.value.Some? ==>
      && r.value.value.appConfig == store.value.appConfig
      && r.value.value.projectConfig.projectSettings == store.value.projectConfig.projectSettings
      && r.value.value.projectConfig.dashboards == Some(UpdateContainerIn(store.value.projectConfig.dashboards.value, dashboardId, containerId, p))
  {
    RewriteDashboards(store, ds => UpdateContainerIn(ds, dashboardId, containerId, p))
  }

  /** `updateComponent`. */
  function UpdateComponent(store: Option<GlobalStoreData>, dashboardId: string, containerId: string, componentId: string,
                           p: ComponentPatch): (r: Outcome)
    ensures store.None? ==> r == Success(None)
    ensures r.Failure? <==> MissingDashboards(store)
    ensures r.Success? && r.value.Some? ==>
      && r.value.value.appConfig == store.value.appConfig
      && r.value.value.projectConfig.projectSettings == store.value.projectConfig.projectSettings
      && r.value.value.projectConfig.dashboards == Some(UpdateComponentIn(store.value.projectConfig.dashboards.value, dashboardId, containerId, componentId, p))
  {
    RewriteDashboards(store, ds => UpdateComponentIn(ds, dashboardId, containerId, componentId, p))
  }

  /** The patch `{ dynamicData }` that `updateDynamicData` passes on. */
  function DynamicDataOnly(dynamicData: Json): (p: ComponentPatch)
    ensures p.dynamicData == Some(dynamicData)
  {
    ComponentPatch(None, None, None, None, None, None, None, Some(dynamicData))
  }

  /** `updateDynamicData`: an `updateComponent` whose patch carries only `dynamicData`. */
  function UpdateDynamicData(store: Option<GlobalStoreData>, dashboardId: string, containerId: string, componentId: string,
                             dynamicData: Json): (r: Outcome)
    ensures r == UpdateComponent(store, dashboardId, containerId, componentId, DynamicDataOnly(dynamicData))
  {
    UpdateComponent(store, dashboardId, containerId, componentId, DynamicDataOnly(dynamicData))
  }

  /** `addDashboard`: appends at the end of the list, a missing list counting as empty. */
  function AddDashboard(store: Option<GlobalStoreData>, d: DashboardData): (r: Option<GlobalStoreData>)
    ensures r.None? <==> store.None?
    ensures r.Some? ==>
      && r.value.appConfig == store.value.appConfig
      && r.value.projectConfig.projectSettings == store.value.projectConfig.projectSettings
      && r.value.projectConfig.dashboards == Some(store.value.projectConfig.dashboards.GetOr([]) + [d])
  {
    match store
    case None => None
    case Some(prev) =>
      Some(prev.(projectConfig := prev.projectConfig.(dashboards := Some(prev.projectConfig.dashboards.GetOr([]) + [d]))))
  }

  // ---- Properties ----

  /** A falsy `dynamicData` (0, "", false, null) is dropped: the update leaves the store exactly as it was. */
  lemma UpdateDynamicDataFalsyIsNoop(store: Option<GlobalStoreData>, dashboardId: string, containerId: string,
                                     componentId: string, dynamicData: Json)
    requires !Truthy(dynamicData)
    requires !MissingDashboards(store)
    ensures UpdateDynamicData(store, dashboardId, containerId, componentId, dynamicData) == Success(store)
  {
    if store.Some? {
      var ds := store.value.projectConfig.dashboards.value;
      var p := DynamicDataOnly(dynamicData);
      var r := UpdateComponentIn(ds, dashboardId, containerId, componentId, p);
      forall i | 0 <= i < |ds| ensures r[i] == ds[i] {
        forall j | 0 <= j < |ds[i].containers| ensures r[i].containers[j] == ds[i].containers[j] {
          assert r[i].containers[j].components == ds[i].containers[j].components;
        }
        assert r[i].containers == ds[i].containers;
      }
      assert r == ds;
    }
  }

  /**
   * A truthy `dynamicData` becomes the cache of every matching component, whose
   * definition stays as it was; everything else is unchanged.
   */
  lemma UpdateDynamicDataTruthySets(ds: seq<DashboardData>, dashboardId: string, containerId: string,
                                    componentId: string, dynamicData: Json)
    requires Truthy(dynamicData)
    ensures var r := UpdateComponentIn(ds, dashboardId, containerId, componentId, DynamicDataOnly(dynamicData));
      forall i, j, k :: 0 <= i < |ds| && 0 <= j < |ds[i].containers| && 0 <= k < |ds[i].containers[j].components| ==>
        var old_k, new_k := ds[i].containers[j].components[k], r[i].containers[j].components[k];
        && new_k.componentDefinition == old_k.componentDefinition
        && new_k.dynamicData ==
             if IsDashboard(ds[i], dashboardId) && IsContainer(ds[i].containers[j], containerId) && IsComponent(old_k, componentId)
             then Some(dynamicData) else old_k.dynamicData
  {
  }

  /** An update naming a dashboard id that no dashboard has leaves the list unchanged. */
  lemma UpdateDashboardUnknownIdIsNoop(ds: seq<DashboardData>, dashboardId: string, p: DashboardPatch)
    requires forall i :: 0 <= i < |ds| ==> !IsDashboard(ds[i], dashboardId)
    ensures UpdateDashboardsIn(ds, dashboardId, p) == ds
  {
    assert forall i :: 0 <= i < |ds| ==> UpdateDashboardsIn(ds, dashboardId, p)[i] == ds[i];
  }

  /** Adding to a store whose list is missing yields a list holding just the new dashboard. */
  lemma AddDashboardToMissingList(store: Option<GlobalStoreData>, d: DashboardData)
    requires MissingDashboards(store)
    ensures AddDashboard(store, d).value.projectConfig.dashboards == Some([d])
    ensures UpdateDashboard(store, d.dashboardSettings.id, DashboardPatch(None, None)).Failure?
  {
    assert [] + [d] == [d];
  }
}
