# Dashboard store model

This project models the state core of a desktop dashboard builder. A dashboard
holds containers (cards), and a container holds endpoint components (URL, verb
and rendering type). The source changes this tree in three independent ways,
and each one is modelled separately:

- **The reducer store** (`GlobalStore`). An immutable `GlobalState` holds the
  dashboards and the OAuth settings. A total reducer handles six commands:
  ADD_DASHBOARD, UPDATE_DASHBOARD_TITLE, ADD_CONTAINER, REMOVE_CONTAINER,
  UPDATE_AUTH_SETTINGS and LOAD_STATE.
- **The file-loaded store** (`GlobalStoreProvider`). It holds
  `GlobalStoreData | null`, and its `prev => next` updaters merge patches at
  three depths: dashboard, container and component. A cached endpoint
  response (`dynamicData`) is replaced only by a truthy value.
- **The manager objects** (`ContainerManagement`, `DashboardInstances`,
  `Dashboards`). Each is a class whose methods change its fields in place.
  The two dashboard managers call every subscriber after each change. The
  model keeps these calls in a `notifications` log: one entry per call, in
  call order, with the subscriber and what it received.
- **The application shell's selection rule** (`AppView`). It decides which
  dashboard is shown, using the dashboard list and the id remembered in local
  storage.

Supporting modules:

- `Wrappers` holds Option and Result.
- `Js` models the `any`-typed JSON values and JavaScript's truthiness rule
  for `||`.
- `Seqs` holds `filter` and "map the matching elements".
- `Ids` holds the `"<kind>-<timestamp>"` identifiers.
- `Observers` holds subscriber lists and call logs.

Conventions:

- `Date.now()` becomes a `now: nat` parameter.
- Local storage becomes the `remembered: Option<string>` field.
- `Partial<T>` becomes a record of `Option` fields. `None` means the key is
  absent.
- An error thrown by JavaScript becomes the `Failure` branch of a `Result`.

Where the code and its written description disagree, the model follows the
code:

- REMOVE_CONTAINER and the managers' `removeContainer`, `remove` and
  `deleteEndpoint` remove every child with the id, not only the first.
- `DashboardInstanceManager.updateContainer` merges into every container with
  the id. `ContainerManager.updateEndpoint` merges only into the first match,
  because it uses `findIndex`.
- The file-loaded store's list `projectConfig.dashboards` may be missing.
  `addDashboard` treats a missing list as empty. `updateDashboard`,
  `updateContainer` and `updateComponent` call `.map` on it, so they throw a
  TypeError. This is modelled as `Failure(DashboardsMissing)`.

## Model

| member | source | states |
|---|---|---|
| GlobalStore.Reduce | src/renderer/src/components/globalStore/index.tsx:67-114 | Dashboard commands leave `authSettings` unchanged. UPDATE_AUTH_SETTINGS leaves `dashboards` unchanged. Every command except ADD_DASHBOARD and LOAD_STATE keeps the number of dashboards and each dashboard's id. |
| GlobalStore.AddDashboardAppends | src/renderer/src/components/globalStore/index.tsx:69-70 | ADD_DASHBOARD adds exactly one dashboard, at the end. Earlier dashboards keep their positions, and `authSettings` is unchanged. |
| GlobalStore.AddDashboardsInOrder | src/renderer/src/components/globalStore/index.tsx:69-70 | A run of ADD_DASHBOARD commands adds exactly those dashboards, in insertion order, and changes nothing else. |
| GlobalStore.UpdateTitleOnlyRetitles | src/renderer/src/components/globalStore/index.tsx:71-79 | Every matching dashboard gets the new title and keeps its id, layout and containers. Every other dashboard is identical. |
| GlobalStore.UpdateTitleUnknownIdIsNoop | src/renderer/src/components/globalStore/index.tsx:71-79 | An id that no dashboard has leaves the whole state equal to before. |
| GlobalStore.AddContainerAppends | src/renderer/src/components/globalStore/index.tsx:80-88 | Each matching dashboard's containers become the old list plus the new container. Non-matching dashboards are identical, and dashboard settings are unchanged. |
| GlobalStore.RemoveContainerDropsAll | src/renderer/src/components/globalStore/index.tsx:89-102 | In matching dashboards, the surviving containers are exactly the old containers with a different id, and no container with the id remains. Other dashboards are identical. |
| GlobalStore.WithoutContainerKeepsOrder | src/renderer/src/components/globalStore/index.tsx:96-98 | Container removal distributes over concatenation, so the survivors keep their relative order. |
| GlobalStore.AddThenRemoveContainerRoundTrip | src/renderer/src/components/globalStore/index.tsx:80-102 | If no matching dashboard holds a container with the new id, ADD_CONTAINER followed by REMOVE_CONTAINER of that id restores the original state. |
| GlobalStore.UpdateAuthSettingsMerges | src/renderer/src/components/globalStore/index.tsx:103-107 | Each auth field takes the patch's value when the patch has it, and keeps its old value otherwise. |
| GlobalStore.UpdateAuthSettingsIdempotent | src/renderer/src/components/globalStore/index.tsx:103-107 | Applying the same auth patch twice has the same effect as applying it once. |
| GlobalStore.LoadStateMerges | src/renderer/src/components/globalStore/index.tsx:108-110 | LOAD_STATE replaces each top-level field present in the payload and keeps the current value of each absent field. |
| GlobalStore.LoadSnapshotRoundTrip | src/renderer/src/components/globalStore/index.tsx:108-110 | Loading a complete snapshot gives exactly that snapshot, whatever the current state. |
| GlobalStore.LoadOldSnapshotTakesDefaults | src/renderer/src/components/globalStore/index.tsx:57-65 | Loading into the initial state a snapshot without `authSettings` keeps the snapshot's dashboards and the four default auth values. |
| GlobalStore.StartupScenario | src/renderer/src/components/globalStore/index.tsx:57-107 | From the empty initial state, adding dashboard "A" gives one dashboard titled "A". Adding and then removing container "c1" leaves its containers empty. Setting `clientId` to "X" changes only that field. |
| GlobalStoreProvider.MergeComponent | src/renderer/src/components/globalStore/GlobalStoreProvider.tsx:210-222 | The new `dynamicData` is the patch's value when that value is present and truthy. Otherwise the component keeps its old value. |
| GlobalStoreProvider.UpdateDashboardsIn | src/renderer/src/components/globalStore/GlobalStoreProvider.tsx:159-164 | The list keeps its length and order. Matching dashboards are merged with the patch, and the others are unchanged. |
| GlobalStoreProvider.UpdateContainersIn | src/renderer/src/components/globalStore/GlobalStoreProvider.tsx:181-186 | The container list keeps its length. Matching containers are merged with the patch, and the others are unchanged. |
| GlobalStoreProvider.UpdateContainerIn | src/renderer/src/components/globalStore/GlobalStoreProvider.tsx:179-190 | All lengths and dashboard settings are kept. A container changes only when both its id and its dashboard's id match. Non-matching dashboards are identical. |
| GlobalStoreProvider.UpdateComponentIn | src/renderer/src/components/globalStore/GlobalStoreProvider.tsx:206-230 | Dashboard, container and component counts are kept, and so are dashboard settings, container settings and container caches. A component is merged only when all three ids match. |
| GlobalStoreProvider.RewriteDashboards | src/renderer/src/components/globalStore/GlobalStoreProvider.tsx:156-170 | A null store stays null. A missing dashboard list is the only failure. Otherwise only the dashboard list changes; `appConfig` and `projectSettings` are unchanged. |
| GlobalStoreProvider.UpdateAppConfig | src/renderer/src/components/globalStore/GlobalStoreProvider.tsx:144-148 | A null store stays null. The result is null only when the store is null. `projectConfig` is identical, and `appConfig` is the shallow merge. |
| GlobalStoreProvider.UpdateProjectConfig | src/renderer/src/components/globalStore/GlobalStoreProvider.tsx:150-154 | A null store stays null. `appConfig` is identical, and `projectConfig` is the shallow merge. |
| GlobalStoreProvider.UpdateDashboard | src/renderer/src/components/globalStore/GlobalStoreProvider.tsx:156-170 | A null store stays null. The update fails exactly when the list is missing. Otherwise the settings are unchanged and the list is rewritten as described for UpdateDashboardsIn. |
| GlobalStoreProvider.UpdateContainer | src/renderer/src/components/globalStore/GlobalStoreProvider.tsx:172-196 | A null store stays null. The update fails exactly when the list is missing. Otherwise the settings are unchanged and the list is rewritten as described for UpdateContainerIn. |
| GlobalStoreProvider.UpdateComponent | src/renderer/src/components/globalStore/GlobalStoreProvider.tsx:198-236 | A null store stays null. The update fails exactly when the list is missing. Otherwise `appConfig` and `projectSettings` are unchanged and the list is rewritten as described for UpdateComponentIn. |
| GlobalStoreProvider.UpdateDynamicData | src/renderer/src/components/globalStore/GlobalStoreProvider.tsx:238-245 | Equals `updateComponent` with the patch `{ dynamicData }`. |
| GlobalStoreProvider.UpdateDynamicDataFalsyIsNoop | src/renderer/src/components/globalStore/GlobalStoreProvider.tsx:198-245 | A falsy value (0, "", false, null) leaves the store exactly as it was. A falsy response cannot replace a stale cache. |
| GlobalStoreProvider.UpdateDynamicDataTruthySets | src/renderer/src/components/globalStore/GlobalStoreProvider.tsx:210-222 | A truthy value becomes the cache of every component that matches all three ids. Every component definition is unchanged, and every other cache is unchanged. |
| GlobalStoreProvider.UpdateDashboardUnknownIdIsNoop | src/renderer/src/components/globalStore/GlobalStoreProvider.tsx:159-164 | An id that no dashboard has leaves the list unchanged. |
| GlobalStoreProvider.AddDashboard | src/renderer/src/components/globalStore/GlobalStoreProvider.tsx:247-259 | A null store stays null. Otherwise the new list is the old list, or an empty list when missing, with the dashboard appended. The settings are unchanged. |
| GlobalStoreProvider.AddDashboardToMissingList | src/renderer/src/components/globalStore/GlobalStoreProvider.tsx:247-259 | When the list is missing, `addDashboard` gives a list holding just the new dashboard, while `updateDashboard` fails. |
| ContainerManagement.NewComponent | src/renderer/src/components/container/ContainerManager.ts:23-31 | The id is `component-<now>` and the order is the old count plus 1. The URL, verb and type default to `/new-endpoint`, `GET` and `Text` when absent or empty. `pinned` is true only when the patch supplies true. `otherSettings` defaults to `{}` when absent or falsy. A supplied title is dropped. |
| ContainerManagement.FindComponent | src/renderer/src/components/container/ContainerManager.ts:37-39 | Returns -1 exactly when no component has the id. Otherwise it returns the index of the first component with the id. |
| ContainerManagement.WithoutComponent | src/renderer/src/components/container/ContainerManager.ts:50-52 | The result holds exactly the components with a different id, so no component with the id remains. |
| ContainerManagement.WithoutComponentKeepsOrder | src/renderer/src/components/container/ContainerManager.ts:49-53 | Deletion distributes over concatenation, so the survivors keep their relative order. |
| ContainerManagement.DeleteUndoesAdd | src/renderer/src/components/container/ContainerManager.ts:22-53 | If no older component has the new component's id, deleting that id right after `addEndpoint` restores the component list. |
| ContainerManagement.ContainerManager.constructor | src/renderer/src/components/container/ContainerManager.ts:7-9 | The manager holds the given container. |
| ContainerManagement.ContainerManager.ListComponents | src/renderer/src/components/container/ContainerManager.ts:12-14 | Returns the component definitions in stored order, one for each component. |
| ContainerManagement.ContainerManager.UpdateTitle | src/renderer/src/components/container/ContainerManager.ts:17-19 | Only `containerSettings.title` changes. The components are unchanged. |
| ContainerManagement.ContainerManager.AddEndpoint | src/renderer/src/components/container/ContainerManager.ts:22-33 | Adds one component and keeps the old components as a prefix. The last component is `NewComponent` for the old count. The settings are unchanged. |
| ContainerManagement.ContainerManager.UpdateEndpoint | src/renderer/src/components/container/ContainerManager.ts:36-46 | Only the first component with the id is merged, and the length is unchanged. An unknown id leaves the container unchanged. |
| ContainerManagement.ContainerManager.DeleteEndpoint | src/renderer/src/components/container/ContainerManager.ts:49-53 | The components become the list without that id. The settings are unchanged. |
| ContainerManagement.ContainerManager.ImportAPIDefinition | src/renderer/src/components/container/ContainerManager.ts:56-59 | Only `containerSettings.apiDefinition` changes. The components are unchanged. |
| DashboardInstances.WithoutContainer | src/renderer/src/components/dashboard/DashboardInstanceManager.ts:39-41 | The result holds exactly the containers with a different id. |
| DashboardInstances.WithoutContainerKeepsOrder | src/renderer/src/components/dashboard/DashboardInstanceManager.ts:38-43 | Removal distributes over concatenation, so the survivors keep their relative order. |
| DashboardInstances.DashboardInstanceManager.constructor | src/renderer/src/components/dashboard/DashboardInstanceManager.ts:5-10 | Holds the given dashboard, with no subscribers and no calls made yet. |
| DashboardInstances.DashboardInstanceManager.Subscribe | src/renderer/src/components/dashboard/DashboardInstanceManager.ts:13-15 | Appends the callback. The dashboard and the call log are unchanged. |
| DashboardInstances.DashboardInstanceManager.Unsubscribe | src/renderer/src/components/dashboard/DashboardInstanceManager.ts:17-19 | Removes every occurrence of the callback and keeps the others in order. |
| DashboardInstances.DashboardInstanceManager.Notify | src/renderer/src/components/dashboard/DashboardInstanceManager.ts:21-24 | Calls each subscriber exactly once, in subscription order, with the current dashboard. Nothing else changes. |
| DashboardInstances.DashboardInstanceManager.ListContainers | src/renderer/src/components/dashboard/DashboardInstanceManager.ts:27-29 | Returns the dashboard's current containers. |
| DashboardInstances.DashboardInstanceManager.AddContainer | src/renderer/src/components/dashboard/DashboardInstanceManager.ts:32-35 | Appends the container, then calls each subscriber once with the updated dashboard. |
| DashboardInstances.DashboardInstanceManager.RemoveContainer | src/renderer/src/components/dashboard/DashboardInstanceManager.ts:38-43 | Drops every container with the id, then calls each subscriber once, even when nothing was removed. |
| DashboardInstances.DashboardInstanceManager.UpdateContainer | src/renderer/src/components/dashboard/DashboardInstanceManager.ts:46-54 | Merges the patch into every container with the id. The length and the other containers are unchanged. Then it calls each subscriber once. |
| DashboardInstances.DashboardInstanceManager.UpdateTitle | src/renderer/src/components/dashboard/DashboardInstanceManager.ts:57-60 | Only `dashboardSettings.title` changes. Then it calls each subscriber once. |
| DashboardInstances.DashboardInstanceManager.GetDashboard | src/renderer/src/components/dashboard/DashboardInstanceManager.ts:63-65 | Returns the current dashboard. |
| Dashboards.WithoutDashboard | src/renderer/src/components/dashboard/DashboardManager.ts:37-40 | The result holds exactly the dashboards with a different id. |
| Dashboards.WithoutDashboardKeepsOrder | src/renderer/src/components/dashboard/DashboardManager.ts:37-40 | Removal distributes over concatenation, so the survivors keep their relative order. |
| Dashboards.FreshDashboard | src/renderer/src/components/dashboard/DashboardManager.ts:44-53 | The id is `dashboard-<now>`, the title is `Novo Dashboard`, the layout is `grid`, and there are no containers. |
| Dashboards.DashboardManager.constructor | src/renderer/src/components/dashboard/DashboardManager.ts:7-8 | Starts with no dashboards, no subscribers and no calls. |
| Dashboards.DashboardManager.GetList | src/renderer/src/components/dashboard/DashboardManager.ts:11-13 | Returns a sequence equal to the current list. |
| Dashboards.DashboardManager.Subscribe | src/renderer/src/components/dashboard/DashboardManager.ts:16-18 | Appends the callback. The list and the call log are unchanged. |
| Dashboards.DashboardManager.Unsubscribe | src/renderer/src/components/dashboard/DashboardManager.ts:20-22 | Removes every occurrence of the callback and keeps the others in order. |
| Dashboards.DashboardManager.Notify | src/renderer/src/components/dashboard/DashboardManager.ts:25-28 | Calls each subscriber exactly once, in subscription order, with a copy of the current list. |
| Dashboards.DashboardManager.Add | src/renderer/src/components/dashboard/DashboardManager.ts:31-34 | Appends the dashboard, then calls each subscriber once with the new list. |
| Dashboards.DashboardManager.Remove | src/renderer/src/components/dashboard/DashboardManager.ts:37-40 | Drops every dashboard with the id, then calls each subscriber, even when the id was absent. |
| Dashboards.DashboardManager.NewDashboard | src/renderer/src/components/dashboard/DashboardManager.ts:43-55 | Returns `FreshDashboard(now)`, which is appended and is the list's last element. Then each subscriber is called once. |
| Observers.Deliveries | src/renderer/src/components/dashboard/DashboardManager.ts:25-28 | One call for each subscriber, in subscription order, each with the same payload. |
| Observers.Without | src/renderer/src/components/dashboard/DashboardInstanceManager.ts:17-19 | The removed callback is absent. Every other subscriber stays. |
| Observers.WithoutKeepsOrder | src/renderer/src/components/dashboard/DashboardManager.ts:20-22 | Unsubscribing distributes over concatenation, so the remaining order is kept. |
| Observers.UnsubscribedIsNotNotified | src/renderer/src/components/dashboard/DashboardManager.ts:20-28 | After `unsubscribe`, a notification never reaches the removed callback, and it still reaches every other subscriber. |
| Ids.NatToString | src/renderer/src/components/container/ContainerManager.ts:24 | The decimal rendering is non-empty and all digits. It is one character long exactly for numbers below 10. |
| Ids.NatToStringInjective | src/renderer/src/components/container/ContainerManager.ts:24 | Different timestamps render differently. |
| Ids.TimestampIdsCollideIffSameTime | src/renderer/src/components/dashboard/DashboardManager.ts:44 | Two ids of one kind are equal exactly when their timestamps are equal. |
| AppView.SelectAfterChange | src/renderer/src/App.tsx:16-30 | An empty list gives selection `''` and clears the remembered id. A non-empty remembered id that names a dashboard is kept. Otherwise the first dashboard is selected and remembered. On a non-empty list the selection always names a dashboard and is the remembered id. |
| AppView.FindDashboard | src/renderer/src/App.tsx:63-64 | Finds a dashboard exactly when one has the id, and returns the first one with it. |
| AppView.NewDashboard | src/renderer/src/App.tsx:38-45 | The id is a non-empty `dashboard-<now>`, the title is `New Dashboard`, the layout is `grid`, and there are no containers. |
| AppView.App.constructor | src/renderer/src/App.tsx:10-13 | Starts from the store's state and the stored id, with selection `''`. |
| AppView.App.SelectionEffect | src/renderer/src/App.tsx:16-30 | The new selection and remembered id are `SelectAfterChange` of the list and the previously remembered id. The store is unchanged. |
| AppView.App.HandleSelectDashboard | src/renderer/src/App.tsx:32-35 | Sets both the selection and the remembered id to the given id. |
| AppView.App.HandleAddDashboard | src/renderer/src/App.tsx:37-53 | Dispatches ADD_DASHBOARD with the new dashboard, then selects and remembers its id. |
| AppView.App.CurrentDashboard | src/renderer/src/App.tsx:63-64 | Returns a dashboard exactly when one has the selected id. The result has that id and is in the list. |
| AppView.EffectShowsADashboard | src/renderer/src/App.tsx:16-64 | After the effect runs on a non-empty list, some dashboard is shown. |
| AppView.SelectionIsStable | src/renderer/src/App.tsx:16-30 | Running the effect again on the same list changes neither the selection nor the remembered id. |
| AppView.AddThenEffectKeepsNewDashboard | src/renderer/src/App.tsx:37-53 | After the add button's dispatch, the effect triggered by the longer list keeps the new dashboard selected and remembered. |

## Left out

- Persistence is left out because it is external I/O: loading the saved state
  on mount and saving after every change (`globalStore/index.tsx:127-142`).
  The model has LOAD_STATE and the snapshot round trip, but not the
  asynchronous calls. It also does not model the `initialized` flag, which
  keeps the store from saving before the first load attempt has finished.
- The `fetch('/project-config.json')` loader of the file-loaded store is left
  out for the same reason. Its updaters take the current store as an argument.
- The Electron main process is not part of this model: window lifecycle, the
  storage IPC handlers and the OAuth callback server. The preload bridge is not
  part of it either. These are process and network plumbing.
- React plumbing is left out because it is rendering and event wiring: context
  providers, the `useGlobalStore` hooks, `useDashboardInstance`,
  `useDashboardManager`, the dialogs, menus and viewers. `main.tsx` mounts one
  store while `App.tsx` reads the other. The two stores are modelled as
  independent state machines.
- The source's managers hold references to objects that may also belong to a
  store. An in-place edit is therefore visible through the store, and through
  any reference a subscriber kept. The model keeps each manager's dashboard or
  container as a value, so this aliasing is not modelled.
- Subscriber callbacks are arbitrary code. The model records each call and
  what it was passed, but not what the callback does. A callback that
  re-enters the manager while `forEach` is running is not modelled.
- The `DashboardManager` singleton (`DashboardManager.ts:59`) is modelled by
  its constructor. The model has no process-wide instance.
- Optional keys: a key that is present but holds `undefined` cannot be
  written. In the model a patch field is either absent (`None`) or carries a
  value.
- `updateComponent` spreads the whole patch into `componentDefinition`. When
  the patch carries `dynamicData`, the definition object also gains a stray
  `dynamicData` key. That extra key is not modelled.
- JSON numbers are integers in the model. Floating point, `NaN` and `-0` are
  not modelled, and in JavaScript the last two are also falsy.
- In the file-loaded store, only the top-level dashboard list may be missing.
  The source's types declare nested `containers` and `components` as
  required, and the model keeps them as always present.
- The reducer's `default` branch is left out. The `Action` type is closed, so
  only a command from untyped code could reach that branch.
- The component `type` is an enumeration. `type || 'Text'` therefore falls
  back only when the type is absent.
