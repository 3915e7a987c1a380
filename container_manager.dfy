/**
 * The container manager: an object that owns one container of the reducer
 * store's shape and edits its settings and its list of endpoint components
 * in place.
 */
module ContainerManagement {
  import opened Wrappers
  import opened Js
  import opened GlobalStore
  import Seqs
  import Ids

  /** `Partial<ComponentDefinition>`. */
  datatype DefinitionPatch = DefinitionPatch(
    id: Option<string>,
    title: Option<string>,
    endpointUrl: Option<string>,
    verb: Option<string>,
    componentType: Option<ComponentType>,
    order: Option<int>,
    pinned: Option<bool>,
    otherSettings: Option<Json>)

  /** `{ ...definition, ...patch }`. */
  function MergeDefinition(c: ComponentDefinition, p: DefinitionPatch): ComponentDefinition {
    ComponentDefinition(
      p.id.GetOr(c.id),
      if p.title.Some? then p.title else c.title,
      p.endpointUrl.GetOr(c.endpointUrl),
      p.verb.GetOr(c.verb),
      p.componentType.GetOr(c.componentType),
      p.order.GetOr(c.order),
      p.pinned.GetOr(c.pinned),
      p.otherSettings.GetOr(c.otherSettings))
  }

  /**
   * The component `addEndpoint` builds from a partial definition, the clock
   * and the current number of components. The supplied id, title and order
   * are ignored; the URL, verb and type fall back to defaults when absent or
   * empty; `pinned` is true only when supplied as true; `otherSettings`
   * falls back to `{}` when absent or falsy.
   */
  function NewComponent(p: DefinitionPatch, now: nat, count: nat): (c: ComponentDefinition)
    ensures c.id == Ids.TimestampId("component-", now)
    ensures c.title.None?
    ensures c.order == count + 1
    ensures c.endpointUrl != "" && c.verb != ""
    ensures c.endpointUrl == if p.endpointUrl.Some? && p.endpointUrl.value != "" then p.endpointUrl.value else "/new-endpoint"
    ensures c.verb == if p.verb.Some? && p.verb.value != "" then p.verb.value else "GET"
    ensures c.componentType == if p.componentType.Some? then p.componentType.value else Text
    ensures c.pinned <==> p.pinned == Some(true)
    ensures c.otherSettings == if p.otherSettings.Some? && Truthy(p.otherSettings.value) then p.otherSettings.value else EmptyObject
  {
    ComponentDefinition(
      Ids.TimestampId("component-", now),
      None,
      StringOrElse(p.endpointUrl, "/new-endpoint"),
      StringOrElse(p.verb, "GET"),
      p.componentType.GetOr(Text),
      count + 1,
      p.pinned.GetOr(false),
      OrElse(p.otherSettings, EmptyObject))
  }

  /** `findIndex`: the position of the first component with the id, or -1 when there is none. */
  function FindComponent(components: seq<ComponentEntry>, componentId: string): (r: int)
    ensures -1 <= r < |components|
    ensures r == -1 <==> forall k :: 0 <= k < |components| ==> components[k].componentDefinition.id != componentId
    ensures r >= 0 ==> components[r].componentDefinition.id == componentId
    ensures r >= 0 ==> forall k :: 0 <= k < r ==> components[k].componentDefinition.id != componentId
  {
    if components == [] then -1
    else if components[0].componentDefinition.id == componentId then 0
    else
      var rest := FindComponent(components[1..], componentId);
      if rest == -1 then -1 else rest + 1
  }

  /** The components left after dropping every one whose id is `componentId`. */
  function WithoutComponent(components: seq<ComponentEntry>, componentId: string): (r: seq<ComponentEntry>)
    ensures forall k :: 0 <= k < |r| ==> r[k].componentDefinition.id != componentId
    ensures forall c :: c in r <==> c in components && c.componentDefinition.id != componentId
  {
    var r := Seqs.Filter(components, (c: ComponentEntry) => c.componentDefinition.id != componentId);
    assert forall k :: 0 <= k < |r| ==> r[k] in r;
    r
  }

  class ContainerManager {
    var container: ContainerData

    constructor (container: ContainerData)
      ensures this.container == container
    {
      this.container := container;
    }

    /** The component definitions, in stored order. */
    function ListComponents(): (defs: seq<ComponentDefinition>)
      reads this
      ensures |defs| == |container.components|
      ensures forall k :: 0 <= k < |defs| ==> defs[k] == container.components[k].componentDefinition
    {
      seq(|container.components|, k requires 0 <= k < |container.components| reads this =>
        container.components[k].componentDefinition)
    }

    /** Sets the container's title; the id, API definition and components stay. */
    method UpdateTitle(newTitle: string)
      modifies this
      ensures container.containerSettings == old(container.containerSettings).(title := newTitle)
      ensures container.components == old(container.components)
    {
      container := container.(containerSettings := container.containerSettings.(title := newTitle));
    }

    /** Appends a new component, numbered one past the current count. */
    method AddEndpoint(newComponentData: DefinitionPatch, now: nat)
      modifies this
      ensures container.containerSettings == old(container.containerSettings)
      ensures |container.components| == |old(container.components)| + 1
      ensures container.components[..|old(container.components)|] == old(container.components)
      ensures container.components[|old(container.components)|]
           == ComponentEntry(NewComponent(newComponentData, now, |old(container.components)|))
    {
      var component := NewComponent(newComponentData, now, |container.components|);
      container := container.(components := container.components + [ComponentEntry(component)]);
    }

    /** Merges the patch into the first component with the id; an unknown id changes nothing. */
    method UpdateEndpoint(componentId: string, newData: DefinitionPatch)
      modifies this
      ensures container.containerSettings == old(container.containerSettings)
      ensures |container.components| == |old(container.components)|
      ensures var index := FindComponent(old(container.components), componentId);
        forall k :: 0 <= k < |container.components| ==>
          container.components[k] ==
            if k == index then ComponentEntry(MergeDefinition(old(container.components)[k].componentDefinition, newData))
            else old(container.components)[k]
      ensures FindComponent(old(container.components), componentId) == -1 ==> container == old(container)
    {
      var index := FindComponent(container.components, componentId);
      if index != -1 {
        var merged := MergeDefinition(container.components[index].componentDefinition, newData);
        container := container.(components := container.components[index := ComponentEntry(merged)]);
      }
    }

    /** Drops every component with the id, keeping the others in order. */
    method DeleteEndpoint(componentId: string)
      modifies this
      ensures container.containerSettings == old(container.containerSettings)
      ensures container.components == WithoutComponent(old(container.components), componentId)
    {
      container := container.(components := WithoutComponent(container.components, componentId));
    }

    /** Replaces the container's API definition; the id, title and components stay. */
    method ImportAPIDefinition(apiDefinition: Json)
      modifies this
      ensures container.containerSettings == old(container.containerSettings).(apiDefinition := apiDefinition)
      ensures container.components == old(container.components)
    {
      container := container.(containerSettings := container.containerSettings.(apiDefinition := apiDefinition));
    }
  }

  /** Deleting keeps the relative order of the surviving components. */
  lemma WithoutComponentKeepsOrder(a: seq<ComponentEntry>, b: seq<ComponentEntry>, componentId: string)
    ensures WithoutComponent(a + b, componentId) == WithoutComponent(a, componentId) + WithoutComponent(b, componentId)
  {
    Seqs.FilterConcat(a, b, (c: ComponentEntry) => c.componentDefinition.id != componentId);
  }

  /** Deleting the component just added (when no older component shares its id) restores the list. */
  lemma DeleteUndoesAdd(components: seq<ComponentEntry>, p: DefinitionPatch, now: nat)
    requires forall k :: 0 <= k < |components| ==> components[k].componentDefinition.id != Ids.TimestampId("component-", now)
    ensures WithoutComponent(components + [ComponentEntry(NewComponent(p, now, |components|))], Ids.TimestampId("component-", now))
         == components
  {
    var id := Ids.TimestampId("component-", now);
    Seqs.FilterDropsRejectedLast(components, ComponentEntry(NewComponent(p, now, |components|)), (c: ComponentEntry) => c.componentDefinition.id != id);
    Seqs.FilterKeepsAll(components, (c: ComponentEntry) => c.componentDefinition.id != id);
  }
}
