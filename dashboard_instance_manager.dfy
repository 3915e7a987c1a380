/**
 * The dashboard instance manager: an object that owns one dashboard of the
 * file-loaded store's shape, edits its containers and title in place, and
 * after every edit calls each subscriber with the updated dashboard.
 */
module DashboardInstances {
  import opened Observers
  import opened GlobalStoreProvider
  import Seqs

  /** The containers left after dropping every container whose id is `containerId`. */
  function WithoutContainer(containers: seq<ContainerData>, containerId: string): (r: seq<ContainerData>)
    ensures forall c :: c in r <==> c in containers && !IsContainer(c, containerId)
  {
    Seqs.Filter(containers, (c: ContainerData) => !IsContainer(c, containerId))
  }

  /** Removing containers keeps the relative order of the rest. */
  lemma WithoutContainerKeepsOrder(a: seq<ContainerData>, b: seq<ContainerData>, containerId: string)
    ensures WithoutContainer(a + b, containerId) == WithoutContainer(a, containerId) + WithoutContainer(b, containerId)
  {
    Seqs.FilterConcat(a, b, (c: ContainerData) => !IsContainer(c, containerId));
  }

  class DashboardInstanceManager {
    var dashboard: DashboardData
    var subscribers: seq<Subscriber>
    /** Every call made to a subscriber so far, oldest first. */
    var notifications: seq<Delivery<DashboardData>>

    constructor (dashboard: DashboardData)
      ensures this.dashboard == dashboard && subscribers == [] && notifications == []
    {
      this.dashboard := dashboard;
      subscribers := [];
      notifications := [];
    }

    method Subscribe(callback: Subscriber)
      modifies this
      ensures subscribers == old(subscribers) + [callback]
      ensures dashboard == old(dashboard) && notifications == old(notifications)
    {
      subscribers := subscribers + [callback];
    }

    /** Removes every occurrence of the callback, keeping the others in order. */
    method Unsubscribe(callback: Subscriber)
      modifies this
      ensures subscribers == Without(old(subscribers), callback)
      ensures dashboard == old(dashboard) && notifications == old(notifications)
    {
      subscribers := Without(subscribers, callback);
    }

    /** Calls each subscriber once, in subscription order, with the current dashboard. */
    method Notify()
      modifies this
      ensures dashboard == old(dashboard) && subscribers == old(subscribers)
      ensures notifications == old(notifications) + Deliveries(subscribers, dashboard)
    {
      var i := 0;
      while i < |subscribers|
        invariant 0 <= i <= |subscribers|
        invariant dashboard == old(dashboard) && subscribers == old(subscribers)
        invariant notifications == old(notifications) + Deliveries(subscribers[..i], dashboard)
      {
        assert subscribers[..i + 1][..i] == subscribers[..i];
        notifications := notifications + [Delivery(subscribers[i], dashboard)];
        i := i + 1;
      }
      assert subscribers[..i] == subscribers;
    }

    function ListContainers(): (containers: seq<ContainerData>)
      reads this
      ensures containers == dashboard.containers
    {
      dashboard.containers
    }

    /** Appends the container, then notifies. */
    method AddContainer(newContainer: ContainerData)
      modifies this
      ensures dashboard == old(dashboard).(containers := old(dashboard).containers + [newContainer])
      ensures subscribers == old(subscribers)
      ensures notifications == old(notifications) + Deliveries(subscribers, dashboard)
    {
      dashboard := dashboard.(containers := dashboard.containers + [newContainer]);
      Notify();
    }

    /** Drops every container with the id, then notifies, even when nothing was dropped. */
    method RemoveContainer(containerId: string)
      modifies this
      ensures dashboard == old(dashboard).(containers := WithoutContainer(old(dashboard).containers, containerId))
      ensures subscribers == old(subscribers)
      ensures notifications == old(notifications) + Deliveries(subscribers, dashboard)
    {
      dashboard := dashboard.(containers := WithoutContainer(dashboard.containers, containerId));
      Notify();
    }

    /** Merges the patch into every container with the id, then notifies. */
    method UpdateContainer(containerId: string, updatedData: ContainerPatch)
      modifies this
      ensures dashboard.dashboardSettings == old(dashboard).dashboardSettings
      ensures |dashboard.containers| == |old(dashboard).containers|
      ensures forall j :: 0 <= j < |dashboard.containers| ==>
        dashboard.containers[j] ==
          if IsContainer(old(dashboard).containers[j], containerId)
          then MergeContainer(old(dashboard).containers[j], updatedData)
          else old(dashboard).containers[j]
      ensures subscribers == old(subscribers)
      ensures notifications == old(notifications) + Deliveries(subscribers, dashboard)
    {
      dashboard := dashboard.(containers := UpdateContainersIn(dashboard.containers, containerId, updatedData));
      Notify();
    }

    /** Sets the title, then notifies; the id, layout and containers stay. */
    method UpdateTitle(newTitle: string)
      modifies this
      ensures dashboard == old(dashboard).(dashboardSettings := old(dashboard).dashboardSettings.(title := newTitle))
      ensures subscribers == old(subscribers)
      ensures notifications == old(notifications) + Deliveries(subscribers, dashboard)
    {
      dashboard := dashboard.(dashboardSettings := dashboard.dashboardSettings.(title := newTitle));
      Notify();
    }

    function GetDashboard(): (d: DashboardData)
      reads this
      ensures d == dashboard
    {
      dashboard
    }
  }
}
