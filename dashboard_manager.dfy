/**
 * The dashboard manager: the application-wide list of dashboards, created
 * empty once, with a subscriber list that receives a copy of the list after
 * every change.
 */
module Dashboards {
  import opened Observers
  import opened GlobalStoreProvider
  import Seqs
  import Ids

  /** The dashboards left after dropping every dashboard whose id is `dashboardId`. */
  function WithoutDashboard(dashboards: seq<DashboardData>, dashboardId: string): (r: seq<DashboardData>)
    ensures forall d :: d in r <==> d in dashboards && !IsDashboard(d, dashboardId)
  {
    Seqs.Filter(dashboards, (d: DashboardData) => !IsDashboard(d, dashboardId))
  }

  /** Removing dashboards keeps the relative order of the rest. */
  lemma WithoutDashboardKeepsOrder(a: seq<DashboardData>, b: seq<DashboardData>, dashboardId: string)
    ensures WithoutDashboard(a + b, dashboardId) == WithoutDashboard(a, dashboardId) + WithoutDashboard(b, dashboardId)
  {
    Seqs.FilterConcat(a, b, (d: DashboardData) => !IsDashboard(d, dashboardId));
  }

  /** The dashboard `newDashboard` creates at time `now`. */
  function FreshDashboard(now: nat): (d: DashboardData)
    ensures d.dashboardSettings.id == Ids.TimestampId("dashboard-", now)
    ensures d.dashboardSettings.title == "Novo Dashboard" && d.dashboardSettings.layout == "grid"
    ensures d.containers == []
  {
    DashboardData(DashboardSettings(Ids.TimestampId("dashboard-", now), "Novo Dashboard", "grid"), [])
  }

  class DashboardManager {
    var dashboards: seq<DashboardData>
    var subscribers: seq<Subscriber>
    /** Every call made to a subscriber so far, oldest first, with the list it received. */
    var notifications: seq<Delivery<seq<DashboardData>>>

    /** The single instance starts with no dashboards and no subscribers. */
    constructor ()
      ensures dashboards == [] && subscribers == [] && notifications == []
    {
      dashboards := [];
      subscribers := [];
      notifications := [];
    }

    /** A copy of the current list. */
    function GetList(): (list: seq<DashboardData>)
      reads this
      ensures list == dashboards
    {
      dashboards
    }

    method Subscribe(callback: Subscriber)
      modifies this
      ensures subscribers == old(subscribers) + [callback]
      ensures dashboards == old(dashboards) && notifications == old(notifications)
    {
      subscribers := subscribers + [callback];
    }

    /** Removes every occurrence of the callback, keeping the others in order. */
    method Unsubscribe(callback: Subscriber)
      modifies this
      ensures subscribers == Without(old(subscribers), callback)
      ensures dashboards == old(dashboards) && notifications == old(notifications)
    {
      subscribers := Without(subscribers, callback);
    }

    /** Calls each subscriber once, in subscription order, with a copy of the list. */
    method Notify()
      modifies this
      ensures dashboards == old(dashboards) && subscribers == old(subscribers)
      ensures notifications == old(notifications) + Deliveries(subscribers, dashboards)
    {
      var listCopy := GetList();
      var i := 0;
      while i < |subscribers|
        invariant 0 <= i <= |subscribers|
        invariant dashboards == old(dashboards) && subscribers == old(subscribers)
        invariant notifications == old(notifications) + Deliveries(subscribers[..i], listCopy)
      {
        assert subscribers[..i + 1][..i] == subscribers[..i];
        notifications := notifications + [Delivery(subscribers[i], listCopy)];
        i := i + 1;
      }
      assert subscribers[..i] == subscribers;
    }

    /** Appends the dashboard, then notifies. */
    method Add(newDashboard: DashboardData)
      modifies this
      ensures dashboards == old(dashboards) + [newDashboard]
      ensures subscribers == old(subscribers)
      ensures notifications == old(notifications) + Deliveries(subscribers, dashboards)
    {
      dashboards := dashboards + [newDashboard];
      Notify();
    }

    /** Drops every dashboard with the id, then notifies, even when nothing was dropped. */
    method Remove(dashboardId: string)
      modifies this
      ensures dashboards == WithoutDashboard(old(dashboards), dashboardId)
      ensures subscribers == old(subscribers)
      ensures notifications == old(notifications) + Deliveries(subscribers, dashboards)
    {
      dashboards := WithoutDashboard(dashboards, dashboardId);
      Notify();
    }

    /** Creates a dashboard stamped with `now`, appends it (notifying) and returns it. */
    method NewDashboard(now: nat) returns (created: DashboardData)
      modifies this
      ensures created == FreshDashboard(now)
      ensures dashboards == old(dashboards) + [created]
      ensures created == dashboards[|dashboards| - 1]
      ensures subscribers == old(subscribers)
      ensures notifications == old(notifications) + Deliveries(subscribers, dashboards)
    {
      created := FreshDashboard(now);
      Add(created);
    }
  }
}
