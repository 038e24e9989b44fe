/** The side navigation (`src/components/layout/Sidebar.tsx`): the menu with
    its count badges and the collapse rule after navigating. */
module Sidebar {
  import opened Wrappers
  import opened Types
  import opened Seqs
  import AgentsList
  import Store

  /** Widths below this are the mobile layout. */
  const DesktopWidth: int := 1024

  datatype MenuItem = MenuItem(caption: string, path: string, badge: Option<int>)

  /** `menuItems`: the map page carries the pending plus in-progress count,
      the agents page the online count, the other two no badge. */
  function MenuItems(interventions: seq<Intervention>, agents: seq<Agent>): (r: seq<MenuItem>)
    ensures |r| == 4
    ensures r[0].badge == Some(CountWithStatus(interventions, Pending) + CountWithStatus(interventions, InProgress))
    ensures r[1].badge == Some(AgentsList.OnlineCount(agents))
    ensures r[2].badge.None? && r[3].badge.None?
    ensures r[0].path == "/" && r[1].path == "/agents" && r[2].path == "/statistics" && r[3].path == "/settings"
  {
    [ MenuItem("Carte & Interventions", "/",
               Some(CountWithStatus(interventions, Pending) + CountWithStatus(interventions, InProgress))),
      MenuItem("Gestion Agents", "/agents", Some(AgentsList.OnlineCount(agents))),
      MenuItem("Statistiques", "/statistics", None),
      MenuItem("Param\U{00E8}tres", "/settings", None) ]
  }

  /** A badge is drawn only in the expanded sidebar, and only for a defined
      positive count. */
  predicate BadgeShown(item: MenuItem, collapsed: bool)
  {
    !collapsed && item.badge.Some? && item.badge.value > 0
  }

  /** The map badge counts the active interventions: pending and in
      progress never overlap. */
  lemma MapBadgeCountsActive(interventions: seq<Intervention>, agents: seq<Agent>)
    ensures MenuItems(interventions, agents)[0].badge == Some(|Filter(interventions, IsActive())|)
  {
    CountSplit(interventions, HasStatus(Pending), HasStatus(InProgress), IsActive());
  }

  /** The map badge shows exactly when something is pending or in progress,
      the agents badge exactly when someone is online; the last two never,
      and none in the collapsed sidebar. */
  lemma BadgesShownWhenNonZero(interventions: seq<Intervention>, agents: seq<Agent>)
    ensures var items := MenuItems(interventions, agents);
      && (BadgeShown(items[0], false) <==> exists x :: x in interventions && IsActive()(x))
      && (BadgeShown(items[1], false) <==> exists a :: a in agents && HasAgentStatus(Online)(a))
      && !BadgeShown(items[2], false) && !BadgeShown(items[3], false)
      && forall k :: 0 <= k < 4 ==> !BadgeShown(items[k], true)
  {
    MapBadgeCountsActive(interventions, agents);
    FilterNonEmptyIff(interventions, IsActive());
    FilterNonEmptyIff(agents, HasAgentStatus(Online));
  }

  /** `handleNavigation`: go to `path`; on a narrow window an expanded
      sidebar collapses. */
  method Navigate(store: Store.AppStore, path: string, windowWidth: int) returns (target: string)
    modifies store
    ensures target == path
    ensures windowWidth < DesktopWidth && !old(store.sidebarCollapsed) ==>
      store.State() == Store.SidebarToggled(old(store.State()))
    ensures !(windowWidth < DesktopWidth && !old(store.sidebarCollapsed)) ==>
      store.State() == old(store.State())
    ensures store.sidebarCollapsed == (old(store.sidebarCollapsed) || windowWidth < DesktopWidth)
  {
    target := path;
    if windowWidth < DesktopWidth && !store.sidebarCollapsed {
      store.ToggleSidebar();
    }
  }
}
