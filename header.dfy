/** The top bar (`src/components/layout/Header.tsx`): the active and online
    counts, their loading placeholder and the connection badge. */
module Header {
  import opened Types
  import opened Seqs
  import opened Text
  import AgentsList
  import Sidebar

  /** `activeInterventions`: pending or in progress; positive exactly when
      one such intervention exists. */
  function ActiveCount(interventions: seq<Intervention>): (n: nat)
    ensures n <= |interventions|
    ensures n > 0 <==> exists x :: x in interventions && (x.status == Pending || x.status == InProgress)
  {
    var active := Filter(interventions, IsActive());
    assert active != [] ==> active[0] in interventions && IsActive()(active[0]);
    |active|
  }

  /** The header and the sidebar count the same interventions and the same
      agents. */
  lemma CountsMatchSidebar(interventions: seq<Intervention>, agents: seq<Agent>)
    ensures Sidebar.MenuItems(interventions, agents)[0].badge.value == ActiveCount(interventions)
    ensures Sidebar.MenuItems(interventions, agents)[1].badge.value == AgentsList.OnlineCount(agents)
    ensures ActiveCount(interventions) <= |interventions|
  {
    Sidebar.MapBadgeCountsActive(interventions, agents);
  }

  /** A count, or "..." while its list is loading: the placeholder appears
      exactly while loading; otherwise the count is shown in decimal and
      reads back as itself. */
  function CountText(loading: bool, count: nat): (r: string)
    ensures r == "..." <==> loading
    ensures !loading ==> (forall i :: 0 <= i < |r| ==> IsDigit(r[i])) && DigitsValue(r) == count
  {
    if loading then "..."
    else
      var t := NatToString(count);
      assert IsDigit(t[0]);
      NatToStringRoundTrip(count);
      t
  }

  /** The connection badge: "Connecté" exactly when connected. */
  function ConnectionLabel(connected: bool): (r: string)
    ensures r == "Connect\U{00E9}" <==> connected
  {
    if connected then "Connect\U{00E9}" else "D\U{00E9}connect\U{00E9}"
  }
}
