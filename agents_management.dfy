/** The agents page (`src/pages/AgentsManagement.tsx`): status tab, search,
    ordering and the page totals. The order, the counts, the "last seen"
    buckets and the initials are those of `AgentsList` and `Text`. */
module AgentsManagement {
  import opened Types
  import opened Seqs
  import opened Text
  import opened AgentsList
  import Store

  /** `statusFilter`: `'all' | 'online' | 'offline'`. */
  datatype AgentFilter = AllAgents | OnlyAgents(status: AgentStatus)

  function PassesAgentFilter(f: AgentFilter): Agent -> bool
  {
    (a: Agent) => f.AllAgents? || a.status == f.status
  }

  /** Name or email contains the term ignoring ASCII case, or the phone
      number contains it as typed. */
  predicate MatchesAgentSearch(a: Agent, term: string)
  {
    || Includes(Lower(a.name), Lower(term))
    || Includes(Lower(a.email), Lower(term))
    || Includes(a.phone, term)
  }

  function SearchingAgents(term: string): Agent -> bool
  {
    (a: Agent) => MatchesAgentSearch(a, term)
  }

  /** The agents the tab and the search term let through, before ordering. */
  function SelectedAgents(xs: seq<Agent>, f: AgentFilter, term: string): (r: seq<Agent>)
    ensures forall a :: a in r <==> a in xs && PassesAgentFilter(f)(a) && (term == [] || MatchesAgentSearch(a, term))
    ensures multiset(r) <= multiset(xs)
    ensures forall a :: multiset(r)[a] == if PassesAgentFilter(f)(a) && (term == [] || MatchesAgentSearch(a, term)) then multiset(xs)[a] else 0
    ensures f.AllAgents? && term == [] ==> r == xs
  {
    var byStatus := if f.AllAgents? then xs else Filter(xs, PassesAgentFilter(f));
    FilterMultiset(xs, PassesAgentFilter(f));
    FilterMultiset(byStatus, SearchingAgents(term));
    FilterMultiplicity(xs, PassesAgentFilter(f));
    FilterMultiplicity(byStatus, SearchingAgents(term));
    if term == [] then byStatus else Filter(byStatus, SearchingAgents(term))
  }

  /** `filteredAgents`: the selected agents, online first, then by name. */
  function FilteredAgents(xs: seq<Agent>, f: AgentFilter, term: string, collate: (string, string) -> bool): (r: seq<Agent>)
    ensures forall a :: a in r <==> a in xs && PassesAgentFilter(f)(a) && (term == [] || MatchesAgentSearch(a, term))
    ensures multiset(r) <= multiset(xs)
    ensures forall a :: multiset(r)[a] == if PassesAgentFilter(f)(a) && (term == [] || MatchesAgentSearch(a, term)) then multiset(xs)[a] else 0
  {
    var sel := SelectedAgents(xs, f, term);
    assert forall a :: a in SortedAgents(sel, collate) <==> a in multiset(sel);
    SortedAgents(sel, collate)
  }

  /** With a status tab, every agent shown has that status; the list is
      online first and in name order within a status. */
  lemma FilteredAgentsOrder(xs: seq<Agent>, f: AgentFilter, term: string, collate: (string, string) -> bool)
    requires TotalPreorder(collate)
    ensures var r := FilteredAgents(xs, f, term, collate);
      && (f.OnlyAgents? ==> forall k :: 0 <= k < |r| ==> r[k].status == f.status)
      && (forall i, j :: 0 <= i < j < |r| ==> !(r[i].status == Offline && r[j].status == Online))
      && (forall i, j :: 0 <= i < j < |r| && r[i].status == r[j].status ==> collate(r[i].name, r[j].name))
  {
    var r := FilteredAgents(xs, f, term, collate);
    SortedAgentsOrder(SelectedAgents(xs, f, term), collate);
    if f.OnlyAgents? {
      forall k | 0 <= k < |r| ensures r[k].status == f.status {
        assert r[k] in r;
      }
    }
  }

  /** The store as the page leaves it after computing the list: with the
      "all" tab and no term the array sorted in place is the store's own. */
  function StoreAfterAgentListing(s: Store.AppState, f: AgentFilter, term: string, collate: (string, string) -> bool): (r: Store.AppState)
    ensures r == s || (f.AllAgents? && term == [] && r == s.(agents := FilteredAgents(s.agents, f, term, collate)))
    ensures multiset(r.agents) == multiset(s.agents)
  {
    if f.AllAgents? && term == [] then s.(agents := FilteredAgents(s.agents, f, term, collate)) else s
  }

  /** A render of the page: the agents shown, and the write the in-place
      `sort` makes to the store's own array under the "all" tab with no
      search term. */
  method RenderAgents(store: Store.AppStore, f: AgentFilter, term: string, collate: (string, string) -> bool)
    returns (shown: seq<Agent>)
    modifies store
    ensures shown == FilteredAgents(old(store.agents), f, term, collate)
    ensures store.State() == StoreAfterAgentListing(old(store.State()), f, term, collate)
  {
    shown := FilteredAgents(store.agents, f, term, collate);
    if f.AllAgents? && term == [] {
      store.agents := shown;
    }
  }

  /** An offline agent listed before an online one is moved behind it in the
      store itself, whatever the names. */
  lemma AgentListingReordersStore(off: Agent, on: Agent, collate: (string, string) -> bool)
    requires off.status == Offline && on.status == Online
    ensures var s := Store.InitialState.(agents := [off, on]);
      StoreAfterAgentListing(s, AllAgents, "", collate).agents == [on, off] != s.agents
  {
    var leq := AgentOrder(collate);
    var xs := [off, on];
    assert SelectedAgents(xs, AllAgents, "") == xs;
    assert xs[1..] == [on] && [on][1..] == [];
    assert Sort([on], leq) == [on];
    assert !leq(off, on);
    assert Insert(off, [on], leq) == [on, off];
    assert Sort(xs, leq) == [on, off];
  }

  /** `totalInterventions`: a missing list counts 0, and no agent has more
      assignments than the total. */
  lemma TotalInterventionsBounds(agents: seq<Agent>, more: Agent)
    ensures TotalAssignments(agents + [more]) == TotalAssignments(agents) + AssignmentCount(more)
    ensures more.assignedInterventions.None? ==> TotalAssignments(agents + [more]) == TotalAssignments(agents)
    ensures forall k :: 0 <= k < |agents| ==> AssignmentCount(agents[k]) <= TotalAssignments(agents)
  {
    TotalAssignmentsAppend(agents, [more]);
    assert [more][..0] == [];
  }
}
