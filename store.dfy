/** The global application store (`src/store/useAppStore.ts`): one mutable
    record and one action per field group. Every action overwrites the fields
    it names and leaves the others alone; the pure functions below give the
    record each action produces, and the class's methods are proved to produce
    exactly that record. */
module Store {
  import opened Wrappers
  import opened Types
  import Seqs

  datatype StatusFilter = AllStatuses | OnlyStatus(status: InterventionStatus)
  datatype PanelTab = DetailsTab | ChatTab

  datatype AppState = AppState(
    interventions: seq<Intervention>,
    selectedIntervention: Option<Intervention>,
    interventionFilter: StatusFilter,
    agents: seq<Agent>,
    sidebarCollapsed: bool,
    detailsPanelOpen: bool,
    detailsPanelTab: PanelTab,
    mapCenter: Coordinates,
    mapZoom: int,
    chatMessages: seq<Message>,
    websocketConnected: bool,
    loadingInterventions: bool,
    loadingAgents: bool,
    sendingMessage: bool)

  /** `initialState`: empty lists, nothing selected, the map on Douala. */
  const InitialState := AppState(
    [], None, AllStatuses, [],
    false, false, DetailsTab,
    Coordinates(4.0511, 9.7679), 12,
    [], false,
    false, false, false)

  /** A selected intervention implies an open details panel. Every action
      keeps this. */
  predicate SelectionShowsPanel(s: AppState)
  {
    s.selectedIntervention.Some? ==> s.detailsPanelOpen
  }

  /** `updateIntervention`: replace every intervention with the payload's id
      by the payload and refresh the selection when it has that id. */
  function InterventionUpdated(s: AppState, x: Intervention): (r: AppState)
    ensures |r.interventions| == |s.interventions|
    ensures forall i :: 0 <= i < |s.interventions| ==>
      r.interventions[i] == (if s.interventions[i].id == x.id then x else s.interventions[i])
    ensures s.selectedIntervention.Some? && s.selectedIntervention.value.id == x.id ==> r.selectedIntervention == Some(x)
    ensures !(s.selectedIntervention.Some? && s.selectedIntervention.value.id == x.id) ==> r.selectedIntervention == s.selectedIntervention
    ensures r == s.(interventions := r.interventions, selectedIntervention := r.selectedIntervention)
    ensures SelectionShowsPanel(s) ==> SelectionShowsPanel(r)
  {
    s.(interventions := Seqs.ReplaceById(s.interventions, x, InterventionKey),
       selectedIntervention :=
         if s.selectedIntervention.Some? && s.selectedIntervention.value.id == x.id
         then Some(x) else s.selectedIntervention)
  }

  /** `updateAgent`: replace every agent with the payload's id; nothing but
      `agents` changes. */
  function AgentUpdated(s: AppState, a: Agent): (r: AppState)
    ensures |r.agents| == |s.agents|
    ensures forall i :: 0 <= i < |s.agents| ==>
      r.agents[i] == (if s.agents[i].id == a.id then a else s.agents[i])
    ensures r == s.(agents := r.agents)
  {
    s.(agents := Seqs.ReplaceById(s.agents, a, AgentKey))
  }

  /** `addChatMessage`: append at the end, with no check for a message with
      the same id already present. */
  function ChatMessageAdded(s: AppState, m: Message): (r: AppState)
    ensures |r.chatMessages| == |s.chatMessages| + 1
    ensures r.chatMessages[..|s.chatMessages|] == s.chatMessages && r.chatMessages[|s.chatMessages|] == m
    ensures multiset(r.chatMessages)[m] == multiset(s.chatMessages)[m] + 1
    ensures r == s.(chatMessages := r.chatMessages)
  {
    s.(chatMessages := s.chatMessages + [m])
  }

  /** `setSelectedIntervention`: the panel opens exactly when something is
      selected, and always on the details tab. */
  function InterventionSelected(s: AppState, x: Option<Intervention>): (r: AppState)
    ensures r.selectedIntervention == x
    ensures r.detailsPanelOpen <==> x.Some?
    ensures r.detailsPanelTab == DetailsTab
    ensures r == s.(selectedIntervention := x, detailsPanelOpen := r.detailsPanelOpen, detailsPanelTab := DetailsTab)
    ensures SelectionShowsPanel(r)
  {
    s.(selectedIntervention := x, detailsPanelOpen := x.Some?, detailsPanelTab := DetailsTab)
  }

  /** `setDetailsPanelOpen`: closing the panel drops the selection, opening
      it keeps whatever was selected. */
  function DetailsPanelOpenSet(s: AppState, open: bool): (r: AppState)
    ensures r.detailsPanelOpen == open
    ensures !open ==> r.selectedIntervention.None?
    ensures open ==> r.selectedIntervention == s.selectedIntervention
    ensures r == s.(detailsPanelOpen := open, selectedIntervention := r.selectedIntervention)
    ensures SelectionShowsPanel(s) ==> SelectionShowsPanel(r)
  {
    s.(detailsPanelOpen := open, selectedIntervention := if open then s.selectedIntervention else None)
  }

  /** `toggleSidebar`. */
  function SidebarToggled(s: AppState): (r: AppState)
    ensures r.sidebarCollapsed != s.sidebarCollapsed
    ensures r == s.(sidebarCollapsed := r.sidebarCollapsed)
  {
    s.(sidebarCollapsed := !s.sidebarCollapsed)
  }

  /** Toggling twice restores the sidebar, and so the whole record. */
  lemma ToggleTwice(s: AppState)
    ensures SidebarToggled(SidebarToggled(s)) == s
  {
  }

  /** An update whose id matches no intervention changes nothing at all: the
      action is a replace, never an insert. */
  lemma UpdateInterventionAbsentId(s: AppState, x: Intervention)
    requires forall y :: y in s.interventions ==> y.id != x.id
    requires s.selectedIntervention.None? || s.selectedIntervention.value.id != x.id
    ensures InterventionUpdated(s, x) == s
  {
    Seqs.ReplaceAbsentIsIdentity(s.interventions, x, InterventionKey);
  }

  lemma UpdateAgentAbsentId(s: AppState, a: Agent)
    requires forall y :: y in s.agents ==> y.id != a.id
    ensures AgentUpdated(s, a) == s
  {
    Seqs.ReplaceAbsentIsIdentity(s.agents, a, AgentKey);
  }

  /** When the selection is the list's k-th element, it is still the list's
      k-th element after an update: the details panel follows live data. */
  lemma SelectionFollowsUpdate(s: AppState, x: Intervention, k: nat)
    requires k < |s.interventions| && s.selectedIntervention == Some(s.interventions[k])
    ensures InterventionUpdated(s, x).selectedIntervention == Some(InterventionUpdated(s, x).interventions[k])
  {
  }

  /** Applying the same update twice is the same as applying it once. */
  lemma UpdateInterventionIdempotent(s: AppState, x: Intervention)
    ensures InterventionUpdated(InterventionUpdated(s, x), x) == InterventionUpdated(s, x)
  {
    Seqs.ReplaceIdempotent(s.interventions, x, InterventionKey);
  }

  /** The same message delivered twice is stored twice. */
  lemma AddChatMessageKeepsDuplicates(s: AppState, m: Message)
    ensures multiset(ChatMessageAdded(ChatMessageAdded(s, m), m).chatMessages)[m] == multiset(s.chatMessages)[m] + 2
  {
  }

  class AppStore {
    var interventions: seq<Intervention>
    var selectedIntervention: Option<Intervention>
    var interventionFilter: StatusFilter
    var agents: seq<Agent>
    var sidebarCollapsed: bool
    var detailsPanelOpen: bool
    var detailsPanelTab: PanelTab
    var mapCenter: Coordinates
    var mapZoom: int
    var chatMessages: seq<Message>
    var websocketConnected: bool
    var loadingInterventions: bool
    var loadingAgents: bool
    var sendingMessage: bool

    /** The whole record, as `useAppStore.getState()` would return it. */
    function State(): AppState
      reads this
    {
      AppState(interventions, selectedIntervention, interventionFilter, agents,
               sidebarCollapsed, detailsPanelOpen, detailsPanelTab, mapCenter, mapZoom,
               chatMessages, websocketConnected, loadingInterventions, loadingAgents, sendingMessage)
    }

    constructor ()
      ensures State() == InitialState
    {
      interventions, selectedIntervention, interventionFilter, agents := [], None, AllStatuses, [];
      sidebarCollapsed, detailsPanelOpen, detailsPanelTab := false, false, DetailsTab;
      mapCenter, mapZoom, chatMessages, websocketConnected := Coordinates(4.0511, 9.7679), 12, [], false;
      loadingInterventions, loadingAgents, sendingMessage := false, false, false;
    }

    method SetInterventions(xs: seq<Intervention>)
      modifies this
      ensures State() == old(State()).(interventions := xs)
    {
      interventions := xs;
    }

    method UpdateIntervention(x: Intervention)
      modifies this
      ensures State() == InterventionUpdated(old(State()), x)
    {
      interventions := Seqs.ReplaceById(interventions, x, InterventionKey);
      if selectedIntervention.Some? && selectedIntervention.value.id == x.id {
        selectedIntervention := Some(x);
      }
    }

    method SetSelectedIntervention(x: Option<Intervention>)
      modifies this
      ensures State() == InterventionSelected(old(State()), x)
    {
      selectedIntervention, detailsPanelOpen, detailsPanelTab := x, x.Some?, DetailsTab;
    }

    method SetInterventionFilter(f: StatusFilter)
      modifies this
      ensures State() == old(State()).(interventionFilter := f)
    {
      interventionFilter := f;
    }

    method SetAgents(xs: seq<Agent>)
      modifies this
      ensures State() == old(State()).(agents := xs)
    {
      agents := xs;
    }

    method UpdateAgent(a: Agent)
      modifies this
      ensures State() == AgentUpdated(old(State()), a)
    {
      agents := Seqs.ReplaceById(agents, a, AgentKey);
    }

    method ToggleSidebar()
      modifies this
      ensures State() == SidebarToggled(old(State()))
    {
      sidebarCollapsed := !sidebarCollapsed;
    }

    method SetSidebarCollapsed(collapsed: bool)
      modifies this
      ensures State() == old(State()).(sidebarCollapsed := collapsed)
    {
      sidebarCollapsed := collapsed;
    }

    method SetDetailsPanelOpen(open: bool)
      modifies this
      ensures State() == DetailsPanelOpenSet(old(State()), open)
    {
      detailsPanelOpen := open;
      if !open {
        selectedIntervention := None;
      }
    }

    method SetDetailsPanelTab(tab: PanelTab)
      modifies this
      ensures State() == old(State()).(detailsPanelTab := tab)
    {
      detailsPanelTab := tab;
    }

    method SetMapCenter(center: Coordinates)
      modifies this
      ensures State() == old(State()).(mapCenter := center)
    {
      mapCenter := center;
    }

    method SetMapZoom(zoom: int)
      modifies this
      ensures State() == old(State()).(mapZoom := zoom)
    {
      mapZoom := zoom;
    }

    method SetChatMessages(ms: seq<Message>)
      modifies this
      ensures State() == old(State()).(chatMessages := ms)
    {
      chatMessages := ms;
    }

    method AddChatMessage(m: Message)
      modifies this
      ensures State() == ChatMessageAdded(old(State()), m)
    {
      chatMessages := chatMessages + [m];
    }

    method SetWebsocketConnected(connected: bool)
      modifies this
      ensures State() == old(State()).(websocketConnected := connected)
    {
      websocketConnected := connected;
    }

    method SetLoadingInterventions(loading: bool)
      modifies this
      ensures State() == old(State()).(loadingInterventions := loading)
    {
      loadingInterventions := loading;
    }

    method SetLoadingAgents(loading: bool)
      modifies this
      ensures State() == old(State()).(loadingAgents := loading)
    {
      loadingAgents := loading;
    }

    method SetSendingMessage(sending: bool)
      modifies this
      ensures State() == old(State()).(sendingMessage := sending)
    {
      sendingMessage := sending;
    }

    method ResetState()
      modifies this
      ensures State() == InitialState
    {
      SetInterventions([]);
      selectedIntervention := None;
      SetInterventionFilter(AllStatuses);
      SetAgents([]);
      SetSidebarCollapsed(false);
      SetDetailsPanelOpen(false);
      SetDetailsPanelTab(DetailsTab);
      SetMapCenter(InitialState.mapCenter);
      SetMapZoom(InitialState.mapZoom);
      SetChatMessages([]);
      SetWebsocketConnected(false);
      SetLoadingInterventions(false);
      SetLoadingAgents(false);
      SetSendingMessage(false);
    }
  }
}
