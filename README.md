# Intervention dashboard: store, live connection and view models

This project models the logic core of a React operations dashboard. Dispatchers
use the dashboard to follow field interventions and the agents assigned to
them. The model has three parts.

- **The global store** (`store.dfy`, module `Store`). This is one mutable
  record of interventions, agents, the selection, panel and sidebar flags, the
  map view, chat messages and the connection flag. The class
  `Store.AppStore` has one field per entry of the record and one method per
  action. Each method is proved to leave the record exactly as a pure
  transition function says (`InterventionUpdated`, `AgentUpdated`,
  `ChatMessageAdded`, `InterventionSelected`, `DetailsPanelOpenSet`,
  `SidebarToggled`, or a single-field update), so every other field is
  unchanged. The lemmas are about those functions.
- **The real-time connection** (`websocket.dfy`, module `Connection`). The
  class `Connection.ConnectionManager` holds the three refs of the hook: the
  current socket, the pending reconnect timer and the retry counter. Each
  browser event is a method: `Connect`, `OnOpen`, `OnMessage`, `OnError`,
  `OnClose`, `OnTimer`, `Disconnect`, `Send`, and `ChangeSubject` for the
  effect. Sockets are kept in a list and a handle is an index, so a socket
  that the hook has forgotten still exists and can still fire events. Pending
  timeouts are a map from handle to the intervention id the closure captured.
  Each method is proved against a pure transition over `ConnState`, and the
  retry bound and the reconnect-after-disconnect behaviour are lemmas.
- **The view models** (one module per component or page). These cover:
  - filtering, searching and ordering of interventions and agents;
  - status labels and colours;
  - status counts and the resolution rate;
  - map markers and icons;
  - sidebar and header badges;
  - "last seen" buckets and initials;
  - the local updates after save, assign and resolve;
  - the chat send procedure.

  Pure derivations are functions with lemmas. Handlers that change component
  state step by step are methods of small classes (`InterventionDetails.DetailsView`,
  `GoogleMaps.MapView`, `ChatPanel.ChatView`). An asynchronous handler is split
  at its `await`, and the REST outcome is passed in as a parameter.

Shared helpers:
- `Seqs` has the order-preserving filter, replace-by-id and an insertion sort
  proved sorted and a permutation.
- `Text` has ASCII case mapping, substring search, decimal rendering with a
  round-trip, trimming and initials.
- `Types` has the records of `src/types/index.ts`.

Timestamps are integers in milliseconds. Statuses are datatypes, and each has
its wire name. `localeCompare` is an abstract comparison `collate`; lemmas
about order require it to be a total preorder.

## Model

| member | source | states |
|---|---|---|
| Store.InterventionUpdated | src/store/useAppStore.ts:80-88 | same length; each element with the payload's id becomes the payload and every other element stays; the selection becomes the payload iff its id matches, otherwise it is unchanged (also when empty); no other field changes; selection-implies-open-panel is kept |
| Seqs.ReplaceById | src/store/useAppStore.ts:82-84 | the same length, and pointwise: an element with the key of the new value becomes it, every other element stays |
| Store.AgentUpdated | src/store/useAppStore.ts:104-109 | same length; agents with the payload's id are replaced, others kept; only `agents` changes |
| Store.ChatMessageAdded | src/store/useAppStore.ts:138-141 | exactly one more message; the old list is a prefix and the new message is last; its multiplicity grows by one; only `chatMessages` changes |
| Store.InterventionSelected | src/store/useAppStore.ts:90-95 | the selection is the argument; the panel is open iff something is selected; the tab is reset to details; nothing else changes |
| Store.DetailsPanelOpenSet | src/store/useAppStore.ts:118-122 | closing clears the selection and opening keeps it; nothing else changes |
| Store.SidebarToggled | src/store/useAppStore.ts:112-113 | the collapsed flag flips and nothing else changes |
| Store.ToggleTwice | src/store/useAppStore.ts:112-113 | toggling twice gives back the same record |
| Store.UpdateInterventionAbsentId | src/store/useAppStore.ts:82-87 | an update whose id matches no intervention and not the selection changes nothing: replace, not upsert |
| Store.UpdateAgentAbsentId | src/store/useAppStore.ts:106-108 | an agent update with an absent id changes nothing |
| Store.SelectionFollowsUpdate | src/store/useAppStore.ts:82-87 | a selection equal to the k-th element is still the k-th element after any update |
| Store.UpdateInterventionIdempotent | src/store/useAppStore.ts:80-88 | applying the same update twice equals applying it once |
| Store.AddChatMessageKeepsDuplicates | src/store/useAppStore.ts:138-141 | the same message added twice is stored twice (no de-duplication) |
| Store.AppStore.constructor | src/store/useAppStore.ts:43-75 | the store starts as `initialState` |
| Store.AppStore.SetInterventions | src/store/useAppStore.ts:77-78 | only `interventions` is overwritten |
| Store.AppStore.UpdateIntervention | src/store/useAppStore.ts:80-88 | the new record is `InterventionUpdated` of the old one |
| Store.AppStore.SetSelectedIntervention | src/store/useAppStore.ts:90-95 | the new record is `InterventionSelected` of the old one |
| Store.AppStore.SetInterventionFilter | src/store/useAppStore.ts:97-98 | only the filter is overwritten |
| Store.AppStore.SetAgents | src/store/useAppStore.ts:101-102 | only `agents` is overwritten |
| Store.AppStore.UpdateAgent | src/store/useAppStore.ts:104-109 | the new record is `AgentUpdated` of the old one |
| Store.AppStore.ToggleSidebar | src/store/useAppStore.ts:112-113 | the new record is `SidebarToggled` of the old one |
| Store.AppStore.SetSidebarCollapsed | src/store/useAppStore.ts:115-116 | only the collapsed flag is overwritten |
| Store.AppStore.SetDetailsPanelOpen | src/store/useAppStore.ts:118-122 | the new record is `DetailsPanelOpenSet` of the old one |
| Store.AppStore.SetDetailsPanelTab | src/store/useAppStore.ts:124-125 | only the tab is overwritten |
| Store.AppStore.SetMapCenter | src/store/useAppStore.ts:128-129 | only the map centre is overwritten |
| Store.AppStore.SetMapZoom | src/store/useAppStore.ts:131-132 | only the zoom is overwritten |
| Store.AppStore.SetChatMessages | src/store/useAppStore.ts:135-136 | only the messages are overwritten |
| Store.AppStore.AddChatMessage | src/store/useAppStore.ts:138-141 | the new record is `ChatMessageAdded` of the old one |
| Store.AppStore.SetWebsocketConnected | src/store/useAppStore.ts:143-144 | only the connection flag is overwritten |
| Store.AppStore.SetLoadingInterventions | src/store/useAppStore.ts:147-148 | only that loading flag is overwritten |
| Store.AppStore.SetLoadingAgents | src/store/useAppStore.ts:150-151 | only that loading flag is overwritten |
| Store.AppStore.SetSendingMessage | src/store/useAppStore.ts:153-154 | only the sending flag is overwritten |
| Store.AppStore.ResetState | src/store/useAppStore.ts:157-158 | the record is exactly `initialState` afterwards |
| Connection.Connected | src/hooks/useWebSocket.ts:25-32 | an undefined or 0 id, or a constructor that throws, changes no ref; otherwise a new connecting socket becomes current, the previous one is left as it is, and nothing else changes; validity is kept |
| Connection.Opened | src/hooks/useWebSocket.ts:34-38 | the socket is open and the counter is 0; validity is kept |
| Connection.CloseEvent | src/hooks/useWebSocket.ts:74-89 | whatever the close code: below 5 the counter goes up by one and exactly one timer for the socket's intervention is added, due 3000 ms later, and stored in the ref; at 5 only the socket changes; validity, including the bound, is kept |
| Connection.Disconnected | src/hooks/useWebSocket.ts:97-110 | the timer in the ref is cleared and no other timer; the current socket is closed with 1000 if it was connecting or open, and no other socket changes; both refs are dropped and the counter is 0 |
| Connection.CloseSocket | src/hooks/useWebSocket.ts:103-106 | the socket is neither connecting nor open afterwards; a connecting or open one records the code; a closing or closed one is unchanged |
| Connection.CanSend | src/hooks/useWebSocket.ts:113 | a frame can be written only when there is a current socket and it is open |
| Connection.TimerFired | src/hooks/useWebSocket.ts:83-85 | the timer leaves the pending set and the hook connects to the intervention the closure captured |
| Connection.Dispatch | src/hooks/useWebSocket.ts:40-66 | `new_message` appends once, `intervention_update` and `agent_update` run the store's replace-by-id, and an unknown type or unparseable frame changes nothing |
| Connection.AttemptsBounded | src/hooks/useWebSocket.ts:22-23 | the counter stays within [0, 5] after open, close and disconnect |
| Connection.CloseSchedulesOneTimer | src/hooks/useWebSocket.ts:78-88 | a close event adds exactly one pending timer below the bound and none at the bound |
| Connection.DisconnectIdempotent | src/hooks/useWebSocket.ts:97-110 | disconnecting twice is disconnecting once, so it is safe with no socket and no timer |
| Connection.CloseAfterDisconnectSchedulesRetry | src/hooks/useWebSocket.ts:74-85 | the close event of the socket that disconnect shut with 1000 schedules a fresh reconnect to the same intervention, with the counter at 1 |
| Connection.OverwrittenTimerSurvivesDisconnect | src/hooks/useWebSocket.ts:83-101 | two close events in a row overwrite the timer ref, so disconnect clears only the later timer and the earlier one still reconnects |
| Connection.ReconnectOrphansOpenSocket | src/hooks/useWebSocket.ts:32 | connecting over an open socket leaves it open and no longer current |
| Connection.ConnectionManager.constructor | src/hooks/useWebSocket.ts:11-13 | no socket, no timer, counter 0 |
| Connection.ConnectionManager.IsConnected | src/hooks/useWebSocket.ts:138 | true iff the current socket is open |
| Connection.ConnectionManager.Connect | src/hooks/useWebSocket.ts:25-94 | the refs become `Connected` of the old ones; the store flag is cleared only when the constructor throws |
| Connection.ConnectionManager.OnOpen | src/hooks/useWebSocket.ts:34-38 | the refs become `Opened`; the store flag is set and nothing else in the store changes |
| Connection.ConnectionManager.OnMessage | src/hooks/useWebSocket.ts:40-66 | the store becomes `Dispatch` of the frame |
| Connection.ConnectionManager.OnError | src/hooks/useWebSocket.ts:69-72 | only the store flag is cleared: no counter change and no retry |
| Connection.ConnectionManager.OnClose | src/hooks/useWebSocket.ts:74-89 | the refs become `CloseEvent` and the store flag is cleared |
| Connection.ConnectionManager.OnTimer | src/hooks/useWebSocket.ts:83-85 | the refs become `TimerFired` |
| Connection.ConnectionManager.Disconnect | src/hooks/useWebSocket.ts:97-110 | the refs become `Disconnected` and the store flag is cleared |
| Connection.ConnectionManager.Send | src/hooks/useWebSocket.ts:112-125 | on an open socket exactly one frame with the content and the time is written; otherwise an error and nothing is written |
| Connection.ConnectionManager.ChangeSubject | src/hooks/useWebSocket.ts:127-135 | a new id runs the cleanup and then connects only for a truthy id |
| InterventionsList.BadgesIdentifyStatus | src/components/dashboard/InterventionsList.tsx:49-68 | two statuses share a label, or a colour, iff they are equal |
| InterventionsList.StatusLabel | src/components/dashboard/InterventionsList.tsx:60-68 | a string is shown unchanged exactly when it is not one of the four wire statuses; each of those is translated |
| InterventionsList.ColorFamily | src/components/dashboard/InterventionsList.tsx:49-57 | the badge is grey exactly for a string outside the four wire statuses |
| InterventionsList.StatusColor | src/components/dashboard/InterventionsList.tsx:49-57 | the class string starts with `bg-` followed by the badge's colour family |
| InterventionsList.NewestFirstIsTotalPreorder | src/components/dashboard/InterventionsList.tsx:45 | the comparator is a total preorder |
| InterventionsList.Selected | src/components/dashboard/InterventionsList.tsx:28-43 | a record is kept iff it is in the store, passes the status tab and, for a non-empty term, matches the name, the description or the id; each kept record keeps its number of copies and a dropped one has none; the "all" tab with no term keeps the list as it is |
| InterventionsList.Visible | src/components/dashboard/InterventionsList.tsx:28-46 | the same membership and the same number of copies per record as `Selected`; with the "all" tab and no term it is a permutation of the store's list |
| InterventionsList.VisibleNewestFirst | src/components/dashboard/InterventionsList.tsx:45 | the shown list is ordered by creation time, newest first |
| InterventionsList.SearchByIdFindsRecord | src/components/dashboard/InterventionsList.tsx:37-42 | searching for a record's decimal id shows that record whenever the tab lets it through |
| InterventionsList.StoreAfterListing | src/components/dashboard/InterventionsList.tsx:29-45 | as written: the store is unchanged, or (with the "all" tab and no term) its list is replaced by the sorted one; always a permutation |
| InterventionsList.ListingReordersStore | src/components/dashboard/InterventionsList.tsx:29-45 | two records in creation order come back reversed in the store itself |
| InterventionsList.ListingWithFilterKeepsStore | src/components/dashboard/InterventionsList.tsx:32-43 | with a tab or a term the store is left alone |
| InterventionsList.RenderList | src/components/dashboard/InterventionsList.tsx:28-46 | the records shown are `Visible`, and the store afterwards is `StoreAfterListing` of the old one: the in-place sort written into the store's own list |
| AgentsList.AgentOrderIsTotalPreorder | src/components/dashboard/AgentsList.tsx:18-24 | the comparator is a total preorder when name collation is |
| AgentsList.AgentOrder | src/components/dashboard/AgentsList.tsx:18-24 | an online agent strictly precedes an offline one; two agents of the same status are ordered by name collation alone |
| AgentsList.SortedAgents | src/components/dashboard/AgentsList.tsx:17-25 | the result is a permutation of the agents, built from a copy |
| AgentsList.SortedAgentsOrder | src/components/dashboard/AgentsList.tsx:19-23 | every online agent precedes every offline one; agents of the same status are in name order |
| AgentsList.OnlinePlusOffline | src/components/dashboard/AgentsList.tsx:28-29 | the online and offline counts add up to the number of agents |
| AgentsList.OnlineCount | src/components/dashboard/AgentsList.tsx:28 | at most the number of agents, and positive iff some agent is online |
| AgentsList.LastSeenBucket | src/components/dashboard/AgentsList.tsx:34-44 | "just now" iff under a minute (also for a future time); minutes iff under an hour, hours iff under a day, days otherwise; each count is the floor of the elapsed time in its unit |
| AgentsList.LastSeenMonotone | src/components/dashboard/AgentsList.tsx:34-44 | an agent seen earlier is never shown as seen more recently |
| AgentsList.LastSeenTextCount | src/components/dashboard/AgentsList.tsx:40-43 | the text is "Il y a " + the count in decimal + the unit, and the digits read back as the count |
| AgentsList.LastSeenText | src/components/dashboard/AgentsList.tsx:34-44 | "À l'instant" for the first bucket; every other bucket reads "Il y a " followed by its count |
| AgentsManagement.SelectedAgents | src/pages/AgentsManagement.tsx:58-73 | an agent is kept iff it is in the store, passes the tab and, for a non-empty term, its name or email contains the term ignoring case or its phone contains it as typed; a kept agent keeps its number of copies |
| AgentsManagement.FilteredAgents | src/pages/AgentsManagement.tsx:58-81 | the same membership condition and the same number of copies per agent as `SelectedAgents`; every agent comes from the store |
| AgentsManagement.FilteredAgentsOrder | src/pages/AgentsManagement.tsx:62-80 | with a tab every agent has that status; online first, then by name |
| AgentsManagement.StoreAfterAgentListing | src/pages/AgentsManagement.tsx:59-80 | as written: with the "all" tab and no term the store's own agents are replaced by the sorted list; always a permutation |
| AgentsManagement.AgentListingReordersStore | src/pages/AgentsManagement.tsx:59-80 | an offline agent stored before an online one is moved behind it in the store |
| AgentsManagement.RenderAgents | src/pages/AgentsManagement.tsx:58-81 | the agents shown are `FilteredAgents`, and the store afterwards is `StoreAfterAgentListing` of the old one |
| AgentsManagement.TotalInterventionsBounds | src/pages/AgentsManagement.tsx:86 | the total is a sum over agents, a missing list counts 0, and no agent exceeds the total |
| Types.TotalAssignmentsAppend | src/pages/Statistics.tsx:66 | the assignment total of two lists is the sum of their totals |
| Types.TotalAssignments | src/pages/Statistics.tsx:66 | no lists means a total of 0; each agent's count is at most the total |
| Statistics.ResolutionRate | src/pages/Statistics.tsx:69-71 | 0 with no interventions, otherwise the integer nearest to 100·completed/total, halves rounded up |
| Statistics.ResolutionRateBounds | src/pages/Statistics.tsx:69-71 | the rate is in [0, 100]; it is 0 with nothing completed and 100 with everything completed |
| Statistics.ComputeMetrics | src/pages/Statistics.tsx:42-83 | each status count is the number of interventions with that status, and the four sum to the total; the totals are the list lengths; online agents are the online count, at most the agents; the rate is `ResolutionRate` and in [0, 100]; assignments are the sum of list lengths |
| Statistics.StatusCountsSum | src/pages/Statistics.tsx:48-53 | every intervention is counted in exactly one status |
| Statistics.StatusData | src/pages/Statistics.tsx:86-91 | four slices with the pending, in-progress, completed and cancelled counts in that order |
| Statistics.StatusDataCoversAll | src/pages/Statistics.tsx:86-91 | the slices add up to the number of interventions |
| InterventionDetails.AssignedAgents | src/components/dashboard/InterventionDetails.tsx:88 | the agents whose id is ticked, in store order and with their number of copies; ticked ids with no agent are dropped |
| InterventionDetails.WithAssignment | src/components/dashboard/InterventionDetails.tsx:89-92 | only the team changes, and it is the ticked agents in store order |
| InterventionDetails.Resolved | src/components/dashboard/InterventionDetails.tsx:118-122 | the status is completed and `updatedAt` is now; nothing else changes; resolve is no longer offered |
| InterventionDetails.Toggled | src/components/dashboard/InterventionDetails.tsx:286-291 | ticking appends without a duplicate check; unticking removes every occurrence of the id, keeps every other id with its number of copies, and keeps the order |
| InterventionDetails.TickTwiceUntickOnce | src/components/dashboard/InterventionDetails.tsx:286-291 | ticking twice lists an id twice, and one untick removes both |
| InterventionDetails.InitialSelection | src/components/dashboard/InterventionDetails.tsx:43-45 | the ids of the assigned agents in order, or none |
| InterventionDetails.ReassignSameTeam | src/components/dashboard/InterventionDetails.tsx:43-45 | confirming the initial selection keeps exactly the assigned agents still in the store |
| InterventionDetails.ActionsExclusive | src/components/dashboard/InterventionDetails.tsx:343-354 | save and resolve are never offered together; one of them is unless the intervention is completed |
| InterventionDetails.DetailsView.constructor | src/components/dashboard/InterventionDetails.tsx:35-46 | the mount of the card: nothing in progress; edit fields from the record; selection as `InitialSelection`; dialog closed. Later prop changes go through `Rerender`, not through a new card |
| InterventionDetails.DetailsView.Rerender | src/components/dashboard/DetailsPanel.tsx:66 | the prop becomes the new record and all eight card fields are kept: the card has no `key`, so a new selection or a refreshed record re-renders the same instance |
| InterventionDetails.DetailsView.ToggleEditing | src/components/dashboard/InterventionDetails.tsx:178 | the editing flag flips and the other seven fields are unchanged |
| InterventionDetails.DetailsView.EditDescription | src/components/dashboard/InterventionDetails.tsx:206 | only the edited description changes |
| InterventionDetails.DetailsView.EditLatitude | src/components/dashboard/InterventionDetails.tsx:233 | only the edited latitude changes |
| InterventionDetails.DetailsView.EditLongitude | src/components/dashboard/InterventionDetails.tsx:243 | only the edited longitude changes |
| InterventionDetails.DetailsView.SetAssignDialogOpen | src/components/dashboard/InterventionDetails.tsx:265-309 | only the dialog flag changes; the ticked ids survive closing and reopening |
| InterventionDetails.DetailsView.CheckAgent | src/components/dashboard/InterventionDetails.tsx:286-291 | the selection becomes `Toggled` of the old one and the other seven fields are unchanged |
| InterventionDetails.DetailsView.BeginSave | src/components/dashboard/InterventionDetails.tsx:49-57 | saving is on and nothing else in the card changes; the request carries the id and the edited fields |
| InterventionDetails.DetailsView.SaveSettled | src/components/dashboard/InterventionDetails.tsx:57-76 | on success the server's record replaces the stored one and editing ends; on failure the store and the editing flag are unchanged; saving is off on both paths; no other card field changes |
| InterventionDetails.DetailsView.BeginAssign | src/components/dashboard/InterventionDetails.tsx:79-86 | assigning is on and nothing else in the card changes; the ticked ids, the store's agents and the prop of that render are captured |
| InterventionDetails.DetailsView.AssignSettled | src/components/dashboard/InterventionDetails.tsx:86-111 | on success the captured record with the new team replaces the stored one and the dialog closes; on failure the store and the dialog are unchanged; assigning is off on both paths; the ticked ids and the other card fields are unchanged |
| InterventionDetails.DetailsView.Resolve | src/components/dashboard/InterventionDetails.tsx:114-137 | on success the record of the latest render, completed, replaces the stored one; on failure the store is unchanged |
| InterventionDetails.ResolveAfterSave | src/components/dashboard/InterventionDetails.tsx:57-60 | after a successful save and the re-render it causes, resolving completes the saved record, keeping the saved edits |
| InterventionDetails.SaveAfterSwitch | src/components/dashboard/InterventionDetails.tsx:34-57 | as written: an edit begun on intervention A survives a switch to B, and saving sends B's id with A's edited text and coordinates |
| InterventionDetails.SaveAfterKeyedSwitch | src/components/dashboard/InterventionDetails.tsx:34-57 | corrected: with a card per intervention, a save after the switch sends B's own description and coordinates |
| GoogleMaps.InterventionMarkers | src/components/map/GoogleMapsContainer.tsx:44-52 | one marker per intervention, in order, with the intervention's id |
| GoogleMaps.InterventionMarker | src/components/map/GoogleMapsContainer.tsx:44-52 | the marker has the intervention's id, position and wire status and carries the record |
| GoogleMaps.Located | src/components/map/GoogleMapsContainer.tsx:54 | an agent is located when both coordinates are present and non-zero (the truthiness test) |
| GoogleMaps.AgentMarkers | src/components/map/GoogleMapsContainer.tsx:53-63 | one marker per located agent, with id agent id + 10000 |
| GoogleMaps.AgentMarker | src/components/map/GoogleMapsContainer.tsx:53-63 | the marker has the agent's id + 10000, its position and wire status, and carries the agent |
| GoogleMaps.Markers | src/components/map/GoogleMapsContainer.tsx:43-65 | interventions first, in list order; then one marker per located agent, in store order; the count is interventions + located agents, at most interventions + agents |
| GoogleMaps.AgentHasMarkerIffLocated | src/components/map/GoogleMapsContainer.tsx:54 | an agent has a marker iff both coordinates are present and non-zero |
| GoogleMaps.MarkerIdsDisjoint | src/components/map/GoogleMapsContainer.tsx:45-56 | with intervention ids below 10000 and agent ids non-negative, no agent marker has an intervention marker's id |
| GoogleMaps.MarkerIdsCanCollide | src/components/map/GoogleMapsContainer.tsx:45-56 | intervention 10001 and agent 1 get the same marker id |
| GoogleMaps.MarkerIcon | src/components/map/GoogleMapsContainer.tsx:68-90 | intervention icons are 32 px and agent icons 24 px |
| GoogleMaps.IconsDistinguishStatus | src/components/map/GoogleMapsContainer.tsx:71-89 | two interventions get the same icon iff they have the same status, never the yellow fallback; an agent gets the green pin iff online |
| GoogleMaps.MapView.constructor | src/components/map/GoogleMapsContainer.tsx:29 | no info window is open |
| GoogleMaps.MapView.MarkerClick | src/components/map/GoogleMapsContainer.tsx:121-126 | an intervention marker selects its record; an agent marker leaves the store alone; the clicked marker's window opens |
| GoogleMaps.MapView.MarkerDragEnd | src/components/map/GoogleMapsContainer.tsx:93-118 | an agent marker or a missing position does nothing; otherwise the position is sent and a successful response replaces the stored record |
| Sidebar.MenuItems | src/components/layout/Sidebar.tsx:26-53 | the map badge is pending + in progress, the agents badge the online count, the other two have none |
| Sidebar.MapBadgeCountsActive | src/components/layout/Sidebar.tsx:26-35 | the map badge is the number of active interventions |
| Sidebar.BadgesShownWhenNonZero | src/components/layout/Sidebar.tsx:117-127 | a badge is shown iff the sidebar is expanded and its count is defined and positive |
| Sidebar.BadgeShown | src/components/layout/Sidebar.tsx:117-127 | a badge is drawn only in the expanded sidebar and only for a defined positive count |
| Sidebar.Navigate | src/components/layout/Sidebar.tsx:55-61 | navigates to the path; the sidebar is toggled only when the window is under 1024 px and the sidebar is expanded |
| Header.CountsMatchSidebar | src/components/layout/Header.tsx:22-26 | the active count equals the sidebar's map badge and the online count its agents badge |
| Header.ActiveCount | src/components/layout/Header.tsx:22-24 | at most the number of interventions, and positive iff one is pending or in progress |
| Header.CountText | src/components/layout/Header.tsx:65-76 | "..." iff loading; otherwise the count in decimal |
| Header.ConnectionLabel | src/components/layout/Header.tsx:85-99 | "Connecté" iff connected |
| Text.Lower | src/components/dashboard/InterventionsList.tsx:39-40 | the same length, with each character lower-cased |
| Text.NatToStringRoundTrip | src/components/dashboard/InterventionsList.tsx:41 | the decimal rendering of a number reads back as that number |
| Text.IntToString | src/components/dashboard/InterventionsList.tsx:41 | never empty; digits only for a non-negative number, a minus sign and then digits for a negative one |
| Text.TrimEmptyIff | src/components/dashboard/ChatPanel.tsx:67 | the trimmed input is empty iff every character is white space |
| Text.TrimIdempotent | src/components/dashboard/ChatPanel.tsx:69 | trimming twice is trimming once |
| Text.Trim | src/components/dashboard/ChatPanel.tsx:67 | the result is one block of the input, everything around it is JavaScript white space, and it neither starts nor ends with white space |
| Text.Initials | src/components/dashboard/AgentsList.tsx:47-49 | the initials are the upper-cased first characters of the space-separated words (checked against an independent character-by-character reading), and contain no space |
| Text.InitialsOfOneWord | src/pages/AgentsManagement.tsx:89-91 | a name without a space gives its first character upper-cased |
| ChatPanel.InputAfterSend | src/components/dashboard/ChatPanel.tsx:67-101 | blank input is kept; success clears the input; failure puts back the trimmed text |
| ChatPanel.RetrySendsSameContent | src/components/dashboard/ChatPanel.tsx:93-101 | after a failure, sending again sends the same content |
| ChatPanel.SenderInitials | src/components/dashboard/ChatPanel.tsx:116-119 | "U" for a missing or empty name, otherwise the upper-cased word starts |
| ChatPanel.ChatView.constructor | src/components/dashboard/ChatPanel.tsx:23 | the input starts empty |
| ChatPanel.ChatView.Rerender | src/components/dashboard/ChatPanel.tsx:23-35 | the typed text is kept; a changed intervention id runs the hook's cleanup and connects to the new id, and an unchanged one touches nothing |
| ChatPanel.TriggersSend | src/components/dashboard/ChatPanel.tsx:108-113 | Enter without Shift, and nothing else, sends |
| ChatPanel.ChatView.BeginSend | src/components/dashboard/ChatPanel.tsx:66-73 | blank input changes nothing; otherwise the trimmed text is taken, the input cleared and the store marked as sending |
| ChatPanel.ChatView.SendSettled | src/components/dashboard/ChatPanel.tsx:76-104 | a frame goes out only after REST success, only if connected and only on an open socket; a socket error is swallowed and the result is still success; REST failure restores the content; sending is off on every path |
| ChatPanel.ChatView.SendMessage | src/components/dashboard/ChatPanel.tsx:66-105 | the input ends as `InputAfterSend`; for blank input nothing changes in the store or on the socket; otherwise the store differs only in the sending flag, which ends false, and exactly one frame with the trimmed text goes out iff REST succeeded, the hook reported a connection and the socket is open |
| ChatPanel.ChatView.KeyPress | src/components/dashboard/ChatPanel.tsx:108-113 | Enter without Shift has exactly the effects of `SendMessage` on the input, the store and the socket; any other key changes nothing |

The details card labels and colours statuses with the same switches as the
list (src/components/dashboard/InterventionDetails.tsx:140-159), so
`InterventionsList.StatusLabel` and `InterventionsList.StatusColor` model
both. The agents page uses the same "last seen" rule and the same initials as
the agent list (src/pages/AgentsManagement.tsx:89-103), so `AgentsList` and
`Text` model both.

## Left out

- Text.Lower, Text.Upper: case mapping covers ASCII letters only. JavaScript's `toLowerCase` and `toUpperCase` also fold other letters.
- AgentsList.AgentOrder: `localeCompare` is an abstract comparison `collate`. Lemmas about order assume only that it is a total preorder.
- Statistics.ResolutionRate: the rate is computed exactly, with halves rounded up. The source rounds a floating-point quotient, which can differ at an exact half (29 completed out of 200 gives 15 here, 14 in double precision).
- Dates are integer milliseconds. Parsing ISO strings, invalid dates (NaN), `toLocale…` formatting and the this-week/this-month counts of the statistics page are not modelled. The frame timestamp is the same integer.
- Coordinates are reals. The edited latitude and longitude are kept as numbers: `parseFloat` of the typed text, and a text that does not parse (NaN), are not modelled.
- Store.AppStore.SetMapZoom: the zoom is an unbounded integer. The source's JavaScript number could also be fractional or NaN.
- Text.Initials: a string is a sequence of code points. JavaScript's `n[0]` takes one UTF-16 code unit, so a word that starts outside the Basic Multilingual Plane gives half a surrogate pair there and a whole character here.
- Frames arrive already classified by their `type` tag. The payload is taken as given, as the source's `as` casts do, and `JSON.parse`/`JSON.stringify` are not modelled.
- Sockets, timers and the clock are events and parameters. Delivery order is the environment's choice, and a timer can fire at any time, not only at its due time.
- `isConnected` is read once per render. The chat handler receives the value it saw (`wasConnected`) as a parameter.
- The REST calls (`src/services/api.ts`) are success or failure outcomes passed in. Also out of scope:
  - the agents page's load effect (src/pages/AgentsManagement.tsx:36-56);
  - `loadChatHistory` (src/components/dashboard/ChatPanel.tsx:38-53);
  - the dashboard's polling.
- Toasts, console output, scrolling, rendering and animation are not modelled.
- The Google Maps SDK is not modelled: `fitBounds`, `google.maps.Size` and the icon base URL. An icon is its file name and its size.
- The `default` branches of the status switches are reachable only for strings, so `StatusLabel` and `StatusColor` take the wire string. The datatypes themselves have exactly the four and two values of `src/types/index.ts`.
- InterventionDetails.DetailsView, ChatPanel.ChatView: whether a tab that is not shown keeps its component mounted depends on the tabs component (`src/components/ui/tabs`), which is not part of this model. A mount is the constructor; a re-render of a mounted card is `Rerender`.
- The settings page, the dashboard page, the details panel and the layout hold no logic of this core and are not part of this model.

## Findings

| source | as written | input that shows it | evidently intended | confidence | as-written member | corrected member |
|---|---|---|---|---|---|---|
| src/components/dashboard/InterventionsList.tsx:29-45 | with the "all" tab and no search term, `filtered` is the store's own array and `sort` reorders it in place | "all" tab, empty term, store holding an older then a newer intervention: the store itself becomes newer, older | sort a copy, as `AgentsList` does, and leave the store's order alone | not executed | InterventionsList.ListingReordersStore | InterventionsList.VisibleNewestFirst |
| src/pages/AgentsManagement.tsx:59-80 | with the "all" tab and no search term, the in-place `sort` reorders the store's `agents` array | "all" tab, empty term, store holding an offline then an online agent: the store becomes online, offline | sort a copy and leave the store alone | not executed | AgentsManagement.AgentListingReordersStore | AgentsManagement.FilteredAgentsOrder |
| src/components/dashboard/DetailsPanel.tsx:66 | the details card is rendered without a `key`, so selecting another intervention keeps the card's `useState` values | open A, start editing and type a new description, select B (the details tab stays active), press save | each intervention gets its own card (`key={selectedIntervention.id}`), so the edit fields start from B | not executed | InterventionDetails.SaveAfterSwitch | InterventionDetails.SaveAfterKeyedSwitch |

In the first two cases, the rest of the model uses the corrected view:
`InterventionsList.Visible` and `AgentsManagement.FilteredAgents` are computed
values, and the store is never changed by them.
`InterventionsList.StoreAfterListing` and
`AgentsManagement.StoreAfterAgentListing` record the in-place effect as
written.

In the third case, `InterventionDetails.DetailsView.Rerender` keeps the card
as the source does, and a fresh card from the constructor is what a keyed
card would give. The two scenario methods compare the two on the same
inputs. `Rerender` covers the case where the card stays mounted while the
details tab is shown.
