/** The details card of one intervention
    (`src/components/dashboard/InterventionDetails.tsx`): editing, team
    assignment, resolution and the checkbox selection. The REST calls are
    outcomes passed in; each asynchronous handler is split into the part
    before its `await` and the part after it settles. */
module InterventionDetails {
  import opened Wrappers
  import opened Types
  import opened Seqs
  import Store

  /** The agents whose id is ticked, in the store's order; ticked ids with no
      agent are dropped. */
  function InSelection(ids: seq<int>): Agent -> bool
  {
    (a: Agent) => a.id in ids
  }

  function AssignedAgents(agents: seq<Agent>, ids: seq<int>): (r: seq<Agent>)
    ensures forall a :: a in r <==> a in agents && a.id in ids
    ensures forall a :: multiset(r)[a] == if a.id in ids then multiset(agents)[a] else 0
    ensures IsSubsequence(r, agents)
  {
    FilterIsSubsequence(agents, InSelection(ids));
    FilterMultiplicity(agents, InSelection(ids));
    Filter(agents, InSelection(ids))
  }

  /** `{ ...intervention, assignedAgents }`: only the team changes. */
  function WithAssignment(x: Intervention, agents: seq<Agent>, ids: seq<int>): (r: Intervention)
    ensures r.assignedAgents.Some? && IsSubsequence(r.assignedAgents.value, agents)
    ensures forall a :: a in r.assignedAgents.value <==> a in agents && a.id in ids
    ensures r == x.(assignedAgents := r.assignedAgents)
  {
    x.(assignedAgents := Some(AssignedAgents(agents, ids)))
  }

  /** `{ ...intervention, status: 'completed', updatedAt: now }`. */
  function Resolved(x: Intervention, now: int): (r: Intervention)
    ensures r.status == Completed && r.updatedAt == now
    ensures r == x.(status := r.status, updatedAt := r.updatedAt)
    ensures !ResolveOffered(r.status, false)
  {
    x.(status := Completed, updatedAt := now)
  }

  /** The checkbox of agent `id` changes to `checked`: ticking appends with
      no duplicate check, unticking drops every occurrence. */
  function Toggled(ids: seq<int>, id: int, checked: bool): (r: seq<int>)
    ensures checked ==> r == ids + [id]
    ensures !checked ==> id !in r && forall j :: j in r <==> j in ids && j != id
    ensures !checked ==> IsSubsequence(r, ids)
    ensures !checked ==> multiset(r) == multiset(ids)[id := 0]
  {
    if checked then ids + [id]
    else
      FilterIsSubsequence(ids, (j: int) => j != id);
      FilterMultiplicity(ids, (j: int) => j != id);
      Filter(ids, (j: int) => j != id)
  }

  /** Ticking an already ticked agent lists it twice; one untick then
      removes both, leaving what unticking alone would have left. */
  lemma {:induction false} TickTwiceUntickOnce(ids: seq<int>, id: int)
    ensures multiset(Toggled(Toggled(ids, id, true), id, true))[id] == multiset(ids)[id] + 2
    ensures Toggled(Toggled(ids, id, true), id, false) == Toggled(ids, id, false)
  {
    FilterAppendRejected(ids, id, (j: int) => j != id);
  }

  /** The ids ticked when the card opens: those of the agents already
      assigned, in order, or none. */
  function InitialSelection(x: Intervention): (r: seq<int>)
    ensures x.assignedAgents.None? ==> r == []
    ensures x.assignedAgents.Some? ==> |r| == |x.assignedAgents.value|
    ensures x.assignedAgents.Some? ==> forall k :: 0 <= k < |r| ==> r[k] == x.assignedAgents.value[k].id
  {
    match x.assignedAgents
    case None => []
    case Some(agents) => seq(|agents|, k requires 0 <= k < |agents| => agents[k].id)
  }

  /** Confirming the selection the card opened with keeps exactly the
      assigned agents that are still in the store. */
  lemma ReassignSameTeam(x: Intervention, agents: seq<Agent>, a: Agent)
    requires x.assignedAgents.Some? && a in agents
    ensures a in WithAssignment(x, agents, InitialSelection(x)).assignedAgents.value
        <==> exists k :: 0 <= k < |x.assignedAgents.value| && x.assignedAgents.value[k].id == a.id
  {
    var ids := InitialSelection(x);
    if a.id in ids {
      var k :| 0 <= k < |ids| && ids[k] == a.id;
      assert x.assignedAgents.value[k].id == a.id;
    }
  }

  /** "Sauvegarder" is shown while editing; "Clôturer" while not editing an
      intervention that is not completed. */
  predicate SaveOffered(editing: bool)
  {
    editing
  }

  predicate ResolveOffered(status: InterventionStatus, editing: bool)
  {
    status != Completed && !editing
  }

  /** The two actions are never offered together, and one of them always is
      unless the intervention is completed. */
  lemma ActionsExclusive(status: InterventionStatus, editing: bool)
    ensures !(SaveOffered(editing) && ResolveOffered(status, editing))
    ensures status != Completed ==> SaveOffered(editing) || ResolveOffered(status, editing)
    ensures status == Completed ==> !ResolveOffered(status, editing)
  {
  }

  /** The request `handleSave` sends. */
  datatype SaveRequest = SaveRequest(id: int, problemDescription: string, latitude: real, longitude: real)

  /** The values `handleAssignTeam` captured when it was called: the ticked
      ids, the store's agents and the `intervention` prop of that render. */
  datatype PendingAssign = PendingAssign(agentIds: seq<int>, agents: seq<Agent>, record: Intervention)

  /** The component's local state: the eight `useState` hooks. */
  datatype Card = Card(
    isEditing: bool,
    editedDescription: string,
    editedLatitude: real,
    editedLongitude: real,
    isSaving: bool,
    isAssignDialogOpen: bool,
    selectedAgentIds: seq<int>,
    isAssigning: bool)

  /** The card. It has no `key`, so React keeps one instance, and its
      `useState` values, while the `intervention` prop changes under it. */
  class DetailsView {
    /** The `intervention` prop of the latest render. */
    var intervention: Intervention
    const store: Store.AppStore
    var isEditing: bool
    var editedDescription: string
    var editedLatitude: real
    var editedLongitude: real
    var isSaving: bool
    var isAssignDialogOpen: bool
    var selectedAgentIds: seq<int>
    var isAssigning: bool

    function View(): Card
      reads this
    {
      Card(isEditing, editedDescription, editedLatitude, editedLongitude,
           isSaving, isAssignDialogOpen, selectedAgentIds, isAssigning)
    }

    constructor (x: Intervention, store: Store.AppStore)
      ensures intervention == x && this.store == store
      ensures View() == Card(false, x.problemDescription, x.latitude, x.longitude,
                             false, false, InitialSelection(x), false)
    {
      intervention, this.store := x, store;
      isEditing, isSaving, isAssignDialogOpen, isAssigning := false, false, false, false;
      editedDescription, editedLatitude, editedLongitude := x.problemDescription, x.latitude, x.longitude;
      selectedAgentIds := InitialSelection(x);
    }

    /** A re-render with the prop `x`: after the selection changes, or after
      the store replaced the selected record. The card state is kept. */
    method Rerender(x: Intervention)
      modifies this
      ensures intervention == x
      ensures View() == old(View())
    {
      intervention := x;
    }

    /** The "Modifier" / "Annuler" button: only the editing flag flips. */
    method ToggleEditing()
      modifies this
      ensures View() == old(View()).(isEditing := !old(isEditing))
      ensures intervention == old(intervention)
    {
      isEditing := !isEditing;
    }

    /** The description text area. */
    method EditDescription(text: string)
      modifies this
      ensures View() == old(View()).(editedDescription := text)
      ensures intervention == old(intervention)
    {
      editedDescription := text;
    }

    /** The latitude field, already read as a number. */
    method EditLatitude(value: real)
      modifies this
      ensures View() == old(View()).(editedLatitude := value)
      ensures intervention == old(intervention)
    {
      editedLatitude := value;
    }

    /** The longitude field, already read as a number. */
    method EditLongitude(value: real)
      modifies this
      ensures View() == old(View()).(editedLongitude := value)
      ensures intervention == old(intervention)
    {
      editedLongitude := value;
    }

    /** The dialog's `onOpenChange` and its "Annuler" button; the ticked
      ids survive closing and reopening. */
    method SetAssignDialogOpen(open: bool)
      modifies this
      ensures View() == old(View()).(isAssignDialogOpen := open)
      ensures intervention == old(intervention)
    {
      isAssignDialogOpen := open;
    }

    /** A checkbox of the assignment dialog. */
    method CheckAgent(id: int, checked: bool)
      modifies this
      ensures View() == old(View()).(selectedAgentIds := Toggled(old(selectedAgentIds), id, checked))
      ensures intervention == old(intervention)
    {
      selectedAgentIds := Toggled(selectedAgentIds, id, checked);
    }

    /** `handleSave` up to its `await`. */
    method BeginSave() returns (req: SaveRequest)
      modifies this
      ensures req == SaveRequest(intervention.id, old(editedDescription), old(editedLatitude), old(editedLongitude))
      ensures View() == old(View()).(isSaving := true)
      ensures intervention == old(intervention)
    {
      isSaving := true;
      req := SaveRequest(intervention.id, editedDescription, editedLatitude, editedLongitude);
    }

    /** `handleSave` after the request settles: the server's record, or
      `None` when the call threw. */
    method SaveSettled(response: Option<Intervention>)
      modifies this, store
      ensures response.Some? ==> store.State() == Store.InterventionUpdated(old(store.State()), response.value)
      ensures response.None? ==> store.State() == old(store.State())
      ensures View() == old(View()).(isSaving := false, isEditing := if response.Some? then false else old(isEditing))
      ensures intervention == old(intervention)
    {
      if response.Some? {
        store.UpdateIntervention(response.value);
        isEditing := false;
      }
      isSaving := false;
    }

    /** `handleAssignTeam` up to its `await`: the ids sent and the values
      the handler goes on with. */
    method BeginAssign() returns (p: PendingAssign)
      modifies this
      ensures p == PendingAssign(old(selectedAgentIds), store.agents, intervention)
      ensures View() == old(View()).(isAssigning := true)
      ensures intervention == old(intervention)
    {
      isAssigning := true;
      p := PendingAssign(selectedAgentIds, store.agents, intervention);
    }

    /** `handleAssignTeam` after the request settles: the team is spread
      into the record the handler captured, not the prop of a later render. */
    method AssignSettled(p: PendingAssign, ok: bool)
      modifies this, store
      ensures ok ==> store.State() == Store.InterventionUpdated(old(store.State()), WithAssignment(p.record, p.agents, p.agentIds))
      ensures !ok ==> store.State() == old(store.State())
      ensures View() == old(View()).(isAssigning := false, isAssignDialogOpen := if ok then false else old(isAssignDialogOpen))
      ensures intervention == old(intervention)
    {
      if ok {
        store.UpdateIntervention(WithAssignment(p.record, p.agents, p.agentIds));
        isAssignDialogOpen := false;
      }
      isAssigning := false;
    }

    /** `handleResolveIntervention`: the record of the latest render,
      completed at `now`, replaces the stored one. */
    method Resolve(ok: bool, now: int)
      modifies store
      ensures ok ==> store.State() == Store.InterventionUpdated(old(store.State()), Resolved(intervention, now))
      ensures !ok ==> store.State() == old(store.State())
    {
      if ok {
        store.UpdateIntervention(Resolved(intervention, now));
      }
    }
  }

  /** As written: an edit begun on one intervention survives a switch of the
      selection to another, and saving then sends the other's id with the
      first one's edited text and coordinates. */
  method SaveAfterSwitch(store: Store.AppStore, a: Intervention, b: Intervention, text: string)
    returns (req: SaveRequest)
    ensures req == SaveRequest(b.id, text, a.latitude, a.longitude)
  {
    var card := new DetailsView(a, store);
    card.ToggleEditing();
    card.EditDescription(text);
    card.Rerender(b);
    req := card.BeginSave();
  }

  /** Corrected: with the card keyed by the intervention id, a switch mounts
      a fresh card, so a save sends the selected record's own values. */
  method SaveAfterKeyedSwitch(store: Store.AppStore, a: Intervention, b: Intervention, text: string)
    returns (req: SaveRequest)
    ensures req == SaveRequest(b.id, b.problemDescription, b.latitude, b.longitude)
  {
    var card := new DetailsView(a, store);
    card.ToggleEditing();
    card.EditDescription(text);
    card := new DetailsView(b, store);
    req := card.BeginSave();
  }

  /** A save followed by the re-render it causes: resolving then completes
      the saved record, not the one the card was opened with. */
  method ResolveAfterSave(store: Store.AppStore, x: Intervention, saved: Intervention, now: int)
    modifies store
    ensures store.State() ==
      Store.InterventionUpdated(Store.InterventionUpdated(old(store.State()), saved), Resolved(saved, now))
  {
    var card := new DetailsView(x, store);
    card.SaveSettled(Some(saved));
    card.Rerender(saved);
    card.Resolve(true, now);
  }
}
