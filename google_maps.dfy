/** The map (`src/components/map/GoogleMapsContainer.tsx`): one marker per
    intervention and per located agent, the icon of each, and what a click
    or a drag does. The SDK is left out; an icon is its file name and size. */
module GoogleMaps {
  import opened Wrappers
  import opened Types
  import opened Seqs
  import opened Text
  import Store

  /** Added to an agent id to give its marker id. */
  const AgentMarkerOffset: int := 10000

  datatype Payload = OfIntervention(intervention: Intervention) | OfAgent(agent: Agent)

  /** `MarkerData`; its `type` is the payload's kind and its `status` the
      wire status of the record. */
  datatype MarkerData = MarkerData(id: int, position: Coordinates, status: string, title: string, data: Payload)

  /** An intervention's marker: at the record's position, under its own id,
      carrying the record and its wire status. */
  function InterventionMarker(x: Intervention): (r: MarkerData)
    ensures r.data == OfIntervention(x) && r.id == x.id && r.status == StatusName(x.status)
    ensures r.position == Coordinates(x.latitude, x.longitude)
  {
    MarkerData(x.id, Coordinates(x.latitude, x.longitude), StatusName(x.status),
               "Intervention #" + IntToString(x.id) + " - " + x.clientName, OfIntervention(x))
  }

  /** `agent.latitude && agent.longitude`: both present and non-zero. */
  predicate Located(a: Agent)
  {
    a.latitude.Some? && a.latitude.value != 0.0 && a.longitude.Some? && a.longitude.value != 0.0
  }

  function IsLocated(): Agent -> bool
  {
    (a: Agent) => Located(a)
  }

  /** A located agent's marker: at the agent's position, under the agent's
      id shifted by the offset, carrying the agent and its wire status. */
  function AgentMarker(a: Agent): (r: MarkerData)
    requires Located(a)
    ensures r.data == OfAgent(a) && r.id == a.id + AgentMarkerOffset && r.status == AgentStatusName(a.status)
    ensures r.position == Coordinates(a.latitude.value, a.longitude.value)
  {
    MarkerData(a.id + AgentMarkerOffset, Coordinates(a.latitude.value, a.longitude.value),
               AgentStatusName(a.status), "Agent " + a.name, OfAgent(a))
  }

  function InterventionMarkers(xs: seq<Intervention>): (r: seq<MarkerData>)
    ensures |r| == |xs| && forall k :: 0 <= k < |xs| ==> r[k] == InterventionMarker(xs[k])
  {
    seq(|xs|, k requires 0 <= k < |xs| => InterventionMarker(xs[k]))
  }

  function AgentMarkers(located: seq<Agent>): (r: seq<MarkerData>)
    requires forall a :: a in located ==> Located(a)
    ensures |r| == |located| && forall k :: 0 <= k < |located| ==> r[k] == AgentMarker(located[k])
  {
    seq(|located|, k requires 0 <= k < |located| => AgentMarker(located[k]))
  }

  /** `markers`: the interventions in list order, then the located agents
      in list order. */
  function Markers(xs: seq<Intervention>, agents: seq<Agent>): (r: seq<MarkerData>)
    ensures |r| == |xs| + |Filter(agents, IsLocated())| <= |xs| + |agents|
    ensures forall k :: 0 <= k < |xs| ==> r[k] == InterventionMarker(xs[k])
    ensures forall k :: |xs| <= k < |r| ==>
      && r[k].data.OfAgent? && Located(r[k].data.agent)
      && r[k].data.agent in agents && r[k].id == r[k].data.agent.id + AgentMarkerOffset
    ensures IsSubsequence(Filter(agents, IsLocated()), agents)
    ensures r[|xs|..] == AgentMarkers(Filter(agents, IsLocated()))
  {
    FilterIsSubsequence(agents, IsLocated());
    assert (InterventionMarkers(xs) + AgentMarkers(Filter(agents, IsLocated())))[|xs|..] == AgentMarkers(Filter(agents, IsLocated()));
    InterventionMarkers(xs) + AgentMarkers(Filter(agents, IsLocated()))
  }

  /** Every located agent has a marker, and no other agent has one. */
  lemma AgentHasMarkerIffLocated(xs: seq<Intervention>, agents: seq<Agent>, a: Agent)
    requires a in agents
    ensures Located(a) <==> exists k :: |xs| <= k < |Markers(xs, agents)| && Markers(xs, agents)[k].data == OfAgent(a)
  {
    var m := Markers(xs, agents);
    var located := Filter(agents, IsLocated());
    if Located(a) {
      var i :| 0 <= i < |located| && located[i] == a;
      assert m[|xs| + i] == AgentMarker(a);
    }
  }

  /** While intervention ids stay below the offset, no agent marker shares
      its id with an intervention marker. */
  lemma MarkerIdsDisjoint(xs: seq<Intervention>, agents: seq<Agent>)
    requires forall x :: x in xs ==> x.id < AgentMarkerOffset
    requires forall a :: a in agents ==> a.id >= 0
    ensures var m := Markers(xs, agents);
      forall i, j :: 0 <= i < |xs| <= j < |m| ==> m[i].id != m[j].id
  {
    var m := Markers(xs, agents);
    forall i, j | 0 <= i < |xs| <= j < |m| ensures m[i].id != m[j].id {
      assert xs[i] in xs;
    }
  }

  /** Past the offset the ids meet: intervention 10001 and agent 1 get the
      same marker id. */
  lemma MarkerIdsCanCollide(x: Intervention, a: Agent)
    requires x.id == 10001 && a.id == 1 && Located(a)
    ensures InterventionMarker(x).id == AgentMarker(a).id
  {
  }

  /** `getMarkerIcon`, as the file under the icon base URL and the size of
      its square. */
  datatype Icon = Icon(file: string, size: nat)

  function MarkerIcon(m: MarkerData): (r: Icon)
    ensures m.data.OfIntervention? ==> r.size == 32
    ensures m.data.OfAgent? ==> r.size == 24
  {
    if m.data.OfIntervention? then
      if m.status == "pending" then Icon("orange-dot.png", 32)
      else if m.status == "in-progress" then Icon("blue-dot.png", 32)
      else if m.status == "completed" then Icon("green-dot.png", 32)
      else if m.status == "cancelled" then Icon("red-dot.png", 32)
      else Icon("yellow-dot.png", 32)
    else if m.status == "online" then Icon("green-pushpin.png", 24)
    else Icon("grey-pushpin.png", 24)
  }

  /** Intervention markers of different statuses get different dots, never
      the fallback yellow; a located agent gets the green pin iff online. */
  lemma IconsDistinguishStatus(x: Intervention, y: Intervention, a: Agent)
    requires Located(a)
    ensures MarkerIcon(InterventionMarker(x)) == MarkerIcon(InterventionMarker(y)) <==> x.status == y.status
    ensures MarkerIcon(InterventionMarker(x)).file != "yellow-dot.png"
    ensures MarkerIcon(AgentMarker(a)).file == "green-pushpin.png" <==> a.status == Online
  {
    var fx, fy := MarkerIcon(InterventionMarker(x)).file, MarkerIcon(InterventionMarker(y)).file;
    if x.status != y.status {
      assert fx[0] != fy[0];
    }
  }

  /** The request a drag sends: the marker id and the dropped position. */
  datatype PositionRequest = PositionRequest(id: int, latitude: real, longitude: real)

  class MapView {
    const store: Store.AppStore
    /** The marker whose info window is open. */
    var selectedMarker: Option<MarkerData>

    constructor (store: Store.AppStore)
      ensures this.store == store && selectedMarker.None?
    {
      this.store := store;
      selectedMarker := None;
    }

    /** `handleMarkerClick`: an intervention marker selects its record;
      every marker opens its info window. */
    method MarkerClick(m: MarkerData)
      modifies this, store
      ensures selectedMarker == Some(m)
      ensures m.data.OfIntervention? ==> store.State() == Store.InterventionSelected(old(store.State()), Some(m.data.intervention))
      ensures m.data.OfAgent? ==> store.State() == old(store.State())
    {
      if m.data.OfIntervention? {
        store.SetSelectedIntervention(Some(m.data.intervention));
      }
      selectedMarker := Some(m);
    }

    /** `handleMarkerDragEnd`: an agent marker, or an event with no
      position, does nothing; otherwise the position is sent and the
      server's record, if the call succeeds, replaces the stored one. */
    method MarkerDragEnd(m: MarkerData, latLng: Option<Coordinates>, response: Option<Intervention>)
      returns (req: Option<PositionRequest>)
      modifies store
      ensures m.data.OfAgent? || latLng.None? ==> req.None? && store.State() == old(store.State())
      ensures m.data.OfIntervention? && latLng.Some? ==>
        req == Some(PositionRequest(m.id, latLng.value.latitude, latLng.value.longitude))
      ensures m.data.OfIntervention? && latLng.Some? && response.Some? ==>
        store.State() == Store.InterventionUpdated(old(store.State()), response.value)
      ensures response.None? ==> store.State() == old(store.State())
    {
      if !m.data.OfIntervention? || latLng.None? {
        return None;
      }
      req := Some(PositionRequest(m.id, latLng.value.latitude, latLng.value.longitude));
      if response.Some? {
        store.UpdateIntervention(response.value);
      }
    }
  }
}
