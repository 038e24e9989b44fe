/** The records of `src/types/index.ts`. Timestamps are milliseconds since the
    epoch; coordinates are exact reals (nothing computes with them). */
module Types {
  import opened Wrappers
  import Seqs

  datatype InterventionStatus = Pending | InProgress | Completed | Cancelled
  datatype AgentStatus = Online | Offline
  datatype Sender = Client | AgentSender | Admin

  datatype Coordinates = Coordinates(latitude: real, longitude: real)

  datatype Agent = Agent(
    id: int,
    name: string,
    email: string,
    phone: string,
    status: AgentStatus,
    lastSeenAt: int,
    latitude: Option<real>,
    longitude: Option<real>,
    assignedInterventions: Option<seq<int>>)

  datatype Intervention = Intervention(
    id: int,
    clientName: string,
    clientPhone: string,
    problemDescription: string,
    status: InterventionStatus,
    latitude: real,
    longitude: real,
    createdAt: int,
    updatedAt: int,
    assignedAgents: Option<seq<Agent>>,
    messages: Option<seq<Message>>)

  datatype Message = Message(
    id: int,
    interventionId: int,
    content: string,
    sender: Sender,
    senderName: Option<string>,
    createdAt: int)

  /** The wire spelling of a status, as the JSON carries it. */
  function StatusName(s: InterventionStatus): string
  {
    match s
    case Pending => "pending"
    case InProgress => "in-progress"
    case Completed => "completed"
    case Cancelled => "cancelled"
  }

  function AgentStatusName(s: AgentStatus): string
  {
    match s
    case Online => "online"
    case Offline => "offline"
  }

  /** The identity the store matches records by. */
  function InterventionKey(i: Intervention): int { i.id }
  function AgentKey(a: Agent): int { a.id }

  function HasStatus(st: InterventionStatus): Intervention -> bool
  {
    (i: Intervention) => i.status == st
  }

  function HasAgentStatus(st: AgentStatus): Agent -> bool
  {
    (a: Agent) => a.status == st
  }

  /** `interventions.filter(i => i.status === st).length`. */
  function CountWithStatus(xs: seq<Intervention>, st: InterventionStatus): nat
  {
    |Seqs.Filter(xs, HasStatus(st))|
  }

  /** Pending or in progress: what the header and the sidebar count as
      active. */
  function IsActive(): Intervention -> bool
  {
    (i: Intervention) => i.status == Pending || i.status == InProgress
  }

  /** `a.assignedInterventions?.length || 0`. */
  function AssignmentCount(a: Agent): nat
  {
    match a.assignedInterventions
    case None => 0
    case Some(ids) => |ids|
  }

  /** `agents.reduce((sum, a) => sum + (a.assignedInterventions?.length || 0), 0)`:
      an agent without assignment list adds nothing, and no agent's count
      exceeds the total. */
  function TotalAssignments(agents: seq<Agent>): (r: nat)
    ensures (forall a :: a in agents ==> a.assignedInterventions.None?) ==> r == 0
    ensures forall k :: 0 <= k < |agents| ==> AssignmentCount(agents[k]) <= r
  {
    if agents == [] then 0
    else
      var init := agents[..|agents| - 1];
      assert forall k :: 0 <= k < |init| ==> agents[k] == init[k];
      assert forall a :: a in init ==> a in agents;
      TotalAssignments(init) + AssignmentCount(agents[|agents| - 1])
  }

  /** The sum splits over concatenation, so it does not depend on where the
      list is cut. */
  lemma {:induction false} TotalAssignmentsAppend(xs: seq<Agent>, ys: seq<Agent>)
    ensures TotalAssignments(xs + ys) == TotalAssignments(xs) + TotalAssignments(ys)
    decreases |ys|
  {
    if ys != [] {
      assert (xs + ys)[..|xs + ys| - 1] == xs + ys[..|ys| - 1];
      TotalAssignmentsAppend(xs, ys[..|ys| - 1]);
    } else {
      assert xs + ys == xs;
    }
  }
}
