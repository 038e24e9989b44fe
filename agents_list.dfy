/** The agent list (`src/components/dashboard/AgentsList.tsx`): the order
    agents are shown in, the status counts and the "last seen" text. */
module AgentsList {
  import opened Types
  import opened Seqs
  import opened Text

  /** The comparator of `sortedAgents`: an online agent precedes an offline
      one; agents with the same status follow `collate`, the abstract
      `localeCompare(a, b) <= 0` on names. */
  function AgentOrder(collate: (string, string) -> bool): (leq: (Agent, Agent) -> bool)
    ensures forall a: Agent, b: Agent :: a.status == Online && b.status == Offline ==> leq(a, b) && !leq(b, a)
    ensures forall a: Agent, b: Agent :: a.status == b.status ==> (leq(a, b) <==> collate(a.name, b.name))
  {
    (a: Agent, b: Agent) =>
      (a.status == Online && b.status == Offline) || (a.status == b.status && collate(a.name, b.name))
  }

  lemma AgentOrderIsTotalPreorder(collate: (string, string) -> bool)
    requires TotalPreorder(collate)
    ensures TotalPreorder(AgentOrder(collate))
  {
    var leq := AgentOrder(collate);
    forall a: Agent, b: Agent, c: Agent | leq(a, b) && leq(b, c) ensures leq(a, c) {
      if a.status == b.status && b.status == c.status {
        assert collate(a.name, b.name) && collate(b.name, c.name);
      }
    }
    forall a: Agent, b: Agent ensures leq(a, b) || leq(b, a) {
      if a.status == b.status {
        assert collate(a.name, b.name) || collate(b.name, a.name);
      }
    }
  }

  /** `sortedAgents`: a sorted copy; the store's array is not touched. */
  function SortedAgents(agents: seq<Agent>, collate: (string, string) -> bool): (r: seq<Agent>)
    ensures multiset(r) == multiset(agents)
  {
    Sort(agents, AgentOrder(collate))
  }

  /** Every online agent comes before every offline one, and agents with the
      same status are in name order. */
  lemma {:induction false} SortedAgentsOrder(agents: seq<Agent>, collate: (string, string) -> bool)
    requires TotalPreorder(collate)
    ensures var r := SortedAgents(agents, collate);
      && (forall i, j :: 0 <= i < j < |r| ==> !(r[i].status == Offline && r[j].status == Online))
      && (forall i, j :: 0 <= i < j < |r| && r[i].status == r[j].status ==> collate(r[i].name, r[j].name))
  {
    AgentOrderIsTotalPreorder(collate);
    SortSorted(agents, AgentOrder(collate));
  }

  /** `agents.filter(a => a.status === 'online').length`: positive exactly
      when some agent is online. */
  function OnlineCount(agents: seq<Agent>): (n: nat)
    ensures n <= |agents|
    ensures n > 0 <==> exists a :: a in agents && a.status == Online
  {
    var online := Filter(agents, HasAgentStatus(Online));
    assert online != [] ==> online[0] in agents && online[0].status == Online;
    |online|
  }

  function OfflineCount(agents: seq<Agent>): nat
  {
    |Filter(agents, HasAgentStatus(Offline))|
  }

  /** Status is two-valued, so the two counts add up to the number of agents. */
  lemma OnlinePlusOffline(agents: seq<Agent>)
    ensures OnlineCount(agents) + OfflineCount(agents) == |agents|
    ensures OnlineCount(agents) <= |agents|
  {
    CountComplement(agents, HasAgentStatus(Online), HasAgentStatus(Offline));
  }

  const MinuteMs: int := 60000
  const HourMs: int := 3600000
  const DayMs: int := 86400000

  /** The bucket `getLastSeenText` chooses. */
  datatype LastSeen = JustNow | MinutesAgo(minutes: int) | HoursAgo(hours: int) | DaysAgo(days: int)

  /** Whole minutes, hours and days are `Math.floor` of the elapsed
      milliseconds; a last-seen time in the future counts as "just now". */
  function LastSeenBucket(now: int, lastSeenAt: int): (r: LastSeen)
    ensures r.JustNow? <==> now - lastSeenAt < MinuteMs
    ensures r.MinutesAgo? <==> MinuteMs <= now - lastSeenAt < HourMs
    ensures r.HoursAgo? <==> HourMs <= now - lastSeenAt < DayMs
    ensures r.DaysAgo? <==> DayMs <= now - lastSeenAt
    ensures r.MinutesAgo? ==> 1 <= r.minutes < 60 && r.minutes * MinuteMs <= now - lastSeenAt < (r.minutes + 1) * MinuteMs
    ensures r.HoursAgo? ==> 1 <= r.hours < 24 && r.hours * HourMs <= now - lastSeenAt < (r.hours + 1) * HourMs
    ensures r.DaysAgo? ==> 1 <= r.days && r.days * DayMs <= now - lastSeenAt < (r.days + 1) * DayMs
  {
    var diff := now - lastSeenAt;
    var minutes := diff / MinuteMs;
    var hours := diff / HourMs;
    var days := diff / DayMs;
    if minutes < 1 then JustNow
    else if minutes < 60 then MinutesAgo(minutes)
    else if hours < 24 then HoursAgo(hours)
    else DaysAgo(days)
  }

  /** The elapsed time a bucket stands for, in whole minutes. */
  function ShownMinutes(b: LastSeen): int
  {
    match b
    case JustNow => 0
    case MinutesAgo(m) => m
    case HoursAgo(h) => 60 * h
    case DaysAgo(d) => 1440 * d
  }

  /** An agent seen longer ago is never shown as seen more recently. */
  lemma LastSeenMonotone(now: int, t1: int, t2: int)
    requires t2 <= t1
    ensures ShownMinutes(LastSeenBucket(now, t1)) <= ShownMinutes(LastSeenBucket(now, t2))
  {
    var b1, b2 := LastSeenBucket(now, t1), LastSeenBucket(now, t2);
    if b1.MinutesAgo? && b2.MinutesAgo? {
      assert b1.minutes * MinuteMs < (b2.minutes + 1) * MinuteMs;
    } else if b1.HoursAgo? && b2.HoursAgo? {
      assert b1.hours * HourMs < (b2.hours + 1) * HourMs;
    } else if b1.DaysAgo? && b2.DaysAgo? {
      assert b1.days * DayMs < (b2.days + 1) * DayMs;
    }
  }

  /** `getLastSeenText`: "just now" for the first bucket, "... ago" with
      the count for the others. */
  function LastSeenText(b: LastSeen): (r: string)
    ensures b.JustNow? ==> r == "\U{00C0} l'instant"
    ensures !b.JustNow? ==> |r| > 7 && r[..7] == "Il y a "
  {
    match b
    case JustNow => "\U{00C0} l'instant"
    case MinutesAgo(m) => "Il y a " + IntToString(m) + "min"
    case HoursAgo(h) => "Il y a " + IntToString(h) + "h"
    case DaysAgo(d) => "Il y a " + IntToString(d) + "j"
  }

  /** The number in the text is the bucket's count, in plain decimal. */
  lemma LastSeenTextCount(b: LastSeen, now: int, lastSeenAt: int)
    requires b == LastSeenBucket(now, lastSeenAt) && !b.JustNow?
    ensures var n := if b.MinutesAgo? then b.minutes else if b.HoursAgo? then b.hours else b.days;
      var unit := if b.MinutesAgo? then "min" else if b.HoursAgo? then "h" else "j";
      n >= 1 && LastSeenText(b) == "Il y a " + NatToString(n) + unit && DigitsValue(NatToString(n)) == n
  {
    var n := if b.MinutesAgo? then b.minutes else if b.HoursAgo? then b.hours else b.days;
    NatToStringRoundTrip(n);
  }
}
