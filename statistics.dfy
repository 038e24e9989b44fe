/** The statistics page (`src/pages/Statistics.tsx`): counts by status, the
    resolution rate, agent totals and the pie-chart slices. */
module Statistics {
  import opened Types
  import opened Seqs
  import AgentsList

  /** `byStatus`. */
  datatype ByStatus = ByStatus(pending: nat, inProgress: nat, completed: nat, cancelled: nat)

  datatype Metrics = Metrics(
    byStatus: ByStatus,
    onlineAgents: nat,
    totalAssignments: nat,
    resolutionRate: int,
    totalInterventions: nat,
    totalAgents: nat)

  /** `Math.round((completed / total) * 100)` for a non-empty list, else 0,
      computed exactly: the rate is the integer nearest to
      100 * completed / total, halves rounded up. */
  function ResolutionRate(completed: nat, total: nat): (r: int)
    ensures total == 0 ==> r == 0
    ensures total > 0 ==> 2 * total * r <= 200 * completed + total < 2 * total * (r + 1)
  {
    if total > 0 then
      var n, d := 200 * completed + total, 2 * total;
      assert d * (n / d) + n % d == n;
      n / d
    else 0
  }

  /** The rate is a percentage: between 0 and 100 while completed <= total,
      0 with nothing completed and 100 with everything completed. */
  lemma ResolutionRateBounds(completed: nat, total: nat)
    requires completed <= total
    ensures 0 <= ResolutionRate(completed, total) <= 100
    ensures completed == 0 ==> ResolutionRate(completed, total) == 0
    ensures 0 < completed == total ==> ResolutionRate(completed, total) == 100
  {
    var r := ResolutionRate(completed, total);
    if total > 0 {
      var d := 2 * total;
      assert d * r < d * 101;
      MulCancel(d, r, 101);
      assert d * 0 < d * (r + 1);
      MulCancel(d, 0, r + 1);
      if completed == 0 {
        assert d * r < d * 1;
        MulCancel(d, r, 1);
      }
      if completed == total {
        assert d * 100 < d * (r + 1);
        MulCancel(d, 100, r + 1);
      }
    }
  }

  lemma MulCancel(k: int, a: int, b: int)
    requires 0 < k && k * a < k * b
    ensures a < b
  {
  }

  /** `metrics`, leaving out the week and month windows. */
  function ComputeMetrics(interventions: seq<Intervention>, agents: seq<Agent>): (m: Metrics)
    ensures m.byStatus.pending + m.byStatus.inProgress + m.byStatus.completed + m.byStatus.cancelled == m.totalInterventions
    ensures m.byStatus.pending == CountWithStatus(interventions, Pending)
    ensures m.byStatus.inProgress == CountWithStatus(interventions, InProgress)
    ensures m.byStatus.completed == CountWithStatus(interventions, Completed)
    ensures m.byStatus.cancelled == CountWithStatus(interventions, Cancelled)
    ensures m.totalInterventions == |interventions| && m.totalAgents == |agents|
    ensures m.onlineAgents == AgentsList.OnlineCount(agents) && m.onlineAgents <= m.totalAgents
    ensures m.resolutionRate == ResolutionRate(m.byStatus.completed, m.totalInterventions)
    ensures 0 <= m.resolutionRate <= 100
    ensures m.totalAssignments == TotalAssignments(agents)
  {
    var byStatus := ByStatus(
      CountWithStatus(interventions, Pending),
      CountWithStatus(interventions, InProgress),
      CountWithStatus(interventions, Completed),
      CountWithStatus(interventions, Cancelled));
    StatusCountsSum(interventions);
    AgentsList.OnlinePlusOffline(agents);
    ResolutionRateBounds(byStatus.completed, |interventions|);
    Metrics(byStatus, AgentsList.OnlineCount(agents), TotalAssignments(agents),
            ResolutionRate(byStatus.completed, |interventions|), |interventions|, |agents|)
  }

  /** Every intervention has exactly one of the four statuses, so the four
      counts add up to the list's length. */
  lemma StatusCountsSum(xs: seq<Intervention>)
    ensures CountWithStatus(xs, Pending) + CountWithStatus(xs, InProgress)
          + CountWithStatus(xs, Completed) + CountWithStatus(xs, Cancelled) == |xs|
  {
    CountSplit(xs, HasStatus(Pending), HasStatus(InProgress), IsActive());
    CountSplit(xs, HasStatus(Completed), HasStatus(Cancelled), IsSettled());
    CountComplement(xs, IsActive(), IsSettled());
  }

  /** Completed or cancelled. */
  function IsSettled(): Intervention -> bool
  {
    (i: Intervention) => i.status == Completed || i.status == Cancelled
  }

  /** A slice of the status pie chart. */
  datatype Slice = Slice(name: string, value: nat, color: string)

  /** `statusData`. */
  function StatusData(m: Metrics): (r: seq<Slice>)
    ensures |r| == 4
    ensures r[0].value == m.byStatus.pending && r[1].value == m.byStatus.inProgress
    ensures r[2].value == m.byStatus.completed && r[3].value == m.byStatus.cancelled
  {
    [ Slice("En attente", m.byStatus.pending, "#f97316"),
      Slice("En cours", m.byStatus.inProgress, "#1A73E8"),
      Slice("Termin\U{00E9}es", m.byStatus.completed, "#22C55E"),
      Slice("Annul\U{00E9}es", m.byStatus.cancelled, "#ef4444") ]
  }

  /** The slices together cover every intervention exactly once. */
  lemma StatusDataCoversAll(interventions: seq<Intervention>, agents: seq<Agent>)
    ensures var r := StatusData(ComputeMetrics(interventions, agents));
      r[0].value + r[1].value + r[2].value + r[3].value == |interventions|
  {
  }
}
