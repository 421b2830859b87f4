/** `GET /api/analytics/dashboard`: admin-only counts, commission sums, rates and
    the per-agent roll-up. Rates are kept as numbers; their two-decimal string
    rendering is not modelled. */
module AnalyticsRoute {
  import opened Wrappers
  import opened Roles
  import opened Validations
  import opened ApiResponse
  import opened Query
  import opened Db

  datatype Overview = Overview(totalProperties: nat, availableProperties: nat, activeLeads: nat, closedLeads: nat, conversionRate: real)
  datatype VisitStats = VisitStats(total: nat, completed: nat, pending: int, completionRate: real)
  datatype Tally = Tally(count: nat, amount: real)
  datatype CommissionStats = CommissionStats(pending: Tally, paid: Tally, total: Tally)
  datatype AgentPerformance = AgentPerformance(id: string, name: string, properties: nat, leads: nat, commissionEarned: real, status: string)
  datatype AgentStats = AgentStats(total: nat, performance: seq<AgentPerformance>)
  datatype Analytics = Analytics(overview: Overview, visits: VisitStats, commissions: CommissionStats, agents: AgentStats)

  const Paid: string := "PAID"
  const Pending: string := "PENDING"

  /** A commission's amount, a missing one counting as zero. */
  function Amount(c: Commission): real {
    c.commissionAmount.GetOr(0.0)
  }

  /** The amounts of the commissions satisfying `p`, summed from left to right. */
  function SumWhere(cs: seq<Commission>, p: Commission -> bool): real {
    if cs == [] then 0.0 else (if p(cs[0]) then Amount(cs[0]) else 0.0) + SumWhere(cs[1..], p)
  }

  predicate IsPaid(c: Commission) { c.status == Paid }
  predicate IsPending(c: Commission) { c.status == Pending }

  function PaidBy(id: string): Commission -> bool {
    (c: Commission) => c.status == Paid && c.agentId == id
  }

  /** A template literal renders a missing name as "null". */
  function Rendered(s: Option<string>): string {
    match s
    case Some(t) => t
    case None => "null"
  }

  function IsAgentUser(u: User): bool { u.role == Agent }

  /** One agent's figures: rows owned or assigned, and paid commission earned. */
  function Performance(agent: User, db: Store): AgentPerformance {
    AgentPerformance(
      agent.id,
      Rendered(agent.firstName) + " " + Rendered(agent.lastName),
      Count(db.properties, (p: Property) => p.fields.agentId == agent.id),
      Count(db.leads, (l: Lead) => l.assignedAgentId == Some(agent.id)),
      SumWhere(db.commissions, PaidBy(agent.id)),
      if agent.agentDetails.Some? && agent.agentDetails.value.status != "" then agent.agentDetails.value.status else "INACTIVE")
  }

  function Performances(agents: seq<User>, db: Store): (r: seq<AgentPerformance>)
    ensures |r| == |agents|
    ensures forall i :: 0 <= i < |agents| ==> r[i] == Performance(agents[i], db)
  {
    if agents == [] then [] else [Performance(agents[0], db)] + Performances(agents[1..], db)
  }

  predicate IsAvailable(p: Property) { p.fields.status == Available }
  predicate IsInterested(l: Lead) { l.fields.status == Interested }
  predicate IsClosedWon(l: Lead) { l.fields.status == ClosedWon }
  predicate IsCompleted(v: Visit) { v.status == Completed }

  /** A percentage of `part` in `whole`, zero when `part` is zero. */
  function Rate(part: nat, whole: nat): (r: real)
    requires part <= whole
    ensures part == 0 ==> r == 0.0
    ensures r * whole as real == part as real * 100.0
    ensures 0.0 <= r <= 100.0
  {
    if part > 0 then (part as real / whole as real) * 100.0 else 0.0
  }

  /** The property and lead figures: the counts of the rows in the state the
      source's `where` names, and the closed share of the leads in play. */
  ghost predicate OverviewOf(o: Overview, db: Store) {
    && o.totalProperties == |db.properties|
    && o.availableProperties == Count(db.properties, IsAvailable) <= |db.properties|
    && o.activeLeads == Count(db.leads, IsInterested)
    && o.closedLeads == Count(db.leads, IsClosedWon)
    && o.activeLeads + o.closedLeads <= |db.leads|
    && (o.closedLeads == 0 ==> o.conversionRate == 0.0)
    && o.conversionRate * (o.closedLeads + o.activeLeads) as real == o.closedLeads as real * 100.0
    && 0.0 <= o.conversionRate <= 100.0
  }

  /** The visit figures: all visits, the completed ones, the rest, and the
      completed share. */
  ghost predicate VisitStatsOf(v: VisitStats, db: Store) {
    && v.total == |db.visits|
    && v.completed == Count(db.visits, IsCompleted)
    && v.pending == v.total - v.completed
    && 0 <= v.pending
    && (v.total == 0 ==> v.completionRate == 0.0)
    && v.completionRate * v.total as real == v.completed as real * 100.0
    && 0.0 <= v.completionRate <= 100.0
  }

  /** The commission figures: count and amount of the PENDING and of the PAID
      rows, and their totals, which never count more rows than the table has. */
  ghost predicate CommissionStatsOf(c: CommissionStats, db: Store) {
    && c.pending == Tally(Count(db.commissions, IsPending), SumWhere(db.commissions, IsPending))
    && c.paid == Tally(Count(db.commissions, IsPaid), SumWhere(db.commissions, IsPaid))
    && c.total.count == c.pending.count + c.paid.count <= |db.commissions|
    && c.total.amount == c.pending.amount + c.paid.amount
  }

  /** The agent figures: one row per AGENT user in table order, each with a
      non-empty status. */
  ghost predicate AgentStatsOf(g: AgentStats, db: Store) {
    && g.performance == Performances(Filter(db.users, IsAgentUser), db)
    && g.total == |g.performance|
    && (forall i :: 0 <= i < |g.performance| ==> g.performance[i].status != "")
  }

  /** What the dashboard reports about `db`. */
  ghost predicate Summarises(a: Analytics, db: Store) {
    OverviewOf(a.overview, db) && VisitStatsOf(a.visits, db) && CommissionStatsOf(a.commissions, db) && AgentStatsOf(a.agents, db)
  }

  function ComputeOverview(db: Store): (o: Overview)
    ensures OverviewOf(o, db)
  {
    var active := Count(db.leads, IsInterested);
    var closed := Count(db.leads, IsClosedWon);
    CountExclusive(db.leads, IsInterested, IsClosedWon);
    Overview(|db.properties|, Count(db.properties, IsAvailable), active, closed, Rate(closed, closed + active))
  }

  function ComputeVisits(db: Store): (v: VisitStats)
    ensures VisitStatsOf(v, db)
  {
    var completed := Count(db.visits, IsCompleted);
    VisitStats(|db.visits|, completed, |db.visits| - completed, Rate(completed, |db.visits|))
  }

  function ComputeCommissions(db: Store): (c: CommissionStats)
    ensures CommissionStatsOf(c, db)
  {
    var pending := Tally(Count(db.commissions, IsPending), SumWhere(db.commissions, IsPending));
    var paid := Tally(Count(db.commissions, IsPaid), SumWhere(db.commissions, IsPaid));
    CountExclusive(db.commissions, IsPending, IsPaid);
    CommissionStats(pending, paid, Tally(pending.count + paid.count, pending.amount + paid.amount))
  }

  function ComputeAgents(db: Store): (g: AgentStats)
    ensures AgentStatsOf(g, db)
  {
    var agents := Filter(db.users, IsAgentUser);
    AgentStats(|agents|, Performances(agents, db))
  }

  function Compute(db: Store): (a: Analytics)
    ensures Summarises(a, db)
  {
    Analytics(ComputeOverview(db), ComputeVisits(db), ComputeCommissions(db), ComputeAgents(db))
  }

  const FetchFailed: string := "Failed to fetch analytics"

  /** The admin dashboard: 403 for anyone else, a failed read reported as by
      every handler, else the figures `Summarises` describes. */
  function Dashboard(user: Option<Identity>, db: Store, outage: Option<Fault>): (r: Reply<Analytics>)
    ensures Consistent(r)
    ensures user.None? || user.value.role != Admin ==> r == ErrorReply("Only admins can access analytics", 403)
    ensures user.Some? && user.value.role == Admin && outage.Some? ==>
      && (r.status == 503 <==> IsConnectivity(FaultMessage(outage.value, FetchFailed)))
      && (r.status != 503 ==> r == ErrorReply(FetchFailed, 500))
    ensures user.Some? && user.value.role == Admin && outage.None? ==>
      r.status == 200 && r.body.data.Some? && Summarises(r.body.data.value, db)
  {
    if user.None? || user.value.role != Admin then ErrorReply("Only admins can access analytics", 403)
    else if outage.Some? then ReadFailure(outage.value, FetchFailed)
    else SuccessReply(Compute(db), "Analytics retrieved successfully", 200)
  }

  /** Sums split over concatenation. */
  lemma {:induction false} SumWhereAppend(a: seq<Commission>, b: seq<Commission>, p: Commission -> bool)
    ensures SumWhere(a + b, p) == SumWhere(a, p) + SumWhere(b, p)
  {
    if a == [] {
      assert a + b == b;
    } else {
      assert (a + b)[0] == a[0] && (a + b)[1..] == a[1..] + b;
      SumWhereAppend(a[1..], b, p);
    }
  }

  /** A commission without an amount adds nothing to any sum. */
  lemma MissingAmountAddsNothing(cs: seq<Commission>, c: Commission, p: Commission -> bool)
    requires c.commissionAmount.None?
    ensures SumWhere(cs + [c], p) == SumWhere(cs, p)
  {
    SumWhereAppend(cs, [c], p);
  }

  /** Only commissions satisfying the filter contribute. */
  lemma {:induction false} SumOfNone(cs: seq<Commission>, p: Commission -> bool)
    requires forall c :: c in cs ==> !p(c)
    ensures SumWhere(cs, p) == 0.0
  {
    if cs != [] {
      assert cs[0] in cs;
      SumOfNone(cs[1..], p);
    }
  }

  /** An agent with no PAID commission has earned nothing, however many
      pending ones they hold; a missing or empty status reads "INACTIVE". */
  lemma AgentRowFigures(agent: User, db: Store)
    requires forall c :: c in db.commissions && c.agentId == agent.id ==> c.status != Paid
    ensures Performance(agent, db).commissionEarned == 0.0
    ensures agent.agentDetails.None? ==> Performance(agent, db).status == "INACTIVE"
  {
    SumOfNone(db.commissions, PaidBy(agent.id));
  }

  // ---------------------------------------------------------------- the roll-up adds up

  predicate DistinctIds(agents: seq<User>) {
    forall i, j :: 0 <= i < j < |agents| ==> agents[i].id != agents[j].id
  }

  /** The paid commission credited to the listed agents, agent by agent. */
  function Credited(agents: seq<User>, cs: seq<Commission>): real {
    if agents == [] then 0.0 else SumWhere(cs, PaidBy(agents[0].id)) + Credited(agents[1..], cs)
  }

  /** The share of commission `c` credited to the listed agents. */
  function Share(agents: seq<User>, c: Commission): real {
    if agents == [] then 0.0
    else (if c.status == Paid && c.agentId == agents[0].id then Amount(c) else 0.0) + Share(agents[1..], c)
  }

  lemma {:induction false} CreditedNothing(agents: seq<User>)
    ensures Credited(agents, []) == 0.0
  {
    if agents != [] {
      CreditedNothing(agents[1..]);
    }
  }

  lemma {:induction false} CreditedSplit(agents: seq<User>, cs: seq<Commission>)
    requires cs != []
    ensures Credited(agents, cs) == Share(agents, cs[0]) + Credited(agents, cs[1..])
  {
    if agents != [] {
      CreditedSplit(agents[1..], cs);
    }
  }

  lemma {:induction false} ShareOfStranger(agents: seq<User>, c: Commission)
    requires forall a :: a in agents ==> a.id != c.agentId
    ensures Share(agents, c) == 0.0
  {
    if agents != [] {
      assert agents[0] in agents;
      ShareOfStranger(agents[1..], c);
    }
  }

  lemma {:induction false} ShareOfOwner(agents: seq<User>, c: Commission)
    requires DistinctIds(agents)
    requires c.status == Paid ==> exists a :: a in agents && a.id == c.agentId
    ensures Share(agents, c) == if c.status == Paid then Amount(c) else 0.0
  {
    if agents == [] {
    } else if c.status == Paid && c.agentId == agents[0].id {
      forall a | a in agents[1..] ensures a.id != c.agentId {
        var j :| 0 <= j < |agents[1..]| && agents[1..][j] == a;
        assert agents[j + 1] == a;
      }
      ShareOfStranger(agents[1..], c);
    } else {
      if c.status == Paid {
        var a :| a in agents && a.id == c.agentId;
        assert a != agents[0];
        assert a in agents[1..];
      }
      ShareOfOwner(agents[1..], c);
    }
  }

  /** When agent ids are distinct and every paid commission belongs to a listed
      agent, the per-agent `commissionEarned` figures add up to the paid amount:
      each paid commission is credited exactly once. */
  lemma {:induction false} RollUpAccountsForPaid(agents: seq<User>, cs: seq<Commission>)
    requires DistinctIds(agents)
    requires forall c :: c in cs && c.status == Paid ==> exists a :: a in agents && a.id == c.agentId
    ensures Credited(agents, cs) == SumWhere(cs, IsPaid)
  {
    if cs == [] {
      CreditedNothing(agents);
    } else {
      CreditedSplit(agents, cs);
      assert cs[0] in cs;
      ShareOfOwner(agents, cs[0]);
      RollUpAccountsForPaid(agents, cs[1..]);
    }
  }

  lemma {:induction false} CreditedIsPerformanceSum(agents: seq<User>, db: Store)
    ensures Credited(agents, db.commissions) == EarnedTotal(Performances(agents, db))
  {
    if agents != [] {
      CreditedIsPerformanceSum(agents[1..], db);
      assert Performances(agents, db)[1..] == Performances(agents[1..], db);
    }
  }

  function EarnedTotal(ps: seq<AgentPerformance>): real {
    if ps == [] then 0.0 else ps[0].commissionEarned + EarnedTotal(ps[1..])
  }

  /** On the dashboard itself: the agents' earned figures sum to the paid total
      whenever every paid commission is held by an agent and ids are unique. */
  lemma DashboardEarnedSumsToPaid(admin: Identity, db: Store)
    requires admin.role == Admin
    requires DistinctIds(Filter(db.users, IsAgentUser))
    requires forall c :: c in db.commissions && c.status == Paid ==>
               exists a :: a in db.users && a.role == Agent && a.id == c.agentId
    ensures var a := Dashboard(Some(admin), db, None).body.data.value;
            EarnedTotal(a.agents.performance) == a.commissions.paid.amount
  {
    var agents := Filter(db.users, IsAgentUser);
    forall c | c in db.commissions && c.status == Paid
      ensures exists a :: a in agents && a.id == c.agentId
    {
      var a :| a in db.users && a.role == Agent && a.id == c.agentId;
      assert a in agents;
    }
    RollUpAccountsForPaid(agents, db.commissions);
    CreditedIsPerformanceSum(agents, db);
  }
}
