/** `GET` and `POST /api/visits`. */
module VisitsRoute {
  import opened Wrappers
  import opened Roles
  import opened Validations
  import opened ApiResponse
  import opened Query
  import opened Db

  datatype VisitQuery = VisitQuery(page: Positive, limit: Positive, status: Option<string>, agentId: Option<string>)

  datatype VisitFilter = VisitFilter(agent: Option<string>, status: Option<string>)

  /** Non-admins are confined to their own visits and their `agentId` parameter
      is ignored; an admin's `agentId` parameter selects one agent's visits. */
  function VisitWhere(user: Identity, q: VisitQuery): (w: VisitFilter)
    ensures user.role != Admin ==> w.agent == Some(user.id)
    ensures user.role == Admin ==> w.agent == Present(q.agentId)
    ensures w.status == Present(q.status)
  {
    var own := if user.role != Admin then Some(user.id) else None;
    var agent := if Present(q.agentId).Some? && user.role == Admin then Present(q.agentId) else own;
    VisitFilter(agent, Present(q.status))
  }

  predicate VisitMatches(w: VisitFilter, v: Visit) {
    && (w.agent.None? || v.fields.assignedAgentId == w.agent.value)
    && (w.status.None? || VisitStatusName(v.status) == w.status.value)
  }

  function VisitPredicate(w: VisitFilter): Visit -> bool {
    v => VisitMatches(w, v)
  }

  const FetchFailed: string := "Failed to fetch visits"

  /** Pages of visits, latest scheduled first. */
  function ListVisits(user: Option<Identity>, q: VisitQuery, db: Store, outage: Option<Fault>): (r: Reply<seq<Visit>>)
    ensures Consistent(r)
    ensures user.None? ==> r == ErrorReply("Unauthorized", 401)
    ensures user.Some? && outage.Some? ==>
      && (r.status == 503 <==> IsConnectivity(FaultMessage(outage.value, FetchFailed)))
      && (r.status != 503 ==> r == ErrorReply(FetchFailed, 500))
    ensures user.Some? && outage.None? ==>
      var w := VisitWhere(user.value, q);
      && r.status == 200 && r.body.data.Some? && r.body.pagination.Some?
      && (forall v :: v in r.body.data.value ==> v in db.visits && VisitMatches(w, v))
      && (user.value.role != Admin ==> forall v :: v in r.body.data.value ==> v.fields.assignedAgentId == user.value.id)
      && (user.value.role == Admin && Present(q.agentId).Some? ==>
            forall v :: v in r.body.data.value ==> v.fields.assignedAgentId == q.agentId.value)
      && |r.body.data.value| == PageLength(Count(db.visits, VisitPredicate(w)), Skip(q.page, q.limit), q.limit)
      && IsPage(r.body.data.value, db.visits, VisitPredicate(w), VisitScheduledAt, Skip(q.page, q.limit), q.limit)
      && SortedDesc(r.body.data.value, VisitScheduledAt)
      && r.body.pagination.value == Pagination(Count(db.visits, VisitPredicate(w)), q.page, q.limit, Pages(Count(db.visits, VisitPredicate(w)), q.limit))
  {
    match user
    case None => ErrorReply("Unauthorized", 401)
    case Some(u) =>
      if outage.Some? then ReadFailure(outage.value, FetchFailed)
      else Listing(db.visits, VisitPredicate(VisitWhere(u, q)), VisitScheduledAt, q.page, q.limit, "Visits fetched successfully")
  }

  /** A non-admin's `agentId` parameter changes nothing. */
  lemma AgentParameterIgnoredForNonAdmin(user: Identity, q: VisitQuery, agentId: Option<string>, db: Store, outage: Option<Fault>)
    requires user.role != Admin
    ensures ListVisits(Some(user), q, db, outage) == ListVisits(Some(user), q.(agentId := agentId), db, outage)
  {
  }

  const CreateFailed: string := "Failed to schedule visit"
  const Missing: string := "Lead or property not found"

  /** `POST /api/visits`: 401, unreadable body 500, invalid body 400, failed
      lookups 500, a missing lead or property 404, else the visit is stored as
      validated (its agent is not checked against the caller) and 201. */
  function CreateVisit(user: Option<Identity>, body: Option<VisitBody>, f: Formats, db: Store,
                       outage: Option<Fault>, newId: string, now: int): (o: Outcome<Visit>)
    ensures Consistent(o.reply)
    ensures o.reply.status != 201 ==> o.store == db
    ensures user.None? ==> o.reply == ErrorReply("Unauthorized", 401)
    ensures user.Some? && body.None? ==> o.reply == ErrorReply(CreateFailed, 500)
    ensures user.Some? && body.Some? && ValidateVisit(body.value, f).Failure? ==>
      o.reply == ErrorReply(ValidateVisit(body.value, f).error, 400)
    ensures o.reply.status == 404 <==>
      && user.Some? && body.Some? && ValidateVisit(body.value, f).Success? && outage.None?
      && (FindLead(db.leads, ValidateVisit(body.value, f).value.leadId).None?
          || FindProperty(db.properties, ValidateVisit(body.value, f).value.propertyId).None?)
    ensures o.reply.status == 404 ==> o.reply == ErrorReply(Missing, 404)
    ensures o.reply.status == 201 <==>
      && user.Some? && body.Some? && ValidateVisit(body.value, f).Success? && outage.None?
      && (exists l :: l in db.leads && l.id == ValidateVisit(body.value, f).value.leadId)
      && (exists p :: p in db.properties && p.id == ValidateVisit(body.value, f).value.propertyId)
    ensures o.reply.status == 201 ==>
      && o.reply.body.data.Some?
      && var v := o.reply.body.data.value;
      && var input := ValidateVisit(body.value, f).value;
      && o.store == db.(visits := db.visits + [v])
      && v == Visit(newId, now, input, f.instant(input.scheduledAt), Scheduled)
  {
    match user
    case None => Outcome(ErrorReply("Unauthorized", 401), db)
    case Some(u) =>
      match body
      case None => Outcome(ErrorReply(CreateFailed, 500), db)
      case Some(b) =>
        match ValidateVisit(b, f)
        case Failure(message) => Outcome(ErrorReply(message, 400), db)
        case Success(input) =>
          if outage.Some? then Outcome(ErrorReply(CreateFailed, 500), db)
          else if FindLead(db.leads, input.leadId).None? || FindProperty(db.properties, input.propertyId).None? then
            Outcome(ErrorReply(Missing, 404), db)
          else
            var v := Visit(newId, now, input, f.instant(input.scheduledAt), Scheduled);
            Outcome(SuccessReply(v, "Visit scheduled successfully", 201), db.(visits := db.visits + [v]))
  }
}
