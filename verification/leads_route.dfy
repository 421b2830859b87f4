/** `GET` and `POST /api/leads` with identity from the request token. */
module LeadsRoute {
  import opened Wrappers
  import opened Roles
  import opened Text
  import opened Validations
  import opened ApiResponse
  import opened Query
  import opened Db
  import Utils

  datatype LeadQuery = LeadQuery(page: Positive, limit: Positive, search: Option<string>, status: Option<string>, source: Option<string>)

  /** The `where` object: each absent part imposes nothing. */
  datatype LeadFilter = LeadFilter(assignee: Option<string>, search: Option<string>, status: Option<string>, source: Option<string>)

  /** Non-admins are confined to their own leads; the other parts come from
      the query string, an empty value counting as absent. */
  function LeadWhere(user: Identity, q: LeadQuery): (w: LeadFilter)
    ensures w.assignee == if user.role == Admin then None else Some(user.id)
    ensures w.search == Present(q.search) && w.status == Present(q.status) && w.source == Present(q.source)
  {
    LeadFilter(if user.role != Admin then Some(user.id) else None, Present(q.search), Present(q.status), Present(q.source))
  }

  /** Search is a case-insensitive substring match on any of the four contact
      fields (a missing e-mail matches nothing). */
  predicate MatchesSearch(l: Lead, term: string) {
    || ContainsInsensitive(l.fields.firstName, term)
    || ContainsInsensitive(l.fields.lastName, term)
    || (l.fields.email.Some? && ContainsInsensitive(l.fields.email.value, term))
    || ContainsInsensitive(l.fields.phone, term)
  }

  /** All parts of the filter are conjoined; status and source match exactly. */
  predicate LeadMatches(w: LeadFilter, l: Lead) {
    && (w.assignee.None? || l.assignedAgentId == w.assignee)
    && (w.search.None? || MatchesSearch(l, w.search.value))
    && (w.status.None? || LeadStatusName(l.fields.status) == w.status.value)
    && (w.source.None? || LeadSourceName(l.fields.source) == w.source.value)
  }

  function LeadPredicate(w: LeadFilter): Lead -> bool {
    l => LeadMatches(w, l)
  }

  const FetchFailed: string := "Failed to fetch leads"

  function ListLeads(user: Option<Identity>, q: LeadQuery, db: Store, outage: Option<Fault>): (r: Reply<seq<Lead>>)
    ensures Consistent(r)
    ensures user.None? ==> r == ErrorReply("Unauthorized", 401)
    ensures user.Some? && outage.Some? ==>
      && (r.status == 503 <==> IsConnectivity(FaultMessage(outage.value, FetchFailed)))
      && (r.status != 503 ==> r == ErrorReply(FetchFailed, 500))
    ensures user.Some? && outage.None? ==>
      var w := LeadWhere(user.value, q);
      && r.status == 200 && r.body.data.Some? && r.body.pagination.Some?
      && (forall l :: l in r.body.data.value ==> l in db.leads && LeadMatches(w, l))
      && (user.value.role != Admin ==> forall l :: l in r.body.data.value ==> l.assignedAgentId == Some(user.value.id))
      && |r.body.data.value| == PageLength(Count(db.leads, LeadPredicate(w)), Skip(q.page, q.limit), q.limit)
      && IsPage(r.body.data.value, db.leads, LeadPredicate(w), LeadCreatedAt, Skip(q.page, q.limit), q.limit)
      && SortedDesc(r.body.data.value, LeadCreatedAt)
      && r.body.pagination.value == Pagination(Count(db.leads, LeadPredicate(w)), q.page, q.limit, Pages(Count(db.leads, LeadPredicate(w)), q.limit))
  {
    match user
    case None => ErrorReply("Unauthorized", 401)
    case Some(u) =>
      if outage.Some? then ReadFailure(outage.value, FetchFailed)
      else Listing(db.leads, LeadPredicate(LeadWhere(u, q)), LeadCreatedAt, q.page, q.limit, "Leads fetched successfully")
  }

  /** Every lead a caller is shown is one `canAccessLead` grants them. */
  lemma ListedLeadsAccessible(user: Identity, q: LeadQuery, db: Store)
    ensures var r := ListLeads(Some(user), q, db, None);
            forall l :: l in r.body.data.value ==> Utils.CanAccessLead(l.assignedAgentId, user.id, user.role)
  {
  }

  /** The page example: fifteen matching rows, pages of ten, second page. */
  lemma SecondPageOfFifteen(user: Identity, db: Store, q: LeadQuery)
    requires q.page == 2 && q.limit == 10
    requires Count(db.leads, LeadPredicate(LeadWhere(user, q))) == 15
    ensures var r := ListLeads(Some(user), q, db, None);
            |r.body.data.value| == 5 && r.body.pagination.value.pages == 2
  {
    assert Pages(15, 10) == 2;
  }

  const CreateFailed: string := "Failed to create lead"

  /** The lead row a caller creates: the validated fields, assigned to the
      caller unless the caller is an admin, who leaves it unassigned. */
  function NewLead(user: Identity, input: LeadInput, newId: string, now: int): Lead {
    Lead(newId, now, input, if user.role == Admin then None else Some(user.id))
  }

  /** `POST /api/leads`: 401 without identity, 500 for an unreadable body,
      400 with the first validation message, 500 if the insert fails, else 201. */
  function CreateLead(user: Option<Identity>, body: Option<LeadBody>, f: Formats, db: Store,
                      outage: Option<Fault>, newId: string, now: int): (o: Outcome<Lead>)
    ensures Consistent(o.reply)
    ensures o.reply.status != 201 ==> o.store == db
    ensures user.None? ==> o.reply == ErrorReply("Unauthorized", 401)
    ensures user.Some? && body.None? ==> o.reply == ErrorReply(CreateFailed, 500)
    ensures user.Some? && body.Some? && ValidateLead(body.value, f).Failure? ==>
      o.reply == ErrorReply(ValidateLead(body.value, f).error, 400)
    ensures user.Some? && body.Some? && ValidateLead(body.value, f).Success? && outage.Some? ==>
      o.reply == ErrorReply(CreateFailed, 500)
    ensures o.reply.status == 201 <==> user.Some? && body.Some? && ValidateLead(body.value, f).Success? && outage.None?
    ensures o.reply.status == 201 ==>
      && o.reply.body.data.Some?
      && var l := o.reply.body.data.value;
      && o.store == db.(leads := db.leads + [l])
      && l.id == newId && l.fields == ValidateLead(body.value, f).value
      && l.assignedAgentId == (if user.value.role == Admin then None else Some(user.value.id))
  {
    match user
    case None => Outcome(ErrorReply("Unauthorized", 401), db)
    case Some(u) =>
      match body
      case None => Outcome(ErrorReply(CreateFailed, 500), db)
      case Some(b) =>
        match ValidateLead(b, f)
        case Failure(message) => Outcome(ErrorReply(message, 400), db)
        case Success(input) =>
          if outage.Some? then Outcome(ErrorReply(CreateFailed, 500), db)
          else
            var lead := NewLead(u, input, newId, now);
            Outcome(SuccessReply(lead, "Lead created successfully", 201), db.(leads := db.leads + [lead]))
  }

  /** A non-admin cannot plant a lead on another agent: whatever assignee the
      body names, the created lead is the caller's. */
  lemma CreatedLeadIsCallers(user: Identity, body: LeadBody, f: Formats, db: Store, newId: string, now: int)
    requires user.role != Admin
    ensures var o := CreateLead(Some(user), Some(body), f, db, None, newId, now);
            o.reply.status == 201 ==> Utils.CanAccessLead(o.reply.body.data.value.assignedAgentId, user.id, user.role)
  {
  }
}
