/** The session-based copies of `GET /api/leads` and `GET /api/properties`.
    The caller's identity comes from the NextAuth session rather than the
    request token, and a failed read is always a 500: these copies have no
    connectivity case. Their `POST` handlers are the token routes' handlers
    with the identity taken from the session. */
module SessionRoutes {
  import opened Wrappers
  import opened Roles
  import opened ApiResponse
  import opened Query
  import opened Db
  import opened Validations
  import LeadsRoute
  import PropertiesRoute

  function ListLeads(session: Option<Identity>, q: LeadsRoute.LeadQuery, db: Store, outage: Option<Fault>): (r: Reply<seq<Lead>>)
    ensures Consistent(r)
    ensures r.status != 503
    ensures session.None? ==> r == ErrorReply("Unauthorized", 401)
    ensures session.Some? && outage.Some? ==> r == ErrorReply(LeadsRoute.FetchFailed, 500)
    ensures session.Some? && outage.None? ==>
      var w := LeadsRoute.LeadWhere(session.value, q);
      && r.status == 200 && r.body.data.Some? && r.body.pagination.Some?
      && (forall l :: l in r.body.data.value ==> l in db.leads && LeadsRoute.LeadMatches(w, l))
      && |r.body.data.value| == PageLength(Count(db.leads, LeadsRoute.LeadPredicate(w)), Skip(q.page, q.limit), q.limit)
      && IsPage(r.body.data.value, db.leads, LeadsRoute.LeadPredicate(w), LeadCreatedAt, Skip(q.page, q.limit), q.limit)
      && SortedDesc(r.body.data.value, LeadCreatedAt)
      && r.body.pagination.value == Pagination(Count(db.leads, LeadsRoute.LeadPredicate(w)), q.page, q.limit, Pages(Count(db.leads, LeadsRoute.LeadPredicate(w)), q.limit))
  {
    match session
    case None => ErrorReply("Unauthorized", 401)
    case Some(u) =>
      if outage.Some? then ErrorReply(LeadsRoute.FetchFailed, 500)
      else Listing(db.leads, LeadsRoute.LeadPredicate(LeadsRoute.LeadWhere(u, q)), LeadCreatedAt,
                   q.page, q.limit, "Leads fetched successfully")
  }

  /** The two leads listings give the same reply, except that where the
      token route reports an unreachable database (503) this one says 500. */
  lemma LeadsAgreeExceptUnavailable(user: Option<Identity>, q: LeadsRoute.LeadQuery, db: Store, outage: Option<Fault>)
    ensures var t := LeadsRoute.ListLeads(user, q, db, outage);
            && (t.status != 503 ==> ListLeads(user, q, db, outage) == t)
            && (t.status == 503 ==> ListLeads(user, q, db, outage) == ErrorReply(LeadsRoute.FetchFailed, 500))
  {
  }

  function ListProperties(session: Option<Identity>, q: PropertiesRoute.PropertyQuery, db: Store, outage: Option<Fault>): (r: Reply<seq<Property>>)
    ensures Consistent(r)
    ensures r.status != 503
    ensures session.None? ==> r == ErrorReply("Unauthorized", 401)
    ensures session.Some? && outage.Some? ==> r == ErrorReply(PropertiesRoute.FetchFailed, 500)
    ensures session.Some? && outage.None? ==>
      var w := PropertiesRoute.PropertyWhere(session.value, q);
      && r.status == 200 && r.body.data.Some? && r.body.pagination.Some?
      && (forall p :: p in r.body.data.value ==> p in db.properties && PropertiesRoute.PropertyMatches(w, p))
      && |r.body.data.value| == PageLength(Count(db.properties, PropertiesRoute.PropertyPredicate(w)), Skip(q.page, q.limit), q.limit)
      && IsPage(r.body.data.value, db.properties, PropertiesRoute.PropertyPredicate(w), PropertyCreatedAt, Skip(q.page, q.limit), q.limit)
      && SortedDesc(r.body.data.value, PropertyCreatedAt)
      && r.body.pagination.value == Pagination(Count(db.properties, PropertiesRoute.PropertyPredicate(w)), q.page, q.limit, Pages(Count(db.properties, PropertiesRoute.PropertyPredicate(w)), q.limit))
  {
    match session
    case None => ErrorReply("Unauthorized", 401)
    case Some(u) =>
      if outage.Some? then ErrorReply(PropertiesRoute.FetchFailed, 500)
      else Listing(db.properties, PropertiesRoute.PropertyPredicate(PropertiesRoute.PropertyWhere(u, q)), PropertyCreatedAt,
                   q.page, q.limit, "Properties fetched successfully")
  }

  /** Likewise for the two properties listings. */
  lemma PropertiesAgreeExceptUnavailable(user: Option<Identity>, q: PropertiesRoute.PropertyQuery, db: Store, outage: Option<Fault>)
    ensures var t := PropertiesRoute.ListProperties(user, q, db, outage);
            && (t.status != 503 ==> ListProperties(user, q, db, outage) == t)
            && (t.status == 503 ==> ListProperties(user, q, db, outage) == ErrorReply(PropertiesRoute.FetchFailed, 500))
  {
  }

  /** The session `POST /api/leads` makes the same decisions as the token
      route: no session user is a 401, the first validation message is a
      400, and a non-admin's lead is assigned to them while an admin's is
      left unassigned. */
  lemma SessionLeadCreation(session: Option<Identity>, body: Option<LeadBody>, f: Formats, db: Store,
                            outage: Option<Fault>, newId: string, now: int)
    ensures var o := LeadsRoute.CreateLead(session, body, f, db, outage, newId, now);
            && (session.None? ==> o.reply.status == 401 && o.store == db)
            && (session.Some? && body.Some? && ValidateLead(body.value, f).Failure? ==>
                  o.reply == ErrorReply(ValidateLead(body.value, f).error, 400))
            && (o.reply.status == 201 ==>
                  o.reply.body.data.value.assignedAgentId == if session.value.role == Admin then None else Some(session.value.id))
  {
  }

  /** The session `POST /api/properties` likewise: 401 without a session user,
      400 for an invalid body, 403 when a non-admin names another agent. */
  lemma SessionPropertyCreation(session: Option<Identity>, body: Option<PropertyBody>, db: Store,
                                outage: Option<Fault>, newId: string, now: int)
    ensures var o := PropertiesRoute.CreateProperty(session, body, db, outage, newId, now);
            && (session.None? ==> o.reply.status == 401 && o.store == db)
            && (session.Some? && body.Some? && ValidateProperty(body.value).Failure? ==>
                  o.reply == ErrorReply(ValidateProperty(body.value).error, 400))
            && (session.Some? && body.Some? && ValidateProperty(body.value).Success? && session.value.role != Admin
                && ValidateProperty(body.value).value.agentId != session.value.id ==>
                  o.reply == ErrorReply(PropertiesRoute.OnlySelf, 403) && o.store == db)
  {
  }
}
