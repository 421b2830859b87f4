/** `GET` and `POST /api/commissions`. */
module CommissionsRoute {
  import opened Wrappers
  import opened Roles
  import opened ApiResponse
  import opened Query
  import opened Db
  import Utils

  datatype CommissionQuery = CommissionQuery(page: Positive, limit: Positive, status: Option<string>, agentId: Option<string>)

  datatype CommissionFilter = CommissionFilter(agent: Option<string>, status: Option<string>)

  /** Non-admins see their own commissions only; an admin may name an agent. */
  function CommissionWhere(user: Identity, q: CommissionQuery): (w: CommissionFilter)
    ensures user.role != Admin ==> w.agent == Some(user.id)
    ensures user.role == Admin ==> w.agent == Present(q.agentId)
    ensures w.status == Present(q.status)
  {
    var agent := if user.role != Admin then Some(user.id) else Present(q.agentId);
    CommissionFilter(agent, Present(q.status))
  }

  predicate CommissionMatches(w: CommissionFilter, c: Commission) {
    && (w.agent.None? || c.agentId == w.agent.value)
    && (w.status.None? || c.status == w.status.value)
  }

  function CommissionPredicate(w: CommissionFilter): Commission -> bool {
    c => CommissionMatches(w, c)
  }

  const FetchFailed: string := "Failed to fetch commissions"

  function ListCommissions(user: Option<Identity>, q: CommissionQuery, db: Store, outage: Option<Fault>): (r: Reply<seq<Commission>>)
    ensures Consistent(r)
    ensures user.None? ==> r == ErrorReply("Unauthorized", 401)
    ensures user.Some? && outage.Some? ==>
      && (r.status == 503 <==> IsConnectivity(FaultMessage(outage.value, FetchFailed)))
      && (r.status != 503 ==> r == ErrorReply(FetchFailed, 500))
    ensures user.Some? && outage.None? ==>
      var w := CommissionWhere(user.value, q);
      && r.status == 200 && r.body.data.Some? && r.body.pagination.Some?
      && (forall c :: c in r.body.data.value ==> c in db.commissions && CommissionMatches(w, c))
      && (user.value.role != Admin ==> forall c :: c in r.body.data.value ==> c.agentId == user.value.id)
      && (Present(q.status).Some? ==> forall c :: c in r.body.data.value ==> c.status == q.status.value)
      && |r.body.data.value| == PageLength(Count(db.commissions, CommissionPredicate(w)), Skip(q.page, q.limit), q.limit)
      && IsPage(r.body.data.value, db.commissions, CommissionPredicate(w), CommissionCreatedAt, Skip(q.page, q.limit), q.limit)
      && SortedDesc(r.body.data.value, CommissionCreatedAt)
      && r.body.pagination.value == Pagination(Count(db.commissions, CommissionPredicate(w)), q.page, q.limit, Pages(Count(db.commissions, CommissionPredicate(w)), q.limit))
  {
    match user
    case None => ErrorReply("Unauthorized", 401)
    case Some(u) =>
      if outage.Some? then ReadFailure(outage.value, FetchFailed)
      else Listing(db.commissions, CommissionPredicate(CommissionWhere(u, q)), CommissionCreatedAt, q.page, q.limit,
                   "Commissions fetched successfully")
  }

  /** The raw body; only these three keys are read. */
  datatype CommissionBody = CommissionBody(agentId: Option<string>, propertyId: Option<string>, percentage: Option<real>)

  /** JavaScript truthiness of the values the handler tests. */
  predicate TruthyText(v: Option<string>) {
    v.Some? && v.value != ""
  }

  predicate TruthyNumber(v: Option<real>) {
    v.Some? && v.value != 0.0
  }

  const CreateFailed: string := "Failed to create commission"
  const AdminsOnly: string := "Only admins can create commissions"

  /** The status a new commission row starts in. */
  const InitialStatus: string := "PENDING"

  /** `POST /api/commissions`: anyone but an admin, signed in or not, gets 403;
      then an unreadable body 500, a falsy field 400, a failed read 500, an
      unknown property 404; otherwise the row snapshots the property's price
      and the commission on it, and the reply is 201. */
  function CreateCommission(user: Option<Identity>, body: Option<CommissionBody>, db: Store,
                            outage: Option<Fault>, newId: string, now: int): (o: Outcome<Commission>)
    ensures Consistent(o.reply)
    ensures o.reply.status != 201 ==> o.store == db
    ensures user.None? || user.value.role != Admin ==> o.reply == ErrorReply(AdminsOnly, 403)
    ensures o.reply.status == 400 <==>
      && user.Some? && user.value.role == Admin && body.Some?
      && !(TruthyText(body.value.agentId) && TruthyText(body.value.propertyId) && TruthyNumber(body.value.percentage))
    ensures o.reply.status == 400 ==> o.reply == ErrorReply("Missing required fields", 400)
    ensures o.reply.status == 404 ==> o.reply == ErrorReply("Property not found", 404)
    ensures o.reply.status == 404 <==>
      && user.Some? && user.value.role == Admin && body.Some? && outage.None?
      && TruthyText(body.value.agentId) && TruthyText(body.value.propertyId) && TruthyNumber(body.value.percentage)
      && (forall p :: p in db.properties ==> p.id != body.value.propertyId.value)
    ensures o.reply.status == 201 <==>
      && user.Some? && user.value.role == Admin && body.Some? && outage.None?
      && TruthyText(body.value.agentId) && TruthyText(body.value.propertyId) && TruthyNumber(body.value.percentage)
      && (exists p :: p in db.properties && p.id == body.value.propertyId.value)
    ensures o.reply.status == 201 ==>
      && body.Some? && TruthyText(body.value.agentId) && TruthyText(body.value.propertyId)
      && TruthyNumber(body.value.percentage)
      && o.reply.body.data.Some?
      && var c := o.reply.body.data.value;
      && var p := FindProperty(db.properties, body.value.propertyId.value);
      && o.store == db.(commissions := db.commissions + [c])
      && p.Some? && c.propertyPrice == p.value.fields.price
      && c.agentId == body.value.agentId.value && c.propertyId == body.value.propertyId.value
      && c.percentage == body.value.percentage.value
      && c.commissionAmount == Some(Utils.CalculateCommission(c.propertyPrice, c.percentage))
      && c.status == InitialStatus
  {
    if user.None? || user.value.role != Admin then Outcome(ErrorReply(AdminsOnly, 403), db)
    else
      match body
      case None => Outcome(ErrorReply(CreateFailed, 500), db)
      case Some(b) =>
        if !TruthyText(b.agentId) || !TruthyText(b.propertyId) || !TruthyNumber(b.percentage) then
          Outcome(ErrorReply("Missing required fields", 400), db)
        else if outage.Some? then Outcome(ErrorReply(CreateFailed, 500), db)
        else
          match FindProperty(db.properties, b.propertyId.value)
          case None => Outcome(ErrorReply("Property not found", 404), db)
          case Some(p) =>
            var price := p.fields.price;
            var c := Commission(newId, now, b.agentId.value, b.propertyId.value, b.percentage.value, price,
                                Some(Utils.CalculateCommission(price, b.percentage.value)), InitialStatus);
            Outcome(SuccessReply(c, "Commission created successfully", 201), db.(commissions := db.commissions + [c]))
  }

  /** A zero percentage is falsy and so rejected as missing. */
  lemma ZeroPercentageRejected(admin: Identity, agentId: string, propertyId: string, db: Store, outage: Option<Fault>, newId: string, now: int)
    requires admin.role == Admin
    ensures CreateCommission(Some(admin), Some(CommissionBody(Some(agentId), Some(propertyId), Some(0.0))), db, outage, newId, now).reply.status == 400
  {
  }

  /** The stored amount is the percentage of the snapshotted price: a 100%
      commission is the whole price. */
  lemma SnapshotAmount(admin: Identity, body: CommissionBody, db: Store, newId: string, now: int)
    requires admin.role == Admin
    ensures var o := CreateCommission(Some(admin), Some(body), db, None, newId, now);
            o.reply.status == 201 ==>
              var c := o.reply.body.data.value;
              c.commissionAmount.value * 100.0 == c.propertyPrice * c.percentage
              && (c.percentage == 100.0 ==> c.commissionAmount == Some(c.propertyPrice))
  {
    var o := CreateCommission(Some(admin), Some(body), db, None, newId, now);
    if o.reply.status == 201 {
      var c := o.reply.body.data.value;
      Utils.CommissionProperties(c.propertyPrice, c.percentage);
    }
  }
}
