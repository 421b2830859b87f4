/** `GET` and `POST /api/properties` with identity from the request token. */
module PropertiesRoute {
  import opened Wrappers
  import opened Roles
  import opened Text
  import opened Validations
  import opened ApiResponse
  import opened Query
  import opened Db
  import Utils

  datatype PropertyQuery = PropertyQuery(page: Positive, limit: Positive, search: Option<string>, status: Option<string>, kind: Option<string>)

  datatype PropertyFilter = PropertyFilter(agent: Option<string>, search: Option<string>, status: Option<string>, kind: Option<string>)

  function PropertyWhere(user: Identity, q: PropertyQuery): (w: PropertyFilter)
    ensures w.agent == if user.role == Admin then None else Some(user.id)
    ensures w.search == Present(q.search) && w.status == Present(q.status) && w.kind == Present(q.kind)
  {
    PropertyFilter(if user.role != Admin then Some(user.id) else None, Present(q.search), Present(q.status), Present(q.kind))
  }

  /** Search is a case-insensitive substring match on title, address or city. */
  predicate MatchesSearch(p: Property, term: string) {
    || ContainsInsensitive(p.fields.title, term)
    || ContainsInsensitive(p.fields.address, term)
    || ContainsInsensitive(p.fields.city, term)
  }

  predicate PropertyMatches(w: PropertyFilter, p: Property) {
    && (w.agent.None? || p.fields.agentId == w.agent.value)
    && (w.search.None? || MatchesSearch(p, w.search.value))
    && (w.status.None? || PropertyStatusName(p.fields.status) == w.status.value)
    && (w.kind.None? || PropertyTypeName(p.fields.kind) == w.kind.value)
  }

  function PropertyPredicate(w: PropertyFilter): Property -> bool {
    p => PropertyMatches(w, p)
  }

  const FetchFailed: string := "Failed to fetch properties"

  function ListProperties(user: Option<Identity>, q: PropertyQuery, db: Store, outage: Option<Fault>): (r: Reply<seq<Property>>)
    ensures Consistent(r)
    ensures user.None? ==> r == ErrorReply("Unauthorized", 401)
    ensures user.Some? && outage.Some? ==>
      && (r.status == 503 <==> IsConnectivity(FaultMessage(outage.value, FetchFailed)))
      && (r.status != 503 ==> r == ErrorReply(FetchFailed, 500))
    ensures user.Some? && outage.None? ==>
      var w := PropertyWhere(user.value, q);
      && r.status == 200 && r.body.data.Some? && r.body.pagination.Some?
      && (forall p :: p in r.body.data.value ==> p in db.properties && PropertyMatches(w, p))
      && (user.value.role != Admin ==> forall p :: p in r.body.data.value ==> p.fields.agentId == user.value.id)
      && |r.body.data.value| == PageLength(Count(db.properties, PropertyPredicate(w)), Skip(q.page, q.limit), q.limit)
      && IsPage(r.body.data.value, db.properties, PropertyPredicate(w), PropertyCreatedAt, Skip(q.page, q.limit), q.limit)
      && SortedDesc(r.body.data.value, PropertyCreatedAt)
      && r.body.pagination.value == Pagination(Count(db.properties, PropertyPredicate(w)), q.page, q.limit, Pages(Count(db.properties, PropertyPredicate(w)), q.limit))
  {
    match user
    case None => ErrorReply("Unauthorized", 401)
    case Some(u) =>
      if outage.Some? then ReadFailure(outage.value, FetchFailed)
      else Listing(db.properties, PropertyPredicate(PropertyWhere(u, q)), PropertyCreatedAt, q.page, q.limit,
                   "Properties fetched successfully")
  }

  /** Every property a caller is shown is one `canAccessProperty` grants them. */
  lemma ListedPropertiesAccessible(user: Identity, q: PropertyQuery, db: Store)
    ensures var r := ListProperties(Some(user), q, db, None);
            forall p :: p in r.body.data.value ==> Utils.CanAccessProperty(p.fields.agentId, user.id, user.role)
  {
  }

  const CreateFailed: string := "Failed to create property"
  const OnlySelf: string := "You can only assign properties to yourself"

  /** `POST /api/properties`: 401, unreadable body 500, invalid body 400, a
      non-admin naming another agent 403, failed insert 500, else 201. */
  function CreateProperty(user: Option<Identity>, body: Option<PropertyBody>, db: Store,
                          outage: Option<Fault>, newId: string, now: int): (o: Outcome<Property>)
    ensures Consistent(o.reply)
    ensures o.reply.status != 201 ==> o.store == db
    ensures user.None? ==> o.reply == ErrorReply("Unauthorized", 401)
    ensures user.Some? && body.None? ==> o.reply == ErrorReply(CreateFailed, 500)
    ensures user.Some? && body.Some? && ValidateProperty(body.value).Failure? ==>
      o.reply == ErrorReply(ValidateProperty(body.value).error, 400)
    ensures o.reply.status == 403 <==>
      && user.Some? && body.Some? && ValidateProperty(body.value).Success?
      && user.value.role != Admin && ValidateProperty(body.value).value.agentId != user.value.id
    ensures o.reply.status == 403 ==> o.reply == ErrorReply(OnlySelf, 403)
    ensures o.reply.status == 201 <==>
      && user.Some? && body.Some? && ValidateProperty(body.value).Success? && outage.None?
      && Utils.CanAccessProperty(ValidateProperty(body.value).value.agentId, user.value.id, user.value.role)
    ensures o.reply.status == 201 ==>
      && o.reply.body.data.Some?
      && var p := o.reply.body.data.value;
      && o.store == db.(properties := db.properties + [p])
      && p == Property(newId, now, ValidateProperty(body.value).value)
  {
    match user
    case None => Outcome(ErrorReply("Unauthorized", 401), db)
    case Some(u) =>
      match body
      case None => Outcome(ErrorReply(CreateFailed, 500), db)
      case Some(b) =>
        match ValidateProperty(b)
        case Failure(message) => Outcome(ErrorReply(message, 400), db)
        case Success(input) =>
          if u.role != Admin && input.agentId != u.id then Outcome(ErrorReply(OnlySelf, 403), db)
          else if outage.Some? then Outcome(ErrorReply(CreateFailed, 500), db)
          else
            var p := Property(newId, now, input);
            Outcome(SuccessReply(p, "Property created successfully", 201), db.(properties := db.properties + [p]))
  }

  /** Validation comes before the ownership check: an invalid body is a 400
      even when it also names another agent. */
  lemma ValidationBeforeOwnership(user: Identity, body: PropertyBody, db: Store, outage: Option<Fault>, newId: string, now: int)
    requires ValidateProperty(body).Failure?
    ensures CreateProperty(Some(user), Some(body), db, outage, newId, now).reply.status == 400
  {
  }
}
