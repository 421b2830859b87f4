/** The relational tables as in-memory sequences of records, the faults the
    persistence layer can raise, and the response shapes every list handler
    shares. */
module Db {
  import opened Wrappers
  import opened Roles
  import opened Text
  import opened Validations
  import opened ApiResponse
  import opened Query

  datatype AgentDetails = AgentDetails(status: string)

  datatype User = User(
    id: string, email: string, password: Option<string>,
    firstName: Option<string>, lastName: Option<string>, phone: Option<string>, avatar: Option<string>,
    role: Role, isActive: bool, lastLogin: Option<int>, agentDetails: Option<AgentDetails>)

  /** A property row: its id, creation instant and the validated fields it was created with. */
  datatype Property = Property(id: string, createdAt: int, fields: PropertyInput)

  /** A lead row; `assignedAgentId` is `None` while no agent is assigned. */
  datatype Lead = Lead(id: string, createdAt: int, fields: LeadInput, assignedAgentId: Option<string>)

  /** A visit row; `scheduledAt` is the instant of the validated date-time string. */
  datatype Visit = Visit(id: string, createdAt: int, fields: VisitInput, scheduledAt: int, status: VisitStatus)

  /** A commission row; amount and price are copied when the row is created. */
  datatype Commission = Commission(
    id: string, createdAt: int, agentId: string, propertyId: string, percentage: real,
    propertyPrice: real, commissionAmount: Option<real>, status: string)

  datatype Store = Store(
    users: seq<User>, properties: seq<Property>, leads: seq<Lead>,
    visits: seq<Visit>, commissions: seq<Commission>)

  /** What a failing database call throws: an `Error` with a message, or some
      other value. */
  datatype Fault = ErrorObject(message: string) | NonError

  /** A handler's reply together with the store it leaves behind. */
  datatype Outcome<T> = Outcome(reply: Reply<T>, store: Store)

  function LeadCreatedAt(l: Lead): int { l.createdAt }
  function PropertyCreatedAt(p: Property): int { p.createdAt }
  function CommissionCreatedAt(c: Commission): int { c.createdAt }
  function VisitScheduledAt(v: Visit): int { v.scheduledAt }

  /** A query-string value as the handlers test it: the empty string counts as absent. */
  function Present(v: Option<string>): (r: Option<string>)
    ensures r.Some? <==> v.Some? && v.value != ""
    ensures r.Some? ==> r == v
  {
    if v.Some? && v.value != "" then v else None
  }

  /** `findUnique({ where: { id } })` on properties. */
  function FindProperty(ps: seq<Property>, id: string): (r: Option<Property>)
    ensures r.Some? ==> r.value in ps && r.value.id == id
    ensures r.None? <==> forall p :: p in ps ==> p.id != id
  {
    if ps == [] then None
    else if ps[0].id == id then Some(ps[0])
    else FindProperty(ps[1..], id)
  }

  /** `findUnique({ where: { id } })` on leads. */
  function FindLead(ls: seq<Lead>, id: string): (r: Option<Lead>)
    ensures r.Some? ==> r.value in ls && r.value.id == id
    ensures r.None? <==> forall l :: l in ls ==> l.id != id
  {
    if ls == [] then None
    else if ls[0].id == id then Some(ls[0])
    else FindLead(ls[1..], id)
  }

  /** `findUnique({ where: { email } })` on users. */
  function FindUserByEmail(us: seq<User>, email: string): (r: Option<User>)
    ensures r.Some? ==> r.value in us && r.value.email == email
    ensures r.None? <==> forall u :: u in us ==> u.email != email
  {
    if us == [] then None
    else if us[0].email == email then Some(us[0])
    else FindUserByEmail(us[1..], email)
  }

  /** No two accounts share an e-mail address (the column is unique). */
  predicate UniqueEmails(us: seq<User>) {
    forall i, j :: 0 <= i < j < |us| ==> us[i].email != us[j].email
  }

  /** On a table with unique addresses, the row `FindUserByEmail` returns is the
      only one with that address, and it is found whenever one exists. */
  lemma {:induction false} UniqueEmailLookup(us: seq<User>, email: string)
    requires UniqueEmails(us)
    ensures forall u :: u in us && u.email == email ==> FindUserByEmail(us, email) == Some(u)
  {
    if us != [] {
      forall u | u in us && u.email == email ensures FindUserByEmail(us, email) == Some(u) {
        var j :| 0 <= j < |us| && us[j] == u;
        if us[0].email != email {
          assert j > 0;
          assert us[1..][j - 1] == u;
          assert UniqueEmails(us[1..]) by {
            forall a, b | 0 <= a < b < |us[1..]| ensures us[1..][a].email != us[1..][b].email {
              assert us[1..][a] == us[a + 1] && us[1..][b] == us[b + 1];
            }
          }
          UniqueEmailLookup(us[1..], email);
        }
      }
    }
  }

  // ---------------------------------------------------------------- shared replies

  /** The error text a handler inspects: an `Error`'s message, else the fallback. */
  function FaultMessage(f: Fault, fallback: string): string {
    match f
    case ErrorObject(m) => m
    case NonError => fallback
  }

  /** The substring test by which a failure is taken for a lost database connection. */
  predicate IsConnectivity(message: string) {
    || Contains(message, "connect")
    || Contains(message, "ECONNREFUSED")
    || Contains(message, "ENOTFOUND")
    || Contains(message, "Connection refused")
  }

  const Unavailable: string := "Database connection unavailable. Using fallback data."

  /** How a failed read is reported: 503 for a connectivity failure, else 500
      with the handler's own message. */
  function ReadFailure<T>(fault: Fault, fallback: string): (r: Reply<T>)
    ensures Consistent(r) && !r.body.success
    ensures r.status == 503 <==> IsConnectivity(FaultMessage(fault, fallback))
    ensures r.status == 503 ==> r.body.error == Some(Unavailable)
    ensures r.status != 503 ==> r == ErrorReply(fallback, 500)
  {
    if IsConnectivity(FaultMessage(fault, fallback)) then ErrorReply(Unavailable, 503)
    else ErrorReply(fallback, 500)
  }

  /** The first row of page `page` when pages hold `limit` rows. */
  function Skip(page: Positive, limit: Positive): nat {
    (page - 1) * limit
  }

  /** The paginated reply of a list handler: the page of matching rows in
      descending key order, and the count of all matching rows. */
  function Listing<T(!new)>(table: seq<T>, p: T -> bool, key: T -> int, page: Positive, limit: Positive, message: string): (r: Reply<seq<T>>)
    ensures r.status == 200 && Consistent(r) && r.body.success
    ensures r.body.message == Some(message)
    ensures r.body.data.Some? && r.body.pagination.Some?
    ensures forall x :: x in r.body.data.value ==> x in table && p(x)
    ensures SortedDesc(r.body.data.value, key)
    ensures r.body.pagination.value == Pagination(Count(table, p), page, limit, Pages(Count(table, p), limit))
    ensures |r.body.data.value| == PageLength(Count(table, p), Skip(page, limit), limit)
    ensures IsPage(r.body.data.value, table, p, key, Skip(page, limit), limit)
  {
    var rows := FindMany(table, p, key, Skip(page, limit), limit);
    var total := Count(table, p);
    FindManyIsPage(table, p, key, Skip(page, limit), limit);
    Reply(200, PaginatedResponse(rows, total, page, limit, Some(message)))
  }
}
