/** The input schemas of `src/lib/validations.ts`, each as a function from the
    raw JSON body to either the validated record (defaults filled in) or the
    message of the first issue. Issues are reported in the order the schema lists
    its fields, and within a field in the order of its checks, so the first
    failing check of the first failing field supplies the message.

    A raw body gives each field as `None` when the key is absent; the format
    checks the schemas delegate (e-mail, ISO date-time) are parameters. */
module Validations {
  import opened Wrappers

  /** Format checks performed by the validation library, and the conversion of
      an accepted date-time string to an instant (milliseconds). */
  datatype Formats = Formats(isEmail: string -> bool, isDateTime: string -> bool, instant: string -> int)

  // ---------------------------------------------------------------- enums

  datatype PropertyType = Apartment | Villa | Commercial | Land | House | Penthouse
  datatype PropertyStatus = Available | Sold | Rented | UnderOffer | OffMarket
  datatype Furnishing = Unfurnished | SemiFurnished | FullyFurnished
  datatype LeadType = Buyer | Seller | Renter
  datatype LeadSource = Facebook | Website | WhatsApp | Referral | PhoneCall | EmailSource | OtherSource
  datatype LeadStatus = New | Contacted | Interested | SiteVisitScheduled | Negotiating | ClosedWon | ClosedLost | Dead
  datatype VisitStatus = Scheduled | Completed | NoShow | Rescheduled | Cancelled
  datatype ActivityType = Call | EmailSent | WhatsAppMessage | Sms | Meeting | SiteVisit | ProposalSent | Note

  function PropertyTypeName(e: PropertyType): string {
    match e
    case Apartment => "APARTMENT" case Villa => "VILLA" case Commercial => "COMMERCIAL"
    case Land => "LAND" case House => "HOUSE" case Penthouse => "PENTHOUSE"
  }
  const PropertyTypes: seq<PropertyType> := [Apartment, Villa, Commercial, Land, House, Penthouse]

  function PropertyStatusName(e: PropertyStatus): string {
    match e
    case Available => "AVAILABLE" case Sold => "SOLD" case Rented => "RENTED"
    case UnderOffer => "UNDER_OFFER" case OffMarket => "OFF_MARKET"
  }
  const PropertyStatuses: seq<PropertyStatus> := [Available, Sold, Rented, UnderOffer, OffMarket]

  function FurnishingName(e: Furnishing): string {
    match e
    case Unfurnished => "UNFURNISHED" case SemiFurnished => "SEMI_FURNISHED" case FullyFurnished => "FULLY_FURNISHED"
  }
  const Furnishings: seq<Furnishing> := [Unfurnished, SemiFurnished, FullyFurnished]

  function LeadTypeName(e: LeadType): string {
    match e
    case Buyer => "BUYER" case Seller => "SELLER" case Renter => "RENTER"
  }
  const LeadTypes: seq<LeadType> := [Buyer, Seller, Renter]

  function LeadSourceName(e: LeadSource): string {
    match e
    case Facebook => "FACEBOOK" case Website => "WEBSITE" case WhatsApp => "WHATSAPP"
    case Referral => "REFERRAL" case PhoneCall => "PHONE_CALL" case EmailSource => "EMAIL"
    case OtherSource => "OTHER"
  }
  const LeadSources: seq<LeadSource> := [Facebook, Website, WhatsApp, Referral, PhoneCall, EmailSource, OtherSource]

  function LeadStatusName(e: LeadStatus): string {
    match e
    case New => "NEW" case Contacted => "CONTACTED" case Interested => "INTERESTED"
    case SiteVisitScheduled => "SITE_VISIT_SCHEDULED" case Negotiating => "NEGOTIATING"
    case ClosedWon => "CLOSED_WON" case ClosedLost => "CLOSED_LOST" case Dead => "DEAD"
  }
  const LeadStatuses: seq<LeadStatus> :=
    [New, Contacted, Interested, SiteVisitScheduled, Negotiating, ClosedWon, ClosedLost, Dead]

  function VisitStatusName(e: VisitStatus): string {
    match e
    case Scheduled => "SCHEDULED" case Completed => "COMPLETED" case NoShow => "NO_SHOW"
    case Rescheduled => "RESCHEDULED" case Cancelled => "CANCELLED"
  }
  const VisitStatuses: seq<VisitStatus> := [Scheduled, Completed, NoShow, Rescheduled, Cancelled]

  function ActivityTypeName(e: ActivityType): string {
    match e
    case Call => "CALL" case EmailSent => "EMAIL" case WhatsAppMessage => "WHATSAPP" case Sms => "SMS"
    case Meeting => "MEETING" case SiteVisit => "SITE_VISIT" case ProposalSent => "PROPOSAL_SENT" case Note => "NOTE"
  }
  const ActivityTypes: seq<ActivityType> := [Call, EmailSent, WhatsAppMessage, Sms, Meeting, SiteVisit, ProposalSent, Note]

  /** `s` is the name of one of the listed values. */
  predicate IsName<E(==)>(s: string, all: seq<E>, name: E -> string) {
    exists e :: e in all && name(e) == s
  }

  /** The listed value whose name is `s`. */
  function ParseEnum<E(==)>(s: string, all: seq<E>, name: E -> string): (r: Option<E>)
    ensures r.Some? ==> r.value in all && name(r.value) == s
    ensures r.None? <==> !IsName(s, all, name)
  {
    if all == [] then None
    else if name(all[0]) == s then Some(all[0])
    else
      var r := ParseEnum(s, all[1..], name);
      assert forall e :: e in all && e != all[0] ==> e in all[1..];
      r
  }

  /** `'A' | 'B' | ...` */
  function QuotedNames<E>(all: seq<E>, name: E -> string): string {
    if all == [] then ""
    else if |all| == 1 then "'" + name(all[0]) + "'"
    else "'" + name(all[0]) + "' | " + QuotedNames(all[1..], name)
  }

  /** The validation library's default message for a value outside an enum. */
  function EnumMessage<E>(all: seq<E>, name: E -> string, received: string): string {
    "Invalid enum value. Expected " + QuotedNames(all, name) + ", received '" + received + "'"
  }

  // ---------------------------------------------------------------- messages

  const Required: string := "Required"
  const NotInteger: string := "Expected integer, received float"
  const NotPositive: string := "Number must be greater than 0"
  const BelowOne: string := "Number must be greater than or equal to 1"
  const AboveFive: string := "Number must be less than or equal to 5"
  const ShortPassword: string := "Password must be at least 6 characters"

  // ---------------------------------------------------------------- field checks

  /** A required string of at least `n` characters. */
  function MinString(v: Option<string>, n: nat, msg: string): (r: Result<string>)
    ensures r.Success? <==> v.Some? && |v.value| >= n
    ensures r.Success? ==> r.value == v.value
    ensures v.None? ==> r == Failure(Required)
    ensures v.Some? && |v.value| < n ==> r == Failure(msg)
  {
    match v
    case None => Failure(Required)
    case Some(s) => if |s| >= n then Success(s) else Failure(msg)
  }

  /** A required string in e-mail format. */
  function EmailString(v: Option<string>, msg: string, f: Formats): (r: Result<string>)
    ensures r.Success? <==> v.Some? && f.isEmail(v.value)
    ensures r.Success? ==> r.value == v.value
    ensures v.None? ==> r == Failure(Required)
    ensures v.Some? && !f.isEmail(v.value) ==> r == Failure(msg)
  {
    match v
    case None => Failure(Required)
    case Some(s) => if f.isEmail(s) then Success(s) else Failure(msg)
  }

  /** An enum field; an absent value takes `default` when there is one. */
  function EnumField<E(==)>(v: Option<string>, all: seq<E>, name: E -> string, default: Option<E>): (r: Result<E>)
    ensures r.Success? <==> (v.None? && default.Some?) || (v.Some? && IsName(v.value, all, name))
    ensures r.Success? && v.None? ==> r.value == default.value
    ensures r.Success? && v.Some? ==> r.value in all && name(r.value) == v.value
    ensures v.None? && default.None? ==> r == Failure(Required)
    ensures v.Some? && !IsName(v.value, all, name) ==> r == Failure(EnumMessage(all, name, v.value))
  {
    match v
    case None => if default.Some? then Success(default.value) else Failure(Required)
    case Some(s) =>
      match ParseEnum(s, all, name)
      case Some(e) => Success(e)
      case None => Failure(EnumMessage(all, name, s))
  }

  /** A required number greater than zero. */
  function PositiveNumber(v: Option<real>, msg: string): (r: Result<real>)
    ensures r.Success? <==> v.Some? && v.value > 0.0
    ensures r.Success? ==> r.value == v.value
    ensures v.None? ==> r == Failure(Required)
  {
    match v
    case None => Failure(Required)
    case Some(x) => if x > 0.0 then Success(x) else Failure(msg)
  }

  /** An optional number greater than zero. */
  function OptionalPositive(v: Option<real>): (r: Result<Option<real>>)
    ensures r.Success? <==> v.None? || v.value > 0.0
    ensures r.Success? ==> r.value == v
  {
    match v
    case None => Success(None)
    case Some(x) => if x > 0.0 then Success(Some(x)) else Failure(NotPositive)
  }

  predicate IsIntegral(x: real) {
    x.Floor as real == x
  }

  /** An optional whole number greater than zero; the integer check comes first. */
  function OptionalPositiveInt(v: Option<real>): (r: Result<Option<int>>)
    ensures r.Success? <==> v.None? || (IsIntegral(v.value) && v.value > 0.0)
    ensures r.Success? && v.Some? ==> r.value.Some? && r.value.value as real == v.value
    ensures r.Success? && v.None? ==> r.value.None?
  {
    match v
    case None => Success(None)
    case Some(x) =>
      if !IsIntegral(x) then Failure(NotInteger)
      else if x <= 0.0 then Failure(NotPositive)
      else Success(Some(x.Floor))
  }

  /** An optional whole number between 1 and 5. */
  function OptionalRating(v: Option<real>): (r: Result<Option<int>>)
    ensures r.Success? <==> v.None? || (IsIntegral(v.value) && 1.0 <= v.value <= 5.0)
    ensures r.Success? && v.Some? ==> r.value.Some? && 1 <= r.value.value <= 5 && r.value.value as real == v.value
    ensures r.Success? && v.None? ==> r.value.None?
  {
    match v
    case None => Success(None)
    case Some(x) =>
      if !IsIntegral(x) then Failure(NotInteger)
      else if x < 1.0 then Failure(BelowOne)
      else if x > 5.0 then Failure(AboveFive)
      else Success(Some(x.Floor))
  }

  // ---------------------------------------------------------------- login and register

  datatype LoginBody = LoginBody(email: Option<string>, password: Option<string>)
  datatype LoginInput = LoginInput(email: string, password: string)

  function ValidateLogin(b: LoginBody, f: Formats): (r: Result<LoginInput>)
    ensures r.Success? <==> b.email.Some? && f.isEmail(b.email.value) && b.password.Some? && |b.password.value| >= 6
    ensures r.Success? ==> r.value == LoginInput(b.email.value, b.password.value)
    ensures b.email.Some? && f.isEmail(b.email.value) && b.password.Some? && |b.password.value| < 6
            ==> r == Failure(ShortPassword)
  {
    var email :- EmailString(b.email, "Invalid email address", f);
    var password :- MinString(b.password, 6, ShortPassword);
    Success(LoginInput(email, password))
  }

  /** A registration body; a `role` in it is not part of the schema and is dropped. */
  datatype RegisterBody = RegisterBody(
    email: Option<string>, password: Option<string>, firstName: Option<string>,
    lastName: Option<string>, phone: Option<string>, role: Option<string>)
  datatype RegisterInput = RegisterInput(email: string, password: string, firstName: string, lastName: string, phone: string)

  function ValidateRegister(b: RegisterBody, f: Formats): (r: Result<RegisterInput>)
    ensures r.Success? <==>
      && b.email.Some? && f.isEmail(b.email.value)
      && b.password.Some? && |b.password.value| >= 6
      && b.firstName.Some? && |b.firstName.value| >= 2
      && b.lastName.Some? && |b.lastName.value| >= 2
      && b.phone.Some? && |b.phone.value| >= 10
    ensures r.Success? ==> r.value == RegisterInput(b.email.value, b.password.value, b.firstName.value, b.lastName.value, b.phone.value)
    ensures b.email.None? ==> r == Failure(Required)
    ensures b.email.Some? && !f.isEmail(b.email.value) ==> r == Failure("Invalid email address")
    ensures b.email.Some? && f.isEmail(b.email.value) && b.password.Some? && |b.password.value| < 6
            ==> r == Failure(ShortPassword)
  {
    var email :- EmailString(b.email, "Invalid email address", f);
    var password :- MinString(b.password, 6, ShortPassword);
    var firstName :- MinString(b.firstName, 2, "First name required");
    var lastName :- MinString(b.lastName, 2, "Last name required");
    var phone :- MinString(b.phone, 10, "Valid phone number required");
    Success(RegisterInput(email, password, firstName, lastName, phone))
  }

  // ---------------------------------------------------------------- properties

  datatype PropertyBody = PropertyBody(
    title: Option<string>, description: Option<string>, kind: Option<string>, status: Option<string>,
    address: Option<string>, city: Option<string>, state: Option<string>, zipCode: Option<string>,
    country: Option<string>, price: Option<real>, bedrooms: Option<real>, bathrooms: Option<real>,
    squareFeet: Option<real>, furnishedStatus: Option<string>, latitude: Option<real>,
    longitude: Option<real>, notes: Option<string>, agentId: Option<string>)

  datatype PropertyInput = PropertyInput(
    title: string, description: Option<string>, kind: PropertyType, status: PropertyStatus,
    address: string, city: string, state: Option<string>, zipCode: Option<string>,
    country: string, price: real, bedrooms: Option<int>, bathrooms: Option<int>,
    squareFeet: Option<real>, furnishedStatus: Furnishing, latitude: Option<real>,
    longitude: Option<real>, notes: Option<string>, agentId: string)

  predicate LongEnough(v: Option<string>, n: nat) {
    v.Some? && |v.value| >= n
  }

  predicate OptionalName<E(==)>(v: Option<string>, all: seq<E>, name: E -> string) {
    v.None? || IsName(v.value, all, name)
  }

  predicate OptionalWholePositive(v: Option<real>) {
    v.None? || (IsIntegral(v.value) && v.value > 0.0)
  }

  function ValidateProperty(b: PropertyBody): (r: Result<PropertyInput>)
    ensures r.Success? <==>
      && LongEnough(b.title, 5)
      && b.kind.Some? && IsName(b.kind.value, PropertyTypes, PropertyTypeName)
      && OptionalName(b.status, PropertyStatuses, PropertyStatusName)
      && LongEnough(b.address, 5) && LongEnough(b.city, 2)
      && b.price.Some? && b.price.value > 0.0
      && OptionalWholePositive(b.bedrooms) && OptionalWholePositive(b.bathrooms)
      && (b.squareFeet.None? || b.squareFeet.value > 0.0)
      && OptionalName(b.furnishedStatus, Furnishings, FurnishingName)
      && LongEnough(b.agentId, 1)
    ensures r.Success? ==>
      var p := r.value;
      && p.title == b.title.value && p.address == b.address.value && p.city == b.city.value
      && p.price == b.price.value && p.agentId == b.agentId.value
      && PropertyTypeName(p.kind) == b.kind.value
      && p.description == b.description && p.state == b.state && p.zipCode == b.zipCode
      && p.squareFeet == b.squareFeet && p.latitude == b.latitude && p.longitude == b.longitude && p.notes == b.notes
      && (b.status.None? ==> p.status == Available)
      && (b.status.Some? ==> PropertyStatusName(p.status) == b.status.value)
      && p.country == b.country.GetOr("India")
      && (b.furnishedStatus.None? ==> p.furnishedStatus == Unfurnished)
      && (b.furnishedStatus.Some? ==> FurnishingName(p.furnishedStatus) == b.furnishedStatus.value)
    ensures b.title.Some? && |b.title.value| < 5 ==> r == Failure("Title must be at least 5 characters")
  {
    var title :- MinString(b.title, 5, "Title must be at least 5 characters");
    var kind :- EnumField(b.kind, PropertyTypes, PropertyTypeName, None);
    var status :- EnumField(b.status, PropertyStatuses, PropertyStatusName, Some(Available));
    var address :- MinString(b.address, 5, "Valid address required");
    var city :- MinString(b.city, 2, "City required");
    var price :- PositiveNumber(b.price, "Price must be greater than 0");
    var bedrooms :- OptionalPositiveInt(b.bedrooms);
    var bathrooms :- OptionalPositiveInt(b.bathrooms);
    var squareFeet :- OptionalPositive(b.squareFeet);
    var furnished :- EnumField(b.furnishedStatus, Furnishings, FurnishingName, Some(Unfurnished));
    var agentId :- MinString(b.agentId, 1, "Agent must be assigned");
    Success(PropertyInput(title, b.description, kind, status, address, city, b.state, b.zipCode,
                          b.country.GetOr("India"), price, bedrooms, bathrooms, squareFeet, furnished,
                          b.latitude, b.longitude, b.notes, agentId))
  }

  // ---------------------------------------------------------------- leads

  /** A lead body; an `assignedAgentId` in it is not part of the schema and is dropped. */
  datatype LeadBody = LeadBody(
    firstName: Option<string>, lastName: Option<string>, email: Option<string>, phone: Option<string>,
    kind: Option<string>, source: Option<string>, status: Option<string>,
    budgetMin: Option<real>, budgetMax: Option<real>, interestedPropertyId: Option<string>,
    notes: Option<string>, assignedAgentId: Option<string>)

  datatype LeadInput = LeadInput(
    firstName: string, lastName: string, email: Option<string>, phone: string,
    kind: LeadType, source: LeadSource, status: LeadStatus,
    budgetMin: Option<real>, budgetMax: Option<real>, interestedPropertyId: Option<string>,
    notes: Option<string>)

  /** An optional e-mail that may also be the empty string. */
  function LeadEmail(v: Option<string>, f: Formats): (r: Result<Option<string>>)
    ensures r.Success? <==> v.None? || v.value == "" || f.isEmail(v.value)
    ensures r.Success? ==> r.value == v
    ensures r.Failure? ==> r.error == "Invalid email"
  {
    match v
    case None => Success(None)
    case Some(s) => if f.isEmail(s) || s == "" then Success(Some(s)) else Failure("Invalid email")
  }

  function ValidateLead(b: LeadBody, f: Formats): (r: Result<LeadInput>)
    ensures r.Success? <==>
      && LongEnough(b.firstName, 2) && LongEnough(b.lastName, 2)
      && (b.email.None? || b.email.value == "" || f.isEmail(b.email.value))
      && LongEnough(b.phone, 10)
      && OptionalName(b.kind, LeadTypes, LeadTypeName)
      && b.source.Some? && IsName(b.source.value, LeadSources, LeadSourceName)
      && OptionalName(b.status, LeadStatuses, LeadStatusName)
      && (b.budgetMin.None? || b.budgetMin.value > 0.0)
      && (b.budgetMax.None? || b.budgetMax.value > 0.0)
    ensures r.Success? ==>
      var l := r.value;
      && l.firstName == b.firstName.value && l.lastName == b.lastName.value
      && l.email == b.email && l.phone == b.phone.value
      && LeadSourceName(l.source) == b.source.value
      && (b.kind.None? ==> l.kind == Buyer)
      && (b.kind.Some? ==> LeadTypeName(l.kind) == b.kind.value)
      && (b.status.None? ==> l.status == New)
      && (b.status.Some? ==> LeadStatusName(l.status) == b.status.value)
      && l.budgetMin == b.budgetMin && l.budgetMax == b.budgetMax
      && l.interestedPropertyId == b.interestedPropertyId && l.notes == b.notes
  {
    var firstName :- MinString(b.firstName, 2, "First name required");
    var lastName :- MinString(b.lastName, 2, "Last name required");
    var email :- LeadEmail(b.email, f);
    var phone :- MinString(b.phone, 10, "Valid phone number required");
    var kind :- EnumField(b.kind, LeadTypes, LeadTypeName, Some(Buyer));
    var source :- EnumField(b.source, LeadSources, LeadSourceName, None);
    var status :- EnumField(b.status, LeadStatuses, LeadStatusName, Some(New));
    var budgetMin :- OptionalPositive(b.budgetMin);
    var budgetMax :- OptionalPositive(b.budgetMax);
    Success(LeadInput(firstName, lastName, email, phone, kind, source, status,
                      budgetMin, budgetMax, b.interestedPropertyId, b.notes))
  }

  // ---------------------------------------------------------------- visits

  datatype VisitBody = VisitBody(
    leadId: Option<string>, propertyId: Option<string>, assignedAgentId: Option<string>,
    scheduledAt: Option<string>, notes: Option<string>)

  datatype VisitInput = VisitInput(
    leadId: string, propertyId: string, assignedAgentId: string, scheduledAt: string, notes: Option<string>)

  function ValidateVisit(b: VisitBody, f: Formats): (r: Result<VisitInput>)
    ensures r.Success? <==>
      LongEnough(b.leadId, 1) && LongEnough(b.propertyId, 1) && LongEnough(b.assignedAgentId, 1)
      && b.scheduledAt.Some? && f.isDateTime(b.scheduledAt.value)
    ensures r.Success? ==>
      r.value == VisitInput(b.leadId.value, b.propertyId.value, b.assignedAgentId.value, b.scheduledAt.value, b.notes)
    ensures b.leadId == Some("") ==> r == Failure("Lead ID required")
  {
    var leadId :- MinString(b.leadId, 1, "Lead ID required");
    var propertyId :- MinString(b.propertyId, 1, "Property ID required");
    var agentId :- MinString(b.assignedAgentId, 1, "Agent assignment required");
    var at :- match b.scheduledAt
              case None => Failure(Required)
              case Some(s) => if f.isDateTime(s) then Success(s) else Failure("Invalid date format");
    Success(VisitInput(leadId, propertyId, agentId, at, b.notes))
  }

  datatype VisitStatusBody = VisitStatusBody(status: Option<string>, feedback: Option<string>, rating: Option<real>)
  datatype VisitStatusInput = VisitStatusInput(status: VisitStatus, feedback: Option<string>, rating: Option<int>)

  function ValidateVisitStatus(b: VisitStatusBody): (r: Result<VisitStatusInput>)
    ensures r.Success? <==>
      && b.status.Some? && IsName(b.status.value, VisitStatuses, VisitStatusName)
      && (b.rating.None? || (IsIntegral(b.rating.value) && 1.0 <= b.rating.value <= 5.0))
    ensures r.Success? ==>
      && VisitStatusName(r.value.status) == b.status.value && r.value.feedback == b.feedback
      && (r.value.rating.Some? ==> 1 <= r.value.rating.value <= 5)
      && (b.rating.Some? ==> r.value.rating.Some? && r.value.rating.value as real == b.rating.value)
      && (b.rating.None? ==> r.value.rating.None?)
  {
    var status :- EnumField(b.status, VisitStatuses, VisitStatusName, None);
    var rating :- OptionalRating(b.rating);
    Success(VisitStatusInput(status, b.feedback, rating))
  }

  // ---------------------------------------------------------------- activities

  datatype ActivityBody = ActivityBody(leadId: Option<string>, kind: Option<string>, title: Option<string>, notes: Option<string>)
  datatype ActivityInput = ActivityInput(leadId: string, kind: ActivityType, title: string, notes: Option<string>)

  function ValidateActivity(b: ActivityBody): (r: Result<ActivityInput>)
    ensures r.Success? <==>
      LongEnough(b.leadId, 1) && b.kind.Some? && IsName(b.kind.value, ActivityTypes, ActivityTypeName) && LongEnough(b.title, 3)
    ensures r.Success? ==>
      && r.value.leadId == b.leadId.value && ActivityTypeName(r.value.kind) == b.kind.value
      && r.value.title == b.title.value && r.value.notes == b.notes
  {
    var leadId :- MinString(b.leadId, 1, "Lead ID required");
    var kind :- EnumField(b.kind, ActivityTypes, ActivityTypeName, None);
    var title :- MinString(b.title, 3, "Title required");
    Success(ActivityInput(leadId, kind, title, b.notes))
  }
}
