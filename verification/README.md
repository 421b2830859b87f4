# Real-estate CRM decision core, in Dafny

A model of the request-handling core of a Next.js + Prisma real-estate CRM.
Agents and admins manage properties, leads, site visits and commissions, and
an admin dashboard rolls them up. Every handler is a pure function. It takes
the caller's identity, the parsed request and an in-memory `Store`, which
stands for the Prisma tables as sequences of records. It returns the HTTP
status with the JSON envelope, and for writes the store it leaves behind.

Modules, one per source file or shared concept:

- `Wrappers`, `Roles`, `Text`: optional values and results, the three roles,
  and the JavaScript string operations the source relies on: lower-casing,
  `\s`, `trim`, and case-insensitive `contains`.
- `Utils` (`src/lib/utils.ts`): role and ownership predicates, commission
  arithmetic, and truncate, slug and sanitise.
- `ApiResponse` (`src/lib/api-response.ts`): the success, error and
  paginated envelopes.
- `Validations` (`src/lib/validations.ts`): each zod schema as a validator.
  A validator returns the defaulted input, or the message of the first
  failing check.
- `Query`, `Db`: `findMany` with `where`, `orderBy`, `skip` and `take`,
  plus `count` and `findUnique`. Also the records and the shared 503/500
  classification of failed reads.
- `LeadsRoute`, `PropertiesRoute`, `VisitsRoute`, `CommissionsRoute`,
  `AnalyticsRoute`, `RegisterRoute`, `BackdoorRoute`: the route handlers under
  `src/app/api`.
- `SessionRoutes`: the session-based copies under `app/api`.
- `NextAuth`, `LegacyAuth`: the two NextAuth configurations (`src/lib/auth.ts`
  and `lib/auth.ts`).
- `Middleware`: the edge middleware.

Calls into code that is not part of this model become parameters:

- a failing database call is `outage: Option<Fault>`;
- a body that is not JSON is `body: None`;
- the caller's identity is an `Option<Identity>`, since `getAuthFromRequest` is
  not part of this model;
- zod's e-mail and date-time checks are `Formats`;
- bcrypt is `hash`/`compare`, and token creation is `sign`;
- clock readings and new row ids are plain arguments.

Two behaviours of the program worth knowing:

- `POST /api/commissions` answers 403 to every caller who is not an admin,
  including a caller with no identity.
- The session copies of the list routes under `app/api` report every failed
  read as 500; they never answer 503.

## Model

| member | source | states |
|---|---|---|
| Utils.CommissionProperties | src/lib/utils.ts:37-42 | the commission times 100 is price times percentage; 0% gives 0, 100% gives the price, and a percentage in 0..100 gives an amount between 0 and the price |
| Utils.RolePredicates | src/lib/utils.ts:44-46 | `isAdmin`/`isAgent`/`isClient` are `hasPermission` with that one role; an absent role passes none of them, and no role passes two |
| Utils.Includes | src/lib/utils.ts:53 | the linear scan is true exactly when the role is in the list |
| Utils.HasPermission | src/lib/utils.ts:48-54 | true iff a role is present and listed among the required roles; false for an absent role |
| Utils.AccessRules | src/lib/utils.ts:61-87 | lead access iff admin or assigned to the caller, so an unassigned lead denies every non-admin; property access iff admin or owner; user management iff admin, whatever the target's role |
| Utils.TruncateText | src/lib/utils.ts:89-92 | text no longer than the limit comes back unchanged; longer text becomes its first `max(n,0)` characters plus "...", of length `max(n,0)+3` |
| Utils.Keep | src/lib/utils.ts:97 | the global character-class removal keeps exactly the characters passing the test, and changes nothing when all pass |
| Utils.SqueezeChars | src/lib/utils.ts:98-99 | replacing runs with "-" introduces no character but "-" and drops every character of the run class |
| Utils.SqueezeNoDoubleDash | src/lib/utils.ts:99 | after `/-+/g` is replaced by "-" no two dashes are adjacent |
| Utils.SlugShape | src/lib/utils.ts:94-100 | a slug holds only lower-case word characters and "-", no whitespace, and never "--" |
| Utils.SlugIdempotent | src/lib/utils.ts:94-100 | slugging a slug changes nothing |
| Utils.SanitizeShape | src/lib/utils.ts:102-104 | the result contains only characters of the input, no "<" or ">", no leading or trailing whitespace, and a string that is already clean is unchanged |
| Utils.SanitizeIdempotent | src/lib/utils.ts:102-104 | sanitising twice is sanitising once |
| ApiResponse.SuccessResponse | src/lib/api-response.ts:10-19 | success is true and the data is carried; the message defaults to "Success" and the status code to 200 |
| ApiResponse.ErrorResponse | src/lib/api-response.ts:21-28 | success is false, there is no data or message, the error is carried, and the status code defaults to 400 |
| ApiResponse.Pages | src/lib/api-response.ts:43 | the page count is the ceiling of total/limit: zero iff total is zero, else `(pages-1)*limit < total <= pages*limit` |
| ApiResponse.PaginatedResponse | src/lib/api-response.ts:30-47 | echoes data, total, page and limit unchanged, with the ceiling page count and status code 200 |
| ApiResponse.PagesExample | src/lib/api-response.ts:39-45 | 15 rows in pages of 10 make 2 pages; 0 rows make 0; 10 rows make 1 |
| Validations.PositiveNumber | src/lib/validations.ts:29 | a required number is accepted iff it is greater than 0; missing gives "Required" |
| Validations.OptionalPositiveInt | src/lib/validations.ts:30-31 | an optional count is accepted iff missing or a positive whole number, and is kept as given |
| Validations.EnumField | src/lib/validations.ts:46-48 | an enum field accepts exactly the listed names and falls back to its default when missing; an unlisted value gives zod's "Invalid enum value" message |
| Validations.OptionalRating | src/lib/validations.ts:68 | a rating is accepted iff missing or a whole number in 1..5 |
| Validations.ValidateLogin | src/lib/validations.ts:5-8 | accepted iff the e-mail passes the format check and the password has at least 6 characters; a short password gives its message |
| Validations.ValidateRegister | src/lib/validations.ts:10-16 | accepted iff the e-mail is valid, the password has at least 6 characters, both names at least 2 and the phone at least 10; a missing e-mail gives "Required", a malformed one "Invalid email address", then a short password its own message |
| Validations.ValidateProperty | src/lib/validations.ts:19-38 | accepted iff title ≥ 5, address ≥ 5, city ≥ 2, price > 0, agentId non-empty and the enums and optional numbers are valid; defaults AVAILABLE, "India", UNFURNISHED; a short title gives its message |
| Validations.LeadEmail | src/lib/validations.ts:44 | a lead e-mail may be missing or "", otherwise it must pass the format check, failing with "Invalid email" |
| Validations.ValidateLead | src/lib/validations.ts:41-53 | accepted iff names ≥ 2, phone ≥ 10, e-mail valid or empty, source one of the seven, and the other enums and budgets valid; type defaults to BUYER and status to NEW |
| Validations.ValidateVisit | src/lib/validations.ts:56-62 | accepted iff the three ids are non-empty and the date passes the date-time check; an empty lead id gives "Lead ID required" |
| Validations.ValidateVisitStatus | src/lib/validations.ts:65-69 | accepted iff the status is one of the five visit states and the rating is absent or an integer in 1..5 |
| Validations.ValidateActivity | src/lib/validations.ts:72-77 | accepted iff the lead id is non-empty, the type is one of the eight and the title has at least 3 characters |
| Query.FindMany | src/app/api/leads/route.ts:51-65 | the page holds exactly `min(take, matches-skip)` rows when that is positive and none otherwise; every row is in the table and matches; rows are in descending key order |
| Query.FindManyIsPage | src/app/api/leads/route.ts:51-65 | the result is the window of `take` rows at `skip` of an arrangement of exactly the matching rows (as a multiset) in descending key order |
| Query.PagesTile | src/app/api/leads/route.ts:62-64 | the page of `a` rows at `skip` followed by the page of `b` rows after it is the page of `a+b` rows at `skip`: consecutive pages neither overlap nor leave a gap |
| Query.OnItsPage | src/app/api/leads/route.ts:62-64 | with a positive page size, the matching row at position `i` of the newest-first ordering is on the page starting at `(i / take) * take`, so every match is shown on some page |
| Query.CountExclusive | src/app/api/analytics/dashboard/route.ts:30-35 | counts under two exclusive `where` filters add up to at most the table's size |
| Db.FindProperty | src/app/api/commissions/route.ts:108-110 | a found property is in the table with the requested id; none is found iff no row has that id |
| Db.FindLead | src/app/api/visits/route.ts:98-101 | a found lead is in the table with the requested id; none is found iff no row has that id |
| Db.FindUserByEmail | src/app/api/auth/register/route.ts:15-17 | a found user has the address; none is found iff no user has it |
| Db.UniqueEmailLookup | src/lib/auth.ts:59-61 | on a table with unique e-mails, the lookup finds exactly the account with that address |
| Db.ReadFailure | src/app/api/leads/route.ts:72-92 | a failed read is 503 with the fallback-data message iff the error text contains "connect", "ECONNREFUSED", "ENOTFOUND" or "Connection refused", and otherwise 500 with the handler's message |
| Db.Listing | src/app/api/leads/route.ts:25-71 | a list reply is 200 with the window at `(page-1)*limit` of the matching rows in descending key order, `min(limit, total-skip)` of them, and pagination of all matches with the ceiling page count |
| LeadsRoute.LeadWhere | src/app/api/leads/route.ts:27-49 | a non-admin is confined to leads assigned to them and an admin is not; search, status and source apply only when non-empty |
| LeadsRoute.ListLeads | src/app/api/leads/route.ts:8-94 | 401 without identity; failed reads classified 503/500; otherwise the window at `(page-1)*limit` of the matching leads newest first, of the exact page size, all assigned to a non-admin caller, with pagination echoing page and limit and counting every match |
| LeadsRoute.ListedLeadsAccessible | src/app/api/leads/route.ts:29-32 | every listed lead is one `canAccessLead` grants the caller |
| LeadsRoute.SecondPageOfFifteen | src/app/api/leads/route.ts:19-70 | with fifteen matches, page 2 of size 10 has five leads and reports two pages |
| LeadsRoute.CreateLead | src/app/api/leads/route.ts:97-140 | 401, then 500 for a non-JSON body, 400 with the first validation message, 500 for a failed insert, else 201 with the lead appended; a non-admin's lead is assigned to the caller and an admin's to nobody; nothing is stored unless 201 |
| LeadsRoute.CreatedLeadIsCallers | src/app/api/leads/route.ts:110-114 | a non-admin's created lead is always one `canAccessLead` grants them, whatever the body says |
| PropertiesRoute.PropertyWhere | src/app/api/properties/route.ts:29-50 | a non-admin is confined to their own properties; search, status and type apply only when non-empty |
| PropertiesRoute.ListProperties | src/app/api/properties/route.ts:9-94 | 401 without identity; failed reads classified 503/500; otherwise the window at `(page-1)*limit` of the matching properties newest first, of the exact page size, all owned by a non-admin caller, with pagination echoing page and limit and counting every match |
| PropertiesRoute.ListedPropertiesAccessible | src/app/api/properties/route.ts:31-34 | every listed property is one `canAccessProperty` grants the caller |
| PropertiesRoute.CreateProperty | src/app/api/properties/route.ts:97-148 | 401, 500 for a non-JSON body, 400 with the first validation message, 403 iff a non-admin names another agent, 500 for a failed insert; 201 iff the caller may own the property, which is then appended with the validated fields |
| PropertiesRoute.ValidationBeforeOwnership | src/app/api/properties/route.ts:107-116 | an invalid body is a 400 even when it also names another agent |
| VisitsRoute.VisitWhere | src/app/api/visits/route.ts:26-39 | a non-admin is confined to their own visits; only an admin's `agentId` parameter filters; status applies when non-empty |
| VisitsRoute.ListVisits | src/app/api/visits/route.ts:8-81 | 401; 503/500 on failure; otherwise the window at `(page-1)*limit` of the matching visits in descending scheduled order, of the exact page size, the caller's own for a non-admin, with pagination echoing page and limit and counting every match |
| VisitsRoute.AgentParameterIgnoredForNonAdmin | src/app/api/visits/route.ts:29-39 | for a non-admin the reply does not depend on the `agentId` parameter |
| VisitsRoute.CreateVisit | src/app/api/visits/route.ts:84-138 | 401, 500 for a non-JSON body, 400 with the first message, 404 iff the lead or the property is missing, 500 for a failed insert; on 201 the validated visit is stored as given, scheduled |
| CommissionsRoute.CommissionWhere | src/app/api/commissions/route.ts:26-37 | a non-admin is confined to their own commissions; an admin may filter by agent; status applies when non-empty |
| CommissionsRoute.ListCommissions | src/app/api/commissions/route.ts:8-84 | 401; 503/500 on failure; otherwise the window at `(page-1)*limit` of the matching commissions newest first, of the exact page size, with pagination echoing page and limit and counting every match |
| CommissionsRoute.CreateCommission | src/app/api/commissions/route.ts:87-147 | 403 for anyone but an admin, identity or not; 400 iff agent id, property id or percentage is falsy; 404 iff the property is unknown; on 201 the price is copied and the amount is `calculateCommission` of it |
| CommissionsRoute.ZeroPercentageRejected | src/app/api/commissions/route.ts:100-105 | a percentage of 0 is rejected as a missing field |
| CommissionsRoute.SnapshotAmount | src/app/api/commissions/route.ts:119-129 | the stored amount times 100 is the property's price times the percentage |
| AnalyticsRoute.Rate | src/app/api/analytics/dashboard/route.ts:78-86 | a rate is 0 when its numerator is 0; times the denominator it equals the numerator times 100, so for a positive numerator it is `part/whole*100`; it always lies in 0..100 |
| AnalyticsRoute.Performances | src/app/api/analytics/dashboard/route.ts:60-70 | one performance row per agent, in table order |
| AnalyticsRoute.Dashboard | src/app/api/analytics/dashboard/route.ts:6-133 | 403 without an admin; 503/500 on failure; otherwise total and available properties, INTERESTED and CLOSED_WON leads, all and COMPLETED visits are the counts of those rows; pending and paid commissions are the count and summed amount (missing as 0) of the PENDING and PAID rows; totals are their sums and never exceed the tables; both rates are the percentages of those counts, zero-guarded; the performance list is one row per AGENT user in table order, each with a non-empty status |
| AnalyticsRoute.SumWhereAppend | src/app/api/analytics/dashboard/route.ts:50-57 | the amount sums split over concatenated tables |
| AnalyticsRoute.MissingAmountAddsNothing | src/app/api/analytics/dashboard/route.ts:50-53 | a commission without an amount counts as 0 |
| AnalyticsRoute.SumOfNone | src/app/api/analytics/dashboard/route.ts:65-68 | only commissions passing the filter contribute to a sum |
| AnalyticsRoute.AgentRowFigures | src/app/api/analytics/dashboard/route.ts:60-70 | an agent without PAID commissions has earned 0, and an agent without details has status "INACTIVE" |
| AnalyticsRoute.RollUpAccountsForPaid | src/app/api/analytics/dashboard/route.ts:50-70 | with distinct agent ids and every paid commission held by a listed agent, the agents' earned figures add up to the paid total |
| AnalyticsRoute.DashboardEarnedSumsToPaid | src/app/api/analytics/dashboard/route.ts:34-105 | on the dashboard itself, the per-agent `commissionEarned` figures sum to `commissions.paid.amount` under those conditions |
| SessionRoutes.ListLeads | app/api/leads/route.ts:9-80 | 401 without a session user; any failed read is 500, never 503; otherwise the window at `(page-1)*limit` of the matching leads newest first, with the exact page size and the full pagination |
| SessionRoutes.LeadsAgreeExceptUnavailable | app/api/leads/route.ts:73-79 | the two leads listings agree everywhere except that the token route's 503 is a 500 here |
| SessionRoutes.ListProperties | app/api/properties/route.ts:10-80 | 401 without a session user; failed reads are 500, never 503; otherwise the window at `(page-1)*limit` of the owner-confined matching properties newest first, with the exact page size and the full pagination |
| SessionRoutes.PropertiesAgreeExceptUnavailable | app/api/properties/route.ts:73-79 | the two properties listings agree except for 503 versus 500 |
| SessionRoutes.SessionLeadCreation | app/api/leads/route.ts:83-126 | 401 without a session user, 400 with the first message, and the created lead is the caller's unless the caller is an admin |
| SessionRoutes.SessionPropertyCreation | app/api/properties/route.ts:83-134 | 401 without a session user, 400 with the first message, 403 when a non-admin names another agent |
| RegisterRoute.Register | src/app/api/auth/register/route.ts:7-69 | 500 for a non-JSON body, 400 with the first message, 409 iff the address is taken, 201 iff it is free; the new account holds the hash, role AGENT and is active; the reply carries only id, e-mail and names; nothing changes unless 201 |
| RegisterRoute.AlwaysAgent | src/app/api/auth/register/route.ts:30-39 | a created account is an agent, whatever role the body asks for |
| RegisterRoute.RegisterKeepsEmailsUnique | src/app/api/auth/register/route.ts:14-39 | registration keeps e-mail addresses unique |
| RegisterRoute.RegisterTwice | src/app/api/auth/register/route.ts:15-52 | the same valid body twice gives 201, then 409 with the store unchanged |
| NextAuth.SessionLifetimes | src/lib/auth.ts:132-136 | sessions last 30 days (2592000 s) and are refreshed daily (86400 s) |
| NextAuth.StampLogin | src/lib/auth.ts:80-84 | recording a login sets `lastLogin` on the signed-in row only and changes nothing else |
| NextAuth.Authorize | src/lib/auth.ts:54-94 | missing credentials, unknown address, missing hash and wrong password all fail with "Invalid credentials"; "User account is inactive" only for an account whose password matched; success returns that account's id, e-mail and role and is the only path that records the login |
| NextAuth.AuthorizeAccount | src/lib/auth.ts:59-78 | with unique e-mails the verdict for an account is, in order: wrong password or no hash, then inactive, then success |
| NextAuth.JwtPassThrough | src/lib/auth.ts:99-106 | without a signing-in user the token is unchanged |
| NextAuth.SessionDefaults | src/lib/auth.ts:108-115 | a token lacking id and role gives session id "" and role CLIENT, and the session's own address when the token has none |
| NextAuth.SignedInSession | src/lib/auth.ts:98-115 | after a sign-in the session carries the signed-in user's id, role and address, whatever the token held before |
| NextAuth.RegisteredAgentSignsIn | src/lib/auth.ts:54-94 | an account just registered signs in with the same address and password, as an agent with the new id |
| LegacyAuth.OrEmpty | lib/auth.ts:82-85 | a missing name or avatar becomes "", a present one is kept |
| LegacyAuth.Authorize | lib/auth.ts:47-87 | the same check order and messages as the current configuration; success returns the account with missing names and avatar as "" and records the login |
| LegacyAuth.AgreesWithCurrent | lib/auth.ts:47-87 | both configurations give the same verdict and user table, and name the same account on success |
| LegacyAuth.Jwt | lib/auth.ts:91-97 | only id and role are written, only while a user signs in; the address is never touched |
| LegacyAuth.SessionOf | lib/auth.ts:98-104 | the session takes the token's id and role as they are, without defaults |
| LegacyAuth.SessionsAgreeAfterSignIn | lib/auth.ts:91-104 | after a sign-in the session carries the user's id and role |
| LegacyAuth.BlankTokenLeavesGaps | lib/auth.ts:98-104 | on a token without a sign-in, this configuration leaves id and role missing; the current one gives "" and CLIENT |
| BackdoorRoute.Lookup | src/app/api/auth/backdoor/route.ts:62 | a test user is found iff the table has that key, and it is that key's entry |
| BackdoorRoute.Login | src/app/api/auth/backdoor/route.ts:40-96 | 403 in production; 500 for a non-JSON body or a failed signer; 400 iff the role, ADMIN by default, is not one of the three; 200 iff not in production, the body parsed and the table's user for the role is signed; on 200 the user's role is the requested one, the token is the signer's and the message is "Test login: " plus the role |
| BackdoorRoute.NeverNotFound | src/app/api/auth/backdoor/route.ts:54-69 | the "no test user" 404 can never be returned |
| BackdoorRoute.MissingRoleIsAdmin | src/app/api/auth/backdoor/route.ts:51 | a body without a role signs in as the test admin |
| BackdoorRoute.SignsInAsTableEntry | src/app/api/auth/backdoor/route.ts:16-38 | the user signed in as is the test table's entry for the role |
| BackdoorRoute.Describe | src/app/api/auth/backdoor/route.ts:98-112 | 403 in production, otherwise the usage object listing ADMIN, AGENT, CLIENT |
| BackdoorRoute.ListedRolesAreAccepted | src/app/api/auth/backdoor/route.ts:107-111 | the roles listed are exactly those the login accepts |
| Middleware.OnSuccess | middleware.ts:6-24 | redirect to /dashboard iff the path starts with /admin and the token is not ADMIN; redirect to / iff it starts with /agent and the token is neither ADMIN nor AGENT; otherwise pass |
| Middleware.Handle | middleware.ts:5-43 | paths outside the matcher pass; a matched request without a token goes to /auth/login; the rest meet the role rules |
| Middleware.NoTokenNoEntry | middleware.ts:26-31 | a request without a token never reaches a protected path |
| Middleware.AdminNeverRedirected | middleware.ts:11-23 | an ADMIN token is never redirected |
| Middleware.AgentRules | middleware.ts:11-21 | an AGENT is sent away from /admin and admitted everywhere else |
| Middleware.OtherPathsPass | middleware.ts:11-23 | a path starting with neither prefix passes the rules unchanged |
| Middleware.PrefixesDisjoint | middleware.ts:11-17 | no path starts with both /admin and /agent, so at most one rule fires |
| Middleware.AdministratorIsMatchedByRulesNotByMatcher | middleware.ts:36-43 | the rules treat /administrator as an admin path, but the matcher never runs the middleware on it, so it passes |

## Left out

- Floating point and locale: money, percentages and rates are `real`. The two-decimal `toFixed` rate strings, `Intl` formatting and `parseFloat` of the price are not modelled.
- `parseInt` of page and limit: they are integers of at least 1. A NaN, zero or negative page or limit is not modelled.
- Utils.GenerateSlug: lower-casing folds ASCII letters only. A non-ASCII character whose JavaScript lower case is an ASCII letter, such as U+212A KELVIN SIGN (to "k") or U+0130 (to "i" plus a combining dot), is dropped by the model where the program keeps the letter.
- Case-insensitive search folds ASCII letters only. Lengths count code points, not UTF-16 units.
- A status, source or type filter outside its enum matches nothing here; Prisma would reject the query instead.
- Foreign-key integrity and the `include`/`_count` relations attached to rows are not modelled.
- The parallel queries of `Promise.all` are taken as sequential reads. A failure of any of them is the single `outage`.
- bcrypt, JWT signing, the auth cookie and zod's e-mail and date-time formats are uninterpreted parameters.
- Schema defaults are assumed: a new commission's status is "PENDING", a new visit is SCHEDULED, and a new account is active.
- A body that parses as JSON but is not an object (`null`, a number, an array) is not modelled: zod would answer 400 with its "Expected object" message, while the model has only an unreadable body (500) or a record.
- Rows with equal sort keys come back in an order the database does not fix; `IsPage` allows any such order, and `Query.PagesTile` pins consecutive pages of one arrangement together.
- JSON bodies whose fields have the wrong JavaScript type (numbers for strings, `null`) are not modelled. A field is either missing or of its declared type.
- `getAuthFromRequest`, `createToken` and `setAuthCookie` are not part of this model. The identity and the token arrive as arguments.
- A database failure inside `authorize` propagates into NextAuth, which is not part of this model.
- The login, logout and me routes, the React pages and layouts, the seed script and the Next.js configuration are not part of this model.
- The `events` logging callbacks and `console` output are left out as I/O.
- Utils.SanitizeShape: trimming uses the `\s` set of code points. Whitespace classes beyond it are not modelled.
- Validations.ValidateRegister: the ensures fix messages only for the e-mail and password fields. Later fields are covered by the acceptance condition.
- RegisterRoute.Register: the stored password is `hash(plain)`. With an uninterpreted hash, the model cannot prove it differs from the plaintext.
