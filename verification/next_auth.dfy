/** The NextAuth configuration in `src/lib/auth.ts`: the credentials
    `authorize` check, the `jwt` and `session` callbacks, and the session
    lifetimes. `compare` stands for bcrypt's password comparison. */
module NextAuth {
  import opened Wrappers
  import opened Roles
  import opened Validations
  import opened Db
  import RegisterRoute

  /** The submitted form; either field may be missing. */
  datatype Credentials = Credentials(email: Option<string>, password: Option<string>)

  /** What `authorize` hands to NextAuth on success. */
  datatype AuthUser = AuthUser(id: string, email: string, role: Role,
                               firstName: Option<string>, lastName: Option<string>, avatar: Option<string>)

  /** The verdict of `authorize` (the thrown message on failure) and the user
      table afterwards. */
  datatype SignIn<T> = SignIn(result: Result<T>, users: seq<User>)

  /** The token fields the callbacks read and write; any may be absent. */
  datatype Token = Token(id: Option<string>, role: Option<Role>, email: Option<string>)

  datatype SessionUser = SessionUser(id: string, role: Role, email: Option<string>)
  datatype Session = Session(user: Option<SessionUser>)

  const InvalidCredentials: string := "Invalid credentials"
  const Inactive: string := "User account is inactive"

  /** Thirty days and one day, in seconds. */
  const MaxAge: int := 30 * 24 * 60 * 60
  const UpdateAge: int := 24 * 60 * 60

  lemma SessionLifetimes()
    ensures MaxAge == 2592000 && UpdateAge == 86400 && MaxAge == 30 * UpdateAge
  {
  }

  /** `!x` on an optional string: missing and empty are both falsy. */
  predicate Truthy(s: Option<string>) {
    s.Some? && s.value != ""
  }

  /** Both fields were submitted and neither is empty. */
  predicate Supplied(c: Option<Credentials>) {
    c.Some? && Truthy(c.value.email) && Truthy(c.value.password)
  }

  /** Account `u` carries the submitted address and a stored hash that the
      submitted password matches. */
  predicate Admits(c: Option<Credentials>, u: User, compare: (string, string) -> bool)
    requires Supplied(c)
  {
    u.email == c.value.email.value && Truthy(u.password) && compare(c.value.password.value, u.password.value)
  }

  /** `prisma.user.update` of `lastLogin` on the row with the given id;
      nothing else about any row changes. */
  function StampLogin(users: seq<User>, id: string, now: int): (r: seq<User>)
    ensures |r| == |users|
    ensures forall i :: 0 <= i < |users| ==> r[i].(lastLogin := users[i].lastLogin) == users[i]
    ensures forall i :: 0 <= i < |users| ==> r[i].lastLogin == if users[i].id == id then Some(now) else users[i].lastLogin
  {
    if users == [] then []
    else [if users[0].id == id then users[0].(lastLogin := Some(now)) else users[0]] + StampLogin(users[1..], id, now)
  }

  function Identify(u: User): AuthUser {
    AuthUser(u.id, u.email, u.role, u.firstName, u.lastName, u.avatar)
  }

  /** The credentials check: missing fields, an unknown address, a missing hash
      and a wrong password all give the same message; inactivity is reported
      only once the password has matched; only success records the login. */
  function Authorize(c: Option<Credentials>, users: seq<User>, compare: (string, string) -> bool, now: int): (r: SignIn<AuthUser>)
    ensures !Supplied(c) ==> r == SignIn(Failure(InvalidCredentials), users)
    ensures r.result.Failure? ==> r.users == users && (r.result.error == InvalidCredentials || r.result.error == Inactive)
    ensures Supplied(c) && (forall u :: u in users ==> !Admits(c, u, compare)) ==> r.result == Failure(InvalidCredentials)
    ensures r.result == Failure(Inactive) ==>
      exists u :: u in users && Admits(c, u, compare) && !u.isActive
    ensures r.result.Success? ==>
      exists u :: u in users && Admits(c, u, compare) && u.isActive
        && r.result.value == AuthUser(u.id, u.email, u.role, u.firstName, u.lastName, u.avatar)
        && r.users == StampLogin(users, u.id, now)
  {
    if !Supplied(c) then SignIn(Failure(InvalidCredentials), users)
    else
      var found := FindUserByEmail(users, c.value.email.value);
      if found.None? || !Truthy(found.value.password) then SignIn(Failure(InvalidCredentials), users)
      else if !compare(c.value.password.value, found.value.password.value) then SignIn(Failure(InvalidCredentials), users)
      else if !found.value.isActive then SignIn(Failure(Inactive), users)
      else SignIn(Success(Identify(found.value)), StampLogin(users, found.value.id, now))
  }

  /** With unique addresses the verdict for an existing account is decided by
      that account alone, in the order the checks are written. */
  lemma AuthorizeAccount(c: Option<Credentials>, users: seq<User>, compare: (string, string) -> bool, now: int, u: User)
    requires UniqueEmails(users)
    requires Supplied(c) && u in users && u.email == c.value.email.value
    ensures var r := Authorize(c, users, compare, now);
            r.result == if !Admits(c, u, compare) then Failure(InvalidCredentials)
                        else if !u.isActive then Failure(Inactive)
                        else Success(Identify(u))
  {
    UniqueEmailLookup(users, u.email);
  }

  /** `jwt`: a signing-in user's id, role and address are written to the
      token; on later calls the token passes through. */
  function Jwt(token: Token, user: Option<AuthUser>): Token {
    if user.Some? then Token(Some(user.value.id), Some(user.value.role), Some(user.value.email)) else token
  }

  /** `session`: the session user takes the token's id and role, defaulting to
      "" and client, and the token's address when it has one. */
  function SessionOf(session: Session, token: Token): Session {
    match session.user
    case None => session
    case Some(su) =>
      Session(Some(SessionUser(token.id.GetOr(""), token.role.GetOr(Client),
                               if token.email.Some? then token.email else su.email)))
  }

  lemma JwtPassThrough(token: Token)
    ensures Jwt(token, None) == token
  {
  }

  /** A token without id or role gives a session with id "" and the client role. */
  lemma SessionDefaults(su: SessionUser, token: Token)
    requires token.id.None? && token.role.None?
    ensures var s := SessionOf(Session(Some(su)), token);
            s.user.value.id == "" && s.user.value.role == Client
            && s.user.value.email == (if token.email.Some? then token.email else su.email)
  {
  }

  /** The session built from a signed-in user's token carries that user's id,
      role and address, whatever the token held before. */
  lemma SignedInSession(a: AuthUser, before: Token, su: SessionUser)
    ensures SessionOf(Session(Some(su)), Jwt(before, Some(a))).user == Some(SessionUser(a.id, a.role, Some(a.email)))
  {
  }

  /** Someone who has just registered can sign in with the same address and
      password, as an agent, given a hash that `compare` accepts. */
  lemma RegisteredAgentSignsIn(body: RegisterBody, f: Formats, db: Store, newId: string,
                               hash: string -> string, compare: (string, string) -> bool, now: int)
    requires UniqueEmails(db.users)
    requires forall p :: compare(p, hash(p)) && hash(p) != ""
    requires body.email.Some? && body.email.value != ""
    requires RegisterRoute.Register(Some(body), f, db, None, newId, hash).reply.status == 201
    ensures var users := RegisterRoute.Register(Some(body), f, db, None, newId, hash).store.users;
            var r := Authorize(Some(Credentials(body.email, body.password)), users, compare, now);
            r.result.Success? && r.result.value.role == Agent && r.result.value.id == newId
  {
    var o := RegisterRoute.Register(Some(body), f, db, None, newId, hash);
    RegisterRoute.RegisterKeepsEmailsUnique(Some(body), f, db, None, newId, hash);
    var users := o.store.users;
    var account := users[|users| - 1];
    assert account in users;
    AuthorizeAccount(Some(Credentials(body.email, body.password)), users, compare, now, account);
  }
}
