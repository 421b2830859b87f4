/** The older NextAuth configuration in `lib/auth.ts`. Its credential check is
    the same as in `src/lib/auth.ts`; it differs in what it returns (names and
    avatar default to "") and in its callbacks (the token carries id and role
    only, and the session copies them without defaults). */
module LegacyAuth {
  import opened Wrappers
  import opened Roles
  import opened Db
  import NextAuth

  datatype AuthUser = AuthUser(id: string, email: string, firstName: string, lastName: string, role: Role, avatar: string)

  /** The legacy token's id and role, and the address NextAuth keeps in it;
      a token from before any sign-in has none of them. */
  datatype Token = Token(id: Option<string>, role: Option<Role>, email: Option<string>)

  /** The session user as the callback leaves it: id and role are whatever
      the token held. */
  datatype SessionUser = SessionUser(id: Option<string>, role: Option<Role>, email: Option<string>)
  datatype Session = Session(user: Option<SessionUser>)

  /** `x || ""` on an optional string. */
  function OrEmpty(s: Option<string>): (r: string)
    ensures s.Some? ==> r == s.value
    ensures s.None? ==> r == ""
  {
    if s.Some? && s.value != "" then s.value else ""
  }

  function Identify(u: User): AuthUser {
    AuthUser(u.id, u.email, OrEmpty(u.firstName), OrEmpty(u.lastName), u.role, OrEmpty(u.avatar))
  }

  function Authorize(c: Option<NextAuth.Credentials>, users: seq<User>, compare: (string, string) -> bool, now: int): (r: NextAuth.SignIn<AuthUser>)
    ensures !NextAuth.Supplied(c) ==> r == NextAuth.SignIn(Failure(NextAuth.InvalidCredentials), users)
    ensures r.result.Failure? ==> r.users == users && (r.result.error == NextAuth.InvalidCredentials || r.result.error == NextAuth.Inactive)
    ensures NextAuth.Supplied(c) && (forall u :: u in users ==> !NextAuth.Admits(c, u, compare)) ==>
      r.result == Failure(NextAuth.InvalidCredentials)
    ensures r.result == Failure(NextAuth.Inactive) ==>
      exists u :: u in users && NextAuth.Admits(c, u, compare) && !u.isActive
    ensures r.result.Success? ==>
      exists u :: u in users && NextAuth.Admits(c, u, compare) && u.isActive
        && r.result.value == AuthUser(u.id, u.email, OrEmpty(u.firstName), OrEmpty(u.lastName), u.role, OrEmpty(u.avatar))
        && r.users == NextAuth.StampLogin(users, u.id, now)
  {
    if !NextAuth.Supplied(c) then NextAuth.SignIn(Failure(NextAuth.InvalidCredentials), users)
    else
      var found := FindUserByEmail(users, c.value.email.value);
      if found.None? || !NextAuth.Truthy(found.value.password) then NextAuth.SignIn(Failure(NextAuth.InvalidCredentials), users)
      else if !compare(c.value.password.value, found.value.password.value) then NextAuth.SignIn(Failure(NextAuth.InvalidCredentials), users)
      else if !found.value.isActive then NextAuth.SignIn(Failure(NextAuth.Inactive), users)
      else NextAuth.SignIn(Success(Identify(found.value)), NextAuth.StampLogin(users, found.value.id, now))
  }

  /** Both configurations reach the same verdict and leave the same user
      table; on success they name the same account, this one with its missing
      names and avatar replaced by "". */
  lemma AgreesWithCurrent(c: Option<NextAuth.Credentials>, users: seq<User>, compare: (string, string) -> bool, now: int)
    ensures var legacy, current := Authorize(c, users, compare, now), NextAuth.Authorize(c, users, compare, now);
            && legacy.users == current.users
            && legacy.result.Success? == current.result.Success?
            && (legacy.result.Failure? ==> legacy.result.error == current.result.error)
            && (legacy.result.Success? ==>
                  var a, b := legacy.result.value, current.result.value;
                  a.id == b.id && a.email == b.email && a.role == b.role
                  && a.firstName == OrEmpty(b.firstName) && a.lastName == OrEmpty(b.lastName) && a.avatar == OrEmpty(b.avatar))
  {
  }

  /** `jwt`: only id and role are written, and only while a user signs in. */
  function Jwt(token: Token, user: Option<AuthUser>): (r: Token)
    ensures r.email == token.email
    ensures user.None? ==> r == token
  {
    if user.Some? then token.(id := Some(user.value.id), role := Some(user.value.role)) else token
  }

  /** `session`: id and role are copied from the token as they are. */
  function SessionOf(session: Session, token: Token): (r: Session)
    ensures r.user.Some? <==> session.user.Some?
    ensures r.user.Some? ==> r.user.value.id == token.id && r.user.value.role == token.role
                             && r.user.value.email == session.user.value.email
  {
    match session.user
    case None => session
    case Some(su) => Session(Some(su.(id := token.id, role := token.role)))
  }

  /** After a sign-in both configurations give the session the same id and
      role; they differ only on a token that never saw a sign-in, where this
      one leaves id and role missing and the current one fills in "" and
      client. */
  lemma SessionsAgreeAfterSignIn(a: AuthUser, before: Token, su: SessionUser)
    ensures var s := SessionOf(Session(Some(su)), Jwt(before, Some(a)));
            s.user.value.id == Some(a.id) && s.user.value.role == Some(a.role)
  {
  }

  lemma BlankTokenLeavesGaps(su: SessionUser)
    ensures var s := SessionOf(Session(Some(su)), Token(None, None, None));
            s.user.value.id.None? && s.user.value.role.None?
    ensures var s := NextAuth.SessionOf(NextAuth.Session(Some(NextAuth.SessionUser("", Client, su.email))), NextAuth.Token(None, None, None));
            s.user.value.id == "" && s.user.value.role == Client
  {
  }
}
