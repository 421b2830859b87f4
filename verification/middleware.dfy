/** The edge middleware: NextAuth's `withAuth` gate on the matched paths,
    then the role rules for the `/admin` and `/agent` prefixes. */
module Middleware {
  import opened Wrappers
  import opened Roles
  import NextAuth

  datatype Decision = Next | Redirect(to: string) | ToSignIn(page: string)

  const SignInPage: string := "/auth/login"
  const Matched: seq<string> := ["/dashboard", "/admin", "/agent", "/api/protected"]

  /** `authorized`: any token at all. */
  predicate Authorized(token: Option<NextAuth.Token>) {
    token.Some?
  }

  predicate HasRole(token: Option<NextAuth.Token>, r: Role) {
    token.Some? && token.value.role == Some(r)
  }

  /** `onSuccess`: prefix tests on the path against the token's role. */
  function OnSuccess(path: string, token: Option<NextAuth.Token>): (d: Decision)
    ensures d == Redirect("/dashboard") <==> "/admin" <= path && !HasRole(token, Admin)
    ensures d == Redirect("/") <==> "/agent" <= path && !HasRole(token, Admin) && !HasRole(token, Agent)
    ensures d.Next? || d == Redirect("/dashboard") || d == Redirect("/")
  {
    PrefixesDisjoint(path);
    if "/admin" <= path && !HasRole(token, Admin) then Redirect("/dashboard")
    else if "/agent" <= path && !HasRole(token, Admin) && !HasRole(token, Agent) then Redirect("/")
    else Next
  }

  /** A `/prefix/:path*` pattern: the prefix itself or anything below it. */
  predicate Below(path: string, prefix: string) {
    path == prefix || prefix + "/" <= path
  }

  predicate InScope(path: string) {
    exists i :: 0 <= i < |Matched| && Below(path, Matched[i])
  }

  /** The whole middleware: out-of-scope paths are not touched, a request
      without a token goes to the sign-in page, the rest meet the role rules. */
  function Handle(path: string, token: Option<NextAuth.Token>): (d: Decision)
    ensures !InScope(path) ==> d == Next
    ensures InScope(path) && !Authorized(token) ==> d == ToSignIn(SignInPage)
    ensures d.ToSignIn? ==> !Authorized(token)
    ensures InScope(path) && Authorized(token) ==> d == OnSuccess(path, token)
  {
    if !InScope(path) then Next
    else if !Authorized(token) then ToSignIn(SignInPage)
    else OnSuccess(path, token)
  }

  /** No token never gets through to a protected path. */
  lemma NoTokenNoEntry(path: string)
    requires InScope(path)
    ensures Handle(path, None) != Next && !Handle(path, None).Redirect?
  {
  }

  /** An admin is never redirected by the role rules. */
  lemma AdminNeverRedirected(path: string, token: NextAuth.Token)
    requires token.role == Some(Admin)
    ensures OnSuccess(path, Some(token)) == Next
  {
  }

  /** An agent is turned away from `/admin` and admitted to `/agent`. */
  lemma AgentRules(path: string, token: NextAuth.Token)
    requires token.role == Some(Agent)
    ensures OnSuccess(path, Some(token)) == if "/admin" <= path then Redirect("/dashboard") else Next
  {
  }

  /** A path starting with neither prefix passes the role rules unchanged. */
  lemma OtherPathsPass(path: string, token: Option<NextAuth.Token>)
    requires !("/admin" <= path) && !("/agent" <= path)
    ensures OnSuccess(path, token) == Next
  {
  }

  /** No path starts with both prefixes: they differ in their third character. */
  lemma PrefixesDisjoint(path: string)
    ensures !("/admin" <= path && "/agent" <= path)
  {
    assert "/admin" <= path ==> path[2] == 'd';
    assert "/agent" <= path ==> path[2] == 'g';
  }

  /** The rules are bare prefix tests, so `/administrator` counts as an admin
      path for them; the matcher never runs the middleware on it, though. */
  lemma AdministratorIsMatchedByRulesNotByMatcher(token: NextAuth.Token)
    requires token.role == Some(Client)
    ensures OnSuccess("/administrator", Some(token)) == Redirect("/dashboard")
    ensures !InScope("/administrator")
    ensures Handle("/administrator", Some(token)) == Next
  {
    var p := "/administrator";
    forall i | 0 <= i < |Matched| ensures !Below(p, Matched[i]) {
      if i == 0 { assert p[1] != Matched[0][1]; }
      else if i == 1 { assert p[6] != (Matched[1] + "/")[6]; }
      else if i == 2 { assert p[2] != Matched[2][2]; }
      else { assert p[2] != Matched[3][2]; }
    }
  }
}
